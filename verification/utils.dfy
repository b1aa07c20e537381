/** The stateless helpers of `src/utils.rs`: the human-readable size parser behind
    `--output-limit` and the link check applied to the default output file. */
module Utils {
  import opened Results
  import opened Decimal

  // ---------------------------------------------------------------------------
  // Trimming and lower-casing, as Rust's `str::trim` and `str::to_lowercase`

  /** Rust's `char::is_whitespace`: the Unicode White_Space property. */
  predicate IsWhitespace(c: char) {
    || '\U{0009}' <= c <= '\U{000D}'
    || c == ' ' || c == '\U{0085}' || c == '\U{00A0}' || c == '\U{1680}'
    || '\U{2000}' <= c <= '\U{200A}'
    || c == '\U{2028}' || c == '\U{2029}' || c == '\U{202F}' || c == '\U{205F}' || c == '\U{3000}'
  }

  predicate AllWhitespace(s: string) {
    forall i :: 0 <= i < |s| ==> IsWhitespace(s[i])
  }

  function TrimStart(s: string): (r: string)
    ensures |r| <= |s| && r == s[|s| - |r|..]
    ensures r == [] || !IsWhitespace(r[0])
  {
    if s != [] && IsWhitespace(s[0]) then TrimStart(s[1..]) else s
  }

  function TrimEnd(s: string): (r: string)
    ensures |r| <= |s| && r == s[..|r|]
    ensures r == [] || !IsWhitespace(r[|r| - 1])
  {
    if s != [] && IsWhitespace(s[|s| - 1]) then TrimEnd(s[..|s| - 1]) else s
  }

  /** Rust's `str::trim`: white space removed at both ends. */
  function Trim(s: string): string {
    TrimEnd(TrimStart(s))
  }

  /** The lower-case form of one character, for every character whose lower case
      can matter to `parse_size`: the ASCII capitals and KELVIN SIGN, whose lower case
      is the ASCII `k`. Other characters are kept as they are. */
  function LowerChar(c: char): (l: char)
    ensures IsWhitespace(l) <==> IsWhitespace(c)
  {
    if 'A' <= c <= 'Z' then (c as int + 32) as char
    else if c == '\U{212A}' then 'k'
    else c
  }

  function ToLower(s: string): (r: string)
    ensures |r| == |s|
    ensures forall i :: 0 <= i < |s| ==> r[i] == LowerChar(s[i])
  {
    if s == [] then [] else [LowerChar(s[0])] + ToLower(s[1..])
  }

  // ---------------------------------------------------------------------------
  // parse_size

  predicate EndsWith(s: string, suffix: string) {
    |suffix| <= |s| && s[|s| - |suffix|..] == suffix
  }

  /** The six unit suffixes `parse_size` accepts, and the absence of one. */
  datatype Unit = NoUnit | K | KB | M | MB | G | GB

  function UnitText(u: Unit): string {
    match u
    case NoUnit => ""
    case K => "k"
    case KB => "kb"
    case M => "m"
    case MB => "mb"
    case G => "g"
    case GB => "gb"
  }

  function Multiplier(u: Unit): nat {
    match u
    case NoUnit => 1
    case K | KB => 1024
    case M | MB => 1024 * 1024
    case G | GB => 1024 * 1024 * 1024
  }

  /** The branch chain of `parse_size`: which suffix is stripped from the trimmed,
      lower-cased text and which multiplier it selects. */
  function SplitSuffix(t: string): (string, nat) {
    if EndsWith(t, "k") || EndsWith(t, "kb") then
      (if EndsWith(t, "kb") then t[..|t| - 2] else t[..|t| - 1], 1024)
    else if EndsWith(t, "m") || EndsWith(t, "mb") then
      (if EndsWith(t, "mb") then t[..|t| - 2] else t[..|t| - 1], 1024 * 1024)
    else if EndsWith(t, "g") || EndsWith(t, "gb") then
      (if EndsWith(t, "gb") then t[..|t| - 2] else t[..|t| - 1], 1024 * 1024 * 1024)
    else
      (t, 1)
  }

  datatype SizeError =
    | EmptySize
    | InvalidNumber(numberPart: string)
    | SizeOverflow(number: nat, multiplier: nat)

  /** The number part read as a `u64`, paired with the multiplier. */
  function NumberParts(numberPart: string, multiplier: nat): Result<(nat, nat), SizeError> {
    match ParseU64(numberPart)
    case None => Err(InvalidNumber(numberPart))
    case Some(n) => Ok((n, multiplier))
  }

  /** Everything `parse_size` does before the final multiplication, on the trimmed,
      lower-cased text: the number and the multiplier, or the error that stops it earlier. */
  function TrimmedParts(t: string): Result<(nat, nat), SizeError> {
    if t == [] then Err(EmptySize)
    else
      var (numberPart, multiplier) := SplitSuffix(t);
      NumberParts(numberPart, multiplier)
  }

  function SizeParts(s: string): Result<(nat, nat), SizeError> {
    TrimmedParts(Trim(ToLower(s)))
  }

  /** The last step of `parse_size` as written: `number * suffix` in `u64`
      arithmetic, which a release build wraps modulo 2^64. */
  function WrappedProduct(parts: Result<(nat, nat), SizeError>): (r: Result<nat, SizeError>)
    ensures r.Ok? ==> r.value < U64_LIMIT
  {
    match parts
    case Err(e) => Err(e)
    case Ok((n, m)) => Ok((n * m) % U64_LIMIT)
  }

  function Product(n: nat, m: nat): nat {
    n * m
  }

  /** The last step of `parse_size` with the product checked: a size that does not
      fit in a `u64` is an error rather than a wrapped value. */
  function CheckedProduct(parts: Result<(nat, nat), SizeError>): (r: Result<nat, SizeError>)
    ensures r.Ok? ==> r.value < U64_LIMIT
  {
    match parts
    case Err(e) => Err(e)
    case Ok((n, m)) =>
      var p := Product(n, m);
      if p < U64_LIMIT then Ok(p) else Err(SizeOverflow(n, m))
  }

  /** `parse_size` as written. */
  function ParseSizeAsWritten(s: string): (r: Result<nat, SizeError>)
    ensures r.Ok? ==> r.value < U64_LIMIT
  {
    WrappedProduct(SizeParts(s))
  }

  /** `parse_size` with an overflowing product refused; the rest of the model uses this one. */
  function ParseSize(s: string): (r: Result<nat, SizeError>)
    ensures r.Ok? ==> r.value < U64_LIMIT
    ensures r == Err(EmptySize) <==> AllWhitespace(s)
  {
    TrimEmptyIffWhitespace(ToLower(s));
    LowerKeepsWhitespace(s);
    CheckedProduct(SizeParts(s))
  }

  // ---------------------------------------------------------------------------
  // die_if_link

  /** What `fs::symlink_metadata` reports about an existing path. */
  datatype Metadata = Metadata(isSymlink: bool, nlink: nat)

  datatype LinkError = IsLink(path: string)

  /** `die_if_link`: `metadata` is the result of looking the path up without
      following links; `None` stands for every lookup failure, a missing file
      among them. */
  function DieIfLink(path: string, metadata: Option<Metadata>): (r: Result<(), LinkError>)
    ensures metadata.None? ==> r.Ok?
    ensures r.Err? <==> metadata.Some? && (metadata.value.isSymlink || metadata.value.nlink > 1)
    ensures r.Err? ==> r.error == IsLink(path)
  {
    match metadata
    case None => Ok(())
    case Some(md) =>
      if md.isSymlink then Err(IsLink(path))
      else if md.nlink > 1 then Err(IsLink(path))
      else Ok(())
  }

  // ---------------------------------------------------------------------------
  // Lemmas about trimming and lower-casing

  lemma LowerKeepsWhitespace(s: string)
    ensures AllWhitespace(ToLower(s)) <==> AllWhitespace(s)
  {
    if !AllWhitespace(s) {
      var i :| 0 <= i < |s| && !IsWhitespace(s[i]);
      assert !IsWhitespace(ToLower(s)[i]);
    }
  }

  lemma {:induction false} TrimStartEmptyIffWhitespace(s: string)
    ensures TrimStart(s) == [] <==> AllWhitespace(s)
  {
    if s != [] && IsWhitespace(s[0]) {
      TrimStartEmptyIffWhitespace(s[1..]);
      assert AllWhitespace(s[1..]) ==> AllWhitespace(s) by {
        if AllWhitespace(s[1..]) {
          forall i | 0 <= i < |s| ensures IsWhitespace(s[i]) {
            if i > 0 { assert s[i] == s[1..][i - 1]; }
          }
        }
      }
    }
  }

  lemma TrimEmptyIffWhitespace(s: string)
    ensures Trim(s) == [] <==> AllWhitespace(s)
  {
    TrimStartEmptyIffWhitespace(s);
    var t := TrimStart(s);
    assert t == [] || !IsWhitespace(t[0]);
    if t != [] {
      assert |TrimEnd(t)| > 0 by {
        if TrimEnd(t) == [] { TrimEndOfNonBlank(t); }
      }
    }
  }

  lemma {:induction false} TrimEndOfNonBlank(t: string)
    requires t != [] && !IsWhitespace(t[0])
    ensures TrimEnd(t) != []
  {
    if |t| > 1 && IsWhitespace(t[|t| - 1]) {
      TrimEndOfNonBlank(t[..|t| - 1]);
    }
  }

  /** Leading white space does not change what `TrimStart` keeps. */
  lemma {:induction false} TrimStartSkipsBlank(w: string, x: string)
    requires AllWhitespace(w)
    ensures TrimStart(w + x) == TrimStart(x)
  {
    if w == [] {
      assert w + x == x;
    } else {
      assert IsWhitespace(w[0]);
      assert (w + x)[0] == w[0];
      assert (w + x)[1..] == w[1..] + x;
      assert AllWhitespace(w[1..]);
      TrimStartSkipsBlank(w[1..], x);
    }
  }

  /** Trailing white space does not change what `TrimEnd` keeps. */
  lemma {:induction false} TrimEndSkipsBlank(x: string, w: string)
    requires AllWhitespace(w)
    ensures TrimEnd(x + w) == TrimEnd(x)
  {
    if w != [] {
      assert (x + w)[..|x + w| - 1] == x + w[..|w| - 1];
      TrimEndSkipsBlank(x, w[..|w| - 1]);
    } else {
      assert x + w == x;
    }
  }

  /** Once `TrimStart` has reached a non-blank character, what follows is kept. */
  lemma {:induction false} TrimStartAppend(x: string, y: string)
    ensures TrimStart(x) != [] ==> TrimStart(x + y) == TrimStart(x) + y
    ensures TrimStart(x) == [] ==> TrimStart(x + y) == TrimStart(y)
  {
    if x == [] {
      assert x + y == y;
    } else if IsWhitespace(x[0]) {
      assert (x + y)[1..] == x[1..] + y;
      TrimStartAppend(x[1..], y);
    }
  }

  /** Text that starts and ends with a non-blank character is its own trim. */
  lemma TrimOfNonBlankEnds(s: string)
    requires s != [] && !IsWhitespace(s[0]) && !IsWhitespace(s[|s| - 1])
    ensures Trim(s) == s
  {
  }

  lemma TrimOfPadded(w1: string, x: string, w2: string)
    requires AllWhitespace(w1) && AllWhitespace(w2)
    ensures Trim(w1 + x + w2) == Trim(x)
  {
    assert w1 + x + w2 == w1 + (x + w2);
    TrimStartSkipsBlank(w1, x + w2);
    TrimStartAppend(x, w2);
    if TrimStart(x) != [] {
      TrimEndSkipsBlank(TrimStart(x), w2);
    } else {
      TrimStartSkipsBlank(w2, []);
      assert w2 + [] == w2;
    }
  }

  lemma LowerOfConcat(a: string, b: string)
    ensures ToLower(a + b) == ToLower(a) + ToLower(b)
  {
    var l, r := ToLower(a + b), ToLower(a) + ToLower(b);
    assert forall i :: 0 <= i < |l| ==> l[i] == r[i];
  }

  lemma LowerOfLower(s: string)
    ensures ToLower(ToLower(s)) == ToLower(s)
  {
    forall i | 0 <= i < |s| ensures LowerChar(LowerChar(s[i])) == LowerChar(s[i]) {
    }
  }

  // ---------------------------------------------------------------------------
  // Properties of parse_size

  /** Surrounding white space is ignored. */
  lemma ParseSizeIgnoresPadding(w1: string, s: string, w2: string)
    requires AllWhitespace(w1) && AllWhitespace(w2)
    ensures ParseSize(w1 + s + w2) == ParseSize(s)
    ensures ParseSizeAsWritten(w1 + s + w2) == ParseSizeAsWritten(s)
  {
    LowerOfConcat(w1 + s, w2);
    LowerOfConcat(w1, s);
    LowerKeepsWhitespace(w1);
    LowerKeepsWhitespace(w2);
    TrimOfPadded(ToLower(w1), ToLower(s), ToLower(w2));
    assert Trim(ToLower(w1 + s + w2)) == Trim(ToLower(s));
  }

  /** Case is ignored: a string and its lower-case form parse alike. */
  lemma ParseSizeIgnoresCase(s: string)
    ensures ParseSize(ToLower(s)) == ParseSize(s)
    ensures ParseSizeAsWritten(ToLower(s)) == ParseSizeAsWritten(s)
  {
    LowerOfLower(s);
  }

  /** The unit the branch chain of `parse_size` selects for a trimmed, lower-cased text. */
  function SuffixUnit(t: string): Unit {
    if EndsWith(t, "k") || EndsWith(t, "kb") then (if EndsWith(t, "kb") then KB else K)
    else if EndsWith(t, "m") || EndsWith(t, "mb") then (if EndsWith(t, "mb") then MB else M)
    else if EndsWith(t, "g") || EndsWith(t, "gb") then (if EndsWith(t, "gb") then GB else G)
    else NoUnit
  }

  /** The chain strips exactly the text of one unit, and selects that unit's multiplier. */
  lemma SplitSuffixIsUnit(t: string)
    ensures var u := SuffixUnit(t);
            && EndsWith(t, UnitText(u))
            && SplitSuffix(t) == (t[..|t| - |UnitText(u)|], Multiplier(u))
  {
    if EndsWith(t, "k") || EndsWith(t, "kb") {
      if EndsWith(t, "kb") { assert SuffixUnit(t) == KB; } else { assert SuffixUnit(t) == K; }
    } else if EndsWith(t, "m") || EndsWith(t, "mb") {
      if EndsWith(t, "mb") { assert SuffixUnit(t) == MB; } else { assert SuffixUnit(t) == M; }
    } else if EndsWith(t, "g") || EndsWith(t, "gb") {
      if EndsWith(t, "gb") { assert SuffixUnit(t) == GB; } else { assert SuffixUnit(t) == G; }
    } else {
      assert SuffixUnit(t) == NoUnit && t[..|t| - 0] == t;
    }
  }

  /** `parse_size` on every input: blank text is the empty-size error; otherwise the
      number part left by the suffix chain must be a `u64`, or it is named in the
      error; otherwise the size is that number times the unit's multiplier, refused
      when it does not fit in 64 bits and wrapped in the code as written. */
  lemma ParseSizeValue(s: string)
    ensures var t := Trim(ToLower(s));
            var (p, m) := SplitSuffix(t);
            && (ParseSize(s) == Err(EmptySize) <==> t == [])
            && (t != [] && ParseU64(p).None? ==> ParseSize(s) == Err(InvalidNumber(p)) && ParseSizeAsWritten(s) == Err(InvalidNumber(p)))
            && (ParseSize(s).Ok? <==> t != [] && ParseU64(p).Some? && ParseU64(p).value * m < U64_LIMIT)
            && (t != [] && ParseU64(p).Some? ==>
                  && ParseSize(s) == (if ParseU64(p).value * m < U64_LIMIT then Ok(ParseU64(p).value * m)
                                      else Err(SizeOverflow(ParseU64(p).value, m)))
                  && ParseSizeAsWritten(s) == Ok((ParseU64(p).value * m) % U64_LIMIT))
  {
  }

  lemma SplitK(p: string)
    ensures SplitSuffix(p + "k") == (p, 1024)
  {
    var t := p + "k";
    assert t[|t| - 1] == 'k' && t[|t| - 1..] == "k";
    assert !EndsWith(t, "kb");
    assert t[..|t| - 1] == p;
  }

  lemma SplitKB(p: string)
    ensures SplitSuffix(p + "kb") == (p, 1024)
  {
    var t := p + "kb";
    assert t[|t| - 2..] == "kb";
    assert t[..|t| - 2] == p;
  }

  lemma SplitM(p: string)
    ensures SplitSuffix(p + "m") == (p, 1024 * 1024)
  {
    var t := p + "m";
    assert t[|t| - 1] == 'm' && t[|t| - 1..] == "m";
    assert !EndsWith(t, "k") && !EndsWith(t, "kb") && !EndsWith(t, "mb");
    assert t[..|t| - 1] == p;
  }

  lemma SplitMB(p: string)
    ensures SplitSuffix(p + "mb") == (p, 1024 * 1024)
  {
    var t := p + "mb";
    assert t[|t| - 1] == 'b' && t[|t| - 2] == 'm' && t[|t| - 2..] == "mb";
    assert !EndsWith(t, "k") && !EndsWith(t, "kb");
    assert t[..|t| - 2] == p;
  }

  lemma SplitG(p: string)
    ensures SplitSuffix(p + "g") == (p, 1024 * 1024 * 1024)
  {
    var t := p + "g";
    assert t[|t| - 1] == 'g' && t[|t| - 1..] == "g";
    assert !EndsWith(t, "k") && !EndsWith(t, "kb") && !EndsWith(t, "m") && !EndsWith(t, "mb");
    assert !EndsWith(t, "gb");
    assert t[..|t| - 1] == p;
  }

  lemma SplitGB(p: string)
    ensures SplitSuffix(p + "gb") == (p, 1024 * 1024 * 1024)
  {
    var t := p + "gb";
    assert t[|t| - 1] == 'b' && t[|t| - 2] == 'g' && t[|t| - 2..] == "gb";
    assert !EndsWith(t, "k") && !EndsWith(t, "kb") && !EndsWith(t, "m") && !EndsWith(t, "mb");
    assert t[..|t| - 2] == p;
  }

  /** Stripping a unit suffix from a number part gives the number part back. */
  lemma SplitSuffixOfUnit(p: string, u: Unit)
    requires u != NoUnit
    ensures SplitSuffix(p + UnitText(u)) == (p, Multiplier(u))
  {
    match u
    case K => SplitK(p);
    case KB => SplitKB(p);
    case M => SplitM(p);
    case MB => SplitMB(p);
    case G => SplitG(p);
    case GB => SplitGB(p);
  }

  /** A unit suffix is made of letters only. */
  lemma UnitTextIsNotBlank(u: Unit)
    requires u != NoUnit
    ensures |UnitText(u)| > 0 && !IsWhitespace(UnitText(u)[0])
    ensures !IsWhitespace(UnitText(u)[|UnitText(u)| - 1])
  {
  }

  /** Trimming text that ends in a non-blank suffix removes white space on the left only. */
  lemma TrimBeforeSuffix(x: string, sfx: string)
    requires sfx != [] && !IsWhitespace(sfx[0]) && !IsWhitespace(sfx[|sfx| - 1])
    ensures Trim(x + sfx) == TrimStart(x) + sfx
  {
    TrimStartAppend(x, sfx);
    var p := TrimStart(x);
    if p == [] {
      assert TrimStart(sfx) == sfx;
      assert p + sfx == sfx;
    }
    var ts := p + sfx;
    assert TrimStart(x + sfx) == ts;
    assert ts[|ts| - 1] == sfx[|sfx| - 1];
    assert TrimEnd(ts) == ts;
  }

  lemma TrimBeforeUnit(x: string, u: Unit)
    requires u != NoUnit
    ensures Trim(x + UnitText(u)) == TrimStart(x) + UnitText(u)
  {
    UnitTextIsNotBlank(u);
    TrimBeforeSuffix(x, UnitText(u));
  }

  lemma LowerOfUnitText(u: Unit)
    ensures ToLower(UnitText(u)) == UnitText(u)
  {
  }

  /** What a unit suffix does: whatever precedes it (trimmed on the left, lower-cased)
      is read as a `u64`, and its value is multiplied by the unit's multiplier. */
  lemma SizePartsWithUnit(x: string, u: Unit)
    requires u != NoUnit
    ensures SizeParts(x + UnitText(u)) == NumberParts(TrimStart(ToLower(x)), Multiplier(u))
  {
    var sfx := UnitText(u);
    LowerOfConcat(x, sfx);
    LowerOfUnitText(u);
    TrimBeforeUnit(ToLower(x), u);
    SplitSuffixOfUnit(TrimStart(ToLower(x)), u);
  }

  /** A one-letter unit means the same as its two-letter form, for every prefix. */
  lemma KiloForms(x: string)
    ensures ParseSize(x + "k") == ParseSize(x + "kb")
  {
    SizePartsWithUnit(x, K);
    SizePartsWithUnit(x, KB);
    assert UnitText(K) == "k" && UnitText(KB) == "kb";
    assert SizeParts(x + "k") == SizeParts(x + "kb");
  }

  lemma MegaForms(x: string)
    ensures ParseSize(x + "m") == ParseSize(x + "mb")
  {
    SizePartsWithUnit(x, M);
    SizePartsWithUnit(x, MB);
    assert UnitText(M) == "m" && UnitText(MB) == "mb";
    assert SizeParts(x + "m") == SizeParts(x + "mb");
  }

  lemma GigaForms(x: string)
    ensures ParseSize(x + "g") == ParseSize(x + "gb")
  {
    SizePartsWithUnit(x, G);
    SizePartsWithUnit(x, GB);
    assert UnitText(G) == "g" && UnitText(GB) == "gb";
    assert SizeParts(x + "g") == SizeParts(x + "gb");
  }

  /** Digits are left alone by lower-casing and trimming. */
  lemma DigitsAreFixed(s: string)
    requires AllDigits(s)
    ensures ToLower(s) == s && TrimStart(s) == s && TrimEnd(s) == s
  {
    assert forall i :: 0 <= i < |s| ==> !IsWhitespace(s[i]) && LowerChar(s[i]) == s[i];
  }

  lemma NoUnitAppendsNothing(s: string)
    ensures s + UnitText(NoUnit) == s
  {
  }

  /** A decimal alone is the number with multiplier 1. */
  lemma SizePartsOfPlainDecimal(n: nat)
    requires n < U64_LIMIT
    ensures SizeParts(Show(n)) == Ok((n, 1))
  {
    ParseU64OfShow(n);
    DigitsAreFixed(Show(n));
    SplitNoUnit(Show(n));
  }

  /** A decimal followed by a unit is the number with the unit's multiplier. */
  lemma SizePartsOfDecimalWithUnit(n: nat, u: Unit)
    requires n < U64_LIMIT && u != NoUnit
    ensures SizeParts(Show(n) + UnitText(u)) == Ok((n, Multiplier(u)))
  {
    ParseU64OfShow(n);
    DigitsAreFixed(Show(n));
    SizePartsWithUnit(Show(n), u);
  }

  lemma SizePartsOfDecimal(n: nat, u: Unit)
    requires n < U64_LIMIT
    ensures SizeParts(Show(n) + UnitText(u)) == Ok((n, Multiplier(u)))
  {
    if u == NoUnit {
      SizePartsOfPlainDecimal(n);
      NoUnitAppendsNothing(Show(n));
    } else {
      SizePartsOfDecimalWithUnit(n, u);
    }
  }

  /** A decimal written with or without a unit parses to the number times the
      unit's multiplier when that fits in a `u64`, and is refused otherwise. */
  lemma ParseSizeOfDecimal(n: nat, u: Unit)
    requires n < U64_LIMIT
    ensures n * Multiplier(u) < U64_LIMIT ==> ParseSize(Show(n) + UnitText(u)) == Ok(n * Multiplier(u))
    ensures n * Multiplier(u) >= U64_LIMIT ==> ParseSize(Show(n) + UnitText(u)) == Err(SizeOverflow(n, Multiplier(u)))
    ensures ParseSizeAsWritten(Show(n) + UnitText(u)) == Ok((n * Multiplier(u)) % U64_LIMIT)
  {
    SizePartsOfDecimal(n, u);
  }

  /** A trimmed string that ends in a digit carries no unit. */
  lemma SplitNoUnit(t: string)
    requires t != [] && IsDigit(t[|t| - 1])
    ensures SplitSuffix(t) == (t, 1)
  {
    var c := t[|t| - 1];
    assert c != 'k' && c != 'm' && c != 'g' && c != 'b';
    assert !EndsWith(t, "k") && !EndsWith(t, "m") && !EndsWith(t, "g");
    assert !EndsWith(t, "kb") && !EndsWith(t, "mb") && !EndsWith(t, "gb");
  }

  /** Once the trimmed, lower-cased text is known to be a number part followed by
      a unit, the result is that of parsing the number part. */
  lemma ParseSizeByParts(s: string, p: string, u: Unit)
    requires Trim(ToLower(s)) == p + UnitText(u) && p != [] && u != NoUnit
    ensures ParseSize(s) == CheckedProduct(NumberParts(p, Multiplier(u)))
  {
    SplitSuffixOfUnit(p, u);
  }

  lemma ParseSizeWithoutUnit(s: string, p: string)
    requires Trim(ToLower(s)) == p && p != [] && SplitSuffix(p) == (p, 1)
    ensures ParseSize(s) == CheckedProduct(NumberParts(p, 1))
  {
  }

  /** The values fixed by the unit test of `parse_size`. Each fact about a literal
      is a lemma of its own, so that no proof evaluates the whole parser on a literal. */
  lemma ShowHundred()
    ensures Show(100) + UnitText(NoUnit) == "100"
  {
    assert Show(1) == "1";
    assert Show(10) == "10";
    assert Show(100) == "100";
  }

  lemma ParseSizeHundred()
    ensures ParseSize("100") == Ok(100)
  {
    ParseSizeOfDecimal(100, NoUnit);
    ShowHundred();
  }

  lemma ShowOneK()
    ensures Show(1) + UnitText(K) == "1k"
  {
  }

  lemma ParseSizeOneK()
    ensures ParseSize("1k") == Ok(1024)
  {
    ParseSizeOfDecimal(1, K);
    ShowOneK();
  }

  lemma ShowOneKB()
    ensures Show(1) + UnitText(KB) == "1kb"
  {
  }

  lemma ParseSizeOneKB()
    ensures ParseSize("1kb") == Ok(1024)
  {
    ParseSizeOfDecimal(1, KB);
    ShowOneKB();
  }

  lemma ShowOneM()
    ensures Show(1) + UnitText(M) == "1m"
  {
  }

  lemma ParseSizeOneM()
    ensures ParseSize("1m") == Ok(1024 * 1024)
  {
    ParseSizeOfDecimal(1, M);
    ShowOneM();
  }

  lemma ShowOneMB()
    ensures Show(1) + UnitText(MB) == "1mb"
  {
  }

  lemma ParseSizeOneMB()
    ensures ParseSize("1mb") == Ok(1024 * 1024)
  {
    ParseSizeOfDecimal(1, MB);
    ShowOneMB();
  }

  lemma ShowOneG()
    ensures Show(1) + UnitText(G) == "1g"
  {
  }

  lemma ParseSizeOneG()
    ensures ParseSize("1g") == Ok(1024 * 1024 * 1024)
  {
    ParseSizeOfDecimal(1, G);
    ShowOneG();
  }

  lemma ShowOneGB()
    ensures Show(1) + UnitText(GB) == "1gb"
  {
  }

  lemma ParseSizeOneGB()
    ensures ParseSize("1gb") == Ok(1024 * 1024 * 1024)
  {
    ParseSizeOfDecimal(1, GB);
    ShowOneGB();
  }

  lemma LowerOf2K()
    ensures ToLower("2K") == "2k"
  {
    assert LowerChar('K') == 'k';
  }

  lemma Show2K()
    ensures Show(2) + UnitText(K) == "2k"
  {
  }

  lemma ParseSizeUpper2K()
    ensures ParseSize("2K") == Ok(2 * 1024)
  {
    ParseSizeIgnoresCase("2K");
    LowerOf2K();
    ParseSizeOfDecimal(2, K);
    Show2K();
  }

  lemma LowerOf5M()
    ensures ToLower("5M") == "5m"
  {
    assert LowerChar('M') == 'm';
  }

  lemma Show5M()
    ensures Show(5) + UnitText(M) == "5m"
  {
  }

  lemma ParseSizeUpper5M()
    ensures ParseSize("5M") == Ok(5 * 1024 * 1024)
  {
    ParseSizeIgnoresCase("5M");
    LowerOf5M();
    ParseSizeOfDecimal(5, M);
    Show5M();
  }

  /** An unknown unit is not stripped, so the whole text is refused as a number. */
  lemma TbIsLower()
    ensures ToLower("1tb") == "1tb"
  {
  }

  lemma TbIsTrimmed()
    ensures Trim(ToLower("1tb")) == "1tb"
  {
    TbIsLower();
    TbIsItsTrim();
  }

  lemma TbIsItsTrim()
    ensures Trim("1tb") == "1tb"
  {
    TrimOfNonBlankEnds("1tb");
  }

  lemma TbHasNoUnit()
    ensures SplitSuffix("1tb") == ("1tb", 1)
  {
    assert !EndsWith("1tb", "k") && !EndsWith("1tb", "m") && !EndsWith("1tb", "g");
    assert !EndsWith("1tb", "kb") && !EndsWith("1tb", "mb") && !EndsWith("1tb", "gb");
  }

  lemma TbIsNotNumber()
    ensures ParseU64("1tb") == None
  {
    assert !IsDigit("1tb"[1]);
  }

  lemma ParseSizeRefusesUnknownUnit()
    ensures ParseSize("1tb") == Err(InvalidNumber("1tb"))
  {
    TbIsTrimmed();
    TbHasNoUnit();
    ParseSizeWithoutUnit("1tb", "1tb");
    TbIsNotNumber();
  }

  /** A unit without a number leaves an empty number part. */
  lemma ParseSizeRefusesBareUnit()
    ensures ParseSize("kb") == Err(InvalidNumber(""))
  {
    SizePartsWithUnit("", KB);
    assert "" + UnitText(KB) == "kb";
    assert TrimStart(ToLower("")) == [];
  }

  /** Spaces are trimmed only at the ends: one between number and unit stays in
      the number part and makes it invalid. */
  lemma SpacedIsSplit()
    ensures "1 " + UnitText(KB) == "1 kb" && TrimStart(ToLower("1 ")) == "1 "
  {
    assert ToLower("1 ") == "1 ";
  }

  lemma SpacedIsNotNumber()
    ensures ParseU64("1 ") == None
  {
    assert !IsDigit("1 "[1]);
  }

  lemma ParseSizeRefusesInnerSpace()
    ensures ParseSize("1 kb") == Err(InvalidNumber("1 "))
  {
    SizePartsWithUnit("1 ", KB);
    SpacedIsSplit();
    SpacedIsNotNumber();
  }

  // ---------------------------------------------------------------------------
  // The overflow of `number * suffix`

  lemma WrapProduct()
    ensures 17179869184 * Multiplier(G) == U64_LIMIT && (17179869184 * Multiplier(G)) % U64_LIMIT == 0
  {
  }

  lemma ShowWrapPrefix()
    ensures Show(171798) == "171798"
  {
    assert Show(17) == "17";
    assert Show(1717) == "1717";
  }

  lemma ShowWrapMiddle()
    ensures Show(1717986918) == "1717986918"
  {
    ShowWrapPrefix();
    assert Show(17179869) == "17179869";
  }

  lemma ShowWrapNumber()
    ensures Show(17179869184) + UnitText(G) == "17179869184g"
  {
    ShowWrapMiddle();
    assert Show(17179869184) == "17179869184";
  }

  lemma WrapOfDecimal()
    ensures ParseSizeAsWritten(Show(17179869184) + UnitText(G)) == Ok(0)
    ensures ParseSize(Show(17179869184) + UnitText(G)) == Err(SizeOverflow(17179869184, 1024 * 1024 * 1024))
  {
    ParseSizeOfDecimal(17179869184, G);
    WrapProduct();
  }

  /** 2^34 gibibytes is 2^64 bytes: the product as written wraps to 0, a size that
      `ScriptControl::new` then takes for "no limit", while the checked product refuses it. */
  lemma ParseSizeWrapsToZero()
    ensures ParseSizeAsWritten("17179869184g") == Ok(0)
    ensures ParseSize("17179869184g") == Err(SizeOverflow(17179869184, 1024 * 1024 * 1024))
  {
    WrapOfDecimal();
    ShowWrapNumber();
  }
}
