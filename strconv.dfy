/** The part of Go's strconv package that the decode hooks call (ParseUint,
    ParseInt, Atoi, ParseBool), over strings of Unicode scalar values, which
    stand for the valid UTF-8 strings Go would hold. Beside each parser there
    is a reference definition of the literals it accepts, and lemmas proving
    that the character-by-character parsers accept exactly those literals
    within the range of the requested width. */
module Strconv {
  import opened Wrappers

  datatype ErrorKind = ErrSyntax | ErrRange | ErrBase(base: int) | ErrBitSize(bitSize: int)

  /** strconv.NumError: the function that failed, its input and the reason. */
  datatype NumError = NumError(func: string, num: string, err: ErrorKind)

  const FnParseUint := "ParseUint"
  const FnParseInt := "ParseInt"
  const FnAtoi := "Atoi"
  const FnParseBool := "ParseBool"

  /** strconv.IntSize; the model assumes a 64-bit platform. */
  const IntSize := 64

  function Pow2(n: nat): (r: nat)
    ensures r >= 1
  {
    if n == 0 then 1 else 2 * Pow2(n - 1)
  }

  function MaxUint(bits: nat): nat { Pow2(bits) - 1 }

  function MinInt(bits: nat): int
    requires bits >= 1
  {
    -(Pow2(bits - 1) as int)
  }

  function MaxInt(bits: nat): int
    requires bits >= 1
  {
    Pow2(bits - 1) - 1
  }

  /** The width a bit size selects: 0 selects the platform word. */
  function EffectiveBits(bitSize: int): (r: nat)
    requires 0 <= bitSize <= 64
    ensures 1 <= r <= 64
  {
    if bitSize == 0 then IntSize else bitSize
  }

  /** The number of bytes of the UTF-8 encoding of s: Go's len(s). */
  function ByteLen(s: string): (r: nat)
    ensures r >= |s|
  {
    if s == [] then 0
    else
      var c := s[0] as int;
      (if c < 0x80 then 1 else if c < 0x800 then 2 else if c < 0x1_0000 then 3 else 4) + ByteLen(s[1..])
  }

  lemma ByteLenOne(s: string)
    ensures ByteLen(s) == 1 <==> |s| == 1 && s[0] as int < 0x80
  {
    if |s| >= 2 {
      assert ByteLen(s) >= |s|;
    }
  }

  predicate IsDecimalDigit(c: char) { '0' <= c <= '9' }

  /** The value of c as a digit of a base up to 36 ('a' and 'A' are 10), if it is one. */
  function DigitValue(c: char): (r: Option<nat>)
    ensures r.Some? ==> r.value < 36
    ensures r.Some? && r.value < 10 <==> IsDecimalDigit(c)
  {
    if '0' <= c <= '9' then Some(c as int - '0' as int)
    else if 'a' <= c <= 'z' then Some(c as int - 'a' as int + 10)
    else if 'A' <= c <= 'Z' then Some(c as int - 'A' as int + 10)
    else None
  }

  /** strconv's lower(c), which it only ever compares with lower-case letters. */
  function Lower(c: char): char {
    if 'A' <= c <= 'Z' then (c as int + 32) as char else c
  }

  /** The base and the digits after its prefix. With base 0, "0b", "0o" and
      "0x" (either case, and only when at least one more character follows)
      select 2, 8 and 16; any other leading '0' selects 8 and is dropped;
      anything else is decimal. */
  function SplitBase(s: string, base: int): (r: (int, string))
    requires s != ""
    ensures base != 0 ==> r == (base, s)
    ensures base == 0 ==> r.0 in {2, 8, 10, 16} && |r.1| <= |s|
  {
    if base != 0 then (base, s)
    else if s[0] != '0' then (10, s)
    else if |s| >= 3 && Lower(s[1]) == 'b' then (2, s[2..])
    else if |s| >= 3 && Lower(s[1]) == 'o' then (8, s[2..])
    else if |s| >= 3 && Lower(s[1]) == 'x' then (16, s[2..])
    else (8, s[1..])
  }

  /** What strconv's underscoreOK scan saw last. */
  datatype Saw = Start | Digit | Underscore | Other

  /** strconv's underscoreOK: every '_' stands between two digits, a base
      prefix counting as a digit. */
  function UnderscoreOK(s: string): bool {
    var t := if |s| >= 1 && (s[0] == '-' || s[0] == '+') then s[1..] else s;
    if |t| >= 2 && t[0] == '0' && Lower(t[1]) in {'b', 'o', 'x'} then
      UnderscoresFrom(t[2..], Digit, Lower(t[1]) == 'x')
    else
      UnderscoresFrom(t, Start, false)
  }

  function UnderscoresFrom(s: string, saw: Saw, hex: bool): bool
    decreases |s|
  {
    if s == [] then saw != Underscore
    else if IsDecimalDigit(s[0]) || (hex && 'a' <= Lower(s[0]) <= 'f') then UnderscoresFrom(s[1..], Digit, hex)
    else if s[0] == '_' then saw == Digit && UnderscoresFrom(s[1..], Underscore, hex)
    else saw != Underscore && UnderscoresFrom(s[1..], Other, hex)
  }

  // ---------------------------------------------------------------------------
  // Reference definition of the literals

  /** c may stand among the digits of a literal of base `base`; '_' only
      when the base was chosen by the prefix rules (base 0). */
  predicate ValidDigit(c: char, base: int, base0: bool) {
    (c == '_' && base0) || (DigitValue(c).Some? && DigitValue(c).value < base)
  }

  predicate AllValid(ds: string, base: int, base0: bool) {
    ds == [] || (ValidDigit(ds[0], base, base0) && AllValid(ds[1..], base, base0))
  }

  /** ds with its underscores removed. */
  function Without(ds: string): (r: string)
    ensures |r| <= |ds|
    ensures '_' !in r
  {
    if ds == [] then []
    else (if ds[0] == '_' then [] else [ds[0]]) + Without(ds[1..])
  }

  /** a * b, written as repeated addition so that the solver reasons about
      the digit loops linearly; MulIsProduct shows it is the product. */
  function Mul(a: nat, b: nat): nat
    decreases b
  {
    if b == 0 then 0 else Mul(a, b - 1) + a
  }

  /** The digit c stands for (0 for a character that is not a digit). */
  function DigitOf(c: char): nat {
    if DigitValue(c).Some? then DigitValue(c).value else 0
  }

  /** Horner's rule: the value of acc followed by the digits ds in base `base`. */
  function Horner(acc: nat, ds: string, base: nat): nat
    decreases |ds|
  {
    if ds == [] then acc else Horner(Mul(acc, base) + DigitOf(ds[0]), ds[1..], base)
  }

  /** The positional value of a string of digits in base `base`. */
  function Value(ds: string, base: nat): nat {
    Horner(0, ds, base)
  }

  /** The value of s as an unsigned literal of the given base (0: base taken
      from the prefix, '_' separators allowed), or None when it is not one. */
  function UnsignedLiteral(s: string, base: int): Option<nat> {
    if s == "" || !(base == 0 || 2 <= base <= 36) then None
    else
      var (b, ds) := SplitBase(s, base);
      if AllValid(ds, b, base == 0) && ('_' in ds ==> UnderscoreOK(s)) then Some(Value(Without(ds), b))
      else None
  }

  /** An optional '+' or '-' followed by an unsigned literal. */
  function SignedLiteral(s: string, base: int): Option<int> {
    if s == "" then None
    else
      var body := if s[0] == '+' || s[0] == '-' then s[1..] else s;
      match UnsignedLiteral(body, base)
      case None => None
      case Some(u) => Some(if s[0] == '-' then -(u as int) else u)
  }

  // ---------------------------------------------------------------------------
  // The parsers

  /** ParseUint's digit loop over the characters `rest` still to read, with
      value n read so far. It stops at the first character that is not a
      digit of the base (syntax error) or at the first digit that takes the
      value past maxVal (range error), whichever comes first; Go's two
      overflow tests on uint64 come to exactly this comparison on unbounded
      integers. At the end, if an underscore was seen, the whole input s0
      must pass underscoreOK. */
  function Scan(s0: string, rest: string, base: nat, base0: bool, maxVal: nat, n: nat, underscores: bool)
    : (r: Result<nat, NumError>)
    requires n <= maxVal
    ensures r.Ok? ==> r.value <= maxVal
    ensures r.Fail? ==> r.error.func == FnParseUint && r.error.num == s0 && r.error.err in {ErrSyntax, ErrRange}
  {
    if rest == [] then
      if underscores && !UnderscoreOK(s0) then Fail(NumError(FnParseUint, s0, ErrSyntax)) else Ok(n)
    else if rest[0] == '_' && base0 then
      Scan(s0, rest[1..], base, base0, maxVal, n, true)
    else
      var d := DigitValue(rest[0]);
      if d.None? || d.value >= base then Fail(NumError(FnParseUint, s0, ErrSyntax))
      else if Mul(n, base) + d.value > maxVal then Fail(NumError(FnParseUint, s0, ErrRange))
      else Scan(s0, rest[1..], base, base0, maxVal, Mul(n, base) + d.value, underscores)
  }

  /** strconv.ParseUint(s, base, bitSize). */
  function ParseUint(s: string, base: int, bitSize: int): (r: Result<nat, NumError>)
    ensures r.Ok? || r.error.err == ErrRange ==> (base == 0 || 2 <= base <= 36) && 0 <= bitSize <= 64
    ensures r.Ok? ==> r.value <= MaxUint(EffectiveBits(bitSize))
  {
    if s == "" then Fail(NumError(FnParseUint, s, ErrSyntax))
    else if !(base == 0 || 2 <= base <= 36) then Fail(NumError(FnParseUint, s, ErrBase(base)))
    else if !(0 <= bitSize <= 64) then Fail(NumError(FnParseUint, s, ErrBitSize(bitSize)))
    else
      var (b, ds) := SplitBase(s, base);
      Scan(s, ds, b, base == 0, MaxUint(EffectiveBits(bitSize)), 0, false)
  }

  /** strconv.ParseInt(s, base, bitSize): a sign, then ParseUint, then the
      signed range check. After a range error from ParseUint it goes on with
      ParseUint's value, the largest of the width, as Go does. */
  function ParseInt(s: string, base: int, bitSize: int): (r: Result<int, NumError>)
    ensures r.Fail? ==> r.error.func == FnParseInt && r.error.num == s
  {
    if s == "" then Fail(NumError(FnParseInt, s, ErrSyntax))
    else
      var neg := s[0] == '-';
      var body := if s[0] == '+' || s[0] == '-' then s[1..] else s;
      SignedRange(s, neg, ParseUint(body, base, bitSize), bitSize)
  }

  /** The rest of ParseInt once ParseUint has read the digits: its errors other
      than a range error are relabelled, then the signed range check. */
  function SignedRange(s: string, neg: bool, u: Result<nat, NumError>, bitSize: int): (r: Result<int, NumError>)
    requires u.Ok? || u.error.err == ErrRange ==> 0 <= bitSize <= 64
    ensures r.Fail? ==> r.error.func == FnParseInt && r.error.num == s
  {
    if u.Fail? && u.error.err != ErrRange then Fail(NumError(FnParseInt, s, u.error.err))
    else
      var bits := EffectiveBits(bitSize);
      var un := if u.Ok? then u.value else MaxUint(bits);
      var cutoff := Pow2(bits - 1);
      if !neg && un >= cutoff then Fail(NumError(FnParseInt, s, ErrRange))
      else if neg && un > cutoff then Fail(NumError(FnParseInt, s, ErrRange))
      else Ok(if neg then -(un as int) else un)
  }

  /** strconv.Atoi: ParseInt(s, 10, 0) with the error relabelled. Go's fast
      path for strings shorter than 19 bytes computes the same result. */
  function Atoi(s: string): (r: Result<int, NumError>)
    ensures r.Fail? ==> r.error.func == FnAtoi && r.error.num == s
  {
    match ParseInt(s, 10, 0)
    case Ok(v) => Ok(v)
    case Fail(e) => Fail(e.(func := FnAtoi))
  }

  /** strconv.ParseBool. */
  function ParseBool(s: string): (r: Result<bool, NumError>)
    ensures r.Ok? && r.value <==> s in {"1", "t", "T", "TRUE", "true", "True"}
    ensures r.Ok? && !r.value <==> s in {"0", "f", "F", "FALSE", "false", "False"}
    ensures r.Fail? ==> r.error == NumError(FnParseBool, s, ErrSyntax)
    ensures r.Ok? ==> 1 <= |s| <= 5 && (r.value <==> s[0] in "1tT")
    ensures r.Ok? && |s| > 1 ==> s[1..] in {"RUE", "rue", "ALSE", "alse"}
  {
    if s in {"1", "t", "T", "TRUE", "true", "True"} then Ok(true)
    else if s in {"0", "f", "F", "FALSE", "false", "False"} then Ok(false)
    else Fail(NumError(FnParseBool, s, ErrSyntax))
  }

  // ---------------------------------------------------------------------------
  // The parsers accept exactly the literals, within range

  lemma {:induction false} MulIsProduct(a: nat, b: nat)
    ensures Mul(a, b) == a * b
    decreases b
  {
    if b > 0 {
      MulIsProduct(a, b - 1);
    }
  }

  /** Reading more digits never makes the value smaller. */
  lemma {:induction false} HornerGrows(acc: nat, ds: string, base: nat)
    requires base >= 1
    ensures Horner(acc, ds, base) >= acc
    decreases |ds|
  {
    if ds != [] {
      HornerGrows(Mul(acc, base) + DigitOf(ds[0]), ds[1..], base);
    }
  }

  /** Removing the underscores of rest: its first character is dropped or kept. */
  lemma WithoutCons(rest: string)
    requires rest != []
    ensures rest[0] == '_' ==> Without(rest) == Without(rest[1..])
    ensures rest[0] != '_' ==> Without(rest) == [rest[0]] + Without(rest[1..])
    ensures '_' in rest <==> rest[0] == '_' || '_' in rest[1..]
  {
    assert rest == [rest[0]] + rest[1..];
    assert [] + Without(rest[1..]) == Without(rest[1..]);
  }

  lemma HornerCons(acc: nat, c: char, w: string, base: nat)
    ensures Horner(acc, [c] + w, base) == Horner(Mul(acc, base) + DigitOf(c), w, base)
  {
    assert ([c] + w)[1..] == w;
  }

  /** From `rest` on, the digit loop succeeds exactly when the rest are digits
      of the base, the underscores are well placed and the value fits, and
      then with the value of the digits. */
  lemma {:induction false} ScanCorrect(s0: string, rest: string, base: nat, base0: bool, maxVal: nat, n: nat, u: bool)
    requires 2 <= base <= 36 && n <= maxVal
    ensures var r := Scan(s0, rest, base, base0, maxVal, n, u);
      && (r.Ok? <==> AllValid(rest, base, base0) && (u || '_' in rest ==> UnderscoreOK(s0)) && Horner(n, Without(rest), base) <= maxVal)
      && (r.Ok? ==> r.value == Horner(n, Without(rest), base))
    decreases |rest|
  {
    if rest != [] {
      WithoutCons(rest);
      var d := DigitValue(rest[0]);
      if rest[0] == '_' && base0 {
        ScanCorrect(s0, rest[1..], base, base0, maxVal, n, true);
      } else if d.Some? && d.value < base {
        var n' := Mul(n, base) + d.value;
        HornerCons(n, rest[0], Without(rest[1..]), base);
        assert Horner(n, Without(rest), base) == Horner(n', Without(rest[1..]), base);
        if n' > maxVal {
          HornerGrows(n', Without(rest[1..]), base);
        } else {
          ScanCorrect(s0, rest[1..], base, base0, maxVal, n', u);
        }
      }
    }
  }

  /** A string of digits of the base whose value exceeds maxVal ends the
      digit loop with a range error, whatever else is wrong with it. */
  lemma {:induction false} ScanRange(s0: string, rest: string, base: nat, base0: bool, maxVal: nat, n: nat, u: bool)
    requires 2 <= base <= 36 && n <= maxVal
    requires AllValid(rest, base, base0) && Horner(n, Without(rest), base) > maxVal
    ensures Scan(s0, rest, base, base0, maxVal, n, u) == Fail(NumError(FnParseUint, s0, ErrRange))
    decreases |rest|
  {
    WithoutCons(rest);
    if rest[0] == '_' && base0 {
      ScanRange(s0, rest[1..], base, base0, maxVal, n, true);
    } else {
      var n' := Mul(n, base) + DigitOf(rest[0]);
      HornerCons(n, rest[0], Without(rest[1..]), base);
      if n' <= maxVal {
        ScanRange(s0, rest[1..], base, base0, maxVal, n', u);
      }
    }
  }

  /** ParseUint succeeds exactly on the unsigned literals that fit the width,
      with their value, and fails with a range error on those that do not. */
  lemma ParseUintMatchesLiteral(s: string, base: int, bitSize: int)
    requires base == 0 || 2 <= base <= 36
    requires 0 <= bitSize <= 64
    ensures var r := ParseUint(s, base, bitSize);
            var lit := UnsignedLiteral(s, base);
            var max := MaxUint(EffectiveBits(bitSize));
      && (r.Ok? <==> lit.Some? && lit.value <= max)
      && (r.Ok? ==> r.value == lit.value)
      && (lit.Some? && lit.value > max ==> r == Fail(NumError(FnParseUint, s, ErrRange)))
      && (r.Fail? ==> r.error.func == FnParseUint && r.error.num == s && r.error.err in {ErrSyntax, ErrRange})
  {
    if s != "" {
      var (b, ds) := SplitBase(s, base);
      var max := MaxUint(EffectiveBits(bitSize));
      ScanCorrect(s, ds, b, base == 0, max, 0, false);
      if AllValid(ds, b, base == 0) && Value(Without(ds), b) > max {
        ScanRange(s, ds, b, base == 0, max, 0, false);
      }
    }
  }

  /** ParseInt succeeds exactly on the signed literals within the signed range
      of the width, with their value, and fails with a range error on the
      literals outside it. (Bit size 1, where Go drops a range error, is not
      covered; Go's callers in this model use 0, 8, 16, 32 and 64.) */
  lemma ParseIntMatchesLiteral(s: string, base: int, bitSize: int)
    requires base == 0 || 2 <= base <= 36
    requires bitSize == 0 || 2 <= bitSize <= 64
    ensures var r := ParseInt(s, base, bitSize);
            var lit := SignedLiteral(s, base);
            var bits := EffectiveBits(bitSize);
      && (r.Ok? <==> lit.Some? && MinInt(bits) <= lit.value <= MaxInt(bits))
      && (r.Ok? ==> r.value == lit.value)
      && (lit.Some? && !(MinInt(bits) <= lit.value <= MaxInt(bits)) ==> r == Fail(NumError(FnParseInt, s, ErrRange)))
  {
    if s != "" {
      var body := if s[0] == '+' || s[0] == '-' then s[1..] else s;
      ParseUintMatchesLiteral(body, base, bitSize);
      SignedRangeCorrect(s, s[0] == '-', ParseUint(body, base, bitSize), UnsignedLiteral(body, base), bitSize);
    }
  }

  /** Given what ParseUint promises about the unsigned part, the signed range
      check accepts exactly the values of the width. */
  lemma SignedRangeCorrect(s: string, neg: bool, u: Result<nat, NumError>, lit: Option<nat>, bitSize: int)
    requires bitSize == 0 || 2 <= bitSize <= 64
    requires var max := MaxUint(EffectiveBits(bitSize));
      && (u.Ok? <==> lit.Some? && lit.value <= max)
      && (u.Ok? ==> u.value == lit.value)
      && (lit.Some? && lit.value > max ==> u.Fail? && u.error.err == ErrRange)
    ensures var r := SignedRange(s, neg, u, bitSize);
            var bits := EffectiveBits(bitSize);
            var v := if lit.None? then 0 else if neg then -(lit.value as int) else lit.value;
      && (r.Ok? <==> lit.Some? && MinInt(bits) <= v <= MaxInt(bits))
      && (r.Ok? ==> r.value == v)
      && (lit.Some? && !(MinInt(bits) <= v <= MaxInt(bits)) ==> r == Fail(NumError(FnParseInt, s, ErrRange)))
  {
    var bits := EffectiveBits(bitSize);
    Pow2Half(bits);
    var cutoff := Pow2(bits - 1);
    assert MinInt(bits) == -(cutoff as int) && MaxInt(bits) == cutoff - 1;
    var r := SignedRange(s, neg, u, bitSize);
    if u.Ok? {
      var un := u.value;
      assert r == if !neg && un >= cutoff then Fail(NumError(FnParseInt, s, ErrRange))
             else if neg && un > cutoff then Fail(NumError(FnParseInt, s, ErrRange))
             else Ok(if neg then -(un as int) else un);
    } else if u.error.err == ErrRange {
      assert MaxUint(bits) > cutoff;
      assert r == Fail(NumError(FnParseInt, s, ErrRange));
    } else {
      assert lit.None?;
    }
  }

  lemma Pow2Half(bits: nat)
    requires 2 <= bits
    ensures Pow2(bits) == 2 * Pow2(bits - 1)
    ensures Pow2(bits - 1) >= 2
  {
    assert Pow2(bits - 1) == 2 * Pow2(bits - 2);
  }

  lemma Pow2Step8(n: nat)
    ensures Pow2(n + 8) == 256 * Pow2(n)
  {
    assert Pow2(n + 8) == 2 * Pow2(n + 7) == 4 * Pow2(n + 6) == 8 * Pow2(n + 5) == 16 * Pow2(n + 4);
    assert Pow2(n + 4) == 2 * Pow2(n + 3) == 4 * Pow2(n + 2) == 8 * Pow2(n + 1) == 16 * Pow2(n);
  }

  /** The ranges of Go's integer widths. */
  /** The bounds of the 8-bit widths. */
  lemma Width8()
    ensures MinInt(8) == -0x80 && MaxInt(8) == 0x7F && MaxUint(8) == 0xFF
  {
    assert Pow2(7) == 0x80 && Pow2(8) == 0x100;
  }

  /** The bounds of the 64-bit widths. */
  lemma Width64()
    ensures MinInt(64) == -0x8000_0000_0000_0000 && MaxInt(64) == 0x7FFF_FFFF_FFFF_FFFF
    ensures MaxUint(64) == 0xFFFF_FFFF_FFFF_FFFF
  {
    WidthBounds();
  }

  lemma WidthBounds()
    ensures MinInt(8) == -0x80 && MaxInt(8) == 0x7F && MaxUint(8) == 0xFF
    ensures MinInt(16) == -0x8000 && MaxInt(16) == 0x7FFF && MaxUint(16) == 0xFFFF
    ensures MinInt(32) == -0x8000_0000 && MaxInt(32) == 0x7FFF_FFFF && MaxUint(32) == 0xFFFF_FFFF
    ensures MinInt(64) == -0x8000_0000_0000_0000 && MaxInt(64) == 0x7FFF_FFFF_FFFF_FFFF
    ensures MaxUint(64) == 0xFFFF_FFFF_FFFF_FFFF
  {
    assert Pow2(7) == 0x80 && Pow2(8) == 0x100;
    Pow2Step8(7); Pow2Step8(8);
    Pow2Step8(15); Pow2Step8(16); Pow2Step8(23); Pow2Step8(24);
    Pow2Step8(31); Pow2Step8(32); Pow2Step8(39); Pow2Step8(40);
    Pow2Step8(47); Pow2Step8(48); Pow2Step8(55); Pow2Step8(56);
  }

  /** Atoi accepts exactly an optional sign followed by decimal digits (no
      base prefix, no '_'), within the 64-bit signed range. */
  lemma AtoiMatchesLiteral(s: string)
    ensures var r := Atoi(s); var lit := SignedLiteral(s, 10);
      && (r.Ok? <==> lit.Some? && MinInt(64) <= lit.value <= MaxInt(64))
      && (r.Ok? ==> r.value == lit.value)
  {
    ParseIntMatchesLiteral(s, 10, 0);
  }

  lemma {:induction false} AllDecimal(ds: string)
    requires AllValid(ds, 10, false)
    ensures forall i | 0 <= i < |ds| :: IsDecimalDigit(ds[i])
    decreases |ds|
  {
    if ds != [] {
      AllDecimal(ds[1..]);
      forall i | 0 <= i < |ds| ensures IsDecimalDigit(ds[i]) {
        if i > 0 { assert ds[i] == ds[1..][i - 1]; }
      }
    }
  }

  /** A decimal literal contains only decimal digits after its sign. */
  lemma DecimalLiteralDigits(s: string)
    requires SignedLiteral(s, 10).Some?
    ensures s != ""
    ensures var body := if s[0] == '+' || s[0] == '-' then s[1..] else s;
      body != "" && forall i | 0 <= i < |body| :: IsDecimalDigit(body[i])
  {
    var body := if s[0] == '+' || s[0] == '-' then s[1..] else s;
    AllDecimal(body);
  }

  // ---------------------------------------------------------------------------
  // Literals written out

  /** A string of decimal digits is valid in base 10 and has no underscores. */
  lemma {:induction false} DigitsValid(ds: string, base0: bool)
    requires forall i | 0 <= i < |ds| :: IsDecimalDigit(ds[i])
    ensures AllValid(ds, 10, base0) && '_' !in ds && Without(ds) == ds
    decreases |ds|
  {
    if ds != [] {
      DigitsValid(ds[1..], base0);
      WithoutCons(ds);
      assert ds == [ds[0]] + ds[1..];
    }
  }

  /** Digits that do not start with '0' are the same decimal literal in base
      0 and in base 10. */
  lemma PlainDecimalLiteral(s: string)
    requires s != "" && s[0] != '0'
    requires forall i | 0 <= i < |s| :: IsDecimalDigit(s[i])
    ensures UnsignedLiteral(s, 0) == Some(Value(s, 10))
    ensures UnsignedLiteral(s, 10) == Some(Value(s, 10))
  {
    DigitsValid(s, true);
    DigitsValid(s, false);
  }

  /** A two-digit decimal literal without a leading zero, whatever the base
      argument 0 or 10. */
  lemma TwoDigits(s: string)
    requires |s| == 2 && IsDecimalDigit(s[0]) && IsDecimalDigit(s[1]) && s[0] != '0'
    ensures UnsignedLiteral(s, 0) == Some(10 * DigitOf(s[0]) + DigitOf(s[1]))
    ensures UnsignedLiteral(s, 10) == UnsignedLiteral(s, 0)
  {
    PlainDecimalLiteral(s);
    assert s == [s[0], s[1]];
    Horner2(s[0], s[1], 10);
  }

  /** The same for three digits. */
  lemma ThreeDigits(s: string)
    requires |s| == 3 && IsDecimalDigit(s[0]) && IsDecimalDigit(s[1]) && IsDecimalDigit(s[2]) && s[0] != '0'
    ensures UnsignedLiteral(s, 0) == Some(100 * DigitOf(s[0]) + 10 * DigitOf(s[1]) + DigitOf(s[2]))
    ensures UnsignedLiteral(s, 10) == UnsignedLiteral(s, 0)
  {
    PlainDecimalLiteral(s);
    assert s == [s[0], s[1], s[2]];
    Horner3(s[0], s[1], s[2]);
  }

  lemma Horner2(a: char, b: char, base: nat)
    ensures Horner(0, [a, b], base) == DigitOf(a) * base + DigitOf(b)
  {
    assert [a, b][1..] == [b] && [b][1..] == [];
    MulIsProduct(0, base);
    MulIsProduct(DigitOf(a), base);
    assert Horner(0, [a, b], base) == Horner(DigitOf(a), [b], base);
  }

  lemma Horner3(a: char, b: char, c: char)
    ensures Horner(0, [a, b, c], 10) == 100 * DigitOf(a) + 10 * DigitOf(b) + DigitOf(c)
  {
    assert [a, b, c][1..] == [b, c] && [b, c][1..] == [c] && [c][1..] == [];
    MulIsProduct(0, 10);
    MulIsProduct(DigitOf(a), 10);
    MulIsProduct(10 * DigitOf(a) + DigitOf(b), 10);
    assert Horner(0, [a, b, c], 10) == Horner(DigitOf(a), [b, c], 10);
    assert Horner(DigitOf(a), [b, c], 10) == Horner(10 * DigitOf(a) + DigitOf(b), [c], 10);
  }
}
