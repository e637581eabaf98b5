/** The string-to-scalar decode hooks shared by the koanf and gin packages.
    Every hook is guarded by the kind of the incoming data (a string) and the
    kind of the target; off the guard it hands the data on untouched. On the
    guard it parses the string with strconv, and the gin variants of the
    uint8 and int32 hooks fall back to the single character of a one-character
    string when parsing fails. A list of hooks is composed the way
    mapstructure.ComposeDecodeHookFunc does it: left to right, each hook
    seeing the previous one's output, stopping at the first error. */
module Hooks {
  import opened Wrappers
  import opened Strconv
  import opened Reflect

  /** The strconv call a hook makes on its string. */
  datatype Parser =
    | SignedParse(bitSize: int)     // strconv.ParseInt(s, 0, bitSize)
    | UnsignedParse(bitSize: int)   // strconv.ParseUint(s, 0, bitSize)
    | DecimalParse                  // strconv.Atoi(s)
    | BoolParse                     // strconv.ParseBool(s)
    | FloatParse(bitSize: int)      // strconv.ParseFloat(s, bitSize)
    | ComplexParse(bitSize: int)    // strconv.ParseComplex(s, bitSize)

  /** What a hook does when its parse fails. */
  datatype Fallback =
    | NoFallback
    | SingleByte    // a string of exactly one byte gives that byte
    | SingleRune    // a string of exactly one code point gives that code point

  datatype Hook = StringTo(target: Kind, parser: Parser, fallback: Fallback)

  /** The outcome of a hook: the (possibly converted) data, the parse error,
      or a floating-point parse this model does not compute. */
  datatype Outcome =
    | Done(value: Value)
    | Failed(error: NumError)
    | Unparsed(parser: Parser, s: string)

  predicate Converting(p: Parser) {
    p.SignedParse? || p.UnsignedParse? || p.DecimalParse? || p.BoolParse?
  }

  /** The result of the hook's strconv call, as a value of the target kind. */
  function Parse(p: Parser, target: Kind, s: string): (r: Outcome)
    ensures r.Done? ==> !r.value.Str?
    ensures r.Unparsed? <==> !Converting(p)
  {
    match p
    case SignedParse(bits) =>
      (match ParseInt(s, 0, bits) case Ok(v) => Done(Integer(target, v)) case Fail(e) => Failed(e))
    case UnsignedParse(bits) =>
      (match ParseUint(s, 0, bits) case Ok(v) => Done(Integer(target, v)) case Fail(e) => Failed(e))
    case DecimalParse =>
      (match Atoi(s) case Ok(v) => Done(Integer(target, v)) case Fail(e) => Failed(e))
    case BoolParse =>
      (match ParseBool(s) case Ok(b) => Done(Boolean(b)) case Fail(e) => Failed(e))
    case FloatParse(_) => Unparsed(p, s)
    case ComplexParse(_) => Unparsed(p, s)
  }

  /** The fallback applied to a failed parse of s. */
  function Recover(fb: Fallback, target: Kind, s: string, o: Outcome): (r: Outcome)
    ensures !o.Failed? ==> r == o
    ensures fb == NoFallback ==> r == o
    ensures r.Done? ==> o.Done? || |s| == 1
  {
    if !o.Failed? then o
    else
      match fb
      case NoFallback => o
      case SingleByte => if ByteLen(s) == 1 then Done(Integer(target, s[0] as int)) else o
      case SingleRune => if |s| == 1 then Done(Integer(target, s[0] as int)) else o
  }

  /** One hook applied to data bound for a field of kind `to`. */
  function Apply(h: Hook, to: Kind, data: Value): (r: Outcome)
    ensures KindOf(data) != String || to != h.target ==> r == Done(data)
    ensures data.Str? && to == h.target && r.Done? ==> !r.value.Str?
  {
    if KindOf(data) != String || to != h.target then Done(data)
    else Recover(h.fallback, h.target, data.s, Parse(h.parser, h.target, data.s))
  }

  /** mapstructure.ComposeDecodeHookFunc over hooks: each hook sees the
      data the previous one produced, and the first error stops the chain. */
  function Compose(hs: seq<Hook>, to: Kind, data: Value): (r: Outcome)
    ensures (forall h | h in hs :: h.target != to) ==> r == Done(data)
    decreases |hs|
  {
    if hs == [] then Done(data)
    else
      match Apply(hs[0], to, data)
      case Done(v) => Compose(hs[1..], to, v)
      case o => o
  }

  /** The first hook of the list whose target kind is `to`. */
  function FirstFor(hs: seq<Hook>, to: Kind): (r: Option<Hook>)
    ensures r.Some? ==> r.value in hs && r.value.target == to
    ensures r.None? <==> forall h | h in hs :: h.target != to
  {
    if hs == [] then None
    else if hs[0].target == to then Some(hs[0])
    else FirstFor(hs[1..], to)
  }

  /** No two hooks of the list have the same target kind unless they are the
      same hook. */
  predicate TargetsDistinct(hs: seq<Hook>) {
    forall i, j | 0 <= i < j < |hs| :: hs[i].target == hs[j].target ==> hs[i] == hs[j]
  }

  // ---------------------------------------------------------------------------
  // Composition

  /** A composed list behaves as its first hook for the target kind, or hands
      the data on unchanged when there is none: once a hook has converted a
      string nothing after it fires, so at most one guard matters. */
  lemma {:induction false} ComposeSelects(hs: seq<Hook>, to: Kind, data: Value)
    ensures Compose(hs, to, data) ==
      match FirstFor(hs, to)
      case None => Done(data)
      case Some(h) => Apply(h, to, data)
    decreases |hs|
  {
    if hs != [] {
      if hs[0].target == to {
        if KindOf(data) == String {
          var o := Apply(hs[0], to, data);
          if o.Done? {
            ComposePassesNonStrings(hs[1..], to, o.value);
          }
        } else {
          ComposePassesNonStrings(hs[1..], to, data);
        }
      } else {
        ComposeSelects(hs[1..], to, data);
      }
    }
  }

  /** Data that is not a string goes through any composition unchanged. */
  lemma {:induction false} ComposePassesNonStrings(hs: seq<Hook>, to: Kind, data: Value)
    requires !data.Str?
    ensures Compose(hs, to, data) == Done(data)
    decreases |hs|
  {
    if hs != [] {
      ComposePassesNonStrings(hs[1..], to, data);
    }
  }

  /** With the target kinds distinct, every hook of the list is the first one
      for its own target, so the composition converts to kind h.target
      exactly as h alone does. */
  lemma ComposeAsMember(hs: seq<Hook>, h: Hook, data: Value)
    requires TargetsDistinct(hs) && h in hs
    ensures Compose(hs, h.target, data) == Apply(h, h.target, data)
  {
    ComposeSelects(hs, h.target, data);
    FirstForDistinct(hs, h);
  }

  lemma {:induction false} FirstForDistinct(hs: seq<Hook>, h: Hook)
    requires TargetsDistinct(hs) && h in hs
    ensures FirstFor(hs, h.target) == Some(h)
    decreases |hs|
  {
    if hs[0] != h {
      assert h in hs[1..];
      var j :| 0 <= j < |hs| && hs[j] == h;
      assert hs[0].target != h.target;
      assert TargetsDistinct(hs[1..]) by {
        forall i, k | 0 <= i < k < |hs[1..]| && hs[1..][i].target == hs[1..][k].target
          ensures hs[1..][i] == hs[1..][k]
        {
          assert hs[1..][i] == hs[i + 1] && hs[1..][k] == hs[k + 1];
        }
      }
      FirstForDistinct(hs[1..], h);
    }
  }

  // ---------------------------------------------------------------------------
  // What a single hook converts

  predicate InSignedRange(v: int, bitSize: int)
    requires 0 <= bitSize <= 64
  {
    var bits := EffectiveBits(bitSize);
    MinInt(bits) <= v <= MaxInt(bits)
  }

  /** A ParseInt hook converts exactly the base-0 signed literals within the
      signed range of its width, to their value; every other string is an
      error, a range error for a literal out of range. */
  lemma SignedHookCorrect(h: Hook, s: string)
    requires h.parser.SignedParse? && h.fallback == NoFallback
    requires h.parser.bitSize == 0 || 2 <= h.parser.bitSize <= 64
    ensures var r := Apply(h, h.target, Str(s));
            var lit := SignedLiteral(s, 0);
      && (r.Done? <==> lit.Some? && InSignedRange(lit.value, h.parser.bitSize))
      && (r.Done? ==> r.value == Integer(h.target, lit.value))
      && (!r.Done? ==> r.Failed?)
      && (lit.Some? && !InSignedRange(lit.value, h.parser.bitSize) ==> r.Failed? && r.error.err == ErrRange)
  {
    ParseIntMatchesLiteral(s, 0, h.parser.bitSize);
  }

  /** A ParseUint hook converts exactly the base-0 unsigned literals within
      the range of its width, to their value. */
  lemma UnsignedHookCorrect(h: Hook, s: string)
    requires h.parser.UnsignedParse? && h.fallback == NoFallback
    requires 0 <= h.parser.bitSize <= 64
    ensures var r := Apply(h, h.target, Str(s));
            var lit := UnsignedLiteral(s, 0);
      && (r.Done? <==> lit.Some? && lit.value <= MaxUint(EffectiveBits(h.parser.bitSize)))
      && (r.Done? ==> r.value == Integer(h.target, lit.value))
      && (!r.Done? ==> r.Failed?)
      && (lit.Some? && lit.value > MaxUint(EffectiveBits(h.parser.bitSize)) ==> r.Failed? && r.error.err == ErrRange)
  {
    ParseUintMatchesLiteral(s, 0, h.parser.bitSize);
  }

  /** An unsigned literal never starts with '-'. */
  lemma UnsignedRejectsMinus(s: string, base: int)
    requires s != "" && s[0] == '-'
    ensures UnsignedLiteral(s, base).None?
  {
    if base == 0 || 2 <= base <= 36 {
      var (b, ds) := SplitBase(s, base);
      assert ds == s;
      assert !ValidDigit(ds[0], b, base == 0);
    }
  }

  /** So an unsigned hook fails on every string that starts with '-'. */
  lemma UnsignedHookRejectsMinus(h: Hook, s: string)
    requires h.parser.UnsignedParse? && h.fallback == NoFallback
    requires 0 <= h.parser.bitSize <= 64
    requires s != "" && s[0] == '-'
    ensures Apply(h, h.target, Str(s)).Failed?
  {
    UnsignedHookCorrect(h, s);
    UnsignedRejectsMinus(s, 0);
  }

  /** The Atoi hook converts exactly the optionally signed decimal literals
      within the 64-bit signed range. */
  lemma DecimalHookCorrect(h: Hook, s: string)
    requires h.parser == DecimalParse && h.fallback == NoFallback
    ensures var r := Apply(h, h.target, Str(s));
            var lit := SignedLiteral(s, 10);
      && (r.Done? <==> lit.Some? && InSignedRange(lit.value, 64))
      && (r.Done? ==> r.value == Integer(h.target, lit.value))
      && (!r.Done? ==> r.Failed? && r.error.func == FnAtoi)
  {
    AtoiMatchesLiteral(s);
  }

  /** The bool hook's outcome is exactly strconv.ParseBool's. */
  lemma BoolHookCorrect(h: Hook, s: string)
    requires h.parser == BoolParse && h.fallback == NoFallback
    ensures var r := Apply(h, h.target, Str(s));
      && (r == Done(Boolean(true)) <==> s in {"1", "t", "T", "TRUE", "true", "True"})
      && (r == Done(Boolean(false)) <==> s in {"0", "f", "F", "FALSE", "false", "False"})
      && (!r.Done? ==> r == Failed(NumError(FnParseBool, s, ErrSyntax)))
  {
  }

  /** The two halves of SignedHookCorrect for a string whose literal value
      is known. */
  lemma SignedHookTakes(h: Hook, s: string, v: int)
    requires h.parser.SignedParse? && h.fallback == NoFallback
    requires h.parser.bitSize == 0 || 2 <= h.parser.bitSize <= 64
    requires SignedLiteral(s, 0) == Some(v) && InSignedRange(v, h.parser.bitSize)
    ensures Apply(h, h.target, Str(s)) == Done(Integer(h.target, v))
  {
    SignedHookCorrect(h, s);
  }

  lemma SignedHookRangeError(h: Hook, s: string, v: int)
    requires h.parser.SignedParse? && h.fallback == NoFallback
    requires h.parser.bitSize == 0 || 2 <= h.parser.bitSize <= 64
    requires SignedLiteral(s, 0) == Some(v) && !InSignedRange(v, h.parser.bitSize)
    ensures Apply(h, h.target, Str(s)) == Failed(NumError(FnParseInt, s, ErrRange))
  {
    SignedHookCorrect(h, s);
  }

  /** The uint8 hook with the single-byte fallback: the parsed value when
      the string is an unsigned literal that fits, otherwise the byte of a
      one-byte string, otherwise the parse error. */
  lemma SingleByteHookCorrect(h: Hook, s: string)
    requires h.parser.UnsignedParse? && h.fallback == SingleByte
    requires 0 <= h.parser.bitSize <= 64
    ensures var r := Apply(h, h.target, Str(s));
            var lit := UnsignedLiteral(s, 0);
            var fits := lit.Some? && lit.value <= MaxUint(EffectiveBits(h.parser.bitSize));
      && (fits ==> r == Done(Integer(h.target, lit.value)))
      && (!fits && |s| == 1 && s[0] as int < 0x80 ==> r == Done(Integer(h.target, s[0] as int)))
      && (!fits && !(|s| == 1 && s[0] as int < 0x80) ==> ParseUint(s, 0, h.parser.bitSize).Fail? && r == Failed(ParseUint(s, 0, h.parser.bitSize).error))
  {
    ParseUintMatchesLiteral(s, 0, h.parser.bitSize);
    ByteLenOne(s);
  }

  /** The int32 hook with the single-rune fallback: the parsed value when the
      string is a signed literal that fits, otherwise the code point of a
      one-character string, otherwise the parse error. */
  lemma SingleRuneHookCorrect(h: Hook, s: string)
    requires h.parser.SignedParse? && h.fallback == SingleRune
    requires h.parser.bitSize == 0 || 2 <= h.parser.bitSize <= 64
    ensures var r := Apply(h, h.target, Str(s));
            var lit := SignedLiteral(s, 0);
            var fits := lit.Some? && InSignedRange(lit.value, h.parser.bitSize);
      && (fits ==> r == Done(Integer(h.target, lit.value)))
      && (!fits && |s| == 1 ==> r == Done(Integer(h.target, s[0] as int)))
      && (!fits && |s| != 1 ==> ParseInt(s, 0, h.parser.bitSize).Fail? && r == Failed(ParseInt(s, 0, h.parser.bitSize).error))
  {
    ParseIntMatchesLiteral(s, 0, h.parser.bitSize);
  }
}
