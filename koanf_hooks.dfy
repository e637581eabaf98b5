/** The decode hooks of the koanf package: one hook per scalar kind, all
    parsing in base 0 (sign, then an optional 0b/0o/0x or leading-0 prefix),
    none with a fallback, and their composition. */
module KoanfHooks {
  import opened Wrappers
  import opened Strconv
  import opened Reflect
  import opened Hooks

  const Int8Hook := StringTo(Int8, SignedParse(8), NoFallback)
  const Uint8Hook := StringTo(Uint8, UnsignedParse(8), NoFallback)
  const Int16Hook := StringTo(Int16, SignedParse(16), NoFallback)
  const Uint16Hook := StringTo(Uint16, UnsignedParse(16), NoFallback)
  const Int32Hook := StringTo(Int32, SignedParse(32), NoFallback)
  const Uint32Hook := StringTo(Uint32, UnsignedParse(32), NoFallback)
  const Int64Hook := StringTo(Int64, SignedParse(64), NoFallback)
  const Uint64Hook := StringTo(Uint64, UnsignedParse(64), NoFallback)
  /** int and uint parse with bit size 0, the platform word (64 bits). */
  const IntHook := StringTo(Int, SignedParse(0), NoFallback)
  const UintHook := StringTo(Uint, UnsignedParse(0), NoFallback)
  const Float32Hook := StringTo(Float32, FloatParse(32), NoFallback)
  const Float64Hook := StringTo(Float64, FloatParse(64), NoFallback)
  const BoolHook := StringTo(Bool, BoolParse, NoFallback)
  /** byte and rune are Go's aliases of uint8 and int32. */
  const ByteHook := Uint8Hook
  const RuneHook := Int32Hook
  const Complex64Hook := StringTo(Complex64, ComplexParse(64), NoFallback)
  const Complex128Hook := StringTo(Complex128, ComplexParse(128), NoFallback)

  /** StringToBasicTypeHookFunc's list, in its order; the byte and rune hooks
      are left out of it. */
  const BasicTypeHooks := [
    Int8Hook, Uint8Hook, Int16Hook, Uint16Hook, Int32Hook, Uint32Hook,
    Int64Hook, Uint64Hook, IntHook, UintHook, Float32Hook, Float64Hook,
    BoolHook, Complex64Hook, Complex128Hook]

  const SignedHooks := [Int8Hook, Int16Hook, Int32Hook, Int64Hook, IntHook]
  const UnsignedHooks := [Uint8Hook, Uint16Hook, Uint32Hook, Uint64Hook, UintHook]

  /** The composite's target kinds are pairwise distinct. */
  lemma BasicTypeTargetsDistinct()
    ensures TargetsDistinct(BasicTypeHooks)
    ensures forall i, j | 0 <= i < j < |BasicTypeHooks| :: BasicTypeHooks[i].target != BasicTypeHooks[j].target
  {
  }

  /** So the composite converts a string to each kind exactly as that kind's
      own hook does, and hands anything else on. */
  lemma BasicTypeSelects(h: Hook, data: Value)
    requires h in BasicTypeHooks
    ensures Compose(BasicTypeHooks, h.target, data) == Apply(h, h.target, data)
  {
    BasicTypeTargetsDistinct();
    ComposeAsMember(BasicTypeHooks, h, data);
  }

  /** The signed hooks convert exactly the base-0 signed literals in range. */
  lemma SignedHooksCorrect(h: Hook, s: string)
    requires h in SignedHooks
    ensures var r := Apply(h, h.target, Str(s));
            var lit := SignedLiteral(s, 0);
      && (r.Done? <==> lit.Some? && InSignedRange(lit.value, h.parser.bitSize))
      && (r.Done? ==> r.value == Integer(h.target, lit.value))
      && (!r.Done? ==> r.Failed?)
  {
    SignedHookCorrect(h, s);
  }

  /** The unsigned hooks convert exactly the base-0 unsigned literals in
      range, and a leading '-' is always an error. */
  lemma UnsignedHooksCorrect(h: Hook, s: string)
    requires h in UnsignedHooks
    ensures var r := Apply(h, h.target, Str(s));
            var lit := UnsignedLiteral(s, 0);
      && (r.Done? <==> lit.Some? && lit.value <= MaxUint(EffectiveBits(h.parser.bitSize)))
      && (r.Done? ==> r.value == Integer(h.target, lit.value))
      && (!r.Done? ==> r.Failed?)
      && (s != "" && s[0] == '-' ==> r.Failed?)
  {
    UnsignedHookCorrect(h, s);
    if s != "" && s[0] == '-' {
      UnsignedHookRejectsMinus(h, s);
    }
  }

  // The examples below give their string character by character in the
  // precondition, so that the solver works from the general lemmas instead
  // of evaluating the parsers on a constant.

  /** Unlike the gin hooks, "a" into uint8 is a syntax error. */
  lemma NoSingleByteFallback(s: string)
    requires |s| == 1 && s[0] == 'a'
    ensures Compose(BasicTypeHooks, Uint8, Str(s)) == Failed(NumError(FnParseUint, s, ErrSyntax))
  {
    assert SplitBase(s, 0) == (10, s);
    Width8();
    assert Scan(s, s, 10, true, MaxUint(8), 0, false) == Fail(NumError(FnParseUint, s, ErrSyntax));
    assert Apply(Uint8Hook, Uint8, Str(s)) == Failed(NumError(FnParseUint, s, ErrSyntax));
    BasicTypeSelects(Uint8Hook, Str(s));
  }

  /** The int8 hook (and so, by BasicTypeSelects, the composite) takes 127 ... */
  lemma Int8TakesMax(s: string)
    requires |s| == 3 && s[0] == '1' && s[1] == '2' && s[2] == '7'
    ensures Apply(Int8Hook, Int8, Str(s)) == Done(Integer(Int8, 127))
  {
    ThreeDigits(s);
    assert SignedLiteral(s, 0) == Some(127);
    Width8();
    SignedHookTakes(Int8Hook, s, 127);
  }

  /** ... and -128 ... */
  lemma Int8TakesMin(s: string)
    requires |s| == 4 && s[0] == '-' && s[1] == '1' && s[2] == '2' && s[3] == '8'
    ensures Apply(Int8Hook, Int8, Str(s)) == Done(Integer(Int8, -128))
  {
    ThreeDigits(s[1..]);
    assert SignedLiteral(s, 0) == Some(-128);
    Width8();
    SignedHookTakes(Int8Hook, s, -128);
  }

  /** ... but not 128, which is a range error. */
  lemma Int8RejectsPastMax(s: string)
    requires |s| == 3 && s[0] == '1' && s[1] == '2' && s[2] == '8'
    ensures Apply(Int8Hook, Int8, Str(s)) == Failed(NumError(FnParseInt, s, ErrRange))
  {
    ThreeDigits(s);
    assert SignedLiteral(s, 0) == Some(128);
    Width8();
    SignedHookRangeError(Int8Hook, s, 128);
  }
}
