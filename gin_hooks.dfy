/** The decode hooks of the gin binding extension. They differ from the
    koanf ones in three ways: the int hook uses strconv.Atoi (decimal only),
    the uint8 hook falls back to the byte of a one-byte string, and the int32
    hook falls back to the code point of a one-character string. The deferred
    re-wrapping of the uint8 and int32 errors assigns to a local variable
    after the function has chosen its results, so the error returned is the
    parse error itself. */
module GinHooks {
  import opened Wrappers
  import opened Strconv
  import opened Reflect
  import opened Hooks

  const BoolHook := StringTo(Bool, BoolParse, NoFallback)
  const IntHook := StringTo(Int, DecimalParse, NoFallback)
  const UintHook := StringTo(Uint, UnsignedParse(0), NoFallback)
  const Int8Hook := StringTo(Int8, SignedParse(8), NoFallback)
  const Uint8Hook := StringTo(Uint8, UnsignedParse(8), SingleByte)
  const Int16Hook := StringTo(Int16, SignedParse(16), NoFallback)
  const Uint16Hook := StringTo(Uint16, UnsignedParse(16), NoFallback)
  const Int32Hook := StringTo(Int32, SignedParse(32), SingleRune)
  const Uint32Hook := StringTo(Uint32, UnsignedParse(32), NoFallback)
  const Int64Hook := StringTo(Int64, SignedParse(64), NoFallback)
  const Uint64Hook := StringTo(Uint64, UnsignedParse(64), NoFallback)
  const Float32Hook := StringTo(Float32, FloatParse(32), NoFallback)
  const Float64Hook := StringTo(Float64, FloatParse(64), NoFallback)
  /** StringToByteHookFunc and StringToRuneHookFunc return the uint8 and
      int32 hooks themselves. */
  const ByteHook := Uint8Hook
  const RuneHook := Int32Hook
  /** Defined beside the others but not part of the composite. */
  const Complex64Hook := StringTo(Complex64, ComplexParse(64), NoFallback)
  const Complex128Hook := StringTo(Complex128, ComplexParse(128), NoFallback)

  /** StringToBasicTypeHookFunc's list, in its order. */
  const BasicTypeHooks := [
    BoolHook, IntHook, UintHook, Int8Hook, Uint8Hook, Int16Hook, Uint16Hook,
    Int32Hook, Uint32Hook, Int64Hook, Uint64Hook, Float32Hook, Float64Hook,
    ByteHook, RuneHook]

  /** The composite's target kinds repeat only for the byte and rune aliases,
      which are the very hooks they repeat; no hook targets a complex kind. */
  lemma BasicTypeTargets()
    ensures TargetsDistinct(BasicTypeHooks)
    ensures forall i, j | 0 <= i < j < |BasicTypeHooks| && BasicTypeHooks[i].target == BasicTypeHooks[j].target ::
      BasicTypeHooks[i].target in {Uint8, Int32}
    ensures forall h | h in BasicTypeHooks :: h.target !in {Complex64, Complex128}
  {
  }

  /** The composite converts to each kind exactly as that kind's own hook. */
  lemma BasicTypeSelects(h: Hook, data: Value)
    requires h in BasicTypeHooks
    ensures Compose(BasicTypeHooks, h.target, data) == Apply(h, h.target, data)
  {
    BasicTypeTargets();
    ComposeAsMember(BasicTypeHooks, h, data);
  }

  /** A complex target is left to the decoder: the composite hands the data on. */
  lemma BasicTypeSkipsComplex(to: Kind, data: Value)
    requires to == Complex64 || to == Complex128
    ensures Compose(BasicTypeHooks, to, data) == Done(data)
  {
    BasicTypeTargets();
    ComposeSelects(BasicTypeHooks, to, data);
  }

  // The examples below give their string character by character in the
  // precondition, so that the solver works from the general lemmas instead
  // of evaluating the parsers on a constant.

  /** The int hook takes "-27" to -27 ... */
  lemma IntTakesDecimal(s: string)
    requires |s| == 3 && s[0] == '-' && s[1] == '2' && s[2] == '7'
    ensures Apply(IntHook, Int, Str(s)) == Done(Integer(Int, -27))
  {
    TwoDigits(s[1..]);
    assert SignedLiteral(s, 10) == Some(-27);
    Width64();
    DecimalHookCorrect(IntHook, s);
  }

  /** ... and rejects the hexadecimal "0x1A" ... */
  lemma IntRejectsHex(s: string)
    requires |s| == 4 && s[0] == '0' && s[1] == 'x' && s[2] == '1' && s[3] == 'A'
    ensures Apply(IntHook, Int, Str(s)) == Failed(NumError(FnAtoi, s, ErrSyntax))
  {
    var max := MaxUint(EffectiveBits(0));
    assert Scan(s, s[1..], 10, false, max, 0, false) == Fail(NumError(FnParseUint, s, ErrSyntax));
    assert Mul(0, 10) == 0;
    assert Scan(s, s, 10, false, max, 0, false) == Scan(s, s[1..], 10, false, max, 0, false);
    assert ParseUint(s, 10, 0) == Fail(NumError(FnParseUint, s, ErrSyntax));
  }

  /** ... which the int64 hook reads as 26. */
  lemma Int64TakesHex(s: string)
    requires |s| == 4 && s[0] == '0' && s[1] == 'x' && s[2] == '1' && s[3] == 'A'
    ensures Apply(Int64Hook, Int64, Str(s)) == Done(Integer(Int64, 26))
  {
    var ds := s[2..];
    assert SplitBase(s, 0) == (16, ds);
    assert AllValid(ds, 16, true) && '_' !in ds && Without(ds) == ds by {
      assert ds[1..][1..] == [];
      WithoutCons(ds);
      WithoutCons(ds[1..]);
    }
    assert ds == [ds[0], ds[1]];
    Horner2(ds[0], ds[1], 16);
    assert SignedLiteral(s, 0) == Some(26);
    Width64();
    SignedHookTakes(Int64Hook, s, 26);
  }

  /** The uint8 hook parses "27" ... */
  lemma Uint8Parses(s: string)
    requires |s| == 2 && s[0] == '2' && s[1] == '7'
    ensures Apply(Uint8Hook, Uint8, Str(s)) == Done(Integer(Uint8, 27))
  {
    TwoDigits(s);
    Width8();
    SingleByteHookCorrect(Uint8Hook, s);
  }

  /** ... gives the byte of "a", which is not a number, ... */
  lemma Uint8TakesByte(s: string)
    requires |s| == 1 && s[0] == 'a'
    ensures Apply(Uint8Hook, Uint8, Str(s)) == Done(Integer(Uint8, 97))
  {
    assert SplitBase(s, 0) == (10, s) && !AllValid(s, 10, true);
    SingleByteHookCorrect(Uint8Hook, s);
  }

  /** ... and fails on "ab", which is neither. */
  lemma Uint8RejectsTwoBytes(s: string)
    requires |s| == 2 && s[0] == 'a' && s[1] == 'b'
    ensures Apply(Uint8Hook, Uint8, Str(s)) == Failed(NumError(FnParseUint, s, ErrSyntax))
  {
    assert SplitBase(s, 0) == (10, s) && !AllValid(s, 10, true);
    Width8();
    assert Scan(s, s, 10, true, MaxUint(8), 0, false) == Fail(NumError(FnParseUint, s, ErrSyntax));
    assert ParseUint(s, 0, 8) == Fail(NumError(FnParseUint, s, ErrSyntax));
    SingleByteHookCorrect(Uint8Hook, s);
  }

  /** The int32 hook: "好" is not a number and gives its code point. */
  lemma RuneExample(s: string)
    requires |s| == 1 && s[0] == '好'
    ensures Apply(Int32Hook, Int32, Str(s)) == Done(Integer(Int32, 0x597D))
  {
    assert SplitBase(s, 0) == (10, s) && !AllValid(s, 10, true);
    SingleRuneHookCorrect(Int32Hook, s);
  }

  /** The int8 hook rejects "200" with a range error. */
  lemma Int8RejectsOutOfRange(s: string)
    requires |s| == 3 && s[0] == '2' && s[1] == '0' && s[2] == '0'
    ensures Apply(Int8Hook, Int8, Str(s)) == Failed(NumError(FnParseInt, s, ErrRange))
  {
    ThreeDigits(s);
    assert SignedLiteral(s, 0) == Some(200);
    Width8();
    SignedHookRangeError(Int8Hook, s, 200);
  }
}
