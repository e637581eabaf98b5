/** The decode hooks of the mapstructure library that the loaders install.
    They are library code, so a hook is modelled by its name and arguments;
    what a hook does to a value is a parameter `prim`. Composition is taken
    to be ComposeDecodeHookFunc's documented behaviour: the hooks run left to
    right, each on the previous one's output, and the first error stops the
    chain. */
module Mapstructure {
  import opened Wrappers
  import opened Reflect

  datatype HookFn =
    | StringToBasicType            // mapstructure.StringToBasicTypeHookFunc()
    | StringToTimeDuration         // mapstructure.StringToTimeDurationHookFunc()
    | StringToTime(layout: string) // mapstructure.StringToTimeHookFunc(layout)
    | StringToIP
    | StringToIPNet
    | StringToNetIPAddr
    | StringToNetIPAddrPort
    | StringToSlice(sep: string)   // mapstructure.StringToSliceHookFunc(sep)
    | Composed(hooks: seq<HookFn>)   // mapstructure.ComposeDecodeHookFunc(hooks...)
    | OrComposed(hooks: seq<HookFn>) // mapstructure.OrComposeDecodeHookFunc(hooks...)
    | Custom(id: nat)              // a hook supplied by the caller

  // The layouts of Go's time package the loaders try, in their order.
  const RFC822 := "02 Jan 06 15:04 MST"
  const RFC822Z := "02 Jan 06 15:04 -0700"
  const RFC850 := "Monday, 02-Jan-06 15:04:05 MST"
  const RFC1123 := "Mon, 02 Jan 2006 15:04:05 MST"
  const RFC1123Z := "Mon, 02 Jan 2006 15:04:05 -0700"
  const RFC3339 := "2006-01-02T15:04:05Z07:00"
  const RFC3339Nano := "2006-01-02T15:04:05.999999999Z07:00"

  /** The time hook both loaders install: the first of these layouts that
      parses the string. */
  const TimeHooks := OrComposed([
    StringToTime(RFC822), StringToTime(RFC822Z), StringToTime(RFC850),
    StringToTime(RFC1123), StringToTime(RFC1123Z), StringToTime(RFC3339),
    StringToTime(RFC3339Nano)])

  /** The hooks every loader starts from, in their order. */
  const CommonHooks := [
    StringToBasicType, StringToTimeDuration, TimeHooks,
    StringToIP, StringToIPNet, StringToNetIPAddr, StringToNetIPAddrPort]

  /** A hook applied to data bound for a field of kind `to`; a hook that is
      not a composition behaves as `prim` says. */
  function Run(h: HookFn, prim: (HookFn, Kind, Value) -> Result<Value, Error>, to: Kind, data: Value): Result<Value, Error>
    decreases h, 1
  {
    match h
    case Composed(hs) => RunAll(hs, prim, to, data)
    case _ => prim(h, to, data)
  }

  /** The hooks one after the other, stopping at the first error. */
  function RunAll(hs: seq<HookFn>, prim: (HookFn, Kind, Value) -> Result<Value, Error>, to: Kind, data: Value): Result<Value, Error>
    decreases hs, 0
  {
    if hs == [] then Ok(data)
    else
      match Run(hs[0], prim, to, data)
      case Ok(v) => RunAll(hs[1..], prim, to, v)
      case Fail(e) => Fail(e)
  }

  /** Running two lists one after the other is running their concatenation. */
  lemma {:induction false} RunAllAppend(hs: seq<HookFn>, gs: seq<HookFn>, prim: (HookFn, Kind, Value) -> Result<Value, Error>, to: Kind, data: Value)
    ensures RunAll(hs + gs, prim, to, data) ==
      match RunAll(hs, prim, to, data)
      case Ok(v) => RunAll(gs, prim, to, v)
      case Fail(e) => Fail(e)
    decreases |hs|
  {
    if hs == [] {
      assert hs + gs == gs;
    } else {
      assert (hs + gs)[0] == hs[0] && (hs + gs)[1..] == hs[1..] + gs;
      match Run(hs[0], prim, to, data)
      case Ok(v) => RunAllAppend(hs[1..], gs, prim, to, v);
      case Fail(e) =>
    }
  }

  /** Composing a hook with the composition of a list behaves as the flat
      list with that hook in front: the earlier hook keeps running first. */
  lemma ComposeNested(h: HookFn, hs: seq<HookFn>, prim: (HookFn, Kind, Value) -> Result<Value, Error>, to: Kind, data: Value)
    ensures Run(Composed([h, Composed(hs)]), prim, to, data) == RunAll([h] + hs, prim, to, data)
  {
    RunAllAppend([h], hs, prim, to, data);
    assert [h][1..] == [];
    assert [Composed(hs)][1..] == [];
    match Run(h, prim, to, data)
    case Ok(v) =>
      assert RunAll([h], prim, to, data) == Ok(v);
      assert RunAll([Composed(hs)], prim, to, v) == RunAll(hs, prim, to, v);
    case Fail(e) =>
  }
}
