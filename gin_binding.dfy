/** ginleaf's binding helpers: Bind, which picks the binding from the number
    given, and ComposedBinding, which runs several bindings in order and
    stops at the first that fails. */
module GinBinding {
  import opened Wrappers

  /** A gin binding.Binding. What a binding that is not a composition does
      to a request is library code; its error (None for success) is given by
      a parameter `result` of the operations below. */
  datatype Binding =
    | Structs                                       // ginleaf's defaultStructsBinding
    | Primitive(id: nat, name: string)              // any other binding the caller passes
    | Composite(name: string, bindings: seq<Binding>)  // a *ComposedBinding

  function Name(b: Binding): string {
    match b
    case Structs => "structs"
    case Primitive(_, name) => name
    case Composite(name, _) => name
  }

  /** The outcome of a Bind: its error, and the bindings that are not
      compositions that it invoked, in order. */
  datatype Run = Run(err: Option<Error>, invoked: seq<Binding>)

  function FailureMessage(composed: string, child: string): string {
    "compose binding '" + composed + "'-'" + child + "' bind failed"
  }

  /** What b.Bind does. */
  function BindSpec(b: Binding, result: Binding -> Option<Error>): Run
    decreases b, 1, 0
  {
    match b
    case Composite(_, bs) => ChildrenSpec(b, |bs|, result)
    case _ => Run(result(b), [b])
  }

  /** The composed Bind over the first n children of c. */
  function ChildrenSpec(c: Binding, n: nat, result: Binding -> Option<Error>): Run
    requires c.Composite? && n <= |c.bindings|
    decreases c, 0, n
  {
    if n == 0 then Run(None, [])
    else
      var prev := ChildrenSpec(c, n - 1, result);
      if prev.err.Some? then prev
      else
        var child := c.bindings[n - 1];
        var r := BindSpec(child, result);
        var err := if r.err.Some? then Some(Wrapped(FailureMessage(c.name, Name(child)), r.err.value)) else None;
        Run(err, prev.invoked + r.invoked)
  }

  /** The composed name: "compose", then "_" and the name of each binding. */
  function ComposedName(names: seq<string>): string
    decreases |names|
  {
    if names == [] then "compose"
    else ComposedName(names[..|names| - 1]) + "_" + names[|names| - 1]
  }

  /** The names of the bindings, in order; they make the composed name more
      than "compose" exactly when there is at least one. */
  function Names(bs: seq<Binding>): (r: seq<string>)
    ensures ComposedName(r) == "compose" <==> bs == []
  {
    var r := seq(|bs|, i requires 0 <= i < |bs| => Name(bs[i]));
    ComposedNameShape(r);
    r
  }

  /** ComposeBinding: None stands for its panic on an empty list. */
  method ComposeBinding(bindings: seq<Binding>) returns (r: Option<Binding>)
    ensures r.None? <==> bindings == []
    ensures r.Some? ==> r.value == Composite(ComposedName(Names(bindings)), bindings)
  {
    if |bindings| == 0 {
      return None;
    }
    var buf := "compose";
    var i := 0;
    while i < |bindings|
      invariant 0 <= i <= |bindings|
      invariant buf == ComposedName(Names(bindings)[..i])
    {
      buf := buf + "_";
      buf := buf + Name(bindings[i]);
      assert Names(bindings)[..i + 1][..i] == Names(bindings)[..i];
      i := i + 1;
    }
    assert Names(bindings)[..i] == Names(bindings);
    return Some(Composite(buf, bindings));
  }

  /** b.Bind on the request. */
  method Bind(b: Binding, result: Binding -> Option<Error>) returns (err: Option<Error>, invoked: seq<Binding>)
    ensures Run(err, invoked) == BindSpec(b, result)
    decreases b
  {
    if !b.Composite? {
      return result(b), [b];
    }
    invoked := [];
    var i := 0;
    while i < |b.bindings|
      invariant 0 <= i <= |b.bindings|
      invariant ChildrenSpec(b, i, result) == Run(None, invoked)
    {
      var child := b.bindings[i];
      var e, called := Bind(child, result);
      invoked := invoked + called;
      if e.Some? {
        err := Some(Wrapped(FailureMessage(b.name, Name(child)), e.value));
        ChildrenStop(b, i + 1, |b.bindings|, result);
        return;
      }
      i := i + 1;
    }
    err := None;
  }

  /** Once a child has failed, the later children change nothing. */
  lemma {:induction false} ChildrenStop(c: Binding, i: nat, n: nat, result: Binding -> Option<Error>)
    requires c.Composite? && i <= n <= |c.bindings|
    requires ChildrenSpec(c, i, result).err.Some?
    ensures ChildrenSpec(c, n, result) == ChildrenSpec(c, i, result)
    decreases n
  {
    if n > i {
      ChildrenStop(c, i, n - 1, result);
    }
  }

  // ---------------------------------------------------------------------------
  // Properties

  /** "compose_a_b" for bindings named a and b. */
  lemma ComposedNameExample()
    ensures ComposedName(["a", "b"]) == "compose_a_b"
  {
    assert ["a", "b"][..1] == ["a"] && ["a"][..0] == [];
  }

  /** The composed name starts with "compose", each further name makes it
      longer by that name and an underscore, so it is exactly "compose" only
      for no bindings, and the name of a prefix of the bindings is a prefix
      of the name. */
  lemma {:induction false} ComposedNameShape(names: seq<string>)
    ensures |ComposedName(names)| >= 7 && ComposedName(names)[..7] == "compose"
    ensures |ComposedName(names)| >= 7 + |names|
    ensures ComposedName(names) == "compose" <==> names == []
    ensures forall k | 0 <= k <= |names| :: ComposedName(names[..k]) <= ComposedName(names)
    decreases |names|
  {
    if names != [] {
      var init := names[..|names| - 1];
      ComposedNameShape(init);
      var p := ComposedName(init);
      assert ComposedName(names) == p + "_" + names[|names| - 1];
      assert (p + "_" + names[|names| - 1])[..7] == p[..7];
      forall k | 0 <= k <= |names|
        ensures ComposedName(names[..k]) <= ComposedName(names)
      {
        if k < |names| {
          assert init[..k] == names[..k];
          assert p <= ComposedName(names);
        } else {
          assert names[..k] == names;
        }
      }
    }
  }

  /** A composed binding succeeds exactly when each child succeeds; then it
      has invoked every child. */
  lemma {:induction false} ChildrenSucceed(c: Binding, n: nat, result: Binding -> Option<Error>)
    requires c.Composite? && n <= |c.bindings|
    ensures ChildrenSpec(c, n, result).err.None? <==> forall i | 0 <= i < n :: BindSpec(c.bindings[i], result).err.None?
    decreases n
  {
    if n > 0 {
      ChildrenSucceed(c, n - 1, result);
      if ChildrenSpec(c, n - 1, result).err.Some? {
        ChildrenStop(c, n - 1, n, result);
      }
    }
  }

  /** When child i is the first to fail, the composed binding fails with its
      error, wrapped with the names of both, and invokes nothing after it. */
  lemma {:induction false} FirstFailureReported(c: Binding, i: nat, result: Binding -> Option<Error>)
    requires c.Composite? && i < |c.bindings|
    requires forall j | 0 <= j < i :: BindSpec(c.bindings[j], result).err.None?
    requires BindSpec(c.bindings[i], result).err.Some?
    ensures var r := BindSpec(c, result);
      && r.err == Some(Wrapped(FailureMessage(c.name, Name(c.bindings[i])), BindSpec(c.bindings[i], result).err.value))
      && r.invoked == ChildrenSpec(c, i, result).invoked + BindSpec(c.bindings[i], result).invoked
  {
    ChildrenSucceed(c, i, result);
    ChildrenStop(c, i + 1, |c.bindings|, result);
  }

  // ---------------------------------------------------------------------------
  // ginleaf.Bind

  /** The binding Bind uses: the default structs binding for none, the one
      given for one, their composition for more. */
  function Select(bindings: seq<Binding>): (b: Binding)
    ensures |bindings| < 2 ==> b in (if bindings == [] then [Structs] else bindings)
    ensures |bindings| >= 2 ==> b.Composite? && b.bindings == bindings && "compose_" <= Name(b)
  {
    if |bindings| == 0 then Structs
    else if |bindings| == 1 then bindings[0]
    else
      var names := Names(bindings);
      ComposedNameShape(names);
      assert ComposedName(names[..1]) == ComposedName(names[..1][..0]) + "_" + names[0];
      assert names[..1][..0] == [];
      assert "compose_" <= ComposedName(names[..1]);
      Composite(ComposedName(names), bindings)
  }

  /** Whatever the number of bindings given, the selected binding succeeds
      exactly when each of them succeeds; with none given, that is the
      default structs binding. */
  lemma SelectSucceeds(bindings: seq<Binding>, result: Binding -> Option<Error>)
    ensures var given := if bindings == [] then [Structs] else bindings;
      BindSpec(Select(bindings), result).err.None? <==> forall i | 0 <= i < |given| :: BindSpec(given[i], result).err.None?
  {
    var given := if bindings == [] then [Structs] else bindings;
    if |bindings| >= 2 {
      var c := Select(bindings);
      assert BindSpec(c, result) == ChildrenSpec(c, |bindings|, result);
      ChildrenSucceed(c, |bindings|, result);
    } else {
      assert |given| == 1 && Select(bindings) == given[0];
    }
  }

  /** ginleaf.Bind. `uriErr` is the error of c.ShouldBindUri (library code);
      c.ShouldBindWith(obj, b) runs b.Bind. Returns the error and what the
      selected binding invoked. */
  method GinBind(bindings: seq<Binding>, uriErr: Option<Error>, result: Binding -> Option<Error>)
    returns (err: Option<Error>, invoked: seq<Binding>)
    ensures uriErr.Some? ==> err == Some(Wrapped("bind uri failed", uriErr.value)) && invoked == []
    ensures uriErr.None? ==> invoked == BindSpec(Select(bindings), result).invoked
    ensures uriErr.None? ==> var e := BindSpec(Select(bindings), result).err;
      err == if e.Some? then Some(Wrapped("bind failed", e.value)) else None
  {
    var b: Binding;
    if |bindings| == 0 {
      b := Structs;
    } else if |bindings| == 1 {
      b := bindings[0];
    } else {
      var composed := ComposeBinding(bindings);
      b := composed.value;
    }
    if uriErr.Some? {
      return Some(Wrapped("bind uri failed", uriErr.value)), [];
    }
    var e;
    e, invoked := Bind(b, result);
    if e.Some? {
      return Some(Wrapped("bind failed", e.value)), invoked;
    }
    err := None;
  }
}
