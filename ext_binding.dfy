/** The gin extension's Binding: something that binds a gin context into an
    object and has no result. Wrap adapts one of gin's request bindings,
    WrapBindingUri one of gin's URI bindings, and Composed runs several in
    order. gin's bindings are library code; what the model records is each
    call made to one of them, with its arguments. The errors gin's bindings
    return are dropped, so no error appears here. */
module ExtBinding {

  /** One entry of c.Params: a path parameter. */
  datatype Param = Param(key: string, value: string)

  /** The parts of a gin context the bindings use: an opaque request and the
      path parameters in their order. */
  datatype Context = Context(request: nat, params: seq<Param>)

  datatype Binding =
    | Wrapped(id: nat)                // Wrap(bd): bd is gin binding number id
    | UriWrapped(id: nat)             // WrapBindingUri(bd)
    | ComposedOf(bindings: seq<Binding>)  // Composed(bindings...)

  /** A call into one of gin's bindings. */
  datatype Call =
    | BindRequest(id: nat, request: nat)              // bd.Bind(c.Request, obj)
    | BindUri(id: nat, values: map<string, seq<string>>)  // bd.BindUri(m, obj)

  /** The map handed to BindUri, built from the params in order: each key
      maps to a one-element list, and a later param overwrites an earlier one
      with the same key. */
  function UriValues(params: seq<Param>): map<string, seq<string>>
    decreases |params|
  {
    if params == [] then map[]
    else
      var v := params[|params| - 1];
      UriValues(params[..|params| - 1])[v.key := [v.value]]
  }

  /** ginBindingUri.Bind's loop. */
  method UriMap(params: seq<Param>) returns (m: map<string, seq<string>>)
    ensures m == UriValues(params)
  {
    m := map[];
    var i := 0;
    while i < |params|
      invariant 0 <= i <= |params|
      invariant m == UriValues(params[..i])
    {
      var v := params[i];
      m := m[v.key := [v.value]];
      assert params[..i + 1][..i] == params[..i];
      i := i + 1;
    }
    assert params[..i] == params;
  }

  /** The calls binding b with context c makes. */
  function Calls(b: Binding, c: Context): seq<Call>
    decreases b, 1, 0
  {
    match b
    case Wrapped(id) => [BindRequest(id, c.request)]
    case UriWrapped(id) => [BindUri(id, UriValues(c.params))]
    case ComposedOf(bs) => CallsOfFirst(b, |bs|, c)
  }

  /** The calls of the first n bindings of a composition, in order. */
  function CallsOfFirst(b: Binding, n: nat, c: Context): seq<Call>
    requires b.ComposedOf? && n <= |b.bindings|
    decreases b, 0, n
  {
    if n == 0 then [] else CallsOfFirst(b, n - 1, c) + Calls(b.bindings[n - 1], c)
  }

  /** b.Bind(c, obj). */
  method Bind(b: Binding, c: Context) returns (calls: seq<Call>)
    ensures calls == Calls(b, c)
    decreases b
  {
    match b
    case Wrapped(id) =>
      calls := [BindRequest(id, c.request)];
    case UriWrapped(id) =>
      var m := UriMap(c.params);
      calls := [BindUri(id, m)];
    case ComposedOf(bs) =>
      calls := [];
      var i := 0;
      while i < |bs|
        invariant 0 <= i <= |bs|
        invariant calls == CallsOfFirst(b, i, c)
      {
        var more := Bind(bs[i], c);
        calls := calls + more;
        i := i + 1;
      }
  }

  // ---------------------------------------------------------------------------
  // Properties

  /** The URI map's keys are exactly the params' keys. */
  lemma {:induction false} UriValuesKeys(params: seq<Param>, k: string)
    ensures k in UriValues(params) <==> exists i | 0 <= i < |params| :: params[i].key == k
    decreases |params|
  {
    if params != [] {
      var init := params[..|params| - 1];
      UriValuesKeys(init, k);
      if k in UriValues(init) {
        var i :| 0 <= i < |init| && init[i].key == k;
        assert params[i].key == k;
      }
      if exists i | 0 <= i < |params| :: params[i].key == k {
        var i :| 0 <= i < |params| && params[i].key == k;
        if i < |init| {
          assert init[i].key == k;
        }
      }
    }
  }

  /** A key maps to the value of its last occurrence, as a one-element list. */
  lemma {:induction false} UriValuesLastWins(params: seq<Param>, i: nat)
    requires i < |params|
    requires forall j | i < j < |params| :: params[j].key != params[i].key
    ensures params[i].key in UriValues(params)
    ensures UriValues(params)[params[i].key] == [params[i].value]
    decreases |params|
  {
    if i < |params| - 1 {
      var init := params[..|params| - 1];
      assert init[i] == params[i];
      UriValuesLastWins(init, i);
    }
  }

  /** Every list in the URI map has exactly one element. */
  lemma {:induction false} UriValuesSingletons(params: seq<Param>)
    ensures forall k | k in UriValues(params) :: |UriValues(params)[k]| == 1
    decreases |params|
  {
    if params != [] {
      UriValuesSingletons(params[..|params| - 1]);
    }
  }

  /** Binding with a composition is binding with each member in turn. */
  lemma {:induction false} ComposedAppend(bs: seq<Binding>, b: Binding, c: Context)
    ensures Calls(ComposedOf(bs + [b]), c) == Calls(ComposedOf(bs), c) + Calls(b, c)
  {
    CallsOfFirstPrefix(ComposedOf(bs + [b]), ComposedOf(bs), |bs|, c);
  }

  lemma {:induction false} CallsOfFirstPrefix(b: Binding, b': Binding, n: nat, c: Context)
    requires b.ComposedOf? && b'.ComposedOf? && n <= |b.bindings| && n <= |b'.bindings|
    requires b.bindings[..n] == b'.bindings[..n]
    ensures CallsOfFirst(b, n, c) == CallsOfFirst(b', n, c)
    decreases n
  {
    if n > 0 {
      assert b.bindings[..n - 1] == b.bindings[..n][..n - 1];
      assert b'.bindings[..n - 1] == b'.bindings[..n][..n - 1];
      CallsOfFirstPrefix(b, b', n - 1, c);
      assert b.bindings[n - 1] == b.bindings[..n][n - 1];
      assert b'.bindings[n - 1] == b'.bindings[..n][n - 1];
    }
  }

  /** An empty composition makes no call. */
  lemma EmptyComposedDoesNothing(c: Context)
    ensures Calls(ComposedOf([]), c) == []
  {
  }

  /** A binding that is not a composition makes exactly one call. */
  function CallOf(b: Binding, c: Context): Call
    requires !b.ComposedOf?
  {
    match b
    case Wrapped(id) => BindRequest(id, c.request)
    case UriWrapped(id) => BindUri(id, UriValues(c.params))
  }

  /** A composition of bindings that are not compositions calls each of them
      once, in list order, and skips none: the i-th call is the i-th
      binding's. */
  lemma {:induction false} ComposedCallsEachOnce(b: Binding, n: nat, c: Context)
    requires b.ComposedOf? && n <= |b.bindings|
    requires forall i | 0 <= i < |b.bindings| :: !b.bindings[i].ComposedOf?
    ensures |CallsOfFirst(b, n, c)| == n
    ensures forall i | 0 <= i < n :: CallsOfFirst(b, n, c)[i] == CallOf(b.bindings[i], c)
    decreases n
  {
    if n > 0 {
      ComposedCallsEachOnce(b, n - 1, c);
    }
  }

  /** Wrap hands the context's request to the wrapped binding. */
  lemma WrapDelegates(id: nat, c: Context)
    ensures Calls(Wrapped(id), c) == [BindRequest(id, c.request)]
    ensures Calls(UriWrapped(id), c) == [BindUri(id, UriValues(c.params))]
  {
  }
}
