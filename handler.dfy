/** The gin extension's handler manager: Handle turns a function of one of a
    few shapes into a gin handler that binds the request, runs the function,
    writes its response, and hands any failure to an error handler together
    with the phase it happened in. Reflection is modelled by descriptions of
    the function's argument and result types; what the request's Bind, the
    function body and the response's Resp do is given by their outcomes. */
module Handler {
  import opened Wrappers

  datatype Phase = BindPhase | ExecPhase | RespPhase

  /** What the checks need to know of a Go type. */
  datatype TypeDesc = TypeDesc(
    isPtr: bool,              // its kind is reflect.Ptr
    isGinContext: bool,       // it is *gin.Context
    implementsRequest: bool,  // it has Bind(*gin.Context) error
    implementsError: bool,    // it implements error
    implementsResp: bool)     // it has Resp(*gin.Context) error

  /** The value given to Handle. */
  datatype HandlerValue = NotFunc | Func(ins: seq<TypeDesc>, outs: seq<TypeDesc>)

  /** What assertHandler does: None when it returns, the panic message
      otherwise. The checks run in this order. */
  function AssertHandler(h: HandlerValue): (r: Option<string>)
    ensures r.None? ==> h.Func? && 1 <= |h.ins| <= 2 && h.ins[0].isGinContext && |h.outs| <= 2
  {
    if h.NotFunc? then Some("handler must be a function")
    else if |h.ins| == 0 || |h.ins| > 2 then Some("handler must have 1 or 2 arguments")
    else if !h.ins[0].isGinContext then Some("handler's first argument must be *gin.Context")
    else if |h.ins| == 2 && !h.ins[1].implementsRequest then Some("handler's second argument must be have Bind(*gin.Context) error method")
    else if |h.outs| > 2 then Some("handler return values count must be 2 or less")
    else if |h.outs| != 0 && !h.outs[|h.outs| - 1].implementsError then Some("handler's last return value must be error")
    else if |h.outs| == 2 && !h.outs[0].isPtr then Some("handler's first return value must be a pointer")
    else None
  }

  predicate IsCtx(t: TypeDesc) { t.isGinContext }
  predicate IsReq(t: TypeDesc) { t.implementsRequest }
  predicate IsErr(t: TypeDesc) { t.implementsError }
  predicate IsPtr(t: TypeDesc) { t.isPtr }

  /** The shapes a handler may take: arguments (c) or (c, req), results
      none, (error) or (*resp, error). */
  ghost predicate Shape(h: HandlerValue) {
    || (exists c | IsCtx(c) :: h == Func([c], []))
    || (exists c, e | IsCtx(c) && IsErr(e) :: h == Func([c], [e]))
    || (exists c, r, e | IsCtx(c) && IsReq(r) && IsErr(e) :: h == Func([c, r], [e]))
    || (exists c, p, e | IsCtx(c) && IsPtr(p) && IsErr(e) :: h == Func([c], [p, e]))
    || (exists c, r, p, e | IsCtx(c) && IsReq(r) && IsPtr(p) && IsErr(e) :: h == Func([c, r], [p, e]))
    || (exists c, r | IsCtx(c) && IsReq(r) :: h == Func([c, r], []))
  }

  /** assertHandler accepts exactly the six shapes. The last of them,
      (c, req) with no result, is missing from the five the function's
      comment lists. */
  lemma AcceptedShapes(h: HandlerValue)
    ensures AssertHandler(h).None? <==> Shape(h)
  {
    if AssertHandler(h).None? {
      AcceptedHasShape(h);
    }
  }

  lemma AcceptedHasShape(h: HandlerValue)
    requires AssertHandler(h).None?
    ensures Shape(h)
  {
    var c := h.ins[0];
    if |h.ins| == 1 {
      if |h.outs| == 0 {
        assert h == Func([c], []);
      } else if |h.outs| == 1 {
        assert h == Func([c], [h.outs[0]]);
      } else {
        assert h == Func([c], [h.outs[0], h.outs[1]]);
      }
    } else {
      var r := h.ins[1];
      if |h.outs| == 0 {
        assert h == Func([c, r], []);
      } else if |h.outs| == 1 {
        assert h == Func([c, r], [h.outs[0]]);
      } else {
        assert h == Func([c, r], [h.outs[0], h.outs[1]]);
      }
    }
  }

  /** An argument handed to the function by reflect's Call. */
  datatype Arg = CtxArg | ReqArg

  /** The result of building the arguments: the list, the wrapped error of a
      failed Bind, or a panic (reflect's Elem on a second argument that is
      not a pointer). */
  datatype Inputs = Args(args: seq<Arg>) | BindFailed(err: Error) | InputPanic

  /** The input closure as written: the request is bound, but never added
      to the arguments. */
  function InputAsWritten(h: HandlerValue, bindErr: Option<Error>): (r: Inputs)
    requires h.Func? && |h.ins| >= 1
    ensures r.InputPanic? <==> |h.ins| == 2 && !h.ins[1].isPtr
    ensures r.BindFailed? ==> |h.ins| == 2 && bindErr.Some? && r.err == Wrapped("failed to bind request", bindErr.value)
    ensures |h.ins| == 2 && h.ins[1].isPtr ==> (r.BindFailed? <==> bindErr.Some?)
    ensures r.Args? ==> r.args == [CtxArg] && (|h.ins| == 2 ==> |r.args| < |h.ins|)
  {
    if |h.ins| == 2 then
      if !h.ins[1].isPtr then InputPanic
      else if bindErr.Some? then BindFailed(Wrapped("failed to bind request", bindErr.value))
      else Args([CtxArg])
    else Args([CtxArg])
  }

  /** The input closure as evidently intended: the bound request follows the
      context. */
  function Input(h: HandlerValue, bindErr: Option<Error>): (r: Inputs)
    requires h.Func? && |h.ins| >= 1
    ensures r.InputPanic? <==> |h.ins| == 2 && !h.ins[1].isPtr
    ensures r.BindFailed? ==> |h.ins| == 2 && bindErr.Some? && r.err == Wrapped("failed to bind request", bindErr.value)
    ensures |h.ins| == 2 && h.ins[1].isPtr ==> (r.BindFailed? <==> bindErr.Some?)
    ensures r.Args? ==> r.args != [] && r.args[0] == CtxArg && (|h.ins| <= 2 ==> |r.args| == |h.ins|) && (|h.ins| == 2 ==> r.args[1] == ReqArg)
  {
    if |h.ins| == 2 then
      if !h.ins[1].isPtr then InputPanic
      else if bindErr.Some? then BindFailed(Wrapped("failed to bind request", bindErr.value))
      else Args([CtxArg, ReqArg])
    else Args([CtxArg])
  }

  /** The error handler: the builder's default, one the caller set, or nil. */
  datatype ErrorHandlerFn = DefaultErrorHandler | CustomErrorHandler(id: nat)

  /** What the error handler does with a failure. */
  datatype Action =
    | Abort(status: int, err: Error)                     // c.AbortWithError
    | CustomCall(id: nat, phase: Phase, err: Error)

  /** The default handler's status: 400 for a failed bind, 500 otherwise. */
  function Status(phase: Phase): int {
    if phase == BindPhase then 400 else 500
  }

  function ErrorAction(eh: Option<ErrorHandlerFn>, phase: Phase, err: Error): Option<Action> {
    match eh
    case None => None
    case Some(DefaultErrorHandler) => Some(Abort(Status(phase), err))
    case Some(CustomErrorHandler(id)) => Some(CustomCall(id, phase, err))
  }

  /** What serving one request did: the arguments the function was called
      with, if it was; whether it panicked; whether Resp was called; and the
      failure reported, with what the error handler did about it. */
  datatype Served = Served(
    called: Option<seq<Arg>>,
    panicked: bool,
    respCalled: bool,
    reported: Option<(Phase, Error)>,
    action: Option<Action>)

  function Quiet(called: Option<seq<Arg>>, respCalled: bool): Served {
    Served(called, false, respCalled, None, None)
  }

  function Report(eh: Option<ErrorHandlerFn>, called: Option<seq<Arg>>, respCalled: bool, phase: Phase, err: Error): Served {
    Served(called, false, respCalled, Some((phase, err)), ErrorAction(eh, phase, err))
  }

  /** The served request, from the input on. `execErr` is the error the
      function returns (for a function with results), `respErr` the one
      Resp returns. reflect's Call panics when the argument count is not the
      function's. A pointer result is never a nil interface, so Resp runs
      whenever its type has a Resp method. */
  function Respond(h: HandlerValue, eh: Option<ErrorHandlerFn>, input: Inputs, execErr: Option<Error>, respErr: Option<Error>): Served
    requires h.Func? && |h.outs| <= 2
  {
    match input
    case InputPanic => Served(None, true, false, None, None)
    case BindFailed(e) => Report(eh, None, false, BindPhase, e)
    case Args(args) =>
      if |args| != |h.ins| then Served(None, true, false, None, None)
      else if |h.outs| == 0 then Quiet(Some(args), false)
      else if execErr.Some? then Report(eh, Some(args), false, ExecPhase, execErr.value)
      else if |h.outs| == 2 && h.outs[0].implementsResp then
        if respErr.Some? then Report(eh, Some(args), true, RespPhase, respErr.value)
        else Quiet(Some(args), true)
      else Quiet(Some(args), false)
  }

  class HandlerManager {
    var errorHandler: Option<ErrorHandlerFn>

    constructor (errorHandler: Option<ErrorHandlerFn>)
      ensures this.errorHandler == errorHandler
    {
      this.errorHandler := errorHandler;
    }

    method CallErrorHandler(phase: Phase, err: Error) returns (action: Option<Action>)
      ensures action == ErrorAction(errorHandler, phase, err)
    {
      if errorHandler.None? {
        return None;
      }
      match errorHandler.value
      case DefaultErrorHandler =>
        if phase == BindPhase {
          action := Some(Abort(400, err));
        } else {
          action := Some(Abort(500, err));
        }
      case CustomErrorHandler(id) =>
        action := Some(CustomCall(id, phase, err));
    }

    /** The handler Handle returns, after `in` is built: the call, the
        dispatch on the number of results, and Resp. */
    method Dispatch(h: HandlerValue, args: seq<Arg>, execErr: Option<Error>, respErr: Option<Error>) returns (s: Served)
      requires AssertHandler(h).None?
      ensures s == Respond(h, errorHandler, Args(args), execErr, respErr)
    {
      if |args| != |h.ins| {
        return Served(None, true, false, None, None);
      }
      var err: Option<Error> := None;
      var hasResp := false;
      if |h.outs| == 0 {
        return Quiet(Some(args), false);
      } else if |h.outs| == 1 {
        err := execErr;
      } else {
        hasResp := true;
        err := execErr;
      }
      if err.Some? {
        var action := CallErrorHandler(ExecPhase, err.value);
        return Served(Some(args), false, false, Some((ExecPhase, err.value)), action);
      }
      if hasResp && h.outs[0].implementsResp {
        if respErr.Some? {
          var action := CallErrorHandler(RespPhase, respErr.value);
          return Served(Some(args), false, true, Some((RespPhase, respErr.value)), action);
        }
        return Quiet(Some(args), true);
      }
      return Quiet(Some(args), false);
    }

    /** Serving one request with the handler Handle(h) returns, as written.
        `bindErr` is what the request's Bind returns. */
    method ServeAsWritten(h: HandlerValue, bindErr: Option<Error>, execErr: Option<Error>, respErr: Option<Error>) returns (s: Served)
      requires AssertHandler(h).None?
      ensures s == Respond(h, errorHandler, InputAsWritten(h, bindErr), execErr, respErr)
    {
      var args := [CtxArg];
      if |h.ins| == 2 {
        if !h.ins[1].isPtr {
          return Served(None, true, false, None, None);
        }
        if bindErr.Some? {
          var e := Wrapped("failed to bind request", bindErr.value);
          var action := CallErrorHandler(BindPhase, e);
          return Served(None, false, false, Some((BindPhase, e)), action);
        }
      }
      s := Dispatch(h, args, execErr, respErr);
    }

    /** Serving one request with the bound request passed on. */
    method Serve(h: HandlerValue, bindErr: Option<Error>, execErr: Option<Error>, respErr: Option<Error>) returns (s: Served)
      requires AssertHandler(h).None?
      ensures s == Respond(h, errorHandler, Input(h, bindErr), execErr, respErr)
    {
      var args := [CtxArg];
      if |h.ins| == 2 {
        if !h.ins[1].isPtr {
          return Served(None, true, false, None, None);
        }
        if bindErr.Some? {
          var e := Wrapped("failed to bind request", bindErr.value);
          var action := CallErrorHandler(BindPhase, e);
          return Served(None, false, false, Some((BindPhase, e)), action);
        }
        args := args + [ReqArg];
        assert args == [CtxArg, ReqArg];
      }
      s := Dispatch(h, args, execErr, respErr);
    }
  }

  class HandlerManagerBuilder {
    /** The manager under construction; Build hands out this very object. */
    const data: HandlerManager

    /** NewHandlerManagerBuilder: the default error handler. */
    constructor ()
      ensures fresh(data) && data.errorHandler == Some(DefaultErrorHandler)
    {
      data := new HandlerManager(Some(DefaultErrorHandler));
    }

    /** Sets the error handler; None stands for nil. */
    method ErrorHandler(eh: Option<ErrorHandlerFn>)
      modifies data
      ensures data.errorHandler == eh
    {
      data.errorHandler := eh;
    }

    method Build() returns (m: HandlerManager)
      ensures m == data
    {
      m := data;
    }
  }

  // ---------------------------------------------------------------------------
  // Properties

  /** The default error handler answers 400 to a failed bind and 500 to any
      other failure; without an error handler nothing happens. */
  lemma DefaultErrorStatus(phase: Phase, err: Error)
    ensures ErrorAction(Some(DefaultErrorHandler), phase, err) == Some(Abort(if phase == BindPhase then 400 else 500, err))
    ensures ErrorAction(None, phase, err) == None
  {
  }

  /** A failed bind reports the bind phase with the wrapped error, and the
      function is not called. */
  lemma BindFailureReported(h: HandlerValue, eh: Option<ErrorHandlerFn>, bindErr: Error, execErr: Option<Error>, respErr: Option<Error>)
    requires AssertHandler(h).None? && |h.ins| == 2 && h.ins[1].isPtr
    ensures var s := Respond(h, eh, Input(h, Some(bindErr)), execErr, respErr);
      && s.called.None? && !s.respCalled && !s.panicked
      && s.reported == Some((BindPhase, Wrapped("failed to bind request", bindErr)))
  {
  }

  /** With the request passed on, a successful bind calls the function with
      the context and then the request, one argument per parameter. */
  lemma ServeCallsWithRequest(h: HandlerValue, eh: Option<ErrorHandlerFn>, execErr: Option<Error>, respErr: Option<Error>)
    requires AssertHandler(h).None? && (|h.ins| == 1 || h.ins[1].isPtr)
    ensures var s := Respond(h, eh, Input(h, None), execErr, respErr);
      && !s.panicked && s.called.Some?
      && |s.called.value| == |h.ins| && s.called.value[0] == CtxArg
      && (|h.ins| == 2 ==> s.called.value[1] == ReqArg)
  {
  }

  /** As written, a two-argument function is never run: after a successful
      bind it is called with the context alone, and reflect's Call panics. */
  lemma AsWrittenTwoArgumentsPanic(h: HandlerValue, eh: Option<ErrorHandlerFn>, execErr: Option<Error>, respErr: Option<Error>)
    requires AssertHandler(h).None? && |h.ins| == 2
    ensures var s := Respond(h, eh, InputAsWritten(h, None), execErr, respErr);
      s.panicked && s.called.None?
  {
  }

  /** A one-argument function is served alike as written and as intended. */
  lemma OneArgumentUnaffected(h: HandlerValue, eh: Option<ErrorHandlerFn>, bindErr: Option<Error>)
    requires h.Func? && |h.ins| == 1
    ensures InputAsWritten(h, bindErr) == Input(h, bindErr)
  {
  }

  /** Once the function has run: with no result nothing is reported; a
      returned error reports the exec phase and skips Resp; otherwise Resp
      runs exactly for a (*resp, error) function whose response type has a
      Resp method, and its error reports the resp phase. */
  lemma ExecAndResp(h: HandlerValue, eh: Option<ErrorHandlerFn>, args: seq<Arg>, execErr: Option<Error>, respErr: Option<Error>)
    requires AssertHandler(h).None? && |args| == |h.ins|
    ensures var s := Respond(h, eh, Args(args), execErr, respErr);
      && s.called == Some(args) && !s.panicked
      && (|h.outs| == 0 ==> s.reported.None? && !s.respCalled)
      && (|h.outs| > 0 && execErr.Some? ==> s.reported == Some((ExecPhase, execErr.value)) && !s.respCalled)
      && (s.respCalled <==> |h.outs| == 2 && execErr.None? && h.outs[0].implementsResp)
      && (s.reported.Some? && s.reported.value.0 == RespPhase <==> s.respCalled && respErr.Some?)
      && (s.reported.Some? ==> s.action == ErrorAction(eh, s.reported.value.0, s.reported.value.1))
  {
  }
}
