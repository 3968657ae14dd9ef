/** Dispatching an error to the application's handler: the single-use responder, the single-use
    `next`, and what the dispatcher returns, for handlers that may call either of them from any
    number of goroutines, before and after they return (error-handling.go:171-186, 245-420). */
module Dispatch {
  import opened Prelude

  datatype Error =
    | ResponseExpired
    | ResponseAlreadySent
    | ResponseUnsupported
    | ResponseIncomplete
    | NextExpired
    | NextAlreadyCalled
    | NextIncomplete
    | ContextCause
    | Other(code: nat)

  // ---------------------------------------------------------------- the responder

  /** The fields of errorResponse under its mutex; `usable` says that `respond` is not nil. */
  datatype Response = Response(
    usable: bool, active: bool, attempted: bool, complete: bool, err: Option<Error>, close: bool)
  {
    function Refusal(): Option<Error> {
      if !active then Some(ResponseExpired)
      else if attempted then Some(ResponseAlreadySent)
      else if !usable then Some(ResponseUnsupported)
      else None
    }

    function Enter(closeAfter: bool): Response {
      if !active || attempted then this
      else if !usable then this.(attempted := true, complete := true, err := Some(ResponseUnsupported))
      else this.(attempted := true, close := closeAfter)
    }

    function Leave(e: Option<Error>): Response {
      this.(complete := true, err := e)
    }

    function Expire(): Response {
      this.(active := false, usable := false)
    }
  }

  class ErrorResponse {
    var respond: bool
    var active: bool
    var attempted: bool
    var complete: bool
    var err: Option<Error>
    var close: bool

    function View(): Response
      reads this
    {
      Response(respond, active, attempted, complete, err, close)
    }

    constructor (usable: bool)
      ensures View() == Response(usable, true, false, false, None, false)
    {
      respond, active, attempted, complete, err, close := usable, true, false, false, None, false;
    }

    /** The first critical section of send: None means that the caller goes on to respond. */
    method Enter(closeAfterResponse: bool) returns (refusal: Option<Error>)
      modifies this
      ensures refusal == old(View()).Refusal()
      ensures View() == old(View()).Enter(closeAfterResponse)
    {
      if !active {
        return Some(ResponseExpired);
      }
      if attempted {
        return Some(ResponseAlreadySent);
      }
      attempted := true;
      if !respond {
        complete := true;
        err := Some(ResponseUnsupported);
        return err;
      }
      close := closeAfterResponse;
      return None;
    }

    method Leave(e: Option<Error>)
      modifies this`complete, this`err
      ensures View() == old(View()).Leave(e)
    {
      complete := true;
      err := e;
    }

    method Result() returns (sent: bool, e: Option<Error>)
      ensures sent == attempted
      ensures e == (if attempted && !complete then Some(ResponseIncomplete) else err)
    {
      if attempted && !complete {
        return true, Some(ResponseIncomplete);
      }
      return attempted, err;
    }

    method Expire()
      modifies this`active, this`respond
      ensures View() == old(View()).Expire()
    {
      active := false;
      respond := false;
    }
  }

  // ---------------------------------------------------------------- the next handler

  datatype Next = Next(active: bool, called: bool, complete: bool, canContinue: bool, err: Option<Error>)
  {
    function Refusal(): Option<Error> {
      if !active then Some(NextExpired) else if called then Some(NextAlreadyCalled) else None
    }

    function Enter(): Next {
      if !active || called then this else this.(called := true)
    }

    function Leave(c: bool, e: Option<Error>): Next {
      this.(complete := true, canContinue := c, err := e)
    }

    function Expire(): Next {
      this.(active := false)
    }

    predicate Running() {
      called && !complete
    }
  }

  class NextErrorHandler {
    var active: bool
    var called: bool
    var complete: bool
    var canContinue: bool
    var err: Option<Error>

    function View(): Next
      reads this
    {
      Next(active, called, complete, canContinue, err)
    }

    constructor ()
      ensures View() == Next(true, false, false, false, None)
    {
      active, called, complete, canContinue, err := true, false, false, false, None;
    }

    method Enter() returns (refusal: Option<Error>)
      modifies this`called
      ensures refusal == old(View()).Refusal()
      ensures View() == old(View()).Enter()
    {
      if !active {
        return Some(NextExpired);
      }
      if called {
        return Some(NextAlreadyCalled);
      }
      called := true;
      return None;
    }

    method Leave(c: bool, e: Option<Error>)
      modifies this
      ensures View() == old(View()).Leave(c, e)
    {
      complete := true;
      canContinue := c;
      err := e;
    }

    method Expire()
      modifies this`active
      ensures View() == old(View()).Expire()
    {
      active := false;
    }
  }

  // ---------------------------------------------------------------- the dispatch

  datatype Answer = Answer(canContinue: bool, err: Option<Error>)

  datatype Call = Responding | Delegating

  /** The dispatcher: it waits for the handler, looks at `next`, and expires both on its way out. */
  datatype Main =
    | Waiting
    | Checking(handled: Answer)
    | Leaving(answer: Answer)
    | ResponderExpired(answer: Answer)
    | Returned(answer: Answer)

  /** `serverScope`: the handler runs on its own goroutine and the wait ends with the context.
      `calls` are the goroutines inside the responder or the default action. The last fields
      record what happened: verdicts in the order of the calls, how often responder and default
      action were entered, and whether `next` had been called when the handler returned. */
  datatype State = State(
    serverScope: bool,
    contextDone: bool,
    response: Response,
    next: Next,
    handled: Option<Answer>,
    main: Main,
    calls: map<nat, Call>,
    sendVerdicts: seq<Option<Error>>,
    nextVerdicts: seq<Option<Error>>,
    responds: nat,
    delegations: nat,
    nextBeforeReturn: bool,
    abandoned: bool)

  function Init(serverScope: bool, usable: bool): State {
    State(serverScope, false, Response(usable, true, false, false, None, false),
          Next(true, false, false, false, None), None, Waiting, map[], [], [], 0, 0, false, false)
  }

  datatype Event =
    | EndContext
    | CallRespond(thread: nat, close: bool)
    | RespondDone(thread: nat, err: Option<Error>)
    | CallNext(thread: nat)
    | NextDone(thread: nat, canContinue: bool, err: Option<Error>)
    | HandlerReturns(answer: Answer)
    | TakeAnswer
    | GiveUp
    | CheckNext
    | ExpireResponse
    | ExpireNext

  predicate Enabled(s: State, e: Event) {
    match e
    case EndContext => true
    case CallRespond(t, _) => t !in s.calls
    case RespondDone(t, _) => t in s.calls && s.calls[t] == Responding
    case CallNext(t) => t !in s.calls
    case NextDone(t, _, _) => t in s.calls && s.calls[t] == Delegating
    case HandlerReturns(_) => s.handled.None?
    case TakeAnswer => s.main.Waiting? && s.handled.Some?
    case GiveUp => s.main.Waiting? && s.serverScope && s.contextDone
    case CheckNext => s.main.Checking?
    case ExpireResponse => s.main.Leaving?
    case ExpireNext => s.main.ResponderExpired?
  }

  function CallRespondStep(s: State, t: nat, close: bool): State {
    var r := s.response.Refusal();
    var u := s.(response := s.response.Enter(close), sendVerdicts := s.sendVerdicts + [r]);
    if r.None? then u.(calls := s.calls[t := Responding], responds := s.responds + 1) else u
  }

  function CallNextStep(s: State, t: nat): State {
    var r := s.next.Refusal();
    var u := s.(next := s.next.Enter(), nextVerdicts := s.nextVerdicts + [r]);
    if r.None? then u.(calls := s.calls[t := Delegating], delegations := s.delegations + 1) else u
  }

  function TakeAnswerStep(s: State): State
    requires s.handled.Some?
  {
    s.(main := Checking(s.handled.value))
  }

  function GiveUpStep(s: State): State {
    s.(main := Leaving(Answer(false, Some(ContextCause))), abandoned := true)
  }

  function CheckNextStep(s: State): State
    requires s.main.Checking?
  {
    s.(main := Leaving(if s.next.Running() then Answer(false, Some(NextIncomplete)) else s.main.handled))
  }

  function ExpireResponseStep(s: State): State
    requires s.main.Leaving?
  {
    s.(main := ResponderExpired(s.main.answer), response := s.response.Expire())
  }

  function ExpireNextStep(s: State): State
    requires s.main.ResponderExpired?
  {
    s.(main := Returned(s.main.answer), next := s.next.Expire())
  }

  function Step(s: State, e: Event): State
    requires Enabled(s, e)
  {
    match e
    case EndContext => s.(contextDone := true)
    case CallRespond(t, close) => CallRespondStep(s, t, close)
    case RespondDone(t, err) => s.(response := s.response.Leave(err), calls := s.calls - {t})
    case CallNext(t) => CallNextStep(s, t)
    case NextDone(t, c, err) => s.(next := s.next.Leave(c, err), calls := s.calls - {t})
    case HandlerReturns(a) => s.(handled := Some(a), nextBeforeReturn := s.next.called)
    case TakeAnswer => TakeAnswerStep(s)
    case GiveUp => GiveUpStep(s)
    case CheckNext => CheckNextStep(s)
    case ExpireResponse => ExpireResponseStep(s)
    case ExpireNext => ExpireNextStep(s)
  }

  function Run(s: State, es: seq<Event>): State {
    if es == [] then s
    else
      var t := Run(s, es[..|es| - 1]);
      if Enabled(t, es[|es| - 1]) then Step(t, es[|es| - 1]) else t
  }

  // ---------------------------------------------------------------- the invariant

  /** The answers a single-use gate gives: at most the first call gets through (or is turned away
      for good), repeats are refused, and after the first expired answer all are expired. */
  ghost predicate GateOrder(v: seq<Option<Error>>, again: Error, expired: Error) {
    && (forall i :: 0 < i < |v| ==> v[i] == Some(again) || v[i] == Some(expired))
    && (forall i, j :: 0 <= i < j < |v| && v[i] == Some(expired) ==> v[j] == Some(expired))
    && (|v| > 0 ==> v[0] != Some(again))
  }

  predicate Decided(m: Main) {
    m.Leaving? || m.ResponderExpired? || m.Returned?
  }

  ghost predicate SendInv(s: State) {
    && GateOrder(s.sendVerdicts, ResponseAlreadySent, ResponseExpired)
    && (s.response.attempted <==> |s.sendVerdicts| > 0 && s.sendVerdicts[0] != Some(ResponseExpired))
    && (s.response.active ==> forall i :: 0 <= i < |s.sendVerdicts| ==> s.sendVerdicts[i] != Some(ResponseExpired))
    && s.responds == One(|s.sendVerdicts| > 0 && s.sendVerdicts[0] == None)
    && (s.response.active <==> !s.main.ResponderExpired? && !s.main.Returned?)
  }

  ghost predicate NextInv(s: State) {
    && GateOrder(s.nextVerdicts, NextAlreadyCalled, NextExpired)
    && (s.next.called <==> |s.nextVerdicts| > 0 && s.nextVerdicts[0] == None)
    && (s.next.active ==> forall i :: 0 <= i < |s.nextVerdicts| ==> s.nextVerdicts[i] != Some(NextExpired))
    && (!s.next.called && |s.nextVerdicts| > 0 ==> s.nextVerdicts[0] == Some(NextExpired))
    && s.delegations == One(s.next.called)
    && (s.next.active <==> !s.main.Returned?)
  }

  /** At most one goroutine is inside, and only while `inside`. */
  ghost predicate Exclusive(calls: map<nat, Call>, kind: Call, inside: bool) {
    && (forall t :: t in calls && calls[t] == kind ==> inside)
    && (forall t, u :: t in calls && u in calls && calls[t] == kind && calls[u] == kind ==> t == u)
  }

  ghost predicate DelegatingInv(s: State) {
    && (s.next.complete ==> s.next.called)
    && Exclusive(s.calls, Delegating, s.next.Running())
  }

  ghost predicate RespondingInv(s: State) {
    && (s.response.complete ==> s.response.attempted)
    && Exclusive(s.calls, Responding, s.response.attempted && !s.response.complete)
  }

  ghost predicate AnswerInv(s: State) {
    && (s.nextBeforeReturn ==> s.next.called)
    && (s.main.Checking? ==> s.handled == Some(s.main.handled))
    && (s.abandoned ==> Decided(s.main) && s.main.answer == Answer(false, Some(ContextCause)) && s.serverScope && s.contextDone)
    && (Decided(s.main) && !s.abandoned ==>
          && s.handled.Some?
          && (s.main.answer == s.handled.value || s.main.answer == Answer(false, Some(NextIncomplete)))
          && (s.nextBeforeReturn ==> s.next.complete || s.main.answer == Answer(false, Some(NextIncomplete)))
          && (!s.next.called ==> s.main.answer == s.handled.value))
  }

  ghost predicate Inv(s: State) {
    SendInv(s) && NextInv(s) && DelegatingInv(s) && RespondingInv(s) && AnswerInv(s)
  }

  lemma GateAppend(v: seq<Option<Error>>, x: Option<Error>, again: Error, expired: Error)
    requires GateOrder(v, again, expired) && again != expired
    requires |v| == 0 ==> x != Some(again)
    requires |v| > 0 ==> x == Some(again) || x == Some(expired)
    requires x != Some(expired) ==> forall i :: 0 <= i < |v| ==> v[i] != Some(expired)
    ensures GateOrder(v + [x], again, expired)
  {
  }

  lemma FirstInside(calls: map<nat, Call>, t: nat, kind: Call)
    requires Exclusive(calls, kind, false)
    ensures Exclusive(calls[t := kind], kind, true)
  {
  }

  lemma OtherInside(calls: map<nat, Call>, t: nat, other: Call, kind: Call, inside: bool)
    requires Exclusive(calls, kind, inside) && t !in calls && other != kind
    ensures Exclusive(calls[t := other], kind, inside)
  {
  }

  lemma LeaveInside(calls: map<nat, Call>, t: nat, kind: Call, inside: bool)
    requires Exclusive(calls, kind, inside) && t in calls
    ensures Exclusive(calls - {t}, kind, inside)
    ensures calls[t] == kind ==> Exclusive(calls - {t}, kind, false)
  {
  }

  lemma RespondVerdict(s: State, t: nat, close: bool)
    requires SendInv(s) && t !in s.calls
    ensures SendInv(CallRespondStep(s, t, close))
  {
    GateAppend(s.sendVerdicts, s.response.Refusal(), ResponseAlreadySent, ResponseExpired);
  }

  lemma RespondResponding(s: State, t: nat, close: bool)
    requires RespondingInv(s) && t !in s.calls
    ensures RespondingInv(CallRespondStep(s, t, close))
  {
    if s.response.Refusal().None? {
      FirstInside(s.calls, t, Responding);
    }
  }

  lemma RespondDelegating(s: State, t: nat, close: bool)
    requires DelegatingInv(s) && t !in s.calls
    ensures DelegatingInv(CallRespondStep(s, t, close))
  {
    OtherInside(s.calls, t, Responding, Delegating, s.next.Running());
  }

  lemma RespondKeeps(s: State, t: nat, close: bool)
    requires Inv(s) && t !in s.calls
    ensures Inv(CallRespondStep(s, t, close))
  {
    RespondVerdict(s, t, close);
    RespondResponding(s, t, close);
    RespondDelegating(s, t, close);
  }

  lemma NextVerdict(s: State, t: nat)
    requires NextInv(s) && t !in s.calls
    ensures NextInv(CallNextStep(s, t))
  {
    GateAppend(s.nextVerdicts, s.next.Refusal(), NextAlreadyCalled, NextExpired);
  }

  lemma NextResponding(s: State, t: nat)
    requires RespondingInv(s) && t !in s.calls
    ensures RespondingInv(CallNextStep(s, t))
  {
    OtherInside(s.calls, t, Delegating, Responding, s.response.attempted && !s.response.complete);
  }

  lemma NextDelegating(s: State, t: nat)
    requires DelegatingInv(s) && t !in s.calls
    ensures DelegatingInv(CallNextStep(s, t))
  {
    if s.next.Refusal().None? {
      FirstInside(s.calls, t, Delegating);
    }
  }

  lemma NextKeeps(s: State, t: nat)
    requires Inv(s) && t !in s.calls
    ensures Inv(CallNextStep(s, t))
  {
    NextVerdict(s, t);
    NextResponding(s, t);
    NextDelegating(s, t);
  }

  lemma DoneKeeps(s: State, e: Event)
    requires Inv(s) && Enabled(s, e) && (e.RespondDone? || e.NextDone?)
    ensures Inv(Step(s, e))
  {
    LeaveInside(s.calls, e.thread, Delegating, s.next.Running());
    LeaveInside(s.calls, e.thread, Responding, s.response.attempted && !s.response.complete);
  }

  predicate MainEvent(e: Event) {
    e.TakeAnswer? || e.GiveUp? || e.CheckNext? || e.ExpireResponse? || e.ExpireNext?
  }

  lemma TakeAnswerKeeps(s: State)
    requires Inv(s) && s.main.Waiting? && s.handled.Some?
    ensures Inv(TakeAnswerStep(s))
  {
  }

  lemma GiveUpKeeps(s: State)
    requires Inv(s) && s.main.Waiting? && s.serverScope && s.contextDone
    ensures Inv(GiveUpStep(s))
  {
  }

  lemma CheckNextKeeps(s: State)
    requires Inv(s) && s.main.Checking?
    ensures Inv(CheckNextStep(s))
  {
  }

  lemma ExpireResponseKeeps(s: State)
    requires Inv(s) && s.main.Leaving?
    ensures Inv(ExpireResponseStep(s))
  {
  }

  lemma ExpireNextKeeps(s: State)
    requires Inv(s) && s.main.ResponderExpired?
    ensures Inv(ExpireNextStep(s))
  {
  }

  lemma MainKeeps(s: State, e: Event)
    requires Inv(s) && Enabled(s, e) && MainEvent(e)
    ensures Inv(Step(s, e))
  {
    if e.TakeAnswer? {
      TakeAnswerKeeps(s);
    } else if e.GiveUp? {
      GiveUpKeeps(s);
    } else if e.CheckNext? {
      CheckNextKeeps(s);
    } else if e.ExpireResponse? {
      ExpireResponseKeeps(s);
    } else {
      ExpireNextKeeps(s);
    }
  }

  lemma HandlerKeeps(s: State, e: Event)
    requires Inv(s) && Enabled(s, e) && (e.EndContext? || e.HandlerReturns?)
    ensures Inv(Step(s, e))
  {
  }

  lemma StepKeepsInv(s: State, e: Event)
    requires Inv(s) && Enabled(s, e)
    ensures Inv(Step(s, e))
  {
    if e.CallRespond? {
      RespondKeeps(s, e.thread, e.close);
    } else if e.CallNext? {
      NextKeeps(s, e.thread);
    } else if e.RespondDone? || e.NextDone? {
      DoneKeeps(s, e);
    } else if MainEvent(e) {
      MainKeeps(s, e);
    } else {
      HandlerKeeps(s, e);
    }
  }

  lemma SilentStep(s: State, e: Event)
    requires Inv(s) && s.main.Returned? && Enabled(s, e)
    ensures var t := Step(s, e); t.main == s.main && t.responds == s.responds && t.delegations == s.delegations
  {
  }

  lemma {:induction false} Reachable(serverScope: bool, usable: bool, es: seq<Event>)
    ensures Inv(Run(Init(serverScope, usable), es))
  {
    if es != [] {
      Reachable(serverScope, usable, es[..|es| - 1]);
      var t, e := Run(Init(serverScope, usable), es[..|es| - 1]), es[|es| - 1];
      if Enabled(t, e) {
        StepKeepsInv(t, e);
      }
    }
  }

  // ---------------------------------------------------------------- what every dispatch guarantees

  /** Whatever goroutines do, responder and default action are entered at most once, exactly by
      the first call if it came before expiry; repeats get "already", and once one call was told
      that it is too late all later ones are. */
  lemma GatesPassedOnce(serverScope: bool, usable: bool, es: seq<Event>)
    ensures var s := Run(Init(serverScope, usable), es);
      && GateOrder(s.sendVerdicts, ResponseAlreadySent, ResponseExpired)
      && GateOrder(s.nextVerdicts, NextAlreadyCalled, NextExpired)
      && s.responds == One(|s.sendVerdicts| > 0 && s.sendVerdicts[0] == None) <= 1
      && s.delegations == One(|s.nextVerdicts| > 0 && s.nextVerdicts[0] == None) <= 1
  {
    Reachable(serverScope, usable, es);
  }

  /** After dispatchError has returned neither is ever entered again. */
  lemma {:induction false} SilentAfterReturn(s: State, es: seq<Event>)
    requires Inv(s) && s.main.Returned?
    ensures var t := Run(s, es);
      Inv(t) && t.main == s.main && t.responds == s.responds && t.delegations == s.delegations
  {
    if es != [] {
      SilentAfterReturn(s, es[..|es| - 1]);
      var t, e := Run(s, es[..|es| - 1]), es[|es| - 1];
      if Enabled(t, e) {
        StepKeepsInv(t, e);
        SilentStep(t, e);
      }
    }
  }

  /** The result. Only a server-scope dispatch whose context ended may give up early. Otherwise
      the handler returned, and its answer is passed on, or replaced by ErrNextErrorHandlerIncomplete;
      a next call begun before the handler returned is complete or has caused that replacement. */
  lemma NextCompleteOrReported(serverScope: bool, usable: bool, es: seq<Event>)
    requires Decided(Run(Init(serverScope, usable), es).main)
    ensures var s := Run(Init(serverScope, usable), es);
      if s.abandoned then s.serverScope && s.contextDone && s.main.answer == Answer(false, Some(ContextCause))
      else
        && s.handled.Some?
        && (s.main.answer == s.handled.value || s.main.answer == Answer(false, Some(NextIncomplete)))
        && (s.nextBeforeReturn ==> s.next.complete || s.main.answer == Answer(false, Some(NextIncomplete)))
        && (!s.next.called ==> s.main.answer == s.handled.value)
  {
    Reachable(serverScope, usable, es);
  }
}
