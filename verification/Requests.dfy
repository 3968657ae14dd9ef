/** Connection-level requests: the response object a handler completes, and the loop that hands
    the requests to their handlers one by one and keeps the replies in order, whatever goroutines
    handlers and error handlers leave behind (request.go:61-175, server.go:1296-1404). */
module Requests {
  import opened Prelude

  datatype Refusal = Expired | AlreadySent

  /** The fields of requestResponse under its mutex. `held` says that the raw request has not
      been released, `done` that its channel is closed, `panicked` that it was closed twice. */
  datatype Response = Response(
    want: bool, held: bool, active: bool, attempted: bool, complete: bool, accepted: bool,
    err: Option<nat>, done: bool, panicked: bool)
  {
    function Refused(requireActive: bool): Option<Refusal> {
      if requireActive && !active then Some(Expired)
      else if attempted || complete then Some(AlreadySent)
      else None
    }

    function Enter(accept: bool): Response {
      this.(attempted := true, accepted := accept)
    }

    predicate Writes() {
      held && want
    }

    function CloseDone(): Response {
      this.(done := true, panicked := panicked || done)
    }

    function Leave(e: Option<nat>): Response {
      this.(complete := true, err := e).CloseDone()
    }

    function Expire(): Response {
      this.(active := false)
    }

    function Release(): Response {
      this.(active := false, held := false)
    }

    function CompleteWithoutResponse(): Response {
      if !attempted && !complete then this.(complete := true).CloseDone() else this
    }
  }

  function NewResponse(want: bool): Response {
    Response(want, true, true, false, false, false, None, false, false)
  }

  class RequestResponse {
    const want: bool
    var request: bool
    var active: bool
    var attempted: bool
    var complete: bool
    var accepted: bool
    var err: Option<nat>
    var done: bool
    var panicked: bool

    function View(): Response
      reads this
    {
      Response(want, request, active, attempted, complete, accepted, err, done, panicked)
    }

    constructor (wantReply: bool)
      ensures View() == NewResponse(wantReply)
    {
      want := wantReply;
      request, active := true, true;
      attempted, complete, accepted, err := false, false, false, None;
      done, panicked := false, false;
    }

    /** The first critical section of respond; `write` says whether the caller sends a reply. */
    method Enter(accept: bool, requireActive: bool) returns (refusal: Option<Refusal>, write: bool)
      modifies this`attempted, this`accepted
      ensures refusal == old(View()).Refused(requireActive)
      ensures View() == if refusal.None? then old(View()).Enter(accept) else old(View())
      ensures write == (refusal.None? && old(View()).Writes())
    {
      if requireActive && !active {
        return Some(Expired), false;
      }
      if attempted || complete {
        return Some(AlreadySent), false;
      }
      attempted := true;
      accepted := accept;
      return None, request && want;
    }

    method CloseDone()
      modifies this`done, this`panicked
      ensures View() == old(View()).CloseDone()
    {
      if done {
        panicked := true;
      }
      done := true;
    }

    method Leave(e: Option<nat>)
      modifies this`complete, this`err, this`done, this`panicked
      ensures View() == old(View()).Leave(e)
    {
      complete := true;
      err := e;
      CloseDone();
    }

    method Expire()
      modifies this`active
      ensures View() == old(View()).Expire()
    {
      active := false;
    }

    method Release()
      modifies this`active, this`request
      ensures View() == old(View()).Release()
    {
      active := false;
      request := false;
    }

    method CompleteWithoutResponse()
      modifies this`complete, this`done, this`panicked
      ensures View() == old(View()).CompleteWithoutResponse()
    {
      if !attempted && !complete {
        complete := true;
        CloseDone();
      }
    }
  }

  // ---------------------------------------------------------------- the loop and its company

  /** A goroutine inside respond, past the gate: about to write the reply, or about to complete. */
  datatype Call =
    | Writing(request: nat, accepted: bool)
    | Completing(request: nat, err: Option<nat>)

  datatype Reply = Reply(request: nat, accepted: bool)

  /** Where the loop is with the newest request. Idle and Ended have none in hand. */
  datatype Loop =
    | Idle
    | Handling
    | Judging(failed: bool)
    | Dispatching
    | Checking(canContinue: bool)
    | Answering(canContinue: bool)
    | Finishing(canContinue: bool)
    | Ended
    | Stopped

  /** The loop's own place among the callers. */
  const LOOP: nat := 0

  /** `rejecters` are goroutines the error handler sent to reject a request, which they may do at
      any later time. `past` counts the requests the loop has moved past; `replied` says that the
      newest request's reply is on the wire. */
  datatype State = State(
    reqs: seq<Response>,
    past: nat,
    loop: Loop,
    calls: map<nat, Call>,
    rejecters: map<nat, nat>,
    wire: seq<Reply>,
    replied: bool,
    closed: bool)

  const Init: State := State([], 0, Idle, map[], map[], [], false, false)

  datatype Event =
    | Arrive(want: bool, known: bool)
    | EndOfRequests
    | HandlerReturns(failed: bool)
    | Judge
    | SendRejecter(thread: nat)
    | DispatchReturns(canContinue: bool, escalated: bool)
    | Check
    | AnswerSelf
    | Settle
    | CallRespond(thread: nat, request: nat, accepted: bool)
    | CallReject(thread: nat)
    | Write(thread: nat, err: Option<nat>)
    | Complete(thread: nat)

  predicate Enabled(s: State, e: Event) {
    match e
    case Arrive(_, _) => s.loop.Idle?
    case EndOfRequests => s.loop.Idle?
    case HandlerReturns(_) => s.loop.Handling? && |s.reqs| > 0
    case Judge => s.loop.Judging? && |s.reqs| > 0
    case SendRejecter(t) => s.loop.Dispatching? && |s.reqs| > 0 && s.reqs[|s.reqs| - 1].want && t != LOOP
    case DispatchReturns(_, _) => s.loop.Dispatching? && |s.reqs| > 0
    case Check => s.loop.Checking? && |s.reqs| > 0
    case AnswerSelf => s.loop.Answering? && |s.reqs| > 0 && LOOP !in s.calls
    case Settle => s.loop.Finishing? && |s.reqs| > 0 && LOOP !in s.calls
    case CallRespond(t, r, _) => t != LOOP && t !in s.calls && r < |s.reqs|
    case CallReject(t) => t != LOOP && t !in s.calls && t in s.rejecters && s.rejecters[t] < |s.reqs|
    case Write(t, _) => t in s.calls && s.calls[t].Writing?
    case Complete(t) => t in s.calls && s.calls[t].Completing? && s.calls[t].request < |s.reqs|
  }

  function Last(s: State): Response
    requires |s.reqs| > 0
  {
    s.reqs[|s.reqs| - 1]
  }

  function SetLast(s: State, r: Response): State
    requires |s.reqs| > 0
  {
    s.(reqs := s.reqs[|s.reqs| - 1 := r])
  }

  /** Any caller's way through the gate of respond. */
  function EnterStep(s: State, t: nat, r: nat, accept: bool, requireActive: bool): State
    requires r < |s.reqs|
  {
    var resp := s.reqs[r];
    if resp.Refused(requireActive).Some? then s
    else
      s.(reqs := s.reqs[r := resp.Enter(accept)],
         calls := s.calls[t := if resp.Writes() then Writing(r, accept) else Completing(r, None)])
  }

  function WriteStep(s: State, t: nat, err: Option<nat>): State
    requires t in s.calls && s.calls[t].Writing?
  {
    var r := s.calls[t].request;
    var u := s.(calls := s.calls[t := Completing(r, err)]);
    if err.None? then u.(wire := s.wire + [Reply(r, s.calls[t].accepted)], replied := true) else u
  }

  /** The loop closes the connection and returns. */
  function StopStep(s: State): State
    requires |s.reqs| > 0
  {
    SetLast(s, Last(s).Release()).(loop := Stopped, closed := true)
  }

  /** The request is done with; the handler chain may still ask to close. */
  function MoveOn(s: State, canContinue: bool): State
    requires |s.reqs| > 0
  {
    SetLast(s, Last(s).Release())
      .(past := |s.reqs|, replied := false, loop := if canContinue then Idle else Stopped,
        closed := s.closed || !canContinue)
  }

  function CheckStep(s: State): State
    requires |s.reqs| > 0 && s.loop.Checking?
  {
    var r := Last(s);
    if (r.attempted && !r.complete) || r.err.Some? then StopStep(s)
    else if r.attempted then MoveOn(s, s.loop.canContinue)
    else s.(loop := Answering(s.loop.canContinue))
  }

  /** Nobody has answered: the loop rejects a request that wants a reply itself. */
  function AnswerSelfStep(s: State): State
    requires |s.reqs| > 0 && s.loop.Answering?
  {
    var r := Last(s);
    if !r.want then MoveOn(SetLast(s, r.CompleteWithoutResponse()), s.loop.canContinue)
    else if r.Refused(false).Some? then StopStep(s)
    else EnterStep(s, LOOP, |s.reqs| - 1, false, false).(loop := Finishing(s.loop.canContinue))
  }

  function SettleStep(s: State): State
    requires |s.reqs| > 0 && s.loop.Finishing?
  {
    if Last(s).err.Some? then StopStep(s) else MoveOn(s, s.loop.canContinue)
  }

  /** A request of an unknown type is rejected by the loop without any handler. */
  function ArriveStep(s: State, want: bool, known: bool): State {
    var u := s.(reqs := s.reqs + [NewResponse(want)], loop := Handling);
    if known then u
    else EnterStep(u, LOOP, |s.reqs|, false, false).(loop := Finishing(true))
  }

  function MoveTo(s: State, loop: Loop): State {
    s.(loop := loop)
  }

  function HandlerReturnsStep(s: State, failed: bool): State
    requires |s.reqs| > 0
  {
    MoveTo(SetLast(s, Last(s).Expire()), Judging(failed))
  }

  function JudgeStep(s: State): State
    requires |s.reqs| > 0 && s.loop.Judging?
  {
    MoveTo(s, if s.loop.failed || (!Last(s).attempted && Last(s).want) then Dispatching else Checking(true))
  }

  function SendRejecterStep(s: State, t: nat): State
    requires |s.reqs| > 0
  {
    s.(rejecters := s.rejecters[t := |s.reqs| - 1])
  }

  /** The error handler's own failure: the request is given up and the loop ends. */
  function EscalateStep(s: State): State
    requires |s.reqs| > 0
  {
    StopStep(SetLast(s, Last(s).CompleteWithoutResponse()))
  }

  function Step(s: State, e: Event): State
    requires Enabled(s, e)
  {
    match e
    case Arrive(want, known) => ArriveStep(s, want, known)
    case EndOfRequests => MoveTo(s, Ended)
    case HandlerReturns(failed) => HandlerReturnsStep(s, failed)
    case Judge => JudgeStep(s)
    case SendRejecter(t) => SendRejecterStep(s, t)
    case DispatchReturns(canContinue, escalated) =>
      if escalated then EscalateStep(s) else MoveTo(s, Checking(canContinue))
    case Check => CheckStep(s)
    case AnswerSelf => AnswerSelfStep(s)
    case Settle => SettleStep(s)
    case CallRespond(t, r, accepted) => EnterStep(s, t, r, accepted, true)
    case CallReject(t) => EnterStep(s.(rejecters := s.rejecters - {t}), t, s.rejecters[t], false, false)
    case Write(t, err) => WriteStep(s, t, err)
    case Complete(t) =>
      var r := s.calls[t].request;
      s.(reqs := s.reqs[r := s.reqs[r].Leave(s.calls[t].err)], calls := s.calls - {t})
  }

  function Run(s: State, es: seq<Event>): State {
    if es == [] then s
    else
      var t := Run(s, es[..|es| - 1]);
      if Enabled(t, es[|es| - 1]) then Step(t, es[|es| - 1]) else t
  }

  // ---------------------------------------------------------------- the replies owed

  /** One reply for each of the first `n` requests that wants one, in order. */
  function Replies(reqs: seq<Response>, n: nat): seq<Reply>
    requires n <= |reqs|
  {
    if n == 0 then []
    else Replies(reqs, n - 1) + if reqs[n - 1].want then [Reply(n - 1, reqs[n - 1].accepted)] else []
  }

  /** Replies is what its comment says. */
  lemma {:induction false} RepliesExact(reqs: seq<Response>, n: nat)
    requires n <= |reqs|
    ensures forall i, j :: 0 <= i < j < |Replies(reqs, n)| ==> Replies(reqs, n)[i].request < Replies(reqs, n)[j].request
    ensures forall x :: x in Replies(reqs, n) <==> x.request < n && reqs[x.request].want && x.accepted == reqs[x.request].accepted
  {
    if n > 0 {
      RepliesExact(reqs, n - 1);
      var init := Replies(reqs, n - 1);
      forall i | 0 <= i < |init|
        ensures init[i].request < n - 1
      {
        assert init[i] in init;
      }
    }
  }

  lemma {:induction false} RepliesFrame(a: seq<Response>, b: seq<Response>, n: nat)
    requires n <= |a| && n <= |b| && a[..n] == b[..n]
    ensures Replies(a, n) == Replies(b, n)
  {
    if n > 0 {
      assert a[..n - 1] == a[..n][..n - 1] && b[..n - 1] == b[..n][..n - 1];
      RepliesFrame(a, b, n - 1);
      assert a[n - 1] == a[..n][n - 1] && b[n - 1] == b[..n][n - 1];
    }
  }

  // ---------------------------------------------------------------- the invariant

  predicate InHand(l: Loop) {
    !l.Idle? && !l.Ended? && !l.Stopped?
  }

  /** The newest request's reply, if it is on the wire. */
  function Newest(s: State): seq<Reply>
    requires |s.reqs| > 0 || !s.replied
  {
    if s.replied then [Reply(|s.reqs| - 1, Last(s).accepted)] else []
  }

  ghost predicate Places(s: State) {
    && s.past <= |s.reqs| <= s.past + 1
    && (s.loop.Idle? || s.loop.Ended? ==> s.past == |s.reqs|)
    && (InHand(s.loop) ==> s.past < |s.reqs|)
    && (s.replied ==> s.past < |s.reqs| && Last(s).attempted && Last(s).want)
    && (s.loop.Stopped? ==> s.closed)
  }

  ghost predicate Each(s: State) {
    && s.past <= |s.reqs|
    && (forall k :: 0 <= k < |s.reqs| ==> !s.reqs[k].panicked && (s.reqs[k].done <==> s.reqs[k].complete))
    && (forall k :: 0 <= k < s.past ==> s.reqs[k].complete && !s.reqs[k].active)
  }

  ghost predicate CallsInv(s: State) {
    && (forall t :: t in s.calls ==> s.past < |s.reqs| && s.calls[t].request == |s.reqs| - 1)
    && (forall t, u :: t in s.calls && u in s.calls ==> t == u)
    && (forall t :: t in s.calls && s.calls[t].Writing? ==>
          !s.replied && Last(s).want && s.calls[t].accepted == Last(s).accepted)
    && (forall t :: t in s.calls ==> Last(s).attempted && !Last(s).complete)
    && (forall t :: t in s.rejecters ==> s.rejecters[t] < |s.reqs| && s.reqs[s.rejecters[t]].want && t != LOOP)
    && (LOOP in s.calls ==> s.loop.Finishing?)
  }

  /** What is known about the newest request while the loop has it in hand. */
  ghost predicate HandInv(s: State) {
    InHand(s.loop) ==>
      && |s.reqs| > 0
      && Last(s).held
      && (Last(s).attempted && Last(s).complete && Last(s).err.None? && Last(s).want ==> s.replied)
      && (forall t :: t in s.calls && s.calls[t].Completing? && s.calls[t].err.None? && Last(s).want ==> s.replied)
      && (!Last(s).attempted ==> !Last(s).complete)
      && (!Last(s).complete ==> Last(s).err.None?)
      && (!s.loop.Handling? && !s.loop.Finishing? ==> !Last(s).active)
      && (s.loop.Finishing? ==> Last(s).attempted && (LOOP in s.calls || Last(s).complete))
      && (s.loop.Answering? && !Last(s).want ==> !Last(s).attempted)
  }

  ghost predicate WireInv(s: State) {
    && s.past <= |s.reqs| && (|s.reqs| > 0 || !s.replied)
    && s.wire == Replies(s.reqs, s.past) + Newest(s)
  }

  ghost predicate Inv(s: State) {
    Places(s) && Each(s) && CallsInv(s) && HandInv(s) && WireInv(s)
  }

  /** The wire equation survives anything that leaves the requests moved past alone. */
  lemma WireFrame(s: State, t: State)
    requires WireInv(s) && t.past == s.past && t.wire == s.wire && t.replied == s.replied
    requires s.past <= |t.reqs| && t.reqs[..s.past] == s.reqs[..s.past]
    requires s.replied ==> |s.reqs| == |t.reqs| && Last(t).accepted == Last(s).accepted
    ensures WireInv(t)
  {
    RepliesFrame(s.reqs, t.reqs, s.past);
  }

  /** Moving on turns the newest reply into one of the past. */
  lemma WireMoveOn(s: State, canContinue: bool)
    requires WireInv(s) && |s.reqs| == s.past + 1 && (s.replied <==> Last(s).want)
    ensures WireInv(MoveOn(s, canContinue))
  {
    var t := MoveOn(s, canContinue);
    assert t.reqs[..s.past] == s.reqs[..s.past];
    RepliesFrame(s.reqs, t.reqs, s.past);
    assert Replies(t.reqs, t.past) == Replies(s.reqs, s.past) + Newest(s);
    assert s.wire + [] == s.wire;
  }

  /** Who passes the gate holds the newest request, and is the only one inside. */
  lemma EnterFacts(s: State, t: nat, r: nat, requireActive: bool)
    requires Places(s) && Each(s) && CallsInv(s)
    requires r < |s.reqs| && t !in s.calls && s.reqs[r].Refused(requireActive).None?
    ensures r == |s.reqs| - 1 == s.past && s.calls == map[] && !s.replied
  {
    assert s.calls.Keys == {};
  }

  lemma EnterWire(s: State, t: nat, r: nat, accept: bool, requireActive: bool)
    requires Places(s) && Each(s) && CallsInv(s) && WireInv(s) && t !in s.calls && r < |s.reqs|
    ensures WireInv(EnterStep(s, t, r, accept, requireActive))
  {
    if s.reqs[r].Refused(requireActive).None? {
      EnterFacts(s, t, r, requireActive);
      WireFrame(s, EnterStep(s, t, r, accept, requireActive));
    }
  }

  lemma EnterCalls(s: State, t: nat, r: nat, accept: bool, requireActive: bool)
    requires Places(s) && Each(s) && CallsInv(s) && t !in s.calls && t != LOOP && r < |s.reqs|
    ensures var u := EnterStep(s, t, r, accept, requireActive); Places(u) && Each(u) && CallsInv(u)
  {
    if s.reqs[r].Refused(requireActive).None? {
      EnterFacts(s, t, r, requireActive);
    }
  }

  /** A goroutine calls the writer, or carries out a rejection the error handler asked for. */
  lemma EnterKeeps(s: State, t: nat, r: nat, accept: bool, requireActive: bool)
    requires Inv(s) && t !in s.calls && t != LOOP && r < |s.reqs|
    requires requireActive || s.reqs[r].want
    ensures Inv(EnterStep(s, t, r, accept, requireActive))
  {
    EnterWire(s, t, r, accept, requireActive);
    EnterCalls(s, t, r, accept, requireActive);
    if s.reqs[r].Refused(requireActive).None? {
      EnterFacts(s, t, r, requireActive);
    }
  }

  lemma WriteWire(s: State, t: nat, err: Option<nat>)
    requires Places(s) && CallsInv(s) && WireInv(s) && t in s.calls && s.calls[t].Writing?
    ensures WireInv(WriteStep(s, t, err))
  {
    if err.None? {
      assert Newest(s) == [] && s.wire == Replies(s.reqs, s.past);
    }
  }

  lemma WriteKeeps(s: State, t: nat, err: Option<nat>)
    requires Inv(s) && t in s.calls && s.calls[t].Writing?
    ensures Inv(WriteStep(s, t, err))
  {
    WriteWire(s, t, err);
  }

  lemma CompleteKeeps(s: State, t: nat)
    requires Inv(s) && Enabled(s, Complete(t))
    ensures Inv(Step(s, Complete(t)))
  {
    WireFrame(s, Step(s, Complete(t)));
  }

  lemma StopKeeps(s: State)
    requires Places(s) && Each(s) && CallsInv(s) && WireInv(s) && s.past < |s.reqs| && LOOP !in s.calls
    ensures Inv(StopStep(s))
  {
    WireFrame(s, StopStep(s));
  }

  lemma MoveOnKeeps(s: State, canContinue: bool)
    requires Places(s) && Each(s) && CallsInv(s) && WireInv(s) && s.past < |s.reqs|
    requires s.calls == map[] && Last(s).complete && (s.replied <==> Last(s).want)
    ensures Inv(MoveOn(s, canContinue))
  {
    WireMoveOn(s, canContinue);
  }

  lemma NobodyInside(s: State)
    requires CallsInv(s) && |s.reqs| > 0 && (!Last(s).attempted || Last(s).complete)
    ensures s.calls == map[]
  {
    assert s.calls.Keys == {};
  }

  lemma CheckKeeps(s: State)
    requires Inv(s) && Enabled(s, Check)
    ensures Inv(CheckStep(s))
  {
    var r := Last(s);
    if (r.attempted && !r.complete) || r.err.Some? {
      StopKeeps(s);
    } else if r.attempted {
      NobodyInside(s);
      MoveOnKeeps(s, s.loop.canContinue);
    }
  }

  lemma NoReplyKeeps(s: State, canContinue: bool)
    requires Inv(s) && InHand(s.loop) && !Last(s).want && !Last(s).attempted
    ensures Inv(MoveOn(SetLast(s, Last(s).CompleteWithoutResponse()), canContinue))
  {
    NobodyInside(s);
    var u := SetLast(s, Last(s).CompleteWithoutResponse());
    WireFrame(s, u);
    MoveOnKeeps(u, canContinue);
  }

  function OwnReplyStep(s: State, canContinue: bool): State
    requires |s.reqs| > 0
  {
    MoveTo(EnterStep(s, LOOP, |s.reqs| - 1, false, false), Finishing(canContinue))
  }

  lemma OwnReplyCalls(s: State, canContinue: bool)
    requires Places(s) && Each(s) && CallsInv(s) && |s.reqs| == s.past + 1 && s.calls == map[] && !s.replied
    requires Last(s).Refused(false).None?
    ensures var t := OwnReplyStep(s, canContinue); Places(t) && Each(t) && CallsInv(t)
  {
  }

  lemma OwnReplyHand(s: State, canContinue: bool)
    requires HandInv(s) && InHand(s.loop) && s.calls == map[] && Last(s).Refused(false).None?
    ensures HandInv(OwnReplyStep(s, canContinue))
  {
  }

  lemma OwnReplyKeeps(s: State, canContinue: bool)
    requires Inv(s) && InHand(s.loop) && LOOP !in s.calls && Last(s).Refused(false).None?
    ensures Inv(OwnReplyStep(s, canContinue))
  {
    EnterFacts(s, LOOP, |s.reqs| - 1, false);
    OwnReplyCalls(s, canContinue);
    OwnReplyHand(s, canContinue);
    WireFrame(s, OwnReplyStep(s, canContinue));
  }

  lemma AnswerSelfKeeps(s: State)
    requires Inv(s) && Enabled(s, AnswerSelf)
    ensures Inv(AnswerSelfStep(s))
  {
    if !Last(s).want {
      NoReplyKeeps(s, s.loop.canContinue);
    } else if Last(s).Refused(false).Some? {
      StopKeeps(s);
    } else {
      OwnReplyKeeps(s, s.loop.canContinue);
    }
  }

  lemma NewKeeps(s: State, want: bool)
    requires Inv(s) && s.loop.Idle?
    ensures Inv(s.(reqs := s.reqs + [NewResponse(want)], loop := Handling))
  {
    assert s.calls.Keys == {};
    var u := s.(reqs := s.reqs + [NewResponse(want)], loop := Handling);
    assert u.reqs[..s.past] == s.reqs[..s.past];
    WireFrame(s, u);
  }

  lemma ArriveKeeps(s: State, want: bool, known: bool)
    requires Inv(s) && s.loop.Idle?
    ensures Inv(ArriveStep(s, want, known))
  {
    NewKeeps(s, want);
    if !known {
      assert s.calls.Keys == {};
      OwnReplyKeeps(s.(reqs := s.reqs + [NewResponse(want)], loop := Handling), true);
    }
  }

  lemma SettleKeeps(s: State)
    requires Inv(s) && Enabled(s, Settle)
    ensures Inv(SettleStep(s))
  {
    NobodyInside(s);
    if Last(s).err.Some? {
      StopKeeps(s);
    } else {
      MoveOnKeeps(s, s.loop.canContinue);
    }
  }

  /** The loop moves on with the request in hand as it is. */
  lemma MoveToKeeps(s: State, loop: Loop)
    requires Inv(s) && InHand(s.loop) && InHand(loop) && !Last(s).active
    requires !s.loop.Finishing? && !loop.Finishing? && (loop.Answering? && !Last(s).want ==> !Last(s).attempted)
    ensures Inv(MoveTo(s, loop))
  {
    WireFrame(s, MoveTo(s, loop));
  }

  lemma EndKeeps(s: State)
    requires Inv(s) && s.loop.Idle?
    ensures Inv(MoveTo(s, Ended))
  {
    WireFrame(s, MoveTo(s, Ended));
  }

  lemma HandlerReturnsKeeps(s: State, failed: bool)
    requires Inv(s) && s.loop.Handling?
    ensures Inv(HandlerReturnsStep(s, failed))
  {
    ExpireCalls(s, failed);
    WireFrame(s, HandlerReturnsStep(s, failed));
  }

  lemma ExpireCalls(s: State, failed: bool)
    requires Places(s) && Each(s) && CallsInv(s) && HandInv(s) && s.loop.Handling?
    ensures var t := HandlerReturnsStep(s, failed); Places(t) && Each(t) && CallsInv(t) && HandInv(t)
  {
  }

  lemma SendRejecterKeeps(s: State, t: nat)
    requires Inv(s) && s.loop.Dispatching? && Last(s).want && t != LOOP
    ensures Inv(SendRejecterStep(s, t))
  {
    WireFrame(s, SendRejecterStep(s, t));
  }

  lemma GiveUpKeeps(s: State)
    requires Inv(s) && s.loop.Dispatching?
    ensures var t := SetLast(s, Last(s).CompleteWithoutResponse()); Places(t) && Each(t) && CallsInv(t) && WireInv(t)
  {
    WireFrame(s, SetLast(s, Last(s).CompleteWithoutResponse()));
  }

  lemma EscalateKeeps(s: State)
    requires Inv(s) && s.loop.Dispatching?
    ensures Inv(EscalateStep(s))
  {
    GiveUpKeeps(s);
    StopKeeps(SetLast(s, Last(s).CompleteWithoutResponse()));
  }

  predicate QuietEvent(e: Event) {
    e.EndOfRequests? || e.HandlerReturns? || e.Judge? || e.SendRejecter? || e.DispatchReturns?
  }

  lemma QuietKeeps(s: State, e: Event)
    requires Inv(s) && Enabled(s, e) && QuietEvent(e)
    ensures Inv(Step(s, e))
  {
    if e.EndOfRequests? {
      EndKeeps(s);
    } else if e.HandlerReturns? {
      HandlerReturnsKeeps(s, e.failed);
    } else if e.Judge? {
      MoveToKeeps(s, JudgeStep(s).loop);
    } else if e.SendRejecter? {
      SendRejecterKeeps(s, e.thread);
    } else if e.escalated {
      EscalateKeeps(s);
    } else {
      MoveToKeeps(s, Checking(e.canContinue));
    }
  }

  lemma RejectKeeps(s: State, t: nat)
    requires Inv(s) && Enabled(s, CallReject(t))
    ensures Inv(Step(s, CallReject(t)))
  {
    var u := s.(rejecters := s.rejecters - {t});
    WireFrame(s, u);
    assert Inv(u);
    EnterKeeps(u, t, s.rejecters[t], false, false);
  }

  predicate CallerEvent(e: Event) {
    e.CallRespond? || e.CallReject? || e.Write? || e.Complete?
  }

  lemma CallerKeeps(s: State, e: Event)
    requires Inv(s) && Enabled(s, e) && CallerEvent(e)
    ensures Inv(Step(s, e))
  {
    if e.CallRespond? {
      EnterKeeps(s, e.thread, e.request, e.accepted, true);
    } else if e.CallReject? {
      RejectKeeps(s, e.thread);
    } else if e.Write? {
      WriteKeeps(s, e.thread, e.err);
    } else {
      CompleteKeeps(s, e.thread);
    }
  }

  lemma LoopKeeps(s: State, e: Event)
    requires Inv(s) && Enabled(s, e) && !CallerEvent(e)
    ensures Inv(Step(s, e))
  {
    if e.Arrive? {
      ArriveKeeps(s, e.want, e.known);
    } else if e.Check? {
      CheckKeeps(s);
    } else if e.AnswerSelf? {
      AnswerSelfKeeps(s);
    } else if e.Settle? {
      SettleKeeps(s);
    } else {
      QuietKeeps(s, e);
    }
  }

  lemma {:induction false} Reachable(es: seq<Event>)
    ensures Inv(Run(Init, es))
  {
    if es != [] {
      Reachable(es[..|es| - 1]);
      var t, e := Run(Init, es[..|es| - 1]), es[|es| - 1];
      if Enabled(t, e) {
        if CallerEvent(e) {
          CallerKeeps(t, e);
        } else {
          LoopKeeps(t, e);
        }
      }
    }
  }

  // ---------------------------------------------------------------- what every run guarantees

  /** The wire carries exactly one reply, with the recorded decision, for each wanting request the
      loop has moved past, in order, and none for the others; after these at most the reply of the
      newest request. The past requests are complete and their writers dead. */
  lemma OneReplyEachInOrder(es: seq<Event>)
    ensures var s := Run(Init, es);
      && s.past <= |s.reqs| <= s.past + 1 && (|s.reqs| > 0 || !s.replied)
      && s.wire == Replies(s.reqs, s.past) + Newest(s)
      && (forall k :: 0 <= k < s.past ==> s.reqs[k].complete && !s.reqs[k].active)
      && (forall t :: t in s.calls ==> s.past < |s.reqs| && s.calls[t].request == |s.reqs| - 1)
  {
    Reachable(es);
  }

  /** When a handler runs, or the loop is idle or at the end, everything before is answered. The
      loop stops early only with the connection closed. */
  lemma AnsweredOrClosed(es: seq<Event>)
    ensures var s := Run(Init, es);
      && (s.loop.Handling? ==> |s.reqs| == s.past + 1)
      && (s.loop.Idle? || s.loop.Ended? ==> |s.reqs| == s.past && s.wire == Replies(s.reqs, |s.reqs|))
      && (s.loop.Stopped? ==> s.closed)
  {
    Reachable(es);
    var s := Run(Init, es);
    assert Replies(s.reqs, s.past) + [] == Replies(s.reqs, s.past);
  }

  /** The done channel of a request is closed once, exactly when the request completes, so whoever
      waits for it never finds the request incomplete. */
  lemma DoneClosedOnce(es: seq<Event>, k: nat)
    requires k < |Run(Init, es).reqs|
    ensures var r := Run(Init, es).reqs[k]; !r.panicked && (r.done <==> r.complete)
  {
    Reachable(es);
  }

  /** A stopped loop stays stopped: no further request is handed to a handler. */
  lemma {:induction false} StoppedForGood(s: State, es: seq<Event>)
    requires s.loop.Stopped? || s.loop.Ended?
    ensures Run(s, es).loop == s.loop && |Run(s, es).reqs| == |s.reqs| && Run(s, es).past == s.past
  {
    if es != [] {
      StoppedForGood(s, es[..|es| - 1]);
    }
  }
}
