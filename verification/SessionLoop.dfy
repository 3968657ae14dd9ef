/** The request loop of a session: what it answers to each request, when it starts the handler,
    and when it stops (session.go:289-346, 851-1103).

    A request carries what the code around it will say when asked: policy callbacks, whether a
    write of the reply succeeds, which kind of handler is registered. A script interleaves the
    requests with the request timeout and, while a deferred subsystem is undecided, with the
    decision. Requests are numbered in the order they are read. */
module SessionLoop {
  import opened Prelude

  const MAX_ENV_VARIABLES: nat := 128
  const MAX_ENV_BYTES: nat := 65536

  datatype Kind =
    | Shell
    | Exec
    | Subsystem
    | Env(keyLength: nat, valueLength: nat)
    | SignalRequest
    | PtyRequest
    | WindowChange
    | AgentRequest
    | BreakRequest
    | Other
  {
    predicate Starts() {
      Shell? || Exec? || Subsystem?
    }
  }

  datatype Callback = NoCallback | Allow | Deny | Fail(continues: bool)

  datatype Registered = NoHandler | Plain | Deferred

  /** `positive` is the answer of signal and break delivery, `goesOn` whether signal delivery lets
      the loop go on. */
  datatype Request = Request(
    kind: Kind, wellFormed: bool, callback: Callback, registered: Registered, replyOk: bool,
    positive: bool, goesOn: bool)

  /** How a deferred subsystem is decided. */
  datatype Decision = Accept(replyOk: bool) | Reject | Abandon

  datatype Input = Req(req: Request) | Timeout | Decide(decision: Decision)

  /** A call of Reply; `start` marks shell, exec and subsystem requests. */
  datatype Reply = Reply(id: nat, accepted: bool, start: bool)

  datatype Pending = Pending(id: nat, req: Request)

  /** Where the loop is: at its top, in waitDeferredSubsystem, or returned at some request. */
  datatype Phase = Running | Waiting(id: nat, next: Option<Pending>) | Stopped(at: nat)

  /** The session's fields the loop uses, its place, and a record of what it did: replies, handler
      starts, requests read, and requests read but overwritten. */
  datatype State = State(
    handled: bool, pty: bool, envCount: nat, envBytes: nat, resolved: bool, timedOut: bool,
    phase: Phase, arrivals: nat, replies: seq<Reply>, started: nat, lost: set<nat>)
  {
    function Answer(id: nat, accepted: bool, start: bool): State {
      this.(replies := replies + [Reply(id, accepted, start)])
    }

    function Stop(id: nat): State {
      this.(phase := Stopped(id))
    }

    /** Whether a request to start the program is turned down. */
    predicate StartRefused(r: Request) {
      || handled || (!r.kind.Subsystem? && !r.registered.Plain?) || (!r.kind.Shell? && !r.wellFormed)
      || r.callback.Deny? || r.callback.Fail? || r.registered.NoHandler?
    }

    /** Whether a failing callback that was consulted for it ends the loop. */
    predicate StartStops(r: Request) {
      && !handled && (r.kind.Subsystem? || r.registered.Plain?) && (r.kind.Shell? || r.wellFormed)
      && r.callback.Fail? && !r.callback.continues
    }

    function Start(id: nat, r: Request): State {
      if resolved then Stop(id)
      else
        var t := this.(resolved := true, handled := true);
        if r.registered.Deferred? then t.(phase := Waiting(id, None))
        else if r.replyOk then t.Answer(id, true, true).(started := started + 1)
        else t.Answer(id, true, true).Stop(id)
    }

    function ProcessStart(id: nat, r: Request): State {
      if StartStops(r) then Answer(id, false, true).Stop(id)
      else if StartRefused(r) then Answer(id, false, true)
      else Start(id, r)
    }

    /** The answer to any other request. */
    predicate Accepts(r: Request) {
      match r.kind
      case Env(k, v) =>
        !handled && r.wellFormed && envCount < MAX_ENV_VARIABLES && envBytes + k + 1 + v <= MAX_ENV_BYTES
      case SignalRequest => r.positive
      case PtyRequest => !handled && !pty && r.wellFormed && !r.callback.Deny? && !r.callback.Fail?
      case WindowChange => pty && r.wellFormed
      case AgentRequest => r.callback.Allow?
      case BreakRequest => r.positive
      case _ => false
    }

    /** Whether the loop returns after that answer. */
    predicate Stops(r: Request) {
      match r.kind
      case SignalRequest => !r.goesOn
      case PtyRequest => !handled && !pty && r.wellFormed && r.callback.Fail? && !r.callback.continues
      case AgentRequest => (r.callback.Fail? && !r.callback.continues) || (r.callback.Allow? && !r.replyOk)
      case _ => false
    }

    function Remember(r: Request): State {
      if r.kind.Env? then
        this.(envCount := envCount + 1, envBytes := envBytes + r.kind.keyLength + 1 + r.kind.valueLength)
      else if r.kind.PtyRequest? then this.(pty := true)
      else this
    }

    function ProcessOther(id: nat, r: Request): State {
      var t := (if Accepts(r) then Remember(r) else this).Answer(id, Accepts(r), false);
      if Stops(r) then t.Stop(id) else t
    }

    function Process(id: nat, r: Request): State {
      if r.kind.Starts() then ProcessStart(id, r) else ProcessOther(id, r)
    }

    function CountArrival(): State {
      this.(arrivals := arrivals + 1)
    }

    function Arrive(r: Request): State {
      CountArrival().Process(arrivals, r)
    }

    /** The request timeout fires: it closes the session unless a handler has been chosen. */
    function Expire(): State {
      if resolved then this else this.(resolved := true, timedOut := true)
    }

    /** waitDeferredSubsystem keeps one later request; a further one takes its place. */
    function ReadLater(r: Request): State
      requires phase.Waiting?
    {
      this.(phase := Waiting(phase.id, Some(Pending(arrivals, r))), arrivals := arrivals + 1,
            lost := if phase.next.Some? then lost + {phase.next.value.id} else lost)
    }

    /** The acceptance is out and the handler starts. */
    function Proceed(): State
      requires phase.Waiting?
    {
      Answer(phase.id, true, true).(started := started + 1, phase := Running)
    }

    function Resolve(d: Decision): State
      requires phase.Waiting?
    {
      match d
      case Abandon => Stop(phase.id)
      case Reject => Answer(phase.id, false, true).Stop(phase.id)
      case Accept(ok) =>
        if ok then Ahead(Proceed(), phase.next) else Answer(phase.id, true, true).Stop(phase.id)
    }
  }

  /** The state once the request in hand, if any, has been dealt with. */
  function Ahead(s: State, pending: Option<Pending>): State {
    if pending.Some? then s.Process(pending.value.id, pending.value.req) else s
  }

  const Init: State := State(false, false, 0, 0, false, false, Running, 0, [], 0, {})

  function Step(s: State, i: Input): State {
    if s.phase.Stopped? then s
    else
      match i
      case Timeout => s.Expire()
      case Decide(d) => if s.phase.Waiting? then s.Resolve(d) else s
      case Req(r) =>
        if s.phase.Waiting? then s.ReadLater(r) else s.Arrive(r)
  }

  function Run(s: State, inputs: seq<Input>): State {
    if inputs == [] then s else Step(Run(s, inputs[..|inputs| - 1]), inputs[|inputs| - 1])
  }

  // ---------------------------------------------------------------- the code's nested loops

  /** The states of a run, one before each input and one at the end. */
  ghost predicate Trace(t: seq<State>, inputs: seq<Input>) {
    |t| == |inputs| + 1 && forall k {:trigger inputs[k]} :: 0 <= k < |inputs| ==> t[k + 1] == Step(t[k], inputs[k])
  }

  lemma {:induction false} RunTrace(s: State, inputs: seq<Input>) returns (t: seq<State>)
    ensures Trace(t, inputs) && t[0] == s && t[|inputs|] == Run(s, inputs)
  {
    if inputs == [] {
      t := [s];
    } else {
      var n := |inputs| - 1;
      var init := RunTrace(s, inputs[..n]);
      t := init + [Step(init[n], inputs[n])];
      forall k {:trigger inputs[k]} | 0 <= k < |inputs|
        ensures t[k + 1] == Step(t[k], inputs[k])
      {
        if k < n {
          assert inputs[..n][k] == inputs[k];
        }
      }
    }
  }

  /** What comes after a stop changes nothing. */
  lemma {:induction false} StoppedAtEnd(t: seq<State>, inputs: seq<Input>, i: nat)
    requires Trace(t, inputs) && i <= |inputs| && t[i].phase.Stopped?
    ensures t[|inputs|] == t[i]
    decreases |inputs| - i
  {
    if i < |inputs| {
      assert t[i + 1] == Step(t[i], inputs[i]);
      StoppedAtEnd(t, inputs, i + 1);
    }
  }

  lemma WaitsAlone(s: State, p: Pending)
    requires s.phase.Running? && s.Process(p.id, p.req).phase.Waiting?
    ensures s.Process(p.id, p.req).phase.next.None?
  {
  }

  class Session {
    var handled: bool
    var pty: bool
    var envCount: nat
    var envBytes: nat
    var resolved: bool
    var timedOut: bool
    var arrivals: nat
    var replies: seq<Reply>
    var started: nat
    ghost var lost: set<nat>

    ghost function View(phase: Phase): State
      reads this
    {
      State(handled, pty, envCount, envBytes, resolved, timedOut, phase, arrivals, replies, started, lost)
    }

    constructor ()
      ensures View(Running) == Init
    {
      handled, pty, envCount, envBytes := false, false, 0, 0;
      resolved, timedOut, arrivals, replies, started, lost := false, false, 0, [], 0, {};
    }

    method Answer(id: nat, accepted: bool, start: bool)
      modifies this`replies
      ensures replies == old(replies) + [Reply(id, accepted, start)]
    {
      replies := replies + [Reply(id, accepted, start)];
    }

    /** A policy callback said no, or failed: handleCallbackError, or a plain rejection. */
    method Refuse(id: nat, c: Callback, start: bool) returns (phase: Phase)
      modifies this`replies
      ensures replies == old(replies) + [Reply(id, false, start)]
      ensures phase == if c.Fail? && !c.continues then Stopped(id) else Running
    {
      Answer(id, false, start);
      phase := if c.Fail? && !c.continues then Stopped(id) else Running;
    }

    method StartRequest(id: nat, r: Request) returns (phase: Phase)
      modifies this
      ensures View(phase) == old(View(Running)).Start(id, r)
    {
      if resolved {
        return Stopped(id);
      }
      resolved := true;
      handled := true;
      if r.registered.Deferred? {
        return Waiting(id, None);
      }
      Answer(id, true, true);
      if !r.replyOk {
        return Stopped(id);
      }
      started := started + 1;
      return Running;
    }

    method HandleStart(id: nat, r: Request) returns (phase: Phase)
      modifies this
      ensures View(phase) == old(View(Running)).ProcessStart(id, r)
    {
      if handled || (!r.kind.Subsystem? && !r.registered.Plain?) || (!r.kind.Shell? && !r.wellFormed) {
        Answer(id, false, true);
        return Running;
      }
      if r.callback.Deny? || r.callback.Fail? {
        phase := Refuse(id, r.callback, true);
        return;
      }
      if r.registered.NoHandler? {
        Answer(id, false, true);
        return Running;
      }
      phase := StartRequest(id, r);
    }

    method HandleEnv(id: nat, r: Request)
      requires r.kind.Env?
      modifies this
      ensures View(Running) == old(View(Running)).ProcessOther(id, r)
    {
      var size := r.kind.keyLength + 1 + r.kind.valueLength;
      if handled || !r.wellFormed || envCount >= MAX_ENV_VARIABLES || envBytes + size > MAX_ENV_BYTES {
        Answer(id, false, false);
        return;
      }
      envCount := envCount + 1;
      envBytes := envBytes + size;
      Answer(id, true, false);
    }

    method HandlePty(id: nat, r: Request) returns (phase: Phase)
      requires r.kind.PtyRequest?
      modifies this
      ensures View(phase) == old(View(Running)).ProcessOther(id, r)
    {
      phase := Running;
      if handled || pty || !r.wellFormed {
        Answer(id, false, false);
      } else if r.callback.Deny? || r.callback.Fail? {
        phase := Refuse(id, r.callback, false);
      } else {
        pty := true;
        Answer(id, true, false);
      }
    }

    method HandleAgent(id: nat, r: Request) returns (phase: Phase)
      requires r.kind.AgentRequest?
      modifies this
      ensures View(phase) == old(View(Running)).ProcessOther(id, r)
    {
      phase := Running;
      if r.callback.NoCallback? {
        Answer(id, false, false);
      } else if !r.callback.Allow? {
        phase := Refuse(id, r.callback, false);
      } else {
        Answer(id, true, false);
        if !r.replyOk {
          phase := Stopped(id);
        }
      }
    }

    method HandleSimple(id: nat, r: Request) returns (phase: Phase)
      requires !r.kind.Env? && !r.kind.PtyRequest? && !r.kind.AgentRequest?
      modifies this
      ensures View(phase) == old(View(Running)).ProcessOther(id, r)
    {
      phase := Running;
      if r.kind.SignalRequest? {
        Answer(id, r.positive, false);
        if !r.goesOn {
          phase := Stopped(id);
        }
      } else if r.kind.WindowChange? {
        Answer(id, pty && r.wellFormed, false);
      } else if r.kind.BreakRequest? {
        Answer(id, r.positive, false);
      } else {
        Answer(id, false, false);
      }
    }

    method Expire()
      modifies this`resolved, this`timedOut
      ensures forall p :: View(p) == old(View(p)).Expire()
    {
      if !resolved {
        resolved := true;
        timedOut := true;
      }
    }

    /** What the wait does once the decision is known; `next` is the later request it has read. */
    method Decide(id: nat, ghost next: Option<Pending>, d: Decision) returns (phase: Phase)
      modifies this`replies, this`started
      ensures phase == if d == Accept(true) then Running else Stopped(id)
      ensures old(View(Waiting(id, next))).Resolve(d) ==
        if phase.Running? then Ahead(View(Running), next) else View(phase)
    {
      if d.Abandon? {
        return Stopped(id);
      }
      Answer(id, d.Accept?, true);
      if d.Reject? || !d.replyOk {
        return Stopped(id);
      }
      started := started + 1;
      assert View(Running) == old(View(Waiting(id, next))).Proceed();
      return Running;
    }

    /** The inner loop. It comes back with the loop running again and the later request it read, if
        any, or stopped, or still waiting at the end of the script. */
    method WaitDeferredSubsystem(ghost t: seq<State>, id: nat, inputs: seq<Input>, from: nat)
      returns (phase: Phase, next: Option<Pending>, i: nat)
      requires Trace(t, inputs) && from <= |inputs| && View(Waiting(id, None)) == t[from]
      modifies this
      ensures from <= i <= |inputs|
      ensures phase.Running? ==> from < i && Ahead(View(Running), next) == t[i]
      ensures !phase.Running? ==> View(phase) == t[i] && (phase.Waiting? ==> i == |inputs|)
    {
      i, next := from, None;
      while i < |inputs|
        invariant from <= i <= |inputs|
        invariant View(Waiting(id, next)) == t[i]
      {
        assert t[i + 1] == Step(t[i], inputs[i]);
        i := i + 1;
        match inputs[i - 1]
        case Timeout =>
          Expire();
        case Req(later) =>
          lost := if next.Some? then lost + {next.value.id} else lost;
          next := Some(Pending(arrivals, later));
          arrivals := arrivals + 1;
        case Decide(d) =>
          phase := Decide(id, next, d);
          return;
      }
      phase := Waiting(id, next);
    }

    /** The receive at the top of the loop; None at the end of the script. */
    method NextRequest(ghost t: seq<State>, inputs: seq<Input>, from: nat) returns (next: Option<Pending>, i: nat)
      requires Trace(t, inputs) && from <= |inputs| && View(Running) == t[from]
      modifies this`resolved, this`timedOut, this`arrivals
      ensures from <= i <= |inputs| && Ahead(View(Running), next) == t[i]
      ensures if next.Some? then from < i else i == |inputs|
    {
      i := from;
      while i < |inputs|
        invariant from <= i <= |inputs|
        invariant View(Running) == t[i]
      {
        assert t[i + 1] == Step(t[i], inputs[i]);
        i := i + 1;
        match inputs[i - 1]
        case Timeout =>
          Expire();
        case Decide(_) =>
        case Req(r) =>
          next := Some(Pending(arrivals, r));
          arrivals := arrivals + 1;
          assert View(Running) == t[i - 1].CountArrival();
          return;
      }
      next := None;
    }

    method Handle(p: Pending) returns (phase: Phase)
      modifies this
      ensures View(phase) == old(View(Running)).Process(p.id, p.req)
    {
      if p.req.kind.Starts() {
        phase := HandleStart(p.id, p.req);
      } else if p.req.kind.Env? {
        HandleEnv(p.id, p.req);
        phase := Running;
      } else if p.req.kind.PtyRequest? {
        phase := HandlePty(p.id, p.req);
      } else if p.req.kind.AgentRequest? {
        phase := HandleAgent(p.id, p.req);
      } else {
        phase := HandleSimple(p.id, p.req);
      }
    }

    /** One turn, with the wait for a deferred subsystem that it may include. */
    method Turn(ghost t: seq<State>, p: Pending, inputs: seq<Input>, from: nat)
      returns (phase: Phase, next: Option<Pending>, i: nat)
      requires Trace(t, inputs) && from <= |inputs| && Ahead(View(Running), Some(p)) == t[from]
      modifies this
      ensures from <= i <= |inputs|
      ensures phase.Running? ==> Ahead(View(Running), next) == t[i] && (next.Some? ==> from < i)
      ensures !phase.Running? ==> View(phase) == t[i] && (phase.Waiting? ==> i == |inputs|)
    {
      phase := Handle(p);
      next, i := None, from;
      if phase.Waiting? {
        WaitsAlone(old(View(Running)), p);
        phase, next, i := WaitDeferredSubsystem(t, phase.id, inputs, from);
      }
    }

    /** The outer loop, over a whole script. */
    method HandleRequests(inputs: seq<Input>) returns (phase: Phase)
      modifies this
      ensures View(phase) == Run(old(View(Running)), inputs)
    {
      ghost var t := RunTrace(View(Running), inputs);
      var i: nat, pending: Option<Pending> := 0, None;
      while true
        invariant i <= |inputs|
        invariant Ahead(View(Running), pending) == t[i]
        decreases |inputs| - i, One(pending.Some?)
      {
        if pending.None? {
          pending, i := NextRequest(t, inputs, i);
          if pending.None? {
            return Running;
          }
        }
        phase, pending, i := Turn(t, pending.value, inputs, i);
        if phase.Waiting? {
          return;
        }
        if phase.Stopped? {
          StoppedAtEnd(t, inputs, i);
          return;
        }
      }
    }
  }

  // ---------------------------------------------------------------- the invariant

  function Ids(r: seq<Reply>): set<nat> {
    set i | 0 <= i < |r| :: r[i].id
  }

  function Answered(s: State): set<nat> {
    Ids(s.replies)
  }

  /** Read, not answered, and not given up: the loop still has it, or stopped at or before it. */
  predicate InHand(s: State, id: nat) {
    match s.phase
    case Running => false
    case Waiting(w, next) => id == w || (next.Some? && id == next.value.id)
    case Stopped(at) => id >= at && id !in Answered(s) && id !in s.lost
  }

  ghost predicate Increasing(r: seq<Reply>) {
    forall i, j :: 0 <= i < j < |r| ==> r[i].id < r[j].id
  }

  /** All replies are to requests before `id`. */
  ghost predicate AnsweredBelow(s: State, id: nat) {
    forall i :: 0 <= i < |s.replies| ==> s.replies[i].id < id
  }

  /** Every request read is answered, overwritten or in hand, and only one of these. */
  ghost predicate Accounted(s: State) {
    && AnsweredBelow(s, s.arrivals)
    && (forall id :: id in s.lost ==> id < s.arrivals && id !in Answered(s) && !InHand(s, id))
    && (forall id: nat :: id < s.arrivals ==> id in Answered(s) || id in s.lost || InHand(s, id))
    && (forall id: nat :: id < s.arrivals && InHand(s, id) ==> id !in Answered(s))
  }

  /** The same with request `id` taken out to be processed. */
  ghost predicate Ready(s: State, id: nat) {
    && s.phase.Running? && id < s.arrivals && AnsweredBelow(s, id) && id !in s.lost && Increasing(s.replies)
    && (forall x :: x in s.lost ==> x < s.arrivals && x !in Answered(s))
    && (forall x: nat :: x < s.arrivals && x != id ==> x in Answered(s) || x in s.lost)
  }

  predicate AcceptedStart(r: Reply) {
    r.start && r.accepted
  }

  ghost predicate Starts(s: State) {
    && s.started <= 1
    && (s.started == 1 ==> s.handled)
    && (s.handled ==> s.resolved && !s.timedOut)
    && (s.timedOut ==> s.resolved)
    && (s.phase.Waiting? ==> s.handled && s.started == 0)
    && (forall i :: 0 <= i < |s.replies| && AcceptedStart(s.replies[i]) ==> s.handled && !s.phase.Waiting?)
    && (forall i, j :: 0 <= i < j < |s.replies| && AcceptedStart(s.replies[i]) ==> !AcceptedStart(s.replies[j]))
    && s.envCount <= MAX_ENV_VARIABLES && s.envBytes <= MAX_ENV_BYTES
  }

  ghost predicate Order(s: State) {
    && Increasing(s.replies)
    && (s.phase.Waiting? ==> s.phase.id < s.arrivals && AnsweredBelow(s, s.phase.id))
    && (s.phase.Waiting? && s.phase.next.Some? ==> s.phase.id < s.phase.next.value.id < s.arrivals)
  }

  ghost predicate Inv(s: State) {
    Accounted(s) && Order(s) && Starts(s)
  }

  lemma AnswerOne(s: State, t: State, r: Reply)
    requires t.replies == s.replies + [r]
    ensures Answered(t) == Answered(s) + {r.id}
    ensures Increasing(s.replies) && AnsweredBelow(s, r.id) ==> Increasing(t.replies) && AnsweredBelow(t, r.id + 1)
  {
    forall x | x in Answered(s)
      ensures x in Answered(t)
    {
      var i :| 0 <= i < |s.replies| && s.replies[i].id == x;
      assert t.replies[i].id == x;
    }
    assert t.replies[|s.replies|].id == r.id;
  }

  /** What one turn may do to the record: one answer, or a stop or a wait without one. */
  ghost predicate OneTurn(s: State, t: State, id: nat) {
    && t.arrivals == s.arrivals && t.lost == s.lost
    && (t.replies == s.replies || exists a, b :: t.replies == s.replies + [Reply(id, a, b)])
    && (t.replies == s.replies ==> t.phase == Stopped(id) || t.phase == Waiting(id, None))
    && (t.replies != s.replies ==> t.phase == Running || t.phase == Stopped(id))
  }

  lemma ProcessIsOneTurn(s: State, id: nat, r: Request)
    requires s.phase.Running?
    ensures OneTurn(s, s.Process(id, r), id)
  {
    if r.kind.Starts() {
      StartIsOneTurn(s, id, r);
    } else {
      OtherIsOneTurn(s, id, r);
    }
  }

  lemma StartIsOneTurn(s: State, id: nat, r: Request)
    requires s.phase.Running?
    ensures OneTurn(s, s.ProcessStart(id, r), id)
  {
    assert s.ProcessStart(id, r).replies == s.replies
      || s.ProcessStart(id, r).replies == s.replies + [Reply(id, false, true)]
      || s.ProcessStart(id, r).replies == s.replies + [Reply(id, true, true)];
  }

  lemma OtherIsOneTurn(s: State, id: nat, r: Request)
    requires s.phase.Running?
    ensures OneTurn(s, s.ProcessOther(id, r), id)
  {
    assert s.ProcessOther(id, r).replies == s.replies + [Reply(id, s.Accepts(r), false)];
  }

  lemma TurnAccounts(s: State, t: State, id: nat)
    requires Ready(s, id) && OneTurn(s, t, id)
    ensures Accounted(t) && Order(t)
  {
    if t.replies != s.replies {
      var a, b :| t.replies == s.replies + [Reply(id, a, b)];
      AnswerOne(s, t, Reply(id, a, b));
    } else {
      assert Answered(t) == Answered(s);
    }
  }

  lemma StartsFrame(s: State, t: State, r: Reply)
    requires Starts(s) && t.replies == s.replies + [r] && !AcceptedStart(r) && !t.phase.Waiting?
    requires t.handled == s.handled && t.resolved == s.resolved && t.timedOut == s.timedOut && t.started == s.started
    requires t.envCount <= MAX_ENV_VARIABLES && t.envBytes <= MAX_ENV_BYTES
    ensures Starts(t)
  {
  }

  lemma OtherStarts(s: State, id: nat, r: Request)
    requires Starts(s) && s.phase.Running?
    ensures Starts(s.ProcessOther(id, r))
  {
    StartsFrame(s, s.ProcessOther(id, r), Reply(id, s.Accepts(r), false));
  }

  lemma AcceptStarts(s: State, id: nat, r: Request)
    requires Starts(s) && s.phase.Running? && !s.handled
    ensures Starts(s.Start(id, r))
  {
    assert forall i :: 0 <= i < |s.replies| ==> !AcceptedStart(s.replies[i]);
  }

  lemma ProcessStarts(s: State, id: nat, r: Request)
    requires Starts(s) && s.phase.Running?
    ensures Starts(s.Process(id, r))
  {
    if !r.kind.Starts() {
      OtherStarts(s, id, r);
    } else if s.StartStops(r) || s.StartRefused(r) {
      StartsFrame(s, s.ProcessStart(id, r), Reply(id, false, true));
    } else {
      AcceptStarts(s, id, r);
    }
  }

  lemma ReadLaterKeeps(s: State, r: Request)
    requires Inv(s) && s.phase.Waiting?
    ensures Inv(s.ReadLater(r))
  {
    assert Answered(s.ReadLater(r)) == Answered(s);
  }

  lemma ProcessKeeps(s: State, id: nat, r: Request)
    requires Ready(s, id) && Starts(s)
    ensures Inv(s.Process(id, r))
  {
    ProcessIsOneTurn(s, id, r);
    TurnAccounts(s, s.Process(id, r), id);
    ProcessStarts(s, id, r);
  }

  /** Answering the request waited for, which stops the loop there. */
  lemma ResolveStops(s: State, accepted: bool)
    requires Inv(s) && s.phase.Waiting?
    ensures Inv(s.Answer(s.phase.id, accepted, true).Stop(s.phase.id))
  {
    AnswerOne(s, s.Answer(s.phase.id, accepted, true).Stop(s.phase.id), Reply(s.phase.id, accepted, true));
  }

  lemma AcceptKeeps(s: State)
    requires Inv(s) && s.phase.Waiting?
    ensures var t := s.Proceed();
      && Starts(t)
      && (s.phase.next.Some? ==> Ready(t, s.phase.next.value.id))
      && (s.phase.next.None? ==> Inv(t))
  {
    var t := s.Proceed();
    AnswerOne(s, t, Reply(s.phase.id, true, true));
  }

  lemma AbandonKeeps(s: State)
    requires Inv(s) && s.phase.Waiting?
    ensures Inv(s.Stop(s.phase.id))
  {
    assert Answered(s.Stop(s.phase.id)) == Answered(s);
  }

  lemma ResolveKeeps(s: State, d: Decision)
    requires Inv(s) && s.phase.Waiting?
    ensures Inv(s.Resolve(d))
  {
    if d.Abandon? {
      AbandonKeeps(s);
    } else if d.Reject? || !d.replyOk {
      ResolveStops(s, d.Accept?);
    } else {
      AcceptKeeps(s);
      if s.phase.next.Some? {
        ProcessKeeps(s.Proceed(), s.phase.next.value.id, s.phase.next.value.req);
      }
    }
  }

  lemma ExpireKeeps(s: State)
    requires Inv(s)
    ensures Inv(s.Expire())
  {
    assert Answered(s.Expire()) == Answered(s);
  }

  lemma ArriveReady(s: State)
    requires Inv(s) && s.phase.Running?
    ensures Ready(s.CountArrival(), s.arrivals) && Starts(s.CountArrival())
  {
    assert Answered(s.CountArrival()) == Answered(s);
  }

  lemma NewRequestKeeps(s: State, r: Request)
    requires Inv(s) && s.phase.Running?
    ensures Inv(s.Arrive(r))
  {
    ArriveReady(s);
    ProcessKeeps(s.CountArrival(), s.arrivals, r);
  }

  lemma RequestKeeps(s: State, r: Request)
    requires Inv(s) && !s.phase.Stopped?
    ensures Inv(Step(s, Req(r)))
  {
    if s.phase.Waiting? {
      ReadLaterKeeps(s, r);
    } else {
      NewRequestKeeps(s, r);
    }
  }

  lemma DecisionKeeps(s: State, d: Decision)
    requires Inv(s) && !s.phase.Stopped?
    ensures Inv(Step(s, Decide(d)))
  {
    if s.phase.Waiting? {
      ResolveKeeps(s, d);
      assert Step(s, Decide(d)) == s.Resolve(d);
    }
  }

  lemma StepKeepsInv(s: State, i: Input)
    requires Inv(s)
    ensures Inv(Step(s, i))
  {
    if s.phase.Stopped? {
      assert Step(s, i) == s;
    } else if i.Timeout? {
      ExpireKeeps(s);
      assert Step(s, i) == s.Expire();
    } else if i.Decide? {
      DecisionKeeps(s, i.decision);
    } else {
      RequestKeeps(s, i.req);
    }
  }

  lemma {:induction false} Reachable(inputs: seq<Input>)
    ensures Inv(Run(Init, inputs))
  {
    if inputs != [] {
      Reachable(inputs[..|inputs| - 1]);
      StepKeepsInv(Run(Init, inputs[..|inputs| - 1]), inputs[|inputs| - 1]);
    }
  }

  // ---------------------------------------------------------------- what every script leads to

  /** Replies go out in the order the requests were read, none twice. Every request read is
      answered, or overwritten while a decision was pending, or the one the loop is at or stopped
      at (or behind it); and only one of these. */
  lemma RepliesInOrderAtMostOnce(inputs: seq<Input>)
    ensures var s := Run(Init, inputs);
      && Increasing(s.replies) && AnsweredBelow(s, s.arrivals)
      && (forall id: nat :: id < s.arrivals ==>
            One(id in Answered(s)) + One(id in s.lost) + One(InHand(s, id)) == 1)
  {
    Reachable(inputs);
  }

  /** At most one handler starts, only after an accepted request, and never after the request
      timeout has won; and a session's environment stays within its limits. */
  lemma OneStartOrTimeout(inputs: seq<Input>)
    ensures var s := Run(Init, inputs);
      && s.started <= 1
      && (s.timedOut ==> s.started == 0 && !s.phase.Waiting?)
      && (forall i :: 0 <= i < |s.replies| && s.timedOut ==> !AcceptedStart(s.replies[i]))
      && (forall i, j :: 0 <= i < j < |s.replies| && AcceptedStart(s.replies[i]) ==> !AcceptedStart(s.replies[j]))
      && s.envCount <= MAX_ENV_VARIABLES && s.envBytes <= MAX_ENV_BYTES
  {
    Reachable(inputs);
  }

  predicate SameSettings(s: State, t: State) {
    t.handled && t.pty == s.pty && t.envCount == s.envCount && t.envBytes == s.envBytes
  }

  lemma ProcessFrozen(s: State, id: nat, r: Request)
    requires s.handled
    ensures SameSettings(s, s.Process(id, r))
  {
  }

  lemma ResolveFrozen(s: State, d: Decision)
    requires s.handled && s.phase.Waiting?
    ensures SameSettings(s, s.Resolve(d))
  {
    if s.phase.next.Some? {
      ProcessFrozen(s.Proceed(), s.phase.next.value.id, s.phase.next.value.req);
    }
  }

  lemma StepFrozen(s: State, i: Input)
    requires s.handled
    ensures SameSettings(s, Step(s, i))
  {
    if i.Decide? && s.phase.Waiting? {
      ResolveFrozen(s, i.decision);
    } else if i.Req? && s.phase.Running? {
      ProcessFrozen(s.CountArrival(), s.arrivals, i.req);
    }
  }

  /** Once a program has been chosen, what it was given stays: no pty and no environment variable is
      granted any more, whatever is requested. */
  lemma {:induction false} SettingsFrozenOnceHandled(s: State, inputs: seq<Input>)
    requires s.handled
    ensures SameSettings(s, Run(s, inputs))
  {
    if inputs != [] {
      SettingsFrozenOnceHandled(s, inputs[..|inputs| - 1]);
      StepFrozen(Run(s, inputs[..|inputs| - 1]), inputs[|inputs| - 1]);
    }
  }

  /** How many requests are read while a deferred decision is pending. */
  function LaterReads(inputs: seq<Input>): nat {
    if inputs == [] then 0
    else
      var n := |inputs| - 1;
      LaterReads(inputs[..n]) + One(inputs[n].Req? && Run(Init, inputs[..n]).phase.Waiting?)
  }

  /** No request read so far is forgotten. */
  ghost predicate NoneForgotten(inputs: seq<Input>) {
    var s := Run(Init, inputs);
    forall id: nat :: id < s.arrivals ==> id in Answered(s) || InHand(s, id)
  }

  /** The losses count the later requests beyond the first. */
  lemma {:induction false} LossesCount(inputs: seq<Input>)
    ensures var s := Run(Init, inputs);
      && (s.lost == {} <==> LaterReads(inputs) <= 1)
      && (!s.handled ==> LaterReads(inputs) == 0)
      && (s.phase.Waiting? ==> (s.phase.next.None? <==> LaterReads(inputs) == 0))
  {
    Reachable(inputs);
    if inputs != [] {
      var n := |inputs| - 1;
      LossesCount(inputs[..n]);
      Reachable(inputs[..n]);
      LossesStep(Run(Init, inputs[..n]), inputs[n]);
    }
  }

  lemma LossesStep(s: State, i: Input)
    requires Inv(s)
    ensures var t := Step(s, i);
      && (s.handled ==> t.handled)
      && (i.Req? && s.phase.Waiting? ==>
            && t == s.ReadLater(i.req)
            && (t.lost == {} <==> s.lost == {} && s.phase.next.None?))
      && (!(i.Req? && s.phase.Waiting?) ==>
            && t.lost == s.lost
            && (t.phase.Waiting? ==> if s.phase.Waiting? then t.phase == s.phase else t.phase.next.None? && !s.handled))
  {
  }

  /** The promise that at most one later request is read is exactly what keeps requests from being
      forgotten: the select does not stop reading once it has one (session.go:325-330). */
  lemma NoneForgottenIff(inputs: seq<Input>)
    ensures NoneForgotten(inputs) <==> LaterReads(inputs) <= 1
  {
    Reachable(inputs);
    LossesCount(inputs);
    var s := Run(Init, inputs);
    if s.lost != {} {
      var id :| id in s.lost;
      assert id < s.arrivals && id !in Answered(s) && !InHand(s, id);
    }
  }

  lemma IdsLast(r: seq<Reply>)
    requires r != []
    ensures Ids(r) == Ids(r[..|r| - 1]) + {r[|r| - 1].id}
  {
    var n := |r| - 1;
    forall i | 0 <= i < |r|
      ensures r[i].id in Ids(r[..n]) + {r[n].id}
    {
      if i < n {
        assert r[..n][i].id == r[i].id;
      }
    }
  }

  /** Increasing identifiers that cover an initial segment are that segment. */
  lemma {:induction false} Dense(r: seq<Reply>, n: nat)
    requires Increasing(r) && (forall i :: 0 <= i < |r| ==> r[i].id < n)
    requires forall id: nat :: id < n ==> id in Ids(r)
    ensures |r| == n && forall i :: 0 <= i < n ==> r[i].id == i
  {
    if n == 0 {
      assert |r| == 0;
    } else {
      assert n - 1 in Ids(r);
      assert r[|r| - 1].id == n - 1;
      IdsLast(r);
      Dense(r[..|r| - 1], n - 1);
    }
  }

  /** At the top of the loop, with at most one later request read, the replies are one for each
      request read, in the order of arrival (section 4 of RFC 4254). */
  lemma AllAnsweredInOrder(inputs: seq<Input>)
    requires Run(Init, inputs).phase.Running? && LaterReads(inputs) <= 1
    ensures var s := Run(Init, inputs);
      |s.replies| == s.arrivals && forall i :: 0 <= i < s.arrivals ==> s.replies[i].id == i
  {
    Reachable(inputs);
    LossesCount(inputs);
    var s := Run(Init, inputs);
    forall id: nat | id < s.arrivals
      ensures id in Ids(s.replies)
    {
      assert id in Answered(s) || id in s.lost || InHand(s, id);
    }
    Dense(s.replies, s.arrivals);
  }

  const DEFERRED_SUBSYSTEM: Request := Request(Subsystem, true, NoCallback, Deferred, true, false, true)
  const UNKNOWN_REQUEST: Request := Request(Other, true, NoCallback, NoHandler, true, false, true)

  lemma RunAppend(s: State, inputs: seq<Input>, i: Input)
    ensures Run(s, inputs + [i]) == Step(Run(s, inputs), i)
  {
    assert (inputs + [i])[..|inputs|] == inputs;
  }

  const PENDING: State := State(false, false, 0, 0, false, false, Running, 1, [], 0, {}).Start(0, DEFERRED_SUBSYSTEM)

  lemma StartsPending()
    ensures Run(Init, [Req(DEFERRED_SUBSYSTEM)]) == PENDING
  {
    RunAppend(Init, [], Req(DEFERRED_SUBSYSTEM));
    assert [] + [Req(DEFERRED_SUBSYSTEM)] == [Req(DEFERRED_SUBSYSTEM)];
    assert Init.CountArrival() == State(false, false, 0, 0, false, false, Running, 1, [], 0, {});
  }

  lemma TwoReadWhilePending()
    ensures Run(Init, [Req(DEFERRED_SUBSYSTEM), Req(UNKNOWN_REQUEST), Req(UNKNOWN_REQUEST)])
      == PENDING.ReadLater(UNKNOWN_REQUEST).ReadLater(UNKNOWN_REQUEST)
  {
    var d, u := Req(DEFERRED_SUBSYSTEM), Req(UNKNOWN_REQUEST);
    assert [d, u] == [d] + [u] && [d, u, u] == [d, u] + [u];
    StartsPending();
    RunAppend(Init, [d], u);
    RunAppend(Init, [d, u], u);
  }

  /** The losing trace: two requests read while the decision is pending; the first of them is never
      answered, although the session goes on. */
  lemma TwoLaterRequestsLoseOne()
    ensures var s := Run(Init, [Req(DEFERRED_SUBSYSTEM), Req(UNKNOWN_REQUEST), Req(UNKNOWN_REQUEST), Decide(Accept(true))]);
      && s.phase == Running && s.arrivals == 3 && s.lost == {1}
      && s.replies == [Reply(0, true, true), Reply(2, false, false)]
  {
    var d, u, yes := Req(DEFERRED_SUBSYSTEM), Req(UNKNOWN_REQUEST), Decide(Accept(true));
    assert [d, u, u, yes] == [d, u, u] + [yes];
    TwoReadWhilePending();
    RunAppend(Init, [d, u, u], yes);
    var t := Run(Init, [d, u, u]).Proceed();
    assert t.replies == [Reply(0, true, true)];
    assert Run(Init, [d, u, u, yes]) == t.ProcessOther(2, UNKNOWN_REQUEST) == t.Answer(2, false, false);
  }
}
