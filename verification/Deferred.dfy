/** The deferred subsystem decision: a handler that has been started before its request was
    answered decides later, in a race with its own return, a timer, the end of the session's
    context and the closing of the channel (session.go:231-346, 396-399). */
module Deferred {
  import opened Prelude

  // ---------------------------------------------------------------- the response object

  /** deferredState: 0 lets Exit through, 1 is pending, 2 rejected. */
  const OPEN: nat := 0
  const PENDING: nat := 1
  const REJECTED: nat := 2

  /** The response under its lock, with the session's deferredState. `panicked` records that the
      done channel was closed twice. */
  datatype Decision = Decision(
    answered: bool, accepted: bool, failed: bool, state: nat, done: bool, panicked: bool)
  {
    function CloseDone(): Decision {
      this.(done := true, panicked := panicked || done)
    }

    /** The part of reply before the write; without one if the context has ended. */
    function Begin(accept: bool, contextEnded: bool): Decision {
      if answered then this
      else if contextEnded then this.(answered := true, state := REJECTED).CloseDone()
      else this.(answered := true, accepted := accept, state := if accept then state else REJECTED)
    }

    predicate Writes(contextEnded: bool) {
      !answered && !contextEnded
    }

    function End(ok: bool): Decision {
      this.(failed := !ok, state := if !ok then REJECTED else if accepted then OPEN else state).CloseDone()
    }

    function Abandon(): Decision {
      if answered then this else this.(answered := true, state := REJECTED).CloseDone()
    }
  }

  const Undecided: Decision := Decision(false, false, false, PENDING, false, false)

  class DeferredSubsystemResponse {
    var answered: bool
    var accepted: bool
    var failed: bool
    var state: nat
    var done: bool
    var panicked: bool

    function View(): Decision
      reads this
    {
      Decision(answered, accepted, failed, state, done, panicked)
    }

    constructor ()
      ensures View() == Undecided
    {
      answered, accepted, failed, state, done, panicked := false, false, false, PENDING, false, false;
    }

    method CloseDone()
      modifies this`done, this`panicked
      ensures View() == old(View()).CloseDone()
    {
      if done {
        panicked := true;
      }
      done := true;
    }

    /** `write` says whether the caller goes on to write the reply, still holding the lock. */
    method Begin(accept: bool, contextEnded: bool) returns (write: bool)
      modifies this
      ensures View() == old(View()).Begin(accept, contextEnded)
      ensures write == old(View()).Writes(contextEnded)
    {
      if answered {
        return false;
      }
      answered := true;
      if contextEnded {
        state := REJECTED;
        CloseDone();
        return false;
      }
      if !accept {
        state := REJECTED;
      }
      accepted := accept;
      return true;
    }

    method End(ok: bool)
      modifies this
      ensures View() == old(View()).End(ok)
    {
      failed := !ok;
      if !ok {
        state := REJECTED;
      } else if accepted {
        state := OPEN;
      }
      CloseDone();
    }

    method Abandon()
      modifies this
      ensures View() == old(View()).Abandon()
    {
      if !answered {
        answered := true;
        state := REJECTED;
        CloseDone();
      }
    }
  }

  // ---------------------------------------------------------------- the race

  datatype Message = SubsystemReply(accepted: bool) | ExitStatus(call: nat)

  /** waitDeferredSubsystem; `held` is a handler result it has taken and has to put back. */
  datatype Loop =
    | Selecting
    | Rejecting(held: Option<nat>)
    | InReply(held: Option<nat>)
    | PuttingBack(value: nat)
    | Abandoning
    | Reading
    | Proceeded
    | GaveUp

  /** The goroutine started for the accepted subsystem, which reports the handler's result. */
  datatype Runner = NotStarted | Receiving | Got(value: nat)

  /** `writing` says that a reply call holds the lock and writes; `returned` is the buffered channel
      of that name; `result` is what the handler returned; `exits` are the Exit calls past their
      first check, `calls` all that were ever made. The check reads deferredState without a lock, so
      calls that passed it before the request arrived may still be under way: these are `early`. */
  datatype State = State(
    d: Decision,
    writing: bool,
    loop: Loop,
    runner: Runner,
    returned: Option<nat>,
    result: Option<nat>,
    contextEnded: bool,
    closed: bool,
    early: set<nat>,
    calls: set<nat>,
    exits: set<nat>,
    exited: bool,
    wire: seq<Message>)

  function Init(early: set<nat>): State {
    State(Undecided, false, Selecting, NotStarted, None, None, false, false, early, early, early, false, [])
  }

  datatype Event =
    | EndContext
    | CloseConnection
    | HandlerReturns(value: nat)
    | CallReply(accept: bool)
    | EndReply(ok: bool)
    | SeeDone
    | TakeReturned
    | TimerFires
    | SeeContextEnd
    | RequestsClosed
    | LaterRequest
    | LoopReply
    | PutBack
    | Abandon
    | Read
    | RunnerReceives
    | ExitCheck(call: nat)
    | ExitSend(call: nat)

  /** The program point is reached. Sends on `returned` wait while it is full; steps that need the
      lock wait for the writer. */
  predicate Ready(s: State, e: Event) {
    match e
    case HandlerReturns(_) => s.result.None?
    case PutBack => s.loop.PuttingBack?
    case _ => false
  }

  predicate Enabled(s: State, e: Event) {
    match e
    case EndContext => true
    case CloseConnection => true
    case HandlerReturns(_) => Ready(s, e) && s.returned.None?
    case CallReply(_) => !s.writing
    case EndReply(_) => s.writing
    case SeeDone => s.loop.Selecting? && s.d.done
    case TakeReturned => s.loop.Selecting? && s.returned.Some?
    case TimerFires => s.loop.Selecting?
    case SeeContextEnd => s.loop.Selecting? && s.contextEnded
    case RequestsClosed => s.loop.Selecting?
    case LaterRequest => s.loop.Selecting?
    case LoopReply => s.loop.Rejecting? && !s.writing
    case PutBack => Ready(s, e) && s.returned.None?
    case Abandon => s.loop.Abandoning? && !s.writing
    case Read => s.loop.Reading? && !s.writing
    case RunnerReceives => s.runner.Receiving? && s.returned.Some?
    case ExitCheck(x) => x !in s.calls
    case ExitSend(x) => x in s.exits
  }

  function Back(held: Option<nat>): Loop {
    if held.Some? then PuttingBack(held.value) else Reading
  }

  function BeginStep(s: State, accept: bool): State {
    s.(d := s.d.Begin(accept, s.contextEnded), writing := s.d.Writes(s.contextEnded))
  }

  function EndStep(s: State, ok: bool): State {
    s.(d := s.d.End(ok), writing := false,
       wire := if ok then s.wire + [SubsystemReply(s.d.accepted)] else s.wire,
       closed := s.closed || !ok,
       loop := if s.loop.InReply? then Back(s.loop.held) else s.loop)
  }

  function LoopReplyStep(s: State): State
    requires s.loop.Rejecting?
  {
    BeginStep(s, false).(loop := if s.d.Writes(s.contextEnded) then InReply(s.loop.held) else Back(s.loop.held))
  }

  /** Only the first Exit call to get here sends a status (session.go:412-420). */
  function ExitSendStep(s: State, x: nat): State {
    s.(exits := s.exits - {x}, exited := true, wire := if s.exited then s.wire else s.wire + [ExitStatus(x)])
  }

  function ReadStep(s: State): State {
    if !s.d.answered then s.(loop := Selecting)
    else if !s.d.accepted || s.d.failed then s.(loop := GaveUp, contextEnded := true)
    else s.(loop := Proceeded, runner := Receiving)
  }

  function Step(s: State, e: Event): State
    requires Enabled(s, e)
  {
    match e
    case EndContext => s.(contextEnded := true)
    case CloseConnection => s.(closed := true)
    case HandlerReturns(v) => s.(result := Some(v), returned := Some(v))
    case CallReply(accept) => BeginStep(s, accept)
    case EndReply(ok) => EndStep(s, ok)
    case SeeDone => s.(loop := Reading)
    case TakeReturned => s.(loop := Rejecting(s.returned), returned := None)
    case TimerFires => s.(loop := Rejecting(None))
    case SeeContextEnd => s.(loop := Abandoning)
    case RequestsClosed => s.(loop := Abandoning)
    case LaterRequest => s.(loop := Reading)
    case LoopReply => LoopReplyStep(s)
    case PutBack => s.(returned := Some(s.loop.value), loop := Reading)
    case Abandon => s.(d := s.d.Abandon(), loop := Reading)
    case Read => ReadStep(s)
    case RunnerReceives => s.(runner := Got(s.returned.value), returned := None)
    case ExitCheck(x) => s.(calls := s.calls + {x}, exits := if s.d.state == OPEN then s.exits + {x} else s.exits)
    case ExitSend(x) => ExitSendStep(s, x)
  }

  function Run(s: State, es: seq<Event>): State {
    if es == [] then s
    else
      var t := Run(s, es[..|es| - 1]);
      if Enabled(t, es[|es| - 1]) then Step(t, es[|es| - 1]) else t
  }

  // ---------------------------------------------------------------- outcomes

  /** The answers to the subsystem request among the messages sent. */
  function Answers(w: seq<Message>): seq<bool> {
    if w == [] then []
    else Answers(w[..|w| - 1]) + if w[|w| - 1].SubsystemReply? then [w[|w| - 1].accepted] else []
  }

  predicate Accepted(s: State) {
    Answers(s.wire) == [true] && s.d.state == OPEN
  }

  predicate Rejected(s: State) {
    Answers(s.wire) == [false] && s.d.state == REJECTED
  }

  predicate Abandoned(s: State) {
    Answers(s.wire) == [] && !s.d.failed && s.d.state == REJECTED
  }

  predicate Broken(s: State) {
    Answers(s.wire) == [] && s.d.failed && s.closed && s.d.state == REJECTED
  }

  predicate AcceptedBefore(w: seq<Message>, i: nat)
    requires i <= |w|
  {
    exists j :: 0 <= j < i && w[j] == SubsystemReply(true)
  }

  // ---------------------------------------------------------------- the invariant

  ghost predicate DecisionInv(s: State) {
    && !s.d.panicked
    && (s.writing ==> s.d.answered && !s.d.done && !s.d.failed)
    && (s.writing ==> Answers(s.wire) == [] && s.d.state == if s.d.accepted then PENDING else REJECTED)
    && (!s.d.answered ==> s.d == Undecided && Answers(s.wire) == [])
    && (s.d.answered <==> s.d.done || s.writing)
    && (s.d.done && s.d.accepted ==> if s.d.failed then Broken(s) else Accepted(s))
    && (s.d.done && !s.d.accepted ==> if s.d.failed then Broken(s) else Rejected(s) || Abandoned(s))
  }

  /** An Exit call under way is early, or the subsystem has been accepted; so is every status. */
  ghost predicate ExitInv(s: State) {
    && (forall x :: x in s.exits ==> x in s.early || s.d.state == OPEN)
    && (forall i :: 0 <= i < |s.wire| && s.wire[i].ExitStatus? ==>
          s.exited && (s.wire[i].call in s.early || AcceptedBefore(s.wire, i)))
    && (forall i, j :: 0 <= i < j < |s.wire| && s.wire[i].ExitStatus? ==> !s.wire[j].ExitStatus?)
  }

  ghost predicate LoopInv(s: State) {
    && (s.loop.InReply? ==> s.writing && !s.d.accepted)
    && (s.loop.Proceeded? ==> s.d.done && s.d.accepted && !s.d.failed)
    && (s.loop.GaveUp? ==> s.d.done && (!s.d.accepted || s.d.failed))
    && (s.runner.NotStarted? <==> !s.loop.Proceeded?)
  }

  /** A result the loop has taken from the channel. */
  function Held(l: Loop): Option<nat> {
    if l.Rejecting? || l.InReply? then l.held else if l.PuttingBack? then Some(l.value) else None
  }

  /** The handler's result is in exactly one place: the channel, the loop's hands, or the runner. */
  ghost predicate ResultInv(s: State) {
    && (s.returned.Some? ==> Held(s.loop).None? && !s.runner.Got? && s.returned == s.result)
    && (Held(s.loop).Some? ==> s.returned.None? && !s.runner.Got? && Held(s.loop) == s.result)
    && (s.runner.Got? ==> s.returned.None? && Held(s.loop).None? && Some(s.runner.value) == s.result)
    && (s.result.Some? ==> s.returned.Some? || Held(s.loop).Some? || s.runner.Got?)
  }

  ghost predicate Inv(s: State) {
    DecisionInv(s) && LoopInv(s) && ResultInv(s) && ExitInv(s)
  }

  lemma AnswersAppend(w: seq<Message>, m: Message)
    ensures Answers(w + [m]) == Answers(w) + if m.SubsystemReply? then [m.accepted] else []
  {
    assert (w + [m])[..|w|] == w;
  }

  lemma {:induction false} AnswersAccepted(w: seq<Message>)
    ensures true in Answers(w) <==> AcceptedBefore(w, |w|)
  {
    if w != [] {
      var n := |w| - 1;
      AnswersAccepted(w[..n]);
      assert AcceptedBefore(w[..n], n) <==> exists j :: 0 <= j < n && w[j] == SubsystemReply(true) by {
        assert forall j :: 0 <= j < n ==> w[..n][j] == w[j];
      }
      if w[n] == SubsystemReply(true) {
        assert Answers(w)[|Answers(w[..n])|];
      }
    }
  }

  lemma EndKeeps(s: State, ok: bool)
    requires DecisionInv(s) && s.writing
    ensures DecisionInv(EndStep(s, ok))
  {
    AnswersAppend(s.wire, SubsystemReply(s.d.accepted));
  }

  lemma ExitSendKeeps(s: State, x: nat)
    requires DecisionInv(s)
    ensures DecisionInv(ExitSendStep(s, x))
  {
    AnswersAppend(s.wire, ExitStatus(x));
  }

  lemma DecisionStep(s: State, e: Event)
    requires DecisionInv(s) && LoopInv(s) && Enabled(s, e)
    ensures DecisionInv(Step(s, e))
  {
    if e.EndReply? {
      EndKeeps(s, e.ok);
    } else if e.ExitSend? {
      ExitSendKeeps(s, e.call);
    }
  }

  /** A status goes out from an early call, or after the acceptance. */
  lemma StatusKeeps(s: State, x: nat)
    requires DecisionInv(s) && ExitInv(s) && x in s.exits
    ensures ExitInv(ExitSendStep(s, x))
  {
    var t := ExitSendStep(s, x);
    if !s.exited {
      if x !in s.early {
        assert Accepted(s) && true in Answers(s.wire);
        AnswersAccepted(s.wire);
      }
      AppendKeepsOrder(s, t, ExitStatus(x));
    }
  }

  lemma AppendKeepsOrder(s: State, t: State, m: Message)
    requires ExitInv(s) && t.wire == s.wire + [m] && t.early == s.early && t.exits <= s.exits
    requires t.d.state == s.d.state || s.d.state != OPEN
    requires s.exited ==> t.exited
    requires m.ExitStatus? ==> !s.exited && t.exited && (m.call in s.early || AcceptedBefore(s.wire, |s.wire|))
    ensures ExitInv(t)
  {
    forall i | 0 <= i < |t.wire| && t.wire[i].ExitStatus?
      ensures t.exited && (t.wire[i].call in t.early || AcceptedBefore(t.wire, i))
    {
      if t.wire[i].call !in t.early {
        var j :| 0 <= j < i && s.wire[j] == SubsystemReply(true);
        assert t.wire[j] == s.wire[j];
      }
    }
  }

  lemma ExitStep(s: State, e: Event)
    requires DecisionInv(s) && ExitInv(s) && Enabled(s, e)
    ensures ExitInv(Step(s, e))
  {
    if e.ExitSend? {
      StatusKeeps(s, e.call);
    } else if e.EndReply? && e.ok {
      AppendKeepsOrder(s, EndStep(s, true), SubsystemReply(s.d.accepted));
    } else {
      assert Step(s, e).wire == s.wire;
    }
  }

  lemma LoopStep(s: State, e: Event)
    requires DecisionInv(s) && LoopInv(s) && Enabled(s, e)
    ensures LoopInv(Step(s, e))
  {
  }

  lemma ResultStep(s: State, e: Event)
    requires LoopInv(s) && ResultInv(s) && Enabled(s, e)
    ensures ResultInv(Step(s, e))
  {
  }

  lemma {:induction false} RunKeepsInv(s: State, es: seq<Event>)
    requires Inv(s)
    ensures Inv(Run(s, es))
  {
    if es != [] {
      var t, e := Run(s, es[..|es| - 1]), es[|es| - 1];
      RunKeepsInv(s, es[..|es| - 1]);
      if Enabled(t, e) {
        DecisionStep(t, e);
        LoopStep(t, e);
        ResultStep(t, e);
        ExitStep(t, e);
      }
    }
  }

  lemma Reachable(early: set<nat>, es: seq<Event>)
    ensures Inv(Run(Init(early), es)) && Run(Init(early), es).early == early
  {
    RunKeepsInv(Init(early), es);
    EarlyStays(Init(early), es);
  }

  lemma {:induction false} EarlyStays(s: State, es: seq<Event>)
    ensures Run(s, es).early == s.early
  {
    if es != [] {
      EarlyStays(s, es[..|es| - 1]);
    }
  }

  // ---------------------------------------------------------------- what every race ends in

  /** Once decided, the request has been accepted, rejected, abandoned, or its reply failed and the
      connection is closed; never two of these, whoever won the race; and done was closed once. */
  lemma ExactlyOneOutcome(early: set<nat>, es: seq<Event>)
    ensures var s := Run(Init(early), es);
      && !s.d.panicked
      && (!s.d.done ==> Answers(s.wire) == [])
      && (s.d.done ==> One(Accepted(s)) + One(Rejected(s)) + One(Abandoned(s)) + One(Broken(s)) == 1)
  {
    Reachable(early, es);
  }

  /** waitDeferredSubsystem returns what was decided: it proceeds exactly with an acceptance the
      client has been sent. */
  lemma LoopFollowsOutcome(early: set<nat>, es: seq<Event>)
    ensures var s := Run(Init(early), es);
      && (s.loop.Proceeded? ==> Accepted(s))
      && (s.loop.GaveUp? ==> Rejected(s) || Abandoned(s) || Broken(s))
      && (!s.runner.NotStarted? <==> s.loop.Proceeded?)
  {
    Reachable(early, es);
  }

  lemma FinalStep(s: State, e: Event)
    requires DecisionInv(s) && s.d.done && Enabled(s, e)
    ensures Step(s, e).d == s.d && s.wire <= Step(s, e).wire
  {
  }

  /** A decision is never revised. */
  lemma {:induction false} DecisionIsFinal(s: State, es: seq<Event>)
    requires Inv(s) && s.d.done
    ensures var t := Run(s, es); Inv(t) && t.d == s.d && s.wire <= t.wire
  {
    if es != [] {
      var t, e := Run(s, es[..|es| - 1]), es[|es| - 1];
      DecisionIsFinal(s, es[..|es| - 1]);
      RunKeepsInv(s, es);
      if Enabled(t, e) {
        FinalStep(t, e);
      }
    }
  }

  /** What the handler returned is in exactly one place at any time; no send of it ever blocks, and
      only the goroutine of an accepted subsystem consumes it. */
  lemma ResultNeverLostNorDoubled(early: set<nat>, es: seq<Event>, e: Event)
    ensures var s := Run(Init(early), es);
      && One(s.returned.Some?) + One(Held(s.loop).Some?) + One(s.runner.Got?) == One(s.result.Some?)
      && (s.runner.Got? ==> Some(s.runner.value) == s.result && Accepted(s))
      && (Ready(s, e) ==> Enabled(s, e))
  {
    Reachable(early, es);
  }

  // ---------------------------------------------------------------- the exit status

  /** Each exit status comes after the acceptance. */
  ghost predicate AcceptanceFirst(w: seq<Message>) {
    forall i :: 0 <= i < |w| && w[i].ExitStatus? ==> AcceptedBefore(w, i)
  }

  /** At most one exit status is sent, and one that no acceptance precedes comes from a call that
      had passed its check before the request arrived. */
  lemma EarlyCallsAloneOvertake(early: set<nat>, es: seq<Event>, i: nat)
    requires i < |Run(Init(early), es).wire| && Run(Init(early), es).wire[i].ExitStatus?
    ensures var w := Run(Init(early), es).wire;
      && (AcceptedBefore(w, i) || w[i].call in early)
      && (forall j :: 0 <= j < |w| && w[j].ExitStatus? ==> j == i)
  {
    Reachable(early, es);
    var w := Run(Init(early), es).wire;
    assert forall a, b :: 0 <= a < b < |w| && w[a].ExitStatus? ==> !w[b].ExitStatus?;
  }

  /** In all runs the acceptance precedes the status if and only if there is no early call. */
  ghost predicate AlwaysAcceptanceFirst(early: set<nat>) {
    forall es: seq<Event> :: AcceptanceFirst(Run(Init(early), es).wire)
  }

  lemma AcceptanceBeforeExitStatusIff(early: set<nat>)
    ensures AlwaysAcceptanceFirst(early) <==> early == {}
  {
    if early == {} {
      forall es: seq<Event>
        ensures AcceptanceFirst(Run(Init(early), es).wire)
      {
        Reachable(early, es);
      }
    } else {
      var x :| x in early;
      StatusOvertakes(early, x);
      var w := Run(Init(early), [ExitSend(x), CallReply(true), EndReply(true)]).wire;
      assert w[0].ExitStatus? && !AcceptedBefore(w, 0);
    }
  }

  lemma RunAppend(s: State, es: seq<Event>, e: Event)
    requires Enabled(Run(s, es), e)
    ensures Run(s, es + [e]) == Step(Run(s, es), e)
  {
    assert (es + [e])[..|es|] == es;
  }

  /** The witness: an early Exit call sends its status, and then the subsystem is accepted. */
  lemma StatusOvertakes(early: set<nat>, x: nat)
    requires x in early
    ensures Run(Init(early), [ExitSend(x), CallReply(true), EndReply(true)]).wire == [ExitStatus(x), SubsystemReply(true)]
  {
    var s := Init(early);
    RunAppend(s, [], ExitSend(x));
    assert [] + [ExitSend(x)] == [ExitSend(x)];
    RunAppend(s, [ExitSend(x)], CallReply(true));
    assert [ExitSend(x)] + [CallReply(true)] == [ExitSend(x), CallReply(true)];
    RunAppend(s, [ExitSend(x), CallReply(true)], EndReply(true));
    assert [ExitSend(x), CallReply(true)] + [EndReply(true)] == [ExitSend(x), CallReply(true), EndReply(true)];
  }
}
