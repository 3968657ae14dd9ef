/** The outcome of a deferred subsystem request is that of the call that came first: the handler's, the
    loop's on a timeout or an early return, or an abandonment (session.go:241-346, 396-420). */
module DeferredOutcomes {
  import opened Prelude
  import opened Deferred

  /** What the first call to decide wanted: an answer, one that came after the end of the context, or
      none. */
  datatype First = Wants(accept: bool) | TooLate | Dropped

  /** What the loop has to do after what it has selected. */
  datatype Owed = Nothing | ARejection | AnAbandonment

  /** Read off the events alone. `admitted` are the Exit calls let through, `sent` those that have come
      to send a status, `sender` the first of them. */
  datatype History = History(
    first: Option<First>,
    written: Option<bool>,
    contextEnded: bool,
    closed: bool,
    result: Option<nat>,
    owed: Owed,
    admitted: set<nat>,
    sent: set<nat>,
    sender: Option<nat>)
  {
    function Reply(accept: bool): History {
      if first.Some? then this
      else this.(first := Some(if contextEnded then TooLate else Wants(accept)))
    }

    predicate Open() {
      first == Some(Wants(true)) && written == Some(true)
    }

    function After(e: Event): History {
      match e
      case EndContext => this.(contextEnded := true)
      case CloseConnection => this.(closed := true)
      case HandlerReturns(v) => this.(result := Some(v))
      case CallReply(accept) => Reply(accept)
      case EndReply(ok) => this.(written := Some(ok), closed := closed || !ok)
      case TakeReturned => this.(owed := ARejection)
      case TimerFires => this.(owed := ARejection)
      case SeeContextEnd => this.(owed := AnAbandonment)
      case RequestsClosed => this.(owed := AnAbandonment)
      case LoopReply => Reply(false).(owed := Nothing)
      case Abandon => this.(owed := Nothing, first := if first.None? then Some(Dropped) else first)
      case ExitCheck(x) => if Open() then this.(admitted := admitted + {x}) else this
      case ExitSend(x) => this.(sent := sent + {x}, sender := if sender.None? then Some(x) else sender)
      case _ => this
    }
  }

  /** What happened in a run; events that were not enabled did not happen. */
  function Happened(early: set<nat>, es: seq<Event>): History {
    if es == [] then History(None, None, false, false, None, Nothing, early, {}, None)
    else
      var init, e := es[..|es| - 1], es[|es| - 1];
      if Enabled(Run(Init(early), init), e) then Happened(early, init).After(e) else Happened(early, init)
  }

  // ---------------------------------------------------------------- the invariant

  /** The decision, the answers sent and the connection, as the first call and its write have left them. */
  predicate OutcomeOf(
      d: Decision, answers: seq<bool>, closed: bool, writing: bool, first: Option<First>, written: Option<bool>) {
    if first.None? then d == Undecided && answers == [] && !writing && written.None?
    else if first.value.Wants? then
      && d.answered && d.accepted == first.value.accept && (writing <==> written.None?) && (d.done <==> !writing)
      && (if written.None? then
            answers == [] && !d.failed && d.state == (if first.value.accept then PENDING else REJECTED)
          else if written.value then
            answers == [first.value.accept] && !d.failed && d.state == (if first.value.accept then OPEN else REJECTED)
          else answers == [] && d.failed && closed && d.state == REJECTED)
    else
      d.answered && d.done && !d.failed && d.state == REJECTED && answers == [] && !writing && written.None?
  }

  ghost predicate Outcome(s: State, h: History) {
    && OutcomeOf(s.d, Answers(s.wire), s.closed, s.writing, h.first, h.written)
    && (h.first.None? ==> s.contextEnded == h.contextEnded)
    && (s.closed <==> h.closed)
    && s.result == h.result
  }

  predicate LoopOwes(s: State, h: History) {
    && (s.loop.Rejecting? <==> h.owed.ARejection?)
    && (s.loop.Abandoning? <==> h.owed.AnAbandonment?)
  }

  ghost predicate Exits(s: State, h: History) {
    && s.exits == h.admitted - h.sent && h.sent <= h.admitted && h.admitted <= s.calls
    && s.exited == h.sender.Some?
    && StatusSent(s.wire, h.sender)
  }

  lemma OutcomeFrame(s: State, t: State, h: History, k: History)
    requires Outcome(s, h) && t.d == s.d && t.writing == s.writing && Answers(t.wire) == Answers(s.wire)
    requires k.first == h.first && k.written == h.written
    requires t.closed == k.closed && (s.closed ==> t.closed) && t.result == k.result
    requires h.first.None? ==> t.contextEnded == k.contextEnded
    ensures Outcome(t, k)
  {
  }

  lemma BeginOutcome(s: State, h: History, accept: bool)
    requires Outcome(s, h) && DecisionInv(s) && !s.writing
    ensures Outcome(BeginStep(s, accept), h.Reply(accept))
  {
  }

  lemma LoopReplyOutcome(s: State, h: History)
    requires Outcome(s, h) && DecisionInv(s) && s.loop.Rejecting? && !s.writing
    ensures Outcome(LoopReplyStep(s), h.After(LoopReply))
  {
    BeginOutcome(s, h, false);
    OutcomeFrame(BeginStep(s, false), LoopReplyStep(s), h.Reply(false), h.After(LoopReply));
  }

  lemma EndOf(d: Decision, ok: bool, closed: bool, first: Option<First>)
    requires OutcomeOf(d, [], closed, true, first, None)
    ensures OutcomeOf(d.End(ok), if ok then [d.accepted] else [], closed || !ok, false, first, Some(ok))
  {
  }

  lemma EndAnswers(s: State, ok: bool)
    requires Answers(s.wire) == []
    ensures Answers(EndStep(s, ok).wire) == if ok then [s.d.accepted] else []
  {
    AnswersAppend(s.wire, SubsystemReply(s.d.accepted));
  }

  lemma EndOutcome(s: State, h: History, ok: bool)
    requires Outcome(s, h) && s.writing
    ensures Outcome(EndStep(s, ok), h.After(EndReply(ok)))
  {
    EndAnswers(s, ok);
    EndOf(s.d, ok, s.closed, h.first);
  }

  lemma AbandonOutcome(s: State, h: History)
    requires Outcome(s, h) && DecisionInv(s) && !s.writing
    ensures Outcome(s.(d := s.d.Abandon(), loop := Reading), h.After(Abandon))
  {
  }

  lemma ReadOutcome(s: State, h: History)
    requires Outcome(s, h) && s.loop.Reading?
    ensures Outcome(ReadStep(s), h)
  {
    OutcomeFrame(s, ReadStep(s), h, h);
  }

  /** A status is no answer. */
  lemma StatusAnswers(w: seq<Message>, x: nat)
    ensures Answers(w + [ExitStatus(x)]) == Answers(w)
  {
    assert (w + [ExitStatus(x)])[..|w|] == w;
  }

  lemma SendLeaves(s: State, h: History, x: nat)
    ensures var t, k := ExitSendStep(s, x), h.After(ExitSend(x));
      && Answers(t.wire) == Answers(s.wire)
      && t.d == s.d && t.writing == s.writing && t.closed == s.closed && t.result == s.result
      && t.contextEnded == s.contextEnded
      && k.first == h.first && k.written == h.written && k.closed == h.closed && k.result == h.result
      && k.contextEnded == h.contextEnded
  {
    StatusAnswers(s.wire, x);
  }

  lemma SendOutcome(s: State, t: State, h: History, k: History, x: nat)
    requires Outcome(s, h) && t == ExitSendStep(s, x) && k == h.After(ExitSend(x))
    ensures Outcome(t, k)
  {
    SendLeaves(s, h, x);
    OutcomeFrame(s, t, h, k);
  }

  lemma OtherOutcome(s: State, h: History, e: Event)
    requires Outcome(s, h) && Enabled(s, e)
    requires !e.CallReply? && !e.LoopReply? && !e.EndReply? && !e.Abandon? && !e.Read? && !e.ExitSend?
    ensures Outcome(Step(s, e), h.After(e))
  {
    OutcomeFrame(s, Step(s, e), h, h.After(e));
  }

  lemma OutcomeStep(s: State, h: History, e: Event)
    requires Outcome(s, h) && DecisionInv(s) && Enabled(s, e)
    ensures Outcome(Step(s, e), h.After(e))
  {
    if e.CallReply? {
      BeginOutcome(s, h, e.accept);
    } else if e.LoopReply? {
      LoopReplyOutcome(s, h);
    } else if e.EndReply? {
      EndOutcome(s, h, e.ok);
    } else if e.Abandon? {
      AbandonOutcome(s, h);
    } else if e.Read? {
      ReadOutcome(s, h);
    } else if e.ExitSend? {
      SendOutcome(s, Step(s, e), h, h.After(e), e.call);
    } else {
      OtherOutcome(s, h, e);
    }
  }

  lemma OwesStep(s: State, h: History, e: Event)
    requires LoopOwes(s, h) && Enabled(s, e)
    ensures LoopOwes(Step(s, e), h.After(e))
  {
  }

  ghost predicate StatusSent(w: seq<Message>, sender: Option<nat>) {
    && (forall i :: 0 <= i < |w| && w[i].ExitStatus? ==> sender == Some(w[i].call))
    && (sender.Some? ==> exists i :: 0 <= i < |w| && w[i] == ExitStatus(sender.value))
  }

  lemma ReplyKeepsStatus(w: seq<Message>, m: Message, sender: Option<nat>)
    requires StatusSent(w, sender) && m.SubsystemReply?
    ensures StatusSent(w + [m], sender)
  {
    if sender.Some? {
      var i :| 0 <= i < |w| && w[i] == ExitStatus(sender.value);
      assert (w + [m])[i] == w[i];
    }
  }

  lemma FirstStatus(w: seq<Message>, x: nat)
    requires StatusSent(w, None)
    ensures StatusSent(w + [ExitStatus(x)], Some(x))
  {
    assert (w + [ExitStatus(x)])[|w|] == ExitStatus(x);
  }

  lemma ReplyKeepsExits(s: State, h: History, ok: bool)
    requires Exits(s, h) && s.writing
    ensures Exits(EndStep(s, ok), h.After(EndReply(ok)))
  {
    ReplyKeepsStatus(s.wire, SubsystemReply(s.d.accepted), h.sender);
  }

  lemma SendKeepsExits(s: State, h: History, x: nat)
    requires Exits(s, h) && x in s.exits
    ensures Exits(ExitSendStep(s, x), h.After(ExitSend(x)))
  {
    if !s.exited {
      FirstStatus(s.wire, x);
    }
  }

  lemma OpenExactly(s: State, h: History)
    requires Outcome(s, h) && DecisionInv(s)
    ensures s.d.state == OPEN <==> h.Open()
  {
    if h.Open() {
      assert s.d.state == OPEN;
    }
    if s.d.state == OPEN {
      assert h.written.Some?;
      assert h.written.value;
    }
  }

  lemma CheckKeepsExits(s: State, h: History, x: nat)
    requires Outcome(s, h) && Exits(s, h) && DecisionInv(s) && Enabled(s, ExitCheck(x))
    ensures Exits(Step(s, ExitCheck(x)), h.After(ExitCheck(x)))
  {
    OpenExactly(s, h);
  }

  lemma ExitsStep(s: State, h: History, e: Event)
    requires Outcome(s, h) && Exits(s, h) && DecisionInv(s) && Enabled(s, e)
    ensures Exits(Step(s, e), h.After(e))
  {
    if e.EndReply? {
      ReplyKeepsExits(s, h, e.ok);
    } else if e.ExitSend? {
      SendKeepsExits(s, h, e.call);
    } else if e.ExitCheck? {
      CheckKeepsExits(s, h, e.call);
    } else {
      OtherKeepsExits(s, h, e);
    }
  }

  lemma OtherKeepsExits(s: State, h: History, e: Event)
    requires Exits(s, h) && Enabled(s, e) && !e.EndReply? && !e.ExitSend? && !e.ExitCheck?
    ensures Exits(Step(s, e), h.After(e))
  {
    var t, k := Step(s, e), h.After(e);
    assert t.wire == s.wire && t.exits == s.exits && t.calls == s.calls && t.exited == s.exited;
    assert k.admitted == h.admitted && k.sent == h.sent && k.sender == h.sender;
  }

  lemma {:induction false} RunFollows(early: set<nat>, es: seq<Event>)
    ensures var s, h := Run(Init(early), es), Happened(early, es);
      Outcome(s, h) && LoopOwes(s, h) && Exits(s, h)
  {
    if es != [] {
      var init, e := es[..|es| - 1], es[|es| - 1];
      var s, h := Run(Init(early), init), Happened(early, init);
      RunFollows(early, init);
      Reachable(early, init);
      if Enabled(s, e) {
        OutcomeStep(s, h, e);
        OwesStep(s, h, e);
        ExitsStep(s, h, e);
      }
    }
  }

  /** What the first call wanted, and how its answer went, tells the outcomes apart. */
  lemma OutcomesApart(s: State, h: History)
    requires Outcome(s, h)
    ensures s.d.done && Accepted(s) <==> h.first == Some(Wants(true)) && h.written == Some(true)
    ensures s.d.done && Rejected(s) <==> h.first == Some(Wants(false)) && h.written == Some(true)
    ensures s.d.done && Broken(s) <==> h.first.Some? && h.first.value.Wants? && h.written == Some(false)
    ensures s.d.done && Abandoned(s) <==> h.first == Some(TooLate) || h.first == Some(Dropped)
  {
    if h.first.Some? {
      assert h.first == Some(h.first.value);
      if h.first.value.Wants? && h.written.Some? {
        assert h.written == Some(h.written.value);
      }
    }
  }

  /** The request is accepted, rejected, broken or abandoned exactly as the first call to decide wanted
      and as the write of its answer went: a later call changes nothing, whoever makes it. */
  lemma OutcomeIsTheFirstCalls(early: set<nat>, es: seq<Event>)
    ensures var s, h := Run(Init(early), es), Happened(early, es);
      && (s.d.answered <==> h.first.Some?)
      && (h.written.Some? || h.first == Some(TooLate) || h.first == Some(Dropped) <==> s.d.done)
      && (s.d.done && Accepted(s) <==> h.first == Some(Wants(true)) && h.written == Some(true))
      && (s.d.done && Rejected(s) <==> h.first == Some(Wants(false)) && h.written == Some(true))
      && (s.d.done && Broken(s) <==> h.first.Some? && h.first.value.Wants? && h.written == Some(false))
      && (s.d.done && Abandoned(s) <==> h.first == Some(TooLate) || h.first == Some(Dropped))
      && (s.closed <==> h.closed)
  {
    RunFollows(early, es);
    OutcomesApart(Run(Init(early), es), Happened(early, es));
  }

  /** After a timeout or the handler's return the loop tries to reject, and after the end of the context
      or of the requests it abandons, before it looks at anything else. */
  lemma LoopDoesWhatItOwes(early: set<nat>, es: seq<Event>)
    ensures var s, h := Run(Init(early), es), Happened(early, es);
      && (s.loop.Rejecting? <==> h.owed == ARejection)
      && (s.loop.Abandoning? <==> h.owed == AnAbandonment)
      && s.result == h.result
  {
    RunFollows(early, es);
  }

  /** The Exit calls that may send a status are the early ones and those made after the acceptance was
      sent, and the status on the wire is that of the first of them to come through. */
  lemma ExitsLetThrough(early: set<nat>, es: seq<Event>)
    ensures var s, h := Run(Init(early), es), Happened(early, es);
      && s.exits == h.admitted - h.sent
      && (forall i :: 0 <= i < |s.wire| && s.wire[i].ExitStatus? ==> h.sender == Some(s.wire[i].call))
      && (h.sender.Some? ==> ExitStatus(h.sender.value) in s.wire)
  {
    RunFollows(early, es);
  }
}
