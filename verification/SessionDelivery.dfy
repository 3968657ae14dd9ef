/** What every run of the session protocol guarantees: signals are delivered once and in order,
    exits silence all deliveries, and the exit status is the last positive message. */
module SessionDelivery {
  import opened Prelude
  import opened SessionState
  import opened SessionProtocol
  import opened SessionStructure

  // ---------------------------------------------------------------- sequences

  lemma WithoutAppend(q: seq<Signal>, x: Signal, gone: set<Signal>)
    ensures Without(q + [x], gone) == Without(q, gone) + if x in gone then [] else [x]
  {
    assert (q + [x])[..|q|] == q;
  }

  lemma {:induction false} WithoutConcat(a: seq<Signal>, b: seq<Signal>, gone: set<Signal>)
    ensures Without(a + b, gone) == Without(a, gone) + Without(b, gone)
  {
    if b == [] {
      assert a + b == a;
    } else {
      var n := |b| - 1;
      assert a + b == a + b[..n] + [b[n]];
      WithoutConcat(a, b[..n], gone);
      WithoutAppend(a + b[..n], b[n], gone);
      Regroup(Without(a, gone), Without(b[..n], gone), [b[n]]);
    }
  }

  lemma {:induction false} WithoutTwice(q: seq<Signal>, g: set<Signal>, h: set<Signal>)
    ensures Without(q, g + h) == Without(Without(q, g), h)
  {
    if q != [] {
      var n := |q| - 1;
      WithoutTwice(q[..n], g, h);
      if q[n] !in g {
        WithoutAppend(Without(q[..n], g), q[n], h);
      }
    }
  }

  lemma {:induction false} WithoutNone(q: seq<Signal>, gone: set<Signal>)
    requires forall x :: x in q ==> x !in gone
    ensures Without(q, gone) == q
  {
    if q != [] {
      WithoutNone(q[..|q| - 1], gone);
    }
  }

  lemma {:induction false} WithoutAll(q: seq<Signal>, gone: set<Signal>)
    requires forall x :: x in q ==> x in gone
    ensures Without(q, gone) == []
  {
    if q != [] {
      WithoutAll(q[..|q| - 1], gone);
    }
  }

  lemma {:induction false} WithoutKeepsOrder(q: seq<Signal>, gone: set<Signal>)
    requires Ordered(q)
    ensures Ordered(Without(q, gone))
    ensures forall x :: x in Without(q, gone) <==> x in q && x !in gone
  {
    if q != [] {
      var n := |q| - 1;
      WithoutKeepsOrder(q[..n], gone);
      assert q == q[..n] + [q[n]];
      var init := Without(q[..n], gone);
      forall i | 0 <= i < |init|
        ensures init[i].arrival < q[n].arrival
      {
        assert init[i] in q[..n];
      }
    }
  }

  lemma OrderedApart(a: seq<Signal>, b: seq<Signal>)
    requires Ordered(a + b)
    ensures Ordered(a) && Ordered(b)
    ensures forall x :: x in a ==> x !in b
  {
    var q := a + b;
    forall i, j | 0 <= i < |a| && 0 <= j < |b|
      ensures a[i] != b[j]
    {
      assert q[i] == a[i] && q[|a| + j] == b[j];
    }
    forall i, j | 0 <= i < j < |a|
      ensures a[i].arrival < a[j].arrival
    {
      assert q[i] == a[i] && q[j] == a[j];
    }
    forall i, j | 0 <= i < j < |b|
      ensures b[i].arrival < b[j].arrival
    {
      assert q[|a| + i] == b[i] && q[|a| + j] == b[j];
    }
  }

  lemma MiddleApart(a: seq<Signal>, b: seq<Signal>, c: seq<Signal>)
    requires Ordered(a + b + c)
    ensures forall x :: x in a || x in c ==> x !in Elements(b)
  {
    OrderedApart(a + b, c);
    OrderedApart(a, b);
    forall x | x in b
      ensures x !in c
    {
      assert x in a + b;
    }
  }

  /** Losing exactly the middle of a sequence. */
  lemma WithoutMiddle(a: seq<Signal>, b: seq<Signal>, c: seq<Signal>, gone: set<Signal>)
    requires forall x :: x in a || x in c ==> x !in gone
    requires forall x :: x in b ==> x in gone
    ensures Without(a + b + c, gone) == a + c
  {
    assert Without(a + b, gone) == a by {
      WithoutAll(b, gone);
      WithoutNone(a, gone);
      WithoutConcat(a, b, gone);
      NothingAfter(a);
    }
    WithoutNone(c, gone);
    WithoutConcat(a + b, c, gone);
  }

  lemma NothingAfter(a: seq<Signal>)
    ensures a + [] == a
  {
  }

  /** Losing the middle of what is still to be delivered. */
  lemma LoseMiddle(accepted: seq<Signal>, lost: set<Signal>, a: seq<Signal>, b: seq<Signal>, c: seq<Signal>)
    requires Ordered(accepted) && lost <= Elements(accepted) && Without(accepted, lost) == a + b + c
    ensures lost + Elements(b) <= Elements(accepted) && Without(accepted, lost + Elements(b)) == a + c
  {
    WithoutTwice(accepted, lost, Elements(b));
    WithoutKeepsOrder(accepted, lost);
    MiddleApart(a, b, c);
    WithoutMiddle(a, b, c, Elements(b));
    forall x | x in b
      ensures x in accepted
    {
      assert x in a + b + c;
    }
  }

  lemma AnsweredAppend(w: seq<Wire>, m: Wire)
    ensures Answered(w + [m]) == Answered(w) + if m.SignalReply? && m.ok then [m.sig] else []
  {
    assert (w + [m])[..|w|] == w;
  }

  predicate Before(q: seq<Signal>, x: Signal) {
    forall y :: y in q ==> y.arrival < x.arrival
  }

  /** A newly accepted signal has a later arrival number than all before it. */
  lemma AcceptNext(q: seq<Signal>, lost: set<Signal>, x: Signal)
    requires Ordered(q) && lost <= Elements(q) && Before(q, x)
    ensures Ordered(q + [x]) && lost + {x} <= Elements(q + [x])
    ensures Without(q + [x], lost) == Without(q, lost) + [x]
    ensures Without(q + [x], lost + {x}) == Without(q, lost)
  {
    OrderedAppend(q, x);
    assert x !in lost;
    assert Elements(q + [x]) == Elements(q) + {x};
    WithoutAppend(q, x, lost);
    LoseLast(q, lost, x);
  }

  lemma OrderedAppend(q: seq<Signal>, x: Signal)
    requires Ordered(q) && Before(q, x)
    ensures Ordered(q + [x]) && x !in q
  {
    assert forall i :: 0 <= i < |q| ==> q[i] in q;
  }

  lemma LoseLast(q: seq<Signal>, lost: set<Signal>, x: Signal)
    requires Ordered(q) && x !in q
    ensures Without(q + [x], lost + {x}) == Without(q, lost)
  {
    WithoutAppend(q, x, lost + {x});
    WithoutTwice(q, lost, {x});
    WithoutKeepsOrder(q, lost);
    WithoutNone(Without(q, lost), {x});
  }

  // ---------------------------------------------------------------- what a group of steps leaves alone

  /** Arrivals, answers and deliveries, as far as they are recorded. */
  predicate SameRecord(s: State, t: State) {
    t.accepted == s.accepted && t.delivered == s.delivered && t.lost == s.lost && t.arrivals == s.arrivals
  }

  predicate SameSends(s: State, t: State) {
    t.sh.sigSends == s.sh.sigSends && t.sh.breakSends == s.sh.breakSends
  }

  lemma ConfigHistory(s: State, e: Event)
    requires Enabled(s, e) && ConfigEvent(e)
    ensures var t := Step(s, e);
      && SameRecord(s, t) && t.wire == s.wire && t.breaks == s.breaks && t.loop == s.loop
      && t.sh.sigBuf == s.sh.sigBuf && t.sh.exited == s.sh.exited
      && SameSends(s, t)
      && (e.ConfigRegister? || (t.exits == s.exits && t.drains == s.drains && t.sh.sigDrainDone == s.sh.sigDrainDone))
  {
  }

  lemma DrainHistory(s: State, e: Event)
    requires Enabled(s, e) && DrainEvent(e)
    ensures var t := Step(s, e);
      && t.accepted == s.accepted && t.arrivals == s.arrivals && t.wire == s.wire && t.breaks == s.breaks
      && t.loop == s.loop && t.exits == s.exits && t.sh.exited == s.sh.exited
      && SameSends(s, t)
      && (e.DrainSend? || t.delivered == s.delivered)
  {
  }

  lemma SignalHistory(s: State, e: Event)
    requires Enabled(s, e) && SignalEvent(e)
    ensures var t := Step(s, e);
      && t.breaks == s.breaks && t.exits == s.exits && t.sh.exited == s.sh.exited
      && (e.SignalSend? || t.delivered == s.delivered)
      && (e.SignalAnswer? || t.wire == s.wire)
      && (e.SignalDecide? || (t.lost == s.lost && t.sh.sigSends <= s.sh.sigSends && t.sh.breakSends == s.sh.breakSends))
  {
    if e.SignalDecide? {
      DecideChanges(s);
    } else if e.SignalAfter? {
      AfterChanges(s);
    } else {
      assert Step(s, e).sh == s.sh;
    }
  }

  lemma AfterChanges(s: State)
    requires s.loop.SigSent?
    ensures var t := SignalAfterStep(s);
      && t == s.(sh := t.sh, loop := t.loop)
      && t.sh == s.sh.(sigSends := s.sh.sigSends - 1, sigCh := t.sh.sigCh, sigSendCancel := t.sh.sigSendCancel)
  {
  }

  predicate Expects(l: Loop) {
    l.SigHeld? || l.SigSend?
  }

  lemma BreakConfigHistory(s: State, e: Event)
    requires Enabled(s, e) && BreakConfigEvent(e)
    ensures var t := Step(s, e);
      && SameRecord(s, t) && t.wire == s.wire && t.breaks == s.breaks && t.loop == s.loop
      && t.sh.sigBuf == s.sh.sigBuf && t.sh.exited == s.sh.exited
      && SameSends(s, t)
      && t.drains == s.drains && t.sh.sigDrainDone == s.sh.sigDrainDone
      && (e.BreakConfigRegister? || t.exits == s.exits)
  {
  }

  lemma BreakRequestHistory(s: State, e: Event)
    requires Enabled(s, e) && BreakEvent(e) && !BreakConfigEvent(e)
    ensures var t := Step(s, e);
      && SameRecord(s, t) && t.exits == s.exits && t.drains == s.drains
      && t.sh.sigBuf == s.sh.sigBuf && t.sh.exited == s.sh.exited && t.sh.sigDrainDone == s.sh.sigDrainDone
      && PendingTrue(s.loop) == PendingTrue(t.loop) == [] && !Expects(t.loop)
      && (e.BreakAnswer? || t.wire == s.wire)
      && (e.BreakSendIt? || t.breaks == s.breaks)
      && t.sh.sigSends == s.sh.sigSends
      && (t.sh.breakSends <= s.sh.breakSends || (e.BreakTry? && s.sh.breakCh.Some?))
  {
    if e.BreakTry? {
      TryChanges(s);
    } else if e.BreakAfter? {
      BreakAfterChanges(s);
    } else {
      BreakSameSh(s, e);
    }
  }

  lemma BreakSameSh(s: State, e: Event)
    requires Enabled(s, e) && (e.BreakArrive? || e.BreakSendIt? || e.BreakAnswer?)
    ensures var t := Step(s, e);
      && t.sh == s.sh && SameRecord(s, t) && t.exits == s.exits && t.drains == s.drains
      && PendingTrue(s.loop) == PendingTrue(t.loop) == [] && !Expects(t.loop)
      && (e.BreakAnswer? || t.wire == s.wire)
      && (e.BreakSendIt? || t.breaks == s.breaks)
  {
  }

  lemma TryChanges(s: State)
    ensures var t := BreakTryStep(s);
      && t == s.(sh := t.sh, loop := t.loop) && t.sh == s.sh.(breakSends := t.sh.breakSends)
      && (t.sh.breakSends == s.sh.breakSends || s.sh.breakCh.Some?)
      && (t.loop.BreakSend? || t.loop.BreakReplying?)
  {
  }

  lemma BreakAfterChanges(s: State)
    requires s.loop.BreakSent?
    ensures var t := BreakAfterStep(s);
      && t == s.(sh := t.sh, loop := t.loop) && t.loop.BreakReplying?
      && t.sh == s.sh.(breakSends := s.sh.breakSends - 1, breakCh := t.sh.breakCh, breakSendCancel := t.sh.breakSendCancel)
  {
  }

  lemma ExitHistory(s: State, e: Event)
    requires Enabled(s, e) && ExitEvent(e)
    ensures var t := Step(s, e);
      && SameRecord(s, t) && t.breaks == s.breaks && t.loop == s.loop && t.drains == s.drains
      && SameSends(s, t) && t.sh.sigBuf == s.sh.sigBuf && t.sh.sigDrainDone == s.sh.sigDrainDone
      && (e.ExitFinish? || (t.wire == s.wire && t.sh.exited == s.sh.exited))
  {
    assert Step(s, e).sh == s.sh.(exiting := Step(s, e).sh.exiting, exited := Step(s, e).sh.exited);
  }

  // ---------------------------------------------------------------- conservation, step by step

  /** Conservation depends only on these parts of a state. */
  lemma ConservationFrame(s: State, t: State)
    requires Conservation(s)
    requires t.accepted == s.accepted && t.delivered == s.delivered && t.lost == s.lost
    requires t.arrivals == s.arrivals && t.wire == s.wire && t.sh.sigBuf == s.sh.sigBuf
    requires Remainder(t) == Remainder(s)
    requires PendingTrue(t.loop) == PendingTrue(s.loop)
    requires Expects(t.loop) ==> Expects(s.loop) && t.loop.sig == s.loop.sig
    ensures Conservation(t)
  {
  }

  lemma ActiveDrain(s: State, d: nat)
    requires DrainsInv(s) && d in s.drains && Active(s.drains[d])
    ensures s.sh.sigDrainDone == Some(d) && Remainder(s) == RemOf(s.drains[d])
  {
  }

  lemma DrainConservation(s: State, e: Event)
    requires Structure(s) && Conservation(s) && Enabled(s, e) && DrainEvent(e)
    ensures Conservation(Step(s, e))
  {
    match e
    case DrainTake(d) =>
      ActiveDrain(s, d);
      TakeConservation(s, d);
    case DrainSend(d, out) =>
      ActiveDrain(s, d);
      SendConservation(s, d, out);
    case DrainRequeue(d) =>
      ActiveDrain(s, d);
      RequeueConservation(s, d);
    case DrainFinish(d) =>
      FinishConservation(s, d);
  }

  lemma TakeConservation(s: State, d: nat)
    requires Conservation(s) && Enabled(s, DrainTake(d)) && s.sh.sigDrainDone == Some(d)
    ensures Conservation(DrainTakeStep(s, d))
  {
    var t := DrainTakeStep(s, d);
    assert Remainder(s) == [] && Remainder(t) == s.sh.sigBuf && t.sh.sigBuf == [];
    assert t.delivered + Remainder(t) + t.sh.sigBuf == s.delivered + Remainder(s) + s.sh.sigBuf;
  }

  lemma SendConservation(s: State, d: nat, out: Outcome)
    requires Conservation(s) && Enabled(s, DrainSend(d, out)) && s.sh.sigDrainDone == Some(d)
    ensures Conservation(DrainSendStep(s, d, out))
  {
    var rem := s.drains[d].rem;
    var t := DrainSendStep(s, d, out);
    assert Remainder(s) == rem;
    if out == Delivered {
      assert Remainder(t) == rem[1..];
      ShiftFirst(s.delivered, rem, s.sh.sigBuf);
    } else if out == ContextDone {
      LoseMiddle(s.accepted, s.lost, s.delivered, rem, s.sh.sigBuf);
      assert Remainder(t) == [];
      assert t.delivered + [] == t.delivered;
    } else {
      assert Remainder(t) == rem;
    }
  }

  lemma ShiftFirst(a: seq<Signal>, b: seq<Signal>, c: seq<Signal>)
    requires b != []
    ensures a + [b[0]] + b[1..] + c == a + b + c
  {
    assert b == [b[0]] + b[1..];
  }

  lemma RequeueConservation(s: State, d: nat)
    requires Conservation(s) && Enabled(s, DrainRequeue(d)) && s.sh.sigDrainDone == Some(d)
    ensures Conservation(DrainRequeueStep(s, d))
  {
    var rem := s.drains[d].rem;
    var all := rem + s.sh.sigBuf;
    var t := DrainRequeueStep(s, d);
    assert Remainder(s) == rem && Remainder(t) == [];
    Regroup(s.delivered, rem, s.sh.sigBuf);
    NothingAfter(s.delivered);
    if |all| > MAX_SIG_BUF {
      assert t.sh.sigBuf == all[..MAX_SIG_BUF] && t.lost == s.lost + Elements(all[MAX_SIG_BUF..]);
      LoseTail(s.accepted, s.lost, s.delivered, all, MAX_SIG_BUF);
    } else {
      assert t.sh.sigBuf == all && t.lost == s.lost;
    }
  }

  lemma Regroup(a: seq<Signal>, b: seq<Signal>, c: seq<Signal>)
    ensures a + (b + c) == a + b + c
  {
  }

  /** Losing what does not fit into a buffer. */
  lemma LoseTail(accepted: seq<Signal>, lost: set<Signal>, a: seq<Signal>, all: seq<Signal>, n: nat)
    requires Ordered(accepted) && lost <= Elements(accepted) && Without(accepted, lost) == a + all && n <= |all|
    ensures lost + Elements(all[n..]) <= Elements(accepted)
    ensures Without(accepted, lost + Elements(all[n..])) == a + all[..n]
  {
    assert all == all[..n] + all[n..];
    Regroup(a, all[..n], all[n..]);
    NothingAfter(a + all);
    NothingAfter(a + all[..n]);
    LoseMiddle(accepted, lost, a + all[..n], all[n..], []);
  }

  lemma FinishConservation(s: State, d: nat)
    requires Conservation(s) && d in s.drains && s.drains[d].Final?
    ensures Conservation(DrainFinishStep(s, d))
  {
    ConservationFrame(s, DrainFinishStep(s, d));
  }

  lemma SignalConservation(s: State, e: Event)
    requires LoopInv(s) && Fields(s) && Conservation(s) && Enabled(s, e) && SignalEvent(e)
    ensures Conservation(Step(s, e))
  {
    match e
    case SignalArrive(name, wellFormed) => ArriveConservation(s, name, wellFormed);
    case SignalDecide => DecideConservation(s);
    case SignalSend(out) => DirectConservation(s, out);
    case SignalAfter => AfterConservation(s);
    case SignalAnswer => AnswerConservation(s);
  }

  lemma AfterConservation(s: State)
    requires Conservation(s) && s.loop.SigSent?
    ensures Conservation(SignalAfterStep(s))
  {
    ConservationFrame(s, SignalAfterStep(s));
  }

  lemma AnswerConservation(s: State)
    requires Conservation(s) && s.loop.SigReplying?
    ensures Conservation(SignalAnswerStep(s))
  {
    AnsweredAppend(s.wire, SignalReply(s.loop.sig, s.loop.ok));
  }

  lemma ArriveConservation(s: State, name: string, wellFormed: bool)
    requires Conservation(s) && s.loop.Idle?
    ensures Conservation(SignalArriveStep(s, name, wellFormed))
  {
    assert Remainder(SignalArriveStep(s, name, wellFormed)) == Remainder(s);
  }

  lemma DirectConservation(s: State, out: Outcome)
    requires LoopInv(s) && Conservation(s) && s.loop.SigSend?
    ensures Conservation(SignalSendStep(s, out))
  {
    if out == Delivered {
      DeliveredConservation(s);
    } else {
      ConservationFrame(s, SignalSendStep(s, out));
    }
  }

  /** One more signal is accepted; it is delivered or buffered, or given up at once. */
  lemma AcceptConservation(s: State, t: State, sig: Signal)
    requires Conservation(s) && Expects(s.loop) && s.loop.sig == sig
    requires t.accepted == s.accepted + [sig] && t.arrivals == s.arrivals && t.wire == s.wire
    requires PendingTrue(t.loop) == [sig] && !Expects(t.loop)
    requires var was, now := s.delivered + Remainder(s) + s.sh.sigBuf, t.delivered + Remainder(t) + t.sh.sigBuf;
      (t.lost == s.lost && now == was + [sig]) || (t.lost == s.lost + {sig} && now == was)
    ensures Conservation(t)
  {
    AcceptNext(s.accepted, s.lost, sig);
    NothingAfter(Answered(s.wire));
    forall x | x in t.accepted
      ensures x.arrival < t.arrivals
    {
      assert x in s.accepted || x == sig;
    }
  }

  lemma DeliveredConservation(s: State)
    requires LoopInv(s) && Conservation(s) && s.loop.SigSend?
    ensures Conservation(SignalSendStep(s, Delivered))
  {
    var t := SignalSendStep(s, Delivered);
    assert Remainder(s) == [] && s.sh.sigBuf == [] && Remainder(t) == [] && t.sh.sigBuf == [];
    NothingBetween(s.delivered);
    NothingBetween(t.delivered);
    AcceptConservation(s, t, s.loop.sig);
  }

  lemma NothingBetween(a: seq<Signal>)
    ensures a + [] + [] == a
  {
  }

  lemma DecideConservation(s: State)
    requires Fields(s) && Conservation(s) && s.loop.SigHeld?
    ensures Conservation(SignalDecideStep(s))
  {
    if Buffers(s) {
      BufferConservation(s);
    } else {
      DecideChanges(s);
      ConservationFrame(s, SignalDecideStep(s));
    }
  }

  lemma BufferConservation(s: State)
    requires Fields(s) && Conservation(s) && Buffers(s)
    ensures Conservation(SignalDecideStep(s))
  {
    var t := SignalDecideStep(s);
    assert Remainder(t) == Remainder(s);
    if |s.sh.sigBuf| < MAX_SIG_BUF {
      AppendLast(s.delivered + Remainder(s), s.sh.sigBuf, s.loop.sig);
    }
    AcceptConservation(s, t, s.loop.sig);
  }

  lemma AppendLast(a: seq<Signal>, b: seq<Signal>, x: Signal)
    ensures a + (b + [x]) == a + b + [x]
  {
  }

  lemma ConfigConservation(s: State, e: Event)
    requires Structure(s) && Conservation(s) && Enabled(s, e) && ConfigEvent(e)
    ensures Conservation(Step(s, e))
  {
    ConfigHistory(s, e);
    if e.ConfigRegister? {
      RegisterRemainder(s);
    }
    ConservationFrame(s, Step(s, e));
  }

  lemma RegisterRemainder(s: State)
    requires ConfigInv(s) && s.cfg.WaitSends?
    ensures Remainder(ConfigRegisterStep(s)) == Remainder(s) == []
  {
  }

  lemma BreakConfigConservation(s: State, e: Event)
    requires Conservation(s) && Enabled(s, e) && BreakConfigEvent(e)
    ensures Conservation(Step(s, e))
  {
    BreakConfigHistory(s, e);
    ConservationFrame(s, Step(s, e));
  }

  lemma BreakRequestConservation(s: State, e: Event)
    requires Conservation(s) && Enabled(s, e) && BreakEvent(e) && !BreakConfigEvent(e)
    ensures Conservation(Step(s, e))
  {
    if e.BreakAnswer? {
      BreakAnswerConservation(s);
    } else {
      BreakRequestHistory(s, e);
      ConservationFrame(s, Step(s, e));
    }
  }

  lemma BreakAnswerConservation(s: State)
    requires Conservation(s) && s.loop.BreakReplying?
    ensures Conservation(BreakAnswerStep(s))
  {
    AnsweredAppend(s.wire, BreakReply(s.loop.ok));
  }

  lemma ExitConservation(s: State, e: Event)
    requires Conservation(s) && Enabled(s, e) && ExitEvent(e) && !e.ExitFinish?
    ensures Conservation(Step(s, e))
  {
    ExitHistory(s, e);
    ConservationFrame(s, Step(s, e));
  }

  lemma FinishExitConservation(s: State, x: nat)
    requires Conservation(s)
    ensures Conservation(ExitFinishStep(s, x))
  {
    AnsweredAppend(s.wire, ExitStatus(x));
  }

  lemma ConservationStep(s: State, e: Event)
    requires Structure(s) && Conservation(s) && Enabled(s, e)
    ensures Conservation(Step(s, e))
  {
    if ConfigEvent(e) {
      ConfigConservation(s, e);
    } else if DrainEvent(e) {
      DrainConservation(s, e);
    } else if SignalEvent(e) {
      SignalConservation(s, e);
    } else if BreakConfigEvent(e) {
      BreakConfigConservation(s, e);
    } else if BreakEvent(e) {
      BreakRequestConservation(s, e);
    } else if e.ExitFinish? {
      FinishExitConservation(s, e.x);
    } else {
      ExitConservation(s, e);
    }
  }

  // ---------------------------------------------------------------- the wire, step by step

  lemma AppendNegative(s: State, t: State, m: Wire)
    requires WireInv(s) && t.sh.exited == s.sh.exited && t.wire == s.wire + [m]
    requires !m.ExitStatus? && (s.sh.exited ==> !Positive(m))
    ensures WireInv(t)
  {
    if s.sh.exited {
      var i :| StatusAt(s.wire, i);
      assert StatusAt(t.wire, i);
    }
  }

  lemma WireStep(s: State, e: Event)
    requires Structure(s) && WireInv(s) && Enabled(s, e)
    ensures WireInv(Step(s, e))
  {
    if e.SignalAnswer? {
      AnswerWire(s);
    } else if e.BreakAnswer? {
      BreakWire(s);
    } else if e.ExitFinish? {
      FinishWire(s, e.x);
    } else {
      SameWire(s, e);
    }
  }

  lemma AnswerWire(s: State)
    requires ExitInv(s) && WireInv(s) && s.loop.SigReplying?
    ensures WireInv(SignalAnswerStep(s))
  {
    AppendNegative(s, SignalAnswerStep(s), SignalReply(s.loop.sig, s.loop.ok));
  }

  lemma BreakWire(s: State)
    requires ExitInv(s) && WireInv(s) && s.loop.BreakReplying?
    ensures WireInv(BreakAnswerStep(s))
  {
    AppendNegative(s, BreakAnswerStep(s), BreakReply(s.loop.ok));
  }

  lemma SameWire(s: State, e: Event)
    requires Enabled(s, e) && !e.SignalAnswer? && !e.BreakAnswer? && !e.ExitFinish?
    ensures Step(s, e).wire == s.wire && Step(s, e).sh.exited == s.sh.exited
  {
    Histories(s, e);
  }

  /** The history lemma of the event's group. */
  lemma Histories(s: State, e: Event)
    requires Enabled(s, e)
    ensures var t := Step(s, e);
      && (e.SignalAnswer? || e.BreakAnswer? || e.ExitFinish? || (t.wire == s.wire && t.sh.exited == s.sh.exited))
      && (e.DrainSend? || e.SignalSend? || t.delivered == s.delivered)
      && (e.BreakSendIt? || t.breaks == s.breaks)
      && (e.ConfigRegister? || e.BreakConfigRegister? || ExitEvent(e) || t.exits == s.exits)
  {
    if ConfigEvent(e) {
      ConfigHistory(s, e);
    } else if DrainEvent(e) {
      DrainHistory(s, e);
    } else if SignalEvent(e) {
      SignalHistory(s, e);
    } else if BreakConfigEvent(e) {
      BreakConfigHistory(s, e);
    } else if BreakEvent(e) {
      BreakRequestHistory(s, e);
    } else {
      ExitHistory(s, e);
    }
  }

  lemma FinishWire(s: State, x: nat)
    requires WireInv(s)
    ensures WireInv(ExitFinishStep(s, x))
  {
    if !s.sh.exited {
      assert StatusAt(ExitFinishStep(s, x).wire, |s.wire|);
    }
  }

  // ---------------------------------------------------------------- runs

  lemma {:induction false} RunKeepsInv(s: State, es: seq<Event>)
    requires Inv(s)
    ensures Inv(Run(s, es))
  {
    if es != [] {
      var t, e := Run(s, es[..|es| - 1]), es[|es| - 1];
      RunKeepsInv(s, es[..|es| - 1]);
      if Enabled(t, e) {
        StructureStep(t, e);
        ConservationStep(t, e);
        WireStep(t, e);
      }
    }
  }

  lemma Reachable(es: seq<Event>)
    ensures Inv(Run(Init, es))
  {
    assert Inv(Init);
    RunKeepsInv(Init, es);
  }

  /** In every reachable state the signals answered true (or about to be) are, in that order,
      those delivered, then those a drain holds, then those buffered, minus the recorded losses:
      nothing is delivered twice, invented or reordered, and the buffers stay bounded. */
  lemma DeliveredOnceInOrder(es: seq<Event>)
    ensures var s := Run(Init, es);
      && Without(Answered(s.wire) + PendingTrue(s.loop), s.lost) == s.delivered + Remainder(s) + s.sh.sigBuf
      && Ordered(s.delivered + Remainder(s) + s.sh.sigBuf)
      && |s.sh.sigBuf| <= MAX_SIG_BUF && |Remainder(s)| <= MAX_SIG_BUF
  {
    Reachable(es);
    var s := Run(Init, es);
    WithoutKeepsOrder(s.accepted, s.lost);
  }

  /** The three places that give up signals already accepted: a full buffer (session.go:689-692),
      a requeue that does not fit (session.go:564-566), and a drain whose context ended with
      signals in its hands (session.go:549-554). */
  predicate Loses(s: State, e: Event) {
    || (e.SignalDecide? && Buffers(s) && |s.sh.sigBuf| >= MAX_SIG_BUF)
    || (e.DrainRequeue? && e.d in s.drains && s.drains[e.d].Requeue?
        && |s.drains[e.d].rem + s.sh.sigBuf| > MAX_SIG_BUF)
    || (e.DrainSend? && e.out == ContextDone && e.d in s.drains && s.drains[e.d].Send?
        && s.drains[e.d].rem != [] && s.contextDone)
  }

  ghost predicate NoLoss(es: seq<Event>) {
    if es == [] then true
    else NoLoss(es[..|es| - 1]) && !Loses(Run(Init, es[..|es| - 1]), es[|es| - 1])
  }

  lemma LossStep(s: State, e: Event)
    requires Enabled(s, e)
    ensures s.lost <= Step(s, e).lost
    ensures Step(s, e).lost == s.lost || Loses(s, e)
    ensures Loses(s, e) ==> Step(s, e).lost != {}
  {
    if DrainEvent(e) {
      DrainLossStep(s, e);
    } else if e.SignalDecide? {
      DecideLossStep(s);
    } else if SignalEvent(e) {
      SignalHistory(s, e);
    } else if ConfigEvent(e) {
      ConfigHistory(s, e);
    } else if BreakConfigEvent(e) {
      BreakConfigHistory(s, e);
    } else if BreakEvent(e) {
      BreakRequestHistory(s, e);
    } else {
      ExitHistory(s, e);
    }
  }

  lemma DecideLossStep(s: State)
    requires s.loop.SigHeld?
    ensures SignalDecideStep(s).lost == if Loses(s, SignalDecide) then s.lost + {s.loop.sig} else s.lost
  {
  }

  lemma DrainLossStep(s: State, e: Event)
    requires Enabled(s, e) && DrainEvent(e)
    ensures s.lost <= Step(s, e).lost
    ensures Step(s, e).lost == s.lost || Loses(s, e)
    ensures Loses(s, e) ==> Step(s, e).lost != {}
  {
    if Loses(s, e) {
      var gone := if e.DrainSend? then s.drains[e.d].rem else (s.drains[e.d].rem + s.sh.sigBuf)[MAX_SIG_BUF..];
      assert gone[0] in Elements(gone) && Step(s, e).lost == s.lost + Elements(gone);
    }
  }

  lemma {:induction false} LostIffLoses(es: seq<Event>)
    ensures Run(Init, es).lost == {} <==> NoLoss(es)
  {
    if es != [] {
      var n := |es| - 1;
      LostIffLoses(es[..n]);
      var t := Run(Init, es[..n]);
      if Enabled(t, es[n]) {
        LossStep(t, es[n]);
      }
    }
  }

  lemma {:induction false} WithoutLength(q: seq<Signal>, gone: set<Signal>)
    ensures |Without(q, gone)| <= |q|
    ensures |Without(q, gone)| == |q| ==> forall x :: x in q ==> x !in gone
  {
    if q != [] {
      WithoutLength(q[..|q| - 1], gone);
      assert q == q[..|q| - 1] + [q[|q| - 1]];
    }
  }

  /** Exactly the signals answered true (or about to be) are delivered, or still held in arrival
      order, if and only if the run never took one of the three branches that give signals up. */
  lemma EveryAnswerKeptIff(es: seq<Event>)
    ensures var s := Run(Init, es);
      Answered(s.wire) + PendingTrue(s.loop) == s.delivered + Remainder(s) + s.sh.sigBuf <==> NoLoss(es)
  {
    Reachable(es);
    LostIffLoses(es);
    var s := Run(Init, es);
    if s.lost == {} {
      WithoutNone(s.accepted, {});
    } else {
      WithoutLength(s.accepted, s.lost);
      var x :| x in s.lost;
      assert x in s.accepted;
    }
  }

  // ---------------------------------------------------------------- a run that loses a signal

  /** `n` signals, each decided and answered before the next arrives. */
  function Rounds(n: nat): seq<Event> {
    if n == 0 then [] else Rounds(n - 1) + [SignalArrive("TERM", true), SignalDecide, SignalAnswer]
  }

  /** Nobody has registered, everything so far has been answered true, and nobody exits. */
  predicate Unheard(s: State) {
    && s.loop.Idle? && s.sigReply.None? && s.sh.sigCh.None? && !s.sh.exiting
  }

  /** A round: the signal is answered true, and buffered if there is room and lost if not. */
  function RoundStep(s: State): State
    requires Unheard(s)
  {
    SignalAnswerStep(SignalDecideStep(SignalArriveStep(s, "TERM", true)))
  }

  lemma RunAppend(s: State, es: seq<Event>, e: Event)
    ensures Run(s, es + [e]) == if Enabled(Run(s, es), e) then Step(Run(s, es), e) else Run(s, es)
  {
    assert (es + [e])[..|es|] == es;
  }

  lemma RunEnabled(es: seq<Event>, e: Event)
    requires Enabled(Run(Init, es), e)
    ensures Run(Init, es + [e]) == Step(Run(Init, es), e)
  {
    RunAppend(Init, es, e);
  }

  lemma ArriveEnabled(s: State)
    requires Unheard(s)
    ensures Enabled(s, SignalArrive("TERM", true))
    ensures Step(s, SignalArrive("TERM", true)) == SignalArriveStep(s, "TERM", true)
  {
  }

  lemma DecideEnabled(s: State)
    requires s.loop.SigHeld?
    ensures Enabled(s, SignalDecide) && Step(s, SignalDecide) == SignalDecideStep(s)
  {
  }

  lemma AnswerEnabled(s: State)
    requires s.loop.SigReplying?
    ensures Enabled(s, SignalAnswer) && Step(s, SignalAnswer) == SignalAnswerStep(s)
  {
  }

  lemma OneRound(es: seq<Event>)
    requires Unheard(Run(Init, es))
    ensures Run(Init, es + [SignalArrive("TERM", true), SignalDecide, SignalAnswer]) == RoundStep(Run(Init, es))
  {
    var a := es + [SignalArrive("TERM", true)];
    var d := a + [SignalDecide];
    var s := Run(Init, es);
    var t := SignalArriveStep(s, "TERM", true);
    ArriveEnabled(s);
    RunEnabled(es, SignalArrive("TERM", true));
    DecideEnabled(t);
    RunEnabled(a, SignalDecide);
    AnswerEnabled(SignalDecideStep(t));
    RunEnabled(d, SignalAnswer);
    assert es + [SignalArrive("TERM", true), SignalDecide, SignalAnswer] == d + [SignalAnswer];
  }

  lemma RoundChanges(s: State)
    requires Unheard(s)
    ensures var t := RoundStep(s); var sig := Signal("TERM", s.arrivals);
      && Unheard(t) && t.arrivals == s.arrivals + 1 && t.wire == s.wire + [SignalReply(sig, true)]
      && (if |s.sh.sigBuf| < MAX_SIG_BUF then t.sh.sigBuf == s.sh.sigBuf + [sig] && t.lost == s.lost
          else t.sh.sigBuf == s.sh.sigBuf && t.lost == s.lost + {sig})
  {
  }

  lemma {:induction false} RoundsFill(n: nat)
    requires n <= MAX_SIG_BUF
    ensures var s := Run(Init, Rounds(n));
      Unheard(s) && s.arrivals == n && |s.sh.sigBuf| == n && s.lost == {}
  {
    if n > 0 {
      RoundsFill(n - 1);
      OneRound(Rounds(n - 1));
      RoundChanges(Run(Init, Rounds(n - 1)));
    }
  }

  /** The witness: with nobody registered 128 signals fill the buffer, and the next one is answered
      true and dropped. */
  lemma FullBufferDropsAnswered()
    ensures var s := Run(Init, Rounds(MAX_SIG_BUF + 1)); var sig := Signal("TERM", MAX_SIG_BUF);
      && s.wire != [] && s.wire[|s.wire| - 1] == SignalReply(sig, true)
      && s.lost == {sig} && |s.sh.sigBuf| == MAX_SIG_BUF
    ensures !NoLoss(Rounds(MAX_SIG_BUF + 1))
  {
    RoundsFill(MAX_SIG_BUF);
    OneRound(Rounds(MAX_SIG_BUF));
    RoundChanges(Run(Init, Rounds(MAX_SIG_BUF)));
    LostIffLoses(Rounds(MAX_SIG_BUF + 1));
  }

  /** Once an Exit call has passed its stop phase no signal is delivered again, whatever
      happens later; likewise for breaks. */
  lemma {:induction false} SilentAfterExit(s: State, x: nat, es: seq<Event>)
    requires Inv(s) && x in s.exits
    requires PastSignals(s.exits[x])
    ensures Run(s, es).delivered == s.delivered
    ensures PastBreaks(s.exits[x]) ==> Run(s, es).breaks == s.breaks
    ensures x in Run(s, es).exits && PastSignals(Run(s, es).exits[x])
    ensures PastBreaks(s.exits[x]) ==> PastBreaks(Run(s, es).exits[x])
  {
    if es != [] {
      var t, e := Run(s, es[..|es| - 1]), es[|es| - 1];
      SilentAfterExit(s, x, es[..|es| - 1]);
      RunKeepsInv(s, es[..|es| - 1]);
      if Enabled(t, e) {
        SilentStep(t, x, e);
      }
    }
  }

  lemma SilentStep(s: State, x: nat, e: Event)
    requires DrainsInv(s) && ExitInv(s) && ConfigInv(s) && Enabled(s, e) && x in s.exits && PastSignals(s.exits[x])
    ensures Step(s, e).delivered == s.delivered
    ensures PastBreaks(s.exits[x]) ==> Step(s, e).breaks == s.breaks
    ensures x in Step(s, e).exits && PastSignals(Step(s, e).exits[x])
    ensures PastBreaks(s.exits[x]) ==> PastBreaks(Step(s, e).exits[x])
  {
    assert SignalsQuiet(s);
    assert forall d :: d in s.drains ==> !Active(s.drains[d]);
    SilentDeliveries(s, e);
    ExitsAdvance(s, x, e);
    if PastBreaks(s.exits[x]) {
      assert BreaksQuiet(s);
      SilentBreaks(s, e);
    }
  }

  lemma SilentDeliveries(s: State, e: Event)
    requires Enabled(s, e) && SignalsQuiet(s)
    requires forall d :: d in s.drains ==> !Active(s.drains[d])
    ensures Step(s, e).delivered == s.delivered
  {
    Histories(s, e);
  }

  lemma SilentBreaks(s: State, e: Event)
    requires Enabled(s, e) && BreaksQuiet(s)
    ensures Step(s, e).breaks == s.breaks
  {
    Histories(s, e);
  }

  /** No step takes an Exit call back behind a stop phase it has passed. */
  lemma ExitsAdvance(s: State, x: nat, e: Event)
    requires ConfigInv(s) && Enabled(s, e) && x in s.exits && PastSignals(s.exits[x])
    ensures x in Step(s, e).exits && PastSignals(Step(s, e).exits[x])
    ensures PastBreaks(s.exits[x]) ==> PastBreaks(Step(s, e).exits[x])
  {
    if e.ConfigRegister? {
      assert s.cfg.exiter != Some(x);
    } else if e.BreakConfigRegister? {
      assert s.bcfg.exiter == Some(x) ==> !PastBreaks(s.exits[x]);
    } else if ExitEvent(e) {
      ExitEventsAdvance(s, x, e);
    } else {
      Histories(s, e);
    }
  }

  /** An Exit call's own steps lead forward, and leave the other calls alone. */
  lemma ExitEventsAdvance(s: State, x: nat, e: Event)
    requires Enabled(s, e) && ExitEvent(e) && x in s.exits && PastSignals(s.exits[x])
    ensures x in Step(s, e).exits && PastSignals(Step(s, e).exits[x])
    ensures PastBreaks(s.exits[x]) ==> PastBreaks(Step(s, e).exits[x])
  {
    OneExitMoves(s, e);
  }

  lemma OneExitMoves(s: State, e: Event)
    requires Enabled(s, e) && ExitEvent(e)
    ensures e.x in Step(s, e).exits && Step(s, e).exits == s.exits[e.x := Step(s, e).exits[e.x]]
    ensures e.ExitMark? ==> e.x !in s.exits
    ensures e.ExitStopSignals? ==> At(s, e.x, Marked)
    ensures e.ExitTakeSigReply? ==> At(s, e.x, SigStopped) && At(Step(s, e), e.x, HasSigReply)
    ensures e.ExitStopBreaks? ==> At(s, e.x, HasSigReply) && At(Step(s, e), e.x, BreakStopping)
    ensures e.ExitTakeBreakReply? ==> At(Step(s, e), e.x, HasBothReplies)
    ensures e.ExitFinish? ==> At(Step(s, e), e.x, Done)
  {
  }

  /** The exit status goes out at most once, after the reply to every signal or break that was
      answered positively, and while no such request is between decision and reply. */
  lemma ExitStatusLastAndOnce(es: seq<Event>)
    ensures var w := Run(Init, es).wire;
      forall i, j :: 0 <= i < j < |w| && w[i].ExitStatus? ==> !Positive(w[j])
  {
    Reachable(es);
    var s := Run(Init, es);
    var w := s.wire;
    forall i, j | 0 <= i < j < |w| && w[i].ExitStatus?
      ensures !Positive(w[j])
    {
      var k :| StatusAt(w, k);
      assert i == k;
    }
  }

  lemma NoRequestInFlightAtExit(es: seq<Event>, x: nat)
    requires At(Run(Init, es), x, HasBothReplies)
    ensures var s := Run(Init, es); !InSignal(s.loop) && !InBreak(s.loop) && PendingTrue(s.loop) == []
  {
    Reachable(es);
  }

  /** No cancel or done channel is closed twice, and the paired fields are set together. */
  lemma ChannelsClosedOnce(es: seq<Event>)
    ensures var sh := Run(Init, es).sh;
      && !sh.panicked && sh.sigSends >= 0 && sh.breakSends >= 0
      && (sh.sigCh.Some? <==> sh.sigSendCancel.Some?)
      && (sh.breakCh.Some? <==> sh.breakSendCancel.Some?)
      && sh.sigDrainCancel == sh.sigDrainDone
      && (sh.sigCh.Some? ==> sh.sigBuf == [] && forall d :: d in Run(Init, es).drains ==> !Active(Run(Init, es).drains[d]))
  {
    Reachable(es);
  }

  /** Whoever waits for a receiver has cancelled it: an unregistration waiting for a send, one
      waiting for a drain, and an exit waiting for the reply locks all find the send cancelled. */
  lemma WaitersAreNeverHostages(es: seq<Event>)
    ensures var s := Run(Init, es);
      && (s.cfg.WaitSends? && s.loop.SigSend? ==> Enabled(s, SignalSend(Cancelled)))
      && (s.cfg.WaitDone? && s.cfg.drain in s.drains && s.drains[s.cfg.drain].Send? ==>
            Enabled(s, DrainSend(s.cfg.drain, Cancelled)))
      && (s.bcfg.WaitSends? && s.loop.BreakSend? ==> Enabled(s, BreakSendIt(Cancelled)))
      && (forall x :: At(s, x, SigStopped) ==> !s.loop.SigSend?)
      && (forall x :: At(s, x, BreakStopped) ==> !s.loop.BreakSend?)
  {
    Reachable(es);
    var s := Run(Init, es);
    if s.cfg.WaitDone? && s.cfg.drain in s.drains && s.drains[s.cfg.drain].Send? {
      assert RemOf(s.drains[s.cfg.drain]) != [];
    }
    forall x | At(s, x, SigStopped)
      ensures !s.loop.SigSend?
    {
      assert PastSignals(s.exits[x]);
    }
    forall x | At(s, x, BreakStopped)
      ensures !s.loop.BreakSend?
    {
      assert PastBreaks(s.exits[x]);
    }
  }

  /** While an unregistration waits for its sends, no new send begins: the wait groups are never
      raised from zero beside a waiter. */
  lemma NoSendBeginsWhileAwaited(es: seq<Event>, e: Event)
    requires Enabled(Run(Init, es), e)
    ensures var s := Run(Init, es); var t := Step(s, e);
      && (s.cfg.WaitSends? ==> t.sh.sigSends <= s.sh.sigSends <= 1)
      && (s.bcfg.WaitSends? ==> t.sh.breakSends <= s.sh.breakSends <= 1)
  {
    Reachable(es);
    StructureStep(Run(Init, es), e);
    SendsBegin(Run(Init, es), e);
  }

  /** Only a decision while a receiver is registered begins a send. */
  lemma SendsBegin(s: State, e: Event)
    requires Enabled(s, e)
    ensures Step(s, e).sh.sigSends <= s.sh.sigSends || (e.SignalDecide? && s.sh.sigCh.Some?)
    ensures Step(s, e).sh.breakSends <= s.sh.breakSends || (e.BreakTry? && s.sh.breakCh.Some?)
  {
    if ConfigEvent(e) {
      ConfigHistory(s, e);
    } else if DrainEvent(e) {
      DrainHistory(s, e);
    } else if BreakConfigEvent(e) {
      BreakConfigHistory(s, e);
    } else if ExitEvent(e) {
      ExitHistory(s, e);
    } else if e.SignalDecide? {
      DecideChanges(s);
    } else if SignalEvent(e) {
      SignalHistory(s, e);
    } else {
      BreakRequestHistory(s, e);
    }
  }
}
