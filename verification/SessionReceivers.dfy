/** Who gets what: every signal and break goes to the channel that the session's user asked for, as
    the peer sent it, and a refusal has a reason. What was asked for is read off the events of a run
    (session.go:474-516, 572-627, 663-716). */
module SessionReceivers {
  import opened Prelude
  import opened SessionState
  import opened SessionProtocol
  import opened SessionStructure
  import Delivery = SessionDelivery

  datatype Arrival = Arrival(name: string, wellFormed: bool)

  /** Whether a signal request can be parsed and is short enough. */
  predicate Good(a: Arrival) {
    a.wellFormed && |a.name| <= MAX_SIGNAL_BYTES
  }

  /** `called` is the argument of the latest call (an exit asks for nothing), `inEffect` that of the
      latest call whose configuration was completed; `exitedBy` is the first call of Exit to come
      through. `sentTo` lists, for each delivery, the channel
      in effect at that moment. `failed` are the arrivals whose direct send was not taken; `ends` says that the newest
      arrival met an exit, or the end of the context while it was sent. */
  datatype History = History(
    called: Option<nat>,
    inEffect: Option<nat>,
    sentTo: seq<Option<nat>>,
    arrived: seq<Arrival>,
    failed: set<int>,
    ends: bool,
    exitBegan: bool,
    exitedBy: Option<nat>,
    breakCalled: Option<nat>,
    breakInEffect: Option<nat>,
    breaksTo: seq<Option<nat>>)
  {
    /** The outcome of a direct send. */
    function Sent(out: Outcome): History {
      if out == Delivered then this.(sentTo := sentTo + [inEffect]) else this.(failed := failed + {|arrived| - 1})
    }

    function After(e: Event): History {
      match e
      case CallSignals(c) => this.(called := c)
      case ExitStopSignals(_) => this.(called := None)
      case ConfigRegister => this.(inEffect := called)
      case DrainSend(_, out) => if out == Delivered then this.(sentTo := sentTo + [inEffect]) else this
      case SignalArrive(name, wellFormed) => this.(arrived := arrived + [Arrival(name, wellFormed)], ends := false)
      case SignalDecide => this.(ends := arrived != [] && Good(arrived[|arrived| - 1]) && exitBegan)
      case SignalSend(out) => Sent(out).(ends := out == ContextDone)
      case ExitMark(_) => this.(exitBegan := true)
      case ExitFinish(x) => if exitedBy.None? then this.(exitedBy := Some(x)) else this
      case CallBreak(c) => this.(breakCalled := c)
      case ExitStopBreaks(_) => this.(breakCalled := None)
      case BreakConfigRegister => this.(breakInEffect := breakCalled)
      case BreakSendIt(out) => if out == Delivered then this.(breaksTo := breaksTo + [breakInEffect]) else this
      case _ => this
    }
  }

  const NoHistory: History := History(None, None, [], [], {}, false, false, None, None, None, [])

  /** What happened in a run; events that were not enabled did not happen. */
  function Happened(es: seq<Event>): History {
    if es == [] then NoHistory
    else
      var init, e := es[..|es| - 1], es[|es| - 1];
      if Enabled(Run(Init, init), e) then Happened(init).After(e) else Happened(init)
  }

  // ---------------------------------------------------------------- what a group of steps leaves alone

  predicate SameRecords(s: State, t: State) {
    t.receivers == s.receivers && t.delivered == s.delivered
  }

  predicate SameSignalSide(s: State, t: State) {
    && t.cfg == s.cfg && t.drains == s.drains && t.sh.sigCh == s.sh.sigCh && t.sh.sigDrainDone == s.sh.sigDrainDone
    && t.closedTargets == s.closedTargets && t.contextDone == s.contextDone
    && SameRecords(s, t) && t.arrivals == s.arrivals && t.sh.exiting == s.sh.exiting
  }

  predicate SameBreakSide(s: State, t: State) {
    && t.bcfg == s.bcfg && t.sh.breakCh == s.sh.breakCh && s.closedTargets <= t.closedTargets
  }

  lemma BreakConfigLeaves(s: State, e: Event)
    requires Enabled(s, e) && BreakConfigEvent(e)
    ensures SameSignalSide(s, Step(s, e)) && Step(s, e).loop == s.loop
  {
  }

  lemma BreakLeaves(s: State, e: Event)
    requires Enabled(s, e) && BreakEvent(e) && !BreakConfigEvent(e)
    ensures SameSignalSide(s, Step(s, e)) && InBreak(Step(s, e).loop) == !e.BreakAnswer?
    ensures InBreak(s.loop) || s.loop.Idle?
    ensures e.BreakAnswer? ==> Step(s, e).loop.Idle?
  {
  }

  lemma ConfigLeaves(s: State, e: Event)
    requires Enabled(s, e) && ConfigEvent(e)
    ensures var t := Step(s, e);
      && SameBreakSide(s, t) && SameRecords(s, t) && t.loop == s.loop
      && t.arrivals == s.arrivals && t.sh.exiting == s.sh.exiting
  {
  }

  lemma DrainLeaves(s: State, e: Event)
    requires Enabled(s, e) && DrainEvent(e)
    ensures var t := Step(s, e);
      && SameBreakSide(s, t) && t.loop == s.loop && t.arrivals == s.arrivals && t.sh.exiting == s.sh.exiting
      && (e.DrainSend? || SameRecords(s, t))
  {
  }

  lemma SignalLeaves(s: State, e: Event)
    requires Enabled(s, e) && SignalEvent(e)
    ensures var t := Step(s, e);
      && SameBreakSide(s, t) && t.cfg == s.cfg && t.drains == s.drains
      && t.closedTargets == s.closedTargets && t.contextDone == s.contextDone
      && (e.SignalSend? || SameRecords(s, t))
      && (e.SignalDecide? || e.SignalAfter? || t.sh == s.sh)
      && (InSignal(s.loop) || s.loop.Idle?) && !InBreak(t.loop)
  {
    if e.SignalDecide? {
      DecideChanges(s);
    } else if e.SignalAfter? {
      Delivery.AfterChanges(s);
    }
  }

  lemma ExitLeaves(s: State, e: Event)
    requires Enabled(s, e) && ExitEvent(e)
    ensures var t := Step(s, e);
      && t.loop == s.loop && t.arrivals == s.arrivals && t.drains == s.drains && SameRecords(s, t)
      && t.sh == s.sh.(exiting := t.sh.exiting, exited := t.sh.exited)
      && t.closedTargets == s.closedTargets && t.contextDone == s.contextDone
      && (e.ExitStopSignals? || t.cfg == s.cfg) && (e.ExitStopBreaks? || t.bcfg == s.bcfg)
  {
  }

  // ---------------------------------------------------------------- the channel of each delivery

  predicate Sending(l: Loop) {
    l.SigSend? || l.SigSent?
  }

  ghost predicate TargetsOf(cfg: Config, sigCh: Option<nat>, loop: Loop, drains: map<nat, Drain>, h: History) {
    && (!cfg.Free? ==> cfg.target == h.called)
    && (sigCh.Some? ==> sigCh == h.inEffect)
    && (Sending(loop) ==> h.inEffect == Some(loop.ch))
    && (forall d :: d in drains && (drains[d].Take? || drains[d].Send?) ==> h.inEffect == Some(drains[d].target))
  }

  ghost predicate Targets(s: State, h: History) {
    TargetsOf(s.cfg, s.sh.sigCh, s.loop, s.drains, h)
  }

  ghost predicate SameChannels(to: seq<Option<nat>>, channels: seq<nat>) {
    |to| == |channels| && forall i :: 0 <= i < |to| ==> to[i] == Some(channels[i])
  }

  ghost predicate Records(s: State, h: History) {
    SameChannels(h.sentTo, s.receivers) && |s.receivers| == |s.delivered|
  }

  lemma TargetsFrame(s: State, t: State, h: History, k: History)
    requires Targets(s, h) && k.called == h.called && k.inEffect == h.inEffect
    requires t.cfg == s.cfg && t.drains == s.drains && (t.sh.sigCh == s.sh.sigCh || t.sh.sigCh.None?)
    requires t.loop == s.loop || !Sending(t.loop)
    ensures Targets(t, k)
  {
  }

  /** A registration: the channel that was called for is in effect, and nothing is being sent. */
  lemma Registered(s: State)
    requires DrainsInv(s) && ConfigInv(s) && LoopInv(s) && s.cfg.WaitSends? && s.sh.sigSends == 0
    ensures var t := ConfigRegisterStep(s);
      && t.cfg.Free? && !Sending(t.loop)
      && (t.sh.sigCh.Some? ==> t.sh.sigCh == s.cfg.target)
      && (forall d :: d in t.drains && (t.drains[d].Take? || t.drains[d].Send?) ==> s.cfg.target == Some(t.drains[d].target))
  {
    assert forall d :: d in s.drains ==> !Active(s.drains[d]);
  }

  lemma RegisterTargets(s: State, h: History)
    requires Targets(s, h) && DrainsInv(s) && ConfigInv(s) && LoopInv(s) && s.cfg.WaitSends? && s.sh.sigSends == 0
    ensures Targets(ConfigRegisterStep(s), h.After(ConfigRegister))
  {
    Registered(s);
  }

  lemma TakeTargets(s: State, h: History, d: nat)
    requires Targets(s, h) && d in s.drains && s.drains[d].Take?
    ensures Targets(DrainTakeStep(s, d), h)
  {
  }

  lemma DrainMovesTargets(s: State, t: State, h: History, k: History, d: nat, next: Drain)
    requires Targets(s, h) && k.called == h.called && k.inEffect == h.inEffect
    requires t.cfg == s.cfg && t.sh.sigCh == s.sh.sigCh && t.loop == s.loop && t.drains == s.drains[d := next]
    requires next.Take? || next.Send? ==> h.inEffect == Some(next.target)
    ensures Targets(t, k)
  {
  }

  lemma SendTargets(s: State, h: History, d: nat, out: Outcome)
    requires Targets(s, h) && d in s.drains && s.drains[d].Send? && s.drains[d].rem != []
    ensures Targets(DrainSendStep(s, d, out), h.After(DrainSend(d, out)))
  {
    var next := NextDrain(s.drains[d].target, s.drains[d].rem, out);
    DrainMovesTargets(s, DrainSendStep(s, d, out), h, h.After(DrainSend(d, out)), d, next);
  }

  lemma ConfigTargets(s: State, h: History, e: Event)
    requires Targets(s, h) && Structure(s) && Enabled(s, e) && ConfigEvent(e)
    ensures Targets(Step(s, e), h.After(e))
  {
    if e.ConfigRegister? {
      RegisterTargets(s, h);
    }
  }

  lemma DrainTargets(s: State, h: History, e: Event)
    requires Targets(s, h) && Enabled(s, e) && DrainEvent(e)
    ensures Targets(Step(s, e), h.After(e))
  {
    if e.DrainTake? {
      TakeTargets(s, h, e.d);
    } else if e.DrainSend? {
      SendTargets(s, h, e.d, e.out);
    } else if e.DrainRequeue? {
      DrainMovesTargets(s, Step(s, e), h, h, e.d, Final);
    }
  }

  lemma DecideTargets(s: State, h: History)
    requires Targets(s, h) && s.loop.SigHeld?
    ensures Targets(SignalDecideStep(s), h)
  {
    var t := SignalDecideStep(s);
    assert t.cfg == s.cfg && t.drains == s.drains && t.sh.sigCh == s.sh.sigCh;
    assert Sending(t.loop) ==> s.sh.sigCh == Some(t.loop.ch);
  }

  lemma SendItTargets(s: State, h: History, out: Outcome)
    requires Targets(s, h) && s.loop.SigSend?
    ensures Targets(SignalSendStep(s, out), h.After(SignalSend(out)))
  {
    var t := SignalSendStep(s, out);
    assert t.cfg == s.cfg && t.drains == s.drains && t.sh == s.sh && t.loop == SigSent(s.loop.sig, s.loop.ch, out);
  }

  lemma SignalTargets(s: State, h: History, e: Event)
    requires Targets(s, h) && Enabled(s, e) && SignalEvent(e)
    ensures Targets(Step(s, e), h.After(e))
  {
    if e.SignalDecide? {
      DecideTargets(s, h);
    } else if e.SignalSend? {
      SendItTargets(s, h, e.out);
    } else {
      SignalLeaves(s, e);
      TargetsFrame(s, Step(s, e), h, h.After(e));
    }
  }

  lemma TargetsBreakConfig(s: State, h: History, e: Event)
    requires Targets(s, h) && Enabled(s, e) && BreakConfigEvent(e)
    ensures Targets(Step(s, e), h.After(e))
  {
    BreakConfigLeaves(s, e);
    TargetsFrame(s, Step(s, e), h, h.After(e));
  }

  lemma TargetsBreak(s: State, h: History, e: Event)
    requires Targets(s, h) && Enabled(s, e) && BreakEvent(e) && !BreakConfigEvent(e)
    ensures Targets(Step(s, e), h.After(e))
  {
    BreakLeaves(s, e);
    TargetsFrame(s, Step(s, e), h, h.After(e));
  }

  lemma ExitTargets(s: State, h: History, e: Event)
    requires Targets(s, h) && Enabled(s, e) && ExitEvent(e)
    ensures Targets(Step(s, e), h.After(e))
  {
    ExitLeaves(s, e);
    if !e.ExitStopSignals? {
      TargetsFrame(s, Step(s, e), h, h.After(e));
    }
  }

  lemma TargetsStep(s: State, h: History, e: Event)
    requires Targets(s, h) && Structure(s) && Enabled(s, e)
    ensures Targets(Step(s, e), h.After(e))
  {
    if ConfigEvent(e) {
      ConfigTargets(s, h, e);
    } else if DrainEvent(e) {
      DrainTargets(s, h, e);
    } else if SignalEvent(e) {
      SignalTargets(s, h, e);
    } else if BreakConfigEvent(e) {
      TargetsBreakConfig(s, h, e);
    } else if BreakEvent(e) {
      TargetsBreak(s, h, e);
    } else {
      ExitTargets(s, h, e);
    }
  }

  lemma SameReceivers(s: State, e: Event)
    requires Enabled(s, e) && !e.DrainSend? && !e.SignalSend?
    ensures SameRecords(s, Step(s, e))
  {
    if ConfigEvent(e) {
      ConfigLeaves(s, e);
    } else if DrainEvent(e) {
      DrainLeaves(s, e);
    } else if SignalEvent(e) {
      SignalLeaves(s, e);
    } else if BreakConfigEvent(e) {
      BreakConfigLeaves(s, e);
    } else if BreakEvent(e) {
      BreakLeaves(s, e);
    } else {
      ExitLeaves(s, e);
    }
  }

  /** Only a delivery adds to the record, and it adds the channel in effect. */
  lemma RecordsStep(s: State, h: History, e: Event)
    requires Targets(s, h) && Records(s, h) && Enabled(s, e)
    ensures Records(Step(s, e), h.After(e))
  {
    if e.DrainSend? {
      assert s.drains[e.d].Send?;
    } else if !e.SignalSend? {
      SameReceivers(s, e);
    }
  }

  // ---------------------------------------------------------------- a receiver is not forgotten

  predicate DrainAtWork(done: Option<nat>, drains: map<nat, Drain>) {
    done.Some? && done.value in drains && (drains[done.value].Take? || drains[done.value].Send?)
  }

  predicate Configured(cfg: Config) {
    cfg.Free? || cfg.Held?
  }

  /** The channel in effect is registered, or a drain works for it, unless it was closed or the
      context has ended. */
  ghost predicate Listens(s: State, h: History) {
    Configured(s.cfg) && h.inEffect.Some? && h.inEffect.value !in s.closedTargets && !s.contextDone ==>
      s.sh.sigCh == h.inEffect || DrainAtWork(s.sh.sigDrainDone, s.drains)
  }

  predicate ClosedKnown(s: State) {
    && (s.loop.SigSent? && s.loop.out == TargetClosed ==> s.loop.ch in s.closedTargets)
    && (s.loop.BreakSent? && s.loop.out == TargetClosed ==> s.loop.ch in s.closedTargets)
  }

  lemma ListensFrame(s: State, t: State, h: History, k: History)
    requires Listens(s, h) && k.inEffect == h.inEffect && (Configured(t.cfg) ==> Configured(s.cfg))
    requires t.drains == s.drains && t.sh.sigCh == s.sh.sigCh && t.sh.sigDrainDone == s.sh.sigDrainDone
    requires s.closedTargets <= t.closedTargets && (s.contextDone ==> t.contextDone)
    ensures Listens(t, k)
  {
  }

  lemma RegisterListens(s: State, h: History)
    requires Targets(s, h) && s.cfg.WaitSends?
    ensures Listens(ConfigRegisterStep(s), h.After(ConfigRegister))
  {
  }

  lemma ConfigListens(s: State, h: History, e: Event)
    requires Listens(s, h) && Targets(s, h) && Enabled(s, e) && ConfigEvent(e)
    ensures Listens(Step(s, e), h.After(e))
  {
    if e.ConfigRegister? {
      RegisterListens(s, h);
    } else if !e.ConfigBegin? && !e.ConfigWake? {
      ListensFrame(s, Step(s, e), h, h.After(e));
    }
  }

  lemma TakeListens(s: State, h: History, d: nat)
    requires Listens(s, h) && Targets(s, h) && DrainsInv(s) && d in s.drains && s.drains[d].Take?
    ensures Listens(DrainTakeStep(s, d), h)
  {
    assert s.sh.sigDrainDone == Some(d);
  }

  lemma SendListens(s: State, h: History, d: nat, out: Outcome)
    requires Listens(s, h) && Targets(s, h) && DrainsInv(s) && ConfigInv(s) && Enabled(s, DrainSend(d, out))
    ensures Listens(DrainSendStep(s, d, out), h.After(DrainSend(d, out)))
  {
    assert s.sh.sigDrainDone == Some(d);
    assert out == Cancelled ==> s.cfg.WaitDone?;
    assert h.inEffect == Some(s.drains[d].target);
  }

  lemma RequeueListens(s: State, h: History, d: nat)
    requires Listens(s, h) && Fields(s) && DrainsInv(s) && d in s.drains && s.drains[d].Requeue?
    ensures Listens(DrainRequeueStep(s, d), h)
  {
    assert s.sh.sigDrainDone == Some(d) && s.sh.sigCh.None?;
  }

  lemma FinishListens(s: State, h: History, d: nat)
    requires Listens(s, h) && d in s.drains && s.drains[d].Final?
    ensures Listens(DrainFinishStep(s, d), h)
  {
  }

  lemma DrainListens(s: State, h: History, e: Event)
    requires Listens(s, h) && Targets(s, h) && Structure(s) && Enabled(s, e) && DrainEvent(e)
    ensures Listens(Step(s, e), h.After(e))
  {
    if e.DrainTake? {
      TakeListens(s, h, e.d);
    } else if e.DrainSend? {
      SendListens(s, h, e.d, e.out);
    } else if e.DrainRequeue? {
      RequeueListens(s, h, e.d);
    } else {
      FinishListens(s, h, e.d);
    }
  }

  lemma AfterListens(s: State, h: History)
    requires Listens(s, h) && ClosedKnown(s) && s.loop.SigSent?
    ensures Listens(SignalAfterStep(s), h)
  {
  }

  lemma DecideListens(s: State, h: History)
    requires Listens(s, h) && s.loop.SigHeld?
    ensures Listens(SignalDecideStep(s), h)
  {
    var t := SignalDecideStep(s);
    assert t.sh.sigCh == s.sh.sigCh && t.sh.sigDrainDone == s.sh.sigDrainDone && t.drains == s.drains && t.cfg == s.cfg;
    ListensFrame(s, t, h, h);
  }

  lemma ListensStep(s: State, h: History, e: Event)
    requires Listens(s, h) && Targets(s, h) && ClosedKnown(s) && Structure(s) && Enabled(s, e)
    ensures Listens(Step(s, e), h.After(e))
  {
    if ConfigEvent(e) {
      ConfigListens(s, h, e);
    } else if DrainEvent(e) {
      DrainListens(s, h, e);
    } else if e.SignalAfter? {
      AfterListens(s, h);
    } else if e.SignalDecide? {
      DecideListens(s, h);
    } else {
      OtherListens(s, h, e);
    }
  }

  lemma OtherListens(s: State, h: History, e: Event)
    requires Listens(s, h) && Enabled(s, e)
    requires BreakEvent(e) || ExitEvent(e) || e.SignalArrive? || e.SignalSend? || e.SignalAnswer?
    ensures Listens(Step(s, e), h.After(e))
  {
    var t, k := Step(s, e), h.After(e);
    assert k.inEffect == h.inEffect;
    if BreakConfigEvent(e) {
      BreakConfigLeaves(s, e);
      ListensFrame(s, t, h, k);
    } else if BreakEvent(e) {
      BreakLeaves(s, e);
      ListensFrame(s, t, h, k);
    } else if ExitEvent(e) {
      ExitLeaves(s, e);
      assert e.ExitStopSignals? ==> s.cfg.Free?;
      ListensFrame(s, t, h, k);
    } else {
      SignalLeaves(s, e);
      ListensFrame(s, t, h, k);
    }
  }

  lemma DrainKeepsClosed(s: State, e: Event)
    requires ClosedKnown(s) && Enabled(s, e) && DrainEvent(e)
    ensures ClosedKnown(Step(s, e))
  {
    DrainLeaves(s, e);
  }

  lemma SendClosedKnown(s: State, e: Event)
    requires Enabled(s, e) && (e.SignalSend? || e.BreakSendIt?)
    ensures ClosedKnown(Step(s, e))
  {
  }

  lemma ClosedKnownStep(s: State, e: Event)
    requires ClosedKnown(s) && Enabled(s, e)
    ensures ClosedKnown(Step(s, e))
  {
    if ConfigEvent(e) {
      ConfigLeaves(s, e);
    } else if DrainEvent(e) {
      DrainKeepsClosed(s, e);
    } else if e.SignalSend? || e.BreakSendIt? {
      SendClosedKnown(s, e);
    } else if SignalEvent(e) {
      SignalLeaves(s, e);
      assert !Step(s, e).loop.SigSent?;
    } else if BreakConfigEvent(e) {
      BreakConfigLeaves(s, e);
    } else if BreakEvent(e) {
      BreakLeaves(s, e);
      assert !Step(s, e).loop.BreakSent?;
    } else {
      ExitLeaves(s, e);
    }
  }

  // ---------------------------------------------------------------- breaks

  predicate BreakSending(l: Loop) {
    l.BreakSend? || l.BreakSent?
  }

  ghost predicate BreakTargets(s: State, h: History) {
    && (!s.bcfg.Free? ==> s.bcfg.target == h.breakCalled)
    && (s.sh.breakCh.Some? ==> s.sh.breakCh == h.breakInEffect)
    && (BreakSending(s.loop) ==> h.breakInEffect == Some(s.loop.ch))
    && (Configured(s.bcfg) && h.breakInEffect.Some? && h.breakInEffect.value !in s.closedTargets ==>
          s.sh.breakCh == h.breakInEffect)
  }

  ghost predicate BreakRecords(s: State, h: History) {
    SameChannels(h.breaksTo, s.breaks)
  }

  /** How many breaks were answered true. */
  function BreaksAnswered(w: seq<Wire>): nat {
    if w == [] then 0 else BreaksAnswered(w[..|w| - 1]) + One(w[|w| - 1] == BreakReply(true))
  }

  predicate BreakTaken(l: Loop) {
    (l.BreakSent? && l.out == Delivered) || (l.BreakReplying? && l.ok)
  }

  ghost predicate BreakAnswers(s: State) {
    BreaksAnswered(s.wire) + One(BreakTaken(s.loop)) == |s.breaks|
  }

  lemma BreakTargetsFrame(s: State, t: State, h: History, k: History)
    requires BreakTargets(s, h) && k.breakCalled == h.breakCalled && k.breakInEffect == h.breakInEffect
    requires t.bcfg == s.bcfg && t.sh.breakCh == s.sh.breakCh && s.closedTargets <= t.closedTargets
    requires t.loop == s.loop || !BreakSending(t.loop)
    ensures BreakTargets(t, k)
  {
  }

  lemma BreakRegisterTargets(s: State, h: History)
    requires BreakTargets(s, h) && ConfigInv(s) && LoopInv(s) && s.bcfg.WaitSends? && s.sh.breakSends == 0
    ensures BreakTargets(BreakConfigRegisterStep(s), h.After(BreakConfigRegister))
  {
  }

  lemma BreakAfterTargets(s: State, h: History)
    requires BreakTargets(s, h) && ClosedKnown(s) && s.loop.BreakSent?
    ensures BreakTargets(BreakAfterStep(s), h)
  {
  }

  lemma BreakTryTargets(s: State, h: History)
    requires BreakTargets(s, h)
    ensures BreakTargets(BreakTryStep(s), h)
  {
    var t := BreakTryStep(s);
    assert t.sh.breakCh == s.sh.breakCh && t.bcfg == s.bcfg && t.closedTargets == s.closedTargets;
  }

  lemma BreakCallTargets(s: State, h: History, c: Option<nat>)
    requires BreakTargets(s, h) && s.bcfg.Free?
    ensures BreakTargets(CallBreakStep(s, c), h.After(CallBreak(c)))
  {
  }

  lemma BreakBeginTargets(s: State, h: History)
    requires BreakTargets(s, h) && s.bcfg.Held?
    ensures BreakTargets(BreakConfigBeginStep(s), h)
  {
  }

  lemma BreakSendTargets(s: State, h: History, out: Outcome)
    requires BreakTargets(s, h) && s.loop.BreakSend?
    ensures BreakTargets(BreakSendItStep(s, out), h.After(BreakSendIt(out)))
  {
    var t := BreakSendItStep(s, out);
    assert t.sh == s.sh && t.bcfg == s.bcfg && t.closedTargets == s.closedTargets && t.loop == BreakSent(s.loop.ch, out);
  }

  lemma BreakTargetsBreak(s: State, h: History, e: Event)
    requires BreakTargets(s, h) && ConfigInv(s) && LoopInv(s) && ClosedKnown(s) && Enabled(s, e) && BreakEvent(e)
    ensures BreakTargets(Step(s, e), h.After(e))
  {
    if e.CallBreak? {
      BreakCallTargets(s, h, e.c);
    } else if e.BreakConfigBegin? {
      BreakBeginTargets(s, h);
    } else if e.BreakConfigRegister? {
      BreakRegisterTargets(s, h);
    } else if e.BreakTry? {
      BreakTryTargets(s, h);
    } else if e.BreakSendIt? {
      BreakSendTargets(s, h, e.out);
    } else if e.BreakAfter? {
      BreakAfterTargets(s, h);
    } else if e.BreakArrive? {
      BreakTargetsFrame(s, BreakArriveStep(s), h, h);
    } else {
      BreakTargetsFrame(s, BreakAnswerStep(s), h, h);
    }
  }

  lemma BreakTargetsSignals(s: State, h: History, e: Event)
    requires BreakTargets(s, h) && Enabled(s, e) && (ConfigEvent(e) || DrainEvent(e) || SignalEvent(e))
    ensures BreakTargets(Step(s, e), h.After(e))
  {
    if ConfigEvent(e) {
      ConfigLeaves(s, e);
    } else if DrainEvent(e) {
      DrainLeaves(s, e);
    } else {
      SignalLeaves(s, e);
    }
    BreakTargetsFrame(s, Step(s, e), h, h.After(e));
  }

  lemma BreakTargetsExit(s: State, h: History, e: Event)
    requires BreakTargets(s, h) && Enabled(s, e) && ExitEvent(e)
    ensures BreakTargets(Step(s, e), h.After(e))
  {
    ExitLeaves(s, e);
    if !e.ExitStopBreaks? {
      BreakTargetsFrame(s, Step(s, e), h, h.After(e));
    }
  }

  lemma BreakTargetsStep(s: State, h: History, e: Event)
    requires BreakTargets(s, h) && ClosedKnown(s) && Structure(s) && Enabled(s, e)
    ensures BreakTargets(Step(s, e), h.After(e))
  {
    if BreakEvent(e) {
      BreakTargetsBreak(s, h, e);
    } else if ExitEvent(e) {
      BreakTargetsExit(s, h, e);
    } else {
      BreakTargetsSignals(s, h, e);
    }
  }

  lemma SameBreaks(s: State, e: Event)
    requires Enabled(s, e) && !e.BreakSendIt?
    ensures Step(s, e).breaks == s.breaks
  {
    Delivery.Histories(s, e);
  }

  lemma BreakRecordsStep(s: State, h: History, e: Event)
    requires BreakTargets(s, h) && BreakRecords(s, h) && Enabled(s, e)
    ensures BreakRecords(Step(s, e), h.After(e))
  {
    if !e.BreakSendIt? {
      SameBreaks(s, e);
    }
  }

  lemma BreakAnswersAppend(w: seq<Wire>, m: Wire)
    ensures BreaksAnswered(w + [m]) == BreaksAnswered(w) + One(m == BreakReply(true))
  {
    assert (w + [m])[..|w|] == w;
  }

  lemma BreakSendAnswers(s: State, out: Outcome)
    requires BreakAnswers(s) && s.loop.BreakSend?
    ensures BreakAnswers(BreakSendItStep(s, out))
  {
  }

  lemma BreakReplyAnswers(s: State)
    requires BreakAnswers(s) && s.loop.BreakReplying?
    ensures BreakAnswers(BreakAnswerStep(s))
  {
    BreakAnswersAppend(s.wire, BreakReply(s.loop.ok));
  }

  lemma BreakAnswersBreak(s: State, e: Event)
    requires BreakAnswers(s) && Enabled(s, e) && BreakEvent(e) && !BreakConfigEvent(e)
    ensures BreakAnswers(Step(s, e))
  {
    if e.BreakSendIt? {
      BreakSendAnswers(s, e.out);
    } else if e.BreakAnswer? {
      BreakReplyAnswers(s);
    } else {
      Delivery.Histories(s, e);
      assert BreakTaken(Step(s, e).loop) == BreakTaken(s.loop);
    }
  }

  lemma BreakAnswersSignal(s: State, e: Event)
    requires BreakAnswers(s) && Enabled(s, e) && SignalEvent(e)
    ensures BreakAnswers(Step(s, e))
  {
    if e.SignalAnswer? {
      BreakAnswersAppend(s.wire, SignalReply(s.loop.sig, s.loop.ok));
      assert Step(s, e).wire == s.wire + [SignalReply(s.loop.sig, s.loop.ok)] && Step(s, e).breaks == s.breaks;
    } else {
      Delivery.Histories(s, e);
    }
    SignalLeaves(s, e);
    assert !BreakTaken(s.loop) && !BreakTaken(Step(s, e).loop);
  }

  lemma BreakAnswersOther(s: State, e: Event)
    requires BreakAnswers(s) && Enabled(s, e)
    requires ConfigEvent(e) || DrainEvent(e) || BreakConfigEvent(e) || ExitEvent(e)
    ensures BreakAnswers(Step(s, e))
  {
    Delivery.Histories(s, e);
    if e.ExitFinish? {
      BreakAnswersAppend(s.wire, ExitStatus(e.x));
    }
  }

  lemma BreakAnswersStep(s: State, e: Event)
    requires BreakAnswers(s) && Enabled(s, e)
    ensures BreakAnswers(Step(s, e))
  {
    if SignalEvent(e) {
      BreakAnswersSignal(s, e);
    } else if BreakEvent(e) && !BreakConfigEvent(e) {
      BreakAnswersBreak(s, e);
    } else {
      BreakAnswersOther(s, e);
    }
  }

  // ---------------------------------------------------------------- verdicts

  /** The signal is the one that arrived under its number. */
  predicate Genuine(x: Signal, h: History) {
    x.arrival < |h.arrived| && x.name == h.arrived[x.arrival].name
  }

  /** A signal that is refused is malformed or too long, meets an exit, or its receiver did not take it. */
  predicate Excused(x: Signal, h: History)
    requires Genuine(x, h)
  {
    !Good(h.arrived[x.arrival]) || h.exitBegan || x.arrival in h.failed
  }

  predicate Granted(x: Signal, h: History)
    requires Genuine(x, h)
  {
    Good(h.arrived[x.arrival]) && x.arrival !in h.failed
  }

  predicate Verdict(x: Signal, ok: bool, h: History) {
    Genuine(x, h) && if ok then Granted(x, h) else Excused(x, h)
  }

  ghost predicate HistoryOk(h: History) {
    forall n :: n in h.failed ==> n < |h.arrived|
  }

  /** The signal in the loop's hands is the newest arrival. */
  ghost predicate InHand(s: State, h: History) {
    && s.arrivals == |h.arrived|
    && (s.sh.exiting <==> h.exitBegan)
    && (InSignal(s.loop) ==> Genuine(s.loop.sig, h) && s.loop.sig.arrival == |h.arrived| - 1)
    && (s.loop.SigHeld? ==> s.loop.valid == Good(h.arrived[s.loop.sig.arrival]) && s.loop.sig.arrival !in h.failed)
    && (s.loop.SigSend? ==> Granted(s.loop.sig, h))
    && (s.loop.SigSent? ==> Verdict(s.loop.sig, s.loop.out == Delivered, h))
    && (s.loop.SigReplying? ==> Verdict(s.loop.sig, s.loop.ok, h))
  }

  /** The replies to signals, in order. */
  function SignalReplies(w: seq<Wire>): (r: seq<Wire>)
    ensures forall i :: 0 <= i < |r| ==> r[i].SignalReply?
  {
    if w == [] then []
    else
      var init := SignalReplies(w[..|w| - 1]);
      if w[|w| - 1].SignalReply? then init + [w[|w| - 1]] else init
  }

  ghost predicate VerdictAt(r: seq<Wire>, i: int, h: History)
    requires 0 <= i < |r| && r[i].SignalReply?
  {
    r[i].sig.arrival == i && Verdict(r[i].sig, r[i].ok, h)
  }

  ghost predicate Verdicts(w: seq<Wire>, l: Loop, h: History) {
    var r := SignalReplies(w);
    |r| + One(InSignal(l)) == |h.arrived| && forall i :: 0 <= i < |r| ==> VerdictAt(r, i, h)
  }

  /** Later events change no verdict that has been given. */
  lemma VerdictKept(x: Signal, ok: bool, h: History, k: History)
    requires Verdict(x, ok, h)
    requires |h.arrived| <= |k.arrived| && k.arrived[..|h.arrived|] == h.arrived
    requires x.arrival in h.failed <==> x.arrival in k.failed
    requires h.exitBegan ==> k.exitBegan
    ensures Verdict(x, ok, k)
  {
    assert k.arrived[x.arrival] == k.arrived[..|h.arrived|][x.arrival];
  }

  lemma VerdictsKept(w: seq<Wire>, l: Loop, h: History, k: History)
    requires Verdicts(w, l, h) && k.arrived == h.arrived && (h.exitBegan ==> k.exitBegan)
    requires forall n :: 0 <= n < |SignalReplies(w)| ==> (n in h.failed <==> n in k.failed)
    ensures Verdicts(w, l, k)
  {
    var r := SignalReplies(w);
    assert k.arrived[..|h.arrived|] == h.arrived;
    forall i | 0 <= i < |r|
      ensures VerdictAt(r, i, k)
    {
      assert VerdictAt(r, i, h);
      VerdictKept(r[i].sig, r[i].ok, h, k);
    }
  }

  lemma RepliesAppend(w: seq<Wire>, m: Wire)
    ensures SignalReplies(w + [m]) == SignalReplies(w) + if m.SignalReply? then [m] else []
  {
    assert (w + [m])[..|w|] == w;
  }

  ghost predicate VerdictsInv(s: State, h: History) {
    HistoryOk(h) && InHand(s, h) && Verdicts(s.wire, s.loop, h)
  }

  lemma ArriveVerdicts(s: State, h: History, name: string, wellFormed: bool)
    requires VerdictsInv(s, h) && s.loop.Idle?
    ensures VerdictsInv(SignalArriveStep(s, name, wellFormed), h.After(SignalArrive(name, wellFormed)))
  {
    var t, k := SignalArriveStep(s, name, wellFormed), h.After(SignalArrive(name, wellFormed));
    var r := SignalReplies(s.wire);
    forall i | 0 <= i < |r|
      ensures VerdictAt(r, i, k)
    {
      assert VerdictAt(r, i, h);
      VerdictKept(r[i].sig, r[i].ok, h, k);
    }
  }

  lemma DecideVerdicts(s: State, h: History)
    requires VerdictsInv(s, h) && s.loop.SigHeld?
    ensures VerdictsInv(SignalDecideStep(s), h.After(SignalDecide))
  {
    var t, k := SignalDecideStep(s), h.After(SignalDecide);
    assert t.wire == s.wire && t.arrivals == s.arrivals && t.sh.exiting == s.sh.exiting;
    VerdictsKept(s.wire, s.loop, h, k);
  }

  lemma SendVerdicts(s: State, h: History, out: Outcome)
    requires VerdictsInv(s, h) && s.loop.SigSend?
    ensures VerdictsInv(SignalSendStep(s, out), h.After(SignalSend(out)))
  {
    var t, k := SignalSendStep(s, out), h.After(SignalSend(out));
    VerdictsKept(s.wire, s.loop, h, k);
    assert t.wire == s.wire && t.arrivals == s.arrivals && t.sh == s.sh;
  }

  lemma AfterVerdicts(s: State, h: History)
    requires VerdictsInv(s, h) && s.loop.SigSent?
    ensures VerdictsInv(SignalAfterStep(s), h)
  {
    var t := SignalAfterStep(s);
    assert t.wire == s.wire && t.arrivals == s.arrivals && t.sh.exiting == s.sh.exiting;
  }

  lemma AnswerVerdicts(s: State, h: History)
    requires VerdictsInv(s, h) && s.loop.SigReplying?
    ensures VerdictsInv(SignalAnswerStep(s), h)
  {
    var t := SignalAnswerStep(s);
    var r, u := SignalReplies(s.wire), SignalReplies(t.wire);
    RepliesAppend(s.wire, SignalReply(s.loop.sig, s.loop.ok));
    forall i | 0 <= i < |u|
      ensures VerdictAt(u, i, h)
    {
      assert i < |r| ==> VerdictAt(r, i, h);
    }
  }

  /** Neither arrivals, answers to signals nor the signal in hand change. */
  lemma VerdictsFrame(s: State, t: State, h: History, k: History)
    requires VerdictsInv(s, h) && k.arrived == h.arrived && k.failed == h.failed && k.exitBegan == t.sh.exiting
    requires h.exitBegan ==> k.exitBegan
    requires t.arrivals == s.arrivals && SignalReplies(t.wire) == SignalReplies(s.wire)
    requires t.loop == s.loop || (!InSignal(s.loop) && !InSignal(t.loop))
    ensures VerdictsInv(t, k)
  {
    VerdictsKept(s.wire, s.loop, h, k);
    if InSignal(s.loop) {
      assert k.arrived[..|h.arrived|] == h.arrived;
    }
  }

  lemma BreakVerdicts(s: State, h: History, e: Event)
    requires VerdictsInv(s, h) && Enabled(s, e) && BreakEvent(e)
    ensures VerdictsInv(Step(s, e), h.After(e))
  {
    if e.BreakAnswer? {
      RepliesAppend(s.wire, BreakReply(s.loop.ok));
    } else {
      Delivery.Histories(s, e);
    }
    if BreakConfigEvent(e) {
      BreakConfigLeaves(s, e);
    } else {
      BreakLeaves(s, e);
    }
    VerdictsFrame(s, Step(s, e), h, h.After(e));
  }

  lemma ExitVerdicts(s: State, h: History, e: Event)
    requires VerdictsInv(s, h) && ExitInv(s) && Enabled(s, e) && ExitEvent(e)
    ensures VerdictsInv(Step(s, e), h.After(e))
  {
    if e.ExitFinish? {
      RepliesAppend(s.wire, ExitStatus(e.x));
    } else {
      Delivery.Histories(s, e);
    }
    ExitLeaves(s, e);
    VerdictsFrame(s, Step(s, e), h, h.After(e));
  }

  lemma ConfigVerdicts(s: State, h: History, e: Event)
    requires VerdictsInv(s, h) && Enabled(s, e) && (ConfigEvent(e) || DrainEvent(e))
    ensures VerdictsInv(Step(s, e), h.After(e))
  {
    Delivery.Histories(s, e);
    if ConfigEvent(e) {
      ConfigLeaves(s, e);
    } else {
      DrainLeaves(s, e);
    }
    VerdictsFrame(s, Step(s, e), h, h.After(e));
  }

  lemma VerdictsStep(s: State, h: History, e: Event)
    requires VerdictsInv(s, h) && ExitInv(s) && Enabled(s, e)
    ensures VerdictsInv(Step(s, e), h.After(e))
  {
    if ConfigEvent(e) || DrainEvent(e) {
      ConfigVerdicts(s, h, e);
    } else if BreakEvent(e) {
      BreakVerdicts(s, h, e);
    } else if ExitEvent(e) {
      ExitVerdicts(s, h, e);
    } else if e.SignalArrive? {
      ArriveVerdicts(s, h, e.name, e.wellFormed);
    } else if e.SignalDecide? {
      DecideVerdicts(s, h);
    } else if e.SignalSend? {
      SendVerdicts(s, h, e.out);
    } else if e.SignalAfter? {
      AfterVerdicts(s, h);
    } else {
      AnswerVerdicts(s, h);
    }
  }

  // ---------------------------------------------------------------- when the request loop ends

  predicate Continues(s: State, h: History) {
    && (s.loop.SigReplying? ==> s.loop.continues == !h.ends)
    && (s.loop.SigSent? ==> (s.loop.out == ContextDone <==> h.ends))
    && (s.loop.Stopped? ==> h.ends)
    && (s.loop.Idle? || InBreak(s.loop) ==> !h.ends)
  }

  lemma ContinuesFrame(s: State, t: State, h: History, k: History)
    requires Continues(s, h) && t.loop == s.loop && k.ends == h.ends
    ensures Continues(t, k)
  {
  }

  lemma DecideContinues(s: State, h: History)
    requires Continues(s, h) && InHand(s, h) && s.loop.SigHeld?
    ensures Continues(SignalDecideStep(s), h.After(SignalDecide))
  {
  }

  lemma SignalContinues(s: State, h: History, e: Event)
    requires Continues(s, h) && InHand(s, h) && Enabled(s, e) && SignalEvent(e)
    ensures Continues(Step(s, e), h.After(e))
  {
    if e.SignalDecide? {
      DecideContinues(s, h);
    }
  }

  lemma ContinuesStep(s: State, h: History, e: Event)
    requires Continues(s, h) && InHand(s, h) && Enabled(s, e)
    ensures Continues(Step(s, e), h.After(e))
  {
    if ConfigEvent(e) {
      ConfigLeaves(s, e);
      ContinuesFrame(s, Step(s, e), h, h.After(e));
    } else if DrainEvent(e) {
      DrainLeaves(s, e);
      ContinuesFrame(s, Step(s, e), h, h.After(e));
    } else if SignalEvent(e) {
      SignalContinues(s, h, e);
    } else if BreakConfigEvent(e) {
      BreakConfigLeaves(s, e);
      ContinuesFrame(s, Step(s, e), h, h.After(e));
    } else if BreakEvent(e) {
      BreakLeaves(s, e);
    } else {
      ExitLeaves(s, e);
      ContinuesFrame(s, Step(s, e), h, h.After(e));
    }
  }

  // ---------------------------------------------------------------- the exit status

  ghost predicate Status(s: State, h: History) {
    && (s.sh.exited <==> h.exitedBy.Some?)
    && (forall i :: 0 <= i < |s.wire| && s.wire[i].ExitStatus? ==> h.exitedBy == Some(s.wire[i].caller))
  }

  lemma StatusStep(s: State, h: History, e: Event)
    requires Status(s, h) && Enabled(s, e)
    ensures Status(Step(s, e), h.After(e))
  {
    Delivery.Histories(s, e);
    if e.SignalAnswer? || e.BreakAnswer? || e.ExitFinish? {
      StatusAnswer(s, h, e);
    }
  }

  lemma StatusAnswer(s: State, h: History, e: Event)
    requires Status(s, h) && Enabled(s, e) && (e.SignalAnswer? || e.BreakAnswer? || e.ExitFinish?)
    ensures Status(Step(s, e), h.After(e))
  {
  }

  // ---------------------------------------------------------------- runs

  ghost predicate Follows(s: State, h: History) {
    && Targets(s, h) && Records(s, h) && Listens(s, h) && ClosedKnown(s)
    && BreakTargets(s, h) && BreakRecords(s, h) && BreakAnswers(s)
    && VerdictsInv(s, h) && Continues(s, h) && Status(s, h)
  }

  lemma FollowsStep(s: State, h: History, e: Event)
    requires Structure(s) && Follows(s, h) && Enabled(s, e)
    ensures Follows(Step(s, e), h.After(e))
  {
    TargetsStep(s, h, e);
    RecordsStep(s, h, e);
    ListensStep(s, h, e);
    ClosedKnownStep(s, e);
    BreakTargetsStep(s, h, e);
    BreakRecordsStep(s, h, e);
    BreakAnswersStep(s, e);
    VerdictsStep(s, h, e);
    ContinuesStep(s, h, e);
    StatusStep(s, h, e);
  }

  lemma InitFollows()
    ensures Follows(Init, NoHistory)
  {
  }

  lemma {:induction false} RunFollows(es: seq<Event>)
    ensures Follows(Run(Init, es), Happened(es))
  {
    if es == [] {
      InitFollows();
    } else {
      var init, e := es[..|es| - 1], es[|es| - 1];
      var s, h := Run(Init, init), Happened(init);
      RunFollows(init);
      Delivery.Reachable(init);
      if Enabled(s, e) {
        FollowsStep(s, h, e);
      }
    }
  }

  /** Each signal that is delivered goes to the channel of the latest call that was in effect at that
      moment, directly or through its drain, and a registered channel is that one. */
  lemma SignalsReachTheirReceiver(es: seq<Event>)
    ensures var s, h := Run(Init, es), Happened(es);
      && |s.receivers| == |s.delivered| == |h.sentTo|
      && (forall i :: 0 <= i < |s.receivers| ==> h.sentTo[i] == Some(s.receivers[i]))
      && (s.sh.sigCh.Some? ==> s.sh.sigCh == h.inEffect)
  {
    RunFollows(es);
  }

  /** A receiver whose registration took effect is served until the next call, the end of the context
      or its own close: it is registered with nothing buffered, or a drain sends to it. */
  lemma ReceiverIsServed(es: seq<Event>, c: nat)
    requires Happened(es).inEffect == Some(c)
    requires var s := Run(Init, es); s.cfg.Free? && c !in s.closedTargets && !s.contextDone
    ensures var s := Run(Init, es);
      || (s.sh.sigCh == Some(c) && s.sh.sigBuf == [])
      || (exists d :: d in s.drains && (s.drains[d].Take? || s.drains[d].Send?) && s.drains[d].target == c)
  {
    RunFollows(es);
    Delivery.Reachable(es);
    var s := Run(Init, es);
    if s.sh.sigCh.None? {
      assert s.sh.sigDrainDone.value in s.drains;
    }
  }

  /** The same for breaks, which are not buffered; and exactly the delivered ones are answered true. */
  lemma BreaksReachTheirReceiver(es: seq<Event>)
    ensures var s, h := Run(Init, es), Happened(es);
      && |s.breaks| == |h.breaksTo| == BreaksAnswered(s.wire) + One(BreakTaken(s.loop))
      && (forall i :: 0 <= i < |s.breaks| ==> h.breaksTo[i] == Some(s.breaks[i]))
      && (s.sh.breakCh.Some? ==> s.sh.breakCh == h.breakInEffect)
      && (s.bcfg.Free? && h.breakInEffect.Some? && h.breakInEffect.value !in s.closedTargets ==>
            s.sh.breakCh == h.breakInEffect)
  {
    RunFollows(es);
  }

  /** The n-th reply to a signal answers the n-th arrival. It is positive only if that arrival is well
      formed, at most 64 bytes long and its receiver did not turn it down, and negative only if one of
      these fails or an exit had begun. */
  lemma EachArrivalHasItsVerdict(es: seq<Event>, i: nat)
    requires i < |SignalReplies(Run(Init, es).wire)|
    ensures var r, h := SignalReplies(Run(Init, es).wire)[i], Happened(es);
      && |SignalReplies(Run(Init, es).wire)| + One(InSignal(Run(Init, es).loop)) == |h.arrived|
      && r.sig == Signal(h.arrived[i].name, i)
      && (r.ok ==> h.arrived[i].wellFormed && |h.arrived[i].name| <= 64 && i !in h.failed)
      && (!r.ok ==> !h.arrived[i].wellFormed || |h.arrived[i].name| > 64 || i in h.failed || h.exitBegan)
  {
    RunFollows(es);
    var r := SignalReplies(Run(Init, es).wire);
    assert VerdictAt(r, i, Happened(es));
  }

  /** The request loop ends with a signal exactly if it met an exit, or the end of the context while it
      was sent to a receiver. */
  lemma LoopEndsIff(es: seq<Event>)
    ensures Run(Init, es).loop.Stopped? ==> Happened(es).ends
    ensures Run(Init, es).loop.Idle? || InBreak(Run(Init, es).loop) ==> !Happened(es).ends
  {
    RunFollows(es);
  }

  /** The exit status is sent by the first call of Exit that comes through. */
  lemma FirstExitSendsStatus(es: seq<Event>, i: nat)
    requires i < |Run(Init, es).wire| && Run(Init, es).wire[i].ExitStatus?
    ensures Happened(es).exitedBy == Some(Run(Init, es).wire[i].caller)
  {
    RunFollows(es);
  }
}
