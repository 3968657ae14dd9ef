/** The structural invariant of the session protocol is kept by every step. Each part of it depends
    on few fields: a step either leaves these alone, and a frame lemma says so, or a lemma of its
    own shows that the part is kept. */
module SessionStructure {
  import opened Prelude
  import opened SessionState
  import opened SessionProtocol

  // ---------------------------------------------------------------- what the parts depend on

  lemma FieldsFrame(s: State, t: State)
    requires Fields(s) && s.drains.Keys <= t.drains.Keys
    requires t.sh == s.sh.(exiting := t.sh.exiting, exited := t.sh.exited)
    ensures Fields(t)
  {
  }

  lemma DrainsFrame(s: State, t: State)
    requires DrainsInv(s) && t.drains == s.drains
    requires s.sh.made <= t.sh.made && t.sh.closedDones == s.sh.closedDones
    requires t.sh.sigDrainDone == s.sh.sigDrainDone
    ensures DrainsInv(t)
  {
  }

  lemma ConfigFrame(s: State, t: State)
    requires ConfigInv(s) && t.drains == s.drains && t.exits == s.exits && t.cfg == s.cfg && t.bcfg == s.bcfg
    requires t.sh.closedCancels == s.sh.closedCancels && t.sh.closedDones == s.sh.closedDones
    requires t.sh.sigDrainDone == s.sh.sigDrainDone && t.sh.sigCh == s.sh.sigCh && t.sh.breakCh == s.sh.breakCh
    ensures ConfigInv(t)
  {
  }

  lemma LoopFrame(s: State, t: State)
    requires LoopInv(s) && t.loop == s.loop && t.cfg == s.cfg && t.bcfg == s.bcfg
    requires t.sh == s.sh.(exiting := t.sh.exiting, exited := t.sh.exited)
    ensures LoopInv(t)
  {
  }

  lemma ReplyFrame(s: State, t: State)
    requires ReplyLocks(s) && t.loop == s.loop && t.exits == s.exits
    requires t.sigReply == s.sigReply && t.breakReply == s.breakReply
    ensures ReplyLocks(t)
  {
  }

  lemma ExitFrame(s: State, t: State)
    requires ExitInv(s) && t.loop == s.loop && t.exits == s.exits && t.cfg == s.cfg && t.bcfg == s.bcfg
    requires t.sh.exiting == s.sh.exiting && t.sh.exited == s.sh.exited
    requires t.sh.sigCh == s.sh.sigCh && t.sh.sigDrainDone == s.sh.sigDrainDone && t.sh.breakCh == s.sh.breakCh
    ensures ExitInv(t)
  {
  }

  /** A step that only the receivers see. */
  lemma Untouched(s: State, t: State)
    requires Structure(s) && t.sh == s.sh && t.loop == s.loop && t.cfg == s.cfg && t.bcfg == s.bcfg
    requires t.drains == s.drains && t.exits == s.exits && t.sigReply == s.sigReply && t.breakReply == s.breakReply
    ensures Structure(t)
  {
    FieldsFrame(s, t);
    DrainsFrame(s, t);
    ConfigFrame(s, t);
    LoopFrame(s, t);
    ReplyFrame(s, t);
    ExitFrame(s, t);
  }

  // ---------------------------------------------------------------- config steps

  lemma CallSignalsConfig(s: State, c: Option<nat>)
    requires Structure(s) && s.cfg.Free? && !s.sh.exiting
    ensures ConfigInv(CallSignalsStep(s, c))
  {
  }

  lemma CallSignalsLoop(s: State, c: Option<nat>)
    requires Structure(s) && s.cfg.Free? && !s.sh.exiting
    ensures LoopInv(CallSignalsStep(s, c))
  {
  }

  lemma CallSignalsExits(s: State, c: Option<nat>)
    requires Structure(s) && s.cfg.Free? && !s.sh.exiting
    ensures ExitInv(CallSignalsStep(s, c))
  {
  }

  lemma CallSignalsKeeps(s: State, c: Option<nat>)
    requires Structure(s) && s.cfg.Free? && !s.sh.exiting
    ensures Structure(CallSignalsStep(s, c))
  {
    var t := CallSignalsStep(s, c);
    FieldsFrame(s, t);
    DrainsFrame(s, t);
    CallSignalsConfig(s, c);
    CallSignalsLoop(s, c);
    ReplyFrame(s, t);
    CallSignalsExits(s, c);
  }

  lemma ConfigBeginFields(s: State)
    requires Structure(s) && s.cfg.Held?
    ensures Fields(ConfigBeginStep(s))
  {
  }

  lemma ConfigBeginConfig(s: State)
    requires Structure(s) && s.cfg.Held?
    ensures ConfigInv(ConfigBeginStep(s))
  {
  }

  lemma ConfigBeginLoop(s: State)
    requires Structure(s) && s.cfg.Held?
    ensures LoopInv(ConfigBeginStep(s))
  {
  }

  lemma ConfigBeginExits(s: State)
    requires Structure(s) && s.cfg.Held?
    ensures ExitInv(ConfigBeginStep(s))
  {
  }

  lemma ConfigBeginKeeps(s: State)
    requires Structure(s) && s.cfg.Held?
    ensures Structure(ConfigBeginStep(s))
  {
    var t := ConfigBeginStep(s);
    ConfigBeginFields(s);
    DrainsFrame(s, t);
    ConfigBeginConfig(s);
    ConfigBeginLoop(s);
    ReplyFrame(s, t);
    ConfigBeginExits(s);
  }

  lemma ConfigWakeFields(s: State)
    requires Structure(s) && s.cfg.WaitDone? && s.cfg.drain in s.sh.closedDones
    ensures Fields(ConfigWakeStep(s))
  {
  }

  lemma ConfigWakeConfig(s: State)
    requires Structure(s) && s.cfg.WaitDone? && s.cfg.drain in s.sh.closedDones
    ensures ConfigInv(ConfigWakeStep(s))
  {
  }

  lemma ConfigWakeLoop(s: State)
    requires Structure(s) && s.cfg.WaitDone? && s.cfg.drain in s.sh.closedDones
    ensures LoopInv(ConfigWakeStep(s))
  {
  }

  lemma ConfigWakeExits(s: State)
    requires Structure(s) && s.cfg.WaitDone? && s.cfg.drain in s.sh.closedDones
    ensures ExitInv(ConfigWakeStep(s))
  {
  }

  lemma ConfigWakeKeeps(s: State)
    requires Structure(s) && s.cfg.WaitDone? && s.cfg.drain in s.sh.closedDones
    ensures Structure(ConfigWakeStep(s))
  {
    var t := ConfigWakeStep(s);
    ConfigWakeFields(s);
    DrainsFrame(s, t);
    ConfigWakeConfig(s);
    ConfigWakeLoop(s);
    ReplyFrame(s, t);
    ConfigWakeExits(s);
  }

  lemma ConfigRegisterFields(s: State)
    requires Structure(s) && s.cfg.WaitSends? && s.sh.sigSends == 0
    ensures Fields(ConfigRegisterStep(s))
  {
  }

  lemma ConfigRegisterDrains(s: State)
    requires Structure(s) && s.cfg.WaitSends? && s.sh.sigSends == 0
    ensures DrainsInv(ConfigRegisterStep(s))
  {
  }

  lemma ConfigRegisterConfig(s: State)
    requires Structure(s) && s.cfg.WaitSends? && s.sh.sigSends == 0
    ensures ConfigInv(ConfigRegisterStep(s))
  {
  }

  lemma ConfigRegisterLoop(s: State)
    requires Structure(s) && s.cfg.WaitSends? && s.sh.sigSends == 0
    ensures LoopInv(ConfigRegisterStep(s))
  {
  }

  lemma ConfigRegisterLocks(s: State)
    requires Structure(s) && s.cfg.WaitSends? && s.sh.sigSends == 0
    ensures ReplyLocks(ConfigRegisterStep(s))
  {
  }

  lemma ConfigRegisterExits(s: State)
    requires Structure(s) && s.cfg.WaitSends? && s.sh.sigSends == 0
    ensures ExitInv(ConfigRegisterStep(s))
  {
  }

  lemma ConfigRegisterKeeps(s: State)
    requires Structure(s) && s.cfg.WaitSends? && s.sh.sigSends == 0
    ensures Structure(ConfigRegisterStep(s))
  {
    var t := ConfigRegisterStep(s);
    ConfigRegisterFields(s);
    ConfigRegisterDrains(s);
    ConfigRegisterConfig(s);
    ConfigRegisterLoop(s);
    ConfigRegisterLocks(s);
    ConfigRegisterExits(s);
  }

  predicate ConfigEvent(e: Event) {
    e.EndContext? || e.CloseTarget? || e.CallSignals? || e.ConfigBegin? || e.ConfigWake? || e.ConfigRegister?
  }

  lemma ConfigStep(s: State, e: Event)
    requires Structure(s) && Enabled(s, e) && ConfigEvent(e)
    ensures Structure(Step(s, e))
  {
    match e
    case EndContext => Untouched(s, Step(s, e));
    case CloseTarget(_) => Untouched(s, Step(s, e));
    case CallSignals(c) => CallSignalsKeeps(s, c);
    case ConfigBegin => ConfigBeginKeeps(s);
    case ConfigWake => ConfigWakeKeeps(s);
    case ConfigRegister => ConfigRegisterKeeps(s);
  }

  // ---------------------------------------------------------------- drain steps

  lemma DrainTakeFields(s: State, d: nat)
    requires Structure(s) && d in s.drains && s.drains[d].Take?
    ensures Fields(DrainTakeStep(s, d))
  {
  }

  lemma DrainTakeDrains(s: State, d: nat)
    requires Structure(s) && d in s.drains && s.drains[d].Take?
    ensures DrainsInv(DrainTakeStep(s, d))
  {
  }

  lemma DrainTakeConfig(s: State, d: nat)
    requires Structure(s) && d in s.drains && s.drains[d].Take?
    ensures ConfigInv(DrainTakeStep(s, d))
  {
  }

  lemma DrainTakeLoop(s: State, d: nat)
    requires Structure(s) && d in s.drains && s.drains[d].Take?
    ensures LoopInv(DrainTakeStep(s, d))
  {
  }

  lemma DrainTakeExits(s: State, d: nat)
    requires Structure(s) && d in s.drains && s.drains[d].Take?
    ensures ExitInv(DrainTakeStep(s, d))
  {
  }

  lemma DrainTakeKeeps(s: State, d: nat)
    requires Structure(s) && d in s.drains && s.drains[d].Take?
    ensures Structure(DrainTakeStep(s, d))
  {
    var t := DrainTakeStep(s, d);
    DrainTakeFields(s, d);
    DrainTakeDrains(s, d);
    DrainTakeConfig(s, d);
    DrainTakeLoop(s, d);
    ReplyFrame(s, t);
    DrainTakeExits(s, d);
  }

  lemma DrainSendDrains(s: State, d: nat, out: Outcome)
    requires Structure(s) && d in s.drains && s.drains[d].Send? && s.drains[d].rem != []
    ensures DrainsInv(DrainSendStep(s, d, out))
  {
  }

  lemma DrainSendConfig(s: State, d: nat, out: Outcome)
    requires Structure(s) && d in s.drains && s.drains[d].Send? && s.drains[d].rem != []
    ensures ConfigInv(DrainSendStep(s, d, out))
  {
  }

  lemma DrainSendKeeps(s: State, d: nat, out: Outcome)
    requires Structure(s) && d in s.drains && s.drains[d].Send? && s.drains[d].rem != []
    ensures Structure(DrainSendStep(s, d, out))
  {
    var t := DrainSendStep(s, d, out);
    FieldsFrame(s, t);
    DrainSendDrains(s, d, out);
    DrainSendConfig(s, d, out);
    LoopFrame(s, t);
    ReplyFrame(s, t);
    ExitFrame(s, t);
  }

  lemma DrainRequeueFields(s: State, d: nat)
    requires Structure(s) && d in s.drains && s.drains[d].Requeue?
    ensures Fields(DrainRequeueStep(s, d))
  {
  }

  lemma DrainRequeueDrains(s: State, d: nat)
    requires Structure(s) && d in s.drains && s.drains[d].Requeue?
    ensures DrainsInv(DrainRequeueStep(s, d))
  {
  }

  lemma DrainRequeueConfig(s: State, d: nat)
    requires Structure(s) && d in s.drains && s.drains[d].Requeue?
    ensures ConfigInv(DrainRequeueStep(s, d))
  {
  }

  lemma DrainRequeueLoop(s: State, d: nat)
    requires Structure(s) && d in s.drains && s.drains[d].Requeue?
    ensures LoopInv(DrainRequeueStep(s, d))
  {
  }

  lemma DrainRequeueExits(s: State, d: nat)
    requires Structure(s) && d in s.drains && s.drains[d].Requeue?
    ensures ExitInv(DrainRequeueStep(s, d))
  {
  }

  lemma DrainRequeueKeeps(s: State, d: nat)
    requires Structure(s) && d in s.drains && s.drains[d].Requeue?
    ensures Structure(DrainRequeueStep(s, d))
  {
    var t := DrainRequeueStep(s, d);
    DrainRequeueFields(s, d);
    DrainRequeueDrains(s, d);
    DrainRequeueConfig(s, d);
    DrainRequeueLoop(s, d);
    ReplyFrame(s, t);
    DrainRequeueExits(s, d);
  }

  lemma DrainFinishFields(s: State, d: nat)
    requires Structure(s) && d in s.drains && s.drains[d].Final?
    ensures Fields(DrainFinishStep(s, d))
  {
  }

  lemma DrainFinishDrains(s: State, d: nat)
    requires Structure(s) && d in s.drains && s.drains[d].Final?
    ensures DrainsInv(DrainFinishStep(s, d))
  {
  }

  lemma DrainFinishConfig(s: State, d: nat)
    requires Structure(s) && d in s.drains && s.drains[d].Final?
    ensures ConfigInv(DrainFinishStep(s, d))
  {
  }

  lemma DrainFinishLoop(s: State, d: nat)
    requires Structure(s) && d in s.drains && s.drains[d].Final?
    ensures LoopInv(DrainFinishStep(s, d))
  {
  }

  lemma DrainFinishExits(s: State, d: nat)
    requires Structure(s) && d in s.drains && s.drains[d].Final?
    ensures ExitInv(DrainFinishStep(s, d))
  {
  }

  lemma DrainFinishKeeps(s: State, d: nat)
    requires Structure(s) && d in s.drains && s.drains[d].Final?
    ensures Structure(DrainFinishStep(s, d))
  {
    var t := DrainFinishStep(s, d);
    DrainFinishFields(s, d);
    DrainFinishDrains(s, d);
    DrainFinishConfig(s, d);
    DrainFinishLoop(s, d);
    ReplyFrame(s, t);
    DrainFinishExits(s, d);
  }

  predicate DrainEvent(e: Event) {
    e.DrainTake? || e.DrainSend? || e.DrainRequeue? || e.DrainFinish?
  }

  lemma DrainStep(s: State, e: Event)
    requires Structure(s) && Enabled(s, e) && DrainEvent(e)
    ensures Structure(Step(s, e))
  {
    match e
    case DrainTake(d) => DrainTakeKeeps(s, d);
    case DrainSend(d, out) => DrainSendKeeps(s, d, out);
    case DrainRequeue(d) => DrainRequeueKeeps(s, d);
    case DrainFinish(d) => DrainFinishKeeps(s, d);
  }

  // ---------------------------------------------------------------- signal steps

  lemma SignalArriveLoop(s: State, name: string, wellFormed: bool)
    requires Structure(s) && s.loop.Idle? && s.sigReply.None?
    ensures LoopInv(SignalArriveStep(s, name, wellFormed))
  {
  }

  lemma SignalArriveLocks(s: State, name: string, wellFormed: bool)
    requires Structure(s) && s.loop.Idle? && s.sigReply.None?
    ensures ReplyLocks(SignalArriveStep(s, name, wellFormed))
  {
  }

  lemma SignalArriveExits(s: State, name: string, wellFormed: bool)
    requires Structure(s) && s.loop.Idle? && s.sigReply.None?
    ensures ExitInv(SignalArriveStep(s, name, wellFormed))
  {
  }

  lemma SignalArriveKeeps(s: State, name: string, wellFormed: bool)
    requires Structure(s) && s.loop.Idle? && s.sigReply.None?
    ensures Structure(SignalArriveStep(s, name, wellFormed))
  {
    var t := SignalArriveStep(s, name, wellFormed);
    FieldsFrame(s, t);
    DrainsFrame(s, t);
    ConfigFrame(s, t);
    SignalArriveLoop(s, name, wellFormed);
    SignalArriveLocks(s, name, wellFormed);
    SignalArriveExits(s, name, wellFormed);
  }

  /** What a decision about a signal changes, and what the request loop does next. */
  lemma DecideChanges(s: State)
    requires s.loop.SigHeld?
    ensures var t := SignalDecideStep(s);
      && t.sh == s.sh.(sigBuf := t.sh.sigBuf, sigSends := t.sh.sigSends)
      && t == s.(sh := t.sh, loop := t.loop, accepted := t.accepted, lost := t.lost)
      && (t.loop.SigSend? || t.loop.SigReplying?)
      && (t.loop.SigReplying? && t.loop.ok ==> !s.sh.exiting)
  {
  }

  lemma SignalDecideFields(s: State)
    requires Structure(s) && s.loop.SigHeld?
    ensures Fields(SignalDecideStep(s))
  {
    DecideChanges(s);
  }

  lemma SignalDecideLoop(s: State)
    requires Structure(s) && s.loop.SigHeld?
    ensures LoopInv(SignalDecideStep(s))
  {
    DecideChanges(s);
  }

  lemma SignalDecideLocks(s: State)
    requires Structure(s) && s.loop.SigHeld?
    ensures ReplyLocks(SignalDecideStep(s))
  {
    DecideChanges(s);
  }

  lemma SignalDecideExits(s: State)
    requires Structure(s) && s.loop.SigHeld?
    ensures ExitInv(SignalDecideStep(s))
  {
    DecideChanges(s);
  }

  lemma SignalDecideKeeps(s: State)
    requires Structure(s) && s.loop.SigHeld?
    ensures Structure(SignalDecideStep(s))
  {
    var t := SignalDecideStep(s);
    DecideChanges(s);
    SignalDecideFields(s);
    DrainsFrame(s, t);
    ConfigFrame(s, t);
    SignalDecideLoop(s);
    SignalDecideLocks(s);
    SignalDecideExits(s);
  }

  lemma SignalSendLoop(s: State, out: Outcome)
    requires Structure(s) && s.loop.SigSend?
    ensures LoopInv(SignalSendStep(s, out))
  {
  }

  lemma SignalSendLocks(s: State, out: Outcome)
    requires Structure(s) && s.loop.SigSend?
    ensures ReplyLocks(SignalSendStep(s, out))
  {
  }

  lemma SignalSendExits(s: State, out: Outcome)
    requires Structure(s) && s.loop.SigSend?
    ensures ExitInv(SignalSendStep(s, out))
  {
  }

  lemma SignalSendKeeps(s: State, out: Outcome)
    requires Structure(s) && s.loop.SigSend?
    ensures Structure(SignalSendStep(s, out))
  {
    var t := SignalSendStep(s, out);
    FieldsFrame(s, t);
    DrainsFrame(s, t);
    ConfigFrame(s, t);
    SignalSendLoop(s, out);
    SignalSendLocks(s, out);
    SignalSendExits(s, out);
  }

  lemma SignalAfterFields(s: State)
    requires Structure(s) && s.loop.SigSent?
    ensures Fields(SignalAfterStep(s))
  {
  }

  lemma SignalAfterConfig(s: State)
    requires Structure(s) && s.loop.SigSent?
    ensures ConfigInv(SignalAfterStep(s))
  {
  }

  lemma SignalAfterLoop(s: State)
    requires Structure(s) && s.loop.SigSent?
    ensures LoopInv(SignalAfterStep(s))
  {
  }

  lemma SignalAfterLocks(s: State)
    requires Structure(s) && s.loop.SigSent?
    ensures ReplyLocks(SignalAfterStep(s))
  {
  }

  lemma SignalAfterExits(s: State)
    requires Structure(s) && s.loop.SigSent?
    ensures ExitInv(SignalAfterStep(s))
  {
  }

  lemma SignalAfterKeeps(s: State)
    requires Structure(s) && s.loop.SigSent?
    ensures Structure(SignalAfterStep(s))
  {
    var t := SignalAfterStep(s);
    SignalAfterFields(s);
    DrainsFrame(s, t);
    SignalAfterConfig(s);
    SignalAfterLoop(s);
    SignalAfterLocks(s);
    SignalAfterExits(s);
  }

  lemma SignalAnswerLoop(s: State)
    requires Structure(s) && s.loop.SigReplying?
    ensures LoopInv(SignalAnswerStep(s))
  {
  }

  lemma SignalAnswerLocks(s: State)
    requires Structure(s) && s.loop.SigReplying?
    ensures ReplyLocks(SignalAnswerStep(s))
  {
  }

  lemma SignalAnswerExits(s: State)
    requires Structure(s) && s.loop.SigReplying?
    ensures ExitInv(SignalAnswerStep(s))
  {
  }

  lemma SignalAnswerKeeps(s: State)
    requires Structure(s) && s.loop.SigReplying?
    ensures Structure(SignalAnswerStep(s))
  {
    var t := SignalAnswerStep(s);
    FieldsFrame(s, t);
    DrainsFrame(s, t);
    ConfigFrame(s, t);
    SignalAnswerLoop(s);
    SignalAnswerLocks(s);
    SignalAnswerExits(s);
  }

  predicate SignalEvent(e: Event) {
    e.SignalArrive? || e.SignalDecide? || e.SignalSend? || e.SignalAfter? || e.SignalAnswer?
  }

  lemma SignalStep(s: State, e: Event)
    requires Structure(s) && Enabled(s, e) && SignalEvent(e)
    ensures Structure(Step(s, e))
  {
    match e
    case SignalArrive(name, wellFormed) => SignalArriveKeeps(s, name, wellFormed);
    case SignalDecide => SignalDecideKeeps(s);
    case SignalSend(out) => SignalSendKeeps(s, out);
    case SignalAfter => SignalAfterKeeps(s);
    case SignalAnswer => SignalAnswerKeeps(s);
  }

  // ---------------------------------------------------------------- break steps

  lemma CallBreakConfig(s: State, c: Option<nat>)
    requires Structure(s) && s.bcfg.Free? && !s.sh.exiting
    ensures ConfigInv(CallBreakStep(s, c))
  {
  }

  lemma CallBreakLoop(s: State, c: Option<nat>)
    requires Structure(s) && s.bcfg.Free? && !s.sh.exiting
    ensures LoopInv(CallBreakStep(s, c))
  {
  }

  lemma CallBreakExits(s: State, c: Option<nat>)
    requires Structure(s) && s.bcfg.Free? && !s.sh.exiting
    ensures ExitInv(CallBreakStep(s, c))
  {
  }

  lemma CallBreakKeeps(s: State, c: Option<nat>)
    requires Structure(s) && s.bcfg.Free? && !s.sh.exiting
    ensures Structure(CallBreakStep(s, c))
  {
    var t := CallBreakStep(s, c);
    FieldsFrame(s, t);
    DrainsFrame(s, t);
    CallBreakConfig(s, c);
    CallBreakLoop(s, c);
    ReplyFrame(s, t);
    CallBreakExits(s, c);
  }

  lemma BreakConfigBeginFields(s: State)
    requires Structure(s) && s.bcfg.Held?
    ensures Fields(BreakConfigBeginStep(s))
  {
  }

  lemma BreakConfigBeginConfig(s: State)
    requires Structure(s) && s.bcfg.Held?
    ensures ConfigInv(BreakConfigBeginStep(s))
  {
  }

  lemma BreakConfigBeginLoop(s: State)
    requires Structure(s) && s.bcfg.Held?
    ensures LoopInv(BreakConfigBeginStep(s))
  {
  }

  lemma BreakConfigBeginExits(s: State)
    requires Structure(s) && s.bcfg.Held?
    ensures ExitInv(BreakConfigBeginStep(s))
  {
  }

  lemma BreakConfigBeginKeeps(s: State)
    requires Structure(s) && s.bcfg.Held?
    ensures Structure(BreakConfigBeginStep(s))
  {
    var t := BreakConfigBeginStep(s);
    BreakConfigBeginFields(s);
    DrainsFrame(s, t);
    BreakConfigBeginConfig(s);
    BreakConfigBeginLoop(s);
    ReplyFrame(s, t);
    BreakConfigBeginExits(s);
  }

  lemma BreakConfigRegisterFields(s: State)
    requires Structure(s) && s.bcfg.WaitSends? && s.sh.breakSends == 0
    ensures Fields(BreakConfigRegisterStep(s))
  {
  }

  lemma BreakConfigRegisterConfig(s: State)
    requires Structure(s) && s.bcfg.WaitSends? && s.sh.breakSends == 0
    ensures ConfigInv(BreakConfigRegisterStep(s))
  {
  }

  lemma BreakConfigRegisterLoop(s: State)
    requires Structure(s) && s.bcfg.WaitSends? && s.sh.breakSends == 0
    ensures LoopInv(BreakConfigRegisterStep(s))
  {
  }

  lemma BreakConfigRegisterLocks(s: State)
    requires Structure(s) && s.bcfg.WaitSends? && s.sh.breakSends == 0
    ensures ReplyLocks(BreakConfigRegisterStep(s))
  {
  }

  lemma BreakConfigRegisterExits(s: State)
    requires Structure(s) && s.bcfg.WaitSends? && s.sh.breakSends == 0
    ensures ExitInv(BreakConfigRegisterStep(s))
  {
  }

  lemma BreakConfigRegisterKeeps(s: State)
    requires Structure(s) && s.bcfg.WaitSends? && s.sh.breakSends == 0
    ensures Structure(BreakConfigRegisterStep(s))
  {
    var t := BreakConfigRegisterStep(s);
    BreakConfigRegisterFields(s);
    DrainsFrame(s, t);
    BreakConfigRegisterConfig(s);
    BreakConfigRegisterLoop(s);
    BreakConfigRegisterLocks(s);
    BreakConfigRegisterExits(s);
  }

  lemma BreakArriveLoop(s: State)
    requires Structure(s) && s.loop.Idle? && s.breakReply.None?
    ensures LoopInv(BreakArriveStep(s))
  {
  }

  lemma BreakArriveLocks(s: State)
    requires Structure(s) && s.loop.Idle? && s.breakReply.None?
    ensures ReplyLocks(BreakArriveStep(s))
  {
  }

  lemma BreakArriveExits(s: State)
    requires Structure(s) && s.loop.Idle? && s.breakReply.None?
    ensures ExitInv(BreakArriveStep(s))
  {
  }

  lemma BreakArriveKeeps(s: State)
    requires Structure(s) && s.loop.Idle? && s.breakReply.None?
    ensures Structure(BreakArriveStep(s))
  {
    var t := BreakArriveStep(s);
    FieldsFrame(s, t);
    DrainsFrame(s, t);
    ConfigFrame(s, t);
    BreakArriveLoop(s);
    BreakArriveLocks(s);
    BreakArriveExits(s);
  }

  lemma BreakTryFields(s: State)
    requires Structure(s) && s.loop.BreakHeld?
    ensures Fields(BreakTryStep(s))
  {
  }

  lemma BreakTryLoop(s: State)
    requires Structure(s) && s.loop.BreakHeld?
    ensures LoopInv(BreakTryStep(s))
  {
  }

  lemma BreakTryLocks(s: State)
    requires Structure(s) && s.loop.BreakHeld?
    ensures ReplyLocks(BreakTryStep(s))
  {
  }

  lemma BreakTryExits(s: State)
    requires Structure(s) && s.loop.BreakHeld?
    ensures ExitInv(BreakTryStep(s))
  {
  }

  lemma BreakTryKeeps(s: State)
    requires Structure(s) && s.loop.BreakHeld?
    ensures Structure(BreakTryStep(s))
  {
    var t := BreakTryStep(s);
    BreakTryFields(s);
    DrainsFrame(s, t);
    ConfigFrame(s, t);
    BreakTryLoop(s);
    BreakTryLocks(s);
    BreakTryExits(s);
  }

  lemma BreakSendItLoop(s: State, out: Outcome)
    requires Structure(s) && s.loop.BreakSend?
    ensures LoopInv(BreakSendItStep(s, out))
  {
  }

  lemma BreakSendItLocks(s: State, out: Outcome)
    requires Structure(s) && s.loop.BreakSend?
    ensures ReplyLocks(BreakSendItStep(s, out))
  {
  }

  lemma BreakSendItExits(s: State, out: Outcome)
    requires Structure(s) && s.loop.BreakSend?
    ensures ExitInv(BreakSendItStep(s, out))
  {
  }

  lemma BreakSendItKeeps(s: State, out: Outcome)
    requires Structure(s) && s.loop.BreakSend?
    ensures Structure(BreakSendItStep(s, out))
  {
    var t := BreakSendItStep(s, out);
    FieldsFrame(s, t);
    DrainsFrame(s, t);
    ConfigFrame(s, t);
    BreakSendItLoop(s, out);
    BreakSendItLocks(s, out);
    BreakSendItExits(s, out);
  }

  lemma BreakAfterFields(s: State)
    requires Structure(s) && s.loop.BreakSent?
    ensures Fields(BreakAfterStep(s))
  {
  }

  lemma BreakAfterConfig(s: State)
    requires Structure(s) && s.loop.BreakSent?
    ensures ConfigInv(BreakAfterStep(s))
  {
  }

  lemma BreakAfterLoop(s: State)
    requires Structure(s) && s.loop.BreakSent?
    ensures LoopInv(BreakAfterStep(s))
  {
  }

  lemma BreakAfterLocks(s: State)
    requires Structure(s) && s.loop.BreakSent?
    ensures ReplyLocks(BreakAfterStep(s))
  {
  }

  lemma BreakAfterExits(s: State)
    requires Structure(s) && s.loop.BreakSent?
    ensures ExitInv(BreakAfterStep(s))
  {
  }

  lemma BreakAfterKeeps(s: State)
    requires Structure(s) && s.loop.BreakSent?
    ensures Structure(BreakAfterStep(s))
  {
    var t := BreakAfterStep(s);
    BreakAfterFields(s);
    DrainsFrame(s, t);
    BreakAfterConfig(s);
    BreakAfterLoop(s);
    BreakAfterLocks(s);
    BreakAfterExits(s);
  }

  lemma BreakAnswerLoop(s: State)
    requires Structure(s) && s.loop.BreakReplying?
    ensures LoopInv(BreakAnswerStep(s))
  {
  }

  lemma BreakAnswerLocks(s: State)
    requires Structure(s) && s.loop.BreakReplying?
    ensures ReplyLocks(BreakAnswerStep(s))
  {
  }

  lemma BreakAnswerExits(s: State)
    requires Structure(s) && s.loop.BreakReplying?
    ensures ExitInv(BreakAnswerStep(s))
  {
  }

  lemma BreakAnswerKeeps(s: State)
    requires Structure(s) && s.loop.BreakReplying?
    ensures Structure(BreakAnswerStep(s))
  {
    var t := BreakAnswerStep(s);
    FieldsFrame(s, t);
    DrainsFrame(s, t);
    ConfigFrame(s, t);
    BreakAnswerLoop(s);
    BreakAnswerLocks(s);
    BreakAnswerExits(s);
  }

  predicate BreakEvent(e: Event) {
    e.CallBreak? || e.BreakConfigBegin? || e.BreakConfigRegister? || e.BreakArrive? || e.BreakTry? || e.BreakSendIt? || e.BreakAfter? || e.BreakAnswer?
  }

  predicate BreakConfigEvent(e: Event) {
    e.CallBreak? || e.BreakConfigBegin? || e.BreakConfigRegister?
  }

  lemma BreakConfigStep(s: State, e: Event)
    requires Structure(s) && Enabled(s, e) && BreakConfigEvent(e)
    ensures Structure(Step(s, e))
  {
    match e
    case CallBreak(c) => CallBreakKeeps(s, c);
    case BreakConfigBegin => BreakConfigBeginKeeps(s);
    case BreakConfigRegister => BreakConfigRegisterKeeps(s);
  }

  lemma BreakRequestStep(s: State, e: Event)
    requires Structure(s) && Enabled(s, e) && BreakEvent(e) && !BreakConfigEvent(e)
    ensures Structure(Step(s, e))
  {
    match e
    case BreakArrive => BreakArriveKeeps(s);
    case BreakTry => BreakTryKeeps(s);
    case BreakSendIt(out) => BreakSendItKeeps(s, out);
    case BreakAfter => BreakAfterKeeps(s);
    case BreakAnswer => BreakAnswerKeeps(s);
  }

  lemma BreakStep(s: State, e: Event)
    requires Structure(s) && Enabled(s, e) && BreakEvent(e)
    ensures Structure(Step(s, e))
  {
    if BreakConfigEvent(e) {
      BreakConfigStep(s, e);
    } else {
      BreakRequestStep(s, e);
    }
  }

  // ---------------------------------------------------------------- exit steps

  lemma ExitMarkConfig(s: State, x: nat)
    requires Structure(s) && x !in s.exits
    ensures ConfigInv(ExitMarkStep(s, x))
  {
  }

  lemma ExitMarkLocks(s: State, x: nat)
    requires Structure(s) && x !in s.exits
    ensures ReplyLocks(ExitMarkStep(s, x))
  {
  }

  lemma ExitMarkExits(s: State, x: nat)
    requires Structure(s) && x !in s.exits
    ensures ExitInv(ExitMarkStep(s, x))
  {
  }

  lemma ExitMarkKeeps(s: State, x: nat)
    requires Structure(s) && x !in s.exits
    ensures Structure(ExitMarkStep(s, x))
  {
    var t := ExitMarkStep(s, x);
    FieldsFrame(s, t);
    DrainsFrame(s, t);
    ExitMarkConfig(s, x);
    LoopFrame(s, t);
    ExitMarkLocks(s, x);
    ExitMarkExits(s, x);
  }

  lemma ExitStopSignalsConfig(s: State, x: nat)
    requires Structure(s) && At(s, x, Marked) && s.cfg.Free?
    ensures ConfigInv(ExitStopSignalsStep(s, x))
  {
  }

  lemma ExitStopSignalsLoop(s: State, x: nat)
    requires Structure(s) && At(s, x, Marked) && s.cfg.Free?
    ensures LoopInv(ExitStopSignalsStep(s, x))
  {
  }

  lemma ExitStopSignalsLocks(s: State, x: nat)
    requires Structure(s) && At(s, x, Marked) && s.cfg.Free?
    ensures ReplyLocks(ExitStopSignalsStep(s, x))
  {
  }

  lemma ExitStopSignalsExits(s: State, x: nat)
    requires Structure(s) && At(s, x, Marked) && s.cfg.Free?
    ensures ExitInv(ExitStopSignalsStep(s, x))
  {
  }

  lemma ExitStopSignalsKeeps(s: State, x: nat)
    requires Structure(s) && At(s, x, Marked) && s.cfg.Free?
    ensures Structure(ExitStopSignalsStep(s, x))
  {
    var t := ExitStopSignalsStep(s, x);
    FieldsFrame(s, t);
    DrainsFrame(s, t);
    ExitStopSignalsConfig(s, x);
    ExitStopSignalsLoop(s, x);
    ExitStopSignalsLocks(s, x);
    ExitStopSignalsExits(s, x);
  }

  lemma ExitTakeSigReplyConfig(s: State, x: nat)
    requires Structure(s) && At(s, x, SigStopped) && s.sigReply.None?
    ensures ConfigInv(ExitTakeSigReplyStep(s, x))
  {
  }

  lemma ExitTakeSigReplyLocks(s: State, x: nat)
    requires Structure(s) && At(s, x, SigStopped) && s.sigReply.None?
    ensures ReplyLocks(ExitTakeSigReplyStep(s, x))
  {
  }

  lemma ExitTakeSigReplyExits(s: State, x: nat)
    requires Structure(s) && At(s, x, SigStopped) && s.sigReply.None?
    ensures ExitInv(ExitTakeSigReplyStep(s, x))
  {
  }

  lemma ExitTakeSigReplyKeeps(s: State, x: nat)
    requires Structure(s) && At(s, x, SigStopped) && s.sigReply.None?
    ensures Structure(ExitTakeSigReplyStep(s, x))
  {
    var t := ExitTakeSigReplyStep(s, x);
    FieldsFrame(s, t);
    DrainsFrame(s, t);
    ExitTakeSigReplyConfig(s, x);
    LoopFrame(s, t);
    ExitTakeSigReplyLocks(s, x);
    ExitTakeSigReplyExits(s, x);
  }

  lemma ExitStopBreaksConfig(s: State, x: nat)
    requires Structure(s) && At(s, x, HasSigReply) && s.bcfg.Free?
    ensures ConfigInv(ExitStopBreaksStep(s, x))
  {
  }

  lemma ExitStopBreaksLoop(s: State, x: nat)
    requires Structure(s) && At(s, x, HasSigReply) && s.bcfg.Free?
    ensures LoopInv(ExitStopBreaksStep(s, x))
  {
  }

  lemma ExitStopBreaksLocks(s: State, x: nat)
    requires Structure(s) && At(s, x, HasSigReply) && s.bcfg.Free?
    ensures ReplyLocks(ExitStopBreaksStep(s, x))
  {
  }

  lemma ExitStopBreaksExits(s: State, x: nat)
    requires Structure(s) && At(s, x, HasSigReply) && s.bcfg.Free?
    ensures ExitInv(ExitStopBreaksStep(s, x))
  {
  }

  lemma ExitStopBreaksKeeps(s: State, x: nat)
    requires Structure(s) && At(s, x, HasSigReply) && s.bcfg.Free?
    ensures Structure(ExitStopBreaksStep(s, x))
  {
    var t := ExitStopBreaksStep(s, x);
    FieldsFrame(s, t);
    DrainsFrame(s, t);
    ExitStopBreaksConfig(s, x);
    ExitStopBreaksLoop(s, x);
    ExitStopBreaksLocks(s, x);
    ExitStopBreaksExits(s, x);
  }

  lemma ExitTakeBreakReplyConfig(s: State, x: nat)
    requires Structure(s) && At(s, x, BreakStopped) && s.breakReply.None?
    ensures ConfigInv(ExitTakeBreakReplyStep(s, x))
  {
  }

  lemma ExitTakeBreakReplyLocks(s: State, x: nat)
    requires Structure(s) && At(s, x, BreakStopped) && s.breakReply.None?
    ensures ReplyLocks(ExitTakeBreakReplyStep(s, x))
  {
  }

  lemma ExitTakeBreakReplyExits(s: State, x: nat)
    requires Structure(s) && At(s, x, BreakStopped) && s.breakReply.None?
    ensures ExitInv(ExitTakeBreakReplyStep(s, x))
  {
  }

  lemma ExitTakeBreakReplyKeeps(s: State, x: nat)
    requires Structure(s) && At(s, x, BreakStopped) && s.breakReply.None?
    ensures Structure(ExitTakeBreakReplyStep(s, x))
  {
    var t := ExitTakeBreakReplyStep(s, x);
    FieldsFrame(s, t);
    DrainsFrame(s, t);
    ExitTakeBreakReplyConfig(s, x);
    LoopFrame(s, t);
    ExitTakeBreakReplyLocks(s, x);
    ExitTakeBreakReplyExits(s, x);
  }

  lemma ExitFinishConfig(s: State, x: nat)
    requires Structure(s) && At(s, x, HasBothReplies)
    ensures ConfigInv(ExitFinishStep(s, x))
  {
  }

  lemma ExitFinishLocks(s: State, x: nat)
    requires Structure(s) && At(s, x, HasBothReplies)
    ensures ReplyLocks(ExitFinishStep(s, x))
  {
  }

  lemma ExitFinishExits(s: State, x: nat)
    requires Structure(s) && At(s, x, HasBothReplies)
    ensures ExitInv(ExitFinishStep(s, x))
  {
  }

  lemma ExitFinishKeeps(s: State, x: nat)
    requires Structure(s) && At(s, x, HasBothReplies)
    ensures Structure(ExitFinishStep(s, x))
  {
    var t := ExitFinishStep(s, x);
    FieldsFrame(s, t);
    DrainsFrame(s, t);
    ExitFinishConfig(s, x);
    LoopFrame(s, t);
    ExitFinishLocks(s, x);
    ExitFinishExits(s, x);
  }

  predicate ExitEvent(e: Event) {
    e.ExitMark? || e.ExitStopSignals? || e.ExitTakeSigReply? || e.ExitStopBreaks? || e.ExitTakeBreakReply? || e.ExitFinish?
  }

  lemma ExitStep(s: State, e: Event)
    requires Structure(s) && Enabled(s, e) && ExitEvent(e)
    ensures Structure(Step(s, e))
  {
    match e
    case ExitMark(x) => ExitMarkKeeps(s, x);
    case ExitStopSignals(x) => ExitStopSignalsKeeps(s, x);
    case ExitTakeSigReply(x) => ExitTakeSigReplyKeeps(s, x);
    case ExitStopBreaks(x) => ExitStopBreaksKeeps(s, x);
    case ExitTakeBreakReply(x) => ExitTakeBreakReplyKeeps(s, x);
    case ExitFinish(x) => ExitFinishKeeps(s, x);
  }

  /** Every step keeps the structure. */
  lemma StructureStep(s: State, e: Event)
    requires Structure(s) && Enabled(s, e)
    ensures Structure(Step(s, e))
  {
    if ConfigEvent(e) {
      ConfigStep(s, e);
    } else if DrainEvent(e) {
      DrainStep(s, e);
    } else if SignalEvent(e) {
      SignalStep(s, e);
    } else if BreakEvent(e) {
      BreakStep(s, e);
    } else {
      ExitStep(s, e);
    }
  }
}
