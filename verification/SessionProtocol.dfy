/** Every interleaving of signal and break requests, (re)registration, drains and exits of one
    session (session.go:396-422, 474-716).

    A step is one critical section, one channel operation or one reply. Threads are the request
    loop, any number of callers of Signals and Break (only the holder of the configuration lock
    has a program counter), any number of drains and any number of callers of Exit. Receivers may
    take or refuse a signal, close their channel or end the context at any moment. */
module SessionProtocol {
  import opened Prelude
  import opened SessionState

  datatype Outcome = Delivered | Cancelled | ContextDone | TargetClosed

  /** The request loop inside handleSignalRequest or deliverBreakAndReply. */
  datatype Loop =
    | Idle
    | SigHeld(sig: Signal, valid: bool)
    | SigSend(sig: Signal, ch: nat, cancel: nat)
    | SigSent(sig: Signal, ch: nat, out: Outcome)
    | SigReplying(sig: Signal, ok: bool, continues: bool)
    | BreakHeld
    | BreakSend(ch: nat, cancel: nat)
    | BreakSent(ch: nat, out: Outcome)
    | BreakReplying(ok: bool)
    | Stopped

  /** The holder of sigConfigMu; `exiter` is set when an Exit call holds it. */
  datatype Config =
    | Free
    | Held(exiter: Option<nat>, target: Option<nat>)
    | WaitDone(exiter: Option<nat>, target: Option<nat>, drain: nat)
    | WaitSends(exiter: Option<nat>, target: Option<nat>)

  datatype Drain =
    | Take(target: nat)
    | Send(target: nat, rem: seq<Signal>)
    | Requeue(rem: seq<Signal>)
    | Final

  datatype ExitPc =
    | Marked | Stopping | SigStopped | HasSigReply | BreakStopping | BreakStopped | HasBothReplies | Done

  datatype Wire = SignalReply(sig: Signal, ok: bool) | BreakReply(okBreak: bool) | ExitStatus(caller: nat)

  datatype Who = TheLoop | Exiter(id: nat)

  datatype State = State(
    sh: Shared,
    loop: Loop,
    cfg: Config,
    bcfg: Config,
    sigReply: Option<Who>,
    breakReply: Option<Who>,
    drains: map<nat, Drain>,
    exits: map<nat, ExitPc>,
    contextDone: bool,
    closedTargets: set<nat>,
    // auxiliary: the history that the properties speak of; `receivers` are the channels the
    // delivered signals were sent to, `breaks` those of the delivered breaks
    arrivals: nat,
    accepted: seq<Signal>,
    delivered: seq<Signal>,
    receivers: seq<nat>,
    lost: set<Signal>,
    breaks: seq<nat>,
    wire: seq<Wire>)

  const Init: State :=
    State(Fresh, Idle, Free, Free, None, None, map[], map[], false, {}, 0, [], [], [], {}, [], [])

  datatype Event =
    | EndContext
    | CloseTarget(ch: nat)
    | CallSignals(c: Option<nat>)
    | ConfigBegin
    | ConfigWake
    | ConfigRegister
    | DrainTake(d: nat)
    | DrainSend(d: nat, out: Outcome)
    | DrainRequeue(d: nat)
    | DrainFinish(d: nat)
    | SignalArrive(name: string, wellFormed: bool)
    | SignalDecide
    | SignalSend(out: Outcome)
    | SignalAfter
    | SignalAnswer
    | CallBreak(c: Option<nat>)
    | BreakConfigBegin
    | BreakConfigRegister
    | BreakArrive
    | BreakTry
    | BreakSendIt(out: Outcome)
    | BreakAfter
    | BreakAnswer
    | ExitMark(x: nat)
    | ExitStopSignals(x: nat)
    | ExitTakeSigReply(x: nat)
    | ExitStopBreaks(x: nat)
    | ExitTakeBreakReply(x: nat)
    | ExitFinish(x: nat)

  /** When a select on send, cancel and context may take a branch (session.go:629-661). */
  predicate Possible(s: State, out: Outcome, target: nat, cancel: nat) {
    match out
    case Delivered => target !in s.closedTargets
    case Cancelled => cancel in s.sh.closedCancels
    case ContextDone => s.contextDone
    case TargetClosed => target in s.closedTargets
  }

  predicate At(s: State, x: nat, pc: ExitPc) {
    x in s.exits && s.exits[x] == pc
  }

  predicate Enabled(s: State, e: Event) {
    match e
    case EndContext => true
    case CloseTarget(_) => true
    case CallSignals(_) => s.cfg.Free? && !s.sh.exiting
    case ConfigBegin => s.cfg.Held?
    case ConfigWake => s.cfg.WaitDone? && s.cfg.drain in s.sh.closedDones
    case ConfigRegister => s.cfg.WaitSends? && s.sh.sigSends == 0
    case DrainTake(d) => d in s.drains && s.drains[d].Take?
    case DrainSend(d, out) =>
      d in s.drains && s.drains[d].Send? && s.drains[d].rem != [] && Possible(s, out, s.drains[d].target, d)
    case DrainRequeue(d) => d in s.drains && s.drains[d].Requeue?
    case DrainFinish(d) => d in s.drains && s.drains[d].Final?
    case SignalArrive(_, _) => s.loop.Idle? && s.sigReply.None?
    case SignalDecide => s.loop.SigHeld?
    case SignalSend(out) => s.loop.SigSend? && Possible(s, out, s.loop.ch, s.loop.cancel)
    case SignalAfter => s.loop.SigSent?
    case SignalAnswer => s.loop.SigReplying?
    case CallBreak(_) => s.bcfg.Free? && !s.sh.exiting
    case BreakConfigBegin => s.bcfg.Held?
    case BreakConfigRegister => s.bcfg.WaitSends? && s.sh.breakSends == 0
    case BreakArrive => s.loop.Idle? && s.breakReply.None?
    case BreakTry => s.loop.BreakHeld?
    case BreakSendIt(out) => s.loop.BreakSend? && Possible(s, out, s.loop.ch, s.loop.cancel)
    case BreakAfter => s.loop.BreakSent?
    case BreakAnswer => s.loop.BreakReplying?
    case ExitMark(x) => x !in s.exits
    case ExitStopSignals(x) => At(s, x, Marked) && s.cfg.Free?
    case ExitTakeSigReply(x) => At(s, x, SigStopped) && s.sigReply.None?
    case ExitStopBreaks(x) => At(s, x, HasSigReply) && s.bcfg.Free?
    case ExitTakeBreakReply(x) => At(s, x, BreakStopped) && s.breakReply.None?
    case ExitFinish(x) => At(s, x, HasBothReplies)
  }

  // ---------------------------------------------------------------- steps

  function ConfigBeginStep(s: State): State
    requires s.cfg.Held?
  {
    var next := if s.sh.sigDrainCancel.Some? && s.sh.sigDrainDone.Some?
                then WaitDone(s.cfg.exiter, s.cfg.target, s.sh.sigDrainDone.value)
                else WaitSends(s.cfg.exiter, s.cfg.target);
    s.(sh := s.sh.BeginConfigure(), cfg := next)
  }

  function ConfigRegisterStep(s: State): State
    requires s.cfg.WaitSends?
  {
    s.(sh := s.sh.Register(s.cfg.target),
       cfg := Free,
       drains := if s.sh.Spawns(s.cfg.target) then s.drains[s.sh.made := Take(s.cfg.target.value)] else s.drains,
       exits := if s.cfg.exiter.Some? then s.exits[s.cfg.exiter.value := SigStopped] else s.exits)
  }

  function DrainTakeStep(s: State, d: nat): State
    requires d in s.drains && s.drains[d].Take?
  {
    var target := s.drains[d].target;
    s.(sh := s.sh.TakeBuffered(target),
       drains := s.drains[d := if s.sh.sigBuf == [] then Final else Send(target, s.sh.sigBuf)])
  }

  /** Where a drain stands after trying to send the first signal of `rem`. */
  function NextDrain(target: nat, rem: seq<Signal>, out: Outcome): Drain
    requires rem != []
  {
    match out
    case Delivered => if |rem| == 1 then Take(target) else Send(target, rem[1..])
    case ContextDone => Final
    case _ => Requeue(rem)
  }

  function DrainSendStep(s: State, d: nat, out: Outcome): State
    requires d in s.drains && s.drains[d].Send? && s.drains[d].rem != []
  {
    var target, rem := s.drains[d].target, s.drains[d].rem;
    s.(delivered := if out == Delivered then s.delivered + [rem[0]] else s.delivered,
       receivers := if out == Delivered then s.receivers + [target] else s.receivers,
       lost := if out == ContextDone then s.lost + Elements(rem) else s.lost,
       drains := s.drains[d := NextDrain(target, rem, out)])
  }

  function DrainRequeueStep(s: State, d: nat): State
    requires d in s.drains && s.drains[d].Requeue?
  {
    var all := s.drains[d].rem + s.sh.sigBuf;
    s.(sh := s.sh.Requeue(s.drains[d].rem),
       lost := s.lost + (if |all| > MAX_SIG_BUF then Elements(all[MAX_SIG_BUF..]) else {}),
       drains := s.drains[d := Final])
  }

  function SignalArriveStep(s: State, name: string, wellFormed: bool): State {
    s.(loop := SigHeld(Signal(name, s.arrivals), wellFormed && |name| <= MAX_SIGNAL_BYTES),
       arrivals := s.arrivals + 1,
       sigReply := Some(TheLoop))
  }

  /** A well-formed signal that is neither refused nor sent directly: it is answered true, and
      buffered if there is room. */
  predicate Buffers(s: State) {
    s.loop.SigHeld? && s.loop.valid && !s.sh.exiting && !(s.sh.sigCh.Some? && s.sh.sigSendCancel.Some?)
  }

  function Decided(s: State): Loop
    requires s.loop.SigHeld?
  {
    var sig := s.loop.sig;
    if !s.loop.valid then SigReplying(sig, false, true)
    else if s.sh.exiting then SigReplying(sig, false, false)
    else if Buffers(s) then SigReplying(sig, true, true)
    else SigSend(sig, s.sh.sigCh.value, s.sh.sigSendCancel.value)
  }

  function SignalDecideStep(s: State): State
    requires s.loop.SigHeld?
  {
    s.(sh := if s.loop.valid then s.sh.Decide(s.loop.sig) else s.sh,
       loop := Decided(s),
       accepted := if Buffers(s) then s.accepted + [s.loop.sig] else s.accepted,
       lost := if Buffers(s) && |s.sh.sigBuf| >= MAX_SIG_BUF then s.lost + {s.loop.sig} else s.lost)
  }

  function SignalSendStep(s: State, out: Outcome): State
    requires s.loop.SigSend?
  {
    var t := s.(loop := SigSent(s.loop.sig, s.loop.ch, out));
    if out == Delivered then
      t.(delivered := s.delivered + [s.loop.sig], receivers := s.receivers + [s.loop.ch],
         accepted := s.accepted + [s.loop.sig])
    else t
  }

  function SignalAfterStep(s: State): State
    requires s.loop.SigSent?
  {
    s.(sh := s.sh.AfterSend(s.loop.ch, s.loop.out == TargetClosed),
       loop := SigReplying(s.loop.sig, s.loop.out == Delivered, s.loop.out != ContextDone))
  }

  function SignalAnswerStep(s: State): State
    requires s.loop.SigReplying?
  {
    s.(wire := s.wire + [SignalReply(s.loop.sig, s.loop.ok)],
       loop := if s.loop.continues then Idle else Stopped,
       sigReply := None)
  }

  function BreakTryStep(s: State): State {
    s.(sh := s.sh.BreakDecide(),
       loop := if s.sh.breakCh.Some? && s.sh.breakSendCancel.Some?
               then BreakSend(s.sh.breakCh.value, s.sh.breakSendCancel.value)
               else BreakReplying(false))
  }

  function CallSignalsStep(s: State, c: Option<nat>): State {
    s.(cfg := Held(None, c))
  }

  function ConfigWakeStep(s: State): State
    requires s.cfg.WaitDone?
  {
    s.(sh := s.sh.Unset(), cfg := WaitSends(s.cfg.exiter, s.cfg.target))
  }

  function DrainFinishStep(s: State, d: nat): State {
    s.(sh := s.sh.FinishDrain(d), drains := s.drains - {d})
  }

  function CallBreakStep(s: State, c: Option<nat>): State {
    s.(bcfg := Held(None, c))
  }

  function BreakConfigBeginStep(s: State): State
    requires s.bcfg.Held?
  {
    s.(sh := s.sh.BreakUnset(), bcfg := WaitSends(s.bcfg.exiter, s.bcfg.target))
  }

  function BreakConfigRegisterStep(s: State): State
    requires s.bcfg.WaitSends?
  {
    s.(sh := s.sh.BreakRegister(s.bcfg.target), bcfg := Free,
       exits := if s.bcfg.exiter.Some? then s.exits[s.bcfg.exiter.value := BreakStopped] else s.exits)
  }

  function BreakArriveStep(s: State): State {
    s.(loop := BreakHeld, breakReply := Some(TheLoop))
  }

  function BreakSendItStep(s: State, out: Outcome): State
    requires s.loop.BreakSend?
  {
    s.(loop := BreakSent(s.loop.ch, out), breaks := if out == Delivered then s.breaks + [s.loop.ch] else s.breaks)
  }

  function BreakAfterStep(s: State): State
    requires s.loop.BreakSent?
  {
    s.(sh := s.sh.AfterBreak(s.loop.ch, s.loop.out == TargetClosed), loop := BreakReplying(s.loop.out == Delivered))
  }

  function BreakAnswerStep(s: State): State
    requires s.loop.BreakReplying?
  {
    s.(wire := s.wire + [BreakReply(s.loop.ok)], loop := Idle, breakReply := None)
  }

  function ExitMarkStep(s: State, x: nat): State {
    s.(sh := s.sh.(exiting := true), exits := s.exits[x := Marked])
  }

  function ExitStopSignalsStep(s: State, x: nat): State {
    s.(cfg := Held(Some(x), None), exits := s.exits[x := Stopping])
  }

  function ExitTakeSigReplyStep(s: State, x: nat): State {
    s.(sigReply := Some(Exiter(x)), exits := s.exits[x := HasSigReply])
  }

  function ExitStopBreaksStep(s: State, x: nat): State {
    s.(sh := s.sh.(exiting := true), bcfg := Held(Some(x), None), exits := s.exits[x := BreakStopping])
  }

  function ExitTakeBreakReplyStep(s: State, x: nat): State {
    s.(breakReply := Some(Exiter(x)), exits := s.exits[x := HasBothReplies])
  }

  function ExitFinishStep(s: State, x: nat): State {
    s.(sh := s.sh.(exited := true),
       wire := if s.sh.exited then s.wire else s.wire + [ExitStatus(x)],
       sigReply := None, breakReply := None,
       exits := s.exits[x := Done])
  }

  function Step(s: State, e: Event): State
    requires Enabled(s, e)
  {
    match e
    case EndContext => s.(contextDone := true)
    case CloseTarget(ch) => s.(closedTargets := s.closedTargets + {ch})
    case CallSignals(c) => CallSignalsStep(s, c)
    case ConfigBegin => ConfigBeginStep(s)
    case ConfigWake => ConfigWakeStep(s)
    case ConfigRegister => ConfigRegisterStep(s)
    case DrainTake(d) => DrainTakeStep(s, d)
    case DrainSend(d, out) => DrainSendStep(s, d, out)
    case DrainRequeue(d) => DrainRequeueStep(s, d)
    case DrainFinish(d) => DrainFinishStep(s, d)
    case SignalArrive(name, wellFormed) => SignalArriveStep(s, name, wellFormed)
    case SignalDecide => SignalDecideStep(s)
    case SignalSend(out) => SignalSendStep(s, out)
    case SignalAfter => SignalAfterStep(s)
    case SignalAnswer => SignalAnswerStep(s)
    case CallBreak(c) => CallBreakStep(s, c)
    case BreakConfigBegin => BreakConfigBeginStep(s)
    case BreakConfigRegister => BreakConfigRegisterStep(s)
    case BreakArrive => BreakArriveStep(s)
    case BreakTry => BreakTryStep(s)
    case BreakSendIt(out) => BreakSendItStep(s, out)
    case BreakAfter => BreakAfterStep(s)
    case BreakAnswer => BreakAnswerStep(s)
    case ExitMark(x) => ExitMarkStep(s, x)
    case ExitStopSignals(x) => ExitStopSignalsStep(s, x)
    case ExitTakeSigReply(x) => ExitTakeSigReplyStep(s, x)
    case ExitStopBreaks(x) => ExitStopBreaksStep(s, x)
    case ExitTakeBreakReply(x) => ExitTakeBreakReplyStep(s, x)
    case ExitFinish(x) => ExitFinishStep(s, x)
  }

  /** A run: events that are not enabled when their turn comes do nothing. */
  function Run(s: State, es: seq<Event>): State {
    if es == [] then s
    else
      var t := Run(s, es[..|es| - 1]);
      if Enabled(t, es[|es| - 1]) then Step(t, es[|es| - 1]) else t
  }

  // ---------------------------------------------------------------- sequences of signals

  function Elements(q: seq<Signal>): set<Signal> {
    set x | x in q
  }

  /** `q` without the signals in `gone`, order kept. */
  function Without(q: seq<Signal>, gone: set<Signal>): seq<Signal> {
    if q == [] then []
    else
      var init := Without(q[..|q| - 1], gone);
      if q[|q| - 1] in gone then init else init + [q[|q| - 1]]
  }

  ghost predicate Ordered(q: seq<Signal>) {
    forall i, j :: 0 <= i < j < |q| ==> q[i].arrival < q[j].arrival
  }

  // ---------------------------------------------------------------- the invariant

  predicate Active(d: Drain) {
    !d.Final?
  }

  function Remainder(s: State): seq<Signal> {
    if s.sh.sigDrainDone.Some? && s.sh.sigDrainDone.value in s.drains then RemOf(s.drains[s.sh.sigDrainDone.value])
    else []
  }

  function RemOf(d: Drain): seq<Signal> {
    if d.Send? || d.Requeue? then d.rem else []
  }

  ghost predicate Fields(s: State) {
    var sh := s.sh;
    && !sh.panicked
    && (sh.sigCh.Some? <==> sh.sigSendCancel.Some?)
    && (sh.breakCh.Some? <==> sh.breakSendCancel.Some?)
    && sh.sigDrainCancel == sh.sigDrainDone
    && (sh.sigCh.Some? ==> sh.sigBuf == [] && sh.sigDrainDone.None?)
    && |sh.sigBuf| <= MAX_SIG_BUF
    && (sh.sigSendCancel.Some? ==> sh.sigSendCancel.value < sh.made && sh.sigSendCancel.value !in sh.closedCancels)
    && (sh.breakSendCancel.Some? ==> sh.breakSendCancel.value < sh.made && sh.breakSendCancel.value !in sh.closedCancels)
    && (sh.sigSendCancel.Some? ==> sh.sigSendCancel != sh.breakSendCancel)
    && (sh.sigDrainDone.Some? ==>
          && sh.sigDrainDone.value in s.drains
          && sh.sigDrainDone != sh.breakSendCancel && sh.sigDrainDone != sh.sigSendCancel)
    && (forall c :: c in sh.closedCancels ==> c < sh.made)
    && (forall c :: c in sh.closedDones ==> c < sh.made)
  }

  ghost predicate DrainsInv(s: State) {
    && (forall d :: d in s.drains ==> d < s.sh.made && d !in s.sh.closedDones)
    && (forall d :: d in s.drains && Active(s.drains[d]) ==> s.sh.sigDrainDone == Some(d))
    && (forall d :: d in s.drains ==> |RemOf(s.drains[d])| <= MAX_SIG_BUF)
    && (forall d :: d in s.drains && (s.drains[d].Send? || s.drains[d].Requeue?) ==> RemOf(s.drains[d]) != [])
  }

  ghost predicate ConfigInv(s: State) {
    && (s.cfg.WaitDone? ==>
          && s.cfg.drain in s.sh.closedCancels
          && (s.cfg.drain in s.drains || s.cfg.drain in s.sh.closedDones)
          && (s.sh.sigDrainDone.Some? ==> s.sh.sigDrainDone.value == s.cfg.drain))
    && (!s.cfg.WaitDone? && s.sh.sigDrainDone.Some? ==> s.sh.sigDrainDone.value !in s.sh.closedCancels)
    && (s.cfg.WaitSends? ==> s.sh.sigCh.None? && s.sh.sigDrainDone.None?)
    && (s.bcfg.WaitSends? ==> s.sh.breakCh.None?)
    && !s.bcfg.WaitDone?
    && (!s.cfg.Free? && s.cfg.exiter.Some? ==> s.cfg.target.None? && At(s, s.cfg.exiter.value, Stopping))
    && (!s.bcfg.Free? && s.bcfg.exiter.Some? ==> s.bcfg.target.None? && At(s, s.bcfg.exiter.value, BreakStopping))
    && (forall x :: x in s.exits && s.exits[x].Stopping? ==> !s.cfg.Free? && s.cfg.exiter == Some(x))
    && (forall x :: x in s.exits && s.exits[x].BreakStopping? ==> !s.bcfg.Free? && s.bcfg.exiter == Some(x))
  }

  /** A direct send: its cancel channel is the current one, or closed by an unregistration
      that is still waiting for this very send. */
  ghost predicate LoopInv(s: State) {
    && s.sh.sigSends == (if s.loop.SigSend? || s.loop.SigSent? then 1 else 0)
    && s.sh.breakSends == (if s.loop.BreakSend? || s.loop.BreakSent? then 1 else 0)
    && (s.loop.SigSend? || s.loop.SigSent? ==> s.sh.sigBuf == [] && s.sh.sigDrainDone.None?)
    && (s.loop.SigSend? ==>
          || (s.sh.sigCh == Some(s.loop.ch) && s.sh.sigSendCancel == Some(s.loop.cancel))
          || (s.cfg.WaitSends? && s.loop.cancel in s.sh.closedCancels))
    && (s.loop.SigSent? ==> s.sh.sigCh == Some(s.loop.ch) || s.cfg.WaitSends?)
    && (s.loop.BreakSend? ==>
          || (s.sh.breakCh == Some(s.loop.ch) && s.sh.breakSendCancel == Some(s.loop.cancel))
          || (s.bcfg.WaitSends? && s.loop.cancel in s.sh.closedCancels))
    && (s.loop.BreakSent? ==> s.sh.breakCh == Some(s.loop.ch) || s.bcfg.WaitSends?)
  }

  predicate InSignal(l: Loop) {
    l.SigHeld? || l.SigSend? || l.SigSent? || l.SigReplying?
  }

  predicate InBreak(l: Loop) {
    l.BreakHeld? || l.BreakSend? || l.BreakSent? || l.BreakReplying?
  }

  predicate HoldsSigReply(pc: ExitPc) {
    pc.HasSigReply? || pc.BreakStopping? || pc.BreakStopped? || pc.HasBothReplies?
  }

  ghost predicate ReplyLocks(s: State) {
    && (s.sigReply == Some(TheLoop) <==> InSignal(s.loop))
    && (s.breakReply == Some(TheLoop) <==> InBreak(s.loop))
    && (forall x :: s.sigReply == Some(Exiter(x)) <==> x in s.exits && HoldsSigReply(s.exits[x]))
    && (forall x :: s.breakReply == Some(Exiter(x)) <==> At(s, x, HasBothReplies))
  }

  predicate PastSignals(pc: ExitPc) {
    !pc.Marked? && !pc.Stopping?
  }

  predicate PastBreaks(pc: ExitPc) {
    pc.BreakStopped? || pc.HasBothReplies? || pc.Done?
  }

  /** Nothing can hand a signal to a receiver any more. */
  predicate SignalsQuiet(s: State) {
    && s.sh.exiting && s.sh.sigCh.None? && s.sh.sigDrainDone.None?
    && !s.loop.SigSend? && !s.loop.SigSent?
    && (s.cfg.Free? || s.cfg.target.None?)
  }

  predicate BreaksQuiet(s: State) {
    && s.sh.exiting && s.sh.breakCh.None?
    && !s.loop.BreakSend? && !s.loop.BreakSent?
    && (s.bcfg.Free? || s.bcfg.target.None?)
  }

  ghost predicate ExitInv(s: State) {
    && (forall x :: x in s.exits ==> s.sh.exiting)
    && (forall x :: x in s.exits && PastSignals(s.exits[x]) ==> SignalsQuiet(s))
    && (forall x :: x in s.exits && PastBreaks(s.exits[x]) ==> BreaksQuiet(s))
    && (s.sh.exited ==> SignalsQuiet(s) && BreaksQuiet(s))
    && (s.sh.exited ==> (s.loop.SigReplying? ==> !s.loop.ok) && (s.loop.BreakReplying? ==> !s.loop.ok))
  }

  function Positive(w: Wire): bool {
    match w
    case SignalReply(_, ok) => ok
    case BreakReply(ok) => ok
    case ExitStatus(_) => true
  }

  /** The exit status is the last positive message, and there is one iff the session exited. */
  ghost predicate WireInv(s: State) {
    && (!s.sh.exited ==> forall i :: 0 <= i < |s.wire| ==> !s.wire[i].ExitStatus?)
    && (s.sh.exited ==> exists i :: StatusAt(s.wire, i))
  }

  ghost predicate StatusAt(w: seq<Wire>, i: int) {
    && 0 <= i < |w| && w[i].ExitStatus?
    && (forall j :: 0 <= j < i ==> !w[j].ExitStatus?)
    && (forall j :: i < j < |w| ==> !Positive(w[j]))
  }

  /** The signals answered true so far, in the order of their replies. */
  function Answered(w: seq<Wire>): seq<Signal> {
    if w == [] then []
    else
      var init := Answered(w[..|w| - 1]);
      match w[|w| - 1]
      case SignalReply(sig, ok) => if ok then init + [sig] else init
      case _ => init
  }

  function PendingTrue(l: Loop): seq<Signal> {
    if l.SigReplying? && l.ok then [l.sig]
    else if l.SigSent? && l.out == Delivered then [l.sig]
    else []
  }

  ghost predicate Conservation(s: State) {
    && Ordered(s.accepted)
    && (forall x :: x in s.accepted ==> x.arrival < s.arrivals)
    && (s.loop.SigHeld? || s.loop.SigSend? ==>
          s.loop.sig.arrival < s.arrivals && forall x :: x in s.accepted ==> x.arrival < s.loop.sig.arrival)
    && s.lost <= Elements(s.accepted)
    && Answered(s.wire) + PendingTrue(s.loop) == s.accepted
    && Without(s.accepted, s.lost) == s.delivered + Remainder(s) + s.sh.sigBuf
  }

  ghost predicate Structure(s: State) {
    Fields(s) && DrainsInv(s) && ConfigInv(s) && LoopInv(s) && ReplyLocks(s) && ExitInv(s)
  }

  ghost predicate Inv(s: State) {
    Structure(s) && WireInv(s) && Conservation(s)
  }
}
