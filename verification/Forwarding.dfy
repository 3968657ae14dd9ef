/** Reverse forwards, TCP and Unix: the keyed registry, pending channel opens, cancel and key
    reuse, and the slots and tokens every path takes (tcpip.go:126-417, streamlocal.go:91-294). */
module Forwarding {
  import opened Prelude

  // ---------------------------------------------------------------- the objects

  /** The part of a `forward` behind its mutex, its WaitGroup, and what its close has done. */
  datatype Gate = Gate(closing: bool, pending: int, released: nat)
  {
    function BeginOpen(): Gate {
      if closing then this else this.(pending := pending + 1)
    }

    function EndOpen(): Gate {
      this.(pending := pending - 1)
    }

    /** sync.OnceFunc: only the first call does anything; it gives the forward slot back. */
    function Close(): Gate {
      if closing then this else this.(closing := true, released := released + 1)
    }
  }

  class Forward {
    var closing: bool
    var pending: int
    var released: nat

    function View(): Gate
      reads this
    {
      Gate(closing, pending, released)
    }

    constructor ()
      ensures View() == Gate(false, 0, 0)
    {
      closing, pending, released := false, 0, 0;
    }

    method BeginOpen() returns (ok: bool)
      modifies this`pending
      ensures View() == old(View()).BeginOpen()
      ensures ok == !old(closing)
    {
      if closing {
        return false;
      }
      pending := pending + 1;
      ok := true;
    }

    method EndOpen()
      modifies this`pending
      ensures View() == old(View()).EndOpen()
    {
      pending := pending - 1;
    }

    method Close()
      modifies this
      ensures View() == old(View()).Close()
    {
      if !closing {
        closing := true;
        released := released + 1;
      }
    }
  }

  type Key = nat

  function InsertNew(reg: map<Key, nat>, key: Key, f: nat): map<Key, nat> {
    if key in reg then reg else reg[key := f]
  }

  /** Deletes the key only while it still belongs to `f`. */
  function RemoveOwn(reg: map<Key, nat>, key: Key, f: nat): map<Key, nat> {
    if key in reg && reg[key] == f then reg - {key} else reg
  }

  class Registry {
    var forwards: map<Key, nat>

    constructor ()
      ensures forwards == map[]
    {
      forwards := map[];
    }

    method Insert(key: Key, f: nat) returns (duplicate: bool)
      modifies this
      ensures forwards == InsertNew(old(forwards), key, f)
      ensures duplicate == (key in old(forwards))
    {
      if key in forwards {
        return true;
      }
      forwards := forwards[key := f];
      duplicate := false;
    }

    method Remove(key: Key, f: nat)
      modifies this
      ensures forwards == RemoveOwn(old(forwards), key, f)
    {
      if key in forwards && forwards[key] == f {
        forwards := forwards - {key};
      }
    }
  }

  // ---------------------------------------------------------------- the protocol

  /** How far the request handler and then the worker of one forward have come. */
  datatype Stage =
    | Slot          // forward slot reserved
    | Listening     // acquisition token taken, listener being made
    | Made          // newForward done, token given back
    | Duplicate     // key was taken; will be closed
    | Inserted      // in the registry, worker not yet started
    | NoWorker      // worker refused; will be removed and closed
    | Unwinding     // removed after a refused worker; will be closed
    | Working       // worker waits for the reply
    | Serving       // accept loop
    | Cleaning      // worker's deferred close
    | Draining      // waits for pending opens
    | Removing      // about to remove itself from the registry
    | Gone
    | Failed        // gave up before newForward

  datatype Reply = Unanswered | Accepted | NotAccepted

  datatype Fwd = Fwd(key: Key, unix: bool, stage: Stage, gate: Gate, reply: Reply)

  /** One accepted network connection of a forward. */
  datatype ConnStage =
    | TokenHeld
    | Arrived
    | ChannelSlot
    | Opening       // between beginOpen and endOpen
    | Opened
    | Lingering     // given up between the two, while the open itself still runs
    | Ended

  /** What openForwardedChannel comes back with: a channel, a failure, or having given up on an
      attempt that is still running (tcpip.go:463-485). */
  datatype OpenOutcome = Established | Refused | GaveUp

  datatype Conn = Conn(f: nat, stage: ConnStage)

  datatype CancelStage = Closing | Waiting | Deleting | Over

  datatype Cancel = Cancel(f: nat, stage: CancelStage)

  datatype State = State(
    reg: map<Key, nat>,
    fwds: map<nat, Fwd>,
    conns: map<nat, Conn>,
    cancels: map<nat, Cancel>,
    slots: int,      // reverse-forward limiter
    channels: int,   // channel limiter
    tokens: int)     // acquisitions in progress

  const Init: State := State(map[], map[], map[], map[], 0, 0, 0)

  datatype Event =
    | Reserve(f: nat, key: Key, unix: bool)
    | TakeToken(f: nat, granted: bool)
    | Listen(f: nat, ok: bool)
    | Insert(f: nat)
    | CloseUnstarted(f: nat)
    | StartWorker(f: nat, started: bool)
    | Unwind(f: nat)
    | Answer(f: nat, accepted: bool)
    | Proceed(f: nat)
    | LeaveLoop(f: nat)
    | WorkerClose(f: nat)
    | WorkerWait(f: nat)
    | WorkerRemove(f: nat)
    | CloseByOther(f: nat)
    | BeginAccept(c: nat, f: nat)
    | EndAccept(c: nat, arrived: bool)
    | ReserveChannel(c: nat, granted: bool)
    | BeginOpen(c: nat)
    | EndOpen(c: nat, outcome: OpenOutcome)
    | LateEnd(c: nat)
    | EndConn(c: nat)
    | LookUp(x: nat, key: Key)
    | CancelClose(x: nat)
    | CancelWait(x: nat)
    | CancelRemove(x: nat)

  predicate Is(s: State, f: nat, stage: Stage) {
    f in s.fwds && s.fwds[f].stage == stage
  }

  predicate ConnIs(s: State, c: nat, stage: ConnStage) {
    c in s.conns && s.conns[c].stage == stage && s.conns[c].f in s.fwds
  }

  predicate CancelIs(s: State, x: nat, stage: CancelStage) {
    x in s.cancels && s.cancels[x].stage == stage && s.cancels[x].f in s.fwds
  }

  predicate Exists(st: Stage) {
    !st.Slot? && !st.Listening? && !st.Failed?
  }

  predicate Enabled(s: State, e: Event) {
    match e
    case Reserve(f, _, _) => f !in s.fwds
    case TakeToken(f, _) => Is(s, f, Slot)
    case Listen(f, _) => Is(s, f, Listening)
    case Insert(f) => Is(s, f, Made)
    case CloseUnstarted(f) => Is(s, f, Duplicate) || Is(s, f, Unwinding)
    case StartWorker(f, _) => Is(s, f, Inserted)
    case Unwind(f) => Is(s, f, NoWorker)
    case Answer(f, _) => f in s.fwds && HasWorker(s.fwds[f].stage) && s.fwds[f].reply.Unanswered?
    case Proceed(f) => Is(s, f, Working) && s.fwds[f].reply.Accepted?
    case LeaveLoop(f) => Is(s, f, Serving) || Is(s, f, Working)
    case WorkerClose(f) => Is(s, f, Cleaning)
    case WorkerWait(f) => Is(s, f, Draining) && s.fwds[f].gate.pending == 0
    case WorkerRemove(f) => Is(s, f, Removing)
    case CloseByOther(f) => f in s.fwds && Exists(s.fwds[f].stage)
    case BeginAccept(c, f) => c !in s.conns && Is(s, f, Serving)
    case EndAccept(c, _) => ConnIs(s, c, TokenHeld)
    case ReserveChannel(c, _) => ConnIs(s, c, Arrived)
    case BeginOpen(c) => ConnIs(s, c, ChannelSlot) && Is(s, s.conns[c].f, Serving)
    case EndOpen(c, _) => ConnIs(s, c, Opening)
    case LateEnd(c) => ConnIs(s, c, Lingering)
    case EndConn(c) => ConnIs(s, c, Opened)
    case LookUp(x, key) => x !in s.cancels && key in s.reg && s.reg[key] in s.fwds
    case CancelClose(x) => CancelIs(s, x, Closing)
    case CancelWait(x) => CancelIs(s, x, Waiting) && s.fwds[s.cancels[x].f].gate.pending == 0
    case CancelRemove(x) => CancelIs(s, x, Deleting)
  }

  predicate HasWorker(st: Stage) {
    st.Working? || st.Serving? || st.Cleaning? || st.Draining? || st.Removing? || st.Gone?
  }

  function Move(s: State, f: nat, stage: Stage): State
    requires f in s.fwds
  {
    s.(fwds := s.fwds[f := s.fwds[f].(stage := stage)])
  }

  function MoveConn(s: State, c: nat, stage: ConnStage): State
    requires c in s.conns
  {
    s.(conns := s.conns[c := s.conns[c].(stage := stage)])
  }

  function MoveCancel(s: State, x: nat, stage: CancelStage): State
    requires x in s.cancels
  {
    s.(cancels := s.cancels[x := s.cancels[x].(stage := stage)])
  }

  /** f.close, whose first call also releases the forward slot. */
  function CloseForward(s: State, f: nat): State
    requires f in s.fwds
  {
    var g := s.fwds[f].gate;
    s.(fwds := s.fwds[f := s.fwds[f].(gate := g.Close())], slots := s.slots - One(!g.closing))
  }

  function SetGate(s: State, f: nat, g: Gate): State
    requires f in s.fwds
  {
    s.(fwds := s.fwds[f := s.fwds[f].(gate := g)])
  }

  function RemoveForward(s: State, f: nat): State
    requires f in s.fwds
  {
    s.(reg := RemoveOwn(s.reg, s.fwds[f].key, f))
  }

  function BeginOpenStep(s: State, c: nat): State
    requires c in s.conns && s.conns[c].f in s.fwds
  {
    var f := s.conns[c].f;
    var g := s.fwds[f].gate;
    if g.closing then
      MoveConn(Move(s, f, Cleaning), c, Ended).(channels := s.channels - 1)
    else MoveConn(SetGate(s, f, g.BeginOpen()), c, Opening)
  }

  function After(outcome: OpenOutcome): ConnStage {
    match outcome
    case Established => Opened
    case Refused => Ended
    case GaveUp => Lingering
  }

  function FinishOpen(s: State, c: nat, outcome: OpenOutcome): State
    requires c in s.conns
  {
    MoveConn(s, c, After(outcome)).(channels := s.channels - One(!outcome.Established?))
  }

  function EndOpenStep(s: State, c: nat, outcome: OpenOutcome): State
    requires c in s.conns && s.conns[c].f in s.fwds
  {
    var f := s.conns[c].f;
    FinishOpen(SetGate(s, f, s.fwds[f].gate.EndOpen()), c, outcome)
  }

  function ReserveStep(s: State, f: nat, key: Key, unix: bool): State {
    s.(fwds := s.fwds[f := Fwd(key, unix, Slot, Gate(false, 0, 0), Unanswered)], slots := s.slots + 1)
  }

  function TakeTokenStep(s: State, f: nat, granted: bool): State
    requires f in s.fwds
  {
    if granted then Move(s, f, Listening).(tokens := s.tokens + 1) else Move(s, f, Failed).(slots := s.slots - 1)
  }

  function ListenStep(s: State, f: nat, ok: bool): State
    requires f in s.fwds
  {
    if ok then Move(s, f, Made).(tokens := s.tokens - 1)
    else Move(s, f, Failed).(tokens := s.tokens - 1, slots := s.slots - 1)
  }

  function InsertStep(s: State, f: nat): State
    requires f in s.fwds
  {
    var key := s.fwds[f].key;
    Move(s, f, if key in s.reg then Duplicate else Inserted).(reg := InsertNew(s.reg, key, f))
  }

  function AnswerStep(s: State, f: nat, accepted: bool): State
    requires f in s.fwds
  {
    s.(fwds := s.fwds[f := s.fwds[f].(reply := if accepted then Accepted else NotAccepted)])
  }

  function BeginAcceptStep(s: State, c: nat, f: nat): State {
    s.(conns := s.conns[c := Conn(f, TokenHeld)], tokens := s.tokens + 1)
  }

  function EndAcceptStep(s: State, c: nat, arrived: bool): State
    requires c in s.conns
  {
    MoveConn(s, c, if arrived then Arrived else Ended).(tokens := s.tokens - 1)
  }

  function ReserveChannelStep(s: State, c: nat, granted: bool): State
    requires c in s.conns
  {
    if granted then MoveConn(s, c, ChannelSlot).(channels := s.channels + 1) else MoveConn(s, c, Ended)
  }

  function CancelCloseStep(s: State, x: nat): State
    requires x in s.cancels && s.cancels[x].f in s.fwds
  {
    var f := s.cancels[x].f;
    MoveCancel(CloseForward(s, f), x, if s.fwds[f].unix then Over else Waiting)
  }

  function CloseUnstartedStep(s: State, f: nat): State
    requires f in s.fwds
  {
    Move(CloseForward(s, f), f, Gone)
  }

  function StartWorkerStep(s: State, f: nat, started: bool): State
    requires f in s.fwds
  {
    Move(s, f, if started then Working else NoWorker)
  }

  function UnwindStep(s: State, f: nat): State
    requires f in s.fwds
  {
    Move(RemoveForward(s, f), f, Unwinding)
  }

  function WorkerCloseStep(s: State, f: nat): State
    requires f in s.fwds
  {
    Move(CloseForward(s, f), f, Draining)
  }

  function WorkerRemoveStep(s: State, f: nat): State
    requires f in s.fwds
  {
    Move(RemoveForward(s, f), f, Gone)
  }

  function EndConnStep(s: State, c: nat): State
    requires c in s.conns
  {
    MoveConn(s, c, Ended).(channels := s.channels - 1)
  }

  function LookUpStep(s: State, x: nat, key: Key): State
    requires key in s.reg
  {
    s.(cancels := s.cancels[x := Cancel(s.reg[key], Closing)])
  }

  function CancelRemoveStep(s: State, x: nat): State
    requires x in s.cancels && s.cancels[x].f in s.fwds
  {
    MoveCancel(RemoveForward(s, s.cancels[x].f), x, Over)
  }

  function Step(s: State, e: Event): State
    requires Enabled(s, e)
  {
    match e
    case Reserve(f, key, unix) => ReserveStep(s, f, key, unix)
    case TakeToken(f, granted) => TakeTokenStep(s, f, granted)
    case Listen(f, ok) => ListenStep(s, f, ok)
    case Insert(f) => InsertStep(s, f)
    case CloseUnstarted(f) => CloseUnstartedStep(s, f)
    case StartWorker(f, started) => StartWorkerStep(s, f, started)
    case Unwind(f) => UnwindStep(s, f)
    case Answer(f, accepted) => AnswerStep(s, f, accepted)
    case Proceed(f) => Move(s, f, Serving)
    case LeaveLoop(f) => Move(s, f, Cleaning)
    case WorkerClose(f) => WorkerCloseStep(s, f)
    case WorkerWait(f) => Move(s, f, Removing)
    case WorkerRemove(f) => WorkerRemoveStep(s, f)
    case CloseByOther(f) => CloseForward(s, f)
    case BeginAccept(c, f) => BeginAcceptStep(s, c, f)
    case EndAccept(c, arrived) => EndAcceptStep(s, c, arrived)
    case ReserveChannel(c, granted) => ReserveChannelStep(s, c, granted)
    case BeginOpen(c) => BeginOpenStep(s, c)
    case EndOpen(c, outcome) => EndOpenStep(s, c, outcome)
    case LateEnd(c) => MoveConn(s, c, Ended)
    case EndConn(c) => EndConnStep(s, c)
    case LookUp(x, key) => LookUpStep(s, x, key)
    case CancelClose(x) => CancelCloseStep(s, x)
    case CancelWait(x) => MoveCancel(s, x, Deleting)
    case CancelRemove(x) => CancelRemoveStep(s, x)
  }

  function Run(s: State, es: seq<Event>): State {
    if es == [] then s
    else
      var t := Run(s, es[..|es| - 1]);
      if Enabled(t, es[|es| - 1]) then Step(t, es[|es| - 1]) else t
  }

  // ---------------------------------------------------------------- the invariant

  /** How many channel opens of forward `f` are in flight. */
  function Opens(conns: map<nat, Conn>, f: nat): nat {
    Count(conns, OpeningOn(f))
  }

  function OpeningOn(f: nat): Conn -> bool {
    (c: Conn) => c.f == f && c.stage.Opening?
  }

  predicate HoldsSlot(f: Fwd) {
    f.stage.Slot? || f.stage.Listening? || (Exists(f.stage) && !f.gate.closing)
  }

  predicate HoldsChannel(c: Conn) {
    c.stage.ChannelSlot? || c.stage.Opening? || c.stage.Opened?
  }

  predicate FwdToken(f: Fwd) {
    f.stage.Listening?
  }

  predicate ConnToken(c: Conn) {
    c.stage.TokenHeld?
  }

  /** Closed, with no open in flight: nothing can be opened through it any more. */
  predicate Dead(f: Fwd) {
    f.gate.closing && f.gate.pending == 0
  }

  predicate InRegistryStage(st: Stage) {
    st.Inserted? || st.NoWorker? || st.Working? || st.Serving? || st.Cleaning? || st.Draining? || st.Removing?
  }

  /** Who is registered: nobody else under any key, and everybody who could still open channels. */
  ghost predicate KeysInv(s: State) {
    && (forall k :: k in s.reg ==>
          s.reg[k] in s.fwds && s.fwds[s.reg[k]].key == k && InRegistryStage(s.fwds[s.reg[k]].stage))
    && (forall f :: f in s.fwds && InRegistryStage(s.fwds[f].stage) && (!Dead(s.fwds[f]) || s.fwds[f].unix) ==>
          s.fwds[f].key in s.reg && s.reg[s.fwds[f].key] == f)
  }

  /** What a forward's stage says about its gate. */
  predicate Settled(v: Fwd) {
    && (v.stage.Removing? ==> Dead(v))
    && (v.stage.Draining? || v.stage.Gone? ==> v.gate.closing)
    && (v.stage.Gone? || !HasWorker(v.stage) ==> v.gate.pending == 0)
    && (v.stage.Serving? ==> v.reply.Accepted?)
    && v.gate.released == One(v.gate.closing)
    && (!Exists(v.stage) ==> !v.gate.closing)
  }

  ghost predicate StagesInv(s: State) {
    forall f :: f in s.fwds ==> Settled(s.fwds[f])
  }

  predicate CancelOk(x: Cancel, v: Fwd) {
    && Exists(v.stage)
    && (x.stage.Waiting? ==> v.gate.closing)
    && (x.stage.Deleting? ==> Dead(v))
    && (v.unix ==> x.stage.Closing? || x.stage.Over?)
  }

  ghost predicate CancelsInv(s: State) {
    forall x :: x in s.cancels ==> s.cancels[x].f in s.fwds && CancelOk(s.cancels[x], s.fwds[s.cancels[x].f])
  }

  ghost predicate ConnInv(s: State) {
    forall c :: c in s.conns ==>
      s.conns[c].f in s.fwds && s.fwds[s.conns[c].f].reply.Accepted? && HasWorker(s.fwds[s.conns[c].f].stage)
  }

  ghost predicate PendingInv(s: State) {
    forall f :: f in s.fwds ==> s.fwds[f].gate.pending == Opens(s.conns, f)
  }

  ghost predicate CountInv(s: State) {
    && s.slots == Count(s.fwds, HoldsSlot)
    && s.channels == Count(s.conns, HoldsChannel)
    && s.tokens == Count(s.fwds, FwdToken) + Count(s.conns, ConnToken)
  }

  ghost predicate Core(s: State) {
    KeysInv(s) && StagesInv(s) && CancelsInv(s) && ConnInv(s) && CountInv(s)
  }

  ghost predicate Inv(s: State) {
    Core(s) && PendingInv(s)
  }
}
