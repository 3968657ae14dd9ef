/** What every run of the reverse-forward protocol guarantees, for TCP and Unix alike. */
module ForwardingProofs {
  import opened Prelude
  import opened Forwarding

  // ---------------------------------------------------------------- one forward changes

  /** How a forward may change while others rely on it. */
  predicate Advances(u: Fwd, v: Fwd) {
    && v.key == u.key && v.unix == u.unix
    && (Exists(u.stage) ==> Exists(v.stage))
    && (HasWorker(u.stage) ==> HasWorker(v.stage))
    && (u.reply.Accepted? ==> v.reply.Accepted?)
    && (u.gate.closing ==> v.gate.closing)
    && (Dead(u) ==> Dead(v))
  }

  predicate Changes(s: State, t: State, f: nat, v: Fwd) {
    f in s.fwds && t.fwds == s.fwds[f := v] && t.conns == s.conns && t.cancels == s.cancels && t.channels == s.channels
  }

  /** The registry stays, and so does the forward's claim to its place there. */
  lemma KeysUpdate(s: State, t: State, f: nat, v: Fwd)
    requires KeysInv(s) && Changes(s, t, f, v) && t.reg == s.reg
    requires Advances(s.fwds[f], v) && InRegistryStage(v.stage) == InRegistryStage(s.fwds[f].stage)
    ensures KeysInv(t)
  {
  }

  /** A free key is taken. */
  lemma KeysInsert(s: State, t: State, f: nat, v: Fwd)
    requires KeysInv(s) && Changes(s, t, f, v) && v.key == s.fwds[f].key && InRegistryStage(v.stage)
    requires v.key !in s.reg && t.reg == s.reg[v.key := f]
    ensures KeysInv(t)
  {
  }

  /** A forward leaves the registry, and takes no entry but its own with it. */
  lemma KeysRemove(s: State, t: State, f: nat, v: Fwd)
    requires KeysInv(s) && Changes(s, t, f, v) && v.key == s.fwds[f].key && !InRegistryStage(v.stage)
    requires t.reg == RemoveOwn(s.reg, v.key, f)
    ensures KeysInv(t)
  {
  }

  lemma StagesUpdate(s: State, t: State, f: nat, v: Fwd)
    requires StagesInv(s) && Changes(s, t, f, v) && Settled(v)
    ensures StagesInv(t)
  {
  }

  lemma CancelsUpdate(s: State, t: State, f: nat, v: Fwd)
    requires CancelsInv(s) && Changes(s, t, f, v) && Advances(s.fwds[f], v)
    ensures CancelsInv(t)
  {
  }

  lemma ConnsUpdate(s: State, t: State, f: nat, v: Fwd)
    requires ConnInv(s) && Changes(s, t, f, v) && Advances(s.fwds[f], v)
    ensures ConnInv(t)
  {
  }

  lemma CountsUpdate(s: State, t: State, f: nat, v: Fwd)
    requires CountInv(s) && Changes(s, t, f, v)
    requires t.slots == s.slots + One(HoldsSlot(v)) - One(HoldsSlot(s.fwds[f]))
    requires t.tokens == s.tokens + One(FwdToken(v)) - One(FwdToken(s.fwds[f]))
    ensures CountInv(t)
  {
    CountUpdate(s.fwds, f, v, HoldsSlot);
    CountUpdate(s.fwds, f, v, FwdToken);
  }

  /** All but the registry. */
  lemma ForwardUpdate(s: State, t: State, f: nat, v: Fwd)
    requires Core(s) && Changes(s, t, f, v) && Advances(s.fwds[f], v) && Settled(v)
    requires t.slots == s.slots + One(HoldsSlot(v)) - One(HoldsSlot(s.fwds[f]))
    requires t.tokens == s.tokens + One(FwdToken(v)) - One(FwdToken(s.fwds[f]))
    requires KeysInv(t)
    ensures Core(t)
  {
    StagesUpdate(s, t, f, v);
    CancelsUpdate(s, t, f, v);
    ConnsUpdate(s, t, f, v);
    CountsUpdate(s, t, f, v);
  }

  /** The usual case: the registry stays. */
  lemma CoreUpdate(s: State, t: State, f: nat, v: Fwd)
    requires Core(s) && Changes(s, t, f, v) && Advances(s.fwds[f], v) && Settled(v) && t.reg == s.reg
    requires InRegistryStage(v.stage) == InRegistryStage(s.fwds[f].stage)
    requires t.slots == s.slots + One(HoldsSlot(v)) - One(HoldsSlot(s.fwds[f]))
    requires t.tokens == s.tokens + One(FwdToken(v)) - One(FwdToken(s.fwds[f]))
    ensures Core(t)
  {
    KeysUpdate(s, t, f, v);
    ForwardUpdate(s, t, f, v);
  }

  lemma PendingUpdate(s: State, t: State, f: nat, v: Fwd)
    requires PendingInv(s) && Changes(s, t, f, v) && v.gate.pending == s.fwds[f].gate.pending
    ensures PendingInv(t)
  {
  }

  /** A forward changes, with the registry and the pending opens as they were. */
  lemma Update(s: State, t: State, f: nat, v: Fwd)
    requires Inv(s) && Changes(s, t, f, v) && Advances(s.fwds[f], v) && Settled(v) && t.reg == s.reg
    requires InRegistryStage(v.stage) == InRegistryStage(s.fwds[f].stage)
    requires v.gate.pending == s.fwds[f].gate.pending
    requires t.slots == s.slots + One(HoldsSlot(v)) - One(HoldsSlot(s.fwds[f]))
    requires t.tokens == s.tokens + One(FwdToken(v)) - One(FwdToken(s.fwds[f]))
    ensures Inv(t)
  {
    CoreUpdate(s, t, f, v);
    PendingUpdate(s, t, f, v);
  }

  // ---------------------------------------------------------------- handler and worker

  lemma ReserveCore(s: State, f: nat, key: Key, unix: bool)
    requires Core(s) && f !in s.fwds
    ensures Core(ReserveStep(s, f, key, unix))
  {
    var v := Fwd(key, unix, Slot, Gate(false, 0, 0), Unanswered);
    CountUpdate(s.fwds, f, v, HoldsSlot);
    CountUpdate(s.fwds, f, v, FwdToken);
  }

  lemma ReservePending(s: State, f: nat, key: Key, unix: bool)
    requires ConnInv(s) && PendingInv(s) && f !in s.fwds
    ensures PendingInv(ReserveStep(s, f, key, unix))
  {
    NoOpens(s.conns, f);
  }

  lemma ReserveKeeps(s: State, f: nat, key: Key, unix: bool)
    requires Inv(s) && f !in s.fwds
    ensures Inv(ReserveStep(s, f, key, unix))
  {
    ReserveCore(s, f, key, unix);
    ReservePending(s, f, key, unix);
  }

  lemma TakeTokenKeeps(s: State, f: nat, granted: bool)
    requires Inv(s) && Is(s, f, Slot)
    ensures Inv(TakeTokenStep(s, f, granted))
  {
    var v := s.fwds[f].(stage := if granted then Listening else Failed);
    Update(s, TakeTokenStep(s, f, granted), f, v);
  }

  lemma ListenKeeps(s: State, f: nat, ok: bool)
    requires Inv(s) && Is(s, f, Listening)
    ensures Inv(ListenStep(s, f, ok))
  {
    var v := s.fwds[f].(stage := if ok then Made else Failed);
    Update(s, ListenStep(s, f, ok), f, v);
  }

  lemma InsertNewKeeps(s: State, f: nat)
    requires Inv(s) && Is(s, f, Made) && s.fwds[f].key !in s.reg
    ensures Inv(InsertStep(s, f))
  {
    var t, v := InsertStep(s, f), s.fwds[f].(stage := Inserted);
    KeysInsert(s, t, f, v);
    ForwardUpdate(s, t, f, v);
    PendingUpdate(s, t, f, v);
  }

  lemma InsertKeeps(s: State, f: nat)
    requires Inv(s) && Is(s, f, Made)
    ensures Inv(InsertStep(s, f))
  {
    if s.fwds[f].key in s.reg {
      Update(s, InsertStep(s, f), f, s.fwds[f].(stage := Duplicate));
    } else {
      InsertNewKeeps(s, f);
    }
  }

  /** A change of stage alone, with the registry and all slots as they were. */
  lemma MoveKeeps(s: State, f: nat, stage: Stage)
    requires Inv(s) && f in s.fwds
    requires var v := s.fwds[f].(stage := stage);
      && Advances(s.fwds[f], v) && Settled(v) && InRegistryStage(stage) == InRegistryStage(s.fwds[f].stage)
      && HoldsSlot(v) == HoldsSlot(s.fwds[f]) && FwdToken(v) == FwdToken(s.fwds[f])
    ensures Inv(Move(s, f, stage))
  {
    var v := s.fwds[f].(stage := stage);
    Update(s, Move(s, f, stage), f, v);
  }

  /** f.close, by whomever, gives the slot back the first time. */
  lemma CloseKeeps(s: State, f: nat)
    requires Inv(s) && f in s.fwds && Exists(s.fwds[f].stage)
    ensures Inv(CloseForward(s, f))
  {
    var v := s.fwds[f].(gate := s.fwds[f].gate.Close());
    Update(s, CloseForward(s, f), f, v);
  }

  /** A forward that has left the registry is on its last stage. */
  lemma RemoveKeeps(s: State, f: nat, stage: Stage)
    requires Inv(s) && f in s.fwds && !InRegistryStage(stage)
    requires var v := s.fwds[f].(stage := stage);
      && Advances(s.fwds[f], v) && Settled(v)
      && HoldsSlot(v) == HoldsSlot(s.fwds[f]) && FwdToken(v) == FwdToken(s.fwds[f])
    ensures Inv(Move(RemoveForward(s, f), f, stage))
  {
    var t := Move(RemoveForward(s, f), f, stage);
    var v := s.fwds[f].(stage := stage);
    KeysRemove(s, t, f, v);
    ForwardUpdate(s, t, f, v);
    PendingUpdate(s, t, f, v);
  }

  lemma AnswerKeeps(s: State, f: nat, accepted: bool)
    requires Inv(s) && f in s.fwds && HasWorker(s.fwds[f].stage) && s.fwds[f].reply.Unanswered?
    ensures Inv(AnswerStep(s, f, accepted))
  {
    var v := s.fwds[f].(reply := if accepted then Accepted else NotAccepted);
    Update(s, AnswerStep(s, f, accepted), f, v);
  }

  predicate SetupEvent(e: Event) {
    e.Reserve? || e.TakeToken? || e.Listen? || e.Insert?
  }

  lemma SetupKeeps(s: State, e: Event)
    requires Inv(s) && Enabled(s, e) && SetupEvent(e)
    ensures Inv(Step(s, e))
  {
    match e
    case Reserve(f, key, unix) => ReserveKeeps(s, f, key, unix);
    case TakeToken(f, granted) => TakeTokenKeeps(s, f, granted);
    case Listen(f, ok) => ListenKeeps(s, f, ok);
    case Insert(f) => InsertKeeps(s, f);
  }

  /** Closed without ever having had a worker. */
  lemma GoneKeeps(s: State, f: nat)
    requires Inv(s) && (Is(s, f, Duplicate) || Is(s, f, Unwinding)) && s.fwds[f].gate.closing
    ensures Inv(Move(s, f, Gone))
  {
    MoveKeeps(s, f, Gone);
  }

  lemma CloseUnstartedKeeps(s: State, f: nat)
    requires Inv(s) && (Is(s, f, Duplicate) || Is(s, f, Unwinding))
    ensures Inv(CloseUnstartedStep(s, f))
  {
    CloseKeeps(s, f);
    GoneKeeps(CloseForward(s, f), f);
  }

  lemma StartWorkerKeeps(s: State, f: nat, started: bool)
    requires Inv(s) && Is(s, f, Inserted)
    ensures Inv(StartWorkerStep(s, f, started))
  {
    MoveKeeps(s, f, if started then Working else NoWorker);
  }

  lemma UnwindKeeps(s: State, f: nat)
    requires Inv(s) && Is(s, f, NoWorker)
    ensures Inv(UnwindStep(s, f))
  {
    RemoveKeeps(s, f, Unwinding);
  }

  predicate StartEvent(e: Event) {
    e.CloseUnstarted? || e.StartWorker? || e.Unwind? || e.CloseByOther?
  }

  lemma StartKeeps(s: State, e: Event)
    requires Inv(s) && Enabled(s, e) && StartEvent(e)
    ensures Inv(Step(s, e))
  {
    match e
    case CloseUnstarted(f) => CloseUnstartedKeeps(s, f);
    case StartWorker(f, started) => StartWorkerKeeps(s, f, started);
    case Unwind(f) => UnwindKeeps(s, f);
    case CloseByOther(f) => CloseKeeps(s, f);
  }

  lemma ProceedKeeps(s: State, f: nat)
    requires Inv(s) && Is(s, f, Working) && s.fwds[f].reply.Accepted?
    ensures Inv(Move(s, f, Serving))
  {
    MoveKeeps(s, f, Serving);
  }

  lemma LeaveLoopKeeps(s: State, f: nat)
    requires Inv(s) && (Is(s, f, Serving) || Is(s, f, Working))
    ensures Inv(Move(s, f, Cleaning))
  {
    MoveKeeps(s, f, Cleaning);
  }

  lemma WorkerCloseKeeps(s: State, f: nat)
    requires Inv(s) && Is(s, f, Cleaning)
    ensures Inv(WorkerCloseStep(s, f))
  {
    Update(s, WorkerCloseStep(s, f), f, s.fwds[f].(gate := s.fwds[f].gate.Close(), stage := Draining));
  }

  lemma WorkerWaitKeeps(s: State, f: nat)
    requires Inv(s) && Is(s, f, Draining) && s.fwds[f].gate.pending == 0
    ensures Inv(Move(s, f, Removing))
  {
    MoveKeeps(s, f, Removing);
  }

  lemma WorkerRemoveKeeps(s: State, f: nat)
    requires Inv(s) && Is(s, f, Removing)
    ensures Inv(WorkerRemoveStep(s, f))
  {
    RemoveKeeps(s, f, Gone);
  }

  predicate WorkerEvent(e: Event) {
    e.Answer? || e.Proceed? || e.LeaveLoop? || e.WorkerClose? || e.WorkerWait? || e.WorkerRemove?
  }

  lemma WorkerKeeps(s: State, e: Event)
    requires Inv(s) && Enabled(s, e) && WorkerEvent(e)
    ensures Inv(Step(s, e))
  {
    if e.Answer? {
      AnswerKeeps(s, e.f, e.accepted);
    } else if e.Proceed? {
      ProceedKeeps(s, e.f);
    } else if e.LeaveLoop? {
      LeaveLoopKeeps(s, e.f);
    } else if e.WorkerClose? {
      WorkerCloseKeeps(s, e.f);
    } else if e.WorkerWait? {
      WorkerWaitKeeps(s, e.f);
    } else {
      WorkerRemoveKeeps(s, e.f);
    }
  }

  // ---------------------------------------------------------------- cancels

  lemma CancelsOnly(s: State, t: State, x: nat, v: Cancel)
    requires Inv(s) && t == s.(cancels := s.cancels[x := v])
    requires v.f in s.fwds && CancelOk(v, s.fwds[v.f])
    ensures Inv(t)
  {
  }

  lemma LookUpKeeps(s: State, x: nat, key: Key)
    requires Inv(s) && key in s.reg
    ensures Inv(LookUpStep(s, x, key))
  {
    CancelsOnly(s, LookUpStep(s, x, key), x, Cancel(s.reg[key], Closing));
  }

  lemma CancelCloseKeeps(s: State, x: nat)
    requires Inv(s) && CancelIs(s, x, Closing)
    ensures Inv(CancelCloseStep(s, x))
  {
    var f := s.cancels[x].f;
    CloseKeeps(s, f);
    CancelsOnly(CloseForward(s, f), CancelCloseStep(s, x), x, Cancel(f, if s.fwds[f].unix then Over else Waiting));
  }

  lemma CancelWaitKeeps(s: State, x: nat)
    requires Inv(s) && CancelIs(s, x, Waiting) && s.fwds[s.cancels[x].f].gate.pending == 0
    ensures Inv(MoveCancel(s, x, Deleting))
  {
    CancelsOnly(s, MoveCancel(s, x, Deleting), x, Cancel(s.cancels[x].f, Deleting));
  }

  /** A dead TCP forward may lose its entry while its worker is still on its way out. */
  lemma DropKeeps(s: State, f: nat)
    requires Inv(s) && f in s.fwds && Dead(s.fwds[f]) && !s.fwds[f].unix
    ensures Inv(RemoveForward(s, f))
  {
  }

  lemma CancelRemoveKeeps(s: State, x: nat)
    requires Inv(s) && CancelIs(s, x, Deleting)
    ensures Inv(CancelRemoveStep(s, x))
  {
    var f := s.cancels[x].f;
    DropKeeps(s, f);
    CancelsOnly(RemoveForward(s, f), CancelRemoveStep(s, x), x, Cancel(f, Over));
  }

  predicate CancelEvent(e: Event) {
    e.LookUp? || e.CancelClose? || e.CancelWait? || e.CancelRemove?
  }

  lemma CancelCallKeeps(s: State, e: Event)
    requires Inv(s) && Enabled(s, e) && (e.LookUp? || e.CancelClose?)
    ensures Inv(Step(s, e))
  {
    if e.LookUp? {
      LookUpKeeps(s, e.x, e.key);
    } else {
      CancelCloseKeeps(s, e.x);
    }
  }

  lemma CancelEndKeeps(s: State, e: Event)
    requires Inv(s) && Enabled(s, e) && (e.CancelWait? || e.CancelRemove?)
    ensures Inv(Step(s, e))
  {
    if e.CancelWait? {
      CancelWaitKeeps(s, e.x);
    } else {
      CancelRemoveKeeps(s, e.x);
    }
  }

  // ---------------------------------------------------------------- connections and pending opens

  lemma OpensPositive(conns: map<nat, Conn>, c: nat)
    requires c in conns && conns[c].stage.Opening?
    ensures Opens(conns, conns[c].f) > 0
  {
    CountPositive(conns, c, OpeningOn(conns[c].f));
  }

  lemma OpensUpdate(conns: map<nat, Conn>, c: nat, v: Conn, f: nat)
    ensures Opens(conns[c := v], f) == Opens(conns, f) + One(v.f == f && v.stage.Opening?)
                                       - One(c in conns && conns[c].f == f && conns[c].stage.Opening?)
  {
    CountUpdate(conns, c, v, OpeningOn(f));
  }

  lemma NoOpens(conns: map<nat, Conn>, f: nat)
    requires forall c :: c in conns ==> conns[c].f != f
    ensures Opens(conns, f) == 0
  {
    assert Where(conns, OpeningOn(f)) == {};
  }

  lemma PendingConn(s: State, t: State, c: nat, v: Conn)
    requires PendingInv(s) && t.conns == s.conns[c := v] && t.fwds.Keys == s.fwds.Keys
    requires c in s.conns ==> s.conns[c].f == v.f
    requires forall f :: f in s.fwds && f != v.f ==> t.fwds[f].gate.pending == s.fwds[f].gate.pending
    requires v.f in s.fwds
    requires t.fwds[v.f].gate.pending
          == s.fwds[v.f].gate.pending + One(v.stage.Opening?) - One(c in s.conns && s.conns[c].stage.Opening?)
    ensures PendingInv(t)
  {
    forall f | f in t.fwds
      ensures t.fwds[f].gate.pending == Opens(t.conns, f)
    {
      OpensUpdate(s.conns, c, v, f);
    }
  }

  /** One connection changes, and nothing else. */
  lemma ConnCore(s: State, t: State, c: nat, v: Conn)
    requires Core(s) && t == s.(conns := s.conns[c := v], channels := t.channels, tokens := t.tokens)
    requires v.f in s.fwds && s.fwds[v.f].reply.Accepted? && HasWorker(s.fwds[v.f].stage)
    requires t.channels == s.channels + One(HoldsChannel(v)) - One(c in s.conns && HoldsChannel(s.conns[c]))
    requires t.tokens == s.tokens + One(ConnToken(v)) - One(c in s.conns && ConnToken(s.conns[c]))
    ensures Core(t)
  {
    CountUpdate(s.conns, c, v, HoldsChannel);
    CountUpdate(s.conns, c, v, ConnToken);
  }

  lemma ConnUpdate(s: State, t: State, c: nat, v: Conn)
    requires Inv(s) && t == s.(conns := s.conns[c := v], channels := t.channels, tokens := t.tokens)
    requires c in s.conns && s.conns[c].f == v.f && !s.conns[c].stage.Opening? && !v.stage.Opening?
    requires t.channels == s.channels + One(HoldsChannel(v)) - One(HoldsChannel(s.conns[c]))
    requires t.tokens == s.tokens + One(ConnToken(v)) - One(ConnToken(s.conns[c]))
    ensures Inv(t)
  {
    ConnCore(s, t, c, v);
    PendingConn(s, t, c, v);
  }

  lemma BeginAcceptKeeps(s: State, c: nat, f: nat)
    requires Inv(s) && c !in s.conns && Is(s, f, Serving)
    ensures Inv(BeginAcceptStep(s, c, f))
  {
    ConnCore(s, BeginAcceptStep(s, c, f), c, Conn(f, TokenHeld));
    PendingConn(s, BeginAcceptStep(s, c, f), c, Conn(f, TokenHeld));
  }

  lemma EndAcceptKeeps(s: State, c: nat, arrived: bool)
    requires Inv(s) && ConnIs(s, c, TokenHeld)
    ensures Inv(EndAcceptStep(s, c, arrived))
  {
    ConnUpdate(s, EndAcceptStep(s, c, arrived), c, s.conns[c].(stage := if arrived then Arrived else Ended));
  }

  lemma ReserveChannelKeeps(s: State, c: nat, granted: bool)
    requires Inv(s) && ConnIs(s, c, Arrived)
    ensures Inv(ReserveChannelStep(s, c, granted))
  {
    ConnUpdate(s, ReserveChannelStep(s, c, granted), c, s.conns[c].(stage := if granted then ChannelSlot else Ended));
  }

  lemma LateEndKeeps(s: State, c: nat)
    requires Inv(s) && ConnIs(s, c, Lingering)
    ensures Inv(MoveConn(s, c, Ended))
  {
    ConnUpdate(s, MoveConn(s, c, Ended), c, s.conns[c].(stage := Ended));
  }

  lemma EndConnKeeps(s: State, c: nat)
    requires Inv(s) && ConnIs(s, c, Opened)
    ensures Inv(EndConnStep(s, c))
  {
    ConnUpdate(s, EndConnStep(s, c), c, s.conns[c].(stage := Ended));
  }

  predicate ConnEvent(e: Event) {
    e.EndAccept? || e.ReserveChannel? || e.LateEnd? || e.EndConn?
  }

  lemma ConnKeeps(s: State, e: Event)
    requires Inv(s) && Enabled(s, e) && ConnEvent(e)
    ensures Inv(Step(s, e))
  {
    if e.EndAccept? {
      EndAcceptKeeps(s, e.c, e.arrived);
    } else if e.ReserveChannel? {
      ReserveChannelKeeps(s, e.c, e.granted);
    } else if e.LateEnd? {
      LateEndKeeps(s, e.c);
    } else {
      EndConnKeeps(s, e.c);
    }
  }

  /** The forward was closed meanwhile: the connection is dropped and the accept loop ends. */
  lemma RefusedOpenKeeps(s: State, c: nat)
    requires Inv(s) && ConnIs(s, c, ChannelSlot) && Is(s, s.conns[c].f, Serving) && s.fwds[s.conns[c].f].gate.closing
    ensures Inv(BeginOpenStep(s, c))
  {
    var f := s.conns[c].f;
    LeaveLoopKeeps(s, f);
    ConnUpdate(Move(s, f, Cleaning), BeginOpenStep(s, c), c, Conn(f, Ended));
  }

  /** The pending count alone changes, under a forward that stays what it is. */
  lemma GateKeepsCore(s: State, f: nat, g: Gate)
    requires Core(s) && f in s.fwds && g == s.fwds[f].gate.(pending := g.pending)
    requires HasWorker(s.fwds[f].stage) && !s.fwds[f].stage.Gone?
    requires s.fwds[f].stage.Removing? || s.fwds[f].gate.closing ==> 0 <= g.pending <= s.fwds[f].gate.pending
    ensures Core(SetGate(s, f, g))
  {
    CoreUpdate(s, SetGate(s, f, g), f, s.fwds[f].(gate := g));
  }

  lemma BeginOpenCore(s: State, c: nat)
    requires Core(s) && ConnIs(s, c, ChannelSlot) && Is(s, s.conns[c].f, Serving) && !s.fwds[s.conns[c].f].gate.closing
    ensures Core(BeginOpenStep(s, c))
  {
    var f := s.conns[c].f;
    var g := s.fwds[f].gate.BeginOpen();
    GateKeepsCore(s, f, g);
    ConnCore(SetGate(s, f, g), BeginOpenStep(s, c), c, Conn(f, Opening));
  }

  lemma BeginOpenPending(s: State, c: nat)
    requires PendingInv(s) && ConnIs(s, c, ChannelSlot) && !s.fwds[s.conns[c].f].gate.closing
    ensures PendingInv(BeginOpenStep(s, c))
  {
    PendingConn(s, BeginOpenStep(s, c), c, Conn(s.conns[c].f, Opening));
  }

  lemma BeginOpenKeeps(s: State, c: nat)
    requires Inv(s) && ConnIs(s, c, ChannelSlot) && Is(s, s.conns[c].f, Serving) && !s.fwds[s.conns[c].f].gate.closing
    ensures Inv(BeginOpenStep(s, c))
  {
    BeginOpenCore(s, c);
    BeginOpenPending(s, c);
  }

  /** A forward with an open pending has a worker that has not gone. */
  lemma OpeningForward(s: State, c: nat)
    requires Inv(s) && ConnIs(s, c, Opening)
    ensures var v := s.fwds[s.conns[c].f]; v.gate.pending > 0 && HasWorker(v.stage) && !v.stage.Gone? && !v.stage.Removing?
  {
    OpensPositive(s.conns, c);
  }

  lemma FinishOpenCore(s: State, c: nat, outcome: OpenOutcome)
    requires Core(s) && ConnIs(s, c, Opening)
    ensures Core(FinishOpen(s, c, outcome))
  {
    ConnCore(s, FinishOpen(s, c, outcome), c, s.conns[c].(stage := After(outcome)));
  }

  lemma EndOpenCore(s: State, c: nat, outcome: OpenOutcome)
    requires Core(s) && ConnIs(s, c, Opening) && s.fwds[s.conns[c].f].gate.pending > 0
    requires var stage := s.fwds[s.conns[c].f].stage; HasWorker(stage) && !stage.Gone? && !stage.Removing?
    ensures Core(EndOpenStep(s, c, outcome))
  {
    var f := s.conns[c].f;
    var g := s.fwds[f].gate.EndOpen();
    GateKeepsCore(s, f, g);
    FinishOpenCore(SetGate(s, f, g), c, outcome);
  }

  lemma EndOpenPending(s: State, c: nat, outcome: OpenOutcome)
    requires PendingInv(s) && ConnIs(s, c, Opening)
    ensures PendingInv(EndOpenStep(s, c, outcome))
  {
    PendingConn(s, EndOpenStep(s, c, outcome), c, Conn(s.conns[c].f, After(outcome)));
  }

  lemma EndOpenKeeps(s: State, c: nat, outcome: OpenOutcome)
    requires Inv(s) && ConnIs(s, c, Opening)
    ensures Inv(EndOpenStep(s, c, outcome))
  {
    OpeningForward(s, c);
    EndOpenCore(s, c, outcome);
    EndOpenPending(s, c, outcome);
  }

  lemma OpenKeeps(s: State, e: Event)
    requires Inv(s) && Enabled(s, e) && (e.BeginAccept? || e.BeginOpen? || e.EndOpen?)
    ensures Inv(Step(s, e))
  {
    if e.BeginAccept? {
      BeginAcceptKeeps(s, e.c, e.f);
    } else if e.EndOpen? {
      EndOpenKeeps(s, e.c, e.outcome);
    } else if s.fwds[s.conns[e.c].f].gate.closing {
      RefusedOpenKeeps(s, e.c);
    } else {
      BeginOpenKeeps(s, e.c);
    }
  }

  /** Every step of handlers, workers, cancels and connections keeps the invariant. */
  lemma StepKeepsInv(s: State, e: Event)
    requires Inv(s) && Enabled(s, e)
    ensures Inv(Step(s, e))
  {
    if SetupEvent(e) {
      SetupKeeps(s, e);
    } else if StartEvent(e) {
      StartKeeps(s, e);
    } else if WorkerEvent(e) {
      WorkerKeeps(s, e);
    } else if e.LookUp? || e.CancelClose? {
      CancelCallKeeps(s, e);
    } else if CancelEvent(e) {
      CancelEndKeeps(s, e);
    } else if ConnEvent(e) {
      ConnKeeps(s, e);
    } else {
      OpenKeeps(s, e);
    }
  }

  // ---------------------------------------------------------------- runs

  lemma {:induction false} RunKeepsInv(s: State, es: seq<Event>)
    requires Inv(s)
    ensures Inv(Run(s, es))
  {
    if es != [] {
      var t, e := Run(s, es[..|es| - 1]), es[|es| - 1];
      RunKeepsInv(s, es[..|es| - 1]);
      if Enabled(t, e) {
        StepKeepsInv(t, e);
      }
    }
  }

  lemma Reachable(es: seq<Event>)
    ensures Inv(Run(Init, es))
  {
    assert Inv(Init);
    RunKeepsInv(Init, es);
  }

  /** A forward with a channel open pending, between beginOpen and endOpen, is the one registered
      under its key, so pending opens of an old forward never run beside a new forward of the key. */
  lemma OpenOnlyWhileRegistered(es: seq<Event>, c: nat)
    requires ConnIs(Run(Init, es), c, Opening)
    ensures var s := Run(Init, es); var f := s.conns[c].f; var key := s.fwds[f].key;
      && key in s.reg && s.reg[key] == f
      && forall d :: ConnIs(s, d, Opening) && s.fwds[s.conns[d].f].key == key ==> s.conns[d].f == f
  {
    Reachable(es);
    var s := Run(Init, es);
    forall d | ConnIs(s, d, Opening)
      ensures s.fwds[s.conns[d].f].key in s.reg && s.reg[s.fwds[s.conns[d].f].key] == s.conns[d].f
    {
      OpeningForward(s, d);
    }
  }

  /** An open that runs, whether its caller still waits for it or has given up. */
  predicate InFlight(s: State, c: nat) {
    ConnIs(s, c, Opening) || ConnIs(s, c, Lingering)
  }

  predicate Registered(s: State, f: nat) {
    f in s.fwds && s.fwds[f].key in s.reg && s.reg[s.fwds[f].key] == f
  }

  /** The boundary: an open that runs although its forward is not, or no longer, the registered one
      was given up by its caller (on a timeout or the end of the context). */
  lemma OnlyAbandonedOutlive(es: seq<Event>, c: nat)
    requires InFlight(Run(Init, es), c) && !Registered(Run(Init, es), Run(Init, es).conns[c].f)
    ensures ConnIs(Run(Init, es), c, Lingering)
  {
    if ConnIs(Run(Init, es), c, Opening) {
      OpenOnlyWhileRegistered(es, c);
    }
  }

  /** While somebody waits for a forward's pending opens no new one begins: the wait group is never
      raised from zero beside a waiter. */
  lemma NoOpenBeginsWhileAwaited(es: seq<Event>, e: Event, f: nat)
    requires Enabled(Run(Init, es), e) && f in Run(Init, es).fwds
    requires var s := Run(Init, es); Is(s, f, Draining) || exists x :: CancelIs(s, x, Waiting) && s.cancels[x].f == f
    ensures f in Step(Run(Init, es), e).fwds
    ensures Step(Run(Init, es), e).fwds[f].gate.pending <= Run(Init, es).fwds[f].gate.pending
  {
    Reachable(es);
    var s := Run(Init, es);
    assert s.fwds[f].gate.closing;
    ClosingStays(s, e, f);
  }

  predicate SamePending(s: State, t: State) {
    forall f :: f in s.fwds ==> f in t.fwds && t.fwds[f].gate.pending == s.fwds[f].gate.pending
  }

  lemma SetupShape(s: State, e: Event)
    requires Enabled(s, e) && SetupEvent(e)
    ensures SamePending(s, Step(s, e))
    ensures Step(s, e).reg == s.reg || (e.Insert? && Step(s, e).reg == InsertNew(s.reg, s.fwds[e.f].key, e.f))
  {
    if e.Reserve? || e.TakeToken? {
      EarlyShape(s, e);
    } else {
      MadeShape(s, e);
    }
  }

  lemma EarlyShape(s: State, e: Event)
    requires Enabled(s, e) && (e.Reserve? || e.TakeToken?)
    ensures SamePending(s, Step(s, e)) && Step(s, e).reg == s.reg
  {
  }

  lemma MadeShape(s: State, e: Event)
    requires Enabled(s, e) && (e.Listen? || e.Insert?)
    ensures SamePending(s, Step(s, e))
    ensures Step(s, e).reg == s.reg || (e.Insert? && Step(s, e).reg == InsertNew(s.reg, s.fwds[e.f].key, e.f))
  {
  }

  lemma StartShape(s: State, e: Event)
    requires Enabled(s, e) && StartEvent(e)
    ensures SamePending(s, Step(s, e)) && (e.Unwind? || Step(s, e).reg == s.reg)
  {
  }

  lemma WorkerShape(s: State, e: Event)
    requires Enabled(s, e) && WorkerEvent(e)
    ensures SamePending(s, Step(s, e)) && (e.WorkerRemove? || Step(s, e).reg == s.reg)
  {
  }

  lemma CancelShape(s: State, e: Event)
    requires Enabled(s, e) && CancelEvent(e)
    ensures SamePending(s, Step(s, e)) && (e.CancelRemove? || Step(s, e).reg == s.reg)
  {
  }

  lemma ConnShape(s: State, e: Event)
    requires Enabled(s, e) && (ConnEvent(e) || e.BeginAccept?)
    ensures Step(s, e).fwds == s.fwds && Step(s, e).reg == s.reg
  {
    var t := Step(s, e);
    assert t == s.(conns := t.conns, channels := t.channels, tokens := t.tokens);
  }

  /** No step raises the pending count of a closing forward. */
  lemma ClosingStays(s: State, e: Event, f: nat)
    requires Enabled(s, e) && f in s.fwds && s.fwds[f].gate.closing
    ensures f in Step(s, e).fwds && Step(s, e).fwds[f].gate.pending <= s.fwds[f].gate.pending
  {
    if SetupEvent(e) {
      SetupShape(s, e);
    } else if StartEvent(e) {
      StartShape(s, e);
    } else if WorkerEvent(e) {
      WorkerShape(s, e);
    } else if CancelEvent(e) {
      CancelShape(s, e);
    } else if ConnEvent(e) || e.BeginAccept? {
      ConnShape(s, e);
    } else {
      OpenShape(s, e, f);
    }
  }

  lemma OpenShape(s: State, e: Event, f: nat)
    requires Enabled(s, e) && f in s.fwds && (e.BeginOpen? || e.EndOpen?)
    ensures Step(s, e).reg == s.reg && f in Step(s, e).fwds
    ensures s.fwds[f].gate.closing ==> Step(s, e).fwds[f].gate.pending <= s.fwds[f].gate.pending
  {
  }

  /** A key only ever loses its forward when that forward is dead or never had a worker, and is
      never handed from one forward to another in one step: a late cleanup spares a successor. */
  lemma LateCleanupSparesSuccessor(es: seq<Event>, e: Event, key: Key)
    requires Enabled(Run(Init, es), e) && key in Run(Init, es).reg
    ensures var s := Run(Init, es); var t := Step(s, e); var g := s.reg[key];
      || (key in t.reg && t.reg[key] == g)
      || (key !in t.reg && g in s.fwds && (Dead(s.fwds[g]) || s.fwds[g].stage.NoWorker?) && Opens(s.conns, g) == 0)
  {
    Reachable(es);
    var s := Run(Init, es);
    RemovalStep(s, e, key);
    var g := s.reg[key];
    if s.fwds[g].stage.NoWorker? {
      assert s.fwds[g].gate.pending == Opens(s.conns, g);
    }
  }

  predicate Removes(e: Event) {
    e.Unwind? || e.WorkerRemove? || e.CancelRemove?
  }

  lemma RemovalStep(s: State, e: Event, key: Key)
    requires Core(s) && Enabled(s, e) && key in s.reg
    ensures var t := Step(s, e); var g := s.reg[key];
      || (key in t.reg && t.reg[key] == g)
      || (key !in t.reg && (Dead(s.fwds[g]) || s.fwds[g].stage.NoWorker?))
  {
    if Removes(e) {
      RemovalByOwner(s, e, key);
    } else {
      NoRemoval(s, e);
    }
  }

  lemma NoRemoval(s: State, e: Event)
    requires Enabled(s, e) && !Removes(e)
    ensures Step(s, e).reg == s.reg || (e.Insert? && Step(s, e).reg == InsertNew(s.reg, s.fwds[e.f].key, e.f))
  {
    if SetupEvent(e) {
      SetupShape(s, e);
    } else if StartEvent(e) {
      StartShape(s, e);
    } else if WorkerEvent(e) {
      WorkerShape(s, e);
    } else if CancelEvent(e) {
      CancelShape(s, e);
    } else if ConnEvent(e) || e.BeginAccept? {
      ConnShape(s, e);
    } else {
      OpenShape(s, e, s.conns[e.c].f);
    }
  }

  /** The forward whose entry such a step may take out. */
  function Remover(s: State, e: Event): nat
    requires Enabled(s, e) && Removes(e)
  {
    if e.CancelRemove? then s.cancels[e.x].f else e.f
  }

  lemma RemoverShape(s: State, e: Event)
    requires Enabled(s, e) && Removes(e)
    ensures Remover(s, e) in s.fwds
    ensures Step(s, e).reg == RemoveOwn(s.reg, s.fwds[Remover(s, e)].key, Remover(s, e))
  {
  }

  lemma RemoverIsDead(s: State, e: Event)
    requires StagesInv(s) && CancelsInv(s) && Enabled(s, e) && Removes(e)
    ensures Remover(s, e) in s.fwds
    ensures Dead(s.fwds[Remover(s, e)]) || s.fwds[Remover(s, e)].stage.NoWorker?
  {
  }

  lemma RemovalByOwner(s: State, e: Event, key: Key)
    requires Core(s) && Enabled(s, e) && key in s.reg && Removes(e)
    ensures var t := Step(s, e); var g := s.reg[key];
      || (key in t.reg && t.reg[key] == g)
      || (key !in t.reg && (Dead(s.fwds[g]) || s.fwds[g].stage.NoWorker?))
  {
    RemoverShape(s, e);
    RemoverIsDead(s, e);
    OwnEntry(s, Remover(s, e), key);
  }

  lemma OwnEntry(s: State, f: nat, key: Key)
    requires KeysInv(s) && f in s.fwds && key in s.reg
    ensures var reg := RemoveOwn(s.reg, s.fwds[f].key, f);
      (key in reg && reg[key] == s.reg[key]) || (key !in reg && s.reg[key] == f)
  {
  }

  /** A Unix forward keeps its key until its own worker removes it, even after a cancel. */
  lemma UnixKeyStaysTaken(es: seq<Event>, f: nat)
    requires f in Run(Init, es).fwds && Run(Init, es).fwds[f].unix
    requires InRegistryStage(Run(Init, es).fwds[f].stage)
    ensures var s := Run(Init, es); s.fwds[f].key in s.reg && s.reg[s.fwds[f].key] == f
  {
    Reachable(es);
  }

  /** Nothing is accepted or opened before the request's success reply was completed. */
  lemma NoChannelBeforeReply(es: seq<Event>, c: nat)
    requires c in Run(Init, es).conns
    ensures var s := Run(Init, es); s.conns[c].f in s.fwds && s.fwds[s.conns[c].f].reply == Accepted
  {
    Reachable(es);
  }

  predicate Finished(s: State) {
    && (forall f | f in s.fwds :: s.fwds[f].stage.Gone? || s.fwds[f].stage.Failed?)
    && (forall c | c in s.conns :: s.conns[c].stage.Ended? || s.conns[c].stage.Lingering?)
  }

  /** Every slot, token and pending open is given back exactly once on every path: the limiter
      counters equal the holders at all times, and are all zero when every thread is done. */
  lemma EverythingGivenBack(es: seq<Event>)
    ensures var s := Run(Init, es);
      && s.slots == Count(s.fwds, HoldsSlot) && s.channels == Count(s.conns, HoldsChannel)
      && s.tokens == Count(s.fwds, FwdToken) + Count(s.conns, ConnToken)
      && (forall f :: f in s.fwds ==> s.fwds[f].gate.released <= 1)
      && (forall f :: f in s.fwds && s.fwds[f].stage.Gone? ==> s.fwds[f].gate.released == 1)
    ensures var s := Run(Init, es);
      Finished(s) ==> s.slots == 0 && s.channels == 0 && s.tokens == 0
                      && forall f :: f in s.fwds ==> s.fwds[f].gate.pending == 0
  {
    Reachable(es);
    if Finished(Run(Init, es)) {
      NothingHeld(Run(Init, es));
    }
  }

  lemma NothingHeld(s: State)
    requires Inv(s) && Finished(s)
    ensures s.slots == 0 && s.channels == 0 && s.tokens == 0 && forall f :: f in s.fwds ==> s.fwds[f].gate.pending == 0
  {
    assert Where(s.fwds, HoldsSlot) == {} && Where(s.conns, HoldsChannel) == {};
    assert Where(s.fwds, FwdToken) == {} && Where(s.conns, ConnToken) == {};
  }
}
