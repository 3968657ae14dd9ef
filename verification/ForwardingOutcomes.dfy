/** What becomes of a reverse forward is what the events about it decided: the answer to its request,
    the grants of limiters and acquisitions, the outcomes of listening, accepting and opening, and the
    cancels (tcpip.go:212-412, streamlocal.go:130-330). */
module ForwardingOutcomes {
  import opened Prelude
  import opened Forwarding
  import opened ForwardingProofs

  /** What a forward's events have said so far. */
  datatype Seen = Seen(
    key: Key, unix: bool, granted: Option<bool>, listened: Option<bool>, started: Option<bool>,
    answer: Option<bool>, closed: bool)

  /** What a connection's events have said so far. */
  datatype ConnSeen = ConnSeen(
    f: nat, arrived: Option<bool>, slot: Option<bool>, outcome: Option<OpenOutcome>, finished: bool)

  /** The events of a run about each forward, each connection and each cancel. */
  datatype History = History(fwds: map<nat, Seen>, conns: map<nat, ConnSeen>, cancels: map<nat, Key>)
  {
    function Put(f: nat, v: Seen): History {
      this.(fwds := fwds[f := v])
    }

    function PutConn(c: nat, v: ConnSeen): History {
      this.(conns := conns[c := v])
    }

    function After(e: Event): History {
      match e
      case Reserve(f, key, unix) => Put(f, Seen(key, unix, None, None, None, None, false))
      case TakeToken(f, ok) => if f in fwds then Put(f, fwds[f].(granted := Some(ok))) else this
      case Listen(f, ok) => if f in fwds then Put(f, fwds[f].(listened := Some(ok))) else this
      case StartWorker(f, ok) => if f in fwds then Put(f, fwds[f].(started := Some(ok))) else this
      case Answer(f, ok) => if f in fwds then Put(f, fwds[f].(answer := Some(ok))) else this
      case CloseUnstarted(f) => Closed(f)
      case WorkerClose(f) => Closed(f)
      case CloseByOther(f) => Closed(f)
      case BeginAccept(c, f) => PutConn(c, ConnSeen(f, None, None, None, false))
      case EndAccept(c, ok) => if c in conns then PutConn(c, conns[c].(arrived := Some(ok))) else this
      case ReserveChannel(c, ok) => if c in conns then PutConn(c, conns[c].(slot := Some(ok))) else this
      case EndOpen(c, outcome) => if c in conns then PutConn(c, conns[c].(outcome := Some(outcome))) else this
      case LateEnd(c) => Finished(c)
      case EndConn(c) => Finished(c)
      case LookUp(x, key) => this.(cancels := cancels[x := key])
      case _ => this
    }

    function Closed(f: nat): History {
      if f in fwds then Put(f, fwds[f].(closed := true)) else this
    }

    function Finished(c: nat): History {
      if c in conns then PutConn(c, conns[c].(finished := true)) else this
    }
  }

  /** What happened in a run; events that were not enabled did not happen. */
  function Happened(es: seq<Event>): History {
    if es == [] then History(map[], map[], map[])
    else
      var init, e := es[..|es| - 1], es[|es| - 1];
      if Enabled(Run(Init, init), e) then Happened(init).After(e) else Happened(init)
  }

  // ---------------------------------------------------------------- the invariant

  predicate FwdOk(v: Fwd, h: Seen) {
    && h.key == v.key && h.unix == v.unix
    && (v.stage.Failed? <==> h.granted == Some(false) || h.listened == Some(false))
    && (h.listened.Some? ==> h.granted == Some(true)) && (h.started.Some? ==> h.listened == Some(true))
    && (v.stage.Slot? <==> h.granted.None?)
    && (v.stage.Listening? <==> h.granted == Some(true) && h.listened.None?)
    && (Exists(v.stage) <==> h.listened == Some(true))
    && (h.started == Some(true) ==> HasWorker(v.stage))
    && (HasWorker(v.stage) && !v.stage.Gone? ==> h.started == Some(true))
    && (v.stage.NoWorker? || v.stage.Unwinding? ==> h.started == Some(false))
    && (h.started == Some(false) ==> v.stage.NoWorker? || v.stage.Unwinding? || v.stage.Gone?)
    && (v.reply.Accepted? <==> h.answer == Some(true))
    && (v.reply.NotAccepted? <==> h.answer == Some(false))
    && (v.stage.Serving? ==> v.reply.Accepted?)
    && (h.closed ==> v.gate.closing)
  }

  predicate ConnOk(v: Conn, h: ConnSeen) {
    && h.f == v.f
    && (v.stage.TokenHeld? <==> h.arrived.None?)
    && (v.stage.Arrived? <==> h.arrived == Some(true) && h.slot.None?)
    && (v.stage.ChannelSlot? || v.stage.Opening? ==> h.slot == Some(true) && h.outcome.None?)
    && (h.slot.Some? ==> h.arrived == Some(true)) && (h.outcome.Some? ==> h.slot == Some(true))
    && (h.finished ==> h.outcome == Some(Established) || h.outcome == Some(GaveUp))
    && (v.stage.Opened? <==> h.outcome == Some(Established) && !h.finished)
    && (v.stage.Lingering? <==> h.outcome == Some(GaveUp) && !h.finished)
  }

  ghost predicate FwdsOk(s: State, h: History) {
    s.fwds.Keys == h.fwds.Keys && forall f :: f in s.fwds ==> FwdOk(s.fwds[f], h.fwds[f])
  }

  ghost predicate ConnsOk(s: State, h: History) {
    s.conns.Keys == h.conns.Keys && forall c :: c in s.conns ==> ConnOk(s.conns[c], h.conns[c])
  }

  predicate CancelOf(x: Cancel, fwds: map<nat, Fwd>, key: Key) {
    x.f in fwds && fwds[x.f].key == key && (!x.stage.Closing? ==> fwds[x.f].gate.closing)
  }

  /** A cancel is about the forward of its key, and closes it. */
  ghost predicate CancelsOk(s: State, h: History) {
    s.cancels.Keys == h.cancels.Keys && forall x :: x in s.cancels ==> CancelOf(s.cancels[x], s.fwds, h.cancels[x])
  }

  lemma FwdMoves(s: State, t: State, h: History, k: History, f: nat, v: Fwd, w: Seen)
    requires FwdsOk(s, h) && t.fwds == s.fwds[f := v] && k.fwds == h.fwds[f := w] && FwdOk(v, w)
    ensures FwdsOk(t, k)
  {
  }

  lemma CloseOk(v: Fwd, w: Seen)
    requires FwdOk(v, w)
    ensures FwdOk(v.(gate := v.gate.Close()), w.(closed := true))
  {
  }

  lemma ReserveFwds(s: State, h: History, f: nat, key: Key, unix: bool)
    requires FwdsOk(s, h) && f !in s.fwds
    ensures FwdsOk(ReserveStep(s, f, key, unix), h.After(Reserve(f, key, unix)))
  {
    FwdMoves(s, ReserveStep(s, f, key, unix), h, h.After(Reserve(f, key, unix)), f,
             Fwd(key, unix, Slot, Gate(false, 0, 0), Unanswered), Seen(key, unix, None, None, None, None, false));
  }

  lemma TakeTokenFwds(s: State, h: History, f: nat, ok: bool)
    requires FwdsOk(s, h) && Is(s, f, Slot)
    ensures FwdsOk(TakeTokenStep(s, f, ok), h.After(TakeToken(f, ok)))
  {
    var v, w := s.fwds[f], h.fwds[f];
    assert FwdOk(v, w);
    FwdMoves(s, TakeTokenStep(s, f, ok), h, h.After(TakeToken(f, ok)), f,
             v.(stage := if ok then Listening else Failed), w.(granted := Some(ok)));
  }

  lemma ListenFwds(s: State, h: History, f: nat, ok: bool)
    requires FwdsOk(s, h) && Is(s, f, Listening)
    ensures FwdsOk(ListenStep(s, f, ok), h.After(Listen(f, ok)))
  {
    var v, w := s.fwds[f], h.fwds[f];
    assert FwdOk(v, w);
    FwdMoves(s, ListenStep(s, f, ok), h, h.After(Listen(f, ok)), f,
             v.(stage := if ok then Made else Failed), w.(listened := Some(ok)));
  }

  lemma InsertFwds(s: State, h: History, f: nat)
    requires FwdsOk(s, h) && Is(s, f, Made)
    ensures FwdsOk(InsertStep(s, f), h.After(Insert(f)))
  {
    var v, w := s.fwds[f], h.fwds[f];
    assert FwdOk(v, w);
    FwdMoves(s, InsertStep(s, f), h, h.After(Insert(f)), f,
             v.(stage := if v.key in s.reg then Duplicate else Inserted), w);
  }

  lemma StartWorkerFwds(s: State, h: History, f: nat, ok: bool)
    requires FwdsOk(s, h) && Is(s, f, Inserted)
    ensures FwdsOk(StartWorkerStep(s, f, ok), h.After(StartWorker(f, ok)))
  {
    var v, w := s.fwds[f], h.fwds[f];
    assert FwdOk(v, w);
    FwdMoves(s, StartWorkerStep(s, f, ok), h, h.After(StartWorker(f, ok)), f,
             v.(stage := if ok then Working else NoWorker), w.(started := Some(ok)));
  }

  lemma CloseForwardFwds(s: State, h: History, f: nat)
    requires FwdsOk(s, h) && f in s.fwds
    ensures FwdsOk(CloseForward(s, f), h.Closed(f))
  {
    var v, w := s.fwds[f], h.fwds[f];
    CloseOk(v, w);
    FwdMoves(s, CloseForward(s, f), h, h.Closed(f), f, v.(gate := v.gate.Close()), w.(closed := true));
  }

  lemma CloseUnstartedFwds(s: State, h: History, f: nat)
    requires FwdsOk(s, h) && (Is(s, f, Duplicate) || Is(s, f, Unwinding))
    ensures FwdsOk(CloseUnstartedStep(s, f), h.Closed(f))
  {
    var t, k := CloseForward(s, f), h.Closed(f);
    CloseForwardFwds(s, h, f);
    var v, w := t.fwds[f], k.fwds[f];
    assert FwdOk(v, w);
    FwdMoves(t, Move(t, f, Gone), k, k.Put(f, w), f, v.(stage := Gone), w);
    assert k.Put(f, w).fwds == k.fwds;
  }

  lemma UnwindFwds(s: State, h: History, f: nat)
    requires FwdsOk(s, h) && Is(s, f, NoWorker)
    ensures FwdsOk(UnwindStep(s, f), h.After(Unwind(f)))
  {
    var v, w := s.fwds[f], h.fwds[f];
    assert FwdOk(v, w);
    FwdMoves(s, UnwindStep(s, f), h, h.After(Unwind(f)), f, v.(stage := Unwinding), w);
  }

  lemma AnswerFwds(s: State, h: History, f: nat, ok: bool)
    requires FwdsOk(s, h) && f in s.fwds && s.fwds[f].reply.Unanswered? && HasWorker(s.fwds[f].stage)
    ensures FwdsOk(AnswerStep(s, f, ok), h.After(Answer(f, ok)))
  {
    var v, w := s.fwds[f], h.fwds[f];
    assert FwdOk(v, w);
    FwdMoves(s, AnswerStep(s, f, ok), h, h.After(Answer(f, ok)), f,
             v.(reply := if ok then Accepted else NotAccepted), w.(answer := Some(ok)));
  }

  /** A worker's own moves, from one stage to the next. */
  lemma MoveFwds(s: State, h: History, f: nat, stage: Stage)
    requires FwdsOk(s, h) && f in s.fwds && HasWorker(s.fwds[f].stage) && !s.fwds[f].stage.Gone?
    requires HasWorker(stage) && (stage.Serving? ==> s.fwds[f].reply.Accepted?)
    ensures FwdsOk(Move(s, f, stage), h)
  {
    var v, w := s.fwds[f], h.fwds[f];
    assert FwdOk(v, w);
    FwdMoves(s, Move(s, f, stage), h, h.Put(f, w), f, v.(stage := stage), w);
    assert h.Put(f, w).fwds == h.fwds;
  }

  lemma WorkerCloseFwds(s: State, h: History, f: nat)
    requires FwdsOk(s, h) && Is(s, f, Cleaning)
    ensures FwdsOk(WorkerCloseStep(s, f), h.Closed(f))
  {
    CloseForwardFwds(s, h, f);
    MoveFwds(CloseForward(s, f), h.Closed(f), f, Draining);
  }

  lemma FwdsFrame(s: State, t: State, h: History, k: History)
    requires FwdsOk(s, h) && k.fwds == h.fwds && t.fwds.Keys == s.fwds.Keys
    requires forall f :: f in s.fwds ==>
      t.fwds[f] == s.fwds[f].(gate := t.fwds[f].gate) && (s.fwds[f].gate.closing ==> t.fwds[f].gate.closing)
    ensures FwdsOk(t, k)
  {
    forall f | f in t.fwds
      ensures FwdOk(t.fwds[f], k.fwds[f])
    {
      assert FwdOk(s.fwds[f], h.fwds[f]);
    }
  }

  lemma SetupFwds(s: State, h: History, e: Event)
    requires FwdsOk(s, h) && Enabled(s, e) && SetupEvent(e)
    ensures FwdsOk(Step(s, e), h.After(e))
  {
    if e.Reserve? {
      ReserveFwds(s, h, e.f, e.key, e.unix);
    } else if e.TakeToken? {
      TakeTokenFwds(s, h, e.f, e.granted);
    } else if e.Listen? {
      ListenFwds(s, h, e.f, e.ok);
    } else {
      InsertFwds(s, h, e.f);
    }
  }

  lemma StartFwds(s: State, h: History, e: Event)
    requires FwdsOk(s, h) && Enabled(s, e) && StartEvent(e)
    ensures FwdsOk(Step(s, e), h.After(e))
  {
    if e.CloseUnstarted? {
      CloseUnstartedFwds(s, h, e.f);
    } else if e.StartWorker? {
      StartWorkerFwds(s, h, e.f, e.started);
    } else if e.Unwind? {
      UnwindFwds(s, h, e.f);
    } else {
      CloseForwardFwds(s, h, e.f);
    }
  }

  lemma WorkerFwds(s: State, h: History, e: Event)
    requires FwdsOk(s, h) && Enabled(s, e) && WorkerEvent(e)
    ensures FwdsOk(Step(s, e), h.After(e))
  {
    if e.Answer? {
      AnswerFwds(s, h, e.f, e.accepted);
    } else if e.WorkerClose? {
      WorkerCloseFwds(s, h, e.f);
    } else if e.WorkerRemove? {
      MoveFwds(s, h, e.f, Gone);
      FwdsFrame(Move(s, e.f, Gone), WorkerRemoveStep(s, e.f), h, h);
    } else {
      MoveFwds(s, h, e.f, if e.Proceed? then Serving else if e.LeaveLoop? then Cleaning else Removing);
    }
  }

  lemma SameFwds(s: State, t: State, h: History, k: History)
    requires FwdsOk(s, h) && t.fwds == s.fwds && k.fwds == h.fwds
    ensures FwdsOk(t, k)
  {
  }

  lemma CancelFwds(s: State, h: History, e: Event)
    requires FwdsOk(s, h) && Enabled(s, e) && CancelEvent(e)
    ensures FwdsOk(Step(s, e), h.After(e))
  {
    if e.CancelClose? {
      FwdsFrame(s, CancelCloseStep(s, e.x), h, h);
    } else {
      OtherCancelFwds(s, h, e);
    }
  }

  lemma OtherCancelFwds(s: State, h: History, e: Event)
    requires FwdsOk(s, h) && Enabled(s, e) && CancelEvent(e) && !e.CancelClose?
    ensures FwdsOk(Step(s, e), h.After(e))
  {
    SameFwds(s, Step(s, e), h, h.After(e));
  }

  lemma ConnFwds(s: State, h: History, e: Event)
    requires FwdsOk(s, h) && Enabled(s, e) && (ConnEvent(e) || e.BeginAccept?)
    ensures FwdsOk(Step(s, e), h.After(e))
  {
    ConnShape(s, e);
    var t, k := Step(s, e), h.After(e);
    assert t.fwds == s.fwds && k.fwds == h.fwds;
    SameFwds(s, t, h, k);
  }

  lemma BeginOpenFwds(s: State, h: History, c: nat)
    requires FwdsOk(s, h) && Enabled(s, BeginOpen(c))
    ensures FwdsOk(BeginOpenStep(s, c), h)
  {
    var f := s.conns[c].f;
    if s.fwds[f].gate.closing {
      MoveFwds(s, h, f, Cleaning);
    }
    var u := if s.fwds[f].gate.closing then Move(s, f, Cleaning) else s;
    FwdsFrame(u, BeginOpenStep(s, c), h, h);
  }

  lemma FwdsStep(s: State, h: History, e: Event)
    requires FwdsOk(s, h) && Enabled(s, e)
    ensures FwdsOk(Step(s, e), h.After(e))
  {
    if SetupEvent(e) {
      SetupFwds(s, h, e);
    } else if StartEvent(e) {
      StartFwds(s, h, e);
    } else if WorkerEvent(e) {
      WorkerFwds(s, h, e);
    } else if CancelEvent(e) {
      CancelFwds(s, h, e);
    } else if e.BeginOpen? {
      BeginOpenFwds(s, h, e.c);
    } else if e.EndOpen? {
      FwdsFrame(s, EndOpenStep(s, e.c, e.outcome), h, h.After(e));
    } else {
      ConnFwds(s, h, e);
    }
  }

  lemma ConnMoves(s: State, t: State, h: History, k: History, c: nat, v: Conn, w: ConnSeen)
    requires ConnsOk(s, h) && t.conns == s.conns[c := v] && k.conns == h.conns[c := w] && ConnOk(v, w)
    ensures ConnsOk(t, k)
  {
  }

  lemma BeginAcceptConns(s: State, h: History, c: nat, f: nat)
    requires ConnsOk(s, h) && c !in s.conns
    ensures ConnsOk(BeginAcceptStep(s, c, f), h.After(BeginAccept(c, f)))
  {
    ConnMoves(s, BeginAcceptStep(s, c, f), h, h.After(BeginAccept(c, f)), c,
              Conn(f, TokenHeld), ConnSeen(f, None, None, None, false));
  }

  lemma EndAcceptConns(s: State, h: History, c: nat, ok: bool)
    requires ConnsOk(s, h) && ConnIs(s, c, TokenHeld)
    ensures ConnsOk(EndAcceptStep(s, c, ok), h.After(EndAccept(c, ok)))
  {
    var v, w := s.conns[c], h.conns[c];
    assert ConnOk(v, w);
    ConnMoves(s, EndAcceptStep(s, c, ok), h, h.After(EndAccept(c, ok)), c,
              v.(stage := if ok then Arrived else Ended), w.(arrived := Some(ok)));
  }

  lemma ReserveChannelConns(s: State, h: History, c: nat, ok: bool)
    requires ConnsOk(s, h) && ConnIs(s, c, Arrived)
    ensures ConnsOk(ReserveChannelStep(s, c, ok), h.After(ReserveChannel(c, ok)))
  {
    var v, w := s.conns[c], h.conns[c];
    assert ConnOk(v, w);
    ConnMoves(s, ReserveChannelStep(s, c, ok), h, h.After(ReserveChannel(c, ok)), c,
              v.(stage := if ok then ChannelSlot else Ended), w.(slot := Some(ok)));
  }

  lemma BeginOpenConns(s: State, h: History, c: nat)
    requires ConnsOk(s, h) && ConnIs(s, c, ChannelSlot)
    ensures ConnsOk(BeginOpenStep(s, c), h)
  {
    var v, w := s.conns[c], h.conns[c];
    assert ConnOk(v, w);
    var t := BeginOpenStep(s, c);
    ConnMoves(s, t, h, h.PutConn(c, w), c, t.conns[c], w);
    assert h.PutConn(c, w).conns == h.conns;
  }

  lemma EndOpenConns(s: State, h: History, c: nat, outcome: OpenOutcome)
    requires ConnsOk(s, h) && ConnIs(s, c, Opening)
    ensures ConnsOk(EndOpenStep(s, c, outcome), h.After(EndOpen(c, outcome)))
  {
    var v, w := s.conns[c], h.conns[c];
    assert ConnOk(v, w);
    ConnMoves(s, EndOpenStep(s, c, outcome), h, h.After(EndOpen(c, outcome)), c,
              v.(stage := Forwarding.After(outcome)), w.(outcome := Some(outcome)));
  }

  lemma LateEndConns(s: State, h: History, c: nat)
    requires ConnsOk(s, h) && ConnIs(s, c, Lingering)
    ensures ConnsOk(MoveConn(s, c, Ended), h.After(LateEnd(c)))
  {
    var v, w := s.conns[c], h.conns[c];
    assert ConnOk(v, w);
    ConnMoves(s, MoveConn(s, c, Ended), h, h.After(LateEnd(c)), c, v.(stage := Ended), w.(finished := true));
  }

  lemma EndConnConns(s: State, h: History, c: nat)
    requires ConnsOk(s, h) && ConnIs(s, c, Opened)
    ensures ConnsOk(EndConnStep(s, c), h.After(EndConn(c)))
  {
    var v, w := s.conns[c], h.conns[c];
    assert ConnOk(v, w);
    ConnMoves(s, EndConnStep(s, c), h, h.After(EndConn(c)), c, v.(stage := Ended), w.(finished := true));
  }

  predicate OnConns(e: Event) {
    ConnEvent(e) || e.BeginAccept? || e.BeginOpen? || e.EndOpen?
  }

  lemma ConnsStep(s: State, h: History, e: Event)
    requires ConnsOk(s, h) && Enabled(s, e)
    ensures ConnsOk(Step(s, e), h.After(e))
  {
    if e.BeginAccept? {
      BeginAcceptConns(s, h, e.c, e.f);
    } else if e.EndAccept? {
      EndAcceptConns(s, h, e.c, e.arrived);
    } else if e.ReserveChannel? {
      ReserveChannelConns(s, h, e.c, e.granted);
    } else if e.BeginOpen? {
      BeginOpenConns(s, h, e.c);
    } else if e.EndOpen? {
      EndOpenConns(s, h, e.c, e.outcome);
    } else if e.LateEnd? {
      LateEndConns(s, h, e.c);
    } else if e.EndConn? {
      EndConnConns(s, h, e.c);
    } else {
      SameConns(s, h, e);
    }
  }

  lemma SameConns(s: State, h: History, e: Event)
    requires Enabled(s, e) && !OnConns(e)
    ensures Step(s, e).conns == s.conns && h.After(e).conns == h.conns
  {
  }

  // ---------------------------------------------------------------- cancels

  /** Forwards keep their keys, and stay closed. */
  predicate Keeps(s: State, t: State) {
    forall f :: f in s.fwds ==>
      f in t.fwds && t.fwds[f].key == s.fwds[f].key && (s.fwds[f].gate.closing ==> t.fwds[f].gate.closing)
  }

  lemma CancelsFrame(s: State, t: State, h: History, k: History)
    requires CancelsOk(s, h) && t.cancels == s.cancels && k.cancels == h.cancels && Keeps(s, t)
    ensures CancelsOk(t, k)
  {
  }

  lemma LookUpCancels(s: State, h: History, x: nat, key: Key)
    requires CancelsOk(s, h) && KeysInv(s) && x !in s.cancels && key in s.reg
    ensures CancelsOk(LookUpStep(s, x, key), h.After(LookUp(x, key)))
  {
  }

  lemma CancelCloseCancels(s: State, h: History, x: nat)
    requires CancelsOk(s, h) && CancelIs(s, x, Closing)
    ensures CancelsOk(CancelCloseStep(s, x), h)
  {
    var t := CancelCloseStep(s, x);
    assert Keeps(s, t) && t.fwds[s.cancels[x].f].gate.closing;
  }

  lemma CancelMoves(s: State, t: State, h: History, x: nat, stage: CancelStage)
    requires CancelsOk(s, h) && x in s.cancels && !s.cancels[x].stage.Closing?
    requires t.fwds == s.fwds && t.cancels == s.cancels[x := s.cancels[x].(stage := stage)]
    ensures CancelsOk(t, h)
  {
  }

  /** A step on one forward. */
  lemma ForwardCancels(s: State, t: State, h: History, k: History, f: nat)
    requires CancelsOk(s, h) && t.cancels == s.cancels && k.cancels == h.cancels
    requires f in t.fwds && t.fwds == s.fwds[f := t.fwds[f]]
    requires f in s.fwds ==> t.fwds[f].key == s.fwds[f].key && (s.fwds[f].gate.closing ==> t.fwds[f].gate.closing)
    ensures CancelsOk(t, k)
  {
    CancelsFrame(s, t, h, k);
  }

  lemma SetupCancels(s: State, h: History, e: Event)
    requires CancelsOk(s, h) && Enabled(s, e) && SetupEvent(e)
    ensures CancelsOk(Step(s, e), h.After(e))
  {
    ForwardCancels(s, Step(s, e), h, h.After(e), e.f);
  }

  lemma StartCancels(s: State, h: History, e: Event)
    requires CancelsOk(s, h) && Enabled(s, e) && StartEvent(e)
    ensures CancelsOk(Step(s, e), h.After(e))
  {
    ForwardCancels(s, Step(s, e), h, h.After(e), e.f);
  }

  lemma WorkerCancels(s: State, h: History, e: Event)
    requires CancelsOk(s, h) && Enabled(s, e) && WorkerEvent(e)
    ensures CancelsOk(Step(s, e), h.After(e))
  {
    ForwardCancels(s, Step(s, e), h, h.After(e), e.f);
  }

  lemma ConnCancels(s: State, h: History, e: Event)
    requires CancelsOk(s, h) && Enabled(s, e) && OnConns(e)
    ensures CancelsOk(Step(s, e), h.After(e))
  {
    if e.BeginOpen? {
      ForwardCancels(s, BeginOpenStep(s, e.c), h, h, s.conns[e.c].f);
    } else if e.EndOpen? {
      ForwardCancels(s, EndOpenStep(s, e.c, e.outcome), h, h.After(e), s.conns[e.c].f);
    } else {
      ConnShape(s, e);
      assert Step(s, e).cancels == s.cancels;
    }
  }

  lemma CancelsStep(s: State, h: History, e: Event)
    requires CancelsOk(s, h) && KeysInv(s) && Enabled(s, e)
    ensures CancelsOk(Step(s, e), h.After(e))
  {
    if e.LookUp? {
      LookUpCancels(s, h, e.x, e.key);
    } else if e.CancelClose? {
      CancelCloseCancels(s, h, e.x);
    } else if e.CancelWait? {
      CancelMoves(s, MoveCancel(s, e.x, Deleting), h, e.x, Deleting);
    } else if e.CancelRemove? {
      CancelMoves(s, CancelRemoveStep(s, e.x), h, e.x, Over);
    } else if SetupEvent(e) {
      SetupCancels(s, h, e);
    } else if StartEvent(e) {
      StartCancels(s, h, e);
    } else if WorkerEvent(e) {
      WorkerCancels(s, h, e);
    } else {
      ConnCancels(s, h, e);
    }
  }

  // ---------------------------------------------------------------- runs

  ghost predicate Follows(s: State, h: History) {
    FwdsOk(s, h) && ConnsOk(s, h) && CancelsOk(s, h)
  }

  lemma {:induction false} RunFollows(es: seq<Event>)
    ensures Follows(Run(Init, es), Happened(es))
  {
    if es != [] {
      var init, e := es[..|es| - 1], es[|es| - 1];
      var s, h := Run(Init, init), Happened(init);
      RunFollows(init);
      Reachable(init);
      if Enabled(s, e) {
        FwdsStep(s, h, e);
        ConnsStep(s, h, e);
        CancelsStep(s, h, e);
      }
    }
  }

  /** The event was enabled at its turn. */
  predicate Occurs(es: seq<Event>, i: int) {
    0 <= i < |es| && Enabled(Run(Init, es[..i]), es[i])
  }

  ghost predicate Answered(es: seq<Event>, f: nat, ok: bool) {
    exists i :: Occurs(es, i) && es[i] == Answer(f, ok)
  }

  lemma OccursInit(es: seq<Event>, i: int)
    requires 0 <= i < |es| - 1
    ensures Occurs(es, i) <==> Occurs(es[..|es| - 1], i)
  {
    assert es[..|es| - 1][..i] == es[..i];
  }

  lemma AnsweredMore(es: seq<Event>, f: nat, ok: bool)
    requires es != [] && Answered(es[..|es| - 1], f, ok)
    ensures Answered(es, f, ok)
  {
    var init := es[..|es| - 1];
    var i :| Occurs(init, i) && init[i] == Answer(f, ok);
    OccursInit(es, i);
    assert es[i] == init[i];
  }

  lemma AnsweredBefore(es: seq<Event>, i: int, f: nat, ok: bool)
    requires 0 <= i < |es| - 1 && Occurs(es, i) && es[i] == Answer(f, ok)
    ensures Answered(es[..|es| - 1], f, ok)
  {
    OccursInit(es, i);
    assert es[..|es| - 1][i] == es[i];
  }

  lemma AnsweredInit(es: seq<Event>, f: nat, ok: bool)
    requires es != []
    ensures Answered(es, f, ok)
      <==> Answered(es[..|es| - 1], f, ok) || (Occurs(es, |es| - 1) && es[|es| - 1] == Answer(f, ok))
  {
    if Answered(es[..|es| - 1], f, ok) {
      AnsweredMore(es, f, ok);
    }
    if i :| Occurs(es, i) && es[i] == Answer(f, ok) {
      if i < |es| - 1 {
        AnsweredBefore(es, i, f, ok);
      }
    }
  }

  predicate SeenAnswer(h: History, f: nat, ok: bool) {
    f in h.fwds && h.fwds[f].answer == Some(ok)
  }

  lemma SeenStep(s: State, h: History, e: Event, f: nat, ok: bool)
    requires FwdsOk(s, h) && Enabled(s, e)
    ensures SeenAnswer(h.After(e), f, ok) <==> SeenAnswer(h, f, ok) || e == Answer(f, ok)
  {
    if e.Answer? {
      assert FwdOk(s.fwds[e.f], h.fwds[e.f]);
    } else {
      assert e.Reserve? ==> e.f !in h.fwds;
      OtherSeen(h, e, f, ok);
    }
  }

  lemma OtherSeen(h: History, e: Event, f: nat, ok: bool)
    requires !e.Answer? && (e.Reserve? ==> e.f !in h.fwds)
    ensures SeenAnswer(h.After(e), f, ok) <==> SeenAnswer(h, f, ok)
  {
  }

  /** An answer is in the history exactly if it was given. */
  lemma {:induction false} AnswerSeen(es: seq<Event>, f: nat, ok: bool)
    ensures SeenAnswer(Happened(es), f, ok) <==> Answered(es, f, ok)
  {
    if es != [] {
      var init, e := es[..|es| - 1], es[|es| - 1];
      AnswerSeen(init, f, ok);
      AnsweredInit(es, f, ok);
      RunFollows(init);
      if Enabled(Run(Init, init), e) {
        SeenStep(Run(Init, init), Happened(init), e, f, ok);
      }
    }
  }

  predicate ServesOrServed(s: State, f: nat) {
    Is(s, f, Serving) || exists c :: c in s.conns && s.conns[c].f == f
  }

  /** A forward serves, and has connections, only after its request was answered with an acceptance,
      and never, in any continuation, once it was answered otherwise. */
  lemma ServedOnlyIfAccepted(es: seq<Event>, f: nat)
    ensures ServesOrServed(Run(Init, es), f) ==> Answered(es, f, true)
    ensures Answered(es, f, false) ==> !Answered(es, f, true) && !ServesOrServed(Run(Init, es), f)
  {
    var s, h := Run(Init, es), Happened(es);
    AnswerSeen(es, f, true);
    AnswerSeen(es, f, false);
    RunFollows(es);
    Reachable(es);
    if ServesOrServed(s, f) {
      assert s.fwds[f].reply.Accepted?;
      assert FwdOk(s.fwds[f], h.fwds[f]);
    }
  }

  /** How far a forward comes is decided by the grants and outcomes of its own set-up. */
  lemma SetupDecides(es: seq<Event>, f: nat)
    requires f in Run(Init, es).fwds
    ensures f in Happened(es).fwds
    ensures var v, h := Run(Init, es).fwds[f], Happened(es).fwds[f];
      && v.key == h.key && v.unix == h.unix
      && (v.stage.Failed? <==> h.granted == Some(false) || h.listened == Some(false))
      && (Exists(v.stage) <==> h.granted == Some(true) && h.listened == Some(true))
      && (HasWorker(v.stage) && !v.stage.Gone? ==> h.started == Some(true))
      && (h.started == Some(false) ==> v.stage.NoWorker? || v.stage.Unwinding? || v.stage.Gone?)
      && (h.closed ==> v.gate.closing)
  {
    RunFollows(es);
    assert FwdOk(Run(Init, es).fwds[f], Happened(es).fwds[f]);
  }

  /** A connection has a channel exactly while its open was established and it has not ended, and
      opens one only if it arrived and was granted a slot. */
  lemma ConnectionDecides(es: seq<Event>, c: nat)
    requires c in Run(Init, es).conns
    ensures c in Happened(es).conns
    ensures var v, h := Run(Init, es).conns[c], Happened(es).conns[c];
      && v.f == h.f
      && (v.stage.Opened? <==> h.outcome == Some(Established) && !h.finished)
      && (v.stage.Lingering? <==> h.outcome == Some(GaveUp) && !h.finished)
      && (HoldsChannel(v) || v.stage.Lingering? ==> h.arrived == Some(true) && h.slot == Some(true))
  {
    RunFollows(es);
    assert ConnOk(Run(Init, es).conns[c], Happened(es).conns[c]);
  }

  /** A cancel closes the forward that was registered under its key. */
  lemma CancelClosesItsForward(es: seq<Event>, x: nat)
    requires x in Run(Init, es).cancels
    ensures var s, h := Run(Init, es), Happened(es); var v := s.cancels[x];
      && v.f in s.fwds && x in h.cancels && s.fwds[v.f].key == h.cancels[x]
      && (!v.stage.Closing? ==> s.fwds[v.f].gate.closing)
  {
    RunFollows(es);
  }
}
