/** Close-out of a connection's resources: registration, two-phase acquisition and closeAll
    racing with one another (context.go:75-190). */
module Resources {
  import opened Prelude

  /** The fields guarded by connectionResources.mu. `drained` is the acquisitionsDrained channel
      while it is open; `drainedClosed` and `doneClosed` say which channels were closed. */
  datatype Shared = Shared(
    closed: bool,
    registry: set<nat>,
    pending: int,
    drained: bool,
    drainedClosed: bool,
    doneClosed: bool,
    panicked: bool)
  {
    function Add(r: nat): Shared {
      if closed then this else this.(registry := registry + {r})
    }

    function Begin(): Shared {
      if closed then this else this.(pending := pending + 1)
    }

    function CloseAll(): Shared {
      if closed then this else this.(closed := true, registry := {}, drained := pending > 0)
    }

    function Finish(): Shared {
      var s := this.(pending := pending - 1);
      if closed && s.pending == 0 && drained then
        s.(drained := false, drainedClosed := true, panicked := panicked || drainedClosed)
      else s
    }

    function Done(): Shared {
      this.(doneClosed := true, panicked := panicked || doneClosed)
    }
  }

  class ConnectionResources {
    var resources: set<nat>
    var pendingAcquisitions: int
    var acquisitionsDrained: bool
    var closed: bool
    var drainedClosed: bool
    var doneClosed: bool
    var panicked: bool

    function View(): Shared
      reads this
    {
      Shared(closed, resources, pendingAcquisitions, acquisitionsDrained, drainedClosed, doneClosed, panicked)
    }

    constructor ()
      ensures View() == Shared(false, {}, 0, false, false, false, false)
    {
      resources, pendingAcquisitions, acquisitionsDrained, closed := {}, 0, false, false;
      drainedClosed, doneClosed, panicked := false, false, false;
    }

    /** `late` tells the caller to close the resource itself, at once. */
    method Register(r: nat) returns (late: bool)
      modifies this`resources
      ensures View() == old(View()).Add(r)
      ensures late == old(closed)
    {
      if closed {
        return true;
      }
      resources := resources + {r};
      late := false;
    }

    method Unregister(r: nat)
      modifies this`resources
      ensures View() == old(View()).(registry := old(resources) - {r})
    {
      resources := resources - {r};
    }

    method BeginAcquisition() returns (ok: bool)
      modifies this`pendingAcquisitions
      ensures View() == old(View()).Begin()
      ensures ok == !old(closed)
    {
      if closed {
        return false;
      }
      pendingAcquisitions := pendingAcquisitions + 1;
      ok := true;
    }

    /** The first section of finishing: hand the resource over, unless everything was closed. */
    method HandOver(r: Option<nat>) returns (late: bool)
      modifies this`resources
      ensures View() == if r.Some? then old(View()).Add(r.value) else old(View())
      ensures late == (old(closed) && r.Some?)
    {
      if !closed && r.Some? {
        resources := resources + {r.value};
      }
      late := closed && r.Some?;
    }

    /** The second section of finishing. */
    method FinishAcquisition()
      modifies this
      ensures View() == old(View()).Finish()
    {
      pendingAcquisitions := pendingAcquisitions - 1;
      if closed && pendingAcquisitions == 0 && acquisitionsDrained {
        if drainedClosed {
          panicked := true;
        }
        drainedClosed := true;
        acquisitionsDrained := false;
      }
    }

    /** `first` callers close `snapshot`, then wait for acquisitions if `mustWait`. */
    method BeginCloseAll() returns (first: bool, snapshot: set<nat>, mustWait: bool)
      modifies this
      ensures View() == old(View()).CloseAll()
      ensures first == !old(closed)
      ensures first ==> snapshot == old(resources) && mustWait == (old(pendingAcquisitions) > 0)
    {
      if closed {
        return false, {}, false;
      }
      closed := true;
      snapshot := resources;
      resources := {};
      acquisitionsDrained := pendingAcquisitions > 0;
      return true, snapshot, acquisitionsDrained;
    }
  }

  // ---------------------------------------------------------------- the protocol

  /** Where a handed-over resource is. `owner` tells a plain register call from an acquisition. */
  datatype Place = InRegistry | Unregistered | Snapshotted | Late(owner: Option<nat>) | Closed

  datatype Res = Res(place: Place, closes: nat)

  datatype Acq = Refused | Pending | ClosingLate(r: nat) | Decrementing | Finished

  datatype Caller = Closing | WaitingAcquisitions | WaitingDone | Returned

  datatype State = State(
    sh: Shared,
    res: map<nat, Res>,
    acqs: map<nat, Acq>,
    callers: map<nat, Caller>,
    closer: Option<nat>,
    mustWait: bool)

  const Init: State := State(Shared(false, {}, 0, false, false, false, false), map[], map[], map[], None, false)

  datatype Event =
    | Register(r: nat)
    | CloseLate(r: nat)
    | Unregister(r: nat)
    | Begin(a: nat)
    | HandOver(a: nat, given: Option<nat>)
    | CloseGiven(a: nat)
    | Finish(a: nat)
    | CallCloseAll(c: nat)
    | CloseSnapshotted(c: nat, r: nat)
    | StopClosing(c: nat)
    | FinishCloseAll(c: nat)
    | WakeUp(c: nat)

  predicate IsAt(s: State, r: nat, p: Place) {
    r in s.res && s.res[r].place == p
  }

  predicate AcqAt(s: State, a: nat, p: Acq) {
    a in s.acqs && s.acqs[a] == p
  }

  predicate CallerAt(s: State, c: nat, p: Caller) {
    c in s.callers && s.callers[c] == p
  }

  ghost predicate Enabled(s: State, e: Event) {
    match e
    case Register(r) => r !in s.res
    case CloseLate(r) => IsAt(s, r, Late(None))
    case Unregister(r) => r in s.res
    case Begin(a) => a !in s.acqs
    case HandOver(a, given) => AcqAt(s, a, Pending) && (given.Some? ==> given.value !in s.res)
    case CloseGiven(a) => a in s.acqs && s.acqs[a].ClosingLate? && s.acqs[a].r in s.res
    case Finish(a) => AcqAt(s, a, Decrementing)
    case CallCloseAll(c) => c !in s.callers
    case CloseSnapshotted(c, r) => CallerAt(s, c, Closing) && IsAt(s, r, Snapshotted)
    case StopClosing(c) => CallerAt(s, c, Closing) && forall r :: r in s.res ==> !s.res[r].place.Snapshotted?
    case FinishCloseAll(c) => CallerAt(s, c, WaitingAcquisitions) && (s.mustWait ==> s.sh.drainedClosed)
    case WakeUp(c) => CallerAt(s, c, WaitingDone) && s.sh.doneClosed
  }

  function Close(s: State, r: nat): State
    requires r in s.res
  {
    s.(res := s.res[r := Res(Closed, s.res[r].closes + 1)])
  }

  function RegisterStep(s: State, r: nat): State {
    s.(sh := s.sh.Add(r), res := s.res[r := Res(if s.sh.closed then Late(None) else InRegistry, 0)])
  }

  function UnregisterStep(s: State, r: nat): State
    requires r in s.res
  {
    s.(sh := s.sh.(registry := s.sh.registry - {r}),
       res := s.res[r := if s.res[r].place == InRegistry then s.res[r].(place := Unregistered) else s.res[r]])
  }

  function BeginStep(s: State, a: nat): State {
    s.(sh := s.sh.Begin(), acqs := s.acqs[a := if s.sh.closed then Refused else Pending])
  }

  /** An acquisition hands its resource over; if everything has been closed it comes too late. */
  function GiveStep(s: State, a: nat, r: nat): State {
    s.(sh := s.sh.Add(r),
       res := s.res[r := Res(if s.sh.closed then Late(Some(a)) else InRegistry, 0)],
       acqs := s.acqs[a := if s.sh.closed then ClosingLate(r) else Decrementing])
  }

  function HandOverStep(s: State, a: nat, given: Option<nat>): State {
    if given.None? then s.(acqs := s.acqs[a := Decrementing]) else GiveStep(s, a, given.value)
  }

  function CloseGivenStep(s: State, a: nat): State
    requires a in s.acqs && s.acqs[a].ClosingLate? && s.acqs[a].r in s.res
  {
    Close(s, s.acqs[a].r).(acqs := s.acqs[a := Decrementing])
  }

  function FinishStep(s: State, a: nat): State {
    s.(sh := s.sh.Finish(), acqs := s.acqs[a := Finished])
  }

  function Snapshot(res: map<nat, Res>): map<nat, Res> {
    map r | r in res :: if res[r].place.InRegistry? then res[r].(place := Snapshotted) else res[r]
  }

  /** The first closeAll takes the snapshot. */
  function FirstCloseStep(s: State, c: nat): State {
    s.(sh := s.sh.CloseAll(), res := Snapshot(s.res), callers := s.callers[c := Closing], closer := Some(c),
       mustWait := s.sh.pending > 0)
  }

  function CallerStep(s: State, c: nat, at: Caller): State {
    s.(callers := s.callers[c := at])
  }

  ghost function Step(s: State, e: Event): State
    requires Enabled(s, e)
  {
    match e
    case Register(r) => RegisterStep(s, r)
    case CloseLate(r) => Close(s, r)
    case Unregister(r) => UnregisterStep(s, r)
    case Begin(a) => BeginStep(s, a)
    case HandOver(a, given) => HandOverStep(s, a, given)
    case CloseGiven(a) => CloseGivenStep(s, a)
    case Finish(a) => FinishStep(s, a)
    case CallCloseAll(c) => if s.sh.closed then CallerStep(s, c, WaitingDone) else FirstCloseStep(s, c)
    case CloseSnapshotted(c, r) => Close(s, r)
    case StopClosing(c) => CallerStep(s, c, WaitingAcquisitions)
    case FinishCloseAll(c) => CallerStep(s, c, Returned).(sh := s.sh.Done())
    case WakeUp(c) => CallerStep(s, c, Returned)
  }

  ghost function Run(s: State, es: seq<Event>): State {
    if es == [] then s
    else
      var t := Run(s, es[..|es| - 1]);
      if Enabled(t, es[|es| - 1]) then Step(t, es[|es| - 1]) else t
  }

  // ---------------------------------------------------------------- the invariant

  predicate Counted(p: Acq) {
    p.Pending? || p.ClosingLate? || p.Decrementing?
  }

  /** The acquisitions begun and not yet finished. */
  function Open(acqs: map<nat, Acq>): set<nat> {
    set a | a in acqs && Counted(acqs[a])
  }

  /** What a resource's place says about it. */
  ghost predicate ResOk(s: State, r: nat)
    requires r in s.res
  {
    var x := s.res[r];
    && (x.place.InRegistry? <==> r in s.sh.registry)
    && x.closes == (if x.place.Closed? then 1 else 0)
    && (x.place.Snapshotted? ==> s.closer.Some? && CallerAt(s, s.closer.value, Closing))
    && (x.place.Late? ==> s.sh.closed)
    && (x.place.Late? && x.place.owner.Some? ==> AcqAt(s, x.place.owner.value, ClosingLate(r)))
  }

  ghost predicate ResInv(s: State) {
    && (forall r :: r in s.res ==> ResOk(s, r))
    && (forall r :: r in s.sh.registry ==> r in s.res)
    && (s.sh.closed ==> s.sh.registry == {})
  }

  /** An acquisition that came too late owns the resource it closes. */
  ghost predicate AcqInv(s: State) {
    forall a :: a in s.acqs && s.acqs[a].ClosingLate? ==> IsAt(s, s.acqs[a].r, Late(Some(a)))
  }

  ghost predicate CountInv(s: State) {
    && s.sh.pending == |Open(s.acqs)|
    && (s.sh.drained ==> s.sh.closed && s.sh.pending > 0 && s.mustWait)
    && (s.sh.closed && !s.sh.drained ==> s.sh.pending == 0)
    && (s.sh.drainedClosed ==> s.sh.closed && !s.sh.drained && s.mustWait)
    && (s.mustWait ==> s.sh.closed && (s.sh.drained || s.sh.drainedClosed))
    && !s.sh.panicked
  }

  predicate Working(p: Caller) {
    p.Closing? || p.WaitingAcquisitions?
  }

  ghost predicate CallerInv(s: State) {
    && (forall c :: c in s.callers ==> s.sh.closed)
    && (forall c :: c in s.callers && Working(s.callers[c]) ==> s.closer == Some(c) && !s.sh.doneClosed)
    && (s.sh.doneClosed ==> s.sh.closed && s.sh.pending == 0)
    && (forall c :: c in s.callers && s.callers[c].Returned? ==> s.sh.doneClosed)
    && (s.closer.Some? ==> s.closer.value in s.callers)
    && (!s.sh.closed ==> s.closer.None?)
  }

  ghost predicate Inv(s: State) {
    ResInv(s) && AcqInv(s) && CountInv(s) && CallerInv(s)
  }

  lemma Opened(acqs: map<nat, Acq>, a: nat, p: Acq)
    ensures var was, now := a in acqs && Counted(acqs[a]), Counted(p);
            |Open(acqs[a := p])| == |Open(acqs)| + (if now then 1 else 0) - (if was then 1 else 0)
  {
    var rest := Open(acqs) - {a};
    assert Open(acqs) == if a in acqs && Counted(acqs[a]) then rest + {a} else rest;
    assert Open(acqs[a := p]) == if Counted(p) then rest + {a} else rest;
  }

  lemma RegisterKeeps(s: State, r: nat)
    requires ResInv(s) && AcqInv(s) && r !in s.res
    ensures ResInv(RegisterStep(s, r)) && AcqInv(RegisterStep(s, r))
  {
  }

  lemma UnregisterKeeps(s: State, r: nat)
    requires ResInv(s) && AcqInv(s) && r in s.res
    ensures ResInv(UnregisterStep(s, r)) && AcqInv(UnregisterStep(s, r))
  {
  }

  /** A resource is closed by the register call that brought it, or from the snapshot. */
  lemma CloseKeeps(s: State, r: nat)
    requires ResInv(s) && AcqInv(s) && r in s.res && (s.res[r].place == Late(None) || s.res[r].place == Snapshotted)
    ensures ResInv(Close(s, r)) && AcqInv(Close(s, r))
  {
  }

  lemma BeginKeeps(s: State, a: nat)
    requires ResInv(s) && AcqInv(s) && a !in s.acqs
    ensures ResInv(BeginStep(s, a)) && AcqInv(BeginStep(s, a))
  {
  }

  lemma HandOverKeeps(s: State, a: nat, given: Option<nat>)
    requires ResInv(s) && AcqInv(s) && AcqAt(s, a, Pending) && (given.Some? ==> given.value !in s.res)
    ensures ResInv(HandOverStep(s, a, given)) && AcqInv(HandOverStep(s, a, given))
  {
  }

  lemma CloseGivenKeeps(s: State, a: nat)
    requires ResInv(s) && AcqInv(s) && a in s.acqs && s.acqs[a].ClosingLate? && s.acqs[a].r in s.res
    ensures ResInv(CloseGivenStep(s, a)) && AcqInv(CloseGivenStep(s, a))
  {
  }

  lemma FinishKeeps(s: State, a: nat)
    requires ResInv(s) && AcqInv(s) && AcqAt(s, a, Decrementing)
    ensures ResInv(FinishStep(s, a)) && AcqInv(FinishStep(s, a))
  {
  }

  lemma FirstCloseKeeps(s: State, c: nat)
    requires ResInv(s) && AcqInv(s) && !s.sh.closed
    ensures ResInv(FirstCloseStep(s, c)) && AcqInv(FirstCloseStep(s, c))
  {
  }

  /** A caller moves on; the one that closes only when nothing snapshotted is left. */
  lemma CallerKeeps(s: State, c: nat, at: Caller)
    requires ResInv(s) && AcqInv(s)
    requires s.closer == Some(c) && CallerAt(s, c, Closing) ==> forall r :: r in s.res ==> !s.res[r].place.Snapshotted?
    ensures ResInv(CallerStep(s, c, at)) && AcqInv(CallerStep(s, c, at))
  {
  }

  predicate ResEvent(e: Event) {
    e.Register? || e.Unregister? || e.CloseLate? || e.CloseSnapshotted?
  }

  predicate AcqEvent(e: Event) {
    e.Begin? || e.HandOver? || e.CloseGiven? || e.Finish?
  }

  lemma ResStep(s: State, e: Event)
    requires ResInv(s) && AcqInv(s) && Enabled(s, e) && ResEvent(e)
    ensures ResInv(Step(s, e)) && AcqInv(Step(s, e))
  {
    if e.Register? {
      RegisterKeeps(s, e.r);
    } else if e.Unregister? {
      UnregisterKeeps(s, e.r);
    } else {
      CloseKeeps(s, e.r);
    }
  }

  lemma AcqStep(s: State, e: Event)
    requires ResInv(s) && AcqInv(s) && Enabled(s, e) && AcqEvent(e)
    ensures ResInv(Step(s, e)) && AcqInv(Step(s, e))
  {
    if e.Begin? {
      BeginKeeps(s, e.a);
    } else if e.HandOver? {
      HandOverKeeps(s, e.a, e.given);
    } else if e.CloseGiven? {
      CloseGivenKeeps(s, e.a);
    } else {
      FinishKeeps(s, e.a);
    }
  }

  lemma CloseAllStep(s: State, e: Event)
    requires ResInv(s) && AcqInv(s) && CallerInv(s) && Enabled(s, e) && !ResEvent(e) && !AcqEvent(e)
    ensures ResInv(Step(s, e)) && AcqInv(Step(s, e))
  {
    if e.CallCloseAll? && !s.sh.closed {
      FirstCloseKeeps(s, e.c);
    } else if e.CallCloseAll? {
      CallerKeeps(s, e.c, WaitingDone);
    } else if e.StopClosing? {
      CallerKeeps(s, e.c, WaitingAcquisitions);
    } else {
      CallerKeeps(s, e.c, Returned);
    }
  }

  lemma CountStep(s: State, e: Event)
    requires CountInv(s) && CallerInv(s) && Enabled(s, e)
    ensures CountInv(Step(s, e))
  {
    if e.HandOver? || e.CloseGiven? {
      Opened(s.acqs, e.a, Step(s, e).acqs[e.a]);
    } else if e.Begin? {
      Opened(s.acqs, e.a, if s.sh.closed then Refused else Pending);
    } else if e.Finish? {
      Opened(s.acqs, e.a, Finished);
      assert e.a in Open(s.acqs);
    }
  }

  lemma CallersStep(s: State, e: Event)
    requires CountInv(s) && CallerInv(s) && Enabled(s, e)
    ensures CallerInv(Step(s, e))
  {
    if AcqEvent(e) {
      CallersAcqStep(s, e);
    } else if ResEvent(e) {
      assert Step(s, e) == s.(sh := s.sh.(registry := Step(s, e).sh.registry), res := Step(s, e).res);
    } else {
      CallersCloseStep(s, e);
    }
  }

  lemma CallersAcqStep(s: State, e: Event)
    requires CountInv(s) && CallerInv(s) && Enabled(s, e) && AcqEvent(e)
    ensures CallerInv(Step(s, e))
  {
    if e.Finish? {
      assert e.a in Open(s.acqs);
    }
  }

  lemma CallersCloseStep(s: State, e: Event)
    requires CountInv(s) && CallerInv(s) && Enabled(s, e) && !ResEvent(e) && !AcqEvent(e)
    ensures CallerInv(Step(s, e))
  {
  }

  lemma StepKeepsInv(s: State, e: Event)
    requires Inv(s) && Enabled(s, e)
    ensures Inv(Step(s, e))
  {
    if ResEvent(e) {
      ResStep(s, e);
    } else if AcqEvent(e) {
      AcqStep(s, e);
    } else {
      CloseAllStep(s, e);
    }
    CountStep(s, e);
    CallersStep(s, e);
  }

  lemma {:induction false} RunKeepsInv(s: State, es: seq<Event>)
    requires Inv(s)
    ensures Inv(Run(s, es))
  {
    if es != [] {
      var t, e := Run(s, es[..|es| - 1]), es[|es| - 1];
      RunKeepsInv(s, es[..|es| - 1]);
      if Enabled(t, e) {
        StepKeepsInv(t, e);
      }
    }
  }

  // ---------------------------------------------------------------- what callers may rely on

  /** The end state a returned closeAll promises. A resource handed to `register` after the
      close is being closed by that very call. */
  ghost predicate AllClosed(s: State) {
    && s.sh.closed && s.sh.registry == {} && s.sh.pending == 0 && Open(s.acqs) == {}
    && forall r :: r in s.res ==>
         || (s.res[r].place == Closed && s.res[r].closes == 1)
         || (s.res[r].place == Unregistered && s.res[r].closes == 0)
         || (s.res[r].place == Late(None) && s.res[r].closes == 0)
  }

  /** When any caller's closeAll has returned, in any run, everything is accounted for. */
  lemma ReturnedMeansAllClosed(es: seq<Event>, c: nat)
    requires CallerAt(Run(Init, es), c, Returned)
    ensures AllClosed(Run(Init, es))
  {
    assert Inv(Init);
    RunKeepsInv(Init, es);
    var s := Run(Init, es);
    assert Open(s.acqs) == {};
    assert forall a :: a in s.acqs && Counted(s.acqs[a]) ==> a in Open(s.acqs);
  }

  /** No resource is ever closed twice, and one its owner unregistered in time never. */
  lemma ClosedAtMostOnce(es: seq<Event>, r: nat)
    requires r in Run(Init, es).res
    ensures Run(Init, es).res[r].closes <= 1
    ensures Run(Init, es).res[r].place.Unregistered? ==> Run(Init, es).res[r].closes == 0
    ensures !Run(Init, es).sh.panicked
  {
    assert Inv(Init);
    RunKeepsInv(Init, es);
  }

  /** The wait for acquisitions starts only when every snapshotted resource is closed, and
      it cannot miss its wake-up: no open acquisition means the drained channel is closed. */
  lemma WaitsOnlyForAcquisitions(es: seq<Event>, c: nat)
    requires CallerAt(Run(Init, es), c, WaitingAcquisitions)
    ensures var s := Run(Init, es);
      && (forall r :: r in s.res ==> !s.res[r].place.InRegistry? && !s.res[r].place.Snapshotted?)
      && (Open(s.acqs) == {} ==> Enabled(s, FinishCloseAll(c)))
  {
    assert Inv(Init);
    RunKeepsInv(Init, es);
    var s := Run(Init, es);
    assert Working(s.callers[c]);
  }

  /** A resource that comes after the close. */
  predicate TooLate(s: State, r: nat) {
    r !in s.res || s.res[r].place.Late? || s.res[r] == Res(Closed, 1)
  }

  lemma TooLateStep(s: State, e: Event, r: nat)
    requires Inv(s) && s.sh.closed && TooLate(s, r) && Enabled(s, e)
    ensures Step(s, e).sh.closed && TooLate(Step(s, e), r)
  {
  }

  /** Closing is final: whatever is handed over later never enters the registry, and the only thing
      that ever happens to it is one close, by the call that brought it. */
  lemma {:induction false} LateIsOnlyClosed(s: State, es: seq<Event>, r: nat)
    requires Inv(s) && s.sh.closed && TooLate(s, r)
    ensures var t := Run(s, es);
      && t.sh.closed && t.sh.registry == {}
      && (r in t.res ==> t.res[r] == Res(Closed, 1) || (t.res[r].place.Late? && t.res[r].closes == 0))
  {
    RunKeepsInv(s, es);
    if es != [] {
      LateIsOnlyClosed(s, es[..|es| - 1], r);
      RunKeepsInv(s, es[..|es| - 1]);
      var t, e := Run(s, es[..|es| - 1]), es[|es| - 1];
      if Enabled(t, e) {
        TooLateStep(t, e, r);
      }
    }
  }

  /** Whoever brought a late resource can close it at once, in any reachable state. */
  lemma LateCanBeClosed(es: seq<Event>, r: nat)
    requires r in Run(Init, es).res && Run(Init, es).res[r].place.Late?
    ensures var s := Run(Init, es); var owner := s.res[r].place.owner;
      if owner.None? then Enabled(s, CloseLate(r)) else Enabled(s, CloseGiven(owner.value)) && s.acqs[owner.value].r == r
  {
    assert Inv(Init);
    RunKeepsInv(Init, es);
  }

  /** After the close no acquisition begins. */
  lemma {:induction false} NoneBeginsLate(s: State, es: seq<Event>)
    requires s.sh.closed
    ensures Run(s, es).sh.closed && Open(Run(s, es).acqs) <= Open(s.acqs)
  {
    if es != [] {
      NoneBeginsLate(s, es[..|es| - 1]);
      var t, e := Run(s, es[..|es| - 1]), es[|es| - 1];
      if Enabled(t, e) {
        NoneBeginsStep(t, e);
      }
    }
  }

  lemma NoneBeginsStep(s: State, e: Event)
    requires s.sh.closed && Enabled(s, e)
    ensures Step(s, e).sh.closed && Open(Step(s, e).acqs) <= Open(s.acqs)
  {
  }
}
