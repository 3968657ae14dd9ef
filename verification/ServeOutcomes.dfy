/** What a serve scope holds and closes is what was offered to it last: the admission of a connection,
    the transport and the cancel function of each, and what a forced shutdown closes and cancels
    (lifecycle.go:94-234). */
module ServeOutcomes {
  import opened Prelude
  import opened Serve

  /** What was last said about a connection that was admitted. */
  datatype Seen = Seen(conn: nat, cancel: Option<nat>, reserved: bool, shut: bool)

  /** Read off the events alone. */
  datatype History = History(
    limits: MaxStartups, conns: map<nat, Seen>, tracked: set<nat>, stopping: bool, forced: bool,
    refused: set<nat>, closed: set<nat>, cancelled: set<nat>)
  {
    ghost function Startups(): nat {
      |set id | id in conns && conns[id].reserved|
    }

    function Put(id: nat, v: Seen): History {
      this.(conns := conns[id := v])
    }

    function Refuse(t: nat): History {
      this.(refused := refused + {t})
    }

    /** A connection is admitted while the scope accepts and the dice are not below the drop rate. */
    ghost function Tracks(id: nat, t: nat, roll: nat): History {
      if !stopping && roll >= DropRate(Startups(), limits) then
        Put(id, Seen(t, None, limits.full > 0, false)).(tracked := tracked + {id})
      else Refuse(t)
    }

    function Frees(id: nat): History {
      if id in conns then Put(id, conns[id].(reserved := false)) else this
    }

    function Forces(): History {
      if forced then this
      else
        this.(forced := true, tracked := {},
              conns := map id | id in conns ::
                if id in tracked then conns[id].(reserved := false, shut := true) else conns[id])
    }

    function Cleans(id: nat): History {
      if id !in conns then this
      else
        this.(closed := closed + {conns[id].conn},
              cancelled := if conns[id].cancel.Some? then cancelled + {conns[id].cancel.value} else cancelled)
    }

    ghost function After(e: Event): History {
      match e
      case Track(id, t, roll) => Tracks(id, t, roll)
      case Update(id, t) => if id in tracked && id in conns then Put(id, conns[id].(conn := t)) else Refuse(t)
      case UpdateCancel(id, c) =>
        if id in tracked && id in conns then Put(id, conns[id].(cancel := Some(c))) else this
      case Release(id) => Frees(id)
      case UntrackBegin(id) => Frees(id)
      case UntrackEnd(id) => this.(tracked := tracked - {id})
      case Stop => this.(stopping := true)
      case Force => Forces()
      case CleanUp(id) => Cleans(id)
      case CloseRefused(t) => this.(refused := refused - {t}, closed := closed + {t})
    }
  }

  /** What happened in a run; events that were not enabled did not happen. */
  ghost function Happened(configured: Option<MaxStartups>, es: seq<Event>): History {
    if es == [] then History(Effective(configured), map[], {}, false, false, {}, {}, {})
    else
      var init, e := es[..|es| - 1], es[|es| - 1];
      var h := Happened(configured, init);
      if Enabled(Run(Init(configured), init), e) then h.After(e) else h
  }

  predicate ConnFits(c: Conn, h: Seen) {
    c.conn == h.conn && c.cancel == h.cancel && c.reserved == h.reserved && c.closed == h.shut
  }

  ghost predicate ConnsFit(all: map<nat, Conn>, h: map<nat, Seen>) {
    all.Keys == h.Keys && forall id :: id in all ==> ConnFits(all[id], h[id])
  }

  ghost predicate ScopeFits(s: Scope, h: History) {
    && s.limits == h.limits && ConnsFit(s.all, h.conns) && s.connections == h.tracked
    && s.stopping == h.stopping && s.forced == h.forced
  }

  predicate ClosesFit(s: State, h: History) {
    s.refused == h.refused && s.closed == h.closed && s.cancelled == h.cancelled
  }

  lemma SameStartups(s: Scope, h: History)
    requires Startups(s) && ConnsFit(s.all, h.conns)
    ensures s.startups == h.Startups()
  {
    assert Where(s.all, HasReservation) == set id | id in h.conns && h.conns[id].reserved;
  }

  lemma AdmitsExactly(s: Scope, h: History, roll: nat)
    requires Startups(s) && ScopeFits(s, h) && roll < 100
    ensures s.Admits(roll) <==> !h.stopping && roll >= DropRate(h.Startups(), h.limits)
  {
    SameStartups(s, h);
  }

  lemma PutFits(all: map<nat, Conn>, h: map<nat, Seen>, id: nat, c: Conn, v: Seen)
    requires ConnsFit(all, h) && ConnFits(c, v)
    ensures ConnsFit(all[id := c], h[id := v])
  {
  }

  lemma TrackFits(s: State, h: History, id: nat, t: nat, roll: nat)
    requires Inv(s) && ScopeFits(s.scope, h) && ClosesFit(s, h) && Enabled(s, Track(id, t, roll))
    ensures ScopeFits(TrackStep(s, id, t, roll).scope, h.Tracks(id, t, roll))
    ensures ClosesFit(TrackStep(s, id, t, roll), h.Tracks(id, t, roll))
  {
    AdmitsExactly(s.scope, h, roll);
    var reserve := s.scope.limits.full > 0;
    PutFits(s.scope.all, h.conns, id, Conn(t, [t], None, true, reserve, false), Seen(t, None, reserve, false));
  }

  lemma OpenExactly(s: Scope, h: History, id: nat)
    requires Draining(s) && ScopeFits(s, h)
    requires forall x :: x in s.all && s.all[x].closed ==> s.forced
    ensures s.Open(id) <==> id in h.tracked && id in h.conns
  {
  }

  lemma UpdateFits(s: State, h: History, id: nat, t: nat)
    requires Inv(s) && ScopeFits(s.scope, h) && ClosesFit(s, h) && Enabled(s, Update(id, t))
    ensures ScopeFits(UpdateStep(s, id, t).scope, h.After(Update(id, t)))
    ensures ClosesFit(UpdateStep(s, id, t), h.After(Update(id, t)))
  {
    OpenExactly(s.scope, h, id);
    if s.scope.Open(id) {
      PutFits(s.scope.all, h.conns, id, s.scope.all[id].(conn := t, transports := [t]), h.conns[id].(conn := t));
    }
  }

  lemma UpdateCancelFits(s: State, h: History, id: nat, c: nat)
    requires Inv(s) && ScopeFits(s.scope, h) && ClosesFit(s, h) && Enabled(s, UpdateCancel(id, c))
    ensures ScopeFits(UpdateCancelStep(s, id, c).scope, h.After(UpdateCancel(id, c)))
    ensures ClosesFit(UpdateCancelStep(s, id, c), h.After(UpdateCancel(id, c)))
  {
    OpenExactly(s.scope, h, id);
    if s.scope.Open(id) {
      PutFits(s.scope.all, h.conns, id, s.scope.all[id].(cancel := Some(c)), h.conns[id].(cancel := Some(c)));
    }
  }

  lemma ReleaseFits(s: Scope, h: History, id: nat)
    requires ScopeFits(s, h) && id in s.all
    ensures ScopeFits(s.Release(id), h.Frees(id))
  {
    PutFits(s.all, h.conns, id, s.all[id].(handshaking := false, reserved := false), h.conns[id].(reserved := false));
  }

  lemma ForceFits(s: Scope, h: History)
    requires ScopeFits(s, h)
    ensures ScopeFits(s.Force(), h.Forces())
  {
  }

  lemma CleanUpFits(s: State, h: History, id: nat)
    requires Teardown(s) && ScopeFits(s.scope, h) && ClosesFit(s, h) && id in s.cleanups
    ensures ScopeFits(CleanUpStep(s, id).scope, h.Cleans(id)) && ClosesFit(CleanUpStep(s, id), h.Cleans(id))
  {
    var c := s.cleanups[id];
    assert c == Cleanup(s.scope.all[id].cancel, s.scope.all[id].transports) && c.transports == [h.conns[id].conn];
    assert (set t | t in c.transports) == {h.conns[id].conn};
  }

  lemma FitsStep(s: State, h: History, e: Event)
    requires Inv(s) && ScopeFits(s.scope, h) && ClosesFit(s, h) && Enabled(s, e)
    ensures ScopeFits(Step(s, e).scope, h.After(e)) && ClosesFit(Step(s, e), h.After(e))
  {
    if e.Track? {
      TrackFits(s, h, e.id, e.transport, e.roll);
    } else if e.Update? {
      UpdateFits(s, h, e.id, e.transport);
    } else if e.UpdateCancel? {
      UpdateCancelFits(s, h, e.id, e.cancel);
    } else if e.Release? || e.UntrackBegin? {
      ReleaseFits(s.scope, h, e.id);
    } else if e.Force? {
      ForceFits(s.scope, h);
    } else if e.CleanUp? {
      CleanUpFits(s, h, e.id);
    }
  }

  lemma {:induction false} RunFits(configured: Option<MaxStartups>, es: seq<Event>)
    ensures var s, h := Run(Init(configured), es), Happened(configured, es);
      ScopeFits(s.scope, h) && ClosesFit(s, h)
  {
    if es != [] {
      var init, e := es[..|es| - 1], es[|es| - 1];
      var s := Run(Init(configured), init);
      RunFits(configured, init);
      Reachable(configured, init);
      if Enabled(s, e) {
        FitsStep(s, Happened(configured, init), e);
      }
    }
  }

  /** The connections tracked are exactly those admitted and neither untracked nor forced out, each with
      the transport and the cancel function given to it last; `startups` counts those that hold a
      reservation. */
  lemma HoldsWhatWasGivenLast(configured: Option<MaxStartups>, es: seq<Event>)
    ensures var s, h := Run(Init(configured), es).scope, Happened(configured, es);
      && s.connections == h.tracked && s.all.Keys == h.conns.Keys && s.startups == h.Startups()
      && (forall id :: id in s.all ==>
            && s.all[id].conn == h.conns[id].conn && s.all[id].cancel == h.conns[id].cancel
            && s.all[id].reserved == h.conns[id].reserved && s.all[id].closed == h.conns[id].shut)
  {
    RunFits(configured, es);
    Reachable(configured, es);
    SameStartups(Run(Init(configured), es).scope, Happened(configured, es));
  }

  /** What has been closed and cancelled is what the cleanups of a forced shutdown and the owners of
      refused transports were to close and cancel: nothing else, and the latest of each. */
  lemma ClosesWhatItHolds(configured: Option<MaxStartups>, es: seq<Event>)
    ensures var s, h := Run(Init(configured), es), Happened(configured, es);
      && s.closed == h.closed && s.cancelled == h.cancelled && s.refused == h.refused
      && (forall id :: id in s.cleanups ==>
            id in h.conns && h.conns[id].shut && s.cleanups[id] == Cleanup(h.conns[id].cancel, [h.conns[id].conn]))
  {
    RunFits(configured, es);
    Reachable(configured, es);
  }
}
