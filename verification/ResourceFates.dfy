/** Which resources a close-out closes: those that were registered and not unregistered when it began,
    whatever is unregistered later, and those that come too late; each by one event of the run
    (context.go:88-190). */
module ResourceFates {
  import opened Prelude
  import opened Resources

  /** What the order of registration, unregistration and close says about a resource. */
  datatype Fate = Held | Dropped | InSnapshot | TooLate

  /** Read off the events alone: `begun` says of each acquisition whether it began after the close,
      `given` what it handed over, `closes` how often each resource was closed. */
  datatype History = History(
    closed: bool, fate: map<nat, Fate>, begun: map<nat, bool>, given: map<nat, nat>, finished: set<nat>,
    closes: map<nat, nat>)
  {
    function Comes(r: nat): History {
      this.(fate := fate[r := if closed then TooLate else Held], closes := closes[r := 0])
    }

    function Drops(r: nat): History {
      if r in fate && fate[r] == Held then this.(fate := fate[r := Dropped]) else this
    }

    function Closes(r: nat): History {
      if r in closes then this.(closes := closes[r := closes[r] + 1]) else this
    }

    function Shuts(): History {
      if closed then this
      else this.(closed := true, fate := map r | r in fate :: if fate[r] == Held then InSnapshot else fate[r])
    }

    function After(e: Event): History {
      match e
      case Register(r) => Comes(r)
      case HandOver(a, given) => if given.Some? then Comes(given.value).Gives(a, given.value) else this
      case Unregister(r) => Drops(r)
      case Begin(a) => this.(begun := begun[a := closed])
      case Finish(a) => this.(finished := finished + {a})
      case CallCloseAll(_) => Shuts()
      case CloseLate(r) => Closes(r)
      case CloseSnapshotted(_, r) => Closes(r)
      case CloseGiven(a) => if a in given then Closes(given[a]) else this
      case _ => this
    }

    function Gives(a: nat, r: nat): History {
      this.(given := given[a := r])
    }
  }

  /** What happened in a run; events that were not enabled did not happen. */
  ghost function Happened(es: seq<Event>): History {
    if es == [] then History(false, map[], map[], map[], {}, map[])
    else
      var init, e := es[..|es| - 1], es[|es| - 1];
      if Enabled(Run(Init, init), e) then Happened(init).After(e) else Happened(init)
  }

  predicate Fits(x: Res, fate: Fate) {
    match fate
    case Held => x.place.InRegistry?
    case Dropped => x.place.Unregistered?
    case InSnapshot => x.place.Snapshotted? || x.place.Closed?
    case TooLate => x.place.Late? || x.place.Closed?
  }

  ghost predicate FatesOk(s: State, h: History) {
    && s.sh.closed == h.closed
    && s.res.Keys == h.fate.Keys && s.res.Keys == h.closes.Keys
    && (forall r :: r in s.res ==> Fits(s.res[r], h.fate[r]) && s.res[r].closes == h.closes[r])
    && (h.closed ==> forall r :: r in h.fate ==> h.fate[r] != Held)
    && (!h.closed ==> forall r :: r in h.fate ==> h.fate[r] == Held || h.fate[r] == Dropped)
  }

  ghost predicate AcqsOk(s: State, h: History) {
    && s.acqs.Keys == h.begun.Keys
    && (forall a :: a in s.acqs ==>
          && (s.acqs[a].Refused? <==> h.begun[a])
          && (s.acqs[a].Finished? <==> a in h.finished)
          && (s.acqs[a].ClosingLate? ==> a in h.given && h.given[a] == s.acqs[a].r))
    && (forall a :: a in h.finished ==> a in s.acqs)
  }

  lemma RegisterFates(s: State, h: History, r: nat)
    requires FatesOk(s, h) && r !in s.res
    ensures FatesOk(RegisterStep(s, r), h.Comes(r))
  {
  }

  lemma UnregisterFates(s: State, h: History, r: nat)
    requires FatesOk(s, h) && r in s.res
    ensures FatesOk(UnregisterStep(s, r), h.Drops(r))
  {
  }

  lemma ClosingFates(s: State, h: History, r: nat)
    requires FatesOk(s, h) && r in s.res && (s.res[r].place.Late? || s.res[r].place.Snapshotted?)
    ensures FatesOk(Close(s, r), h.Closes(r))
  {
  }

  lemma ResFates(s: State, h: History, e: Event)
    requires FatesOk(s, h) && Enabled(s, e) && ResEvent(e)
    ensures FatesOk(Step(s, e), h.After(e))
  {
    if e.Register? {
      RegisterFates(s, h, e.r);
    } else if e.Unregister? {
      UnregisterFates(s, h, e.r);
    } else {
      ClosingFates(s, h, e.r);
    }
  }

  lemma SameFates(s: State, t: State, h: History, k: History)
    requires FatesOk(s, h) && t.sh.closed == s.sh.closed && t.res == s.res
    requires k.closed == h.closed && k.fate == h.fate && k.closes == h.closes
    ensures FatesOk(t, k)
  {
  }

  lemma GiveFates(s: State, h: History, a: nat, r: nat)
    requires FatesOk(s, h) && r !in s.res
    ensures FatesOk(GiveStep(s, a, r), h.Comes(r).Gives(a, r))
  {
    RegisterFates(s, h, r);
    SameFates(RegisterStep(s, r).(res := GiveStep(s, a, r).res), GiveStep(s, a, r), h.Comes(r), h.Comes(r).Gives(a, r));
  }

  lemma CloseGivenFates(s: State, h: History, a: nat)
    requires FatesOk(s, h) && AcqsOk(s, h) && AcqInv(s) && Enabled(s, CloseGiven(a))
    ensures FatesOk(CloseGivenStep(s, a), h.After(CloseGiven(a)))
  {
    var r := s.acqs[a].r;
    ClosingFates(s, h, r);
    SameFates(Close(s, r), CloseGivenStep(s, a), h.Closes(r), h.Closes(r));
  }

  lemma AcqFates(s: State, h: History, e: Event)
    requires FatesOk(s, h) && AcqsOk(s, h) && AcqInv(s) && Enabled(s, e) && AcqEvent(e)
    ensures FatesOk(Step(s, e), h.After(e))
  {
    if e.HandOver? {
      if e.given.Some? {
        GiveFates(s, h, e.a, e.given.value);
      }
    } else if e.CloseGiven? {
      CloseGivenFates(s, h, e.a);
    } else {
      SameFates(s, Step(s, e), h, h.After(e));
    }
  }

  lemma CloseFates(s: State, h: History, e: Event)
    requires FatesOk(s, h) && Enabled(s, e) && !ResEvent(e) && !AcqEvent(e)
    ensures FatesOk(Step(s, e), h.After(e))
  {
  }

  lemma SameAcqs(s: State, t: State, h: History, k: History)
    requires AcqsOk(s, h) && t.acqs == s.acqs && k.begun == h.begun && k.given == h.given && k.finished == h.finished
    ensures AcqsOk(t, k)
  {
  }

  lemma BeginAcqs(s: State, h: History, a: nat)
    requires AcqsOk(s, h) && s.sh.closed == h.closed && a !in s.acqs
    ensures AcqsOk(BeginStep(s, a), h.After(Begin(a)))
  {
  }

  lemma HandOverAcqs(s: State, h: History, a: nat, given: Option<nat>)
    requires AcqsOk(s, h) && s.sh.closed == h.closed && AcqAt(s, a, Pending)
    ensures AcqsOk(HandOverStep(s, a, given), h.After(HandOver(a, given)))
  {
  }

  lemma CloseGivenAcqs(s: State, h: History, a: nat)
    requires AcqsOk(s, h) && Enabled(s, CloseGiven(a))
    ensures AcqsOk(CloseGivenStep(s, a), h.After(CloseGiven(a)))
  {
  }

  lemma FinishAcqs(s: State, h: History, a: nat)
    requires AcqsOk(s, h) && AcqAt(s, a, Decrementing)
    ensures AcqsOk(FinishStep(s, a), h.After(Finish(a)))
  {
  }

  lemma AcqsEvent(s: State, h: History, e: Event)
    requires AcqsOk(s, h) && s.sh.closed == h.closed && Enabled(s, e) && AcqEvent(e)
    ensures AcqsOk(Step(s, e), h.After(e))
  {
    if e.Begin? {
      BeginAcqs(s, h, e.a);
    } else if e.HandOver? {
      HandOverAcqs(s, h, e.a, e.given);
    } else if e.CloseGiven? {
      CloseGivenAcqs(s, h, e.a);
    } else {
      FinishAcqs(s, h, e.a);
    }
  }

  lemma AcqsStep(s: State, h: History, e: Event)
    requires AcqsOk(s, h) && s.sh.closed == h.closed && Enabled(s, e)
    ensures AcqsOk(Step(s, e), h.After(e))
  {
    if AcqEvent(e) {
      AcqsEvent(s, h, e);
    } else {
      OtherAcqs(s, h, e);
    }
  }

  lemma OtherAcqs(s: State, h: History, e: Event)
    requires AcqsOk(s, h) && Enabled(s, e) && !AcqEvent(e)
    ensures AcqsOk(Step(s, e), h.After(e))
  {
    SameAcqs(s, Step(s, e), h, h.After(e));
  }

  ghost predicate Follows(s: State, h: History) {
    FatesOk(s, h) && AcqsOk(s, h)
  }

  lemma FollowsStep(s: State, h: History, e: Event)
    requires Inv(s) && Follows(s, h) && Enabled(s, e)
    ensures Follows(Step(s, e), h.After(e))
  {
    if ResEvent(e) {
      ResFates(s, h, e);
    } else if AcqEvent(e) {
      AcqFates(s, h, e);
    } else {
      CloseFates(s, h, e);
    }
    AcqsStep(s, h, e);
  }

  lemma {:induction false} RunFollows(es: seq<Event>)
    ensures Inv(Run(Init, es)) && Follows(Run(Init, es), Happened(es))
  {
    assert Inv(Init);
    RunKeepsInv(Init, es);
    if es != [] {
      var init, e := es[..|es| - 1], es[|es| - 1];
      RunFollows(init);
      if Enabled(Run(Init, init), e) {
        FollowsStep(Run(Init, init), Happened(init), e);
      }
    }
  }

  // ---------------------------------------------------------------- what a close-out closes

  /** When any closeAll has returned, a resource has been closed, once and by one event, if it was
      registered and not yet unregistered when the first closeAll began; not at all if it was
      unregistered before; and if it came later, by the call that brought it, if it has come so far. */
  lemma ReturnedFates(es: seq<Event>, c: nat, r: nat)
    requires CallerAt(Run(Init, es), c, Returned) && r in Run(Init, es).res
    ensures var s, h := Run(Init, es), Happened(es);
      && r in h.fate && r in h.closes && h.fate[r] != Held
      && (h.fate[r] == InSnapshot ==> s.res[r] == Res(Closed, 1) && h.closes[r] == 1)
      && (h.fate[r] == Dropped ==> s.res[r] == Res(Unregistered, 0) && h.closes[r] == 0)
      && (h.fate[r] == TooLate ==>
            (s.res[r] == Res(Closed, 1) && h.closes[r] == 1) || (s.res[r].place == Late(None) && h.closes[r] == 0))
  {
    RunFollows(es);
    ReturnedMeansAllClosed(es, c);
    var s, h := Run(Init, es), Happened(es);
    assert Fits(s.res[r], h.fate[r]) && s.res[r].closes == h.closes[r];
  }

  /** An acquisition is refused exactly if it began after the close, and over exactly when it was finished. */
  lemma AcquisitionsAsTheyCame(es: seq<Event>, a: nat)
    requires a in Run(Init, es).acqs
    ensures var s, h := Run(Init, es), Happened(es);
      && a in h.begun && (s.acqs[a].Refused? <==> h.begun[a]) && (s.acqs[a].Finished? <==> a in h.finished)
  {
    RunFollows(es);
  }

  /** Once the close has begun a fate is final. */
  lemma FateStays(s: State, h: History, e: Event, r: nat)
    requires FatesOk(s, h) && h.closed && r in h.fate && Enabled(s, e)
    ensures h.After(e).closed && r in h.After(e).fate && h.After(e).fate[r] == h.fate[r]
  {
  }

  lemma {:induction false} FateIsFinal(before: seq<Event>, later: seq<Event>, r: nat)
    requires Happened(before).closed && r in Happened(before).fate
    ensures var h := Happened(before + later);
      h.closed && r in h.fate && h.fate[r] == Happened(before).fate[r]
  {
    if later == [] {
      assert before + later == before;
    } else {
      var init, e := later[..|later| - 1], later[|later| - 1];
      FateIsFinal(before, init, r);
      assert (before + later)[..|before + later| - 1] == before + init;
      RunFollows(before + init);
      if Enabled(Run(Init, before + init), e) {
        FateStays(Run(Init, before + init), Happened(before + init), e, r);
      }
    }
  }

  /** A resource that is in the registry when the first closeAll begins is closed exactly once when any
      closeAll returns, whatever happens in between: unregistering it is then too late. */
  lemma RegisteredIsClosed(before: seq<Event>, c: nat, later: seq<Event>, d: nat, r: nat)
    requires var s := Run(Init, before); !s.sh.closed && r in s.sh.registry && Enabled(s, CallCloseAll(c))
    requires CallerAt(Run(Init, before + [CallCloseAll(c)] + later), d, Returned)
    ensures var s := Run(Init, before + [CallCloseAll(c)] + later);
      r in s.res && s.res[r] == Res(Closed, 1)
  {
    var call := before + [CallCloseAll(c)];
    assert call[..|call| - 1] == before;
    RunFollows(before);
    RunFollows(call);
    FateIsFinal(call, later, r);
    RunFollows(call + later);
    ReturnedFates(call + later, d, r);
  }

  /** The event was enabled at its turn. */
  ghost predicate Occurs(es: seq<Event>, i: int) {
    0 <= i < |es| && Enabled(Run(Init, es[..i]), es[i])
  }

  /** An unregistration that came before the close. */
  ghost predicate DroppedAt(es: seq<Event>, i: int, r: nat) {
    Occurs(es, i) && es[i] == Unregister(r) && !Run(Init, es[..i]).sh.closed
  }

  lemma DroppedAtMore(es: seq<Event>, i: int, r: nat)
    requires es != [] && DroppedAt(es[..|es| - 1], i, r)
    ensures DroppedAt(es, i, r)
  {
    assert es[..|es| - 1][..i] == es[..i];
  }

  /** A resource stays unregistered without being closed only if it was unregistered before the close. */
  lemma {:induction false} UnregisteredBefore(es: seq<Event>, r: nat)
    requires r in Run(Init, es).res && Run(Init, es).res[r].place.Unregistered?
    ensures exists i :: DroppedAt(es, i, r)
  {
    assert es != [];
    var init, e := es[..|es| - 1], es[|es| - 1];
    var s := Run(Init, init);
    RunFollows(init);
    RunFollows(es);
    if r in s.res && s.res[r].place.Unregistered? {
      UnregisteredBefore(init, r);
      var i :| DroppedAt(init, i, r);
      DroppedAtMore(es, i, r);
    } else {
      BecomesUnregistered(s, e, r);
      assert DroppedAt(es, |es| - 1, r);
    }
  }

  lemma BecomesUnregistered(s: State, e: Event, r: nat)
    requires Inv(s) && Enabled(s, e) && r in Step(s, e).res && Step(s, e).res[r].place.Unregistered?
    requires !(r in s.res && s.res[r].place.Unregistered?)
    ensures e == Unregister(r) && !s.sh.closed
  {
  }
}
