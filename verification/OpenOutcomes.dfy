/** What openForwardedChannel returns, as a function of what happened to its attempts, its timer, its
    context and its forward (tcpip.go:428-511). */
module OpenOutcomes {
  import opened Prelude
  import opened OpenChannel

  /** Read off the events alone: the attempts begun and started, those given up, the results of their
      opens, how often the loop has paused and tried again, and what the call came back with. */
  datatype History = History(
    begun: nat,
    started: set<nat>,
    tooLate: set<nat>,
    results: map<nat, Result>,
    abandoned: set<nat>,
    contextDone: bool,
    forwardDone: bool,
    grace: bool,
    pauses: nat,
    out: Option<Option<nat>>)
  {
    function Comes(channel: Option<nat>): History {
      this.(out := Some(channel))
    }

    function GivesUp(): History {
      if begun == 0 then this else Comes(None).(abandoned := abandoned + {begun - 1})
    }

    /** The newest attempt's result is taken: only a registration race is tried again, and not once the
        forward is known to be done. */
    function Taken(): History {
      if begun == 0 || begun - 1 !in results then this
      else
        match results[begun - 1]
        case Ok => Comes(Some(begun - 1))
        case OtherError => Comes(None)
        case Race => if grace then Comes(None) else this
    }

    function After(e: Event): History {
      match e
      case EndContext => this.(contextDone := true)
      case EndForward => this.(forwardDone := true)
      case Begin => if contextDone || forwardDone then Comes(None) else this.(begun := begun + 1)
      case AttemptStart(i) =>
        this.(started := started + {i}, tooLate := if i in abandoned then tooLate + {i} else tooLate)
      case AttemptResult(i, r) => this.(results := results[i := r])
      case HandOver => Taken()
      case GiveUpOnContext => GivesUp()
      case GiveUpOnTimeout => GivesUp()
      case NoticeForwardDone => this.(grace := true)
      case StopRetrying => Comes(None)
      case RetryFires => this.(pauses := pauses + 1)
      case _ => this
    }
  }

  /** What happened in a run; events that were not enabled did not happen. */
  function Happened(es: seq<Event>): History {
    if es == [] then History(0, {}, {}, map[], {}, false, false, false, 0, None)
    else
      var init, e := es[..|es| - 1], es[|es| - 1];
      if Enabled(Run(Init, init), e) then Happened(init).After(e) else Happened(init)
  }

  /** The pause before the next try, in milliseconds. */
  function Pause(pauses: nat): nat {
    if pauses >= 6 then 64 else Pow2(pauses)
  }

  predicate AttemptFits(i: nat, a: Attempt, h: History) {
    && (a.Started? <==> i !in h.started)
    && (a.Opening? <==> i in h.started && i !in h.tooLate && i !in h.results)
    && (a.Holding? || a.HandedOver? ==> i in h.results && a.result == h.results[i])
    && (a.Discarded? ==> a.closed == (i in h.results && h.results[i].Ok?))
    && (i in h.tooLate ==> a == Discarded(false))
  }

  ghost predicate AttemptsFit(s: State, h: History) {
    && |s.attempts| == h.begun
    && (forall i :: 0 <= i < |s.attempts| ==> AttemptFits(i, s.attempts[i], h))
    && (forall i :: i in h.started ==> i < h.begun)
    && (forall i :: i in h.results ==> i in h.started && i !in h.tooLate)
    && (forall i :: i in h.tooLate ==> i in h.started)
  }

  predicate CallFits(s: State, h: History) {
    && s.contextDone == h.contextDone && s.forwardDone == h.forwardDone && s.abandoned == h.abandoned
    && (s.pc.Returned? <==> h.out.Some?) && (s.pc.Returned? ==> h.out == Some(s.pc.channel))
    && (s.pc.Grace? ==> h.grace) && (s.pc.Check? || s.pc.Select? || s.pc.RetryWait? ==> !h.grace)
    && s.delay == Pause(h.pauses)
  }

  lemma AttemptMoves(s: State, t: State, h: History, k: History, i: nat, a: Attempt)
    requires AttemptsFit(s, h) && i < |s.attempts| && t.attempts == s.attempts[i := a] && AttemptFits(i, a, k)
    requires k.begun == h.begun
    requires forall j :: j != i ==> (j in k.started <==> j in h.started) && (j in k.tooLate <==> j in h.tooLate)
    requires forall j :: j != i ==> (j in k.results <==> j in h.results)
    requires forall j :: j != i && j in h.results ==> k.results[j] == h.results[j]
    requires i in k.results || i in k.tooLate ==> i in k.started
    requires i in k.results ==> i !in k.tooLate
    ensures AttemptsFit(t, k)
  {
    forall j | 0 <= j < |t.attempts|
      ensures AttemptFits(j, t.attempts[j], k)
    {
      assert AttemptFits(j, s.attempts[j], h);
    }
  }

  lemma StartFits(s: State, h: History, i: nat)
    requires AttemptsFit(s, h) && CallFits(s, h) && Enabled(s, AttemptStart(i))
    ensures AttemptsFit(Step(s, AttemptStart(i)), h.After(AttemptStart(i)))
  {
    assert AttemptFits(i, s.attempts[i], h);
    AttemptMoves(s, Step(s, AttemptStart(i)), h, h.After(AttemptStart(i)), i,
                 if i in s.abandoned then Discarded(false) else Opening);
  }

  lemma ResultFits(s: State, h: History, i: nat, r: Result)
    requires AttemptsFit(s, h) && Enabled(s, AttemptResult(i, r))
    ensures AttemptsFit(Step(s, AttemptResult(i, r)), h.After(AttemptResult(i, r)))
  {
    assert AttemptFits(i, s.attempts[i], h);
    AttemptMoves(s, Step(s, AttemptResult(i, r)), h, h.After(AttemptResult(i, r)), i, Holding(r));
  }

  lemma TakenFits(s: State, h: History)
    requires AttemptsFit(s, h) && Enabled(s, HandOver)
    ensures AttemptsFit(HandOverStep(s), h.Taken())
  {
    var i := Newest(s);
    assert AttemptFits(i, s.attempts[i], h);
    AttemptMoves(s, HandOverStep(s), h, h.Taken(), i, HandedOver(s.attempts[i].result));
  }

  lemma DiscardFits(s: State, h: History, i: nat)
    requires AttemptsFit(s, h) && Enabled(s, Discard(i))
    ensures AttemptsFit(Step(s, Discard(i)), h)
  {
    assert AttemptFits(i, s.attempts[i], h);
    AttemptMoves(s, Step(s, Discard(i)), h, h, i, Discarded(s.attempts[i].result.Ok?));
  }

  lemma OtherFits(s: State, h: History, e: Event)
    requires AttemptsFit(s, h) && CallFits(s, h) && Enabled(s, e)
    requires !e.AttemptStart? && !e.AttemptResult? && !e.HandOver? && !e.Discard?
    ensures AttemptsFit(Step(s, e), h.After(e))
  {
    var t, k := Step(s, e), h.After(e);
    assert k.started == h.started && k.tooLate == h.tooLate && k.results == h.results;
    forall j | 0 <= j < |t.attempts|
      ensures AttemptFits(j, t.attempts[j], k)
    {
      assert j < |s.attempts| ==> AttemptFits(j, s.attempts[j], h) && t.attempts[j] == s.attempts[j];
    }
  }

  lemma AttemptsStep(s: State, h: History, e: Event)
    requires AttemptsFit(s, h) && CallFits(s, h) && Enabled(s, e)
    ensures AttemptsFit(Step(s, e), h.After(e))
  {
    if e.AttemptStart? {
      StartFits(s, h, e.i);
    } else if e.AttemptResult? {
      ResultFits(s, h, e.i, e.r);
    } else if e.HandOver? {
      TakenFits(s, h);
    } else if e.Discard? {
      DiscardFits(s, h, e.i);
    } else {
      OtherFits(s, h, e);
    }
  }

  lemma PauseDoubles(pauses: nat)
    ensures Pause(pauses + 1) == NextDelay(Pause(pauses))
  {
    assert Pow2(0) == 1 && Pow2(1) == 2 && Pow2(2) == 4 && Pow2(3) == 8;
    assert Pow2(4) == 16 && Pow2(5) == 32 && Pow2(6) == 64;
  }

  lemma TakenCall(s: State, h: History)
    requires AttemptsFit(s, h) && CallFits(s, h) && Enabled(s, HandOver)
    ensures CallFits(HandOverStep(s), h.Taken())
  {
    assert AttemptFits(Newest(s), s.attempts[Newest(s)], h);
  }

  lemma GiveUpCall(s: State, h: History)
    requires AttemptsFit(s, h) && CallFits(s, h) && Waiting(s)
    ensures CallFits(Abandon(s), h.GivesUp())
  {
  }

  lemma CallStep(s: State, h: History, e: Event)
    requires AttemptsFit(s, h) && CallFits(s, h) && Enabled(s, e)
    ensures CallFits(Step(s, e), h.After(e))
  {
    if e.HandOver? {
      TakenCall(s, h);
    } else if e.GiveUpOnContext? || e.GiveUpOnTimeout? {
      GiveUpCall(s, h);
    } else if e.RetryFires? {
      PauseDoubles(h.pauses);
    }
  }

  lemma {:induction false} RunFollows(es: seq<Event>)
    ensures AttemptsFit(Run(Init, es), Happened(es)) && CallFits(Run(Init, es), Happened(es))
  {
    if es == [] {
      assert Pow2(0) == 1;
    } else {
      var init, e := es[..|es| - 1], es[|es| - 1];
      var s, h := Run(Init, init), Happened(init);
      RunFollows(init);
      Reachable(init);
      if Enabled(s, e) {
        AttemptsStep(s, h, e);
        CallStep(s, h, e);
      }
    }
  }

  /** The call returns exactly when, and with what, its events say: the channel of an open that went
      well, nothing after another failure, a race met in the grace period, a give-up or a stop; a race
      before that is tried again. */
  lemma ReturnsAsItHappened(es: seq<Event>)
    ensures var s, h := Run(Init, es), Happened(es);
      && (s.pc.Returned? <==> h.out.Some?)
      && (s.pc.Returned? ==> h.out == Some(s.pc.channel))
      && s.delay == Pause(h.pauses)
  {
    RunFollows(es);
  }

  /** Attempts that are given up before they start open nothing; every other has the result its open
      had, and if it is given up later it closes exactly a channel that was opened. */
  lemma AttemptsAsTheyWent(es: seq<Event>, i: nat)
    requires i < |Run(Init, es).attempts|
    ensures var a, h := Run(Init, es).attempts[i], Happened(es);
      && (i in h.tooLate ==> a == Discarded(false))
      && (a.Holding? || a.HandedOver? ==> i in h.results && a.result == h.results[i])
      && (a.Discarded? ==> (a.closed <==> i in h.results && h.results[i] == Ok))
  {
    RunFollows(es);
    assert AttemptFits(i, Run(Init, es).attempts[i], Happened(es));
  }
}
