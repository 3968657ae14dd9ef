/** The answer to each connection-level request is that of the first call that was let through, and the
    loop goes on or stops as handlers, error handlers and writes said (request.go:105-175,
    server.go:1296-1404). */
module RequestOutcomes {
  import opened Prelude
  import opened Requests

  /** What has been said about one request: the first call that got through, whether it was completed
      without one, how its write went, and whether the call completed. */
  datatype Seen = Seen(
    want: bool, expired: bool, first: Option<bool>, dropped: bool, write: Option<Option<nat>>, completed: bool)
  {
    predicate Undecided() {
      first.None? && !dropped
    }

    function Claim(accept: bool): Seen {
      if Undecided() then this.(first := Some(accept)) else this
    }

    function Drop(): Seen {
      if Undecided() then this.(dropped := true) else this
    }

    function Failure(): Option<nat> {
      if write.Some? then write.value else None
    }
  }

  /** Read off the events alone. `cont` and `failed` are what the newest request's handlers returned,
      `dispatch` whether its error handler has to be consulted, `over` that the loop has to stop. */
  datatype History = History(
    reqs: seq<Seen>, rejecters: map<nat, nat>, failed: bool, dispatch: bool, cont: bool, over: bool)
  {
    function Put(r: nat, v: Seen): History
      requires r < |reqs|
    {
      this.(reqs := reqs[r := v])
    }

    function Newest(): Seen
      requires reqs != []
    {
      reqs[|reqs| - 1]
    }

    function PutNewest(v: Seen): History
      requires reqs != []
    {
      Put(|reqs| - 1, v)
    }

    function MovesOn(): History {
      this.(over := !cont)
    }

    function Stops(): History {
      this.(over := true)
    }

    /** The loop looks at a request whose handlers are through. */
    function Checked(): History
      requires reqs != []
    {
      if Newest().first.None? then this
      else if !Newest().completed || Newest().Failure().Some? then Stops()
      else MovesOn()
    }

    /** It answers one that nobody has answered. */
    function SelfAnswered(): History
      requires reqs != []
    {
      if !Newest().want then PutNewest(Newest().Drop()).MovesOn()
      else if !Newest().Undecided() then Stops()
      else PutNewest(Newest().Claim(false))
    }

    function After(e: Event): History {
      match e
      case Arrive(want, known) =>
        this.(reqs := reqs + [Seen(want, false, if known then None else Some(false), false, None, false)],
              failed := false, dispatch := false, cont := true)
      case EndOfRequests => this
      case CallRespond(_, r, accept) => if r < |reqs| && !reqs[r].expired then Put(r, reqs[r].Claim(accept)) else this
      case CallReject(t) =>
        if t in rejecters && rejecters[t] < |reqs| then
          Put(rejecters[t], reqs[rejecters[t]].Claim(false)).(rejecters := rejecters - {t})
        else this
      case _ => if reqs == [] then this else AfterNewest(e)
    }

    /** The events about the newest request. */
    function AfterNewest(e: Event): History
      requires reqs != []
    {
      match e
      case HandlerReturns(f) => PutNewest(Newest().(expired := true)).(failed := f)
      case Judge => this.(dispatch := failed || (Newest().first.None? && Newest().want))
      case SendRejecter(t) => this.(rejecters := rejecters[t := |reqs| - 1])
      case DispatchReturns(c, escalated) =>
        if escalated then PutNewest(Newest().Drop()).(dispatch := false).Stops() else this.(dispatch := false, cont := c)
      case Check => Checked()
      case AnswerSelf => SelfAnswered()
      case Settle => if Newest().Failure().Some? then Stops() else MovesOn()
      case Write(_, err) => PutNewest(Newest().(write := Some(err)))
      case Complete(_) => PutNewest(Newest().(completed := true))
      case _ => this
    }
  }

  /** What happened in a run; events that were not enabled did not happen. */
  function Happened(es: seq<Event>): History {
    if es == [] then History([], map[], false, false, true, false)
    else
      var init, e := es[..|es| - 1], es[|es| - 1];
      if Enabled(Run(Init, init), e) then Happened(init).After(e) else Happened(init)
  }

  // ---------------------------------------------------------------- the invariant

  predicate Fits(r: Response, h: Seen) {
    && r.want == h.want
    && (r.attempted <==> h.first.Some?) && (h.first.Some? ==> r.accepted == h.first.value)
    && (r.complete <==> h.completed || h.dropped)
    && (h.dropped ==> h.first.None?) && (h.completed ==> h.first.Some?) && (h.write.Some? ==> h.first.Some?)
    && r.err == (if h.completed then h.Failure() else None)
    && (h.Undecided() ==> r.active == !h.expired)
  }

  ghost predicate AllFit(s: State, h: History) {
    && |s.reqs| == |h.reqs| && s.rejecters == h.rejecters
    && forall k :: 0 <= k < |s.reqs| ==> Fits(s.reqs[k], h.reqs[k])
  }

  ghost predicate CallsFit(s: State, h: History) {
    forall t :: t in s.calls ==>
      && s.calls[t].request < |h.reqs| && !h.reqs[s.calls[t].request].completed
      && (s.calls[t].Writing? ==>
            h.reqs[s.calls[t].request].first == Some(s.calls[t].accepted) && h.reqs[s.calls[t].request].write.None?)
      && (s.calls[t].Completing? ==> s.calls[t].err == h.reqs[s.calls[t].request].Failure())
  }

  predicate LoopFits(l: Loop, h: History) {
    && (l.Judging? ==> l.failed == h.failed)
    && (l.Dispatching? <==> h.dispatch && !h.over)
    && (l.Handling? || l.Judging? ==> h.cont && !h.dispatch)
    && (l.Checking? || l.Answering? || l.Finishing? ==> l.canContinue == h.cont)
    && (l.Stopped? <==> h.over)
  }

  ghost predicate Follows(s: State, h: History) {
    AllFit(s, h) && CallsFit(s, h)
  }

  // ---------------------------------------------------------------- one request changes

  lemma ReqFits(s: State, t: State, h: History, k: History, r: nat, v: Response, w: Seen)
    requires AllFit(s, h) && r < |s.reqs| && t.reqs == s.reqs[r := v] && k.reqs == h.reqs[r := w] && Fits(v, w)
    requires t.rejecters == k.rejecters
    ensures AllFit(t, k)
  {
  }

  /** The calls under way do not notice. */
  lemma CallsFrame(s: State, t: State, h: History, k: History, r: nat)
    requires CallsFit(s, h) && t.calls == s.calls && r < |h.reqs| && |k.reqs| == |h.reqs|
    requires k.reqs == h.reqs[r := k.reqs[r]]
    requires k.reqs[r].completed == h.reqs[r].completed && k.reqs[r].write == h.reqs[r].write
    requires h.reqs[r].first.Some? ==> k.reqs[r].first == h.reqs[r].first
    ensures CallsFit(t, k)
  {
  }

  lemma SameFits(s: State, t: State, h: History, k: History)
    requires Follows(s, h) && t.reqs == s.reqs && t.calls == s.calls && k.reqs == h.reqs && t.rejecters == k.rejecters
    ensures Follows(t, k)
  {
  }

  lemma ClaimFits(v: Response, w: Seen, accept: bool, requireActive: bool)
    requires Fits(v, w) && (requireActive ==> !w.expired)
    ensures if v.Refused(requireActive).Some? then w.Claim(accept) == w else Fits(v.Enter(accept), w.Claim(accept))
  {
  }

  lemma LateClaimFits(v: Response, w: Seen)
    requires Fits(v, w) && w.expired
    ensures v.Refused(true).Some?
  {
  }

  /** A call comes to the gate of request `r`. */
  lemma EnterFits(s: State, h: History, t: nat, r: nat, accept: bool, requireActive: bool)
    requires Follows(s, h) && Inv(s) && t !in s.calls && r < |s.reqs| && (requireActive ==> !h.reqs[r].expired)
    ensures Follows(EnterStep(s, t, r, accept, requireActive), h.Put(r, h.reqs[r].Claim(accept)))
  {
    var v, w, u := s.reqs[r], h.reqs[r], EnterStep(s, t, r, accept, requireActive);
    var k := h.Put(r, w.Claim(accept));
    ClaimFits(v, w, accept, requireActive);
    if v.Refused(requireActive).Some? {
      assert k.reqs == h.reqs;
    } else {
      EnterFacts(s, t, r, requireActive);
      assert u.calls.Keys == {t};
      ReqFits(s, u, h, k, r, v.Enter(accept), w.Claim(accept));
    }
  }

  lemma RespondFits(s: State, h: History, t: nat, r: nat, accept: bool)
    requires Follows(s, h) && Inv(s) && Enabled(s, CallRespond(t, r, accept))
    ensures Follows(EnterStep(s, t, r, accept, true), h.After(CallRespond(t, r, accept)))
  {
    if h.reqs[r].expired {
      LateClaimFits(s.reqs[r], h.reqs[r]);
    } else {
      EnterFits(s, h, t, r, accept, true);
    }
  }

  lemma WithoutRejecter(s: State, t: nat)
    requires Inv(s)
    ensures Inv(s.(rejecters := s.rejecters - {t}))
  {
    var u := s.(rejecters := s.rejecters - {t});
    WireFrame(s, u);
  }

  lemma RejectFits(s: State, h: History, t: nat)
    requires Follows(s, h) && Inv(s) && Enabled(s, CallReject(t))
    ensures Follows(Step(s, CallReject(t)), h.After(CallReject(t)))
  {
    var u, k := s.(rejecters := s.rejecters - {t}), h.(rejecters := h.rejecters - {t});
    WithoutRejecter(s, t);
    SameFits(s, u, h, k);
    EnterFits(u, k, t, s.rejecters[t], false, false);
    assert h.After(CallReject(t)) == k.Put(s.rejecters[t], k.reqs[s.rejecters[t]].Claim(false));
  }

  lemma WriteFits(s: State, h: History, t: nat, err: Option<nat>)
    requires Follows(s, h) && CallsInv(s) && Enabled(s, Write(t, err))
    ensures Follows(WriteStep(s, t, err), h.After(Write(t, err)))
  {
    var r := |s.reqs| - 1;
    var u, k := WriteStep(s, t, err), h.After(Write(t, err));
    assert Fits(s.reqs[r], h.reqs[r]);
    assert s.calls[t].request == r && u.calls == s.calls[t := Completing(r, err)] && u.calls.Keys == {t};
    ReqFits(s, u, h, k, r, s.reqs[r], h.reqs[r].(write := Some(err)));
  }

  lemma CompleteFits(s: State, h: History, t: nat)
    requires Follows(s, h) && CallsInv(s) && Enabled(s, Complete(t))
    ensures Follows(Step(s, Complete(t)), h.After(Complete(t)))
  {
    var r := |s.reqs| - 1;
    var u, k := Step(s, Complete(t)), h.After(Complete(t));
    assert Fits(s.reqs[r], h.reqs[r]) && s.calls[t].request == r;
    assert u.calls == map[];
    ReqFits(s, u, h, k, r, s.reqs[r].Leave(s.calls[t].err), h.reqs[r].(completed := true));
  }

  // ---------------------------------------------------------------- the loop's steps

  /** The loop itself changes only the newest request, and never one that was claimed. */
  lemma NewestFits(s: State, t: State, h: History, k: History, v: Response, w: Seen)
    requires Follows(s, h) && |s.reqs| > 0 && t.calls == s.calls && t.rejecters == k.rejecters
    requires t.reqs == s.reqs[|s.reqs| - 1 := v] && k.reqs == h.reqs[|h.reqs| - 1 := w] && Fits(v, w)
    requires w.completed == h.Newest().completed && w.write == h.Newest().write
    requires h.Newest().first.Some? ==> w.first == h.Newest().first
    ensures Follows(t, k)
  {
    ReqFits(s, t, h, k, |s.reqs| - 1, v, w);
    CallsFrame(s, t, h, k, |s.reqs| - 1);
  }

  lemma DropFits(v: Response, w: Seen)
    requires Fits(v, w)
    ensures Fits(v.CompleteWithoutResponse(), w.Drop())
  {
  }

  /** Releasing a request that is through. */
  lemma ReleaseFits(v: Response, w: Seen)
    requires Fits(v, w) && (w.Undecided() ==> w.expired)
    ensures Fits(v.Release(), w)
  {
  }

  lemma StopFits(s: State, h: History, k: History)
    requires Follows(s, h) && |s.reqs| > 0 && (h.Newest().Undecided() ==> h.Newest().expired)
    requires k.reqs == h.reqs && k.rejecters == h.rejecters
    ensures Follows(StopStep(s), k)
  {
    assert Fits(Last(s), h.Newest());
    ReleaseFits(Last(s), h.Newest());
    NewestFits(s, StopStep(s), h, k, Last(s).Release(), h.Newest());
  }

  lemma MoveOnFits(s: State, h: History, k: History, canContinue: bool)
    requires Follows(s, h) && |s.reqs| > 0 && (h.Newest().Undecided() ==> h.Newest().expired)
    requires k.reqs == h.reqs && k.rejecters == h.rejecters
    ensures Follows(MoveOn(s, canContinue), k)
  {
    assert Fits(Last(s), h.Newest());
    ReleaseFits(Last(s), h.Newest());
    NewestFits(s, MoveOn(s, canContinue), h, k, Last(s).Release(), h.Newest());
  }

  /** The loop gives the request up. */
  lemma LastDropFits(s: State, h: History)
    requires Follows(s, h) && |s.reqs| > 0
    ensures Follows(SetLast(s, Last(s).CompleteWithoutResponse()), h.PutNewest(h.Newest().Drop()))
  {
    assert Fits(Last(s), h.Newest());
    DropFits(Last(s), h.Newest());
    NewestFits(s, SetLast(s, Last(s).CompleteWithoutResponse()), h, h.PutNewest(h.Newest().Drop()),
               Last(s).CompleteWithoutResponse(), h.Newest().Drop());
  }

  /** Outside its handler the newest request takes no more answers from it. */
  ghost predicate Expired(s: State, h: History) {
    && |s.reqs| == |h.reqs|
    && (InHand(s.loop) && !s.loop.Handling? && |s.reqs| > 0 ==> h.Newest().expired || !h.Newest().Undecided())
  }

  lemma CheckFits(s: State, h: History)
    requires Follows(s, h) && HandInv(s) && Expired(s, h) && s.loop.Checking? && |s.reqs| > 0 && s.loop.canContinue == h.cont
    requires !h.over
    ensures Follows(CheckStep(s), h.Checked()) && (CheckStep(s).loop.Stopped? <==> h.Checked().over)
  {
    assert Fits(Last(s), h.Newest());
    if (Last(s).attempted && !Last(s).complete) || Last(s).err.Some? {
      StopFits(s, h, h.Checked());
    } else if Last(s).attempted {
      MoveOnFits(s, h, h.Checked(), s.loop.canContinue);
    }
  }

  lemma UnwantedFits(s: State, h: History)
    requires Follows(s, h) && Expired(s, h) && Enabled(s, AnswerSelf) && s.loop.canContinue == h.cont && !Last(s).want
    ensures Follows(AnswerSelfStep(s), h.SelfAnswered()) && (AnswerSelfStep(s).loop.Stopped? <==> h.SelfAnswered().over)
  {
    assert Fits(Last(s), h.Newest());
    LastDropFits(s, h);
    MoveOnFits(SetLast(s, Last(s).CompleteWithoutResponse()), h.PutNewest(h.Newest().Drop()), h.SelfAnswered(),
               s.loop.canContinue);
  }

  lemma TakenFits(s: State, h: History)
    requires Follows(s, h) && Expired(s, h) && Enabled(s, AnswerSelf) && Last(s).want && Last(s).Refused(false).Some?
    ensures Follows(AnswerSelfStep(s), h.SelfAnswered()) && AnswerSelfStep(s).loop.Stopped? && h.SelfAnswered().over
  {
    assert Fits(Last(s), h.Newest());
    StopFits(s, h, h.SelfAnswered());
  }

  lemma RejectsFits(s: State, h: History)
    requires Follows(s, h) && Inv(s) && Enabled(s, AnswerSelf) && Last(s).want && Last(s).Refused(false).None? && !h.over
    ensures Follows(AnswerSelfStep(s), h.SelfAnswered())
    ensures !AnswerSelfStep(s).loop.Stopped? && !h.SelfAnswered().over
  {
    assert Fits(Last(s), h.Newest());
    EnterFits(s, h, LOOP, |s.reqs| - 1, false, false);
    var u := EnterStep(s, LOOP, |s.reqs| - 1, false, false);
    SameFits(u, AnswerSelfStep(s), h.PutNewest(h.Newest().Claim(false)), h.SelfAnswered());
  }

  lemma AnswerSelfFits(s: State, h: History)
    requires Follows(s, h) && Inv(s) && Expired(s, h) && Enabled(s, AnswerSelf) && s.loop.canContinue == h.cont && !h.over
    ensures Follows(AnswerSelfStep(s), h.SelfAnswered()) && (AnswerSelfStep(s).loop.Stopped? <==> h.SelfAnswered().over)
  {
    if !Last(s).want {
      UnwantedFits(s, h);
    } else if Last(s).Refused(false).Some? {
      TakenFits(s, h);
    } else {
      RejectsFits(s, h);
    }
  }

  lemma SettleFits(s: State, h: History)
    requires Follows(s, h) && Inv(s) && Enabled(s, Settle) && s.loop.canContinue == h.cont && !h.over
    ensures Follows(SettleStep(s), h.AfterNewest(Settle)) && (SettleStep(s).loop.Stopped? <==> h.AfterNewest(Settle).over)
  {
    assert Fits(Last(s), h.Newest());
    assert h.Newest().completed;
    if Last(s).err.Some? {
      StopFits(s, h, h.Stops());
    } else {
      MoveOnFits(s, h, h.MovesOn(), s.loop.canContinue);
    }
  }

  lemma HandlerReturnsFits(s: State, h: History, failed: bool)
    requires Follows(s, h) && Enabled(s, HandlerReturns(failed))
    ensures Follows(HandlerReturnsStep(s, failed), h.After(HandlerReturns(failed)))
  {
    assert Fits(Last(s), h.Newest());
    NewestFits(s, HandlerReturnsStep(s, failed), h, h.After(HandlerReturns(failed)),
               Last(s).Expire(), h.Newest().(expired := true));
  }

  lemma EscalateFits(s: State, h: History, c: bool)
    requires Follows(s, h) && Expired(s, h) && Enabled(s, DispatchReturns(c, true))
    ensures Follows(EscalateStep(s), h.After(DispatchReturns(c, true)))
  {
    LastDropFits(s, h);
    StopFits(SetLast(s, Last(s).CompleteWithoutResponse()), h.PutNewest(h.Newest().Drop()), h.After(DispatchReturns(c, true)));
  }

  lemma ArriveFits(s: State, h: History, want: bool, known: bool)
    requires Follows(s, h) && Inv(s) && s.loop.Idle?
    ensures Follows(ArriveStep(s, want, known), h.After(Arrive(want, known)))
  {
    var u, k := ArriveStep(s, want, known), h.After(Arrive(want, known));
    assert s.calls == map[] by {
      assert s.calls.Keys == {};
    }
    assert forall i :: 0 <= i < |s.reqs| ==> u.reqs[i] == s.reqs[i] && k.reqs[i] == h.reqs[i];
    assert Fits(u.reqs[|s.reqs|], k.reqs[|s.reqs|]);
  }

  lemma QuietFits(s: State, h: History, e: Event)
    requires Follows(s, h) && Enabled(s, e)
    requires e.EndOfRequests? || e.Judge? || e.SendRejecter? || (e.DispatchReturns? && !e.escalated)
    ensures Follows(Step(s, e), h.After(e))
  {
    SameFits(s, Step(s, e), h, h.After(e));
  }

  lemma {:induction false} FollowsStep(s: State, h: History, e: Event)
    requires Follows(s, h) && Inv(s) && Expired(s, h) && LoopFits(s.loop, h) && Enabled(s, e)
    ensures Follows(Step(s, e), h.After(e))
  {
    if e.CallRespond? {
      RespondFits(s, h, e.thread, e.request, e.accepted);
    } else if e.CallReject? {
      RejectFits(s, h, e.thread);
    } else if e.Write? {
      WriteFits(s, h, e.thread, e.err);
    } else if e.Complete? {
      CompleteFits(s, h, e.thread);
    } else if e.Arrive? {
      ArriveFits(s, h, e.want, e.known);
    } else if e.HandlerReturns? {
      HandlerReturnsFits(s, h, e.failed);
    } else if e.DispatchReturns? && e.escalated {
      EscalateFits(s, h, e.canContinue);
    } else if e.Check? {
      CheckFits(s, h);
    } else if e.AnswerSelf? {
      AnswerSelfFits(s, h);
    } else if e.Settle? {
      SettleFits(s, h);
    } else {
      QuietFits(s, h, e);
    }
  }

  // ---------------------------------------------------------------- the loop

  lemma LoopStep(s: State, h: History, e: Event)
    requires Follows(s, h) && Inv(s) && Expired(s, h) && LoopFits(s.loop, h) && Enabled(s, e)
    ensures LoopFits(Step(s, e).loop, h.After(e))
  {
    if e.Check? {
      CheckFits(s, h);
      CheckGoesOn(s, h);
    } else if e.AnswerSelf? {
      AnswerSelfFits(s, h);
      AnswerSelfGoesOn(s, h);
    } else if e.Settle? {
      SettleFits(s, h);
    } else if e.Judge? {
      assert Fits(Last(s), h.Newest());
    } else if CallerEvent(e) {
      CallerLoop(s, h, e);
    } else {
      OtherLoop(s, h, e);
    }
  }

  lemma CheckGoesOn(s: State, h: History)
    requires AllFit(s, h) && LoopFits(s.loop, h) && s.loop.Checking? && |s.reqs| > 0
    requires CheckStep(s).loop.Stopped? <==> h.Checked().over
    ensures LoopFits(CheckStep(s).loop, h.Checked())
  {
  }

  lemma AnswerSelfGoesOn(s: State, h: History)
    requires AllFit(s, h) && LoopFits(s.loop, h) && Enabled(s, AnswerSelf)
    requires AnswerSelfStep(s).loop.Stopped? <==> h.SelfAnswered().over
    ensures LoopFits(AnswerSelfStep(s).loop, h.SelfAnswered())
  {
  }

  lemma CallerLoop(s: State, h: History, e: Event)
    requires LoopFits(s.loop, h) && Enabled(s, e) && CallerEvent(e)
    ensures LoopFits(Step(s, e).loop, h.After(e))
  {
    var k := h.After(e);
    assert Step(s, e).loop == s.loop;
    assert k.failed == h.failed && k.dispatch == h.dispatch && k.cont == h.cont && k.over == h.over;
  }

  lemma OtherLoop(s: State, h: History, e: Event)
    requires AllFit(s, h) && LoopFits(s.loop, h) && Enabled(s, e)
    requires e.Arrive? || e.EndOfRequests? || e.HandlerReturns? || e.SendRejecter? || e.DispatchReturns?
    ensures LoopFits(Step(s, e).loop, h.After(e))
  {
  }

  lemma ExpiredFrame(s: State, t: State, h: History, k: History)
    requires Expired(s, h) && t.loop == s.loop && |t.reqs| == |s.reqs| && |k.reqs| == |h.reqs|
    requires |h.reqs| > 0 && h.Newest().expired ==> k.Newest().expired
    requires |h.reqs| > 0 && !h.Newest().Undecided() ==> !k.Newest().Undecided()
    ensures Expired(t, k)
  {
  }

  lemma ClaimKeeps(h: History, e: Event)
    requires CallerEvent(e)
    ensures var k := h.After(e);
      && |k.reqs| == |h.reqs|
      && (|h.reqs| > 0 && h.Newest().expired ==> k.Newest().expired)
      && (|h.reqs| > 0 && !h.Newest().Undecided() ==> !k.Newest().Undecided())
  {
  }

  lemma CallerExpired(s: State, h: History, e: Event)
    requires Expired(s, h) && Enabled(s, e) && CallerEvent(e)
    ensures Expired(Step(s, e), h.After(e))
  {
    assert Step(s, e).loop == s.loop && |Step(s, e).reqs| == |s.reqs|;
    ClaimKeeps(h, e);
    ExpiredFrame(s, Step(s, e), h, h.After(e));
  }

  lemma LoopExpired(s: State, h: History, e: Event)
    requires Follows(s, h) && Expired(s, h) && Enabled(s, e) && !CallerEvent(e) && !e.Arrive?
    requires |Step(s, e).reqs| == |h.After(e).reqs|
    ensures Expired(Step(s, e), h.After(e))
  {
  }

  lemma ArriveExpired(s: State, h: History, want: bool, known: bool)
    requires |s.reqs| == |h.reqs| && s.loop.Idle?
    ensures Expired(ArriveStep(s, want, known), h.After(Arrive(want, known)))
  {
  }

  lemma ExpiredStep(s: State, h: History, e: Event)
    requires Follows(s, h) && Inv(s) && Expired(s, h) && Enabled(s, e)
    requires |Step(s, e).reqs| == |h.After(e).reqs|
    ensures Expired(Step(s, e), h.After(e))
  {
    if CallerEvent(e) {
      CallerExpired(s, h, e);
    } else if e.Arrive? {
      ArriveExpired(s, h, e.want, e.known);
    } else {
      LoopExpired(s, h, e);
    }
  }

  // ---------------------------------------------------------------- the wire

  /** A reply is on the wire exactly if its write went well. */
  ghost predicate WireFits(s: State, h: History) {
    && (forall i :: 0 <= i < |s.wire| ==>
          && s.wire[i].request < |h.reqs| && h.reqs[s.wire[i].request].first == Some(s.wire[i].accepted)
          && h.reqs[s.wire[i].request].write == Some(None))
    && (forall r :: 0 <= r < |h.reqs| && h.reqs[r].write == Some(None) ==>
          h.reqs[r].first.Some? && Reply(r, h.reqs[r].first.value) in s.wire)
  }

  /** Answers that have been claimed and written stay. */
  predicate Extends(h: History, k: History) {
    && |h.reqs| <= |k.reqs|
    && (forall r :: 0 <= r < |h.reqs| ==>
          (h.reqs[r].first.Some? ==> k.reqs[r].first == h.reqs[r].first) && k.reqs[r].write == h.reqs[r].write)
    && (forall r :: |h.reqs| <= r < |k.reqs| ==> k.reqs[r].write.None?)
  }

  lemma WireKept(s: State, t: State, h: History, k: History)
    requires WireFits(s, h) && t.wire == s.wire && Extends(h, k)
    ensures WireFits(t, k)
  {
  }

  lemma WriteWire(s: State, h: History, t: nat, err: Option<nat>)
    requires WireFits(s, h) && Follows(s, h) && CallsInv(s) && Enabled(s, Write(t, err))
    ensures WireFits(WriteStep(s, t, err), h.After(Write(t, err)))
  {
    var r := |s.reqs| - 1;
    var u, k := WriteStep(s, t, err), h.After(Write(t, err));
    assert s.calls[t].request == r && h.reqs[r].write.None?;
    assert k.reqs == h.reqs[r := h.reqs[r].(write := Some(err))];
    if err.None? {
      assert u.wire[|s.wire|] == Reply(r, s.calls[t].accepted);
      forall x | 0 <= x < |k.reqs| && k.reqs[x].write == Some(None)
        ensures k.reqs[x].first.Some? && Reply(x, k.reqs[x].first.value) in u.wire
      {
        if x != r {
          assert Reply(x, h.reqs[x].first.value) in s.wire;
        }
      }
    }
  }

  lemma NewestExtends(h: History, e: Event)
    requires h.reqs != [] && !e.Write?
    ensures Extends(h, h.AfterNewest(e))
  {
  }

  lemma AfterExtends(s: State, h: History, e: Event)
    requires AllFit(s, h) && Enabled(s, e) && !e.Write?
    ensures Extends(h, h.After(e))
  {
    if !e.Arrive? && !e.CallRespond? && !e.CallReject? && !e.EndOfRequests? && h.reqs != [] {
      NewestExtends(h, e);
    }
  }

  lemma SameWire(s: State, e: Event)
    requires Enabled(s, e) && !e.Write?
    ensures Step(s, e).wire == s.wire
  {
  }

  lemma WireStep(s: State, h: History, e: Event)
    requires WireFits(s, h) && Follows(s, h) && CallsInv(s) && Enabled(s, e)
    ensures WireFits(Step(s, e), h.After(e))
  {
    if e.Write? {
      WriteWire(s, h, e.thread, e.err);
    } else {
      SameWire(s, e);
      AfterExtends(s, h, e);
      WireKept(s, Step(s, e), h, h.After(e));
    }
  }

  lemma ClosedStep(s: State, e: Event)
    requires (s.closed <==> s.loop.Stopped?) && Enabled(s, e)
    ensures Step(s, e).closed <==> Step(s, e).loop.Stopped?
  {
    if CallerEvent(e) {
      assert Step(s, e).loop == s.loop && Step(s, e).closed == s.closed;
    }
  }

  // ---------------------------------------------------------------- what every run answers

  ghost predicate Matches(s: State, h: History) {
    Follows(s, h) && Expired(s, h) && LoopFits(s.loop, h) && WireFits(s, h) && (s.closed <==> s.loop.Stopped?)
  }

  lemma {:induction false} RunMatches(es: seq<Event>)
    ensures Matches(Run(Init, es), Happened(es))
  {
    if es != [] {
      var init, e := es[..|es| - 1], es[|es| - 1];
      var s, h := Run(Init, init), Happened(init);
      RunMatches(init);
      Reachable(init);
      if Enabled(s, e) {
        FollowsStep(s, h, e);
        ExpiredStep(s, h, e);
        LoopStep(s, h, e);
        WireStep(s, h, e);
        ClosedStep(s, e);
      }
    }
  }

  /** Every reply on the wire carries the answer of the first call that got through to its request, and
      a request has a reply exactly if the write of that answer went well. */
  lemma RepliesAreTheFirstCalls(es: seq<Event>)
    ensures var s, h := Run(Init, es), Happened(es);
      && (forall i :: 0 <= i < |s.wire| ==>
            s.wire[i].request < |h.reqs| && h.reqs[s.wire[i].request].first == Some(s.wire[i].accepted))
      && (forall r :: 0 <= r < |h.reqs| && h.reqs[r].write == Some(None) ==>
            h.reqs[r].first.Some? && Reply(r, h.reqs[r].first.value) in s.wire)
  {
    RunMatches(es);
  }

  /** What is recorded of each request is what happened to it, and an error is the failure of its own write. */
  lemma RequestsRecordTheirAnswers(es: seq<Event>, k: nat)
    requires k < |Run(Init, es).reqs|
    ensures |Happened(es).reqs| == |Run(Init, es).reqs|
    ensures var r, h := Run(Init, es).reqs[k], Happened(es).reqs[k];
      && r.want == h.want && (r.attempted <==> h.first.Some?) && (h.first.Some? ==> r.accepted == h.first.value)
      && (r.complete <==> h.completed || h.dropped) && r.err == (if h.completed then h.Failure() else None)
  {
    RunMatches(es);
    assert Fits(Run(Init, es).reqs[k], Happened(es).reqs[k]);
  }

  /** The error handler is consulted exactly if the handler failed or left a wanted answer out, and the
      loop stops, and closes the connection, exactly if an error handler or a failed or unfinished
      answer said so. */
  lemma LoopDoesAsTold(es: seq<Event>)
    ensures var s, h := Run(Init, es), Happened(es);
      && (s.loop.Stopped? <==> h.over) && (s.closed <==> h.over)
      && (s.loop.Dispatching? <==> h.dispatch && !h.over)
  {
    RunMatches(es);
  }
}
