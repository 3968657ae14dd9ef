/** What a dispatch answers, and what each call of the responder and of `next` is told, as functions of
    the events of the run (error-handling.go:245-420). */
module DispatchOutcomes {
  import opened Prelude
  import opened Dispatch

  /** Read off the events alone. `sends` and `nexts` are what the calls ought to be told, in their
      order: the first in time gets through, later ones are too many, those after expiry too late.
      `running` says whether a call of `next` was running when the dispatcher looked. */
  datatype History = History(
    usable: bool,
    sends: seq<Option<Error>>,
    sendsClosed: bool,
    close: Option<bool>,
    responded: Option<Option<Error>>,
    nexts: seq<Option<Error>>,
    nextsClosed: bool,
    nextDone: Option<Answer>,
    handled: Option<Answer>,
    running: Option<bool>,
    gaveUp: bool)
  {
    function Told(calls: seq<Option<Error>>, closed: bool, again: Error, late: Error, first: Option<Error>): Option<Error> {
      if closed then Some(late) else if calls != [] then Some(again) else first
    }

    function Respond(wantsClose: bool): History {
      var told := Told(sends, sendsClosed, ResponseAlreadySent, ResponseExpired,
                       if usable then None else Some(ResponseUnsupported));
      this.(sends := sends + [told], close := if told.None? then Some(wantsClose) else close)
    }

    function CallsNext(): History {
      this.(nexts := nexts + [Told(nexts, nextsClosed, NextAlreadyCalled, NextExpired, None)])
    }

    function After(e: Event): History {
      match e
      case CallRespond(_, wantsClose) => Respond(wantsClose)
      case RespondDone(_, err) => this.(responded := Some(err))
      case CallNext(_) => CallsNext()
      case NextDone(_, c, err) => this.(nextDone := Some(Answer(c, err)))
      case HandlerReturns(a) => this.(handled := Some(a))
      case CheckNext => this.(running := Some(nexts != [] && nextDone.None?))
      case GiveUp => this.(gaveUp := true)
      case ExpireResponse => this.(sendsClosed := true)
      case ExpireNext => this.(nextsClosed := true)
      case _ => this
    }
  }

  /** What happened in a run; events that were not enabled did not happen. */
  function Happened(serverScope: bool, usable: bool, es: seq<Event>): History {
    if es == [] then History(usable, [], false, None, None, [], false, None, None, None, false)
    else
      var init, e := es[..|es| - 1], es[|es| - 1];
      var h := Happened(serverScope, usable, init);
      if Enabled(Run(Init(serverScope, usable), init), e) then h.After(e) else h
  }

  // ---------------------------------------------------------------- the invariant

  predicate SendsOk(s: State, h: History) {
    && s.sendVerdicts == h.sends
    && s.response.active == !h.sendsClosed
    && (s.response.active ==> s.response.usable == h.usable)
    && (s.response.active ==> s.response.attempted == (h.sends != []))
    && (h.sends != [] && h.sends[0].None? ==> s.response.attempted && h.close == Some(s.response.close))
    && (h.close.Some? <==> h.sends != [] && h.sends[0].None?)
    && (s.response.complete ==> s.response.attempted)
    && (h.responded.Some? ==> s.response.complete && s.response.err == h.responded.value)
    && (h.responded.None? ==> (s.response.complete <==> h.sends != [] && h.sends[0] == Some(ResponseUnsupported)))
  }

  predicate NextsOk(s: State, h: History) {
    && s.nextVerdicts == h.nexts
    && s.next.active == !h.nextsClosed
    && (s.next.active ==> s.next.called == (h.nexts != []))
    && (s.next.complete == h.nextDone.Some?)
    && (h.nextDone.Some? ==> h.nextDone == Some(Answer(s.next.canContinue, s.next.err)))
    && (s.next.complete ==> s.next.called)
  }

  predicate AnswerOk(s: State, h: History) {
    && s.handled == h.handled
    && s.abandoned == h.gaveUp
    && (s.main.Waiting? ==> h.running.None? && !h.gaveUp)
    && (s.main.Checking? ==> h.running.None? && !h.gaveUp && h.handled == Some(s.main.handled))
    && (s.main.Waiting? || s.main.Checking? ==> !h.nextsClosed)
    && (Decided(s.main) ==>
          if h.gaveUp then s.main.answer == Answer(false, Some(ContextCause))
          else
            && h.running.Some? && h.handled.Some?
            && s.main.answer == if h.running.value then Answer(false, Some(NextIncomplete)) else h.handled.value)
    && (s.main.Leaving? || s.main.ResponderExpired? ==> !h.nextsClosed)
  }

  ghost predicate Follows(s: State, h: History) {
    SendsOk(s, h) && NextsOk(s, h) && AnswerOk(s, h)
  }

  lemma RespondSends(s: State, h: History, t: nat, close: bool)
    requires SendsOk(s, h)
    ensures SendsOk(CallRespondStep(s, t, close), h.Respond(close))
  {
  }

  lemma SendsFrame(s: State, t: State, h: History, k: History)
    requires SendsOk(s, h) && t.response == s.response && t.sendVerdicts == s.sendVerdicts
    requires k.usable == h.usable && k.sends == h.sends && k.sendsClosed == h.sendsClosed
    requires k.close == h.close && k.responded == h.responded
    ensures SendsOk(t, k)
  {
  }

  lemma DoneSends(s: State, h: History, t: nat, err: Option<Error>)
    requires SendsOk(s, h) && RespondingInv(s) && Enabled(s, RespondDone(t, err))
    ensures SendsOk(Step(s, RespondDone(t, err)), h.After(RespondDone(t, err)))
  {
    assert s.response.attempted && !s.response.complete;
  }

  lemma ExpireSends(s: State, h: History)
    requires SendsOk(s, h) && s.main.Leaving?
    ensures SendsOk(ExpireResponseStep(s), h.After(ExpireResponse))
  {
  }

  lemma OtherSends(s: State, h: History, e: Event)
    requires SendsOk(s, h) && Enabled(s, e) && !e.CallRespond? && !e.RespondDone? && !e.ExpireResponse?
    ensures SendsOk(Step(s, e), h.After(e))
  {
    if e.CallNext? {
      SendsFrame(s, CallNextStep(s, e.thread), h, h.CallsNext());
    } else {
      SendsFrame(s, Step(s, e), h, h.After(e));
    }
  }

  lemma SendsStep(s: State, h: History, e: Event)
    requires SendsOk(s, h) && RespondingInv(s) && Enabled(s, e)
    ensures SendsOk(Step(s, e), h.After(e))
  {
    if e.CallRespond? {
      RespondSends(s, h, e.thread, e.close);
    } else if e.RespondDone? {
      DoneSends(s, h, e.thread, e.err);
    } else if e.ExpireResponse? {
      ExpireSends(s, h);
    } else {
      OtherSends(s, h, e);
    }
  }

  lemma NextsFrame(s: State, t: State, h: History, k: History)
    requires NextsOk(s, h) && t.next == s.next && t.nextVerdicts == s.nextVerdicts
    requires k.nexts == h.nexts && k.nextsClosed == h.nextsClosed && k.nextDone == h.nextDone
    ensures NextsOk(t, k)
  {
  }

  lemma CallNexts(s: State, h: History, t: nat)
    requires NextsOk(s, h)
    ensures NextsOk(CallNextStep(s, t), h.CallsNext())
  {
  }

  lemma DoneNexts(s: State, h: History, e: Event)
    requires NextsOk(s, h) && DelegatingInv(s) && Enabled(s, e) && e.NextDone?
    ensures NextsOk(Step(s, e), h.After(e))
  {
    assert s.next.Running();
  }

  lemma OtherNexts(s: State, h: History, e: Event)
    requires NextsOk(s, h) && Enabled(s, e) && !e.CallNext? && !e.NextDone? && !e.ExpireNext?
    ensures NextsOk(Step(s, e), h.After(e))
  {
    if e.CallRespond? {
      NextsFrame(s, CallRespondStep(s, e.thread, e.close), h, h.Respond(e.close));
    } else {
      NextsFrame(s, Step(s, e), h, h.After(e));
    }
  }

  lemma NextsStep(s: State, h: History, e: Event)
    requires NextsOk(s, h) && DelegatingInv(s) && Enabled(s, e)
    ensures NextsOk(Step(s, e), h.After(e))
  {
    if e.CallNext? {
      CallNexts(s, h, e.thread);
    } else if e.NextDone? {
      DoneNexts(s, h, e);
    } else if !e.ExpireNext? {
      OtherNexts(s, h, e);
    }
  }

  lemma AnswerFrame(s: State, t: State, h: History, k: History)
    requires AnswerOk(s, h) && t.main == s.main && t.handled == s.handled && t.abandoned == s.abandoned
    requires k.handled == h.handled && k.gaveUp == h.gaveUp && k.running == h.running && k.nextsClosed == h.nextsClosed
    ensures AnswerOk(t, k)
  {
  }

  lemma CallsLeaveAnswer(s: State, h: History, e: Event)
    requires Enabled(s, e) && (e.CallRespond? || e.CallNext? || e.RespondDone? || e.NextDone? || e.EndContext?)
    ensures var t, k := Step(s, e), h.After(e);
      && t.main == s.main && t.handled == s.handled && t.abandoned == s.abandoned
      && k.handled == h.handled && k.gaveUp == h.gaveUp && k.running == h.running && k.nextsClosed == h.nextsClosed
  {
  }

  lemma ReturnsAnswer(s: State, h: History, a: Answer)
    requires AnswerOk(s, h) && s.handled.None?
    ensures AnswerOk(Step(s, HandlerReturns(a)), h.After(HandlerReturns(a)))
  {
  }

  lemma TakesAnswer(s: State, h: History)
    requires AnswerOk(s, h) && s.main.Waiting? && s.handled.Some?
    ensures AnswerOk(TakeAnswerStep(s), h)
  {
  }

  lemma GivesUpAnswer(s: State, h: History)
    requires AnswerOk(s, h) && s.main.Waiting?
    ensures AnswerOk(GiveUpStep(s), h.After(GiveUp))
  {
  }

  lemma ChecksAnswer(s: State, h: History)
    requires AnswerOk(s, h) && NextsOk(s, h) && s.main.Checking?
    ensures AnswerOk(CheckNextStep(s), h.After(CheckNext))
  {
  }

  lemma ExpiresAnswer(s: State, h: History, e: Event)
    requires AnswerOk(s, h) && Enabled(s, e) && (e.ExpireResponse? || e.ExpireNext?)
    ensures AnswerOk(Step(s, e), h.After(e))
  {
  }

  lemma AnswerStep(s: State, h: History, e: Event)
    requires AnswerOk(s, h) && NextsOk(s, h) && Enabled(s, e)
    ensures AnswerOk(Step(s, e), h.After(e))
  {
    if e.HandlerReturns? {
      ReturnsAnswer(s, h, e.answer);
    } else if e.TakeAnswer? {
      TakesAnswer(s, h);
    } else if e.GiveUp? {
      GivesUpAnswer(s, h);
    } else if e.CheckNext? {
      ChecksAnswer(s, h);
    } else if e.ExpireResponse? || e.ExpireNext? {
      ExpiresAnswer(s, h, e);
    } else {
      CallsLeaveAnswer(s, h, e);
      AnswerFrame(s, Step(s, e), h, h.After(e));
    }
  }

  lemma {:induction false} RunFollows(serverScope: bool, usable: bool, es: seq<Event>)
    ensures Follows(Run(Init(serverScope, usable), es), Happened(serverScope, usable, es))
  {
    if es != [] {
      var init, e := es[..|es| - 1], es[|es| - 1];
      var s, h := Run(Init(serverScope, usable), init), Happened(serverScope, usable, init);
      RunFollows(serverScope, usable, init);
      Reachable(serverScope, usable, init);
      if Enabled(s, e) {
        SendsStep(s, h, e);
        NextsStep(s, h, e);
        AnswerStep(s, h, e);
      }
    }
  }

  /** The result of a dispatch: the end of the context if it gave up; ErrNextErrorHandlerIncomplete if
      and only if a call of `next` was running when it looked after the handler's return; otherwise
      exactly what the handler returned. */
  lemma AnswerExact(serverScope: bool, usable: bool, es: seq<Event>)
    requires Decided(Run(Init(serverScope, usable), es).main)
    ensures var s, h := Run(Init(serverScope, usable), es), Happened(serverScope, usable, es);
      if h.gaveUp then s.main.answer == Answer(false, Some(ContextCause))
      else
        && h.running.Some? && h.handled.Some?
        && (h.running.value ==> s.main.answer == Answer(false, Some(NextIncomplete)))
        && (!h.running.value ==> s.main.answer == h.handled.value)
  {
    RunFollows(serverScope, usable, es);
  }

  /** Every call of the responder and of `next` is told what its turn calls for. */
  lemma CallsTold(serverScope: bool, usable: bool, es: seq<Event>)
    ensures var s, h := Run(Init(serverScope, usable), es), Happened(serverScope, usable, es);
      s.sendVerdicts == h.sends && s.nextVerdicts == h.nexts
  {
    RunFollows(serverScope, usable, es);
  }

  /** What is remembered of the response and of `next`: the first call's wish to close, what the
      responder returned, and what the default action returned. */
  lemma ResultsKept(serverScope: bool, usable: bool, es: seq<Event>)
    ensures var s, h := Run(Init(serverScope, usable), es), Happened(serverScope, usable, es);
      && (h.close.Some? ==> s.response.close == h.close.value)
      && (h.responded.Some? ==> s.response.complete && s.response.err == h.responded.value)
      && (s.next.complete <==> h.nextDone.Some?)
      && (s.next.complete ==> h.nextDone == Some(Answer(s.next.canContinue, s.next.err)))
  {
    RunFollows(serverScope, usable, es);
  }
}
