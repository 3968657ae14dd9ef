/** Who answers a channel open, what comes of it, and when its connection has to be closed, read off
    what the handler, the error handler and the underlying answers did (server.go:77-168, 1069-1152). */
module ChannelOutcomes {
  import opened Prelude
  import opened Channels

  datatype Answerer = Accepter | Rejecter | TheResponder | TheWorker

  /** `first` is who answered first and `failure` whether that answer failed; `entered` and `begun` say
      how far the responder has come. */
  datatype History = History(
    first: Option<Answerer>,
    failure: Option<bool>,
    handlerFailed: bool,
    entered: bool,
    begun: bool,
    dispatched: bool,
    ok: bool,
    responseTroubled: bool,
    mustClose: bool,
    finished: bool,
    channelClosed: bool)
  {
    function Answers(who: Answerer): History {
      if first.None? then this.(first := Some(who)) else this
    }

    /** Nobody has answered, or not to the end, or with an error. */
    predicate Unanswered() {
      first.None? || failure != Some(false)
    }

    /** The responder is on its way, or its own answer is not through or has failed. */
    predicate ResponderTroubled() {
      entered && (!begun || (first == Some(TheResponder) && failure != Some(false)))
    }

    function After(e: Event): History {
      match e
      case CallAnswer(isAccept) => Answers(if isAccept then Accepter else Rejecter)
      case FinishAnswer(failed) => this.(failure := Some(failed))
      case HandlerReturns(failed) => this.(handlerFailed := failed)
      case Judge =>
        var consult := handlerFailed || first.None?;
        this.(dispatched := consult, mustClose := !consult && Unanswered())
      case EnterResponder => this.(entered := true)
      case RespondBegins => Answers(TheResponder).(begun := true)
      case DispatchReturns(canContinue, failed) => this.(ok := canContinue && !failed)
      case CheckResponse => if entered then this.(responseTroubled := ResponderTroubled()) else Answers(TheWorker)
      case CheckAnswer => this.(mustClose := Unanswered() || !ok || responseTroubled)
      case CloseAccepted => this.(finished := true, channelClosed := first == Some(Accepter) && failure == Some(false))
    }
  }

  /** What happened in a run; events that were not enabled did not happen. */
  function Happened(es: seq<Event>): History {
    if es == [] then History(None, None, false, false, false, false, true, false, false, false, false)
    else
      var init, e := es[..|es| - 1], es[|es| - 1];
      if Enabled(Run(Init, init), e) then Happened(init).After(e) else Happened(init)
  }

  predicate IsBy(a: Answering, who: Answerer) {
    match a
    case Nobody => false
    case ByHandler(isAccept) => who == if isAccept then Accepter else Rejecter
    case ByResponder => who == TheResponder
    case ByWorker => who == TheWorker
  }

  predicate AnswerFits(s: State, h: History) {
    && (s.tracked.attempted <==> h.first.Some?)
    && (s.tracked.complete <==> h.failure.Some?) && (h.failure.Some? ==> h.first.Some?)
    && (h.failure.Some? ==> s.tracked.err == h.failure.value)
    && (!s.answering.Nobody? ==> h.first.Some? && h.failure.None? && IsBy(s.answering, h.first.value))
    && (s.answering.Nobody? ==> (h.first.Some? <==> h.failure.Some?))
    && (s.established <==> h.first == Some(Accepter) && h.failure == Some(false))
    && s.channelClosed == h.channelClosed && (s.channelClosed ==> s.established)
    && (s.tracked.accepted <==> s.established && !s.channelClosed)
  }

  predicate ResponderFits(s: State, h: History) {
    && (s.responder.Unused? <==> !h.entered)
    && (s.responder.OnItsWay? <==> h.entered && !h.begun)
    && (s.responder.Rejecting? ==> h.begun && h.first == Some(TheResponder) && h.failure.None?)
    && (s.responder.Done? ==> h.begun)
    && (s.responder.Done? ==>
          if s.responder.unsupported then h.first != Some(TheResponder)
          else h.first == Some(TheResponder) && h.failure == Some(s.responder.failed))
    && (h.begun ==> h.entered) && (!h.begun ==> h.first != Some(TheResponder))
  }

  predicate WorkerFits(s: State, h: History) {
    && (s.worker.Judging? ==> s.worker.failed == h.handlerFailed)
    && (s.worker.CheckingResponse? || s.worker.RejectingUnhandled? || s.worker.CheckingAnswer? ==> s.worker.ok == h.ok)
    && (s.worker.CheckingAnswer? ==> s.worker.responseTroubled == h.responseTroubled)
    && (s.worker.CheckingResponse? || s.worker.RejectingUnhandled? || s.worker.Dispatching? ==> !h.responseTroubled)
    && (s.worker.Handling? || s.worker.Judging? ==> !h.responseTroubled)
    && (s.worker.Dispatching? ==> h.dispatched)
    && (s.connectionClosed <==> h.mustClose)
    && (!s.worker.Closing? && !s.worker.Finished? ==> !h.mustClose)
    && (s.worker.Finished? <==> h.finished) && (h.channelClosed ==> h.finished)
  }

  predicate Fits(s: State, h: History) {
    AnswerFits(s, h) && ResponderFits(s, h) && WorkerFits(s, h)
  }

  lemma AnswerStep(s: State, h: History, e: Event)
    requires Fits(s, h) && Inv(s) && Enabled(s, e)
    ensures AnswerFits(Step(s, e), h.After(e))
  {
  }

  lemma ResponderStep(s: State, h: History, e: Event)
    requires Fits(s, h) && Inv(s) && Enabled(s, e)
    ensures ResponderFits(Step(s, e), h.After(e))
  {
  }

  lemma WorkerStep(s: State, h: History, e: Event)
    requires Fits(s, h) && Inv(s) && Enabled(s, e)
    ensures WorkerFits(Step(s, e), h.After(e))
  {
  }

  lemma {:induction false} RunFits(es: seq<Event>)
    ensures Fits(Run(Init, es), Happened(es))
  {
    if es != [] {
      var init, e := es[..|es| - 1], es[|es| - 1];
      var s, h := Run(Init, init), Happened(init);
      RunFits(init);
      Reachable(init);
      if Enabled(s, e) {
        AnswerStep(s, h, e);
        ResponderStep(s, h, e);
        WorkerStep(s, h, e);
      }
    }
  }

  /** The answer is that of whoever came first, and a channel exists exactly if it was an acceptance that
      went well; it is closed by the worker exactly if it existed then. */
  lemma FirstAnswerCounts(es: seq<Event>)
    ensures var s, h := Run(Init, es), Happened(es);
      && (s.tracked.attempted <==> h.first.Some?) && (s.tracked.complete <==> h.failure.Some?)
      && (h.failure.Some? ==> s.tracked.err == h.failure.value)
      && (s.established <==> h.first == Some(Accepter) && h.failure == Some(false))
      && s.channelClosed == h.channelClosed
  {
    RunFits(es);
  }

  /** The worker closes the connection exactly if, when it last looked, the open was not answered to the
      end and without error, its error handler did not let it go on, or the response was in trouble. */
  lemma ConnectionClosedIff(es: seq<Event>)
    ensures Run(Init, es).connectionClosed <==> Happened(es).mustClose
  {
    RunFits(es);
  }
}
