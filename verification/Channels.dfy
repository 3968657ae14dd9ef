/** The answer to a channel open: the wrapper that lets it be given only once, and the worker that
    sees to it that it is given (server.go:77-168, 1069-1152). */
module Channels {
  import opened Prelude

  datatype Error = Failed | AlreadySent | Incomplete

  /** trackedNewChannel under its mutex; `accepted` says that its channel is stored there. */
  datatype Tracked = Tracked(attempted: bool, complete: bool, err: bool, accepted: bool)
  {
    function Begin(): Tracked {
      this.(attempted := true)
    }

    function Complete(failed: bool, isAccept: bool): Tracked {
      this.(complete := true, err := failed, accepted := accepted || (isAccept && !failed))
    }

    function TakeAccepted(): Tracked {
      this.(accepted := false)
    }

    predicate Troubled() {
      (attempted && !complete) || err
    }
  }

  class TrackedNewChannel {
    var answerAttempted: bool
    var answerComplete: bool
    var answerErr: bool
    var accepted: bool

    function View(): Tracked
      reads this
    {
      Tracked(answerAttempted, answerComplete, answerErr, accepted)
    }

    constructor ()
      ensures View() == Tracked(false, false, false, false)
    {
      answerAttempted, answerComplete, answerErr, accepted := false, false, false, false;
    }

    method BeginAnswer() returns (first: bool)
      modifies this`answerAttempted
      ensures first == !old(answerAttempted) && View() == old(View()).Begin()
    {
      if answerAttempted {
        return false;
      }
      answerAttempted := true;
      return true;
    }

    method CompleteAccept(failed: bool)
      modifies this
      ensures View() == old(View()).Complete(failed, true)
    {
      answerComplete := true;
      answerErr := failed;
      if !failed {
        accepted := true;
      }
    }

    method CompleteAnswer(failed: bool)
      modifies this
      ensures View() == old(View()).Complete(failed, false)
    {
      answerComplete := true;
      answerErr := failed;
    }

    /** `taken` says whether the caller has a channel to close. */
    method TakeAccepted() returns (taken: bool)
      modifies this`accepted
      ensures taken == old(accepted) && View() == old(View()).TakeAccepted()
    {
      taken := accepted;
      accepted := false;
    }

    method AnswerResult() returns (attempted: bool, err: Option<Error>)
      ensures attempted == answerAttempted
      ensures err.Some? <==> View().Troubled()
    {
      if answerAttempted && !answerComplete {
        return true, Some(Incomplete);
      }
      return answerAttempted, if answerErr then Some(Failed) else None;
    }
  }

  // ---------------------------------------------------------------- the worker and its company

  /** The one call of the underlying Accept or Reject that is under way. */
  datatype Answering = Nobody | ByHandler(isAccept: bool) | ByResponder | ByWorker

  /** The error handler's responder: entered once, its goroutine may come late. */
  datatype Responder = Unused | OnItsWay | Rejecting | Done(unsupported: bool, failed: bool)
  {
    predicate Troubled() {
      OnItsWay? || Rejecting? || (Done? && failed && !unsupported)
    }
  }

  datatype Worker =
    | Handling
    | Judging(failed: bool)
    | Dispatching
    | CheckingResponse(ok: bool)
    | RejectingUnhandled(ok: bool)
    | CheckingAnswer(ok: bool, responseTroubled: bool)
    | Closing
    | Finished

  /** `answers` counts calls of the underlying Accept and Reject; `established` says that a channel came
      out of it, `channelClosed` that closeAccepted has closed it. */
  datatype State = State(
    tracked: Tracked,
    worker: Worker,
    answering: Answering,
    responder: Responder,
    answers: nat,
    established: bool,
    channelClosed: bool,
    connectionClosed: bool)

  const Init: State := State(Tracked(false, false, false, false), Handling, Nobody, Unused, 0, false, false, false)

  datatype Event =
    | CallAnswer(isAccept: bool)
    | FinishAnswer(failed: bool)
    | HandlerReturns(failed: bool)
    | Judge
    | EnterResponder
    | RespondBegins
    | DispatchReturns(canContinue: bool, failed: bool)
    | CheckResponse
    | CheckAnswer
    | CloseAccepted

  predicate Enabled(s: State, e: Event) {
    match e
    case CallAnswer(_) => true
    case FinishAnswer(_) => !s.answering.Nobody?
    case HandlerReturns(_) => s.worker.Handling?
    case Judge => s.worker.Judging?
    case EnterResponder => s.worker.Dispatching? && s.responder.Unused?
    case RespondBegins => s.responder.OnItsWay?
    case DispatchReturns(_, _) => s.worker.Dispatching?
    case CheckResponse => s.worker.CheckingResponse?
    case CheckAnswer => s.worker.CheckingAnswer?
    case CloseAccepted => s.worker.Closing?
  }

  /** Through the gate of beginAnswer, or not. */
  function BeginStep(s: State, a: Answering): State {
    if s.tracked.attempted then s
    else s.(tracked := s.tracked.Begin(), answering := a, answers := s.answers + 1)
  }

  function FinishStep(s: State, failed: bool): State {
    var isAccept := s.answering.ByHandler? && s.answering.isAccept;
    s.(tracked := s.tracked.Complete(failed, isAccept),
       answering := Nobody,
       established := s.established || (isAccept && !failed),
       responder := if s.answering.ByResponder? then Done(false, failed) else s.responder,
       worker := if s.answering.ByWorker? && s.worker.RejectingUnhandled?
                 then CheckingAnswer(s.worker.ok, false) else s.worker)
  }

  function Close(s: State, troubled: bool): State {
    s.(worker := Closing, connectionClosed := s.connectionClosed || troubled)
  }

  function JudgeStep(s: State): State
    requires s.worker.Judging?
  {
    if s.worker.failed || !s.tracked.attempted then s.(worker := Dispatching)
    else Close(s, s.tracked.Troubled())
  }

  function CheckResponseStep(s: State): State
    requires s.worker.CheckingResponse?
  {
    if !s.responder.Unused? then s.(worker := CheckingAnswer(s.worker.ok, s.responder.Troubled()))
    else if s.tracked.attempted then s.(worker := CheckingAnswer(s.worker.ok, false))
    else BeginStep(s, ByWorker).(worker := RejectingUnhandled(s.worker.ok))
  }

  function Step(s: State, e: Event): State
    requires Enabled(s, e)
  {
    match e
    case CallAnswer(isAccept) => BeginStep(s, ByHandler(isAccept))
    case FinishAnswer(failed) => FinishStep(s, failed)
    case HandlerReturns(failed) => s.(worker := Judging(failed))
    case Judge => JudgeStep(s)
    case EnterResponder => s.(responder := OnItsWay)
    case RespondBegins =>
      if s.tracked.attempted then s.(responder := Done(true, true))
      else BeginStep(s, ByResponder).(responder := Rejecting)
    case DispatchReturns(canContinue, failed) => s.(worker := CheckingResponse(canContinue && !failed))
    case CheckResponse => CheckResponseStep(s)
    case CheckAnswer => Close(s, s.tracked.Troubled() || !s.worker.ok || s.worker.responseTroubled)
    case CloseAccepted =>
      s.(worker := Finished, tracked := s.tracked.TakeAccepted(), channelClosed := s.channelClosed || s.tracked.accepted)
  }

  function Run(s: State, es: seq<Event>): State {
    if es == [] then s
    else
      var t := Run(s, es[..|es| - 1]);
      if Enabled(t, es[|es| - 1]) then Step(t, es[|es| - 1]) else t
  }

  // ---------------------------------------------------------------- the invariant

  predicate AnswerInv(s: State) {
    && s.answers == One(s.tracked.attempted)
    && (s.tracked.attempted <==> s.tracked.complete || !s.answering.Nobody?)
    && (s.tracked.complete ==> s.answering.Nobody?)
    && (!s.tracked.complete ==> !s.tracked.err && !s.tracked.accepted && !s.established)
    && (s.established ==> s.tracked.accepted || s.worker.Finished?)
  }

  predicate ThreadsInv(s: State) {
    && (s.responder.Rejecting? <==> s.answering.ByResponder?)
    && (s.worker.RejectingUnhandled? <==> s.answering.ByWorker?)
    && (s.responder.Done? ==> s.tracked.attempted)
    && (s.worker.Handling? || s.worker.Judging? ==> s.responder.Unused?)
    && (s.worker.CheckingAnswer? && !s.worker.responseTroubled ==> s.tracked.attempted)
  }

  predicate ClosedInv(s: State) {
    s.worker.Closing? && !s.connectionClosed ==> s.tracked.attempted && s.tracked.complete && !s.tracked.err
  }

  predicate FinishedInv(s: State) {
    s.worker.Finished? && !s.connectionClosed ==>
      && s.tracked.attempted && s.tracked.complete && !s.tracked.err
      && (s.established ==> s.channelClosed)
  }

  predicate Inv(s: State) {
    AnswerInv(s) && ThreadsInv(s) && ClosedInv(s) && FinishedInv(s)
  }

  lemma StepKeepsInv(s: State, e: Event)
    requires Inv(s) && Enabled(s, e)
    ensures Inv(Step(s, e))
  {
  }

  lemma {:induction false} Reachable(es: seq<Event>)
    ensures Inv(Run(Init, es))
  {
    if es != [] {
      Reachable(es[..|es| - 1]);
      var t, e := Run(Init, es[..|es| - 1]), es[|es| - 1];
      if Enabled(t, e) {
        StepKeepsInv(t, e);
      }
    }
  }

  /** However many goroutines answer, respond or come late, the peer gets at most one answer. */
  lemma AnsweredAtMostOnce(es: seq<Event>)
    ensures var s := Run(Init, es); s.answers == One(s.tracked.attempted) <= 1
  {
    Reachable(es);
  }

  /** Once the worker is through, the channel open has been answered without error and a channel it
      established is closed, or else the whole connection is closed. */
  lemma AnsweredAndClosed(es: seq<Event>)
    requires Run(Init, es).worker.Finished?
    ensures var s := Run(Init, es);
      s.connectionClosed
      || (s.answers == 1 && s.tracked.complete && !s.tracked.err && (s.established ==> s.channelClosed))
  {
    Reachable(es);
  }
}
