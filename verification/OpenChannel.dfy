/** openForwardedChannel: retrying a channel open while the caller, the forward or a timer may
    give up at any moment (tcpip.go:428-511). Each attempt runs in its own goroutine and hands
    its result over an unbuffered channel. */
module OpenChannel {
  import opened Prelude

  /** `Race` is the client's "no forward for address", the only error that is retried. */
  datatype Result = Ok | Race | OtherError

  datatype Attempt =
    | Started
    | Opening
    | Holding(result: Result)   // has its result, nobody took it yet
    | HandedOver(result: Result)
    | Discarded(closed: bool)   // gave up; `closed` if it had a channel to close

  datatype Pc =
    | Check
    | Select                    // waits for the newest attempt
    | Grace                     // the forward is done; still waits for that attempt
    | RetryWait
    | Returned(channel: Option<nat>)

  datatype State = State(
    pc: Pc,
    attempts: seq<Attempt>,
    abandoned: set<nat>,
    delay: nat,
    contextDone: bool,
    forwardDone: bool,
    timedOut: bool)

  const Init: State := State(Check, [], {}, 1, false, false, false)

  datatype Event =
    | EndContext
    | EndForward
    | FireTimeout
    | Begin
    | AttemptStart(i: nat)
    | AttemptResult(i: nat, r: Result)
    | HandOver
    | GiveUpOnContext
    | NoticeForwardDone
    | GiveUpOnTimeout
    | StopRetrying
    | RetryFires
    | Discard(i: nat)

  function Newest(s: State): int {
    |s.attempts| - 1
  }

  predicate Waiting(s: State) {
    (s.pc.Select? || s.pc.Grace?) && |s.attempts| > 0
  }

  predicate Enabled(s: State, e: Event) {
    match e
    case EndContext => true
    case EndForward => true
    case FireTimeout => true
    case Begin => s.pc.Check?
    case AttemptStart(i) => i < |s.attempts| && s.attempts[i].Started?
    case AttemptResult(i, _) => i < |s.attempts| && s.attempts[i].Opening?
    case HandOver => Waiting(s) && s.attempts[Newest(s)].Holding?
    case GiveUpOnContext => Waiting(s) && s.contextDone
    case NoticeForwardDone => s.pc.Select? && s.forwardDone
    case GiveUpOnTimeout => Waiting(s) && s.timedOut
    case StopRetrying => s.pc.RetryWait? && (s.contextDone || s.forwardDone || s.timedOut)
    case RetryFires => s.pc.RetryWait?
    case Discard(i) => i < |s.attempts| && s.attempts[i].Holding? && i in s.abandoned
  }

  function Abandon(s: State): State
    requires Waiting(s)
  {
    s.(abandoned := s.abandoned + {Newest(s)}, pc := Returned(None))
  }

  function HandOverStep(s: State): State
    requires Enabled(s, HandOver)
  {
    var i := Newest(s);
    var r := s.attempts[i].result;
    var t := s.(attempts := s.attempts[i := HandedOver(r)]);
    match r
    case Ok => t.(pc := Returned(Some(i)))
    case OtherError => t.(pc := Returned(None))
    case Race => t.(pc := if s.pc.Grace? then Returned(None) else RetryWait)
  }

  function Step(s: State, e: Event): State
    requires Enabled(s, e)
  {
    match e
    case EndContext => s.(contextDone := true)
    case EndForward => s.(forwardDone := true)
    case FireTimeout => s.(timedOut := true)
    case Begin =>
      if s.contextDone || s.forwardDone then s.(pc := Returned(None))
      else s.(attempts := s.attempts + [Started], pc := Select)
    case AttemptStart(i) =>
      s.(attempts := s.attempts[i := if i in s.abandoned then Discarded(false) else Opening])
    case AttemptResult(i, r) => s.(attempts := s.attempts[i := Holding(r)])
    case HandOver => HandOverStep(s)
    case GiveUpOnContext => Abandon(s)
    case NoticeForwardDone => s.(pc := Grace)
    case GiveUpOnTimeout => Abandon(s)
    case StopRetrying => s.(pc := Returned(None))
    case RetryFires => s.(delay := NextDelay(s.delay), pc := Check)
    case Discard(i) => s.(attempts := s.attempts[i := Discarded(s.attempts[i].result.Ok?)])
  }

  /** In milliseconds: doubled until 50 is reached. */
  function NextDelay(delay: nat): nat {
    if delay < 50 then delay * 2 else delay
  }

  function Run(s: State, es: seq<Event>): State {
    if es == [] then s
    else
      var t := Run(s, es[..|es| - 1]);
      if Enabled(t, es[|es| - 1]) then Step(t, es[|es| - 1]) else t
  }

  // ---------------------------------------------------------------- the fate of a channel

  /** A channel was opened by attempt `i`. */
  predicate Opened(a: Attempt) {
    || (a.Holding? && a.result.Ok?)
    || (a.HandedOver? && a.result.Ok?)
    || (a.Discarded? && a.closed)
  }

  predicate Closed(a: Attempt) {
    a.Discarded? && a.closed
  }

  predicate Unfinished(a: Attempt) {
    a.Started? || a.Opening? || a.Holding?
  }

  ghost predicate Fate(s: State) {
    && (forall i :: 0 <= i < Newest(s) ==> s.attempts[i] == HandedOver(Race))
    && (s.pc.Select? || s.pc.Grace? ==> |s.attempts| > 0 && Unfinished(s.attempts[Newest(s)]))
    && (s.pc.Check? || s.pc.RetryWait? ==> forall i :: 0 <= i < |s.attempts| ==> s.attempts[i] == HandedOver(Race))
    && (forall i :: i in s.abandoned ==> s.pc == Returned(None) && i == Newest(s))
    && (forall i :: 0 <= i < |s.attempts| && s.attempts[i].Discarded? ==> i in s.abandoned)
    && (s.pc.Returned? ==> forall i :: 0 <= i < |s.attempts| && Unfinished(s.attempts[i]) ==> i in s.abandoned)
    && (s.pc.Returned? && s.pc.channel.Some? ==>
          s.pc.channel.value == Newest(s) && s.attempts[s.pc.channel.value] == HandedOver(Ok))
    && (forall i :: 0 <= i < |s.attempts| && s.attempts[i] == HandedOver(Ok) ==> s.pc == Returned(Some(i)))
  }

  ghost predicate Inv(s: State) {
    Fate(s) && exists k :: DelayIs(s.delay, k)
  }

  function Pow2(k: nat): nat {
    if k == 0 then 1 else 2 * Pow2(k - 1)
  }

  predicate DelayIs(delay: nat, k: nat) {
    k <= 6 && delay == Pow2(k)
  }

  lemma DelayStep(delay: nat, k: nat)
    requires DelayIs(delay, k)
    ensures exists j :: DelayIs(NextDelay(delay), j)
  {
    PowersBelow(k);
    if k < 6 {
      assert Pow2(k + 1) == 2 * Pow2(k);
      assert DelayIs(NextDelay(delay), k + 1);
    } else {
      assert DelayIs(NextDelay(delay), k);
    }
  }

  lemma PowersBelow(k: nat)
    requires k <= 6
    ensures Pow2(k) < 50 <==> k < 6
  {
    assert Pow2(0) == 1 && Pow2(1) == 2 && Pow2(2) == 4 && Pow2(3) == 8;
    assert Pow2(4) == 16 && Pow2(5) == 32 && Pow2(6) == 64;
  }

  predicate AttemptEvent(e: Event) {
    e.AttemptStart? || e.AttemptResult? || e.Discard? || e.EndContext? || e.EndForward? || e.FireTimeout?
  }

  lemma AttemptFate(s: State, e: Event)
    requires Fate(s) && Enabled(s, e) && AttemptEvent(e)
    ensures Fate(Step(s, e))
  {
  }

  lemma CallerFate(s: State, e: Event)
    requires Fate(s) && Enabled(s, e) && !AttemptEvent(e) && !e.HandOver?
    ensures Fate(Step(s, e))
  {
  }

  /** The newest attempt has been answered and the caller moves on. */
  lemma AnsweredFate(s: State, r: Result, pc: Pc)
    requires Fate(s) && Waiting(s)
    requires r == Ok ==> pc == Returned(Some(Newest(s)))
    requires r == OtherError ==> pc == Returned(None)
    requires r == Race ==> pc == Returned(None) || pc == RetryWait
    ensures Fate(s.(attempts := s.attempts[Newest(s) := HandedOver(r)], pc := pc))
  {
    assert s.abandoned == {};
  }

  lemma HandOverFate(s: State)
    requires Fate(s) && Enabled(s, HandOver)
    ensures Fate(HandOverStep(s))
  {
    AnsweredFate(s, s.attempts[Newest(s)].result, HandOverStep(s).pc);
  }

  lemma StepKeepsInv(s: State, e: Event)
    requires Inv(s) && Enabled(s, e)
    ensures Inv(Step(s, e))
  {
    if AttemptEvent(e) {
      AttemptFate(s, e);
    } else if e.HandOver? {
      HandOverFate(s);
    } else {
      CallerFate(s, e);
    }
    var k :| DelayIs(s.delay, k);
    DelayStep(s.delay, k);
    DelayMoves(s, e);
  }

  lemma DelayMoves(s: State, e: Event)
    requires Enabled(s, e)
    ensures Step(s, e).delay == if e.RetryFires? then NextDelay(s.delay) else s.delay
  {
  }

  lemma {:induction false} Reachable(es: seq<Event>)
    ensures Inv(Run(Init, es))
  {
    if es == [] {
      assert DelayIs(1, 0);
    } else {
      Reachable(es[..|es| - 1]);
      var t, e := Run(Init, es[..|es| - 1]), es[|es| - 1];
      if Enabled(t, e) {
        StepKeepsInv(t, e);
      }
    }
  }

  /** Once openForwardedChannel has returned, each channel any attempt opened is either the one
      returned, or closed, or in the hands of an abandoned attempt whose only next step closes
      it: never two of these and never none. */
  lemma ReturnedOrClosed(es: seq<Event>, i: nat)
    requires var s := Run(Init, es); s.pc.Returned? && i < |s.attempts| && Opened(s.attempts[i])
    ensures var s := Run(Init, es); var a := s.attempts[i];
      && (s.pc.channel == Some(i) <==> a == HandedOver(Ok))
      && (s.pc.channel != Some(i) ==> Closed(a) || (Enabled(s, Discard(i)) && Closed(Step(s, Discard(i)).attempts[i])))
      && (s.pc.channel == Some(i) ==> !Closed(a) && !Enabled(s, Discard(i)))
  {
    Reachable(es);
  }

  /** A returned channel is one that was opened, and a return is final: nothing is handed over
      or closed for it later. */
  lemma ReturnIsFinal(es: seq<Event>, e: Event)
    requires Run(Init, es).pc.Returned? && Enabled(Run(Init, es), e)
    ensures var s := Run(Init, es); var t := Step(s, e);
      && t.pc == s.pc
      && (s.pc.channel.Some? ==> s.pc.channel.value < |t.attempts| && t.attempts[s.pc.channel.value] == HandedOver(Ok))
  {
    Reachable(es);
  }

  /** While the call is still going on no opened channel has been lost: it is in the hands of the
      newest attempt, which can hand it over. */
  lemma NothingLostBeforeReturn(es: seq<Event>, i: nat)
    requires var s := Run(Init, es); !s.pc.Returned? && i < |s.attempts| && Opened(s.attempts[i])
    ensures var s := Run(Init, es); i == Newest(s) && s.attempts[i] == Holding(Ok) && Enabled(s, HandOver)
  {
    Reachable(es);
  }

  /** The retry delay is a power of two and at most 64 ms. */
  lemma DelayBounded(es: seq<Event>)
    ensures exists k :: k <= 6 && Run(Init, es).delay == Pow2(k)
    ensures Run(Init, es).delay <= 64
  {
    Reachable(es);
    var k :| DelayIs(Run(Init, es).delay, k);
    PowersBelow(k);
    assert Pow2(0) == 1 && Pow2(1) == 2 && Pow2(2) == 4 && Pow2(3) == 8;
    assert Pow2(4) == 16 && Pow2(5) == 32 && Pow2(6) == 64;
  }

  // ---------------------------------------------------------------- attempts left behind

  /** The caller gives up on an attempt that it no longer waits for (tcpip.go:463-466, 470-485). */
  predicate GivesUp(e: Event) {
    e.GiveUpOnContext? || e.GiveUpOnTimeout?
  }

  predicate LeftBehind(s: State, i: nat) {
    i < |s.attempts| && Unfinished(s.attempts[i])
  }

  ghost predicate Abandoned(s: State) {
    && (s.abandoned != {} ==> s.contextDone || s.timedOut)
    && (forall i :: i in s.abandoned ==> 0 <= i < |s.attempts| && s.pc == Returned(None))
  }

  lemma AbandonedStep(s: State, e: Event)
    requires Fate(s) && Abandoned(s) && Enabled(s, e)
    ensures Abandoned(Step(s, e))
  {
  }

  lemma {:induction false} AbandonedReason(es: seq<Event>)
    ensures Abandoned(Run(Init, es))
  {
    if es != [] {
      AbandonedReason(es[..|es| - 1]);
      Reachable(es[..|es| - 1]);
      var t, e := Run(Init, es[..|es| - 1]), es[|es| - 1];
      if Enabled(t, e) {
        AbandonedStep(t, e);
      }
    }
  }

  /** An attempt that is still at work after the return is the newest one, was given up because of
      the timeout or the end of the context, and belongs to a call that returned no channel. */
  lemma LeftBehindWasGivenUp(es: seq<Event>, i: nat)
    requires Run(Init, es).pc.Returned? && LeftBehind(Run(Init, es), i)
    ensures var s := Run(Init, es);
      i == Newest(s) && i in s.abandoned && s.pc == Returned(None) && (s.contextDone || s.timedOut)
  {
    Reachable(es);
    AbandonedReason(es);
  }

  /** A return leaves an attempt behind exactly if it is one of these two. */
  lemma ReturnLeavesBehindIff(es: seq<Event>, e: Event)
    requires !Run(Init, es).pc.Returned? && Enabled(Run(Init, es), e) && Step(Run(Init, es), e).pc.Returned?
    ensures (exists i: nat :: LeftBehind(Step(Run(Init, es), e), i)) <==> GivesUp(e)
  {
    Reachable(es);
    var s := Run(Init, es);
    var t := Step(s, e);
    if GivesUp(e) {
      assert LeftBehind(t, Newest(s));
    } else {
      NothingLeftBehind(s, e);
    }
  }

  lemma NothingLeftBehind(s: State, e: Event)
    requires Fate(s) && !s.pc.Returned? && Enabled(s, e) && Step(s, e).pc.Returned? && !GivesUp(e)
    ensures forall i: nat :: !LeftBehind(Step(s, e), i)
  {
  }

  /** Runs one more event. */
  lemma Then(es: seq<Event>, e: Event, t: State) returns (next: seq<Event>)
    requires Enabled(Run(Init, es), e) && Step(Run(Init, es), e) == t
    ensures Run(Init, next) == t
  {
    next := es + [e];
    assert next[..|es|] == es;
  }

  /** An attempt is under way when the forward is closed. */
  lemma ClosedMeanwhile() returns (es: seq<Event>)
    ensures Run(Init, es) == Init.(attempts := [Opening], pc := Grace, forwardDone := true)
  {
    var a := Init.(attempts := [Started], pc := Select);
    es := Then([], Begin, a);
    es := Then(es, AttemptStart(0), a.(attempts := [Opening]));
    var b := a.(attempts := [Opening], forwardDone := true);
    es := Then(es, EndForward, b);
    es := Then(es, NoticeForwardDone, b.(pc := Grace));
  }

  /** The witness: the forward is closed, the call has returned without a channel, and its attempt
      may still be answered with one. */
  lemma AttemptOutlivesReturn() returns (es: seq<Event>)
    ensures var s := Run(Init, es);
      s.forwardDone && s.pc == Returned(None) && s.attempts == [Opening] && Enabled(s, AttemptResult(0, Ok))
  {
    es := ClosedMeanwhile();
    var t := Run(Init, es).(timedOut := true);
    es := Then(es, FireTimeout, t);
    es := Then(es, GiveUpOnTimeout, Abandon(t));
  }

  // ---------------------------------------------------------------- when all is done

  /** When the call has returned and every attempt's goroutine has finished, each channel that was
      opened has been returned or closed, one of the two. */
  lemma SettledReturnedOrClosed(es: seq<Event>, i: nat)
    requires var s := Run(Init, es);
      && s.pc.Returned? && i < |s.attempts| && Opened(s.attempts[i])
      && forall j :: 0 <= j < |s.attempts| ==> !Unfinished(s.attempts[j])
    ensures var s := Run(Init, es); s.pc.channel == Some(i) <==> !Closed(s.attempts[i])
  {
    ReturnedOrClosed(es, i);
  }
}
