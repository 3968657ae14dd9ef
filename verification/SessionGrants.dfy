/** What a session's request loop grants. A request is entitled to its answer by what it carries and by
    what was granted before it, and by nothing else; the answers of every run are exactly that
    (session.go:851-1103). */
module SessionGrants {
  import opened Prelude
  import opened SessionLoop

  /** A request that was answered. */
  datatype Logged = Logged(req: Request, accepted: bool)

  // ---------------------------------------------------------------- what a request is entitled to

  predicate Begins(k: Kind) {
    k.Shell? || k.Exec? || k.Subsystem?
  }

  predicate Permitted(c: Callback) {
    c.NoCallback? || c.Allow?
  }

  /** A program has been accepted. */
  ghost predicate HasProgram(log: seq<Logged>) {
    exists i :: 0 <= i < |log| && log[i].accepted && Begins(log[i].req.kind)
  }

  ghost predicate HasPty(log: seq<Logged>) {
    exists i :: 0 <= i < |log| && log[i].accepted && log[i].req.kind.PtyRequest?
  }

  function EnvSize(x: Logged): nat {
    if x.accepted && x.req.kind.Env? then x.req.kind.keyLength + 1 + x.req.kind.valueLength else 0
  }

  function EnvCount(log: seq<Logged>): nat {
    if log == [] then 0
    else EnvCount(log[..|log| - 1]) + One(log[|log| - 1].accepted && log[|log| - 1].req.kind.Env?)
  }

  function EnvBytes(log: seq<Logged>): nat {
    if log == [] then 0 else EnvBytes(log[..|log| - 1]) + EnvSize(log[|log| - 1])
  }

  /** Whether the acceptance of a program could be written. */
  predicate Written(r: Request, decided: Option<Decision>) {
    if r.kind.Subsystem? && r.registered.Deferred? then decided == Some(Accept(true)) else r.replyOk
  }

  /** The programs accepted with a reply that went out. */
  function StartCount(log: seq<Logged>, decided: Option<Decision>): nat {
    if log == [] then 0
    else
      var x := log[|log| - 1];
      StartCount(log[..|log| - 1], decided) + One(x.accepted && Begins(x.req.kind) && Written(x.req, decided))
  }

  /** Whether a handler can run the program. */
  predicate Runnable(r: Request) {
    match r.kind
    case Shell => r.registered.Plain?
    case Exec => r.registered.Plain? && r.wellFormed
    case Subsystem => !r.registered.NoHandler? && r.wellFormed
    case _ => false
  }

  ghost predicate Entitled(before: seq<Logged>, r: Request) {
    match r.kind
    case Shell => !HasProgram(before) && Runnable(r) && Permitted(r.callback)
    case Exec => !HasProgram(before) && Runnable(r) && Permitted(r.callback)
    case Subsystem => !HasProgram(before) && Runnable(r) && Permitted(r.callback)
    case Env(k, v) =>
      !HasProgram(before) && r.wellFormed && EnvCount(before) < 128 && EnvBytes(before) + k + 1 + v <= 65536
    case PtyRequest => !HasProgram(before) && !HasPty(before) && r.wellFormed && Permitted(r.callback)
    case WindowChange => HasPty(before) && r.wellFormed
    case AgentRequest => r.callback == Allow
    case SignalRequest => r.positive
    case BreakRequest => r.positive
    case Other => false
  }

  /** A request whose answer is left to the handler. */
  ghost predicate LeftToHandler(before: seq<Logged>, r: Request) {
    r.kind.Subsystem? && r.registered.Deferred? && Entitled(before, r)
  }

  /** The answer a request gets. */
  ghost predicate Due(before: seq<Logged>, x: Logged, decided: Option<Decision>) {
    if LeftToHandler(before, x.req) then decided.Some? && (x.accepted <==> decided.value.Accept?)
    else x.accepted <==> Entitled(before, x.req)
  }

  /** The policy callback fails, and its error handler does not let the session go on. */
  predicate Fatal(c: Callback) {
    c.Fail? && !c.continues
  }

  /** Whether the loop returns after the answer. */
  ghost predicate Ends(before: seq<Logged>, r: Request, decided: Option<Decision>) {
    match r.kind
    case SignalRequest => !r.goesOn
    case AgentRequest => Fatal(r.callback) || (r.callback == Allow && !r.replyOk)
    case PtyRequest => !HasProgram(before) && !HasPty(before) && r.wellFormed && Fatal(r.callback)
    case Env(_, _) => false
    case WindowChange => false
    case BreakRequest => false
    case Other => false
    case _ =>
      if LeftToHandler(before, r) then decided != Some(Accept(true))
      else if Entitled(before, r) then !r.replyOk
      else
        && !HasProgram(before) && Fatal(r.callback)
        && (r.kind.Subsystem? || r.registered.Plain?) && (r.kind.Shell? || r.wellFormed)
  }

  // ---------------------------------------------------------------- what a run has read

  /** The requests read, the decision taken while one was waited for, and whether the request timeout
      came before a program was chosen. */
  datatype History = History(read: seq<Request>, decided: Option<Decision>, expired: bool)
  {
    ghost function After(s: State, i: Input): History {
      if s.phase.Stopped? then this
      else
        match i
        case Req(r) => this.(read := read + [r])
        case Decide(d) => if s.phase.Waiting? then this.(decided := Some(d)) else this
        case Timeout =>
          if s.phase.Running? && !HasProgram(Log(s.replies, read)) then this.(expired := true) else this
    }
  }

  function Log(replies: seq<Reply>, read: seq<Request>): (log: seq<Logged>)
    ensures |log| == |replies|
    ensures forall i :: 0 <= i < |log| && replies[i].id < |read| ==> log[i] == Logged(read[replies[i].id], replies[i].accepted)
  {
    if replies == [] then []
    else
      var n := |replies| - 1;
      Log(replies[..n], read)
        + [Logged(if replies[n].id < |read| then read[replies[n].id]
                  else Request(Other, false, NoCallback, NoHandler, false, false, false), replies[n].accepted)]
  }

  ghost function Happened(inputs: seq<Input>): History {
    if inputs == [] then History([], None, false)
    else
      var init := inputs[..|inputs| - 1];
      Happened(init).After(Run(Init, init), inputs[|inputs| - 1])
  }

  // ---------------------------------------------------------------- the invariant

  ghost predicate Recorded(s: State, log: seq<Logged>, h: History) {
    && |h.read| == s.arrivals && |log| == |s.replies|
    && forall i :: 0 <= i < |log| ==>
         && s.replies[i].id < |h.read|
         && log[i] == Logged(h.read[s.replies[i].id], s.replies[i].accepted)
         && s.replies[i].start == Begins(log[i].req.kind)
  }

  /** The session's fields are what has been granted. */
  ghost predicate FieldsMatch(s: State, log: seq<Logged>, h: History) {
    && s.pty == HasPty(log) && s.envCount == EnvCount(log) && s.envBytes == EnvBytes(log)
    && s.timedOut == h.expired && s.started == StartCount(log, h.decided)
    && s.resolved == (s.handled || h.expired)
    && !(s.handled && h.expired)
    && (HasProgram(log) ==> s.handled)
    && (s.phase.Running? ==> s.handled == HasProgram(log))
    && (s.phase.Waiting? ==> s.handled && !HasProgram(log) && h.decided.None?)
    && (h.decided.Some? ==> s.handled)
  }

  ghost predicate AllDue(log: seq<Logged>, h: History) {
    forall i :: 0 <= i < |log| ==> Due(log[..i], log[i], h.decided)
  }

  /** The request answered last. */
  function Last(s: State): nat {
    if s.replies == [] then 0 else s.replies[|s.replies| - 1].id
  }

  /** Only the last answer may have ended the loop, and only there. */
  ghost predicate EndsOnly(s: State, log: seq<Logged>, h: History) {
    && (forall i :: 0 <= i < |log| - 1 ==> !Ends(log[..i], log[i].req, h.decided))
    && (!s.phase.Stopped? && log != [] ==> !Ends(log[..|log| - 1], log[|log| - 1].req, h.decided))
    && (s.phase.Stopped? ==>
          || (log != [] && Last(s) == s.phase.at && Ends(log[..|log| - 1], log[|log| - 1].req, h.decided))
          || Silent(s, log, h))
  }

  /** The loop returned at a request without an answer: a program it would have run comes too late, or
      its handler gave no answer. */
  ghost predicate Silent(s: State, log: seq<Logged>, h: History)
    requires s.phase.Stopped?
  {
    && s.phase.at < |h.read| && Begins(h.read[s.phase.at].kind) && Entitled(log, h.read[s.phase.at])
    && (h.expired || (LeftToHandler(log, h.read[s.phase.at]) && h.decided == Some(Abandon)))
  }

  ghost predicate Held(s: State, log: seq<Logged>, h: History) {
    s.phase.Waiting? ==>
      && s.phase.id < |h.read| && LeftToHandler(log, h.read[s.phase.id])
      && (s.phase.next.Some? ==>
            s.phase.next.value.id < |h.read| && h.read[s.phase.next.value.id] == s.phase.next.value.req)
  }

  ghost predicate Matches(s: State, h: History) {
    var log := Log(s.replies, h.read);
    Recorded(s, log, h) && FieldsMatch(s, log, h) && AllDue(log, h) && EndsOnly(s, log, h) && Held(s, log, h)
  }

  // ---------------------------------------------------------------- one more answer

  lemma Append(log: seq<Logged>, x: Logged, decided: Option<Decision>)
    ensures StartCount(log + [x], decided)
      == StartCount(log, decided) + One(x.accepted && Begins(x.req.kind) && Written(x.req, decided))
    ensures HasProgram(log + [x]) <==> HasProgram(log) || (x.accepted && Begins(x.req.kind))
    ensures HasPty(log + [x]) <==> HasPty(log) || (x.accepted && x.req.kind.PtyRequest?)
    ensures EnvCount(log + [x]) == EnvCount(log) + One(x.accepted && x.req.kind.Env?)
    ensures EnvBytes(log + [x]) == EnvBytes(log) + EnvSize(x)
  {
    var all := log + [x];
    assert all[..|log|] == log && all[|log|] == x;
    if i :| 0 <= i < |log| && log[i].accepted && Begins(log[i].req.kind) {
      assert all[i] == log[i];
    }
    if i :| 0 <= i < |log| && log[i].accepted && log[i].req.kind.PtyRequest? {
      assert all[i] == log[i];
    }
  }

  lemma LogAppend(replies: seq<Reply>, r: Reply, read: seq<Request>)
    requires r.id < |read|
    ensures Log(replies + [r], read) == Log(replies, read) + [Logged(read[r.id], r.accepted)]
  {
    assert (replies + [r])[..|replies|] == replies;
  }

  lemma {:induction false} LogMore(replies: seq<Reply>, read: seq<Request>, r: Request)
    requires forall i :: 0 <= i < |replies| ==> replies[i].id < |read|
    ensures Log(replies, read + [r]) == Log(replies, read)
  {
    assert forall i :: 0 <= i < |replies| ==> (read + [r])[replies[i].id] == read[replies[i].id];
  }

  lemma DueAppend(log: seq<Logged>, x: Logged, h: History)
    requires AllDue(log, h) && Due(log, x, h.decided)
    ensures AllDue(log + [x], h)
  {
    var all := log + [x];
    forall i | 0 <= i < |all|
      ensures Due(all[..i], all[i], h.decided)
    {
      assert all[..i] == log[..i];
      assert i == |log| ==> log[..i] == log;
    }
  }

  lemma EndsAppend(s: State, t: State, log: seq<Logged>, x: Logged, h: History)
    requires EndsOnly(s, log, h) && !s.phase.Stopped? && t.replies != [] && |log| == |s.replies|
    requires t.phase.Stopped? ==> Last(t) == t.phase.at
    requires t.phase.Stopped? <==> Ends(log, x.req, h.decided)
    ensures EndsOnly(t, log + [x], h)
  {
    var all := log + [x];
    assert all[..|log|] == log && all[|log|] == x;
    forall i | 0 <= i < |all| - 1
      ensures !Ends(all[..i], all[i].req, h.decided)
    {
      assert all[..i] == log[..i] && all[i] == log[i];
    }
  }

  lemma RecordedAppend(s: State, t: State, log: seq<Logged>, h: History, k: History, r: Reply)
    requires Recorded(s, log, h) && k.read == h.read && t.arrivals == s.arrivals && t.replies == s.replies + [r]
    requires r.id < |h.read| && r.start == Begins(h.read[r.id].kind)
    ensures Recorded(t, log + [Logged(h.read[r.id], r.accepted)], k)
  {
  }

  /** The request in hand is answered, as it is due, and the loop goes on or returns, as it has to. */
  lemma AnswerMatches(s: State, t: State, h: History, id: nat, r: Request, a: bool)
    requires Matches(s, h) && s.phase.Running? && id < |h.read| && h.read[id] == r
    requires t.replies == s.replies + [Reply(id, a, Begins(r.kind))] && t.arrivals == s.arrivals
    requires t.phase == Running || t.phase == Stopped(id)
    requires var log := Log(s.replies, h.read);
      && Due(log, Logged(r, a), h.decided)
      && (t.phase.Stopped? <==> Ends(log, r, h.decided))
      && FieldsMatch(t, log + [Logged(r, a)], h)
    ensures Matches(t, h)
  {
    var log, x := Log(s.replies, h.read), Logged(r, a);
    LogAppend(s.replies, Reply(id, a, Begins(r.kind)), h.read);
    RecordedAppend(s, t, log, h, h, Reply(id, a, Begins(r.kind)));
    DueAppend(log, x, h);
    EndsAppend(s, t, log, x, h);
    assert Held(t, log + [x], h);
  }

  // ---------------------------------------------------------------- steps

  lemma OtherDue(s: State, log: seq<Logged>, h: History, r: Request)
    requires FieldsMatch(s, log, h) && s.phase.Running? && !Begins(r.kind)
    ensures s.Accepts(r) <==> Entitled(log, r)
    ensures s.Stops(r) <==> Ends(log, r, h.decided)
  {
  }

  lemma OtherFields(s: State, log: seq<Logged>, h: History, id: nat, r: Request)
    requires FieldsMatch(s, log, h) && s.phase.Running? && !Begins(r.kind)
    ensures FieldsMatch(s.ProcessOther(id, r), log + [Logged(r, s.Accepts(r))], h)
  {
    Append(log, Logged(r, s.Accepts(r)), h.decided);
  }

  lemma OtherMatches(s: State, h: History, id: nat, r: Request)
    requires Matches(s, h) && s.phase.Running? && id < |h.read| && h.read[id] == r && !Begins(r.kind)
    ensures Matches(s.ProcessOther(id, r), h)
  {
    var log := Log(s.replies, h.read);
    OtherDue(s, log, h, r);
    OtherFields(s, log, h, id, r);
    AnswerMatches(s, s.ProcessOther(id, r), h, id, r, s.Accepts(r));
  }

  lemma RefusedMatches(s: State, h: History, id: nat, r: Request)
    requires Matches(s, h) && s.phase.Running? && id < |h.read| && h.read[id] == r && Begins(r.kind)
    requires s.StartStops(r) || s.StartRefused(r)
    ensures Matches(s.ProcessStart(id, r), h)
  {
    var log := Log(s.replies, h.read);
    Append(log, Logged(r, false), h.decided);
    AnswerMatches(s, s.ProcessStart(id, r), h, id, r, false);
  }

  lemma PlainMatches(s: State, h: History, id: nat, r: Request)
    requires Matches(s, h) && s.phase.Running? && id < |h.read| && h.read[id] == r && Begins(r.kind)
    requires !s.resolved && !r.registered.Deferred? && Entitled(Log(s.replies, h.read), r)
    ensures Matches(s.Start(id, r), h)
  {
    var log := Log(s.replies, h.read);
    Append(log, Logged(r, true), h.decided);
    AnswerMatches(s, s.Start(id, r), h, id, r, true);
  }

  lemma BeginsMatches(s: State, h: History, id: nat, r: Request)
    requires Matches(s, h) && s.phase.Running? && id < |h.read| && h.read[id] == r && Begins(r.kind)
    requires !s.StartStops(r) && !s.StartRefused(r)
    ensures Matches(s.Start(id, r), h)
  {
    assert Entitled(Log(s.replies, h.read), r);
    if s.resolved {
      TooLateMatches(s, h, id, r);
    } else if r.registered.Deferred? {
      assert r.kind.Subsystem?;
      WaitMatches(s, h, id, r);
    } else {
      PlainMatches(s, h, id, r);
    }
  }

  lemma TooLateMatches(s: State, h: History, id: nat, r: Request)
    requires Matches(s, h) && s.phase.Running? && id < |h.read| && h.read[id] == r && Begins(r.kind)
    requires s.resolved && Entitled(Log(s.replies, h.read), r)
    ensures Matches(s.Stop(id), h)
  {
  }

  lemma WaitMatches(s: State, h: History, id: nat, r: Request)
    requires Matches(s, h) && s.phase.Running? && id < |h.read| && h.read[id] == r
    requires !s.resolved && LeftToHandler(Log(s.replies, h.read), r)
    ensures Matches(s.Start(id, r), h)
  {
  }

  lemma ProcessMatches(s: State, h: History, id: nat, r: Request)
    requires Matches(s, h) && s.phase.Running? && id < |h.read| && h.read[id] == r
    ensures Matches(s.Process(id, r), h)
  {
    if !Begins(r.kind) {
      OtherMatches(s, h, id, r);
    } else if s.StartStops(r) || s.StartRefused(r) {
      RefusedMatches(s, h, id, r);
    } else {
      BeginsMatches(s, h, id, r);
    }
  }

  lemma {:induction false} NoProgram(log: seq<Logged>, decided: Option<Decision>)
    requires !HasProgram(log)
    ensures StartCount(log, decided) == 0
  {
    if log != [] {
      var init := log[..|log| - 1];
      forall i | 0 <= i < |init|
        ensures !(init[i].accepted && Begins(init[i].req.kind))
      {
        assert init[i] == log[i];
      }
      NoProgram(init, decided);
    }
  }

  /** A decision changes nothing about the answers before it. */
  lemma DecisionMatches(s: State, h: History, d: Decision)
    requires Matches(s, h) && s.phase.Waiting?
    ensures var k := h.(decided := Some(d)); var log := Log(s.replies, h.read);
      && AllDue(log, k) && EndsOnly(s, log, k) && StartCount(log, k.decided) == 0
  {
    var log := Log(s.replies, h.read);
    NoProgram(log, Some(d));
    forall i | 0 <= i < |log|
      ensures Due(log[..i], log[i], Some(d)) && !Ends(log[..i], log[i].req, Some(d))
    {
      assert Due(log[..i], log[i], h.decided);
      assert !LeftToHandler(log[..i], log[i].req);
      assert !Ends(log[..i], log[i].req, h.decided);
    }
  }

  lemma AbandonMatches(s: State, h: History)
    requires Matches(s, h) && s.phase.Waiting?
    ensures Matches(s.Stop(s.phase.id), h.(decided := Some(Abandon)))
  {
    DecisionMatches(s, h, Abandon);
    NoProgram(Log(s.replies, h.read), h.decided);
  }

  /** The answer to the request that was waited for, after which the loop goes on or returns. */
  function Decided(s: State, d: Decision): State
    requires s.phase.Waiting? && !d.Abandon?
  {
    if d == Accept(true) then s.Proceed() else s.Answer(s.phase.id, d.Accept?, true).Stop(s.phase.id)
  }

  lemma DecidedFields(s: State, h: History, d: Decision)
    requires Matches(s, h) && s.phase.Waiting? && !d.Abandon?
    ensures var log, k := Log(s.replies, h.read), h.(decided := Some(d));
      FieldsMatch(Decided(s, d), log + [Logged(h.read[s.phase.id], d.Accept?)], k)
  {
    var log := Log(s.replies, h.read);
    DecisionMatches(s, h, d);
    NoProgram(log, h.decided);
    Append(log, Logged(h.read[s.phase.id], d.Accept?), Some(d));
  }

  lemma DecidedRecorded(s: State, h: History, d: Decision)
    requires Matches(s, h) && s.phase.Waiting? && !d.Abandon?
    ensures var log, k := Log(s.replies, h.read), h.(decided := Some(d)); var t := Decided(s, d);
      && Log(t.replies, k.read) == log + [Logged(h.read[s.phase.id], d.Accept?)]
      && Recorded(t, log + [Logged(h.read[s.phase.id], d.Accept?)], k)
  {
    var r := Reply(s.phase.id, d.Accept?, true);
    LogAppend(s.replies, r, h.read);
    assert Decided(s, d).replies == s.replies + [r] && Decided(s, d).arrivals == s.arrivals;
    RecordedAppend(s, Decided(s, d), Log(s.replies, h.read), h, h.(decided := Some(d)), r);
  }

  lemma DecidedEnds(s: State, d: Decision, log: seq<Logged>, x: Logged, k: History)
    requires EndsOnly(s, log, k) && s.phase.Waiting? && !d.Abandon? && |log| == |s.replies|
    requires LeftToHandler(log, x.req) && k.decided == Some(d)
    ensures EndsOnly(Decided(s, d), log + [x], k)
  {
    assert Ends(log, x.req, k.decided) <==> d != Accept(true);
    EndsAppend(s, Decided(s, d), log, x, k);
  }

  lemma DecidedAllDue(d: Decision, log: seq<Logged>, x: Logged, k: History)
    requires AllDue(log, k) && LeftToHandler(log, x.req) && k.decided == Some(d) && (x.accepted <==> d.Accept?)
    ensures AllDue(log + [x], k)
  {
    DueAppend(log, x, k);
  }

  lemma DecidedDue(s: State, h: History, d: Decision, log: seq<Logged>, x: Logged)
    requires Matches(s, h) && s.phase.Waiting? && !d.Abandon?
    requires log == Log(s.replies, h.read) && x == Logged(h.read[s.phase.id], d.Accept?)
    ensures AllDue(log + [x], h.(decided := Some(d)))
    ensures EndsOnly(Decided(s, d), log + [x], h.(decided := Some(d)))
  {
    var k := h.(decided := Some(d));
    DecisionMatches(s, h, d);
    DecidedAllDue(d, log, x, k);
    DecidedEnds(s, d, log, x, k);
  }

  lemma DecidedMatches(s: State, h: History, d: Decision)
    requires Matches(s, h) && s.phase.Waiting? && !d.Abandon?
    ensures Matches(Decided(s, d), h.(decided := Some(d)))
  {
    DecidedFields(s, h, d);
    DecidedRecorded(s, h, d);
    DecidedDue(s, h, d, Log(s.replies, h.read), Logged(h.read[s.phase.id], d.Accept?));
  }

  /** The later request, if one was read, is processed next. */
  lemma ProceedMatches(s: State, t: State, h: History, k: History)
    requires Held(s, Log(s.replies, h.read), h) && s.phase.Waiting? && k.read == h.read
    requires Matches(t, k) && t.phase.Running?
    ensures Matches(Ahead(t, s.phase.next), k)
  {
    if s.phase.next.Some? {
      ProcessMatches(t, k, s.phase.next.value.id, s.phase.next.value.req);
    }
  }

  lemma ResolveIs(s: State, d: Decision)
    requires s.phase.Waiting?
    ensures s.Resolve(d) ==
      if d.Abandon? then s.Stop(s.phase.id)
      else if d == Accept(true) then Ahead(Decided(s, d), s.phase.next)
      else Decided(s, d)
  {
  }

  lemma AcceptMatches(s: State, h: History, d: Decision)
    requires Matches(s, h) && s.phase.Waiting? && d == Accept(true)
    ensures Matches(Ahead(Decided(s, d), s.phase.next), h.(decided := Some(d)))
  {
    DecidedMatches(s, h, d);
    ProceedMatches(s, Decided(s, d), h, h.(decided := Some(d)));
  }

  lemma ResolveMatches(s: State, h: History, d: Decision)
    requires Matches(s, h) && s.phase.Waiting?
    ensures Matches(s.Resolve(d), h.(decided := Some(d)))
  {
    ResolveIs(s, d);
    if d.Abandon? {
      AbandonMatches(s, h);
    } else if d == Accept(true) {
      AcceptMatches(s, h, d);
    } else {
      DecidedMatches(s, h, d);
    }
  }

  lemma ReadParts(s: State, t: State, log: seq<Logged>, h: History, k: History)
    requires FieldsMatch(s, log, h) && AllDue(log, h) && EndsOnly(s, log, h) && !s.phase.Stopped? && !t.phase.Stopped?
    requires t.phase.Running? == s.phase.Running? && t.phase.Waiting? == s.phase.Waiting?
    requires t == s.(arrivals := t.arrivals, phase := t.phase, lost := t.lost)
    requires k.decided == h.decided && k.expired == h.expired
    ensures FieldsMatch(t, log, k) && AllDue(log, k) && EndsOnly(t, log, k)
  {
  }

  lemma ReadHeld(s: State, t: State, log: seq<Logged>, h: History, r: Request)
    requires Recorded(s, log, h) && Held(s, log, h) && t.arrivals == s.arrivals + 1 && t.replies == s.replies
    requires t.phase == s.phase || (s.phase.Waiting? && t.phase == Waiting(s.phase.id, Some(Pending(s.arrivals, r))))
    ensures Recorded(t, log, h.(read := h.read + [r])) && Held(t, log, h.(read := h.read + [r]))
  {
  }

  /** One more request is read. */
  lemma ReadMatches(s: State, t: State, h: History, r: Request)
    requires Matches(s, h) && t.arrivals == s.arrivals + 1
    requires t == s.(arrivals := t.arrivals, phase := t.phase, lost := t.lost)
    requires t.phase == s.phase || (s.phase.Waiting? && t.phase == Waiting(s.phase.id, Some(Pending(s.arrivals, r))))
    requires !s.phase.Stopped?
    ensures Matches(t, h.(read := h.read + [r]))
  {
    var log, k := Log(s.replies, h.read), h.(read := h.read + [r]);
    LogMore(s.replies, h.read, r);
    ReadParts(s, t, log, h, k);
    ReadHeld(s, t, log, h, r);
  }

  lemma ArriveMatches(s: State, h: History, r: Request)
    requires Matches(s, h) && s.phase.Running?
    ensures Matches(s.Arrive(r), h.(read := h.read + [r]))
  {
    ReadMatches(s, s.CountArrival(), h, r);
    ProcessMatches(s.CountArrival(), h.(read := h.read + [r]), s.arrivals, r);
  }

  lemma TimerMatches(s: State, t: State, log: seq<Logged>, h: History, k: History)
    requires Recorded(s, log, h) && AllDue(log, h) && EndsOnly(s, log, h) && Held(s, log, h)
    requires t.phase == s.phase && t.replies == s.replies && t.arrivals == s.arrivals && !s.phase.Stopped?
    requires k.read == h.read && k.decided == h.decided
    ensures Recorded(t, log, k) && AllDue(log, k) && EndsOnly(t, log, k) && Held(t, log, k)
  {
  }

  lemma ExpireFields(s: State, log: seq<Logged>, h: History)
    requires FieldsMatch(s, log, h) && log == Log(s.replies, h.read) && !s.phase.Stopped?
    ensures FieldsMatch(s.Expire(), log, h.After(s, Timeout))
  {
  }

  lemma ExpireMatches(s: State, h: History)
    requires Matches(s, h) && !s.phase.Stopped?
    ensures Matches(s.Expire(), h.After(s, Timeout))
  {
    var t, k, log := s.Expire(), h.After(s, Timeout), Log(s.replies, h.read);
    ExpireFields(s, log, h);
    TimerMatches(s, t, log, h, k);
    assert t.replies == s.replies && k.read == h.read;
  }

  lemma StepMatches(s: State, h: History, i: Input)
    requires Matches(s, h)
    ensures Matches(Step(s, i), h.After(s, i))
  {
    if !s.phase.Stopped? {
      if i.Timeout? {
        ExpireMatches(s, h);
      } else if i.Decide? {
        if s.phase.Waiting? {
          ResolveMatches(s, h, i.decision);
        }
      } else if s.phase.Waiting? {
        ReadMatches(s, s.ReadLater(i.req), h, i.req);
      } else {
        ArriveMatches(s, h, i.req);
      }
    }
  }

  lemma {:induction false} RunMatches(inputs: seq<Input>)
    ensures Matches(Run(Init, inputs), Happened(inputs))
  {
    if inputs != [] {
      var init := inputs[..|inputs| - 1];
      RunMatches(init);
      StepMatches(Run(Init, init), Happened(init), inputs[|inputs| - 1]);
    }
  }

  // ---------------------------------------------------------------- what every script is answered

  /** The answers of a run as the requests they belong to. */
  ghost function Answers(inputs: seq<Input>): seq<Logged> {
    Log(Run(Init, inputs).replies, Happened(inputs).read)
  }

  /** Every reply answers a request that was read, marks programs as such, and grants it if and only if
      it is entitled to it; a deferred subsystem that is entitled gets its handler's decision. */
  lemma EachAnswerIsDue(inputs: seq<Input>, i: nat)
    requires i < |Run(Init, inputs).replies|
    ensures var r, h, log := Run(Init, inputs).replies[i], Happened(inputs), Answers(inputs);
      && |h.read| == Run(Init, inputs).arrivals
      && r.id < |h.read| && |log| == |Run(Init, inputs).replies| && log[i] == Logged(h.read[r.id], r.accepted)
      && r.start == Begins(h.read[r.id].kind)
      && (if LeftToHandler(log[..i], h.read[r.id]) then h.decided.Some? && (r.accepted <==> h.decided.value.Accept?)
          else r.accepted <==> Entitled(log[..i], h.read[r.id]))
  {
    RunMatches(inputs);
    assert Due(Answers(inputs)[..i], Answers(inputs)[i], Happened(inputs).decided);
  }

  /** The session's fields are exactly what has been granted: the pty, the environment, and the number
      of programs started, namely those accepted with a reply that went out. */
  lemma GrantsAreKept(inputs: seq<Input>)
    ensures var s, log := Run(Init, inputs), Answers(inputs);
      && s.pty == HasPty(log) && s.envCount == EnvCount(log) && s.envBytes == EnvBytes(log)
      && s.started == StartCount(log, Happened(inputs).decided)
      && s.timedOut == Happened(inputs).expired
  {
    RunMatches(inputs);
  }

  /** The loop waits only for a deferred subsystem that is entitled to run; it returns at a request only
      because of its answer, because the program it asks for comes too late, or because its handler
      decided nothing; and it never goes on after an answer that ends it. */
  lemma StopsOnlyWhereItMust(inputs: seq<Input>)
    ensures var s, h, log := Run(Init, inputs), Happened(inputs), Answers(inputs);
      && |log| == |s.replies|
      && (s.phase.Waiting? ==> s.phase.id < |h.read| && LeftToHandler(log, h.read[s.phase.id]) && !h.expired)
      && (s.phase.Stopped? ==>
            || (log != [] && Last(s) == s.phase.at && Ends(log[..|log| - 1], log[|log| - 1].req, h.decided))
            || Silent(s, log, h))
      && (forall i :: 0 <= i < |log| && Ends(log[..i], log[i].req, h.decided) ==> i == |log| - 1 && s.phase.Stopped?)
  {
    RunMatches(inputs);
  }
}
