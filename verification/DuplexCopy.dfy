/** FullDuplexCopy: two copiers, an observer queue that must never block, the loop that collects
    their results, and the closing of the streams (copy.go:31-136). */
module DuplexCopy {
  import opened Prelude

  const QUEUE_SIZE: nat := 6

  datatype Dir = L2R | R2L

  /** The optional callbacks that are set, and the directions whose target can be half-closed. */
  datatype Opts = Opts(start: bool, end: bool, streamStart: bool, streamEnd: bool, halfCloses: set<Dir>)

  datatype Done = Done(dir: Dir, written: nat, error: Option<nat>)

  datatype Note =
    | Start
    | StreamStart(dir: Dir)
    | StreamEnd(endDir: Dir, error: Option<nat>)
    | End(l2r: nat, r2l: nat, result: Option<nat>, errDir: Option<Dir>)

  // ---------------------------------------------------------------- the collecting loop

  /** The locals of the loop. */
  datatype Summary = Summary(completed: nat, l2r: nat, r2l: nat, err: Option<nat>, errDir: Option<Dir>)
  {
    function Add(d: Done): Summary {
      var s := this.(completed := completed + 1);
      var t := if d.dir == L2R then s.(l2r := d.written) else s.(r2l := d.written);
      if d.error.Some? && err.None? then t.(err := d.error, errDir := Some(d.dir)) else t
    }
  }

  const NoResults: Summary := Summary(0, 0, 0, None, None)

  function Collected(results: seq<Done>): Summary {
    if results == [] then NoResults else Collected(results[..|results| - 1]).Add(results[|results| - 1])
  }

  /** The loop as it runs once both results are known, in the order they arrive. */
  method Collect(results: seq<Done>) returns (s: Summary)
    requires |results| == 2
    ensures s == Collected(results)
  {
    var completed, l2r, r2l := 0, 0, 0;
    var err: Option<nat>, errDir: Option<Dir> := None, None;
    while completed < 2
      invariant completed <= 2
      invariant Summary(completed, l2r, r2l, err, errDir) == Collected(results[..completed])
    {
      var v := results[completed];
      assert results[..completed + 1][..completed] == results[..completed];
      completed := completed + 1;
      if v.dir == L2R {
        l2r := v.written;
      } else {
        r2l := v.written;
      }
      if v.error.Some? && err.None? {
        errDir := Some(v.dir);
        err := v.error;
      }
    }
    assert results[..2] == results;
    s := Summary(completed, l2r, r2l, err, errDir);
  }

  // ---------------------------------------------------------------- the protocol

  datatype Copier =
    | NotStarted
    | Starting
    | Copying
    | Ending(done: Done)
    | Delivering(done: Done)
    | Finished(done: Done)

  datatype Main = Opening | Spawning | Collecting | Returned

  /** `notes` is every note ever sent, `consumed` how many the observer has taken. The loop is
      `watching` the context until it has seen its end. `halfClosed` are the directions whose target
      was half-closed. */
  datatype State = State(
    opts: Opts,
    main: Main,
    l2r: Copier,
    r2l: Copier,
    dones: seq<Done>,
    received: seq<Done>,
    notes: seq<Note>,
    consumed: nat,
    observerClosed: bool,
    contextDone: bool,
    watching: bool,
    halfClosed: set<Dir>,
    streamsClosed: bool)

  function Init(opts: Opts): State {
    State(opts, Opening, NotStarted, NotStarted, [], [], [], 0, false, false, true, {}, false)
  }

  datatype Event =
    | ObserveStart
    | Spawn
    | Observe
    | EndContext
    | SeeContextDone
    | BeginStream(d: Dir)
    | CopyDone(d: Dir, written: nat, copyError: Option<nat>, halfError: Option<nat>)
    | EndStream(d: Dir)
    | Deliver(d: Dir)
    | Receive
    | ObserveEnd

  function Queued(s: State): int {
    |s.notes| - s.consumed
  }

  function At(s: State, d: Dir): Copier {
    if d == L2R then s.l2r else s.r2l
  }

  function Put(s: State, d: Dir, c: Copier): State {
    if d == L2R then s.(l2r := c) else s.(r2l := c)
  }

  /** Whether the thread taking this step is about to send a note; the send blocks on a full
      queue and panics on a closed one. */
  predicate SendsNote(s: State, e: Event) {
    match e
    case ObserveStart => s.opts.start
    case BeginStream(_) => s.opts.streamStart
    case EndStream(_) => s.opts.streamEnd
    case ObserveEnd => s.opts.end
    case _ => false
  }

  /** The step's program point is reached, whatever the queue looks like. */
  predicate Ready(s: State, e: Event) {
    match e
    case ObserveStart => s.main.Opening?
    case Spawn => s.main.Spawning?
    case Observe => s.consumed < |s.notes|
    case EndContext => true
    case SeeContextDone => s.main.Collecting? && |s.received| < 2 && s.watching && s.contextDone
    case BeginStream(d) => At(s, d).Starting?
    case CopyDone(d, _, _, _) => At(s, d).Copying?
    case EndStream(d) => At(s, d).Ending?
    case Deliver(d) => At(s, d).Delivering?
    case Receive => s.main.Collecting? && |s.received| < 2 && |s.dones| > 0
    case ObserveEnd => s.main.Collecting? && |s.received| == 2
  }

  predicate Enabled(s: State, e: Event) {
    Ready(s, e) && (SendsNote(s, e) ==> Queued(s) < QUEUE_SIZE && !s.observerClosed)
  }

  function Send(s: State, wanted: bool, n: Note): State {
    if wanted then s.(notes := s.notes + [n]) else s
  }

  function ObserveStartStep(s: State): State {
    Send(s, s.opts.start, Start).(main := Spawning)
  }

  function SpawnStep(s: State): State {
    s.(main := Collecting, l2r := Starting, r2l := Starting)
  }

  function ObserveStep(s: State): State {
    s.(consumed := s.consumed + 1)
  }

  function EndContextStep(s: State): State {
    s.(contextDone := true)
  }

  function SeeContextDoneStep(s: State): State {
    s.(watching := false, streamsClosed := true)
  }

  function BeginStreamStep(s: State, d: Dir): State {
    Put(Send(s, s.opts.streamStart, StreamStart(d)), d, Copying)
  }

  /** A copier that ends cleanly half-closes its target, or closes both streams if it cannot. */
  function CloseTarget(s: State, d: Dir): State {
    if d in s.opts.halfCloses then s.(halfClosed := s.halfClosed + {d}) else s.(streamsClosed := true)
  }

  function CopyError(s: State, d: Dir, copyError: Option<nat>, halfError: Option<nat>): Option<nat> {
    if copyError.Some? then copyError else if d in s.opts.halfCloses then halfError else None
  }

  function CopyDoneStep(s: State, d: Dir, written: nat, copyError: Option<nat>, halfError: Option<nat>): State {
    var u := if copyError.Some? then s else CloseTarget(s, d);
    Put(u, d, Ending(Done(d, written, CopyError(s, d, copyError, halfError))))
  }

  function EndStreamStep(s: State, d: Dir): State
    requires At(s, d).Ending?
  {
    var done := At(s, d).done;
    Put(Send(s, s.opts.streamEnd, StreamEnd(d, done.error)), d, Delivering(done))
  }

  function DeliverStep(s: State, d: Dir): State
    requires At(s, d).Delivering?
  {
    var done := At(s, d).done;
    Put(s, d, Finished(done)).(dones := s.dones + [done])
  }

  /** The first error closes both streams. */
  function ReceiveStep(s: State): State
    requires |s.dones| > 0
  {
    var first := s.dones[0].error.Some? && Collected(s.received).err.None?;
    s.(received := s.received + [s.dones[0]], dones := s.dones[1..], streamsClosed := s.streamsClosed || first)
  }

  function ObserveEndStep(s: State): State {
    var sum := Collected(s.received);
    Send(s, s.opts.end, End(sum.l2r, sum.r2l, sum.err, sum.errDir)).(main := Returned, observerClosed := true)
  }

  function Step(s: State, e: Event): State
    requires Enabled(s, e)
  {
    match e
    case ObserveStart => ObserveStartStep(s)
    case Spawn => SpawnStep(s)
    case Observe => ObserveStep(s)
    case EndContext => EndContextStep(s)
    case SeeContextDone => SeeContextDoneStep(s)
    case BeginStream(d) => BeginStreamStep(s, d)
    case CopyDone(d, written, copyError, halfError) => CopyDoneStep(s, d, written, copyError, halfError)
    case EndStream(d) => EndStreamStep(s, d)
    case Deliver(d) => DeliverStep(s, d)
    case Receive => ReceiveStep(s)
    case ObserveEnd => ObserveEndStep(s)
  }

  function Run(s: State, es: seq<Event>): State {
    if es == [] then s
    else
      var t := Run(s, es[..|es| - 1]);
      if Enabled(t, es[|es| - 1]) then Step(t, es[|es| - 1]) else t
  }

  // ---------------------------------------------------------------- the invariant

  function Begun(c: Copier): nat {
    One(!c.NotStarted? && !c.Starting?)
  }

  function Ended(c: Copier): nat {
    One(c.Delivering? || c.Finished?)
  }

  function MainSent(s: State): nat {
    One(s.opts.start && !s.main.Opening?) + One(s.opts.end && s.main.Returned?)
  }

  /** The results delivered so far, taken or still queued. */
  function Results(s: State): seq<Done> {
    s.received + s.dones
  }

  predicate HasDone(c: Copier) {
    c.Ending? || c.Delivering? || c.Finished?
  }

  ghost predicate Shape(s: State) {
    && s.consumed <= |s.notes|
    && |s.received| <= 2
    && (s.l2r.NotStarted? <==> s.main.Opening? || s.main.Spawning?)
    && (s.r2l.NotStarted? <==> s.main.Opening? || s.main.Spawning?)
    && (HasDone(s.l2r) ==> s.l2r.done.dir == L2R)
    && (HasDone(s.r2l) ==> s.r2l.done.dir == R2L)
    && (s.observerClosed <==> s.main.Returned?)
    && (s.main.Returned? ==> |s.received| == 2)
  }

  ghost predicate ResultsInv(s: State) {
    && (forall i :: 0 <= i < |Results(s)| ==> At(s, Results(s)[i].dir) == Finished(Results(s)[i]))
    && (forall i, j :: 0 <= i < j < |Results(s)| ==> Results(s)[i].dir != Results(s)[j].dir)
  }

  ghost predicate CountInv(s: State) {
    |s.notes| == MainSent(s)
      + (if s.opts.streamStart then Begun(s.l2r) + Begun(s.r2l) else 0)
      + (if s.opts.streamEnd then Ended(s.l2r) + Ended(s.r2l) else 0)
  }

  ghost predicate EndsInv(s: State) {
    && (forall i :: 0 <= i < |s.notes| ==> (s.notes[i].Start? <==> i == 0 && s.opts.start))
    && (forall i :: 0 <= i < |s.notes| ==> (s.notes[i].End? ==> i == |s.notes| - 1 && s.main.Returned?))
    && (s.main.Returned? && s.opts.end ==> |s.notes| > 0 && EndsWith(s))
  }

  predicate EndsWith(s: State)
    requires |s.notes| > 0
  {
    var sum := Collected(s.received);
    s.notes[|s.notes| - 1] == End(sum.l2r, sum.r2l, sum.err, sum.errDir)
  }

  /** What a note says about its copier. */
  predicate NoteOk(s: State, n: Note) {
    match n
    case StreamStart(d) => Begun(At(s, d)) == 1
    case StreamEnd(d, _) => Ended(At(s, d)) == 1
    case _ => true
  }

  /** Two notes that may not follow each other in this order. */
  predicate Clash(first: Note, later: Note) {
    || first == later
    || (first.StreamEnd? && later == StreamStart(first.endDir))
    || (first.StreamEnd? && later.StreamEnd? && first.endDir == later.endDir)
  }

  ghost predicate OrderInv(s: State) {
    && (forall i :: 0 <= i < |s.notes| ==> NoteOk(s, s.notes[i]))
    && (forall i, j :: 0 <= i < j < |s.notes| ==> !Clash(s.notes[i], s.notes[j]))
  }

  predicate Failed(results: seq<Done>) {
    exists i :: 0 <= i < |results| && results[i].error.Some?
  }

  /** The direction ended cleanly, and both streams were closed because its target has no half-close. */
  predicate ClosedInstead(s: State, d: Dir) {
    HasDone(At(s, d)) && At(s, d).done.error.None? && d !in s.opts.halfCloses
  }

  ghost predicate ClosingInv(s: State) {
    && (s.streamsClosed <==> !s.watching || Failed(s.received) || ClosedInstead(s, L2R) || ClosedInstead(s, R2L))
    && (forall d :: d in s.halfClosed ==> HasDone(At(s, d)) && d in s.opts.halfCloses)
    && (forall d :: HasDone(At(s, d)) && At(s, d).done.error.None? && d in s.opts.halfCloses ==> d in s.halfClosed)
    && (!s.watching ==> s.contextDone)
  }

  ghost predicate Inv(s: State) {
    Shape(s) && ResultsInv(s) && CountInv(s) && EndsInv(s) && OrderInv(s) && ClosingInv(s)
  }

  lemma BothFinished(s: State)
    requires ResultsInv(s) && |s.received| == 2
    ensures s.received[0].dir != s.received[1].dir
    ensures At(s, s.received[0].dir) == Finished(s.received[0]) && At(s, s.received[1].dir) == Finished(s.received[1])
    ensures s.l2r.Finished? && s.r2l.Finished?
  {
    var r := Results(s);
    assert r[0] == s.received[0] && r[1] == s.received[1];
  }

  lemma {:induction false} ErrorIffFailed(results: seq<Done>)
    ensures Collected(results).err.Some? <==> Failed(results)
  {
    if results != [] {
      var init, last := results[..|results| - 1], results[|results| - 1];
      ErrorIffFailed(init);
      FailedAppend(init, last);
      assert results == init + [last];
    }
  }

  lemma FailedAppend(results: seq<Done>, d: Done)
    ensures Failed(results + [d]) <==> Failed(results) || d.error.Some?
  {
    if Failed(results) {
      var i :| 0 <= i < |results| && results[i].error.Some?;
      assert (results + [d])[i].error.Some?;
    }
    assert (results + [d])[|results|] == d;
  }

  // Steps of a copier. They leave the main loop, the observer and the other copier alone.

  function Other(d: Dir): Dir {
    if d == L2R then R2L else L2R
  }

  predicate CopierMoves(s: State, t: State, d: Dir) {
    && t.opts == s.opts && t.main == s.main && At(t, Other(d)) == At(s, Other(d))
    && t.received == s.received && t.consumed == s.consumed && t.observerClosed == s.observerClosed
    && t.contextDone == s.contextDone && t.watching == s.watching
  }

  predicate SameStreams(s: State, t: State) {
    t.halfClosed == s.halfClosed && t.streamsClosed == s.streamsClosed
  }

  predicate MaySend(s: State, t: State, wanted: bool, n: Note) {
    t.notes == if wanted then s.notes + [n] else s.notes
  }

  lemma PutMoves(s: State, d: Dir, c: Copier)
    ensures var t := Put(s, d, c);
      && CopierMoves(s, t, d) && SameStreams(s, t) && t.dones == s.dones && t.notes == s.notes && At(t, d) == c
  {
  }

  lemma BeginStreamMoves(s: State, d: Dir)
    ensures var t := BeginStreamStep(s, d);
      && CopierMoves(s, t, d) && SameStreams(s, t) && t.dones == s.dones
      && At(t, d) == Copying && MaySend(s, t, s.opts.streamStart, StreamStart(d))
  {
  }

  lemma CopyDoneMoves(s: State, d: Dir, written: nat, copyError: Option<nat>, halfError: Option<nat>)
    ensures var t := CopyDoneStep(s, d, written, copyError, halfError);
      && CopierMoves(s, t, d) && t.dones == s.dones && t.notes == s.notes
      && At(t, d).Ending? && At(t, d).done.dir == d
  {
    var u := if copyError.Some? then s else CloseTarget(s, d);
    PutMoves(u, d, Ending(Done(d, written, CopyError(s, d, copyError, halfError))));
  }

  lemma EndStreamMoves(s: State, d: Dir)
    requires At(s, d).Ending?
    ensures var t := EndStreamStep(s, d); var done := At(s, d).done;
      && CopierMoves(s, t, d) && SameStreams(s, t) && t.dones == s.dones
      && At(t, d) == Delivering(done) && MaySend(s, t, s.opts.streamEnd, StreamEnd(d, done.error))
  {
  }

  lemma DeliverMoves(s: State, d: Dir)
    requires At(s, d).Delivering?
    ensures var t := DeliverStep(s, d); var done := At(s, d).done;
      && CopierMoves(s, t, d) && SameStreams(s, t) && t.notes == s.notes
      && At(t, d) == Finished(done) && t.dones == s.dones + [done]
  {
  }

  lemma ShapeMoves(s: State, t: State, d: Dir)
    requires Shape(s) && CopierMoves(s, t, d) && |s.notes| <= |t.notes|
    requires !At(s, d).NotStarted? && !At(t, d).NotStarted? && (HasDone(At(t, d)) ==> At(t, d).done.dir == d)
    ensures Shape(t)
  {
  }

  lemma ResultsMoves(s: State, t: State, d: Dir)
    requires ResultsInv(s) && CopierMoves(s, t, d) && t.dones == s.dones && !At(s, d).Finished?
    ensures ResultsInv(t)
  {
    assert Results(t) == Results(s);
    forall i | 0 <= i < |Results(t)|
      ensures At(t, Results(t)[i].dir) == Finished(Results(t)[i])
    {
      assert At(s, Results(s)[i].dir) == Finished(Results(s)[i]);
      assert Results(s)[i].dir == Other(d);
    }
  }

  lemma ResultsDeliver(s: State, d: Dir)
    requires Shape(s) && ResultsInv(s) && At(s, d).Delivering?
    ensures ResultsInv(DeliverStep(s, d))
  {
    DeliverMoves(s, d);
    var t := DeliverStep(s, d);
    assert Results(t) == Results(s) + [At(s, d).done];
    forall i | 0 <= i < |Results(s)|
      ensures Results(s)[i].dir == Other(d)
    {
      assert At(s, Results(s)[i].dir) == Finished(Results(s)[i]);
    }
  }

  lemma CountMoves(s: State, t: State, d: Dir)
    requires CountInv(s) && CopierMoves(s, t, d)
    requires |t.notes| == |s.notes|
      + (if s.opts.streamStart then Begun(At(t, d)) - Begun(At(s, d)) else 0)
      + (if s.opts.streamEnd then Ended(At(t, d)) - Ended(At(s, d)) else 0)
    ensures CountInv(t)
  {
    assert MainSent(t) == MainSent(s);
  }

  lemma EndsMoves(s: State, t: State, d: Dir, n: Note, wanted: bool)
    requires EndsInv(s) && CopierMoves(s, t, d) && !s.main.Returned? && MaySend(s, t, wanted, n)
    requires s.opts.start ==> |s.notes| > 0
    requires !n.Start? && !n.End?
    ensures EndsInv(t)
  {
  }

  lemma OrderMoves(s: State, t: State, d: Dir, n: Note, wanted: bool)
    requires OrderInv(s) && CopierMoves(s, t, d) && MaySend(s, t, wanted, n)
    requires Begun(At(s, d)) <= Begun(At(t, d)) && Ended(At(s, d)) <= Ended(At(t, d))
    requires wanted ==> NoteOk(t, n) && forall i :: 0 <= i < |s.notes| ==> !Clash(s.notes[i], n)
    ensures OrderInv(t)
  {
    forall i | 0 <= i < |s.notes|
      ensures NoteOk(t, s.notes[i])
    {
      assert NoteOk(s, s.notes[i]);
    }
    if wanted {
      OrderAppend(s, t, n);
    }
  }

  /** Adding one note that clashes with none before it. */
  lemma OrderAppend(s: State, t: State, n: Note)
    requires OrderInv(s) && t.notes == s.notes + [n] && NoteOk(t, n)
    requires forall i :: 0 <= i < |s.notes| ==> NoteOk(t, s.notes[i]) && !Clash(s.notes[i], n)
    ensures OrderInv(t)
  {
  }

  lemma NoClashBegin(s: State, d: Dir)
    requires OrderInv(s) && At(s, d).Starting?
    ensures forall i :: 0 <= i < |s.notes| ==> !Clash(s.notes[i], StreamStart(d))
  {
    forall i | 0 <= i < |s.notes|
      ensures !Clash(s.notes[i], StreamStart(d))
    {
      assert NoteOk(s, s.notes[i]);
    }
  }

  lemma NoClashEnd(s: State, d: Dir, error: Option<nat>)
    requires OrderInv(s) && At(s, d).Ending?
    ensures forall i :: 0 <= i < |s.notes| ==> !Clash(s.notes[i], StreamEnd(d, error))
  {
    forall i | 0 <= i < |s.notes|
      ensures !Clash(s.notes[i], StreamEnd(d, error))
    {
      assert NoteOk(s, s.notes[i]);
    }
  }

  /** A copier moves on with the same result, or none. */
  lemma ClosingMoves(s: State, t: State, d: Dir)
    requires ClosingInv(s) && CopierMoves(s, t, d) && SameStreams(s, t)
    requires HasDone(At(s, d)) == HasDone(At(t, d)) && (HasDone(At(s, d)) ==> At(t, d).done == At(s, d).done)
    ensures ClosingInv(t)
  {
    forall d'
      ensures HasDone(At(t, d')) == HasDone(At(s, d')) && (HasDone(At(s, d')) ==> At(t, d').done == At(s, d').done)
    {
      assert d' == d || d' == Other(d);
    }
    assert ClosedInstead(t, L2R) == ClosedInstead(s, L2R) && ClosedInstead(t, R2L) == ClosedInstead(s, R2L);
  }

  lemma ClosingCopyDone(s: State, d: Dir, written: nat, copyError: Option<nat>, halfError: Option<nat>)
    requires ClosingInv(s) && At(s, d).Copying?
    ensures ClosingInv(CopyDoneStep(s, d, written, copyError, halfError))
  {
    var t := CopyDoneStep(s, d, written, copyError, halfError);
    CopyDoneMoves(s, d, written, copyError, halfError);
    assert !ClosedInstead(s, d) && ClosedInstead(t, Other(d)) == ClosedInstead(s, Other(d));
    assert ClosedInstead(t, d) <==> copyError.None? && d !in s.opts.halfCloses;
    assert d == L2R || Other(d) == L2R;
  }

  /** While a copier is at work the start note is out and the main loop has not returned. */
  lemma StreamsRunBetween(s: State, d: Dir)
    requires Shape(s) && ResultsInv(s) && CountInv(s) && !At(s, d).NotStarted? && !At(s, d).Finished?
    ensures !s.main.Returned? && !s.main.Opening? && (s.opts.start ==> |s.notes| > 0)
  {
    if s.main.Returned? {
      BothFinished(s);
    }
  }

  lemma BeginStreamKeeps(s: State, d: Dir)
    requires Inv(s) && At(s, d).Starting?
    ensures Inv(BeginStreamStep(s, d)) && BeginStreamStep(s, d).opts == s.opts
  {
    var t := BeginStreamStep(s, d);
    BeginStreamMoves(s, d);
    StreamsRunBetween(s, d);
    ShapeMoves(s, t, d);
    ResultsMoves(s, t, d);
    CountMoves(s, t, d);
    EndsMoves(s, t, d, StreamStart(d), s.opts.streamStart);
    NoClashBegin(s, d);
    OrderMoves(s, t, d, StreamStart(d), s.opts.streamStart);
    ClosingMoves(s, t, d);
  }

  lemma CopyDoneKeeps(s: State, d: Dir, written: nat, copyError: Option<nat>, halfError: Option<nat>)
    requires Inv(s) && At(s, d).Copying?
    ensures var t := CopyDoneStep(s, d, written, copyError, halfError); Inv(t) && t.opts == s.opts
  {
    var t := CopyDoneStep(s, d, written, copyError, halfError);
    CopyDoneMoves(s, d, written, copyError, halfError);
    StreamsRunBetween(s, d);
    ShapeMoves(s, t, d);
    ResultsMoves(s, t, d);
    CountMoves(s, t, d);
    EndsMoves(s, t, d, StreamStart(d), false);
    OrderMoves(s, t, d, StreamStart(d), false);
    ClosingCopyDone(s, d, written, copyError, halfError);
  }

  lemma EndStreamKeeps(s: State, d: Dir)
    requires Inv(s) && At(s, d).Ending?
    ensures Inv(EndStreamStep(s, d)) && EndStreamStep(s, d).opts == s.opts
  {
    var t, error := EndStreamStep(s, d), At(s, d).done.error;
    EndStreamMoves(s, d);
    StreamsRunBetween(s, d);
    ShapeMoves(s, t, d);
    ResultsMoves(s, t, d);
    CountMoves(s, t, d);
    EndsMoves(s, t, d, StreamEnd(d, error), s.opts.streamEnd);
    NoClashEnd(s, d, error);
    OrderMoves(s, t, d, StreamEnd(d, error), s.opts.streamEnd);
    ClosingMoves(s, t, d);
  }

  lemma DeliverKeeps(s: State, d: Dir)
    requires Inv(s) && At(s, d).Delivering?
    ensures Inv(DeliverStep(s, d)) && DeliverStep(s, d).opts == s.opts
  {
    var t := DeliverStep(s, d);
    DeliverMoves(s, d);
    StreamsRunBetween(s, d);
    ShapeMoves(s, t, d);
    ResultsDeliver(s, d);
    CountMoves(s, t, d);
    EndsMoves(s, t, d, StreamStart(d), false);
    OrderMoves(s, t, d, StreamStart(d), false);
    ClosingMoves(s, t, d);
  }

  // Steps of the main loop and of the observer.

  lemma SameResults(s: State, t: State)
    requires ResultsInv(s) && Results(t) == Results(s)
    requires forall d :: At(s, d).Finished? ==> At(t, d) == At(s, d)
    ensures ResultsInv(t)
  {
  }

  lemma ObserveStartKeeps(s: State)
    requires Inv(s) && s.main.Opening?
    ensures Inv(ObserveStartStep(s)) && ObserveStartStep(s).opts == s.opts
  {
    assert s.notes == [];
    SameResults(s, ObserveStartStep(s));
  }

  lemma SpawnKeeps(s: State)
    requires Inv(s) && s.main.Spawning?
    ensures Inv(SpawnStep(s)) && SpawnStep(s).opts == s.opts
  {
    OrderQuiet(s, SpawnStep(s));
    SameResults(s, SpawnStep(s));
  }

  /** Neither copier falls behind a note it has sent. */
  lemma OrderQuiet(s: State, t: State)
    requires OrderInv(s) && t.notes == s.notes
    requires forall d :: Begun(At(s, d)) <= Begun(At(t, d)) && Ended(At(s, d)) <= Ended(At(t, d))
    ensures OrderInv(t)
  {
    forall i | 0 <= i < |t.notes|
      ensures NoteOk(t, t.notes[i])
    {
      assert NoteOk(s, s.notes[i]);
    }
  }

  lemma SeeContextDoneKeeps(s: State)
    requires Inv(s) && s.contextDone && s.main.Collecting?
    ensures Inv(SeeContextDoneStep(s)) && SeeContextDoneStep(s).opts == s.opts
  {
    var t := SeeContextDoneStep(s);
    SameResults(s, t);
    OrderQuiet(s, t);
  }

  lemma ClosingReceive(s: State)
    requires ClosingInv(s) && |s.dones| > 0
    ensures ClosingInv(ReceiveStep(s))
  {
    FailedAppend(s.received, s.dones[0]);
    ErrorIffFailed(s.received);
  }

  lemma ReceiveKeeps(s: State)
    requires Inv(s) && s.main.Collecting? && |s.received| < 2 && |s.dones| > 0
    ensures Inv(ReceiveStep(s)) && ReceiveStep(s).opts == s.opts
  {
    var t := ReceiveStep(s);
    assert Results(t) == Results(s) by {
      assert s.dones == [s.dones[0]] + s.dones[1..];
    }
    SameResults(s, t);
    OrderQuiet(s, t);
    ClosingReceive(s);
  }

  lemma OrderFinal(s: State)
    requires EndsInv(s) && OrderInv(s) && s.main.Collecting?
    ensures OrderInv(ObserveEndStep(s))
  {
    var t := ObserveEndStep(s);
    if s.opts.end {
      var n := t.notes[|s.notes|];
      assert n.End?;
      forall i | 0 <= i < |s.notes|
        ensures NoteOk(t, s.notes[i]) && !Clash(s.notes[i], n)
      {
        assert NoteOk(s, s.notes[i]) && !s.notes[i].End?;
      }
      OrderAppend(s, t, n);
    } else {
      OrderQuiet(s, t);
    }
  }

  lemma EndsFinal(s: State)
    requires Shape(s) && CountInv(s) && EndsInv(s) && s.main.Collecting?
    ensures EndsInv(ObserveEndStep(s))
  {
    assert s.opts.start ==> |s.notes| > 0;
  }

  lemma ObserveEndKeeps(s: State)
    requires Inv(s) && s.main.Collecting? && |s.received| == 2
    ensures Inv(ObserveEndStep(s)) && ObserveEndStep(s).opts == s.opts
  {
    BothFinished(s);
    EndsFinal(s);
    OrderFinal(s);
    SameResults(s, ObserveEndStep(s));
  }

  lemma ObserveKeeps(s: State)
    requires Inv(s) && s.consumed < |s.notes|
    ensures Inv(ObserveStep(s)) && ObserveStep(s).opts == s.opts
  {
    OrderQuiet(s, ObserveStep(s));
    SameResults(s, ObserveStep(s));
  }

  lemma EndContextKeeps(s: State)
    requires Inv(s)
    ensures Inv(EndContextStep(s)) && EndContextStep(s).opts == s.opts
  {
    OrderQuiet(s, EndContextStep(s));
    SameResults(s, EndContextStep(s));
  }

  lemma StepKeepsInv(s: State, e: Event)
    requires Inv(s) && Enabled(s, e)
    ensures Inv(Step(s, e)) && Step(s, e).opts == s.opts
  {
    if e.BeginStream? {
      BeginStreamKeeps(s, e.d);
    } else if e.CopyDone? {
      CopyDoneKeeps(s, e.d, e.written, e.copyError, e.halfError);
    } else if e.EndStream? {
      EndStreamKeeps(s, e.d);
    } else if e.Deliver? {
      DeliverKeeps(s, e.d);
    } else if e.ObserveStart? {
      ObserveStartKeeps(s);
    } else if e.Spawn? {
      SpawnKeeps(s);
    } else if e.SeeContextDone? {
      SeeContextDoneKeeps(s);
    } else if e.Receive? {
      ReceiveKeeps(s);
    } else if e.ObserveEnd? {
      ObserveEndKeeps(s);
    } else if e.Observe? {
      ObserveKeeps(s);
    } else {
      EndContextKeeps(s);
    }
  }

  lemma {:induction false} Reachable(opts: Opts, es: seq<Event>)
    ensures Inv(Run(Init(opts), es)) && Run(Init(opts), es).opts == opts
  {
    if es != [] {
      Reachable(opts, es[..|es| - 1]);
      var t, e := Run(Init(opts), es[..|es| - 1]), es[|es| - 1];
      if Enabled(t, e) {
        StepKeepsInv(t, e);
      }
    }
  }

  /** No send to the observer ever blocks or hits a closed queue, even if the observer never
      runs: at most six notes exist, and a thread about to send finds room. */
  lemma ObserverNeverBlocks(opts: Opts, es: seq<Event>, e: Event)
    ensures |Run(Init(opts), es).notes| <= QUEUE_SIZE
    ensures Ready(Run(Init(opts), es), e) ==> Enabled(Run(Init(opts), es), e)
  {
    Reachable(opts, es);
    var s := Run(Init(opts), es);
    if s.main.Returned? {
      BothFinished(s);
    }
  }

  /** The order of the notes: start first, end last and final, each stream's start before its
      end, nothing reported twice. */
  lemma NotesOrdered(opts: Opts, es: seq<Event>)
    ensures var n := Run(Init(opts), es).notes;
      && (forall i :: 0 <= i < |n| && n[i].Start? ==> i == 0)
      && (forall i :: 0 <= i < |n| && n[i].End? ==> i == |n| - 1)
      && (forall i, j :: 0 <= i < j < |n| ==> n[i] != n[j])
      && (forall i, j :: 0 <= i < j < |n| && n[i].StreamEnd? ==> n[j] != StreamStart(n[i].endDir))
  {
    Reachable(opts, es);
    var n := Run(Init(opts), es).notes;
    assert forall i, j :: 0 <= i < j < |n| ==> !Clash(n[i], n[j]);
  }

  /** What FullDuplexCopy returns and reports: the first failure received with its direction, or
      none; and each direction's byte count, received exactly once. */
  lemma ReturnsFirstFailure(opts: Opts, es: seq<Event>)
    requires Run(Init(opts), es).main.Returned?
    ensures var s := Run(Init(opts), es); var sum := Collected(s.received);
      && |s.received| == 2 && s.received[0].dir != s.received[1].dir
      && sum.err == (if s.received[0].error.Some? then s.received[0].error else s.received[1].error)
      && (sum.err.Some? ==> sum.errDir == Some(if s.received[0].error.Some? then s.received[0].dir else s.received[1].dir))
      && s.l2r.Finished? && s.r2l.Finished? && sum.l2r == s.l2r.done.written && sum.r2l == s.r2l.done.written
      && (opts.end ==> |s.notes| > 0 && EndsWith(s))
  {
    Reachable(opts, es);
    var s := Run(Init(opts), es);
    BothFinished(s);
    var r := s.received;
    assert r[..1] == [r[0]] && [r[0]][..0] == [] && Collected([]) == NoResults;
    assert Collected(r[..1]) == NoResults.Add(r[0]);
    assert Collected(r) == NoResults.Add(r[0]).Add(r[1]);
  }

  /** When the streams are closed: exactly if the loop has seen the end of the context or received
      an error, or a direction ended cleanly on a target without half-close. Every other direction
      that ended cleanly has half-closed its target, and no other has. */
  lemma ClosedExactly(opts: Opts, es: seq<Event>)
    ensures var s := Run(Init(opts), es);
      && (s.streamsClosed <==> !s.watching || Failed(s.received) || ClosedInstead(s, L2R) || ClosedInstead(s, R2L))
      && (forall d :: d in s.halfClosed ==> HasDone(At(s, d)) && d in opts.halfCloses)
      && (forall d :: HasDone(At(s, d)) && At(s, d).done.error.None? ==> d in s.halfClosed || s.streamsClosed)
  {
    Reachable(opts, es);
  }

  /** A call that returns an error has closed both streams. */
  lemma ErrorClosesBoth(opts: Opts, es: seq<Event>)
    requires Run(Init(opts), es).main.Returned? && Collected(Run(Init(opts), es).received).err.Some?
    ensures Run(Init(opts), es).streamsClosed
  {
    Reachable(opts, es);
    ErrorIffFailed(Run(Init(opts), es).received);
  }
}
