/** What FullDuplexCopy reports is what its copiers did: the bytes each copied, the errors in the order
    they were delivered, and the notes that were asked for (copy.go:43-136). */
module CopyOutcomes {
  import opened Prelude
  import opened DuplexCopy

  /** Read off the events alone: how each copier ended, and in which order the results were delivered and
      how many of them were received. */
  datatype History = History(
    opts: Opts, l2r: Option<Done>, r2l: Option<Done>, delivered: seq<Done>, received: nat, notes: seq<Note>)
  {
    function Of(d: Dir): Option<Done> {
      if d == L2R then l2r else r2l
    }

    function Ends(d: Dir, done: Done): History {
      if d == L2R then this.(l2r := Some(done)) else this.(r2l := Some(done))
    }

    function Notes(wanted: bool, n: Note): History {
      if wanted then this.(notes := notes + [n]) else this
    }

    function Written(d: Dir): nat {
      if Of(d).Some? then Of(d).value.written else 0
    }

    /** The first result delivered with an error. */
    function Failure(): Option<Done> {
      if |delivered| > 0 && delivered[0].error.Some? then Some(delivered[0])
      else if |delivered| > 1 && delivered[1].error.Some? then Some(delivered[1])
      else None
    }

    function EndNote(): Note {
      if Failure().Some? then End(Written(L2R), Written(R2L), Failure().value.error, Some(Failure().value.dir))
      else End(Written(L2R), Written(R2L), None, None)
    }

    function After(e: Event): History {
      match e
      case ObserveStart => Notes(opts.start, Start)
      case BeginStream(d) => Notes(opts.streamStart, StreamStart(d))
      case CopyDone(d, written, copyError, halfError) =>
        Ends(d, Done(d, written, if copyError.Some? then copyError else if d in opts.halfCloses then halfError else None))
      case EndStream(d) => if Of(d).Some? then Notes(opts.streamEnd, StreamEnd(d, Of(d).value.error)) else this
      case Deliver(d) => if Of(d).Some? then this.(delivered := delivered + [Of(d).value]) else this
      case Receive => this.(received := received + 1)
      case ObserveEnd => Notes(opts.end, EndNote())
      case _ => this
    }
  }

  /** What happened in a run; events that were not enabled did not happen. */
  function Happened(opts: Opts, es: seq<Event>): History {
    if es == [] then History(opts, None, None, [], 0, [])
    else
      var init, e := es[..|es| - 1], es[|es| - 1];
      var h := Happened(opts, init);
      if Enabled(Run(Init(opts), init), e) then h.After(e) else h
  }

  predicate CopierFits(c: Copier, of: Option<Done>) {
    if HasDone(c) then of == Some(c.done) else of.None?
  }

  predicate Fits(s: State, h: History) {
    && s.opts == h.opts && CopierFits(s.l2r, h.l2r) && CopierFits(s.r2l, h.r2l)
    && Results(s) == h.delivered && |s.received| == h.received && s.notes == h.notes
  }

  lemma SameResultsFit(s: State, t: State, h: History, k: History)
    requires Fits(s, h) && t.opts == s.opts && t.received == s.received && t.dones == s.dones && t.notes == k.notes
    requires k.opts == h.opts && k.delivered == h.delivered && k.received == h.received
    requires CopierFits(t.l2r, k.l2r) && CopierFits(t.r2l, k.r2l)
    ensures Fits(t, k)
  {
  }

  lemma BeginStreamFits(s: State, h: History, d: Dir)
    requires Fits(s, h) && At(s, d).Starting?
    ensures Fits(BeginStreamStep(s, d), h.After(BeginStream(d)))
  {
    SameResultsFit(s, BeginStreamStep(s, d), h, h.After(BeginStream(d)));
  }

  lemma CopyDoneFits(s: State, h: History, d: Dir, written: nat, copyError: Option<nat>, halfError: Option<nat>)
    requires Fits(s, h) && At(s, d).Copying?
    ensures Fits(CopyDoneStep(s, d, written, copyError, halfError), h.After(CopyDone(d, written, copyError, halfError)))
  {
    CopyDoneMoves(s, d, written, copyError, halfError);
    SameResultsFit(s, CopyDoneStep(s, d, written, copyError, halfError), h,
                   h.After(CopyDone(d, written, copyError, halfError)));
  }

  lemma EndStreamFits(s: State, h: History, d: Dir)
    requires Fits(s, h) && At(s, d).Ending?
    ensures Fits(EndStreamStep(s, d), h.After(EndStream(d)))
  {
    SameResultsFit(s, EndStreamStep(s, d), h, h.After(EndStream(d)));
  }

  lemma CopyFits(s: State, h: History, e: Event)
    requires Fits(s, h) && Enabled(s, e) && (e.CopyDone? || e.BeginStream? || e.EndStream?)
    ensures Fits(Step(s, e), h.After(e))
  {
    if e.BeginStream? {
      BeginStreamFits(s, h, e.d);
    } else if e.CopyDone? {
      CopyDoneFits(s, h, e.d, e.written, e.copyError, e.halfError);
    } else {
      EndStreamFits(s, h, e.d);
    }
  }

  lemma DeliverFits(s: State, h: History, d: Dir)
    requires Fits(s, h) && At(s, d).Delivering?
    ensures Fits(DeliverStep(s, d), h.After(Deliver(d)))
  {
    assert Results(DeliverStep(s, d)) == Results(s) + [At(s, d).done];
  }

  lemma ReceiveFits(s: State, h: History)
    requires Fits(s, h) && |s.dones| > 0
    ensures Fits(ReceiveStep(s), h.After(Receive))
  {
    assert s.dones == [s.dones[0]] + s.dones[1..];
    assert Results(ReceiveStep(s)) == Results(s);
  }

  lemma SumOfTwo(r: seq<Done>)
    requires |r| == 2
    ensures Collected(r) == NoResults.Add(r[0]).Add(r[1])
  {
    assert r[..1] == [r[0]] && [r[0]][..0] == [] && Collected([]) == NoResults;
    assert Collected(r[..1]) == NoResults.Add(r[0]);
  }

  lemma EndFits(s: State, h: History)
    requires Fits(s, h) && Inv(s) && s.main.Collecting? && |s.received| == 2
    ensures var sum := Collected(s.received); End(sum.l2r, sum.r2l, sum.err, sum.errDir) == h.EndNote()
    ensures h.delivered == s.received
  {
    BothFinished(s);
    SumOfTwo(s.received);
    NoneLeft(s);
    assert s.received + [] == s.received;
  }

  /** There are two directions only. */
  lemma TwoAlike(r: seq<Done>)
    requires |r| > 2
    ensures exists i, j :: 0 <= i < j < |r| && r[i].dir == r[j].dir
  {
    assert r[0].dir == r[1].dir || r[0].dir == r[2].dir || r[1].dir == r[2].dir;
  }

  lemma NoneLeft(s: State)
    requires ResultsInv(s) && |s.received| == 2
    ensures s.dones == []
  {
    if s.dones != [] {
      TwoAlike(Results(s));
    }
  }

  lemma ObserveEndFits(s: State, h: History)
    requires Fits(s, h) && Inv(s) && s.main.Collecting? && |s.received| == 2
    ensures Fits(ObserveEndStep(s), h.After(ObserveEnd))
  {
    EndFits(s, h);
    assert Results(ObserveEndStep(s)) == Results(s);
  }

  lemma QuietFits(s: State, h: History, e: Event)
    requires Fits(s, h) && Shape(s) && Enabled(s, e)
    requires e.ObserveStart? || e.Spawn? || e.Observe? || e.EndContext? || e.SeeContextDone?
    ensures Fits(Step(s, e), h.After(e))
  {
    assert Results(Step(s, e)) == Results(s);
  }

  lemma {:induction false} RunFits(opts: Opts, es: seq<Event>)
    ensures Fits(Run(Init(opts), es), Happened(opts, es))
  {
    if es != [] {
      var init, e := es[..|es| - 1], es[|es| - 1];
      var s, h := Run(Init(opts), init), Happened(opts, init);
      RunFits(opts, init);
      Reachable(opts, init);
      if Enabled(s, e) {
        if e.CopyDone? || e.BeginStream? || e.EndStream? {
          CopyFits(s, h, e);
        } else if e.Deliver? {
          DeliverFits(s, h, e.d);
        } else if e.Receive? {
          ReceiveFits(s, h);
        } else if e.ObserveEnd? {
          ObserveEndFits(s, h);
        } else {
          QuietFits(s, h, e);
        }
      }
    }
  }

  /** The notes sent are exactly those asked for, each when its turn comes, with the errors and byte counts
      of the copiers. */
  lemma NotesTellWhatHappened(opts: Opts, es: seq<Event>)
    ensures Run(Init(opts), es).notes == Happened(opts, es).notes
  {
    RunFits(opts, es);
  }

  /** A call that has returned reports the bytes each copier copied, and as its error the first one
      delivered, with its direction. */
  lemma ReturnsWhatWasCopied(opts: Opts, es: seq<Event>)
    requires Run(Init(opts), es).main.Returned?
    ensures var s, h := Run(Init(opts), es), Happened(opts, es); var sum := Collected(s.received);
      && h.l2r.Some? && h.r2l.Some? && |h.delivered| == 2
      && sum.l2r == h.l2r.value.written && sum.r2l == h.r2l.value.written
      && (h.Failure().None? ==> sum.err.None?)
      && (h.Failure().Some? ==> sum.err == h.Failure().value.error && sum.errDir == Some(h.Failure().value.dir))
  {
    RunFits(opts, es);
    Reachable(opts, es);
    var s := Run(Init(opts), es);
    BothFinished(s);
    SumOfTwo(s.received);
    NoneLeft(s);
    assert s.received + [] == s.received;
  }
}
