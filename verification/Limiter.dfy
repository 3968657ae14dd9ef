/** Hierarchical add-then-check limiters (server.go:1172-1238). A level is a resourceLimiter or a
    connectionChannelLimiter; `parents` points to the limiter asked next. A limit of zero or less
    disables a level. */
module Limiter {
  import opened Prelude

  datatype Tree = Tree(limits: seq<int>, parents: seq<Option<nat>>)

  /** Parents come before their children, so chains end. */
  ghost predicate WellFormed(t: Tree) {
    && |t.parents| == |t.limits|
    && forall l :: 0 <= l < |t.parents| ==> t.parents[l].Some? ==> t.parents[l].value < l
  }

  predicate Limited(t: Tree, l: nat) {
    l < |t.limits| && t.limits[l] > 0
  }

  /** The levels a reservation at `l` goes through, from `l` to the root. */
  ghost function Chain(t: Tree, l: nat): seq<nat>
    requires WellFormed(t) && l < |t.limits|
  {
    if t.parents[l].None? then [l] else [l] + Chain(t, t.parents[l].value)
  }

  lemma {:induction false} ChainDescends(t: Tree, l: nat)
    requires WellFormed(t) && l < |t.limits|
    ensures var c := Chain(t, l);
      && c[0] == l
      && (forall i :: 0 <= i < |c| ==> c[i] <= l && c[i] < |t.limits|)
      && (forall i, j :: 0 <= i < j < |c| ==> c[j] < c[i])
      && (forall i :: 0 <= i < |c| - 1 ==> t.parents[c[i]] == Some(c[i + 1]))
      && t.parents[c[|c| - 1]].None?
  {
    if t.parents[l].Some? {
      var p := t.parents[l].value;
      ChainDescends(t, p);
      var c, d := Chain(t, l), Chain(t, p);
      assert forall i :: 1 <= i < |c| ==> c[i] == d[i - 1];
    }
  }

  // ---------------------------------------------------------------- one thread alone

  class Limiters {
    ghost const tree: Tree
    const limits: seq<int>
    const parents: seq<Option<nat>>
    const active: array<int>

    ghost predicate Valid() {
      tree == Tree(limits, parents) && WellFormed(tree) && active.Length == |limits|
    }

    constructor (limits: seq<int>, parents: seq<Option<nat>>)
      requires WellFormed(Tree(limits, parents))
      ensures Valid() && tree == Tree(limits, parents) && fresh(active)
      ensures forall l :: 0 <= l < active.Length ==> active[l] == 0
    {
      this.limits, this.parents, this.tree := limits, parents, Tree(limits, parents);
      this.active := new int[|limits|](_ => 0);
    }

    /** Grants exactly when every limited level of the chain has room; then each of them counts
        one more, and otherwise nothing has changed. */
    method Reserve(l: nat) returns (ok: bool)
      requires Valid() && l < active.Length
      modifies active
      ensures ok <==> forall k :: 0 <= k < active.Length && k in Chain(tree, l) && limits[k] > 0 ==> old(active[k]) < limits[k]
      ensures forall k :: 0 <= k < active.Length ==>
        active[k] == old(active[k]) + if ok && k in Chain(tree, l) && limits[k] > 0 then 1 else 0
    {
      ChainDescends(tree, l);
      ghost var chain := Chain(tree, l);
      assert l == chain[0] && l in chain;
      if parents[l].Some? {
        assert chain == [l] + Chain(tree, parents[l].value);
        ChainDescends(tree, parents[l].value);
      }
      var localReserved := false;
      if limits[l] > 0 {
        active[l] := active[l] + 1;
        if active[l] > limits[l] {
          active[l] := active[l] - 1;
          return false;
        }
        localReserved := true;
      }
      if parents[l].Some? {
        var granted := Reserve(parents[l].value);
        if !granted {
          if localReserved {
            active[l] := active[l] - 1;
          }
          return false;
        }
      }
      ok := true;
    }

    /** Gives back what a granted Reserve of the same level took. */
    method Release(l: nat)
      requires Valid() && l < active.Length
      modifies active
      ensures forall k :: 0 <= k < active.Length ==>
        active[k] == old(active[k]) - if k in Chain(tree, l) && limits[k] > 0 then 1 else 0
    {
      ChainDescends(tree, l);
      ghost var chain := Chain(tree, l);
      assert l == chain[0] && l in chain;
      if limits[l] > 0 {
        active[l] := active[l] - 1;
      }
      if parents[l].Some? {
        assert chain == [l] + Chain(tree, parents[l].value);
        ChainDescends(tree, parents[l].value);
        Release(parents[l].value);
      }
    }
  }

  // ---------------------------------------------------------------- many threads, one atomic add a step

  datatype Pc = Climbing | Undoing | Granted | Releasing | Over

  /** A reservation: `at` is its position on the chain, `held` the levels that count it now and
      `passed` those whose check it has passed. */
  datatype Thread = Thread(chain: seq<nat>, at: nat, pc: Pc, held: set<nat>, passed: set<nat>)

  datatype State = State(tree: Tree, counters: seq<int>, threads: map<nat, Thread>)

  datatype Event = Reserve(x: nat, l: nat) | Climb(x: nat) | Undo(x: nat) | Release(x: nat) | Descend(x: nat)

  ghost predicate InitFor(s: State) {
    && WellFormed(s.tree) && |s.counters| == |s.tree.limits| && s.threads == map[]
    && forall l :: 0 <= l < |s.counters| ==> s.counters[l] == 0
  }

  predicate Is(s: State, x: nat, pc: Pc) {
    x in s.threads && s.threads[x].pc == pc
  }

  predicate OnChain(s: State, x: nat) {
    && x in s.threads && s.threads[x].at < |s.threads[x].chain|
    && s.threads[x].chain[s.threads[x].at] < |s.counters| == |s.tree.limits|
  }

  ghost predicate Enabled(s: State, e: Event) {
    match e
    case Reserve(x, l) => x !in s.threads && WellFormed(s.tree) && l < |s.tree.limits|
    case Climb(x) => Is(s, x, Climbing) && OnChain(s, x)
    case Undo(x) => Is(s, x, Undoing) && OnChain(s, x)
    case Release(x) => Is(s, x, Granted)
    case Descend(x) => Is(s, x, Releasing) && OnChain(s, x)
  }

  function Level(s: State, x: nat): nat
    requires OnChain(s, x)
  {
    s.threads[x].chain[s.threads[x].at]
  }

  function Bump(s: State, l: nat, d: int): State
    requires l < |s.counters|
  {
    s.(counters := s.counters[l := s.counters[l] + d])
  }

  function Set(s: State, x: nat, t: Thread): State {
    s.(threads := s.threads[x := t])
  }

  function Next(t: Thread): Thread {
    t.(at := t.at + 1, pc := if t.at + 1 == |t.chain| then (if t.pc == Climbing then Granted else Over) else t.pc)
  }

  function ClimbStep(s: State, x: nat): State
    requires x in s.threads && OnChain(s, x)
  {
    var t, l := s.threads[x], Level(s, x);
    if !Limited(s.tree, l) then Set(s, x, Next(t))
    else if s.counters[l] + 1 > s.tree.limits[l] then
      Set(Bump(s, l, 1), x, t.(pc := Undoing, held := t.held + {l}))
    else Set(Bump(s, l, 1), x, Next(t.(held := t.held + {l}, passed := t.passed + {l})))
  }

  /** Only frames whose localReserved flag is set take their increment back. */
  function UndoStep(s: State, x: nat): State
    requires x in s.threads && OnChain(s, x)
  {
    var t, l := s.threads[x], Level(s, x);
    var u := t.(held := t.held - {l}, passed := t.passed - {l}, at := if t.at == 0 then 0 else t.at - 1,
                pc := if t.at == 0 then Over else Undoing);
    if l in t.held then Set(Bump(s, l, -1), x, u) else Set(s, x, u)
  }

  function DescendStep(s: State, x: nat): State
    requires x in s.threads && OnChain(s, x)
  {
    var t, l := s.threads[x], Level(s, x);
    if Limited(s.tree, l) then Set(Bump(s, l, -1), x, Next(t.(held := t.held - {l}, passed := t.passed - {l})))
    else Set(s, x, Next(t))
  }

  ghost function Step(s: State, e: Event): State
    requires Enabled(s, e)
  {
    match e
    case Reserve(x, l) => Set(s, x, Thread(Chain(s.tree, l), 0, Climbing, {}, {}))
    case Climb(x) => ClimbStep(s, x)
    case Undo(x) => UndoStep(s, x)
    case Release(x) => Set(s, x, s.threads[x].(pc := Releasing, at := 0))
    case Descend(x) => DescendStep(s, x)
  }

  ghost function Run(s: State, es: seq<Event>): State {
    if es == [] then s
    else
      var t := Run(s, es[..|es| - 1]);
      if Enabled(t, es[|es| - 1]) then Step(t, es[|es| - 1]) else t
  }

  // ---------------------------------------------------------------- the invariant

  function HoldsAt(l: nat): Thread -> bool {
    (t: Thread) => l in t.held
  }

  function PassedAt(l: nat): Thread -> bool {
    (t: Thread) => l in t.passed
  }

  /** The limited levels among positions lo..hi of a chain. */
  function LimitedIn(tree: Tree, chain: seq<nat>, lo: nat, hi: nat): set<nat>
    requires lo <= hi <= |chain|
  {
    LimitedOf(tree, chain[lo..hi])
  }

  function LimitedOf(tree: Tree, levels: seq<nat>): set<nat> {
    set l | l in levels && Limited(tree, l)
  }

  lemma LimitedOfSplit(tree: Tree, a: seq<nat>, x: nat, b: seq<nat>)
    ensures LimitedOf(tree, a + [x] + b) == LimitedOf(tree, a) + LimitedOf(tree, b) + if Limited(tree, x) then {x} else {}
  {
  }

  ghost predicate ThreadOk(tree: Tree, t: Thread)
    requires WellFormed(tree)
  {
    && |t.chain| > 0
    && t.chain[0] < |tree.limits| && t.chain == Chain(tree, t.chain[0])
    && t.passed <= t.held
    && (t.pc.Climbing? || t.pc.Releasing? || t.pc.Undoing? ==> t.at < |t.chain|)
    && (t.pc.Climbing? ==> t.held == t.passed == LimitedIn(tree, t.chain, 0, t.at))
    && (t.pc.Undoing? ==> t.held == LimitedIn(tree, t.chain, 0, t.at + 1))
    && (t.pc.Granted? ==> t.held == t.passed == LimitedIn(tree, t.chain, 0, |t.chain|))
    && (t.pc.Releasing? ==> t.held == t.passed == LimitedIn(tree, t.chain, t.at, |t.chain|))
    && (t.pc.Over? ==> t.held == {})
  }

  ghost predicate Threads(s: State) {
    && WellFormed(s.tree) && |s.counters| == |s.tree.limits|
    && forall x :: x in s.threads ==> ThreadOk(s.tree, s.threads[x])
  }

  ghost predicate Counters(s: State) {
    forall l: nat :: l < |s.counters| ==>
      && s.counters[l] == Count(s.threads, HoldsAt(l))
      && (Limited(s.tree, l) ==> Count(s.threads, PassedAt(l)) <= s.tree.limits[l])
  }

  lemma LimitedStep(tree: Tree, t: Thread)
    requires WellFormed(tree) && ThreadOk(tree, t) && t.at < |t.chain|
    ensures var c, k := t.chain, t.at; var here := if Limited(tree, c[k]) then {c[k]} else {};
      && c[k] < |tree.limits|
      && c[k] !in LimitedIn(tree, c, 0, k)
      && LimitedIn(tree, c, 0, k + 1) == LimitedIn(tree, c, 0, k) + here
      && c[k] !in LimitedIn(tree, c, k + 1, |c|)
      && LimitedIn(tree, c, k, |c|) == LimitedIn(tree, c, k + 1, |c|) + here
  {
    ChainDescends(tree, t.chain[0]);
    LimitedAround(tree, t.chain, t.at);
  }

  lemma LimitedAround(tree: Tree, c: seq<nat>, k: nat)
    requires k < |c| && forall i, j :: 0 <= i < j < |c| ==> c[j] < c[i]
    ensures var here := if Limited(tree, c[k]) then {c[k]} else {};
      && c[k] !in LimitedIn(tree, c, 0, k)
      && LimitedIn(tree, c, 0, k + 1) == LimitedIn(tree, c, 0, k) + here
      && c[k] !in LimitedIn(tree, c, k + 1, |c|)
      && LimitedIn(tree, c, k, |c|) == LimitedIn(tree, c, k + 1, |c|) + here
  {
    SplitAt(c, k);
    var a, b := c[0..k], c[k + 1..|c|];
    LimitedOfSplit(tree, a, c[k], []);
    LimitedOfSplit(tree, [], c[k], b);
    assert a + [c[k]] + [] == a + [c[k]] && [] + [c[k]] + b == [c[k]] + b;
  }

  lemma SplitAt(c: seq<nat>, k: nat)
    requires k < |c| && forall i, j :: 0 <= i < j < |c| ==> c[j] < c[i]
    ensures c[0..k + 1] == c[0..k] + [c[k]] && c[k..|c|] == [c[k]] + c[k + 1..|c|]
    ensures c[k] !in c[0..k] && c[k] !in c[k + 1..|c|]
  {
  }

  lemma NothingLeft(tree: Tree, c: seq<nat>)
    ensures LimitedIn(tree, c, 0, 0) == {} && LimitedIn(tree, c, |c|, |c|) == {}
  {
  }

  lemma ThreadsStep(s: State, e: Event)
    requires Threads(s) && Enabled(s, e)
    ensures Threads(Step(s, e))
  {
    match e
    case Reserve(x, l) =>
      ChainDescends(s.tree, l);
      NothingLeft(s.tree, Chain(s.tree, l));
    case Release(x) =>
    case Climb(x) => ClimbOk(s, x);
    case Undo(x) => UndoOk(s, x);
    case Descend(x) => DescendOk(s, x);
  }

  /** One thread moves, to a sound place. */
  lemma OneThread(s: State, t: State, x: nat, v: Thread)
    requires Threads(s) && t.tree == s.tree && |t.counters| == |s.counters|
    requires t.threads == s.threads[x := v] && ThreadOk(s.tree, v)
    ensures Threads(t)
  {
  }

  lemma ClimbThread(s: State, x: nat)
    requires Threads(s) && Is(s, x, Climbing) && OnChain(s, x)
    ensures ThreadOk(s.tree, ClimbStep(s, x).threads[x])
  {
    LimitedStep(s.tree, s.threads[x]);
  }

  lemma ClimbOk(s: State, x: nat)
    requires Threads(s) && Is(s, x, Climbing) && OnChain(s, x)
    ensures Threads(ClimbStep(s, x))
  {
    ClimbThread(s, x);
    OneThread(s, ClimbStep(s, x), x, ClimbStep(s, x).threads[x]);
  }

  lemma UndoThread(s: State, x: nat)
    requires Threads(s) && Is(s, x, Undoing) && OnChain(s, x)
    ensures ThreadOk(s.tree, UndoStep(s, x).threads[x])
  {
    LimitedStep(s.tree, s.threads[x]);
    NothingLeft(s.tree, s.threads[x].chain);
  }

  lemma UndoOk(s: State, x: nat)
    requires Threads(s) && Is(s, x, Undoing) && OnChain(s, x)
    ensures Threads(UndoStep(s, x))
  {
    UndoThread(s, x);
    OneThread(s, UndoStep(s, x), x, UndoStep(s, x).threads[x]);
  }

  lemma DescendThread(s: State, x: nat)
    requires Threads(s) && Is(s, x, Releasing) && OnChain(s, x)
    ensures ThreadOk(s.tree, DescendStep(s, x).threads[x])
  {
    LimitedStep(s.tree, s.threads[x]);
    NothingLeft(s.tree, s.threads[x].chain);
  }

  lemma DescendOk(s: State, x: nat)
    requires Threads(s) && Is(s, x, Releasing) && OnChain(s, x)
    ensures Threads(DescendStep(s, x))
  {
    DescendThread(s, x);
    OneThread(s, DescendStep(s, x), x, DescendStep(s, x).threads[x]);
  }

  /** Passing a check needs room: those who passed are among those counted. */
  lemma PassedAmongHeld(threads: map<nat, Thread>, l: nat)
    requires forall x :: x in threads ==> threads[x].passed <= threads[x].held
    ensures Count(threads, PassedAt(l)) <= Count(threads, HoldsAt(l))
  {
    var p, h := Where(threads, PassedAt(l)), Where(threads, HoldsAt(l));
    assert p <= h;
    SubsetSize(p, h);
  }

  lemma {:induction false} SubsetSize(a: set<nat>, b: set<nat>)
    requires a <= b
    ensures |a| <= |b|
  {
    if a != {} {
      var k :| k in a;
      SubsetSize(a - {k}, b - {k});
    }
  }

  /** One thread changes; its levels' counters follow. */
  lemma CountersUpdate(s: State, t: State, x: nat, v: Thread, l: nat)
    requires Counters(s) && l < |s.counters| == |t.counters| && t.tree == s.tree && t.threads == s.threads[x := v]
    requires t.counters[l] == s.counters[l] + One(l in v.held) - One(x in s.threads && l in s.threads[x].held)
    requires Limited(s.tree, l) && l in v.passed && !(x in s.threads && l in s.threads[x].passed) ==>
      s.counters[l] < s.tree.limits[l] && Count(s.threads, PassedAt(l)) <= s.counters[l]
    ensures t.counters[l] == Count(t.threads, HoldsAt(l))
    ensures Limited(t.tree, l) ==> Count(t.threads, PassedAt(l)) <= t.tree.limits[l]
  {
    CountUpdate(s.threads, x, v, HoldsAt(l));
    CountUpdate(s.threads, x, v, PassedAt(l));
  }

  lemma CountersStep(s: State, e: Event)
    requires Threads(s) && Counters(s) && Enabled(s, e)
    ensures Counters(Step(s, e))
  {
    var t := Step(s, e);
    StepShape(s, e);
    forall l: nat | l < |t.counters|
      ensures t.counters[l] == Count(t.threads, HoldsAt(l))
      ensures Limited(t.tree, l) ==> Count(t.threads, PassedAt(l)) <= t.tree.limits[l]
    {
      PassedAmongHeld(s.threads, l);
      CountersUpdate(s, t, e.x, t.threads[e.x], l);
    }
  }

  /** Thread `x` moves, and each counter by what it took or gave back; it passes a check only at a
      limited level with room. */
  ghost predicate Moved(s: State, t: State, x: nat) {
    && t.tree == s.tree && |t.counters| == |s.counters|
    && x in t.threads && t.threads == s.threads[x := t.threads[x]]
    && (forall l: nat :: l < |s.counters| ==>
          && t.counters[l] == s.counters[l] + One(l in t.threads[x].held) - One(x in s.threads && l in s.threads[x].held)
          && (l in t.threads[x].passed && !(x in s.threads && l in s.threads[x].passed) ==>
                Limited(s.tree, l) && s.counters[l] < s.tree.limits[l]))
  }

  lemma ClimbShape(s: State, x: nat)
    requires Threads(s) && Is(s, x, Climbing) && OnChain(s, x)
    ensures Moved(s, ClimbStep(s, x), x)
  {
    LimitedStep(s.tree, s.threads[x]);
  }

  lemma UndoShape(s: State, x: nat)
    requires Threads(s) && Is(s, x, Undoing) && OnChain(s, x)
    ensures Moved(s, UndoStep(s, x), x)
  {
  }

  lemma DescendShape(s: State, x: nat)
    requires Threads(s) && Is(s, x, Releasing) && OnChain(s, x)
    ensures Moved(s, DescendStep(s, x), x)
  {
    LimitedStep(s.tree, s.threads[x]);
  }

  lemma StepShape(s: State, e: Event)
    requires Threads(s) && Enabled(s, e)
    ensures Moved(s, Step(s, e), e.x)
  {
    if e.Climb? {
      ClimbShape(s, e.x);
    } else if e.Undo? {
      UndoShape(s, e.x);
    } else if e.Descend? {
      DescendShape(s, e.x);
    }
  }

  lemma {:induction false} RunKeepsInv(s: State, es: seq<Event>)
    requires InitFor(s)
    ensures Threads(Run(s, es)) && Counters(Run(s, es)) && Run(s, es).tree == s.tree
  {
    if es == [] {
      forall l: nat | l < |s.counters|
        ensures Count(s.threads, HoldsAt(l)) == 0 && Count(s.threads, PassedAt(l)) == 0
      {
        assert Where(s.threads, HoldsAt(l)) == {} && Where(s.threads, PassedAt(l)) == {};
      }
    } else {
      var t, e := Run(s, es[..|es| - 1]), es[|es| - 1];
      RunKeepsInv(s, es[..|es| - 1]);
      if Enabled(t, e) {
        ThreadsStep(t, e);
        CountersStep(t, e);
        StepShape(t, e);
      }
    }
  }

  // ---------------------------------------------------------------- what the limits guarantee

  function GrantedAt(l: nat): Thread -> bool {
    (t: Thread) => t.pc.Granted? && l in t.chain
  }

  /** Under every interleaving of single adds, no level grants more than its limit. */
  lemma NeverOverGranted(s: State, es: seq<Event>, l: nat)
    requires InitFor(s) && Limited(s.tree, l)
    ensures Count(Run(s, es).threads, GrantedAt(l)) <= s.tree.limits[l]
  {
    RunKeepsInv(s, es);
    var t := Run(s, es);
    var g, p := Where(t.threads, GrantedAt(l)), Where(t.threads, PassedAt(l));
    forall x | x in g
      ensures x in p
    {
      assert ThreadOk(t.tree, t.threads[x]);
      assert t.threads[x].chain[0..|t.threads[x].chain|] == t.threads[x].chain;
    }
    SubsetSize(g, p);
  }

  /** Each counter is exactly the number of reservations holding an increment there, granted,
      tentative, or being undone or released; unlimited levels count nothing. */
  lemma CountersExact(s: State, es: seq<Event>, l: nat)
    requires InitFor(s) && l < |s.tree.limits|
    ensures var t := Run(s, es);
      && l < |t.counters| && t.counters[l] == Count(t.threads, HoldsAt(l))
      && (!Limited(s.tree, l) ==> t.counters[l] == 0)
  {
    RunKeepsInv(s, es);
    var t := Run(s, es);
    if !Limited(s.tree, l) {
      forall x | x in t.threads
        ensures l !in t.threads[x].held
      {
        assert ThreadOk(t.tree, t.threads[x]);
      }
      assert Where(t.threads, HoldsAt(l)) == {};
    }
  }

  /** In every interleaving a reservation is turned back at a level exactly if as many reservations
      hold an increment there as it has room for; otherwise it goes on, and is granted at the root. */
  lemma TurnedBackIffFull(s: State, es: seq<Event>, x: nat)
    requires InitFor(s) && Enabled(Run(s, es), Climb(x))
    ensures var t := Run(s, es); var u := Step(t, Climb(x)); var l := Level(t, x);
      && x in u.threads && l < |s.tree.limits|
      && (u.threads[x].pc.Undoing? <==> Limited(s.tree, l) && Count(t.threads, HoldsAt(l)) >= s.tree.limits[l])
      && (!u.threads[x].pc.Undoing? ==>
            && u.threads[x].at == t.threads[x].at + 1
            && u.threads[x].pc == if u.threads[x].at == |t.threads[x].chain| then Granted else Climbing)
  {
    RunKeepsInv(s, es);
    var t := Run(s, es);
    assert t.counters[Level(t, x)] == Count(t.threads, HoldsAt(Level(t, x)));
  }

  /** The level each reservation was made for, and whether it has been released, by the events. */
  datatype Asked = Asked(level: nat, released: bool)

  ghost function Happened(s: State, es: seq<Event>): map<nat, Asked> {
    if es == [] then map[]
    else
      var init, e := es[..|es| - 1], es[|es| - 1];
      var h := Happened(s, init);
      if !Enabled(Run(s, init), e) then h
      else if e.Reserve? then h[e.x := Asked(e.l, false)]
      else if e.Release? && e.x in h then h[e.x := Asked(h[e.x].level, true)]
      else h
  }

  ghost predicate AsAsked(tree: Tree, t: Thread, h: Asked)
    requires WellFormed(tree)
  {
    && h.level < |tree.limits| && t.chain == Chain(tree, h.level)
    && (t.pc.Climbing? || t.pc.Undoing? || t.pc.Granted? ==> !h.released) && (t.pc.Releasing? ==> h.released)
  }

  ghost predicate AllAsAsked(s: State, h: map<nat, Asked>) {
    && WellFormed(s.tree) && s.threads.Keys == h.Keys
    && forall x :: x in s.threads ==> AsAsked(s.tree, s.threads[x], h[x])
  }

  /** Every reservation climbs the chain of the level it was made for, stays granted until it is
      released, and is taken back only then. */
  lemma {:induction false} ReservationsAsAsked(s: State, es: seq<Event>)
    requires InitFor(s)
    ensures AllAsAsked(Run(s, es), Happened(s, es)) && Run(s, es).tree == s.tree
  {
    if es != [] {
      var init, e := es[..|es| - 1], es[|es| - 1];
      var t := Run(s, init);
      ReservationsAsAsked(s, init);
      if Enabled(t, e) {
        AskedStep(t, Happened(s, init), e);
      }
    }
  }

  lemma AskedStep(s: State, h: map<nat, Asked>, e: Event)
    requires AllAsAsked(s, h) && Enabled(s, e)
    ensures Step(s, e).tree == s.tree
    ensures AllAsAsked(Step(s, e),
      if e.Reserve? then h[e.x := Asked(e.l, false)]
      else if e.Release? && e.x in h then h[e.x := Asked(h[e.x].level, true)]
      else h)
  {
    if e.Climb? {
      assert AsAsked(s.tree, ClimbStep(s, e.x).threads[e.x], h[e.x]);
    } else if e.Undo? {
      assert AsAsked(s.tree, UndoStep(s, e.x).threads[e.x], h[e.x]);
    } else if e.Descend? {
      assert AsAsked(s.tree, DescendStep(s, e.x).threads[e.x], h[e.x]);
    }
  }

  /** No reservation or release is half way. */
  predicate Settled(s: State) {
    forall x | x in s.threads :: s.threads[x].pc.Granted? || s.threads[x].pc.Over?
  }

  lemma SettledCounter(s: State, l: nat)
    requires Threads(s) && Counters(s) && Settled(s) && Limited(s.tree, l)
    ensures s.counters[l] == Count(s.threads, GrantedAt(l))
  {
    forall x | x in s.threads
      ensures HoldsAt(l)(s.threads[x]) == GrantedAt(l)(s.threads[x])
    {
      assert ThreadOk(s.tree, s.threads[x]);
      assert s.threads[x].chain[0..|s.threads[x].chain|] == s.threads[x].chain;
    }
    assert Where(s.threads, HoldsAt(l)) == Where(s.threads, GrantedAt(l));
  }

  // ---------------------------------------------------------------- a parent is the sum of its children

  lemma LinkAt(tree: Tree, l: nat, c: nat) returns (i: nat)
    requires WellFormed(tree) && l < |tree.limits| && c in Chain(tree, l)
    ensures i < |Chain(tree, l)| && Chain(tree, l)[i] == c && c < |tree.limits|
    ensures i + 1 < |Chain(tree, l)| ==> tree.parents[c] == Some(Chain(tree, l)[i + 1])
    ensures i + 1 == |Chain(tree, l)| ==> tree.parents[c].None?
  {
    ChainDescends(tree, l);
    i :| 0 <= i < |Chain(tree, l)| && Chain(tree, l)[i] == c;
  }

  /** On a chain a level above the first follows exactly one of its children. */
  lemma OneChild(tree: Tree, l: nat, p: nat)
    requires WellFormed(tree) && l < |tree.limits|
    ensures p in Chain(tree, l) && p != l <==> exists c: nat :: ChildOn(tree, l, p, c)
    ensures forall c: nat, d: nat :: ChildOn(tree, l, p, c) && ChildOn(tree, l, p, d) ==> c == d
  {
    ChainDescends(tree, l);
    var chain := Chain(tree, l);
    if p in chain && p != l {
      var i :| 0 <= i < |chain| && chain[i] == p;
      assert ChildOn(tree, l, p, chain[i - 1]);
    }
    forall c: nat | ChildOn(tree, l, p, c)
      ensures p in chain && p != l
      ensures forall d: nat :: ChildOn(tree, l, p, d) ==> c == d
    {
      var i := LinkAt(tree, l, c);
      assert chain[i + 1] == p;
      forall d: nat | ChildOn(tree, l, p, d)
        ensures c == d
      {
        var j := LinkAt(tree, l, d);
        assert chain[j + 1] == p;
      }
    }
  }

  ghost predicate ChildOn(tree: Tree, l: nat, p: nat, c: nat)
    requires WellFormed(tree) && l < |tree.limits|
  {
    c in Chain(tree, l) && c < |tree.parents| && tree.parents[c] == Some(p)
  }

  /** Granted reservations that start at `p`, or reach it from one of the levels below `n`. */
  ghost function Via(tree: Tree, p: nat, n: nat): Thread -> bool {
    (t: Thread) => t.pc.Granted? && |t.chain| > 0 && p in t.chain
      && (t.chain[0] == p || exists c: nat :: c < n && c in t.chain && c < |tree.parents| && tree.parents[c] == Some(p))
  }

  /** What the children of `p` among the levels below `n` have granted, added up. */
  ghost function ChildGrants(s: State, p: nat, n: nat): int
    requires n <= |s.tree.parents|
  {
    if n == 0 then 0
    else ChildGrants(s, p, n - 1) + if s.tree.parents[n - 1] == Some(p) then Count(s.threads, GrantedAt(n - 1)) else 0
  }

  function Direct(p: nat): Thread -> bool {
    (t: Thread) => t.pc.Granted? && |t.chain| > 0 && t.chain[0] == p
  }

  lemma {:induction false} ViaSplits(s: State, p: nat, n: nat)
    requires Threads(s) && n <= |s.tree.limits|
    ensures Count(s.threads, Via(s.tree, p, n)) == Count(s.threads, Direct(p)) + ChildGrants(s, p, n)
  {
    if n == 0 {
      forall x | x in s.threads
        ensures Via(s.tree, p, 0)(s.threads[x]) == Direct(p)(s.threads[x])
      {
        assert s.threads[x].chain[0] in s.threads[x].chain;
      }
      assert Where(s.threads, Via(s.tree, p, 0)) == Where(s.threads, Direct(p));
    } else {
      ViaSplits(s, p, n - 1);
      ViaGrows(s, p, n);
    }
  }

  lemma ViaGrows(s: State, p: nat, n: nat)
    requires Threads(s) && 0 < n <= |s.tree.limits|
    ensures Count(s.threads, Via(s.tree, p, n)) == Count(s.threads, Via(s.tree, p, n - 1))
              + if s.tree.parents[n - 1] == Some(p) then Count(s.threads, GrantedAt(n - 1)) else 0
  {
    var was, now := Where(s.threads, Via(s.tree, p, n - 1)), Where(s.threads, Via(s.tree, p, n));
    var more := if s.tree.parents[n - 1] == Some(p) then Where(s.threads, GrantedAt(n - 1)) else {};
    forall x | x in s.threads
      ensures x in now <==> x in was || x in more
      ensures !(x in was && x in more)
    {
      NewChild(s.tree, s.threads[x], p, n);
    }
    assert now == was + more && was !! more;
  }

  lemma NewChild(tree: Tree, t: Thread, p: nat, n: nat)
    requires WellFormed(tree) && ThreadOk(tree, t) && 0 < n <= |tree.limits|
    ensures Via(tree, p, n)(t) <==> Via(tree, p, n - 1)(t) || (tree.parents[n - 1] == Some(p) && GrantedAt(n - 1)(t))
    ensures !(Via(tree, p, n - 1)(t) && tree.parents[n - 1] == Some(p) && GrantedAt(n - 1)(t))
  {
    OneChild(tree, t.chain[0], p);
    assert forall c: nat :: c in t.chain && c < |tree.parents| && tree.parents[c] == Some(p) ==>
      ChildOn(tree, t.chain[0], p, c);
  }

  /** With no reservation half way, in any run, a level's counter is what was reserved at it
      directly plus what its children have granted; a limited child's grants are its counter. */
  lemma ParentIsSumOfChildren(s: State, es: seq<Event>, p: nat)
    requires InitFor(s) && Limited(s.tree, p) && Settled(Run(s, es))
    ensures var t := Run(s, es);
      && p < |t.counters| && |s.tree.limits| == |t.tree.parents|
      && t.counters[p] == Count(t.threads, Direct(p)) + ChildGrants(t, p, |s.tree.limits|)
      && forall c: nat :: Limited(s.tree, c) ==> c < |t.counters| && t.counters[c] == Count(t.threads, GrantedAt(c))
  {
    RunKeepsInv(s, es);
    var t := Run(s, es);
    var n := |s.tree.limits|;
    forall c: nat | Limited(s.tree, c)
      ensures c < |t.counters| && t.counters[c] == Count(t.threads, GrantedAt(c))
    {
      SettledCounter(t, c);
    }
    ViaSplits(t, p, n);
    forall x | x in t.threads
      ensures Via(t.tree, p, n)(t.threads[x]) == GrantedAt(p)(t.threads[x])
    {
      ViaAll(t.tree, t.threads[x], p);
    }
    assert Where(t.threads, Via(t.tree, p, n)) == Where(t.threads, GrantedAt(p));
  }

  lemma ViaAll(tree: Tree, t: Thread, p: nat)
    requires WellFormed(tree) && ThreadOk(tree, t)
    ensures Via(tree, p, |tree.limits|)(t) == GrantedAt(p)(t)
  {
    OneChild(tree, t.chain[0], p);
    if p in t.chain && p != t.chain[0] {
      var c: nat :| ChildOn(tree, t.chain[0], p, c);
      assert c < |tree.limits|;
    }
  }
}
