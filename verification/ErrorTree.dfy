/** Classification of wrapped and joined errors (error-handling.go:223-243, session.go:780-806). */
module ErrorTree {
  import opened Prelude

  /** An error value. `id` is pointer identity. A leaf may present itself as a session exit
      through an As method; a *SessionExitError may be a typed nil pointer. */
  datatype Err =
    | Nil
    | Leaf(id: nat, asExit: Option<nat>)
    | Exit(id: nat, isNil: bool)
    | Wrap(inner: Err)
    | Join(children: seq<Err>)

  /** Errors with nothing behind them; a wrapper of nil is one too. */
  predicate Atomic(e: Err) {
    e.Leaf? || e.Exit? || e == Wrap(Nil)
  }

  /** What errors.Is says of an error with nothing behind it: equality if the values can be
      compared, or whatever the error's own Is method answers. */
  type Match = (Err, Err) -> bool

  predicate IsOnlyError(e: Err, target: Err, matches: Match)
    decreases e
  {
    if e.Nil? || target.Nil? then false
    else if e.Join? then
      |e.children| != 0 && forall i | 0 <= i < |e.children| :: IsOnlyError(e.children[i], target, matches)
    else if e.Wrap? && !e.inner.Nil? then IsOnlyError(e.inner, target, matches)
    else matches(e, target)
  }

  /** The atoms (and nil children) of a tree from left to right. */
  function Leaves(e: Err): seq<Err>
    decreases e
  {
    match e
    case Join(cs) => LeavesOf(e, cs)
    case Wrap(inner) => if inner.Nil? then [e] else Leaves(inner)
    case _ => [e]
  }

  function LeavesOf(parent: Err, cs: seq<Err>): seq<Err>
    requires forall i :: 0 <= i < |cs| ==> cs[i] < parent
    decreases parent, |cs|
  {
    if cs == [] then [] else Leaves(cs[0]) + LeavesOf(parent, cs[1..])
  }

  predicate NoEmptyJoin(e: Err)
    decreases e
  {
    match e
    case Join(cs) => |cs| != 0 && forall i | 0 <= i < |cs| :: NoEmptyJoin(cs[i])
    case Wrap(inner) => NoEmptyJoin(inner)
    case _ => true
  }

  ghost predicate AllMatch(leaves: seq<Err>, target: Err, matches: Match) {
    forall i :: 0 <= i < |leaves| ==> Atomic(leaves[i]) && matches(leaves[i], target)
  }

  /** isOnlyError holds exactly when there is a target, every leaf matches it and no join is empty,
      whatever Is methods the leaves have. */
  lemma {:induction false} OnlyTargetLeaves(e: Err, target: Err, matches: Match)
    ensures IsOnlyError(e, target, matches)
      <==> !target.Nil? && NoEmptyJoin(e) && AllMatch(Leaves(e), target, matches)
    decreases e
  {
    match e
    case Join(cs) =>
      forall i | 0 <= i < |cs|
        ensures IsOnlyError(cs[i], target, matches)
          <==> !target.Nil? && NoEmptyJoin(cs[i]) && AllMatch(Leaves(cs[i]), target, matches)
      {
        OnlyTargetLeaves(cs[i], target, matches);
      }
      AllMatchOf(e, cs, target, matches);
    case Wrap(inner) =>
      OnlyTargetLeaves(inner, target, matches);
      assert Leaves(Nil)[0] == Nil;
      assert inner.Nil? ==> Leaves(e)[0] == e;
    case _ =>
      assert Leaves(e) == [e] && Leaves(e)[0] == e;
  }

  lemma AllMatchConcat(a: seq<Err>, b: seq<Err>, target: Err, matches: Match)
    ensures AllMatch(a + b, target, matches) <==> AllMatch(a, target, matches) && AllMatch(b, target, matches)
  {
    forall i | 0 <= i < |a| ensures a[i] == (a + b)[i] {}
    forall i | 0 <= i < |b| ensures b[i] == (a + b)[|a| + i] {}
  }

  lemma {:induction false} AllMatchOf(parent: Err, cs: seq<Err>, target: Err, matches: Match)
    requires forall i :: 0 <= i < |cs| ==> cs[i] < parent
    ensures AllMatch(LeavesOf(parent, cs), target, matches)
      <==> forall i :: 0 <= i < |cs| ==> AllMatch(Leaves(cs[i]), target, matches)
    decreases |cs|
  {
    if cs != [] {
      AllMatchOf(parent, cs[1..], target, matches);
      AllMatchConcat(Leaves(cs[0]), LeavesOf(parent, cs[1..]), target, matches);
      forall i | 1 <= i < |cs|
        ensures cs[i] == cs[1..][i - 1]
      {
      }
      assert forall i :: 0 <= i < |cs[1..]| ==> cs[1..][i] == cs[i + 1];
    }
  }

  // ---------------------------------------------------------------- session exits

  /** What a leaf contributes: a non-nil exit error, itself or through As. */
  function ExitOf(leaf: Err): Option<nat> {
    match leaf
    case Exit(id, isNil) => if isNil then None else Some(id)
    case Leaf(_, asExit) => asExit
    case _ => None
  }

  function ExclusiveExit(e: Err): Option<nat>
    decreases e
  {
    match e
    case Nil => None
    case Join(cs) => ExclusiveAmong(e, cs, None)
    case Wrap(inner) => if inner.Nil? then None else ExclusiveExit(inner)
    case _ => ExitOf(e)
  }

  /** The loop over the children of a join, with `found` the exit seen so far. */
  function ExclusiveAmong(parent: Err, cs: seq<Err>, found: Option<nat>): Option<nat>
    requires forall i :: 0 <= i < |cs| ==> cs[i] < parent
    decreases parent, |cs|
  {
    if cs == [] then found
    else
      var child := ExclusiveExit(cs[0]);
      if child.None? || found.Some? then None else ExclusiveAmong(parent, cs[1..], child)
  }

  lemma {:induction false} LeavesNonEmpty(e: Err)
    requires NoEmptyJoin(e)
    ensures Leaves(e) != []
    decreases e
  {
    match e
    case Join(cs) => LeavesNonEmpty(cs[0]);
    case Wrap(inner) => if !inner.Nil? { LeavesNonEmpty(inner); }
    case _ =>
  }

  /** A controlled exit is recognised exactly when the tree has one leaf, that leaf is a
      non-nil exit, and no join is empty. */
  lemma {:induction false} ExclusiveExitLeaf(e: Err)
    ensures ExclusiveExit(e).Some? <==> NoEmptyJoin(e) && |Leaves(e)| == 1 && ExitOf(Leaves(e)[0]).Some?
    ensures ExclusiveExit(e).Some? ==> ExclusiveExit(e) == ExitOf(Leaves(e)[0])
    decreases e
  {
    match e
    case Join(cs) =>
      if |cs| >= 1 {
        ExclusiveExitLeaf(cs[0]);
        assert LeavesOf(e, cs) == Leaves(cs[0]) + LeavesOf(e, cs[1..]);
        if |cs| >= 2 {
          assert ExclusiveAmong(e, cs, None).None? by {
            assert cs[1..] != [];
          }
          if NoEmptyJoin(e) {
            LeavesNonEmpty(cs[0]);
            LeavesNonEmpty(cs[1]);
            assert LeavesOf(e, cs[1..]) == Leaves(cs[1]) + LeavesOf(e, cs[1..][1..]);
          }
        } else {
          assert cs[1..] == [] && LeavesOf(e, cs[1..]) == [];
          assert NoEmptyJoin(e) <==> NoEmptyJoin(cs[0]);
          assert ExclusiveAmong(e, cs[1..], ExclusiveExit(cs[0])) == ExclusiveExit(cs[0]);
          assert ExclusiveAmong(e, cs, None) == ExclusiveExit(cs[0]);
          assert Leaves(e) == LeavesOf(e, cs) == Leaves(cs[0]);
        }
      }
    case Wrap(inner) => ExclusiveExitLeaf(inner);
    case _ =>
  }

  /** The exit that is recognised is the tree's one leaf: an exit error that is not a nil pointer, or an
      error that presents itself as one. */
  lemma ExclusiveExitExactly(e: Err, id: nat)
    ensures ExclusiveExit(e) == Some(id)
      <==> NoEmptyJoin(e) && |Leaves(e)| == 1
           && (Leaves(e)[0] == Exit(id, false) || (Leaves(e)[0].Leaf? && Leaves(e)[0].asExit == Some(id)))
  {
    ExclusiveExitLeaf(e);
  }

  /** Wrapping an error, as locateError does, changes neither classification. */
  lemma WrappingInvariant(e: Err, target: Err, matches: Match)
    requires !e.Nil?
    ensures IsOnlyError(Wrap(e), target, matches) == IsOnlyError(e, target, matches)
    ensures ExclusiveExit(Wrap(e)) == ExclusiveExit(e)
    ensures Leaves(Wrap(e)) == Leaves(e)
  {
  }

  // ---------------------------------------------------------------- arbitrary build sequences

  /** The four ways the fuzz specification grows a tree (security_fuzz_test.go:24-36). */
  datatype Build = WrapIt | JoinTarget | JoinOther | JoinWrapped

  function Grow(ops: seq<Build>, target: Err, other: Err): Err {
    if ops == [] then target
    else
      var t := Grow(ops[..|ops| - 1], target, other);
      match ops[|ops| - 1]
      case WrapIt => Wrap(t)
      case JoinTarget => Join([t, target])
      case JoinOther => Join([t, other])
      case JoinWrapped => Join([Wrap(target), t])
  }

  /** For build sequences of any length the tree is "only target" unless the other error got in. */
  lemma {:induction false} GrownTreeClassified(ops: seq<Build>, target: Err, other: Err, matches: Match)
    requires target.Leaf? && other.Leaf? && matches(target, target) && !matches(other, target)
    ensures !Grow(ops, target, other).Nil?
    ensures IsOnlyError(Grow(ops, target, other), target, matches) <==> JoinOther !in ops
  {
    if ops != [] {
      var init, last := ops[..|ops| - 1], ops[|ops| - 1];
      GrownTreeClassified(init, target, other, matches);
      assert ops == init + [last];
      var t := Grow(init, target, other);
      match last
      case WrapIt =>
      case JoinTarget => JoinOfTwo(t, target, target, matches);
      case JoinOther => JoinOfTwo(t, other, target, matches);
      case JoinWrapped => JoinOfTwo(Wrap(target), t, target, matches);
    }
  }

  lemma JoinOfTwo(a: Err, b: Err, target: Err, matches: Match)
    requires !target.Nil?
    ensures IsOnlyError(Join([a, b]), target, matches)
      <==> IsOnlyError(a, target, matches) && IsOnlyError(b, target, matches)
  {
    var j := Join([a, b]);
    assert j.children[0] == a && j.children[1] == b;
  }
}
