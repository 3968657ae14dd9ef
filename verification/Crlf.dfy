/** Newline normalisation of a PTY session's output (session.go:359-373). */
module Crlf {
  import opened Prelude

  const LF: Byte := 10
  const CR: Byte := 13

  /** Go's bytes.ReplaceAll: leftmost, non-overlapping matches of a non-empty pattern. */
  function ReplaceAll(s: seq<Byte>, pattern: seq<Byte>, repl: seq<Byte>): seq<Byte>
    requires |pattern| > 0
    decreases |s|
  {
    if |s| < |pattern| then s
    else if s[..|pattern|] == pattern then repl + ReplaceAll(s[|pattern|..], pattern, repl)
    else [s[0]] + ReplaceAll(s[1..], pattern, repl)
  }

  /** The first pass: every LF becomes CR LF. */
  function Expand(p: seq<Byte>): seq<Byte> {
    ReplaceAll(p, [LF], [CR, LF])
  }

  /** The second pass: every CR CR LF becomes CR LF. */
  function Collapse(p: seq<Byte>): seq<Byte> {
    ReplaceAll(p, [CR, CR, LF], [CR, LF])
  }

  /** What Write hands to the channel once a PTY was accepted. */
  function Normalize(p: seq<Byte>): seq<Byte> {
    Collapse(Expand(p))
  }

  /** The intended meaning, one pass: a CR goes in front of each LF that has none.
      `afterCR` says whether the byte just before `p` was a CR. */
  function InsertCR(afterCR: bool, p: seq<Byte>): seq<Byte>
    decreases |p|
  {
    if p == [] then []
    else if p[0] == LF && !afterCR then [CR, LF] + InsertCR(false, p[1..])
    else [p[0]] + InsertCR(p[0] == CR, p[1..])
  }

  /** Whether a byte string, itself following `afterCR`, ends in a CR. */
  predicate EndsInCR(afterCR: bool, p: seq<Byte>) {
    if p == [] then afterCR else p[|p| - 1] == CR
  }

  /** Position `i` is no LF, or the byte before it is a CR. */
  predicate CleanAt(afterCR: bool, p: seq<Byte>, i: nat)
    requires i < |p|
  {
    p[i] == LF ==> if i == 0 then afterCR else p[i - 1] == CR
  }

  ghost predicate Clean(afterCR: bool, p: seq<Byte>) {
    forall i :: 0 <= i < |p| ==> CleanAt(afterCR, p, i)
  }

  ghost predicate NoBareLF(p: seq<Byte>) {
    Clean(false, p)
  }

  lemma ExpandStep(p: seq<Byte>)
    requires p != []
    ensures Expand(p) == (if p[0] == LF then [CR, LF] else [p[0]]) + Expand(p[1..])
  {
    assert p[..1] == [p[0]];
  }

  lemma CollapseCopies(s: seq<Byte>)
    requires s != [] && !([CR, CR, LF] <= s)
    ensures Collapse(s) == [s[0]] + Collapse(s[1..])
  {
    assert |s| < 3 ==> Collapse(s[1..]) == s[1..];
    assert |s| >= 3 ==> s[..3] != [CR, CR, LF];
  }

  lemma CollapseDropsCR(s: seq<Byte>)
    ensures Collapse([CR, CR, LF] + s) == [CR, LF] + Collapse(s)
  {
    var t := [CR, CR, LF] + s;
    assert t[..3] == [CR, CR, LF] && t[3..] == s;
  }

  /** The two ReplaceAll passes mean: insert the missing CRs. */
  lemma {:induction false} TwoPassesInsert(p: seq<Byte>)
    ensures Normalize(p) == InsertCR(false, p)
    decreases |p|
  {
    if p != [] {
      ExpandStep(p);
      if p[0] == LF {
        TwoPassesInsert(p[1..]);
        AtLF(Expand(p[1..]));
      } else if p[0] == CR && |p| > 1 && p[1] == LF {
        TwoPassesInsert(p[1..][1..]);
        AtCRLF(p);
      } else {
        TwoPassesInsert(p[1..]);
        NoMatchAhead(p);
        CollapseCopies(Expand(p));
        assert Expand(p)[1..] == Expand(p[1..]);
        assert InsertCR(p[0] == CR, p[1..]) == InsertCR(false, p[1..]);
      }
    }
  }

  lemma AtLF(e: seq<Byte>)
    ensures Collapse([CR, LF] + e) == [CR, LF] + Collapse(e)
  {
    var s := [CR, LF] + e;
    assert s[1] == LF && s[1..] == [LF] + e && s[1..][0] == LF && s[1..][1..] == e;
    CollapseCopies(s);
    CollapseCopies(s[1..]);
  }

  lemma AtCRLF(p: seq<Byte>)
    requires |p| > 1 && p[0] == CR && p[1] == LF
    ensures Normalize(p) == [CR, LF] + Normalize(p[1..][1..])
    ensures InsertCR(false, p) == [CR, LF] + InsertCR(false, p[1..][1..])
  {
    ExpandAtCRLF(p);
    CollapseDropsCR(Expand(p[1..][1..]));
    InsertAtCRLF(p);
  }

  lemma ExpandAtCRLF(p: seq<Byte>)
    requires |p| > 1 && p[0] == CR && p[1] == LF
    ensures Expand(p) == [CR, CR, LF] + Expand(p[1..][1..])
  {
    ExpandStep(p);
    ExpandStep(p[1..]);
    PrependCR(Expand(p[1..][1..]));
  }

  lemma PrependCR(x: seq<Byte>)
    ensures [CR] + ([CR, LF] + x) == [CR, CR, LF] + x
  {
    assert [CR, CR, LF] == [CR] + [CR, LF];
  }

  lemma InsertAtCRLF(p: seq<Byte>)
    requires |p| > 1 && p[0] == CR && p[1] == LF
    ensures InsertCR(false, p) == [CR, LF] + InsertCR(false, p[1..][1..])
  {
    assert InsertCR(true, p[1..]) == [LF] + InsertCR(false, p[1..][1..]);
  }

  lemma ExpandStarts(p: seq<Byte>)
    requires p != []
    ensures |Expand(p)| > 0 && Expand(p)[0] != LF
    ensures p[0] != LF ==> Expand(p)[1..] == Expand(p[1..])
  {
    ExpandStep(p);
  }

  /** No CR CR LF starts at a byte that is not a CR directly followed by an LF. */
  lemma NoMatchAhead(p: seq<Byte>)
    requires p != [] && p[0] != LF
    requires p[0] == CR && |p| > 1 ==> p[1] != LF
    ensures !([CR, CR, LF] <= Expand(p))
  {
    var e := Expand(p);
    ExpandStep(p);
    if [CR, CR, LF] <= e {
      assert e[0] == CR && e[1] == CR && e[2] == LF;
      assert e[1..] == Expand(p[1..]);
      ExpandStarts(p[1..]);
      assert e[1..][1..][0] == LF;
      ExpandStarts(p[1..][1..]);
    }
  }

  lemma {:induction false} InsertSplits(afterCR: bool, a: seq<Byte>, b: seq<Byte>)
    ensures InsertCR(afterCR, a + b) == InsertCR(afterCR, a) + InsertCR(EndsInCR(afterCR, a), b)
    decreases |a|
  {
    if a == [] {
      assert a + b == b;
    } else {
      assert (a + b)[1..] == a[1..] + b;
      InsertSplits(a[0] == CR, a[1..], b);
    }
  }

  lemma {:induction false} InsertLeavesNoBareLF(afterCR: bool, p: seq<Byte>)
    ensures Clean(afterCR, InsertCR(afterCR, p))
    decreases |p|
  {
    if p != [] {
      var before := p[0] == CR;
      InsertLeavesNoBareLF(before, p[1..]);
      var head := if p[0] == LF && !afterCR then [CR, LF] else [p[0]];
      var rest := InsertCR(before, p[1..]);
      forall i | 0 <= i < |head + rest|
        ensures CleanAt(afterCR, head + rest, i)
      {
        if i >= |head| {
          assert CleanAt(before, rest, i - |head|);
        }
      }
      assert InsertCR(afterCR, p) == head + rest;
    }
  }

  lemma {:induction false} InsertFixesClean(afterCR: bool, p: seq<Byte>)
    requires Clean(afterCR, p)
    ensures InsertCR(afterCR, p) == p
    decreases |p|
  {
    if p != [] {
      var q := p[1..];
      var before := p[0] == CR;
      assert CleanAt(afterCR, p, 0);
      forall i | 0 <= i < |q|
        ensures CleanAt(before, q, i)
      {
        assert CleanAt(afterCR, p, i + 1);
      }
      InsertFixesClean(before, q);
      assert p == [p[0]] + q;
    }
  }

  /** The output has no LF without its CR, and only such strings are left alone. */
  lemma NormalizeFixedPoints(p: seq<Byte>)
    ensures NoBareLF(Normalize(p))
    ensures Normalize(p) == p <==> NoBareLF(p)
  {
    TwoPassesInsert(p);
    InsertLeavesNoBareLF(false, p);
    if NoBareLF(p) {
      InsertFixesClean(false, p);
    }
  }

  lemma NormalizeIdempotent(p: seq<Byte>)
    ensures Normalize(Normalize(p)) == Normalize(p)
  {
    NormalizeFixedPoints(p);
    NormalizeFixedPoints(Normalize(p));
  }

  /** Writing in two chunks equals writing at once exactly when no CR LF is split. */
  lemma NormalizeChunks(a: seq<Byte>, b: seq<Byte>)
    ensures Normalize(a + b) == Normalize(a) + Normalize(b)
       <==> !(a != [] && a[|a| - 1] == CR && b != [] && b[0] == LF)
  {
    TwoPassesInsert(a);
    TwoPassesInsert(b);
    TwoPassesInsert(a + b);
    InsertSplits(false, a, b);
    if EndsInCR(false, a) && b != [] && b[0] == LF {
      assert |InsertCR(true, b)| + 1 == |InsertCR(false, b)|;
    }
  }

  /** The text behind the line ends: one CR dropped before each LF. */
  function Text(p: seq<Byte>): seq<Byte> {
    if p == [] then []
    else if p[0] == CR && |p| > 1 && p[1] == LF then Text(p[1..])
    else [p[0]] + Text(p[1..])
  }

  /** Nothing but line ends changes: input and output carry the same text. */
  lemma {:induction false} NormalizeKeepsText(p: seq<Byte>)
    ensures Text(Normalize(p)) == Text(p)
  {
    TwoPassesInsert(p);
    InsertKeepsText(p);
  }

  lemma {:induction false} InsertKeepsText(p: seq<Byte>)
    ensures Text(InsertCR(false, p)) == Text(p)
    decreases |p|
  {
    if p != [] {
      var q := p[1..];
      InsertKeepsText(q);
      if p[0] == LF {
        var r := InsertCR(false, p);
        assert r[1..] == [LF] + InsertCR(false, q) && r[1..][1..] == InsertCR(false, q);
        assert Text(r) == Text(r[1..]) == [LF] + Text(InsertCR(false, q));
      } else if p[0] == CR && q != [] && q[0] == LF {
        InsertKeepsText(q[1..]);
        var r := InsertCR(false, p);
        assert InsertCR(true, q) == [LF] + InsertCR(false, q[1..]);
        assert r[1..] == [LF] + InsertCR(false, q[1..]) && r[1..][1..] == InsertCR(false, q[1..]);
        assert Text(r) == Text(r[1..]);
      } else {
        var r := InsertCR(false, p);
        assert InsertCR(p[0] == CR, q) == InsertCR(false, q);
        assert r[1..] == InsertCR(false, q);
        assert q != [] ==> InsertCR(false, q)[0] == if q[0] == LF then CR else q[0];
        assert q == [] ==> r[1..] == [];
      }
    }
  }

  /** A channel that takes everything makes Write report exactly the caller's length:
      the normalised string is never shorter, so the clamp of session.go:367 applies. */
  lemma {:induction false} FullWriteReportsInputLength(p: seq<Byte>)
    ensures |p| <= |Normalize(p)|
    ensures (if |Normalize(p)| > |p| then |p| else |Normalize(p)|) == |p|
  {
    TwoPassesInsert(p);
    InsertGrows(false, p);
  }

  lemma {:induction false} InsertGrows(afterCR: bool, p: seq<Byte>)
    ensures |p| <= |InsertCR(afterCR, p)|
    decreases |p|
  {
    if p != [] {
      InsertGrows(if p[0] == LF && !afterCR then false else p[0] == CR, p[1..]);
    }
  }
}
