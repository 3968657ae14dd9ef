/** Decoding of pty-req and window-change payloads (codec-util.go). */
module Codec {
  import opened Prelude

  /** The two widths Go's int can have; they decide which dimensions fit. */
  datatype IntWidth = Int32 | Int64

  datatype Window = Window(width: nat, height: nat, widthPixels: nat, heightPixels: nat)

  type Modes = map<Byte, nat>

  datatype Pty = Pty(term: seq<Byte>, modes: Modes, window: Window)

  // ---------------------------------------------------------------- integers and strings

  function U32(b: seq<Byte>): nat
    requires |b| >= 4
  {
    b[0] as int * 0x100_0000 + b[1] as int * 0x1_0000 + b[2] as int * 0x100 + b[3] as int
  }

  function PutU32(v: nat): seq<Byte>
    requires v < TWO_32
  {
    [(v / 0x100_0000) as Byte, (v / 0x1_0000 % 0x100) as Byte, (v / 0x100 % 0x100) as Byte, (v % 0x100) as Byte]
  }

  lemma U32RoundTrip(v: nat, rest: seq<Byte>)
    requires v < TWO_32
    ensures U32(PutU32(v) + rest) == v
    ensures (PutU32(v) + rest)[4..] == rest
  {
    var b := PutU32(v) + rest;
    assert b[0] == PutU32(v)[0] && b[1] == PutU32(v)[1] && b[2] == PutU32(v)[2] && b[3] == PutU32(v)[3];
    DigitsSum(v);
  }

  lemma DigitsSum(v: nat)
    ensures v == v / 0x100_0000 * 0x100_0000 + v / 0x1_0000 % 0x100 * 0x1_0000 + v / 0x100 % 0x100 * 0x100 + v % 0x100
  {
    assert v == v / 0x100 * 0x100 + v % 0x100;
    assert v / 0x1_0000 == v / 0x100 / 0x100;
    assert v / 0x100_0000 == v / 0x1_0000 / 0x100;
    assert v / 0x100 == v / 0x1_0000 * 0x100 + v / 0x100 % 0x100;
    assert v / 0x1_0000 == v / 0x100_0000 * 0x100 + v / 0x1_0000 % 0x100;
  }

  lemma PutU32RoundTrip(b: seq<Byte>)
    requires |b| >= 4
    ensures U32(b) < TWO_32 && PutU32(U32(b)) == b[..4]
  {
    var x0, x1, x2, x3 := b[0] as int, b[1] as int, b[2] as int, b[3] as int;
    var v := U32(b);
    assert v / 0x100 == x0 * 0x1_0000 + x1 * 0x100 + x2 && v % 0x100 == x3;
    assert v / 0x1_0000 == x0 * 0x100 + x1 && v / 0x100 % 0x100 == x2;
    assert v / 0x100_0000 == x0 && v / 0x1_0000 % 0x100 == x1;
    assert b[..4] == [b[0], b[1], b[2], b[3]];
  }

  function ParseUint32(s: seq<Byte>): Option<(nat, seq<Byte>)> {
    if |s| < 4 then None else Some((U32(s), s[4..]))
  }

  /** int(value): wraps to a negative number where int has 32 bits, and the check then fails. */
  function Uint32ToInt(value: nat, w: IntWidth): (r: Option<nat>)
    requires value < TWO_32
    ensures r == (if w == Int64 || value < 0x8000_0000 then Some(value) else None)
  {
    var result: int := if w == Int32 && value >= 0x8000_0000 then value - TWO_32 else value;
    if result >= 0 && result % TWO_32 == value then
      assert w == Int64 || value < 0x8000_0000;
      Some(result)
    else None
  }

  function ParseString(s: seq<Byte>): Option<(seq<Byte>, seq<Byte>)> {
    if |s| < 4 then None
    else if |s| - 4 < U32(s) then None
    else Some((s[4..][..U32(s)], s[4..][U32(s)..]))
  }

  function PutString(t: seq<Byte>): seq<Byte>
    requires |t| < TWO_32
  {
    PutU32(|t|) + t
  }

  lemma ParseStringExact(s: seq<Byte>, t: seq<Byte>, rest: seq<Byte>)
    ensures ParseString(s) == Some((t, rest)) <==> |t| < TWO_32 && s == PutString(t) + rest
  {
    if |t| < TWO_32 && s == PutString(t) + rest {
      assert s == PutU32(|t|) + (t + rest);
      U32RoundTrip(|t|, t + rest);
    }
    if ParseString(s) == Some((t, rest)) {
      PutU32RoundTrip(s);
      assert s[4..] == t + rest;
      assert s == s[..4] + s[4..];
    }
  }

  // ---------------------------------------------------------------- windows

  predicate Fits(v: nat, w: IntWidth) {
    v < TWO_32 && (w == Int64 || v < 0x8000_0000)
  }

  predicate WindowFits(win: Window, w: IntWidth) {
    Fits(win.width, w) && Fits(win.height, w) && Fits(win.widthPixels, w) && Fits(win.heightPixels, w)
  }

  function PutWindow(win: Window): seq<Byte>
    requires WindowFits(win, Int64)
  {
    PutU32(win.width) + PutU32(win.height) + PutU32(win.widthPixels) + PutU32(win.heightPixels)
  }

  /** The i-th big-endian word. */
  function Word(s: seq<Byte>, i: nat): nat
    requires |s| >= 4 * i + 4
  {
    U32(s[4 * i..])
  }

  function WindowOf(s: seq<Byte>, w: IntWidth): Option<(Window, seq<Byte>)> {
    if |s| < 16 then None
    else
      var win := Window(Word(s, 0), Word(s, 1), Word(s, 2), Word(s, 3));
      if WindowFits(win, w) then Some((win, s[16..])) else None
  }

  /** The loop over four words, filling a fixed buffer. */
  method ParseWindow(input: seq<Byte>, w: IntWidth) returns (r: Option<(Window, seq<Byte>)>)
    ensures r == WindowOf(input, w)
  {
    var values := new nat[4];
    var s := input;
    for i := 0 to 4
      invariant |input| >= 4 * i && s == input[4 * i..]
      invariant forall k :: 0 <= k < i ==> values[k] == Word(input, k) && Fits(values[k], w)
    {
      var parsed := ParseUint32(s);
      if parsed.None? {
        return None;
      }
      PutU32RoundTrip(s);
      var value := parsed.value.0;
      s := parsed.value.1;
      var converted := Uint32ToInt(value, w);
      assert value == Word(input, i);
      if converted.None? {
        ghost var bad := i;
        assert !Fits(Word(input, bad), w);
        return None;
      }
      values[i] := converted.value;
    }
    r := Some((Window(values[0], values[1], values[2], values[3]), s));
  }

  lemma WindowOfExact(s: seq<Byte>, w: IntWidth, win: Window, rest: seq<Byte>)
    ensures WindowOf(s, w) == Some((win, rest)) <==> WindowFits(win, w) && s == PutWindow(win) + rest
  {
    if WindowFits(win, w) && s == PutWindow(win) + rest {
      WindowRoundTrip(s, win, rest);
    }
    if WindowOf(s, w) == Some((win, rest)) {
      PutU32RoundTrip(s);
      PutU32RoundTrip(s[4..]);
      PutU32RoundTrip(s[8..]);
      PutU32RoundTrip(s[12..]);
      assert s[4 * 0..] == s;
      assert s == s[..4] + s[4..][..4] + s[8..][..4] + s[12..][..4] + s[16..];
    }
  }

  lemma WindowRoundTrip(s: seq<Byte>, win: Window, rest: seq<Byte>)
    requires WindowFits(win, Int64) && s == PutWindow(win) + rest
    ensures |s| >= 16 && Window(Word(s, 0), Word(s, 1), Word(s, 2), Word(s, 3)) == win && s[16..] == rest
  {
    var r3 := PutU32(win.heightPixels) + rest;
    var r2 := PutU32(win.widthPixels) + r3;
    var r1 := PutU32(win.height) + r2;
    assert s[4 * 0..] == PutU32(win.width) + r1;
    assert s[4 * 1..] == r1 && s[4 * 2..] == r2 && s[4 * 3..] == r3 && s[16..] == rest;
    U32RoundTrip(win.width, r1);
    U32RoundTrip(win.height, r2);
    U32RoundTrip(win.widthPixels, r3);
    U32RoundTrip(win.heightPixels, rest);
  }

  // ---------------------------------------------------------------- terminal modes

  datatype Mode = Mode(opcode: Byte, value: nat)

  /** Opcodes 1..159 carry a uint32 (section 8 of RFC 4254). */
  predicate Encodable(m: Mode) {
    1 <= m.opcode < 160 && m.value < TWO_32
  }

  predicate AllEncodable(l: seq<Mode>) {
    forall i :: 0 <= i < |l| ==> Encodable(l[i])
  }

  function PutModes(l: seq<Mode>): seq<Byte>
    requires AllEncodable(l)
  {
    if l == [] then [] else [l[0].opcode] + PutU32(l[0].value) + PutModes(l[1..])
  }

  /** The meaning of a list of modes: a later value of an opcode replaces an earlier one. */
  function Settings(l: seq<Mode>): Modes {
    if l == [] then map[]
    else Settings(l[..|l| - 1])[l[|l| - 1].opcode := l[|l| - 1].value]
  }

  /** What may follow the list: TTY_OP_END alone, or a reserved opcode and anything. */
  predicate Terminator(t: seq<Byte>) {
    t == [0] || (|t| > 0 && t[0] >= 160)
  }

  /** The grammar of encoded terminal modes, independent of the decoder. */
  ghost predicate EncodesModes(s: seq<Byte>, modes: Modes) {
    exists l: seq<Mode>, t: seq<Byte> :: ModesSplit(s, modes, l, t)
  }

  ghost predicate ModesSplit(s: seq<Byte>, modes: Modes, l: seq<Mode>, t: seq<Byte>) {
    AllEncodable(l) && Terminator(t) && s == PutModes(l) + t && modes == Settings(l)
  }

  /** The decoding loop; it consumes at least one byte an iteration. */
  method ParseTerminalModes(input: seq<Byte>) returns (r: Option<Modes>)
    ensures r.Some? ==> EncodesModes(input, r.value)
    ensures r.None? ==> forall modes :: !EncodesModes(input, modes)
  {
    var s := input;
    var modes: Modes := map[];
    ghost var l: seq<Mode> := [];
    while |s| > 0
      invariant AllEncodable(l) && input == PutModes(l) + s && modes == Settings(l)
      decreases |s|
    {
      var opcode := s[0];
      var rest := s[1..];
      if opcode == 0 {
        if |rest| != 0 {
          NoModes(input, l, s);
          return None;
        }
        assert s == [0];
        assert ModesSplit(input, modes, l, s);
        return Some(modes);
      } else if opcode >= 160 {
        assert ModesSplit(input, modes, l, s);
        return Some(modes);
      } else if |rest| < 4 {
        NoModes(input, l, s);
        return None;
      }
      ghost var m := Mode(opcode, U32(rest));
      PutU32RoundTrip(rest);
      PutModesAppend(l, m);
      assert s == [opcode] + (rest[..4] + rest[4..]);
      modes := modes[opcode := U32(rest)];
      assert (l + [m])[..|l|] == l;
      l := l + [m];
      s := rest[4..];
    }
    assert s == [];
    NoModes(input, l, s);
    r := None;
  }

  lemma {:induction false} PutModesAppend(l: seq<Mode>, m: Mode)
    requires AllEncodable(l) && Encodable(m)
    ensures AllEncodable(l + [m]) && PutModes(l + [m]) == PutModes(l) + ([m.opcode] + PutU32(m.value))
  {
    if l == [] {
      assert l + [m] == [m];
      assert PutModes([]) == [];
    } else {
      PutModesAppend(l[1..], m);
      assert (l + [m])[1..] == l[1..] + [m];
    }
  }

  /** A remainder that neither ends the list nor holds one more mode. */
  predicate Stuck(s: seq<Byte>) {
    s == [] || (s[0] == 0 && |s| > 1) || (0 < s[0] < 160 && |s| < 5)
  }

  /** Two readings of one byte string agree mode by mode, so a stuck decoder proves
      that no reading exists at all. */
  lemma {:induction false} NoModes(s: seq<Byte>, l: seq<Mode>, rest: seq<Byte>)
    requires AllEncodable(l) && s == PutModes(l) + rest && Stuck(rest)
    ensures forall modes :: !EncodesModes(s, modes)
  {
    forall modes, l': seq<Mode>, t: seq<Byte> | ModesSplit(s, modes, l', t)
      ensures false
    {
      NoSecondReading(l, rest, l', t);
    }
  }

  lemma {:induction false} NoSecondReading(l: seq<Mode>, rest: seq<Byte>, l': seq<Mode>, t: seq<Byte>)
    requires AllEncodable(l) && AllEncodable(l') && Stuck(rest) && Terminator(t)
    ensures PutModes(l) + rest != PutModes(l') + t
    decreases |l|
  {
    FirstBytes(l, rest);
    FirstBytes(l', t);
    if PutModes(l) + rest == PutModes(l') + t && l != [] && l' != [] {
      SameHead(l, rest, l', t);
      NoSecondReading(l[1..], rest, l'[1..], t);
    }
  }

  /** How an encoding starts: with the first opcode, or with what follows an empty list. */
  lemma FirstBytes(l: seq<Mode>, t: seq<Byte>)
    requires AllEncodable(l)
    ensures l == [] ==> PutModes(l) + t == t
    ensures l != [] ==> |PutModes(l) + t| >= 5 && (PutModes(l) + t)[0] == l[0].opcode
  {
    if l != [] {
      var r := PutModes(l[1..]);
      assert PutModes(l) == [l[0].opcode] + PutU32(l[0].value) + r;
    }
  }

  lemma U32Injective(v: nat, v': nat)
    requires v < TWO_32 && v' < TWO_32 && PutU32(v) == PutU32(v')
    ensures v == v'
  {
    U32RoundTrip(v, []);
    U32RoundTrip(v', []);
  }

  lemma FiveByteHead(x: Byte, u: seq<Byte>, r: seq<Byte>, t: seq<Byte>,
                     x': Byte, u': seq<Byte>, r': seq<Byte>, t': seq<Byte>)
    requires |u| == |u'| == 4 && [x] + u + r + t == [x'] + u' + r' + t'
    ensures x == x' && u == u' && r + t == r' + t'
  {
    var a := [x] + u + r + t;
    assert a == [x] + u + (r + t) && a == [x'] + u' + (r' + t');
    assert a[0] == x && a[0] == x';
    assert a[1..5] == u && a[1..5] == u';
    assert a[5..] == r + t && a[5..] == r' + t';
  }

  lemma SameHead(l: seq<Mode>, rest: seq<Byte>, l': seq<Mode>, t: seq<Byte>)
    requires AllEncodable(l) && AllEncodable(l') && l != [] && l' != []
    requires PutModes(l) + rest == PutModes(l') + t
    ensures l[0] == l'[0] && PutModes(l[1..]) + rest == PutModes(l'[1..]) + t
  {
    var r, r' := PutModes(l[1..]), PutModes(l'[1..]);
    var u, u' := PutU32(l[0].value), PutU32(l'[0].value);
    FiveByteHead(l[0].opcode, u, r, rest, l'[0].opcode, u', r', t);
    U32Injective(l[0].value, l'[0].value);
  }

  /** One byte string encodes at most one mode table. */
  lemma ModesUnique(s: seq<Byte>, m1: Modes, m2: Modes)
    requires EncodesModes(s, m1) && EncodesModes(s, m2)
    ensures m1 == m2
  {
    var l1, t1 :| ModesSplit(s, m1, l1, t1);
    var l2, t2 :| ModesSplit(s, m2, l2, t2);
    SameReading(l1, t1, l2, t2);
  }

  lemma {:induction false} SameReading(l1: seq<Mode>, t1: seq<Byte>, l2: seq<Mode>, t2: seq<Byte>)
    requires AllEncodable(l1) && AllEncodable(l2) && Terminator(t1) && Terminator(t2)
    requires PutModes(l1) + t1 == PutModes(l2) + t2
    ensures l1 == l2
    decreases |l1|
  {
    FirstBytes(l1, t1);
    FirstBytes(l2, t2);
    if l1 != [] && l2 != [] {
      SameHead(l1, t1, l2, t2);
      SameReading(l1[1..], t1, l2[1..], t2);
      assert l1 == [l1[0]] + l1[1..] && l2 == [l2[0]] + l2[1..];
    }
  }

  ghost predicate Occurs(l: seq<Mode>, op: Byte) {
    exists i :: 0 <= i < |l| && l[i].opcode == op
  }

  /** The i-th mode is the last one with its opcode. */
  ghost predicate LastOf(l: seq<Mode>, op: Byte, i: int) {
    0 <= i < |l| && l[i].opcode == op && forall j :: i < j < |l| ==> l[j].opcode != op
  }

  lemma OccursInit(l: seq<Mode>, op: Byte)
    requires l != []
    ensures Occurs(l, op) <==> Occurs(l[..|l| - 1], op) || l[|l| - 1].opcode == op
  {
    var init := l[..|l| - 1];
    if i :| 0 <= i < |init| && init[i].opcode == op {
      assert l[i].opcode == op;
    }
    if i :| 0 <= i < |l| && l[i].opcode == op {
      assert i < |init| ==> init[i].opcode == op;
    }
  }

  lemma LastOfInit(l: seq<Mode>, op: Byte, i: int)
    requires LastOf(l, op, i) && l[|l| - 1].opcode != op
    ensures LastOf(l[..|l| - 1], op, i)
  {
    var init := l[..|l| - 1];
    assert forall j :: 0 <= j < |init| ==> init[j] == l[j];
  }

  /** Which value an opcode ends up with: that of its last occurrence. */
  lemma {:induction false} LastValueWins(l: seq<Mode>, op: Byte)
    ensures op in Settings(l) <==> Occurs(l, op)
    ensures forall i :: LastOf(l, op, i) ==> op in Settings(l) && Settings(l)[op] == l[i].value
  {
    if l != [] {
      var init := l[..|l| - 1];
      LastValueWins(init, op);
      OccursInit(l, op);
      if l[|l| - 1].opcode != op {
        forall i | LastOf(l, op, i)
          ensures op in Settings(l) && Settings(l)[op] == l[i].value
        {
          LastOfInit(l, op, i);
        }
      }
    }
  }

  // ---------------------------------------------------------------- whole payloads

  function PutPty(term: seq<Byte>, win: Window, modes: seq<Byte>): seq<Byte>
    requires |term| < TWO_32 && WindowFits(win, Int64) && |modes| < TWO_32
  {
    PutString(term) + (PutWindow(win) + PutString(modes))
  }

  /** The payload format of section 6.2 of RFC 4254. */
  ghost predicate EncodesPty(s: seq<Byte>, w: IntWidth, pty: Pty, modes: seq<Byte>) {
    && |pty.term| < TWO_32 && WindowFits(pty.window, w) && |modes| < TWO_32
    && s == PutPty(pty.term, pty.window, modes)
    && EncodesModes(modes, pty.modes)
  }

  ghost predicate Accepts(s: seq<Byte>, w: IntWidth, pty: Pty) {
    exists modes :: EncodesPty(s, w, pty, modes)
  }

  /** parsePtyRequest accepts exactly the well-formed payloads and inverts their encoding. */
  method ParsePtyRequest(s: seq<Byte>, w: IntWidth) returns (r: Option<Pty>)
    ensures r.Some? ==> Accepts(s, w, r.value)
    ensures r.None? ==> forall pty :: !Accepts(s, w, pty)
  {
    forall pty, modes | EncodesPty(s, w, pty, modes)
      ensures PtyParts(s, w, pty, modes)
    {
      PayloadParts(s, w, pty, modes);
    }
    var t := ParseString(s);
    if t.None? {
      return None;
    }
    var win := ParseWindow(t.value.1, w);
    if win.None? {
      return None;
    }
    var m := ParseString(win.value.1);
    if m.None? || |m.value.1| != 0 {
      return None;
    }
    var modes := ParseTerminalModes(m.value.0);
    if modes.None? {
      return None;
    }
    var pty := Pty(t.value.0, modes.value, win.value.0);
    PartsPayload(s, w, pty, m.value.0);
    r := Some(pty);
  }

  /** The decoder's view of a payload: three parses and nothing left over. */
  ghost predicate PtyParts(s: seq<Byte>, w: IntWidth, pty: Pty, modes: seq<Byte>) {
    && ParseString(s).Some? && ParseString(s).value.0 == pty.term
    && WindowOf(ParseString(s).value.1, w).Some? && WindowOf(ParseString(s).value.1, w).value.0 == pty.window
    && ParseString(WindowOf(ParseString(s).value.1, w).value.1) == Some((modes, []))
    && EncodesModes(modes, pty.modes)
  }

  lemma PayloadParts(s: seq<Byte>, w: IntWidth, pty: Pty, modes: seq<Byte>)
    requires EncodesPty(s, w, pty, modes)
    ensures PtyParts(s, w, pty, modes)
  {
    var r2 := PutString(modes);
    var r1 := PutWindow(pty.window) + r2;
    ParseStringExact(s, pty.term, r1);
    WindowOfExact(r1, w, pty.window, r2);
    assert r2 == PutString(modes) + [];
    ParseStringExact(r2, modes, []);
  }

  lemma PartsPayload(s: seq<Byte>, w: IntWidth, pty: Pty, modes: seq<Byte>)
    requires PtyParts(s, w, pty, modes)
    ensures EncodesPty(s, w, pty, modes)
  {
    var r1 := ParseString(s).value.1;
    var r2 := WindowOf(r1, w).value.1;
    ParseStringExact(s, pty.term, r1);
    WindowOfExact(r1, w, pty.window, r2);
    ParseStringExact(r2, modes, []);
    assert r2 == PutString(modes);
  }

  /** A payload means one request only. */
  lemma PtyUnique(s: seq<Byte>, w: IntWidth, p1: Pty, p2: Pty)
    requires Accepts(s, w, p1) && Accepts(s, w, p2)
    ensures p1 == p2
  {
    var m1 :| EncodesPty(s, w, p1, m1);
    var m2 :| EncodesPty(s, w, p2, m2);
    PayloadParts(s, w, p1, m1);
    PayloadParts(s, w, p2, m2);
    ModesUnique(m1, p1.modes, p2.modes);
  }

  /** No accepted payload can be truncated or extended into another accepted one. */
  lemma PtyPrefixFree(s: seq<Byte>, extra: seq<Byte>, w: IntWidth, p1: Pty, p2: Pty)
    requires Accepts(s, w, p1) && Accepts(s + extra, w, p2)
    ensures extra == []
  {
    var m1 :| EncodesPty(s, w, p1, m1);
    var m2 :| EncodesPty(s + extra, w, p2, m2);
    PayloadParts(s + extra, w, p2, m2);
    PayloadParts(s, w, p1, m1);
    var r1 := ParseString(s).value.1;
    var r2 := WindowOf(r1, w).value.1;
    ParseStringExtends(s, extra);
    WindowOfExtends(r1, w, extra);
    ParseStringExtends(r2, extra);
  }

  lemma ParseStringExtends(s: seq<Byte>, extra: seq<Byte>)
    requires ParseString(s).Some?
    ensures ParseString(s + extra) == Some((ParseString(s).value.0, ParseString(s).value.1 + extra))
  {
    var n := U32(s);
    assert U32(s + extra) == n;
    assert (s + extra)[4..] == s[4..] + extra;
    assert (s[4..] + extra)[..n] == s[4..][..n];
    assert (s[4..] + extra)[n..] == s[4..][n..] + extra;
  }

  lemma WindowOfExtends(s: seq<Byte>, w: IntWidth, extra: seq<Byte>)
    requires WindowOf(s, w).Some?
    ensures WindowOf(s + extra, w) == Some((WindowOf(s, w).value.0, WindowOf(s, w).value.1 + extra))
  {
    forall i: nat | i < 4
      ensures Word(s + extra, i) == Word(s, i)
    {
      assert (s + extra)[4 * i..] == s[4 * i..] + extra;
    }
    assert (s + extra)[16..] == s[16..] + extra;
  }

  /** Decoding inverts encoding for every term, window and list of modes. */
  lemma PtyRoundTrip(term: seq<Byte>, win: Window, l: seq<Mode>, w: IntWidth)
    requires |term| < TWO_32 && WindowFits(win, w) && AllEncodable(l) && |PutModes(l) + [0]| < TWO_32
    ensures Accepts(PutPty(term, win, PutModes(l) + [0]), w, Pty(term, Settings(l), win))
    ensures forall p :: Accepts(PutPty(term, win, PutModes(l) + [0]), w, p) ==> p == Pty(term, Settings(l), win)
  {
    var modes := PutModes(l) + [0];
    var pty := Pty(term, Settings(l), win);
    var s := PutPty(term, win, modes);
    assert ModesSplit(modes, Settings(l), l, [0]);
    assert EncodesPty(s, w, pty, modes);
    forall p | Accepts(s, w, p)
      ensures p == pty
    {
      PtyUnique(s, w, p, pty);
    }
  }

  /** parseWinchRequest: a window and nothing after it (section 6.7 of RFC 4254). */
  method ParseWinchRequest(s: seq<Byte>, w: IntWidth) returns (win: Window, ok: bool)
    ensures ok ==> WindowFits(win, w) && s == PutWindow(win)
    ensures !ok ==> forall x :: WindowFits(x, w) ==> s != PutWindow(x)
  {
    forall x | WindowFits(x, w) && s == PutWindow(x)
      ensures WindowOf(s, w) == Some((x, []))
    {
      assert s == PutWindow(x) + [];
      WindowOfExact(s, w, x, []);
    }
    var r := ParseWindow(s, w);
    if r.None? {
      return Window(0, 0, 0, 0), false;
    }
    WindowOfExact(s, w, r.value.0, r.value.1);
    if |r.value.1| == 0 {
      assert s == PutWindow(r.value.0);
    }
    return r.value.0, |r.value.1| == 0;
  }

  /** mergeWindow: a zero in the update leaves that dimension as it was. */
  function MergeWindow(current: Window, update: Window): Window {
    Window(if update.width != 0 then update.width else current.width,
           if update.height != 0 then update.height else current.height,
           if update.widthPixels != 0 then update.widthPixels else current.widthPixels,
           if update.heightPixels != 0 then update.heightPixels else current.heightPixels)
  }
}
