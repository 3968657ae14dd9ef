/** The scope of one Serve call: which connections it tracks, how many of them are still
    authenticating, when it has drained, and how it is torn down by force
    (lifecycle.go:33-180, 188-234, 272-281; server.go:1448-1488). */
module Serve {
  import opened Prelude

  // ---------------------------------------------------------------- admission

  /** `start:rate:full`, as in OpenSSH. */
  datatype MaxStartups = MaxStartups(start: int, rate: int, full: int)

  const DEFAULT_MAX_STARTUPS: MaxStartups := MaxStartups(10, 30, 100)

  /** What a configuration means after its limits have been put in range. */
  function Effective(configured: Option<MaxStartups>): (r: MaxStartups)
    ensures r.full >= 0 && (r.full > 0 ==> 0 <= r.start <= r.full && 0 <= r.rate <= 100)
    ensures r.full == 0 <==> configured.Some? && configured.value.full <= 0
  {
    if configured.None? then DEFAULT_MAX_STARTUPS
    else
      var c := configured.value;
      if c.full <= 0 then MaxStartups(0, 0, 0)
      else
        MaxStartups(if c.start < 0 then 0 else if c.start > c.full then c.full else c.start,
                    if c.rate < 0 then 0 else if c.rate > 100 then 100 else c.rate,
                    c.full)
  }

  predicate InRange(c: MaxStartups) {
    0 <= c.start <= c.full && 0 <= c.rate <= 100
  }

  /** The percentage of new connections to drop with `current` startups in progress. */
  function DropRate(current: nat, c: MaxStartups): int {
    if c.full <= 0 then 0
    else if current >= c.full then 100
    else if current < c.start then 0
    else if c.start >= c.full then 0
    else c.rate + (100 - c.rate) * (current - c.start) / (c.full - c.start)
  }

  lemma {:induction false} Positive(x: nat, d: nat)
    requires x > 0
    ensures x * d >= d
  {
    if x > 1 {
      Positive(x - 1, d);
      assert x * d == (x - 1) * d + d;
    }
  }

  lemma Order(q: int, a: int, d: nat)
    requires d > 0
    ensures q <= a <==> q * d <= a * d
  {
    assert (a - q) * d == a * d - q * d;
    assert (q - a) * d == q * d - a * d;
    if a > q {
      Positive(a - q, d);
    } else if q > a {
      Positive(q - a, d);
    }
  }

  lemma Quotient(p: nat, d: nat)
    requires d > 0
    ensures 0 <= p / d && (p / d) * d <= p < (p / d + 1) * d
  {
    assert p == (p / d) * d + p % d;
  }

  /** The share of `a` that `x` is of `d`, rounded down. */
  lemma Share(a: nat, x: nat, d: nat)
    requires x < d
    ensures 0 <= a * x / d <= a
    ensures a > 0 ==> a * x / d < a
  {
    var q := a * x / d;
    Quotient(a * x, d);
    if a > 0 {
      Order(d, x, a);
      assert x * a == a * x && d * a == a * d;
      Order(a, q, d);
    }
  }

  lemma ShareMonotone(a: nat, x: nat, y: nat, d: nat)
    requires x <= y && d > 0
    ensures a * x / d <= a * y / d
  {
    Quotient(a * x, d);
    Quotient(a * y, d);
    if a > 0 {
      Order(x, y, a);
      assert x * a == a * x && y * a == a * y;
    }
    Order(a * y / d + 1, a * x / d, d);
  }

  /** The drop rate is a percentage, starts at `rate`, never falls as connections come in, and
      drops everything only when full or when `rate` says so. */
  lemma DropRateShape(current: nat, more: nat, c: MaxStartups)
    requires InRange(c) && c.full > 0 && current <= more
    ensures 0 <= DropRate(current, c) <= 100
    ensures DropRate(current, c) <= DropRate(more, c)
    ensures DropRate(current, c) == 100 <==> current >= c.full || (c.rate == 100 && current >= c.start)
    ensures current < c.start ==> DropRate(current, c) == 0
    ensures current == c.start < c.full ==> DropRate(current, c) == c.rate
  {
    Ramp(current, c);
    Ramp(more, c);
    if c.start <= current && more < c.full {
      ShareMonotone(100 - c.rate, current - c.start, more - c.start, c.full - c.start);
    }
  }

  /** The part of the drop rate between `start` and `full`. */
  lemma Ramp(current: nat, c: MaxStartups)
    requires InRange(c) && c.full > 0
    ensures c.start <= current < c.full ==> c.rate <= DropRate(current, c) <= 100
    ensures c.start <= current < c.full ==> (DropRate(current, c) == 100 <==> c.rate == 100)
    ensures current == c.start < c.full ==> DropRate(current, c) == c.rate
  {
    if c.start <= current < c.full {
      Share(100 - c.rate, current - c.start, c.full - c.start);
    }
  }

  /** Between start and full the rate lies on the straight line from `rate` to 100, rounded down. */
  lemma DropRateOnLine(current: nat, c: MaxStartups)
    requires InRange(c) && c.start <= current < c.full
    ensures var above := DropRate(current, c) - c.rate;
      above * (c.full - c.start) <= (100 - c.rate) * (current - c.start) < (above + 1) * (c.full - c.start)
  {
    if current > c.start {
      Order(0, 100 - c.rate, current - c.start);
    }
    Quotient((100 - c.rate) * (current - c.start), c.full - c.start);
  }

  // ---------------------------------------------------------------- the rate in machine integers

  const MAX_INT32: int := 0x7fff_ffff
  const MAX_INT64: int := 0x7fff_ffff_ffff_ffff

  /** The largest int of a machine. */
  predicate IsMaxInt(max: int) {
    max == MAX_INT32 || max == MAX_INT64
  }

  function Wrapped(x: int, max: int): int
    requires max >= 0
  {
    (x + max + 1) % (2 * max + 2) - max - 1
  }

  /** Division that truncates toward zero. */
  function Quo(x: int, d: int): int
    requires d > 0
  {
    if x >= 0 then x / d else -(-x / d)
  }

  /** The drop rate as computed with ints that wrap around. */
  function MachineDropRate(current: nat, c: MaxStartups, max: int): int
    requires max >= 0
  {
    if c.full <= 0 then 0
    else if current >= c.full then 100
    else if current < c.start then 0
    else if c.start >= c.full then 0
    else
      var product := Wrapped((100 - c.rate) * (current - c.start), max);
      Wrapped(c.rate + Quo(product, c.full - c.start), max)
  }

  lemma WrappedFits(x: int, max: int)
    requires max >= 0 && -max - 1 <= x <= max
    ensures Wrapped(x, max) == x
  {
    var y, m := x + max + 1, 2 * max + 2;
    Quotient(y, m);
    assert y == (y / m) * m + y % m;
    if y / m > 0 {
      Positive(y / m, m);
    }
  }

  lemma WrappedInRange(x: int, max: int)
    requires max >= 0
    ensures -max - 1 <= Wrapped(x, max) <= max
  {
  }

  /** A sum of whole turns and a remainder is off by at least one turn. */
  lemma WrappedLow(p: int, max: int)
    requires max >= 0 && p > max
    ensures Wrapped(p, max) <= p - (2 * max + 2)
  {
    var m := 2 * max + 2;
    var y := p + max + 1;
    assert y == (y / m) * m + y % m && y >= m;
    assert y / m >= 1;
    Positive(y / m, m);
  }

  /** Truncated division is small enough for the rate to be added. */
  lemma QuoBound(x: int, d: nat, max: int)
    requires d > 1 && max > 0 && -max - 1 <= x <= max
    ensures -(max + 1) <= 2 * Quo(x, d) <= max + 1
  {
    var a := if x >= 0 then x else -x;
    Quotient(a, d);
    if a / d > 0 {
      Order(2, d, a / d);
      assert 2 * (a / d) <= d * (a / d) == (a / d) * d <= a;
    }
  }

  /** A wrapped product gives another quotient than the product. */
  lemma WrappedQuotientDiffers(p: nat, d: nat, max: int)
    requires max > 0 && p > max >= d > 0
    ensures Quo(Wrapped(p, max), d) != p / d
  {
    var w := Wrapped(p, max);
    WrappedLow(p, max);
    Quotient(p, d);
    Order(p / d + 1, 1, d);
    if w >= 0 {
      Quotient(w, d);
    } else {
      Quotient(-w, d);
    }
  }

  /** The machine computes the rate exactly when its product fits. */
  lemma MachineRateExactIff(current: nat, c: MaxStartups, max: int)
    requires IsMaxInt(max) && InRange(c) && c.start <= current < c.full <= max
    ensures MachineDropRate(current, c, max) == DropRate(current, c)
      <==> (100 - c.rate) * (current - c.start) <= max
  {
    var x, d := current - c.start, c.full - c.start;
    var p := (100 - c.rate) * x;
    if x > 0 {
      Order(0, 100 - c.rate, x);
    }
    var w := Wrapped(p, max);
    if p <= max {
      WrappedFits(p, max);
      Share(100 - c.rate, x, d);
      WrappedFits(c.rate + p / d, max);
    } else {
      assert d > 1;
      WrappedQuotientDiffers(p, d, max);
      WrappedInRange(p, max);
      QuoBound(w, d, max);
      WrappedFits(c.rate + Quo(w, d), max);
    }
  }

  ghost predicate RateAlwaysExact(c: MaxStartups, max: int)
    requires max >= 0
  {
    forall current: nat :: MachineDropRate(current, c, max) == DropRate(current, c)
  }

  /** Fewer startups have a smaller product. */
  lemma SmallerProduct(current: nat, c: MaxStartups)
    requires InRange(c) && c.start <= current < c.full
    ensures (100 - c.rate) * (current - c.start) <= (100 - c.rate) * (c.full - 1 - c.start)
  {
    var a, x, y := 100 - c.rate, current - c.start, c.full - 1 - c.start;
    if a > 0 {
      Order(x, y, a);
      assert x * a == a * x && y * a == a * y;
    }
  }

  lemma ExactAt(current: nat, c: MaxStartups, max: int)
    requires IsMaxInt(max) && InRange(c) && c.full <= max
    requires c.start == c.full || (100 - c.rate) * (c.full - 1 - c.start) <= max
    ensures MachineDropRate(current, c, max) == DropRate(current, c)
  {
    if c.start <= current < c.full {
      SmallerProduct(current, c);
      MachineRateExactIff(current, c, max);
    }
  }

  /** A configuration's rate is computed correctly for every number of startups if and only if the
      last count before full does not overflow. */
  lemma RateAlwaysExactIff(c: MaxStartups, max: int)
    requires IsMaxInt(max) && InRange(c) && c.full <= max
    ensures RateAlwaysExact(c, max) <==> c.start == c.full || (100 - c.rate) * (c.full - 1 - c.start) <= max
  {
    if c.start == c.full || (100 - c.rate) * (c.full - 1 - c.start) <= max {
      forall current: nat
        ensures MachineDropRate(current, c, max) == DropRate(current, c)
      {
        ExactAt(current, c, max);
      }
    } else {
      MachineRateExactIff(c.full - 1, c, max);
    }
  }

  /** A limit of a hundredth of the largest int is safe with every rate. */
  lemma NoOverflow(c: MaxStartups, max: int)
    requires IsMaxInt(max) && InRange(c) && c.full <= max / 100
    ensures RateAlwaysExact(c, max)
  {
    RateAlwaysExactIff(c, max);
    if c.start < c.full {
      Order(100 - c.rate, 100, c.full - c.start);
      assert (100 - c.rate) * (c.full - c.start) == (100 - c.rate) * (c.full - 1 - c.start) + (100 - c.rate);
    }
  }

  /** With the largest limit, one connection short of it, 99 percent should be dropped and none is. */
  lemma OverflowDropsNobody(max: int)
    requires IsMaxInt(max)
    ensures var c := MaxStartups(0, 0, max);
      Effective(Some(c)) == c && DropRate(max - 1, c) == 99 && MachineDropRate(max - 1, c, max) == 0
  {
  }

  predicate Dropped(rate: int, roll: nat) {
    rate >= 100 || (rate > 0 && roll < rate)
  }

  function UpTo(n: nat): (r: set<nat>)
    ensures |r| == n && forall k: nat :: k in r <==> k < n
  {
    if n == 0 then {} else UpTo(n - 1) + {n - 1}
  }

  /** Of the hundred possible random numbers exactly `rate` drop the connection. */
  lemma DroppedShare(rate: nat)
    requires rate <= 100
    ensures |set roll: nat | roll < 100 && Dropped(rate, roll)| == rate
  {
    assert (set roll: nat | roll < 100 && Dropped(rate, roll)) == UpTo(rate);
  }

  // ---------------------------------------------------------------- the scope

  /** A connection object. It outlives its membership in the scope. */
  datatype Conn = Conn(
    conn: nat, transports: seq<nat>, cancel: Option<nat>, handshaking: bool, reserved: bool, closed: bool)

  datatype Cleanup = Cleanup(cancel: Option<nat>, transports: seq<nat>)

  predicate HasReservation(c: Conn) {
    c.reserved
  }

  /** The scope under its mutex. `all` are all connection objects ever made. */
  datatype Scope = Scope(
    limits: MaxStartups, all: map<nat, Conn>, connections: set<nat>, startups: int,
    stopping: bool, forced: bool, drained: bool, panicked: bool)
  {
    function CloseDrained(): Scope {
      this.(drained := true, panicked := panicked || drained)
    }

    function MaybeCloseDrained(): Scope {
      if !stopping || connections != {} || drained then this else CloseDrained()
    }

    predicate Admits(roll: nat)
      requires startups >= 0
    {
      !stopping && !Dropped(DropRate(startups, limits), roll)
    }

    function Track(id: nat, transport: nat): Scope {
      var reserve := limits.full > 0;
      this.(all := all[id := Conn(transport, [transport], None, true, reserve, false)],
            connections := connections + {id},
            startups := if reserve then startups + 1 else startups)
    }

    predicate Open(id: nat) {
      id in connections && id in all && !all[id].closed
    }

    function Update(id: nat, transport: nat): Scope {
      if Open(id) then this.(all := all[id := all[id].(conn := transport, transports := [transport])]) else this
    }

    function UpdateCancel(id: nat, cancel: nat): Scope {
      if Open(id) then this.(all := all[id := all[id].(cancel := Some(cancel))]) else this
    }

    function Release(id: nat): Scope
      requires id in all
    {
      this.(all := all[id := all[id].(handshaking := false, reserved := false)],
            startups := if all[id].reserved then startups - 1 else startups)
    }

    function Untrack(id: nat): Scope {
      this.(connections := connections - {id}).MaybeCloseDrained()
    }

    function StopAccepting(): Scope {
      this.(stopping := true).MaybeCloseDrained()
    }

    /** All connection objects, with the given ones shut off. */
    function ShutOff(ids: set<nat>): map<nat, Conn> {
      map id | id in all :: if id in ids then all[id].(closed := true, reserved := false) else all[id]
    }

    function Reserved(ids: set<nat>): set<nat> {
      set id | id in ids && id in all && all[id].reserved
    }

    function CleanupsOf(ids: set<nat>): map<nat, Cleanup> {
      map id | id in all && id in ids :: Cleanup(all[id].cancel, all[id].transports)
    }

    /** Force's loop after it has visited the given connections. */
    function Visiting(ids: set<nat>): Scope {
      this.(forced := true, all := ShutOff(ids), connections := connections - ids)
    }

    function LeaveStartups(n: nat): Scope {
      this.(startups := startups - n)
    }

    function Force(): Scope {
      if forced then this
      else Visiting(connections).LeaveStartups(|Reserved(connections)|).MaybeCloseDrained()
    }

    /** What force has to close after it has left the mutex. */
    function Cleanups(): map<nat, Cleanup> {
      if forced then map[] else CleanupsOf(connections)
    }
  }

  function Fresh(limits: MaxStartups): Scope {
    Scope(limits, map[], {}, 0, false, false, false, false)
  }

  class ServeContext {
    const limits: MaxStartups
    var all: map<nat, Conn>
    var connections: set<nat>
    var startups: int
    var stopping: bool
    var forced: bool
    var drained: bool
    var panicked: bool

    function View(): Scope
      reads this
    {
      Scope(limits, all, connections, startups, stopping, forced, drained, panicked)
    }

    constructor (configured: Option<MaxStartups>)
      ensures View() == Fresh(Effective(configured))
    {
      limits := Effective(configured);
      all, connections, startups := map[], {}, 0;
      stopping, forced, drained, panicked := false, false, false, false;
    }

    method MaybeCloseDrained()
      modifies this`drained, this`panicked
      ensures View() == old(View()).MaybeCloseDrained()
    {
      if !stopping || |connections| != 0 {
        return;
      }
      if !drained {
        drained := true;
      }
    }

    method StopAccepting()
      modifies this
      ensures View() == old(View()).StopAccepting()
    {
      stopping := true;
      MaybeCloseDrained();
    }

    method TrackConnection(id: nat, transport: nat, roll: nat) returns (admitted: bool)
      requires startups >= 0 && roll < 100
      modifies this
      ensures admitted == old(View()).Admits(roll)
      ensures View() == if admitted then old(View()).Track(id, transport) else old(View())
    {
      if stopping {
        return false;
      }
      var dropRate := DropRate(startups, limits);
      if dropRate >= 100 || (dropRate > 0 && roll < dropRate) {
        return false;
      }
      var reserve := limits.full > 0;
      all := all[id := Conn(transport, [transport], None, true, reserve, false)];
      if reserve {
        startups := startups + 1;
      }
      connections := connections + {id};
      return true;
    }

    method UpdateConnection(id: nat, transport: nat) returns (ok: bool)
      modifies this`all
      ensures ok == old(View()).Open(id)
      ensures View() == old(View()).Update(id, transport)
    {
      if id !in connections || id !in all || all[id].closed {
        return false;
      }
      all := all[id := all[id].(conn := transport, transports := [transport])];
      return true;
    }

    method UpdateCancel(id: nat, cancel: nat) returns (ok: bool)
      modifies this`all
      ensures ok == old(View()).Open(id)
      ensures View() == old(View()).UpdateCancel(id, cancel)
    {
      if id !in connections || id !in all || all[id].closed {
        return false;
      }
      all := all[id := all[id].(cancel := Some(cancel))];
      return true;
    }

    method ReleaseStartup(id: nat)
      requires id in all
      modifies this`all, this`startups
      ensures View() == old(View()).Release(id)
    {
      var release := all[id].reserved;
      all := all[id := all[id].(handshaking := false, reserved := false)];
      if release {
        startups := startups - 1;
      }
    }

    /** The second critical section of untrackConnection. */
    method Untrack(id: nat)
      modifies this
      ensures View() == old(View()).Untrack(id)
    {
      connections := connections - {id};
      MaybeCloseDrained();
    }

    /** One turn of force's loop over the connections. */
    method ShutOffOne(ghost before: Scope, ghost visited: set<nat>, id: nat)
      returns (cleanup: Cleanup, released: bool)
      requires View() == before.Visiting(visited) && id in connections && id in before.all
      modifies this`all, this`connections
      ensures View() == before.Visiting(visited + {id})
      ensures cleanup == Cleanup(before.all[id].cancel, before.all[id].transports)
      ensures released == before.all[id].reserved
    {
      released := all[id].reserved;
      cleanup := Cleanup(all[id].cancel, all[id].transports);
      all := all[id := all[id].(closed := true, reserved := false)];
      connections := connections - {id};
      assert all == before.ShutOff(visited + {id});
    }

    /** Force's loop. */
    method ShutOffAll() returns (cleanups: map<nat, Cleanup>, releases: nat)
      requires connections <= all.Keys && forced
      modifies this`all, this`connections
      ensures View() == old(View()).Visiting(old(connections))
      ensures cleanups == old(View()).CleanupsOf(old(connections))
      ensures releases == |old(View()).Reserved(old(connections))|
    {
      ghost var before := View();
      ghost var visited: set<nat> := {};
      cleanups, releases := map[], 0;
      VisitNone(before);
      while connections != {}
        invariant visited <= before.connections
        invariant View() == before.Visiting(visited) && cleanups == before.CleanupsOf(visited)
        invariant releases == |before.Reserved(visited)|
        decreases |connections|
      {
        var id :| id in connections;
        Visit(before, visited, id);
        var cleanup, released := ShutOffOne(before, visited, id);
        if released {
          releases := releases + 1;
        }
        cleanups := cleanups[id := cleanup];
        visited := visited + {id};
      }
      assert visited == before.connections;
    }

    /** The second critical section of force: everything tracked is shut off, and what has to be
        closed is returned. */
    method Force() returns (cleanups: map<nat, Cleanup>)
      requires connections <= all.Keys
      modifies this
      ensures View() == old(View()).Force()
      ensures cleanups == old(View()).Cleanups()
    {
      cleanups := map[];
      if forced {
        return;
      }
      forced := true;
      var releases;
      cleanups, releases := ShutOffAll();
      startups := startups - releases;
      assert View() == old(View()).Visiting(old(connections)).LeaveStartups(releases);
      MaybeCloseDrained();
    }
  }

  lemma VisitNone(s: Scope)
    ensures s.forced ==> s.Visiting({}) == s
    ensures s.Reserved({}) == {} && s.CleanupsOf({}) == map[]
  {
    assert s.ShutOff({}) == s.all;
  }

  /** One more connection is shut off. */
  lemma Visit(s: Scope, visited: set<nat>, id: nat)
    requires id in s.all && id !in visited
    ensures s.CleanupsOf(visited + {id}) == s.CleanupsOf(visited)[id := Cleanup(s.all[id].cancel, s.all[id].transports)]
    ensures |s.Reserved(visited + {id})| == |s.Reserved(visited)| + One(s.all[id].reserved)
  {
    assert s.Reserved(visited + {id}) == s.Reserved(visited) + if s.all[id].reserved then {id} else {};
  }

  // ---------------------------------------------------------------- the threads around it

  /** `leaving` are connections whose untrackConnection is between its critical sections, `cleanups`
      what force still has to close, `refused` the transports whose owner was told that the scope no
      longer takes them and has still to close them. `owners` records who offered a transport, and
      `superseded` the transports replaced by a wrapper that closes them in turn. */
  datatype State = State(
    scope: Scope,
    leaving: set<nat>,
    cleanups: map<nat, Cleanup>,
    refused: set<nat>,
    closed: set<nat>,
    cancelled: set<nat>,
    owners: map<nat, nat>,
    superseded: set<nat>)

  function Init(configured: Option<MaxStartups>): State {
    State(Fresh(Effective(configured)), {}, map[], {}, {}, {}, map[], {})
  }

  datatype Event =
    | Track(id: nat, transport: nat, roll: nat)
    | Update(id: nat, transport: nat)
    | UpdateCancel(id: nat, cancel: nat)
    | Release(id: nat)
    | UntrackBegin(id: nat)
    | UntrackEnd(id: nat)
    | Stop
    | Force
    | CleanUp(id: nat)
    | CloseRefused(transport: nat)

  predicate Enabled(s: State, e: Event) {
    match e
    case Track(id, t, roll) => id !in s.scope.all && t !in s.owners && roll < 100 && s.scope.startups >= 0
    case Update(id, t) => id in s.scope.all && t !in s.owners
    case UpdateCancel(id, _) => id in s.scope.all
    case Release(id) => id in s.scope.all
    case UntrackBegin(id) => id in s.scope.all && id !in s.leaving
    case UntrackEnd(id) => id in s.leaving
    case Stop => true
    case Force => s.scope.stopping
    case CleanUp(id) => id in s.cleanups
    case CloseRefused(t) => t in s.refused
  }

  function TrackStep(s: State, id: nat, t: nat, roll: nat): State
    requires s.scope.startups >= 0
  {
    var u := s.(owners := s.owners[t := id]);
    if s.scope.Admits(roll) then u.(scope := s.scope.Track(id, t)) else u.(refused := s.refused + {t})
  }

  function UpdateStep(s: State, id: nat, t: nat): State
    requires id in s.scope.all
  {
    var u := s.(owners := s.owners[t := id]);
    if s.scope.Open(id) then
      u.(scope := s.scope.Update(id, t), superseded := s.superseded + {s.scope.all[id].conn})
    else u.(refused := s.refused + {t})
  }

  function CleanUpStep(s: State, id: nat): State
    requires id in s.cleanups
  {
    var c := s.cleanups[id];
    s.(closed := s.closed + (set t | t in c.transports),
       cancelled := if c.cancel.Some? then s.cancelled + {c.cancel.value} else s.cancelled,
       cleanups := s.cleanups - {id})
  }

  function UpdateCancelStep(s: State, id: nat, cancel: nat): State {
    s.(scope := s.scope.UpdateCancel(id, cancel))
  }

  function ReleaseStep(s: State, id: nat): State
    requires id in s.scope.all
  {
    s.(scope := s.scope.Release(id))
  }

  function UntrackBeginStep(s: State, id: nat): State
    requires id in s.scope.all
  {
    s.(scope := s.scope.Release(id), leaving := s.leaving + {id})
  }

  function UntrackEndStep(s: State, id: nat): State {
    s.(scope := s.scope.Untrack(id), leaving := s.leaving - {id})
  }

  function StopStep(s: State): State {
    s.(scope := s.scope.StopAccepting())
  }

  function ForceStep(s: State): State {
    s.(scope := s.scope.Force(), cleanups := if s.scope.forced then s.cleanups else s.scope.Cleanups())
  }

  function CloseRefusedStep(s: State, t: nat): State {
    s.(refused := s.refused - {t}, closed := s.closed + {t})
  }

  function Step(s: State, e: Event): State
    requires Enabled(s, e)
  {
    match e
    case Track(id, t, roll) => TrackStep(s, id, t, roll)
    case Update(id, t) => UpdateStep(s, id, t)
    case UpdateCancel(id, c) => UpdateCancelStep(s, id, c)
    case Release(id) => ReleaseStep(s, id)
    case UntrackBegin(id) => UntrackBeginStep(s, id)
    case UntrackEnd(id) => UntrackEndStep(s, id)
    case Stop => StopStep(s)
    case Force => ForceStep(s)
    case CleanUp(id) => CleanUpStep(s, id)
    case CloseRefused(t) => CloseRefusedStep(s, t)
  }

  function Run(s: State, es: seq<Event>): State {
    if es == [] then s
    else
      var t := Run(s, es[..|es| - 1]);
      if Enabled(t, es[|es| - 1]) then Step(t, es[|es| - 1]) else t
  }

  // ---------------------------------------------------------------- the invariant

  /** Startups are counted exactly, and never exceed the limit. */
  ghost predicate Startups(s: Scope) {
    && s.startups == Count(s.all, HasReservation)
    && s.startups <= s.limits.full
    && s.limits.full >= 0 && (s.limits.full > 0 ==> InRange(s.limits))
    && (forall id :: id in s.all && s.all[id].reserved ==> id in s.connections && s.limits.full > 0)
  }

  ghost predicate Draining(s: Scope) {
    && !s.panicked
    && (s.drained <==> s.stopping && s.connections == {})
    && (s.forced ==> s.stopping && s.connections == {})
    && s.connections <= s.all.Keys
  }

  /** The connection is closed and cancelled, or about to be. */
  predicate ShutDown(id: nat, c: Conn, cleanups: map<nat, Cleanup>, closed: set<nat>, cancelled: set<nat>) {
    if id in cleanups then cleanups[id] == Cleanup(c.cancel, c.transports)
    else c.conn in closed && (c.cancel.Some? ==> c.cancel.value in cancelled)
  }

  ghost predicate ObjectsInv(all: map<nat, Conn>, forced: bool, leaving: set<nat>) {
    && (forall id :: id in all ==> all[id].transports == [all[id].conn] && (all[id].closed ==> forced))
    && (forall id :: id in leaving ==> id in all && !all[id].reserved)
  }

  ghost predicate CleanupsInv(
      all: map<nat, Conn>, cleanups: map<nat, Cleanup>, closed: set<nat>, cancelled: set<nat>) {
    && (forall id :: id in all && all[id].closed ==> ShutDown(id, all[id], cleanups, closed, cancelled))
    && (forall id :: id in cleanups ==> id in all && all[id].closed)
  }

  /** Connections shut off by force are closed, or are about to be. */
  ghost predicate Teardown(s: State) {
    && ObjectsInv(s.scope.all, s.scope.forced, s.leaving)
    && CleanupsInv(s.scope.all, s.cleanups, s.closed, s.cancelled)
  }

  /** Every transport ever offered is in use, replaced, or closed by who has to close it. */
  ghost predicate Transports(s: State) {
    forall t :: t in s.owners ==>
      || t in s.refused || t in s.closed || t in s.superseded
      || (s.owners[t] in s.scope.all && s.scope.all[s.owners[t]].conn == t)
  }

  ghost predicate Inv(s: State) {
    Startups(s.scope) && Draining(s.scope) && Teardown(s) && Transports(s)
  }

  lemma TrackStartups(s: Scope, id: nat, t: nat, roll: nat)
    requires Startups(s) && id !in s.all && s.Admits(roll)
    ensures Startups(s.Track(id, t))
  {
    CountUpdate(s.all, id, Conn(t, [t], None, true, s.limits.full > 0, false), HasReservation);
    assert s.limits.full > 0 ==> s.startups < s.limits.full;
  }

  lemma ReleaseStartups(s: Scope, id: nat)
    requires Startups(s) && id in s.all
    ensures Startups(s.Release(id))
  {
    CountUpdate(s.all, id, s.all[id].(handshaking := false, reserved := false), HasReservation);
    if s.all[id].reserved {
      CountPositive(s.all, id, HasReservation);
    }
  }

  /** An update that keeps the reservation. */
  lemma SameStartups(s: Scope, id: nat, c: Conn)
    requires Startups(s) && id in s.all && c.reserved == s.all[id].reserved
    ensures Startups(s.(all := s.all[id := c]))
  {
    CountUpdate(s.all, id, c, HasReservation);
  }

  lemma ForceStartups(s: Scope)
    requires Startups(s) && !s.forced
    ensures Startups(s.Force()) && s.Force().startups == 0
  {
    assert s.Reserved(s.connections) == Where(s.all, HasReservation);
    assert Where(s.ShutOff(s.connections), HasReservation) == {};
  }

  lemma UntrackStartups(s: Scope, id: nat)
    requires Startups(s) && id in s.all && !s.all[id].reserved
    ensures Startups(s.Untrack(id))
  {
  }

  lemma StartupsStep(s: State, e: Event)
    requires Startups(s.scope) && Teardown(s) && Enabled(s, e)
    ensures Startups(Step(s, e).scope) && Step(s, e).scope.limits == s.scope.limits
  {
    if e.Track? {
      if s.scope.Admits(e.roll) {
        TrackStartups(s.scope, e.id, e.transport, e.roll);
      }
    } else if e.Update? {
      SameStartups(s.scope, e.id, s.scope.all[e.id].(conn := e.transport, transports := [e.transport]));
    } else if e.UpdateCancel? {
      SameStartups(s.scope, e.id, s.scope.all[e.id].(cancel := Some(e.cancel)));
    } else if e.Release? || e.UntrackBegin? {
      ReleaseStartups(s.scope, e.id);
    } else if e.UntrackEnd? {
      UntrackStartups(s.scope, e.id);
    } else if e.Force? && !s.scope.forced {
      ForceStartups(s.scope);
    }
  }

  lemma DrainingStep(s: State, e: Event)
    requires Draining(s.scope) && Enabled(s, e)
    ensures Draining(Step(s, e).scope)
  {
  }

  /** A connection object is added, or one that is not shut off is changed. */
  lemma ObjectPut(s: State, id: nat, c: Conn)
    requires Teardown(s) && !c.closed && c.transports == [c.conn]
    requires id in s.scope.all ==> !s.scope.all[id].closed && (!s.scope.all[id].reserved ==> !c.reserved)
    ensures ObjectsInv(s.scope.all[id := c], s.scope.forced, s.leaving)
    ensures CleanupsInv(s.scope.all[id := c], s.cleanups, s.closed, s.cancelled)
  {
  }

  lemma TeardownTrack(s: State, id: nat, t: nat, roll: nat)
    requires Teardown(s) && id !in s.scope.all && s.scope.startups >= 0
    ensures Teardown(TrackStep(s, id, t, roll))
  {
    ObjectPut(s, id, Conn(t, [t], None, true, s.scope.limits.full > 0, false));
  }

  lemma TeardownUpdate(s: State, id: nat, t: nat)
    requires Teardown(s) && id in s.scope.all
    ensures Teardown(UpdateStep(s, id, t))
  {
    if s.scope.Open(id) {
      ObjectPut(s, id, s.scope.all[id].(conn := t, transports := [t]));
    }
  }

  lemma TeardownUpdateCancel(s: State, id: nat, cancel: nat)
    requires Teardown(s) && id in s.scope.all
    ensures Teardown(UpdateCancelStep(s, id, cancel))
  {
    if s.scope.Open(id) {
      ObjectPut(s, id, s.scope.all[id].(cancel := Some(cancel)));
    }
  }

  lemma TeardownRelease(s: State, id: nat)
    requires Teardown(s) && id in s.scope.all
    ensures Teardown(ReleaseStep(s, id))
  {
  }

  lemma TeardownUntrackBegin(s: State, id: nat)
    requires Teardown(s) && id in s.scope.all
    ensures Teardown(UntrackBeginStep(s, id))
  {
    TeardownRelease(s, id);
  }

  lemma TeardownUntrackEnd(s: State, id: nat)
    requires Teardown(s)
    ensures Teardown(UntrackEndStep(s, id))
  {
  }

  lemma TeardownStop(s: State)
    requires Teardown(s)
    ensures Teardown(StopStep(s))
  {
  }

  lemma TeardownForce(s: State)
    requires Draining(s.scope) && Teardown(s)
    ensures Teardown(ForceStep(s))
  {
  }

  lemma TeardownCleanUp(s: State, id: nat)
    requires Teardown(s) && id in s.cleanups
    ensures Teardown(CleanUpStep(s, id))
  {
  }

  lemma TeardownCloseRefused(s: State, t: nat)
    requires Teardown(s)
    ensures Teardown(CloseRefusedStep(s, t))
  {
  }

  lemma TeardownStep(s: State, e: Event)
    requires Draining(s.scope) && Teardown(s) && Enabled(s, e)
    ensures Teardown(Step(s, e))
  {
    if e.Track? {
      TeardownTrack(s, e.id, e.transport, e.roll);
    } else if e.Update? {
      TeardownUpdate(s, e.id, e.transport);
    } else if e.UpdateCancel? {
      TeardownUpdateCancel(s, e.id, e.cancel);
    } else if e.Release? {
      TeardownRelease(s, e.id);
    } else if e.UntrackBegin? {
      TeardownUntrackBegin(s, e.id);
    } else if e.UntrackEnd? {
      TeardownUntrackEnd(s, e.id);
    } else if e.Stop? {
      TeardownStop(s);
    } else if e.Force? {
      TeardownForce(s);
    } else if e.CleanUp? {
      TeardownCleanUp(s, e.id);
    } else {
      TeardownCloseRefused(s, e.transport);
    }
  }

  lemma TransportsOffer(s: State, e: Event)
    requires Transports(s) && Enabled(s, e) && (e.Track? || e.Update?)
    ensures Transports(Step(s, e))
  {
  }

  lemma TransportsClose(s: State, e: Event)
    requires Transports(s) && Enabled(s, e) && (e.CleanUp? || e.CloseRefused?)
    ensures Transports(Step(s, e))
  {
  }

  /** No other step loses a transport or changes which one a connection uses. */
  lemma TransportsOther(s: State, e: Event)
    requires Transports(s) && Enabled(s, e) && !e.Track? && !e.Update? && !e.CleanUp? && !e.CloseRefused?
    ensures Transports(Step(s, e))
  {
  }

  lemma TransportsStep(s: State, e: Event)
    requires Transports(s) && Enabled(s, e)
    ensures Transports(Step(s, e))
  {
    if e.Track? || e.Update? {
      TransportsOffer(s, e);
    } else if e.CleanUp? || e.CloseRefused? {
      TransportsClose(s, e);
    } else {
      TransportsOther(s, e);
    }
  }

  lemma {:induction false} RunKeepsInv(s: State, es: seq<Event>)
    requires Inv(s)
    ensures Inv(Run(s, es)) && Run(s, es).scope.limits == s.scope.limits
  {
    if es != [] {
      var t, e := Run(s, es[..|es| - 1]), es[|es| - 1];
      RunKeepsInv(s, es[..|es| - 1]);
      if Enabled(t, e) {
        StartupsStep(t, e);
        DrainingStep(t, e);
        TeardownStep(t, e);
        TransportsStep(t, e);
      }
    }
  }

  lemma Reachable(configured: Option<MaxStartups>, es: seq<Event>)
    ensures Inv(Run(Init(configured), es)) && Run(Init(configured), es).scope.limits == Effective(configured)
  {
    assert Count(map[], HasReservation) == 0 by {
      assert Where(map[], HasReservation) == {};
    }
    RunKeepsInv(Init(configured), es);
  }

  // ---------------------------------------------------------------- what every run guarantees

  /** `startups` is the number of connections holding a startup reservation, all of them tracked, and
      stays within the limit; without a limit nobody holds one. */
  lemma StartupsBounded(configured: Option<MaxStartups>, es: seq<Event>)
    ensures var s := Run(Init(configured), es).scope;
      && s.startups == Count(s.all, HasReservation)
      && 0 <= s.startups <= Effective(configured).full
      && (forall id :: id in s.all && s.all[id].reserved ==> id in s.connections)
  {
    Reachable(configured, es);
  }

  /** `drained` is closed, once, exactly when the scope has stopped accepting and tracks nothing. */
  lemma DrainedExactly(configured: Option<MaxStartups>, es: seq<Event>)
    ensures var s := Run(Init(configured), es).scope;
      !s.panicked && (s.drained <==> s.stopping && s.connections == {})
  {
    Reachable(configured, es);
  }

  /** Stopping, drained and forced are for good, and a stopped scope tracks nothing new. */
  lemma {:induction false} StoppedForGood(s: State, es: seq<Event>)
    requires Inv(s)
    ensures var t := Run(s, es).scope;
      && (s.scope.stopping ==> t.stopping && t.connections <= s.scope.connections)
      && (s.scope.drained ==> t.drained && t.connections == {})
      && (s.scope.forced ==> t.forced && t.connections == {} && t.startups == 0)
  {
    if es != [] {
      var t, e := Run(s, es[..|es| - 1]), es[|es| - 1];
      StoppedForGood(s, es[..|es| - 1]);
      RunKeepsInv(s, es[..|es| - 1]);
      if Enabled(t, e) {
        StoppedStep(t, e);
      }
    }
    RunKeepsInv(s, es);
    NothingReserved(Run(s, es).scope);
  }

  lemma StoppedStep(s: State, e: Event)
    requires Draining(s.scope) && Enabled(s, e)
    ensures var t := Step(s, e).scope;
      && (s.scope.stopping ==> t.stopping && t.connections <= s.scope.connections)
      && (s.scope.drained ==> t.drained) && (s.scope.forced ==> t.forced)
  {
  }

  lemma NothingReserved(s: Scope)
    requires Startups(s)
    ensures s.connections == {} ==> s.startups == 0
  {
    if s.connections == {} {
      assert Where(s.all, HasReservation) == {};
    }
  }

  /** After force has shut everything off no update succeeds, and every transport anybody offered
      has been closed, is about to be closed by force or by its refused owner, was replaced by a
      wrapper, or belongs to a connection that had left before. */
  lemma ForcedClosesEverything(configured: Option<MaxStartups>, es: seq<Event>, t: nat)
    requires Run(Init(configured), es).scope.forced && t in Run(Init(configured), es).owners
    ensures var s := Run(Init(configured), es);
      && (forall id :: !s.scope.Open(id))
      && (|| t in s.closed || t in s.refused || t in s.superseded
          || (s.owners[t] in s.cleanups && t in s.cleanups[s.owners[t]].transports)
          || (s.owners[t] in s.scope.all && s.scope.all[s.owners[t]].conn == t && !s.scope.all[s.owners[t]].closed))
  {
    Reachable(configured, es);
  }

  /** Once force's cleanups and the refused owners are through, whatever force found tracked is
      closed and its context cancelled. */
  lemma ForcedConnectionsClosed(configured: Option<MaxStartups>, es: seq<Event>, id: nat)
    requires var s := Run(Init(configured), es); s.cleanups == map[] && id in s.scope.all && s.scope.all[id].closed
    ensures var s := Run(Init(configured), es); var c := s.scope.all[id];
      c.conn in s.closed && (c.cancel.Some? ==> c.cancel.value in s.cancelled)
  {
    Reachable(configured, es);
  }

  /** Force shuts off exactly what it finds tracked. */
  lemma ForceShutsOffTracked(s: State, id: nat)
    requires Inv(s) && s.scope.stopping && !s.scope.forced && id in s.scope.all
    ensures var t := Step(s, Force);
      && t.scope.forced && t.scope.drained && t.scope.connections == {}
      && (t.scope.all[id].closed <==> id in s.scope.connections)
      && (id in s.scope.connections ==> t.scope.all[id].conn == s.scope.all[id].conn)
  {
  }
}
