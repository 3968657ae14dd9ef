/** A run in which a channel open outlives its forward: its caller gives up on a timeout while the
    open still runs, the forward is cancelled, and a second forward takes the key
    (tcpip.go:398-412, 463-485). */
module ForwardingWitness {
  import opened Prelude
  import opened Forwarding
  import opened ForwardingProofs

  const OPEN: Gate := Gate(false, 0, 0)
  const PENDING: Gate := Gate(false, 1, 0)
  const CLOSED: Gate := Gate(true, 0, 1)

  /** States with one TCP forward for key 0, at most one connection of it, one cancel, and one
      second forward for the key. */
  function World(reg: map<nat, nat>, stage: Stage, gate: Gate, reply: Reply, conn: Option<ConnStage>,
                 cancel: Option<CancelStage>, second: Option<Stage>, slots: int, channels: int, tokens: int): State
  {
    var first := Fwd(0, false, stage, gate, reply);
    State(reg,
          if second.None? then map[0 := first] else map[0 := first, 1 := Fwd(0, false, second.value, OPEN, Unanswered)],
          if conn.None? then map[] else map[0 := Conn(0, conn.value)],
          if cancel.None? then map[] else map[0 := Cancel(0, cancel.value)],
          slots, channels, tokens)
  }

  /** Runs one more event. */
  lemma Then(es: seq<Event>, e: Event, t: State) returns (next: seq<Event>)
    requires Enabled(Run(Init, es), e) && Step(Run(Init, es), e) == t
    ensures Run(Init, next) == t
  {
    next := es + [e];
    assert next[..|es|] == es;
  }

  /** A TCP forward enters the registry */
  lemma EntersRegistry() returns (es: seq<Event>)
    ensures Run(Init, es) ==
      World(map[0 := 0], Inserted, OPEN, Unanswered, None, None, None, 1, 0, 0)
  {
    es := [];
    es := Then(es, Reserve(0, 0, false),
      World(map[], Slot, OPEN, Unanswered, None, None, None, 1, 0, 0));
    es := Then(es, TakeToken(0, true),
      World(map[], Listening, OPEN, Unanswered, None, None, None, 1, 0, 1));
    es := Then(es, Listen(0, true),
      World(map[], Made, OPEN, Unanswered, None, None, None, 1, 0, 0));
    es := Then(es, Insert(0),
      World(map[0 := 0], Inserted, OPEN, Unanswered, None, None, None, 1, 0, 0));
  }

  /** and serves; */
  lemma Serves() returns (es: seq<Event>)
    ensures Run(Init, es) ==
      World(map[0 := 0], Serving, OPEN, Accepted, None, None, None, 1, 0, 0)
  {
    es := EntersRegistry();
    es := Then(es, StartWorker(0, true),
      World(map[0 := 0], Working, OPEN, Unanswered, None, None, None, 1, 0, 0));
    es := Then(es, Answer(0, true),
      World(map[0 := 0], Working, OPEN, Accepted, None, None, None, 1, 0, 0));
    es := Then(es, Proceed(0),
      World(map[0 := 0], Serving, OPEN, Accepted, None, None, None, 1, 0, 0));
  }

  /** a connection arrives, */
  lemma Accepts() returns (es: seq<Event>)
    ensures Run(Init, es) ==
      World(map[0 := 0], Serving, OPEN, Accepted, Some(ChannelSlot), None, None, 1, 1, 0)
  {
    es := Serves();
    es := Then(es, BeginAccept(0, 0),
      World(map[0 := 0], Serving, OPEN, Accepted, Some(TokenHeld), None, None, 1, 0, 1));
    es := Then(es, EndAccept(0, true),
      World(map[0 := 0], Serving, OPEN, Accepted, Some(Arrived), None, None, 1, 0, 0));
    es := Then(es, ReserveChannel(0, true),
      World(map[0 := 0], Serving, OPEN, Accepted, Some(ChannelSlot), None, None, 1, 1, 0));
  }

  /** and its open is given up while it runs; */
  lemma GivesUp() returns (es: seq<Event>)
    ensures Run(Init, es) ==
      World(map[0 := 0], Serving, OPEN, Accepted, Some(Lingering), None, None, 1, 0, 0)
  {
    es := Accepts();
    es := Then(es, BeginOpen(0),
      World(map[0 := 0], Serving, PENDING, Accepted, Some(Opening), None, None, 1, 1, 0));
    es := Then(es, EndOpen(0, GaveUp),
      World(map[0 := 0], Serving, OPEN, Accepted, Some(Lingering), None, None, 1, 0, 0));
  }

  /** the forward is cancelled, */
  lemma Closes() returns (es: seq<Event>)
    ensures Run(Init, es) ==
      World(map[0 := 0], Serving, CLOSED, Accepted, Some(Lingering), Some(Waiting), None, 0, 0, 0)
  {
    es := GivesUp();
    es := Then(es, LookUp(0, 0),
      World(map[0 := 0], Serving, OPEN, Accepted, Some(Lingering), Some(Closing), None, 1, 0, 0));
    es := Then(es, CancelClose(0),
      World(map[0 := 0], Serving, CLOSED, Accepted, Some(Lingering), Some(Waiting), None, 0, 0, 0));
  }

  /** its key becomes free, */
  lemma FreesKey() returns (es: seq<Event>)
    ensures Run(Init, es) ==
      World(map[], Serving, CLOSED, Accepted, Some(Lingering), Some(Over), None, 0, 0, 0)
  {
    es := Closes();
    es := Then(es, CancelWait(0),
      World(map[0 := 0], Serving, CLOSED, Accepted, Some(Lingering), Some(Deleting), None, 0, 0, 0));
    es := Then(es, CancelRemove(0),
      World(map[], Serving, CLOSED, Accepted, Some(Lingering), Some(Over), None, 0, 0, 0));
  }

  /** and a second forward takes it. */
  lemma TakesKey() returns (es: seq<Event>)
    ensures Run(Init, es) ==
      World(map[0 := 1], Serving, CLOSED, Accepted, Some(Lingering), Some(Over), Some(Inserted), 1, 0, 0)
  {
    es := FreesKey();
    es := Then(es, Reserve(1, 0, false),
      World(map[], Serving, CLOSED, Accepted, Some(Lingering), Some(Over), Some(Slot), 1, 0, 0));
    es := Then(es, TakeToken(1, true),
      World(map[], Serving, CLOSED, Accepted, Some(Lingering), Some(Over), Some(Listening), 1, 0, 1));
    es := Then(es, Listen(1, true),
      World(map[], Serving, CLOSED, Accepted, Some(Lingering), Some(Over), Some(Made), 1, 0, 0));
    es := Then(es, Insert(1),
      World(map[0 := 1], Serving, CLOSED, Accepted, Some(Lingering), Some(Over), Some(Inserted), 1, 0, 0));
  }

  /** The key belongs to a new forward while an open of the old one still runs. */
  lemma GivenUpOpenOutlivesForward() returns (es: seq<Event>)
    ensures var s := Run(Init, es);
      && InFlight(s, 0) && s.conns[0].f == 0 && !Registered(s, 0)
      && Registered(s, 1) && s.fwds[1].key == s.fwds[0].key
  {
    es := TakesKey();
  }
}
