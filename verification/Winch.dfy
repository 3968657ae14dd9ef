/** Window changes: a channel of capacity one that keeps only the newest window, whatever its
    receivers do meanwhile, and what the windows sent over it are (session.go:1012-1062, 1167-1181). */
module Winch {
  import opened Prelude
  import opened Codec

  // ---------------------------------------------------------------- what a window change means

  datatype Dimension = Width | Height | WidthPixels | HeightPixels

  function Size(w: Window, d: Dimension): nat {
    match d
    case Width => w.width
    case Height => w.height
    case WidthPixels => w.widthPixels
    case HeightPixels => w.heightPixels
  }

  /** The window after a series of updates. */
  function Merged(start: Window, updates: seq<Window>): Window {
    if updates == [] then start
    else MergeWindow(Merged(start, updates[..|updates| - 1]), updates[|updates| - 1])
  }

  /** The last update that gives this dimension, or -1. */
  function LastGiven(updates: seq<Window>, d: Dimension): (i: int)
    ensures -1 <= i < |updates| && (i >= 0 ==> Size(updates[i], d) != 0)
    ensures forall j :: i < j < |updates| ==> Size(updates[j], d) == 0
  {
    if updates == [] then -1
    else if Size(updates[|updates| - 1], d) != 0 then |updates| - 1
    else LastGiven(updates[..|updates| - 1], d)
  }

  /** Each dimension is the one last given, or the one at the start if none was. */
  lemma {:induction false} MergedKeepsLastGiven(start: Window, updates: seq<Window>, d: Dimension)
    ensures Size(Merged(start, updates), d) ==
      (if LastGiven(updates, d) < 0 then Size(start, d) else Size(updates[LastGiven(updates, d)], d))
  {
    if updates != [] {
      MergedKeepsLastGiven(start, updates[..|updates| - 1], d);
    }
  }

  // ---------------------------------------------------------------- the channel

  /** Sending without anybody receiving meanwhile: the new window replaces an old one. */
  class WindowChannel {
    var queue: Option<Window>

    constructor (w: Window)
      ensures queue == Some(w)
    {
      queue := Some(w);
    }

    method TrySend(w: Window) returns (sent: bool)
      modifies this
      ensures sent == old(queue).None? && queue == if sent then Some(w) else old(queue)
    {
      sent := queue.None?;
      if sent {
        queue := Some(w);
      }
    }

    method TryReceive() returns (w: Option<Window>)
      modifies this
      ensures w == old(queue) && queue == None
    {
      w := queue;
      queue := None;
    }

    method Coalesce(w: Window)
      modifies this
      ensures queue == Some(w)
    {
      var sent := TrySend(w);
      if !sent {
        var _ := TryReceive();
        sent := TrySend(w);
      }
    }
  }

  /** The sender's place in the two nested selects. */
  datatype Sender = Idle | Offering | Dropping | Retrying

  /** Windows are numbered as they are set; the first is the pty request's. `received` are the
      numbers of those taken out by receivers, in order. */
  datatype State = State(updates: seq<Window>, queue: Option<nat>, received: seq<nat>, sender: Sender)

  const Init: State := State([], Some(0), [], Idle)

  datatype Event = Change(update: Window) | Offer | Drop | Retry | Receive

  predicate Enabled(s: State, e: Event) {
    match e
    case Change(_) => s.sender.Idle?
    case Offer => s.sender.Offering?
    case Drop => s.sender.Dropping?
    case Retry => s.sender.Retrying?
    case Receive => s.queue.Some?
  }

  /** The number of the newest window. */
  function Newest(s: State): nat {
    |s.updates|
  }

  function Step(s: State, e: Event): State
    requires Enabled(s, e)
  {
    match e
    case Change(u) => s.(updates := s.updates + [u], sender := Offering)
    case Offer => if s.queue.None? then s.(queue := Some(Newest(s)), sender := Idle) else s.(sender := Dropping)
    case Drop => s.(queue := None, sender := Retrying)
    case Retry => s.(queue := if s.queue.None? then Some(Newest(s)) else s.queue, sender := Idle)
    case Receive => s.(received := s.received + [s.queue.value], queue := None)
  }

  function Run(s: State, es: seq<Event>): State {
    if es == [] then s
    else
      var t := Run(s, es[..|es| - 1]);
      if Enabled(t, es[|es| - 1]) then Step(t, es[|es| - 1]) else t
  }

  /** Everything received is older than `n`. */
  predicate ReceivedBelow(s: State, n: int) {
    forall i :: 0 <= i < |s.received| ==> s.received[i] < n
  }

  predicate LastReceived(s: State, n: nat) {
    s.received != [] && s.received[|s.received| - 1] == n
  }

  ghost predicate Inv(s: State) {
    && (forall i, j :: 0 <= i < j < |s.received| ==> s.received[i] < s.received[j])
    && ReceivedBelow(s, Newest(s) + 1)
    && (s.queue.Some? ==> s.queue.value <= Newest(s) && ReceivedBelow(s, s.queue.value))
    && (s.sender.Idle? ==> s.queue == Some(Newest(s)) || (s.queue.None? && LastReceived(s, Newest(s))))
    && (!s.sender.Idle? ==> ReceivedBelow(s, Newest(s)) && (s.queue.Some? ==> s.queue.value < Newest(s)))
    && (s.sender.Retrying? ==> s.queue.None?)
  }

  lemma StepKeepsInv(s: State, e: Event)
    requires Inv(s) && Enabled(s, e)
    ensures Inv(Step(s, e))
  {
  }

  lemma {:induction false} Reachable(es: seq<Event>)
    ensures Inv(Run(Init, es))
  {
    if es != [] {
      Reachable(es[..|es| - 1]);
      var t, e := Run(Init, es[..|es| - 1]), es[|es| - 1];
      if Enabled(t, e) {
        StepKeepsInv(t, e);
      }
    }
  }

  /** Receivers get windows in the order they were set, none twice; and once a window change is
      through, the newest window waits in the channel or was the last one received. */
  lemma NewestIsDelivered(es: seq<Event>)
    ensures var s := Run(Init, es);
      && (forall i, j :: 0 <= i < j < |s.received| ==> s.received[i] < s.received[j] <= Newest(s))
      && (s.sender.Idle? ==> s.queue == Some(Newest(s)) || (s.queue.None? && LastReceived(s, Newest(s))))
      && (s.queue.Some? && s.received != [] ==> s.received[|s.received| - 1] < s.queue.value)
  {
    Reachable(es);
  }
}
