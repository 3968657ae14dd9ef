/** The fields of a session that its mutex guards, and the critical sections over them
    (session.go:403-422, 483-627, 669-716).

    Cancel and done channels are numbered as they are made. Closing one twice would panic
    in Go; `panicked` records such a close. Signals carry the number of their arrival, an
    auxiliary tag that no step reads. */
module SessionState {
  import opened Prelude

  const MAX_SIG_BUF: nat := 128
  const MAX_SIGNAL_BYTES: nat := 64

  datatype Signal = Signal(name: string, arrival: nat)

  datatype Shared = Shared(
    sigCh: Option<nat>,
    sigBuf: seq<Signal>,
    sigDrainCancel: Option<nat>,
    sigDrainDone: Option<nat>,
    sigSendCancel: Option<nat>,
    sigSends: int,
    breakCh: Option<nat>,
    breakSendCancel: Option<nat>,
    breakSends: int,
    exiting: bool,
    exited: bool,
    made: nat,
    closedCancels: set<nat>,
    closedDones: set<nat>,
    panicked: bool)
  {
    function CloseCancel(c: nat): Shared {
      this.(closedCancels := closedCancels + {c}, panicked := panicked || c in closedCancels)
    }

    function CloseDone(d: nat): Shared {
      this.(closedDones := closedDones + {d}, panicked := panicked || d in closedDones)
    }

    /** Unregistering: direct sends are cancelled and no channel is set. */
    function Unset(): Shared {
      (if sigSendCancel.Some? then CloseCancel(sigSendCancel.value).(sigSendCancel := None) else this)
        .(sigCh := None)
    }

    /** The first critical section of setSignalChannelLocked: cancel the drain, whose end has
        to be awaited, or unregister at once. */
    function BeginConfigure(): Shared {
      if sigDrainCancel.Some? then CloseCancel(sigDrainCancel.value) else Unset()
    }

    function RegisterDirectly(target: nat): Shared {
      this.(sigCh := Some(target), sigSendCancel := Some(made), made := made + 1)
    }

    /** The last one: register directly when nothing is buffered, else hand over to a drain. */
    function Register(c: Option<nat>): Shared {
      if c.None? then this
      else if sigBuf == [] then RegisterDirectly(c.value)
      else this.(sigDrainCancel := Some(made), sigDrainDone := Some(made), made := made + 1)
    }

    predicate Spawns(c: Option<nat>) {
      c.Some? && sigBuf != []
    }

    /** A drain's turn: take all that is buffered, or become the direct registration. */
    function TakeBuffered(target: nat): Shared {
      if sigBuf == [] then
        RegisterDirectly(target).(sigBuf := [], sigDrainCancel := None, sigDrainDone := None)
      else this.(sigBuf := [])
    }

    function Requeue(signals: seq<Signal>): Shared {
      var all := signals + sigBuf;
      this.(sigBuf := if |all| > MAX_SIG_BUF then all[..MAX_SIG_BUF] else all,
            sigDrainCancel := None, sigDrainDone := None)
    }

    function FinishDrain(d: nat): Shared {
      (if sigDrainDone == Some(d) then this.(sigDrainCancel := None, sigDrainDone := None) else this)
        .CloseDone(d)
    }

    /** What a signal request does under the lock: refuse, buffer, or start a direct send. */
    function Decide(sig: Signal): Shared {
      if exiting then this
      else if sigCh.Some? then this.(sigSends := sigSends + 1)
      else if |sigBuf| < MAX_SIG_BUF then this.(sigBuf := sigBuf + [sig])
      else this
    }

    function AfterSend(ch: nat, channelClosed: bool): Shared {
      var s := this.(sigSends := sigSends - 1);
      if channelClosed && sigCh == Some(ch) then s.(sigCh := None, sigSendCancel := None) else s
    }

    function BreakUnset(): Shared {
      (if breakSendCancel.Some? then CloseCancel(breakSendCancel.value).(breakSendCancel := None) else this)
        .(breakCh := None)
    }

    function BreakRegister(c: Option<nat>): Shared {
      if c.None? then this else this.(breakCh := c, breakSendCancel := Some(made), made := made + 1)
    }

    function BreakDecide(): Shared {
      if breakCh.Some? then this.(breakSends := breakSends + 1) else this
    }

    function AfterBreak(ch: nat, channelClosed: bool): Shared {
      var s := this.(breakSends := breakSends - 1);
      if channelClosed && breakCh == Some(ch) then s.(breakCh := None, breakSendCancel := None) else s
    }
  }

  const Fresh: Shared :=
    Shared(None, [], None, None, None, 0, None, None, 0, false, false, 0, {}, {}, false)

  /** The session object; each method is one critical section of the code. */
  class Session {
    var sigCh: Option<nat>
    var sigBuf: seq<Signal>
    var sigDrainCancel: Option<nat>
    var sigDrainDone: Option<nat>
    var sigSendCancel: Option<nat>
    var sigSends: int
    var breakCh: Option<nat>
    var breakSendCancel: Option<nat>
    var breakSends: int
    var exiting: bool
    var exited: bool
    var made: nat
    var closedCancels: set<nat>
    var closedDones: set<nat>
    var panicked: bool

    function View(): Shared
      reads this
    {
      Shared(sigCh, sigBuf, sigDrainCancel, sigDrainDone, sigSendCancel, sigSends, breakCh, breakSendCancel,
             breakSends, exiting, exited, made, closedCancels, closedDones, panicked)
    }

    constructor ()
      ensures View() == Fresh
    {
      sigCh, sigBuf, sigDrainCancel, sigDrainDone, sigSendCancel, sigSends := None, [], None, None, None, 0;
      breakCh, breakSendCancel, breakSends := None, None, 0;
      exiting, exited := false, false;
      made, closedCancels, closedDones, panicked := 0, {}, {}, false;
    }

    method MakeChannel() returns (c: nat)
      modifies this`made
      ensures c == old(made) && made == old(made) + 1
    {
      c := made;
      made := made + 1;
    }

    method CloseCancel(c: nat)
      modifies this`closedCancels, this`panicked
      ensures View() == old(View()).CloseCancel(c)
    {
      if c in closedCancels {
        panicked := true;
      }
      closedCancels := closedCancels + {c};
    }

    method Unset()
      modifies this
      ensures View() == old(View()).Unset()
    {
      if sigSendCancel.Some? {
        CloseCancel(sigSendCancel.value);
        sigSendCancel := None;
      }
      sigCh := None;
    }

    /** `wait` is the drain whose done channel the caller has to await before Unset. */
    method BeginConfigure() returns (wait: Option<nat>)
      modifies this
      ensures View() == old(View()).BeginConfigure()
      ensures wait == if old(sigDrainCancel).Some? then old(sigDrainDone) else None
    {
      wait := None;
      if sigDrainCancel.Some? {
        CloseCancel(sigDrainCancel.value);
        wait := sigDrainDone;
      } else {
        Unset();
      }
    }

    /** Direct registration, with a cancel channel of its own. */
    method RegisterDirectly(target: nat)
      modifies this`sigCh, this`sigSendCancel, this`made
      ensures View() == old(View()).RegisterDirectly(target)
    {
      sigCh := Some(target);
      var cancel := MakeChannel();
      sigSendCancel := Some(cancel);
    }

    method Register(c: Option<nat>) returns (drain: Option<nat>)
      modifies this
      ensures View() == old(View()).Register(c)
      ensures drain == if old(View()).Spawns(c) then Some(old(made)) else None
    {
      drain := None;
      if c.None? {
        return;
      }
      if |sigBuf| == 0 {
        RegisterDirectly(c.value);
        return;
      }
      var id := MakeChannel();
      sigDrainCancel := Some(id);
      sigDrainDone := Some(id);
      drain := Some(id);
    }

    method TakeBuffered(target: nat) returns (buffered: seq<Signal>)
      modifies this
      ensures View() == old(View()).TakeBuffered(target)
      ensures buffered == old(sigBuf)
    {
      buffered := sigBuf;
      sigBuf := [];
      if |buffered| == 0 {
        RegisterDirectly(target);
        sigDrainCancel := None;
        sigDrainDone := None;
      }
    }

    method Requeue(remainder: seq<Signal>)
      modifies this
      ensures View() == old(View()).Requeue(remainder)
    {
      var signals := remainder + sigBuf;
      if |signals| > MAX_SIG_BUF {
        signals := signals[..MAX_SIG_BUF];
      }
      sigBuf := signals;
      sigDrainCancel := None;
      sigDrainDone := None;
    }

    method FinishDrain(d: nat)
      modifies this
      ensures View() == old(View()).FinishDrain(d)
    {
      if sigDrainDone == Some(d) {
        sigDrainCancel := None;
        sigDrainDone := None;
      }
      if d in closedDones {
        panicked := true;
      }
      closedDones := closedDones + {d};
    }

    /** `direct` is the channel and cancel channel of a direct send the caller must make. */
    method Decide(sig: Signal) returns (refused: bool, direct: Option<(nat, Option<nat>)>)
      modifies this
      ensures View() == old(View()).Decide(sig)
      ensures refused == old(exiting)
      ensures direct == if !refused && old(sigCh).Some? then Some((old(sigCh).value, old(sigSendCancel))) else None
    {
      refused, direct := false, None;
      if exiting {
        return true, None;
      }
      if sigCh.None? {
        if |sigBuf| < MAX_SIG_BUF {
          sigBuf := sigBuf + [sig];
        }
      } else {
        direct := Some((sigCh.value, sigSendCancel));
        sigSends := sigSends + 1;
      }
    }

    method AfterSend(ch: nat, channelClosed: bool)
      modifies this
      ensures View() == old(View()).AfterSend(ch, channelClosed)
    {
      sigSends := sigSends - 1;
      if channelClosed {
        if sigCh == Some(ch) {
          sigCh := None;
          sigSendCancel := None;
        }
      }
    }

    method BreakUnset()
      modifies this
      ensures View() == old(View()).BreakUnset()
    {
      if breakSendCancel.Some? {
        CloseCancel(breakSendCancel.value);
        breakSendCancel := None;
      }
      breakCh := None;
    }

    method BreakRegister(c: Option<nat>)
      modifies this
      ensures View() == old(View()).BreakRegister(c)
    {
      if c.Some? {
        breakCh := c;
        var cancel := MakeChannel();
        breakSendCancel := Some(cancel);
      }
    }

    method BreakDecide() returns (direct: Option<(nat, Option<nat>)>)
      modifies this
      ensures View() == old(View()).BreakDecide()
      ensures direct == if old(breakCh).Some? then Some((old(breakCh).value, old(breakSendCancel))) else None
    {
      direct := None;
      if breakCh.Some? {
        direct := Some((breakCh.value, breakSendCancel));
        breakSends := breakSends + 1;
      }
    }

    method AfterBreak(ch: nat, channelClosed: bool)
      modifies this
      ensures View() == old(View()).AfterBreak(ch, channelClosed)
    {
      breakSends := breakSends - 1;
      if channelClosed && breakCh == Some(ch) {
        breakCh := None;
        breakSendCancel := None;
      }
    }

    method MarkExiting()
      modifies this`exiting
      ensures View() == old(View()).(exiting := true)
    {
      exiting := true;
    }

    /** Exit's final section: only the first caller sends the exit status. */
    method Exit() returns (send: bool)
      modifies this`exited
      ensures View() == old(View()).(exited := true)
      ensures send == !old(exited)
    {
      if exited {
        return false;
      }
      exited := true;
      send := true;
    }
  }
}
