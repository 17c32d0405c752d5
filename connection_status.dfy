/**
 * The browser client's connection indicator (src/pages/Index.tsx): two
 * React state flags, `isConnected` and `isLoading`, driven by the socket's
 * `connect` and `disconnect` events and by a 3-second timer, and the choice
 * of what the page body shows from them.
 *
 * The timer is armed by an effect that re-runs whenever `isConnected`
 * changes; re-running clears the pending timer and arms a fresh one, whose
 * callback sees the value of `isConnected` it was armed under.  The model
 * keeps this as the flag `timerArmed`: set on mount and on every change of
 * `isConnected`, cleared when the timer fires.
 */
module ConnectionStatus {

  /** The callbacks that change the flags. */
  datatype Event = Connected | Disconnected | TimedOut

  datatype Status = Status(connected: bool, loading: bool, timerArmed: bool)

  /** On mount: not connected, loading, and the timer pending. */
  const Initial: Status := Status(false, true, true)

  /** What the page body shows. */
  datatype View = Spinner | NotRunningPanel | TerminalPane

  /** Connected implies no longer loading. */
  predicate Consistent(s: Status)
  {
    s.connected ==> !s.loading
  }

  /** The flags after one event. */
  function Next(s: Status, e: Event): (r: Status)
    // `connect` sets connected and clears loading
    ensures e == Connected ==> r.connected && !r.loading
    // `disconnect` clears only isConnected
    ensures e == Disconnected ==> !r.connected && r.loading == s.loading
    // the timer never changes isConnected and can only lower isLoading,
    // and only when one is pending and the client is not connected
    ensures e == TimedOut ==> r.connected == s.connected && !r.timerArmed && (r.loading ==> s.loading)
    ensures e == TimedOut && r.loading != s.loading ==> s.timerArmed && !s.connected
    // and a pending timer does lower it when the client is not connected
    ensures e == TimedOut && s.timerArmed && !s.connected ==> !r.loading
    // a fresh timer is pending exactly when isConnected changed, or one was
    // pending and did not just fire
    ensures r.timerArmed <==> r.connected != s.connected || (s.timerArmed && e != TimedOut)
    // no event raises isLoading
    ensures r.loading ==> s.loading
    ensures Consistent(s) ==> Consistent(r)
  {
    match e
    case Connected =>
      Status(true, false, s.timerArmed || !s.connected)
    case Disconnected =>
      Status(false, s.loading, s.timerArmed || s.connected)
    case TimedOut =>
      if s.timerArmed then
        Status(s.connected, if !s.connected then false else s.loading, false)
      else s
  }

  /** The flags after a run of events. */
  function Run(s: Status, events: seq<Event>): Status
    decreases |events|
  {
    if events == [] then s else Run(Next(s, events[0]), events[1..])
  }

  /** The nested conditional of the page body. */
  function SelectView(isConnected: bool, isLoading: bool): (v: View)
    ensures v == Spinner <==> isLoading
    ensures v == NotRunningPanel <==> !isLoading && !isConnected
    ensures v == TerminalPane <==> !isLoading && isConnected
  {
    if isLoading then Spinner
    else if !isConnected then NotRunningPanel
    else TerminalPane
  }

  /** Connected implies not loading, after any run from a consistent state. */
  lemma {:induction false} RunConsistent(s: Status, events: seq<Event>)
    requires Consistent(s)
    ensures Consistent(Run(s, events))
    decreases |events|
  {
    if events != [] {
      RunConsistent(Next(s, events[0]), events[1..]);
    }
  }

  /** Once the spinner is gone it never comes back. */
  lemma {:induction false} LoadingNeverRises(s: Status, events: seq<Event>)
    requires !s.loading
    ensures !Run(s, events).loading
    decreases |events|
  {
    if events != [] {
      LoadingNeverRises(Next(s, events[0]), events[1..]);
    }
  }

  /** While disconnected with the timer pending, the spinner stays exactly as
      long as neither a `connect` nor the timer has happened. */
  lemma {:induction false} SpinnerUntilConnectOrTimeout(s: Status, events: seq<Event>)
    requires !s.connected && s.loading && s.timerArmed
    ensures Run(s, events).loading <==> Connected !in events && TimedOut !in events
    decreases |events|
  {
    if events != [] {
      var e := events[0];
      assert events == [e] + events[1..];
      if e == Disconnected {
        assert Next(s, e) == s;
        SpinnerUntilConnectOrTimeout(s, events[1..]);
      } else {
        LoadingNeverRises(Next(s, e), events[1..]);
      }
    }
  }

  /** From mount, the page shows the spinner until the first `connect` or the
      first timer expiry, and never the terminal while loading. */
  lemma ViewFromMount(events: seq<Event>)
    ensures var s := Run(Initial, events);
      SelectView(s.connected, s.loading) == Spinner <==> Connected !in events && TimedOut !in events
    ensures var s := Run(Initial, events);
      SelectView(s.connected, s.loading) == TerminalPane <==> s.connected
  {
    SpinnerUntilConnectOrTimeout(Initial, events);
    RunConsistent(Initial, events);
  }

  /** With no socket handlers registered, only the timer can fire: from mount,
      once it has, the page shows the "not running" panel. */
  lemma {:induction false} OnlyTimeoutsFromMount(events: seq<Event>)
    requires forall i :: 0 <= i < |events| ==> events[i] == TimedOut
    ensures var s := Run(Initial, events);
      !s.connected && SelectView(s.connected, s.loading) == (if events == [] then Spinner else NotRunningPanel)
  {
    NeverConnectedWithoutConnect(Initial, events);
    SpinnerUntilConnectOrTimeout(Initial, events);
    if events != [] {
      assert events[0] == TimedOut;
    }
  }

  /** Without a `connect` event a disconnected client stays disconnected. */
  lemma {:induction false} NeverConnectedWithoutConnect(s: Status, events: seq<Event>)
    requires !s.connected
    requires Connected !in events
    ensures !Run(s, events).connected
    decreases |events|
  {
    if events != [] {
      assert events[0] != Connected;
      assert Connected !in events[1..] by {
        assert events == [events[0]] + events[1..];
      }
      NeverConnectedWithoutConnect(Next(s, events[0]), events[1..]);
    }
  }

  /** The two state hooks and the callbacks that set them. */
  class ConnectionFlags {
    var isConnected: bool
    var isLoading: bool
    var timerArmed: bool

    function Snapshot(): Status
      reads this
    {
      Status(isConnected, isLoading, timerArmed)
    }

    constructor ()
      ensures Snapshot() == Initial
    {
      isConnected, isLoading, timerArmed := false, true, true;
    }

    /** The socket's `connect` handler. */
    method OnConnect()
      modifies this
      ensures Snapshot() == Next(old(Snapshot()), Connected)
    {
      if !isConnected {
        timerArmed := true;
      }
      isConnected := true;
      isLoading := false;
    }

    /** The socket's `disconnect` handler. */
    method OnDisconnect()
      modifies this
      ensures Snapshot() == Next(old(Snapshot()), Disconnected)
    {
      if isConnected {
        timerArmed := true;
      }
      isConnected := false;
    }

    /** The timer's callback; it only exists while a timer is pending. */
    method OnTimeout()
      modifies this
      ensures Snapshot() == Next(old(Snapshot()), TimedOut)
    {
      if timerArmed {
        timerArmed := false;
        if !isConnected {
          isLoading := false;
        }
      }
    }
  }
}
