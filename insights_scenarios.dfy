/**
 * Event sequences run through the LiveMetrics model, with what a caller can
 * conclude from the contracts alone.
 */
module InsightsScenarios {
  import opened Wrappers
  import opened InsightsStream

  /** A campaign with no initial snapshot: open, one message, an error, the
      reconnect timer, then an open event on the replacement connection. The
      indicator ends offline and stays there, because the replacement carries
      no handlers; the only open connection is the replacement. */
  method ExampleSession(env: Option<string>, message: Insight, now: string)
    returns (trace: seq<ConnectionState>, shown: Option<Insight>, open: set<nat>)
    ensures trace == [Connecting, Live, Live, Reconnecting, Offline, Offline]
    ensures shown == Some(message)
    ensures open == {1}
  {
    var m := new LiveMetrics("c1", None, env);
    trace := [m.status];
    m.OnOpen(0);
    trace := trace + [m.status];
    m.OnMessage(0, Parsed(message), now);
    trace := trace + [m.status];
    m.OnError(0);
    trace := trace + [m.status];
    m.OnTimer(0);
    trace := trace + [m.status];
    m.OnOpen(1);
    trace := trace + [m.status];
    shown := m.insights;
    open := OpenConnections(m.connections);
    assert forall c :: c in open ==> c == 1;
  }

  /** A failure on "c1", then the id changes to "c2" and the new stream opens;
      the timer of the first run still fires afterwards. It marks the new
      stream offline and reopens the old URL, which nothing will close: two
      connections are open at once. */
  method TimerAfterIdChange(env: Option<string>)
    returns (status: ConnectionState, open: set<nat>)
    ensures status == Offline
    ensures open == {1, 2}
  {
    var m := new LiveMetrics("c1", None, env);
    m.OnOpen(0);
    m.OnError(0);
    m.ChangeId("c2");
    m.OnOpen(1);
    assert m.status == Live;
    m.OnTimer(0);
    status := m.status;
    open := OpenConnections(m.connections);
    assert forall c :: c in open ==> c == 1 || c == 2;
  }

  /** A failure, then unmount before the timer fires: the cleanup does not
      cancel the timer, which still opens a connection nobody will close. */
  method TimerAfterUnmount(env: Option<string>)
    returns (open: set<nat>)
    ensures open == {1}
  {
    var m := new LiveMetrics("c1", None, env);
    m.OnError(0);
    m.Unmount();
    m.OnTimer(0);
    open := OpenConnections(m.connections);
    assert forall c :: c in open ==> c == 1;
  }
}
