/*
 * `SafeWebSocket`: the wrapper each chat session talks through. It queues
 * `{"type": "log", ...}` payloads as tasks of its own, waits for them before
 * a plain `send` and before closing, sends every other JSON payload at once,
 * and closes at most once.
 */
module Ordered {
  import opened Wrappers
  import opened Messages
  import opened EventLoop

  /** The wrapper's state: its raw websocket, `log_tasks` and `closed`. */
  datatype Conn = Conn(socket: SocketId, logTasks: seq<TaskId>, closed: bool)

  /** The wrapper and the loop after one call. */
  datatype Step = Step(net: Net, conn: Conn)

  /**
   * The wrapper agrees with its raw websocket: `closed` is set exactly when
   * the close frame has gone out, and every queued log task is a task of the
   * loop aimed at this websocket.
   */
  predicate Attached(n: Net, c: Conn)
  {
    c.socket < |n.wires| && n.wires[c.socket].closed == c.closed
    && forall i :: 0 <= i < |c.logTasks| ==>
         c.logTasks[i] < |n.tasks| && n.tasks[c.logTasks[i]].target == c.socket
  }

  predicate Valid(st: Step)
  {
    WellFormed(st.net) && Attached(st.net, st.conn)
  }

  /** Gathering any tasks keeps a wrapper attached. */
  lemma GatherKeepsAttached(n: Net, c: Conn, ids: seq<TaskId>)
    requires WellFormed(n) && Attached(n, c)
    ensures Attached(Gathered(n, ids), c)
  {
    var m := Gathered(n, ids);
    GatherWires(n, ids);
    forall i | 0 <= i < |c.logTasks|
      ensures m.tasks[c.logTasks[i]].target == c.socket
    {
      GatherTask(n, ids, c.logTasks[i]);
    }
  }

  /** `send(message)`: wait for every queued log task, then send unless closed. */
  function SendSpec(n: Net, c: Conn, message: Json): (r: Net)
    requires WellFormed(n) && Attached(n, c)
    ensures WellFormed(r) && Attached(r, c)
  {
    GatherKeepsAttached(n, c, c.logTasks);
    var g := Gathered(n, c.logTasks);
    if c.closed then g else Transmitted(g, c.socket, RawFrame(message))
  }

  /**
   * `send_json(data)`: nothing once closed; a log payload becomes a new task
   * appended to `log_tasks`; any other payload is sent at once.
   */
  function SendJsonSpec(n: Net, c: Conn, data: Json): (r: Step)
    requires WellFormed(n) && Attached(n, c)
    ensures Valid(r) && r.conn.socket == c.socket && r.conn.closed == c.closed
  {
    if c.closed then Step(n, c)
    else if IsLogMessage(data) then
      Step(Spawned(n, c.socket, data), c.(logTasks := c.logTasks + [|n.tasks|]))
    else Step(Transmitted(n, c.socket, JsonFrame(data)), c)
  }

  /**
   * `close(code, reason)`: nothing once closed; otherwise mark closed, wait
   * for every queued log task, then send the close frame.
   */
  function CloseSpec(n: Net, c: Conn, code: Option<int>, reason: Option<string>): (r: Step)
    requires WellFormed(n) && Attached(n, c)
    ensures Valid(r) && r.conn == c.(closed := true)
  {
    if c.closed then Step(n, c)
    else
      GatherKeepsAttached(n, c, c.logTasks);
      Step(Transmitted(Gathered(n, c.logTasks), c.socket, CloseFrame(code, reason)), c.(closed := true))
  }

  /** One call on the wrapper. */
  datatype Call =
    | Send(message: Json)
    | SendJson(data: Json)
    | Close(code: Option<int>, reason: Option<string>)

  function Apply(st: Step, call: Call): (r: Step)
    requires Valid(st)
    ensures Valid(r) && r.conn.socket == st.conn.socket
  {
    match call
    case Send(m) => Step(SendSpec(st.net, st.conn, m), st.conn)
    case SendJson(d) => SendJsonSpec(st.net, st.conn, d)
    case Close(code, reason) => CloseSpec(st.net, st.conn, code, reason)
  }

  /** A sequence of calls, in order. */
  function Replay(st: Step, calls: seq<Call>): (r: Step)
    requires Valid(st)
    ensures Valid(r) && r.conn.socket == st.conn.socket
    decreases |calls|
  {
    if calls == [] then st else Replay(Apply(st, calls[0]), calls[1..])
  }

  /**
   * `send` on an open wrapper: the websocket receives the queued log
   * payloads that were still pending, in queue order, then the message.
   */
  lemma SendOrdersLogsFirst(n: Net, c: Conn, message: Json)
    requires WellFormed(n) && Attached(n, c) && !c.closed
    ensures SendSpec(n, c, message).wires[c.socket]
         == Wire(n.wires[c.socket].frames + Delivery(n.tasks, c.logTasks, c.socket) + [RawFrame(message)], false)
  {
    GatherFrames(n, c.logTasks, c.socket);
  }

  /** `send` on a closed wrapper sends nothing on its websocket. */
  lemma SendWhenClosedIsSilent(n: Net, c: Conn, message: Json)
    requires WellFormed(n) && Attached(n, c) && c.closed
    ensures SendSpec(n, c, message).wires[c.socket] == n.wires[c.socket]
  {
    GatherFrames(n, c.logTasks, c.socket);
  }

  /**
   * `send_json` on an open wrapper: a log payload is queued and nothing is
   * sent yet; any other payload goes out at once, ahead of the queued log
   * payloads, and the queue is left as it was.
   */
  lemma SendJsonRoutes(n: Net, c: Conn, data: Json)
    requires WellFormed(n) && Attached(n, c) && !c.closed
    ensures var r := SendJsonSpec(n, c, data);
      if IsLogMessage(data) then
        r.net.wires == n.wires && r.conn.logTasks == c.logTasks + [|n.tasks|]
        && r.net.tasks == n.tasks + [Task(c.socket, data, Pending)]
      else
        r.net.tasks == n.tasks && r.conn == c
        && r.net.wires[c.socket] == Wire(n.wires[c.socket].frames + [JsonFrame(data)], false)
  {
    if IsLogMessage(data) {
      var r := Spawned(n, c.socket, data);
      assert r.tasks == r.tasks[..|n.tasks|] + [r.tasks[|n.tasks|]];
    }
  }

  /** `close` on an open wrapper flushes the queued log payloads, then sends the close frame. */
  lemma CloseFlushesLogsFirst(n: Net, c: Conn, code: Option<int>, reason: Option<string>)
    requires WellFormed(n) && Attached(n, c) && !c.closed
    ensures CloseSpec(n, c, code, reason).net.wires[c.socket]
         == Wire(n.wires[c.socket].frames + Delivery(n.tasks, c.logTasks, c.socket) + [CloseFrame(code, reason)], true)
  {
    GatherFrames(n, c.logTasks, c.socket);
  }

  /**
   * Once closed, no call sends anything on the websocket, and the wrapper
   * stays closed with the same queue.
   */
  lemma ClosedIsSilent(st: Step, call: Call)
    requires Valid(st) && st.conn.closed
    ensures Apply(st, call).conn == st.conn
    ensures Apply(st, call).net.wires[st.conn.socket] == st.net.wires[st.conn.socket]
  {
    GatherFrames(st.net, st.conn.logTasks, st.conn.socket);
  }

  /** `closed` never returns to false, whatever calls follow. */
  lemma {:induction false} ClosedStaysClosed(st: Step, calls: seq<Call>)
    requires Valid(st) && st.conn.closed
    ensures Replay(st, calls).conn == st.conn
    ensures Replay(st, calls).net.wires[st.conn.socket] == st.net.wires[st.conn.socket]
    decreases |calls|
  {
    if calls != [] {
      ClosedIsSilent(st, calls[0]);
      ClosedStaysClosed(Apply(st, calls[0]), calls[1..]);
    }
  }

  /** Replaying `a + b` is replaying `a` and then `b`. */
  lemma {:induction false} ReplayConcat(st: Step, a: seq<Call>, b: seq<Call>)
    requires Valid(st)
    ensures Replay(st, a + b) == Replay(Replay(st, a), b)
    decreases |a|
  {
    if a == [] {
      assert a + b == b;
    } else {
      assert (a + b)[0] == a[0] && (a + b)[1..] == a[1..] + b;
      ReplayConcat(Apply(st, a[0]), a[1..], b);
      assert Replay(st, a + b) == Replay(Apply(st, a[0]), a[1..] + b);
    }
  }

  /**
   * The first `close` on an open wrapper is the only one that reaches the
   * websocket: its code and reason end the websocket's frames, and no call
   * after it, another `close` included, changes them.
   */
  lemma FirstCloseWins(st: Step, code: Option<int>, reason: Option<string>, after: seq<Call>)
    requires Valid(st) && !st.conn.closed
    ensures var w := Replay(st, [Close(code, reason)] + after).net.wires[st.conn.socket];
      w.closed && w.frames[|w.frames| - 1] == CloseFrame(code, reason)
      && w == CloseSpec(st.net, st.conn, code, reason).net.wires[st.conn.socket]
  {
    ReplayConcat(st, [Close(code, reason)], after);
    var mid := Replay(st, [Close(code, reason)]);
    assert mid == Apply(st, Close(code, reason)) by { assert [Close(code, reason)][1..] == []; }
    ClosedStaysClosed(mid, after);
    CloseFlushesLogsFirst(st.net, st.conn, code, reason);
  }

  /** A second `close` is a no-op: `close` is idempotent. */
  lemma CloseIdempotent(n: Net, c: Conn, code: Option<int>, reason: Option<string>,
                        code2: Option<int>, reason2: Option<string>)
    requires WellFormed(n) && Attached(n, c)
    ensures var r := CloseSpec(n, c, code, reason);
      CloseSpec(r.net, r.conn, code2, reason2) == r
  {
  }

  /** The state of a fresh wrapper after queuing a log payload and then sending a non-log payload. */
  lemma QueueThenSend(n: Net, s: SocketId, log: Json, other: Json)
    requires WellFormed(n) && s < |n.wires| && !n.wires[s].closed
    requires IsLogMessage(log) && !IsLogMessage(other)
    ensures var st := Apply(Apply(Step(n, Conn(s, [], false)), SendJson(log)), SendJson(other));
      st.conn == Conn(s, [|n.tasks|], false)
      && st.net.tasks == n.tasks + [Task(s, log, Pending)]
      && st.net.wires[s].frames == n.wires[s].frames + [JsonFrame(other)]
  {
    var c := Conn(s, [], false);
    SendJsonRoutes(n, c, log);
    var st1 := SendJsonSpec(n, c, log);
    SendJsonRoutes(st1.net, st1.conn, other);
  }

  /**
   * The ordering gap of `send_json`: on a fresh wrapper, a log payload queued
   * before a non-log payload reaches the websocket after it, once `close`
   * flushes the queue.
   */
  lemma QueuedLogOvertaken(n: Net, s: SocketId, log: Json, other: Json, code: Option<int>, reason: Option<string>)
    requires WellFormed(n) && s < |n.wires| && !n.wires[s].closed
    requires IsLogMessage(log) && !IsLogMessage(other)
    ensures var r := Replay(Step(n, Conn(s, [], false)), [SendJson(log), SendJson(other), Close(code, reason)]);
      r.net.wires[s].frames == n.wires[s].frames + [JsonFrame(other), JsonFrame(log), CloseFrame(code, reason)]
  {
    ReplayThree(Step(n, Conn(s, [], false)), SendJson(log), SendJson(other), Close(code, reason));
    QueueThenSend(n, s, log, other);
    var st2 := Apply(Apply(Step(n, Conn(s, [], false)), SendJson(log)), SendJson(other));
    var id := |n.tasks|;
    var f := n.wires[s].frames;
    CloseFlushesLogsFirst(st2.net, st2.conn, code, reason);
    assert Delivery(st2.net.tasks, [id], s) == [JsonFrame(log)] by {
      assert [id][..0] == [];
    }
    AppendThree(f, JsonFrame(other), JsonFrame(log), CloseFrame(code, reason));
  }

  /** The error path of a session: the error payload reaches the client before a log line queued earlier. */
  lemma ErrorOvertakesQueuedLog(n: Net, s: SocketId, text: string, msg: string)
    requires WellFormed(n) && s < |n.wires| && !n.wires[s].closed
    ensures var r := Replay(Step(n, Conn(s, [], false)),
                            [SendJson(LogEvent(text)), SendJson(ErrorEvent(msg)), Close(Some(1011), Some(msg))]);
      r.net.wires[s].frames
        == n.wires[s].frames + [JsonFrame(ErrorEvent(msg)), JsonFrame(LogEvent(text)), CloseFrame(Some(1011), Some(msg))]
  {
    QueuedLogOvertaken(n, s, LogEvent(text), ErrorEvent(msg), Some(1011), Some(msg));
  }

  /** A session's `SafeWebSocket` around raw websocket `socket`. */
  class SafeWebSocket {
    const runtime: Runtime
    const socket: SocketId
    var logTasks: seq<TaskId>
    var closed: bool

    function State(): (c: Conn)
      reads this
    {
      Conn(socket, logTasks, closed)
    }

    ghost predicate Valid()
      reads this, runtime
    {
      runtime.Valid() && Attached(runtime.Snapshot(), State())
    }

    constructor (runtime: Runtime, socket: SocketId)
      requires runtime.Valid() && socket < |runtime.wires| && !runtime.wires[socket].closed
      ensures Valid() && this.runtime == runtime && this.socket == socket
      ensures logTasks == [] && !closed
    {
      this.runtime := runtime;
      this.socket := socket;
      logTasks := [];
      closed := false;
    }

    method Send(message: Json)
      requires Valid()
      modifies runtime
      ensures Valid() && runtime.Snapshot() == SendSpec(old(runtime.Snapshot()), State(), message)
    {
      runtime.Gather(logTasks);
      GatherKeepsAttached(old(runtime.Snapshot()), State(), logTasks);
      if !closed {
        runtime.Send(socket, RawFrame(message));
      }
    }

    method SendJson(data: Json)
      requires Valid()
      modifies this`logTasks, runtime
      ensures Valid()
      ensures Step(runtime.Snapshot(), State()) == SendJsonSpec(old(runtime.Snapshot()), old(State()), data)
    {
      if !closed {
        if IsLogMessage(data) {
          var task := runtime.CreateTask(socket, data);
          logTasks := logTasks + [task];
        } else {
          runtime.Send(socket, JsonFrame(data));
        }
      }
    }

    method Close(code: Option<int>, reason: Option<string>)
      requires Valid()
      modifies this`closed, runtime
      ensures Valid()
      ensures Step(runtime.Snapshot(), State()) == CloseSpec(old(runtime.Snapshot()), old(State()), code, reason)
    {
      if !closed {
        closed := true;
        runtime.Gather(logTasks);
        GatherKeepsAttached(old(runtime.Snapshot()), old(State()), logTasks);
        runtime.Send(socket, CloseFrame(code, reason));
      }
    }
  }

  /*
   * Proof helpers. These model nothing in the source: each unfolds one step
   * of a definition or states a fact about sequences, so that the proofs
   * above stay small enough for the verifier.
   */

  /** Replaying one call applies it. */
  lemma ReplayOne(st: Step, x: Call)
    requires Valid(st)
    ensures Replay(st, [x]) == Apply(st, x)
  {
    assert [x][1..] == [];
  }

  /** Replaying three calls applies them in order. */
  lemma ReplayThree(st: Step, x: Call, y: Call, z: Call)
    requires Valid(st)
    ensures Replay(st, [x, y, z]) == Apply(Apply(Apply(st, x), y), z)
  {
    var st1 := Apply(st, x);
    var st2 := Apply(st1, y);
    ReplayOne(st2, z);
    assert Replay(st1, [y, z]) == Replay(st2, [z]) by { assert [y, z][1..] == [z]; }
    assert Replay(st, [x, y, z]) == Replay(st1, [y, z]) by { assert [x, y, z][1..] == [y, z]; }
  }

  /** `f + [a] + [b] + [c]` is `f + [a, b, c]`, whatever the elements. */
  lemma AppendThree<T>(f: seq<T>, a: T, b: T, c: T)
    ensures f + [a] + [b] + [c] == f + [a, b, c]
  {
  }
}
