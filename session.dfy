/*
 * `websocket_endpoint`: one chat session from connect to cleanup. It
 * registers the raw websocket, wraps it in a `SafeWebSocket`, lets the chat
 * handler run, turns the two websocket exceptions into a close code, and on
 * every exit path drains both writers and unregisters the entry.
 *
 * The handler, `ChatManager.handle_websocket`, is not part of this model. It
 * is represented by what it does that this file can observe: a script of
 * writes to stdout or stderr and calls on the wrapper, and the way it ends.
 */
module Session {
  import opened Wrappers
  import opened Messages
  import opened EventLoop
  import opened Relay
  import opened Ordered

  /** `status.WS_1011_INTERNAL_ERROR` */
  const InternalError := 1011
  /** `status.WS_1000_NORMAL_CLOSURE` */
  const NormalClosure := 1000

  datatype Stream = Stdout | Stderr

  /** One step of the handler. */
  datatype Action =
      /**
       * One `write` call on `sys.stdout` or `sys.stderr`; `onLoop` as for
       * `Writer.Write`. Python's `print(x)` is two of them, `x` and then
       * `"\n"`; the second is blank, so it reaches the stream and the log
       * file but is never fanned out.
       */
    | Write(stream: Stream, text: string, onLoop: bool)
      /** A call on the session's `SafeWebSocket`. */
    | Use(call: Call)

  /** How `handle_websocket` ends; `message` is `str(exc)`. */
  datatype HandlerOutcome =
    | Normal
    | WsException(message: string)
    | WsDisconnect(message: string)
    | OtherError(message: string)

  datatype Handler = Handler(actions: seq<Action>, outcome: HandlerOutcome)

  /** The state a session works on: the loop, `connected_clients` and its own wrapper. */
  datatype World = World(net: Net, clients: seq<Client>, conn: Conn)

  /** The session's end state; `exit` is `Fail(e)` when exception `e` leaves the endpoint. */
  datatype SessionEnd = SessionEnd(net: Net, clients: seq<Client>, conn: Conn, exit: Outcome<string>)

  predicate Good(w: World)
  {
    WellFormed(w.net) && Registered(w.net, w.clients) && Attached(w.net, w.conn)
  }

  /** Two registries with the same websockets in the same order. */
  predicate SameSockets(a: seq<Client>, b: seq<Client>)
  {
    |a| == |b| && forall i :: 0 <= i < |a| ==> a[i].socket == b[i].socket
  }

  /** `m` is `n` with tasks added and websockets written to, but no task retargeted. */
  predicate Grows(n: Net, m: Net)
  {
    |m.wires| == |n.wires| && |n.tasks| <= |m.tasks|
    && forall k :: 0 <= k < |n.tasks| ==> m.tasks[k].target == n.tasks[k].target
  }

  lemma GrowsKeepsRegistered(n: Net, m: Net, cs: seq<Client>)
    requires Registered(n, cs) && Grows(n, m)
    ensures Registered(m, cs)
  {
  }

  lemma GatherGrows(n: Net, ids: seq<TaskId>)
    requires WellFormed(n)
    ensures Grows(n, Gathered(n, ids))
  {
    forall k | 0 <= k < |n.tasks|
      ensures Gathered(n, ids).tasks[k].target == n.tasks[k].target
    {
      GatherTask(n, ids, k);
    }
  }

  /** No call on a wrapper retargets a task. */
  lemma ApplyGrows(st: Step, call: Call)
    requires Ordered.Valid(st)
    ensures Grows(st.net, Apply(st, call).net)
  {
    var n, c := st.net, st.conn;
    match call
    case Send(m) =>
      GatherGrows(n, c.logTasks);
    case SendJson(d) =>
      if !c.closed && IsLogMessage(d) {
        assert Spawned(n, c.socket, d).tasks[..|n.tasks|] == n.tasks;
      }
    case Close(code, reason) =>
      GatherGrows(n, c.logTasks);
  }

  /** A fan-out leaves a session's wrapper attached. */
  lemma FanoutKeepsAttached(n: Net, cs: seq<Client>, text: string, c: Conn)
    requires WellFormed(n) && SocketsExist(n, cs) && Attached(n, c)
    ensures Attached(LogSends(n, cs, text), c)
  {
    LogSendsAdds(n, cs, text);
    var r := LogSends(n, cs, text);
    forall i | 0 <= i < |c.logTasks|
      ensures r.tasks[c.logTasks[i]].target == c.socket
    {
      assert r.tasks[c.logTasks[i]] == r.tasks[..|n.tasks|][c.logTasks[i]];
    }
  }

  /** One handler step, as the writers and the wrapper carry it out. */
  function Act(w: World, a: Action): (r: World)
    requires Good(w)
    ensures Good(r) && SameSockets(w.clients, r.clients) && r.conn.socket == w.conn.socket
  {
    match a
    case Write(_, text, onLoop) =>
      if Strip(text) != "" && onLoop then
        FanoutKeepsRegistered(w.net, w.clients, text);
        FanoutKeepsAttached(w.net, w.clients, text, w.conn);
        var cs := WithLogTask(w.clients, |w.net.tasks|);
        assert forall i :: 0 <= i < |cs| ==> cs[i].socket == w.clients[i].socket by {
          forall i | 0 <= i < |cs| ensures cs[i].socket == w.clients[i].socket {
            WithLogTaskAt(w.clients, |w.net.tasks|, i);
          }
        }
        World(LogSends(w.net, w.clients, text), cs, w.conn)
      else w
    case Use(call) =>
      var st := Apply(Step(w.net, w.conn), call);
      ApplyGrows(Step(w.net, w.conn), call);
      GrowsKeepsRegistered(w.net, st.net, w.clients);
      World(st.net, w.clients, st.conn)
  }

  /** The handler's steps, in order. */
  function Handled(w: World, actions: seq<Action>): (r: World)
    requires Good(w)
    ensures Good(r) && SameSockets(w.clients, r.clients) && r.conn.socket == w.conn.socket
    decreases |actions|
  {
    if actions == [] then w
    else Act(Handled(w, actions[..|actions| - 1]), actions[|actions| - 1])
  }

  /** The texts the handler wrote to `stream`, in order. */
  function Written(actions: seq<Action>, stream: Stream): (r: seq<string>)
    ensures |r| <= |actions|
    ensures forall k :: 0 <= k < |r| ==>
      exists i :: 0 <= i < |actions| && actions[i].Write? && actions[i].stream == stream && actions[i].text == r[k]
    decreases |actions|
  {
    if actions == [] then []
    else
      var init, a := actions[..|actions| - 1], actions[|actions| - 1];
      assert forall i :: 0 <= i < |init| ==> init[i] == actions[i];
      Written(init, stream) + (if a.Write? && a.stream == stream then [a.text] else [])
  }

  /**
   * The `except` clauses: a `WebSocketException` sends `{"error": msg}` and
   * closes with 1011; a `WebSocketDisconnect` closes with 1000; any other
   * ending does nothing here.
   */
  function Excepted(w: World, outcome: HandlerOutcome): (r: World)
    requires Good(w)
    ensures Good(r) && r.clients == w.clients && r.conn.socket == w.conn.socket
  {
    match outcome
    case WsException(msg) =>
      Act(Act(w, Use(SendJson(ErrorEvent(msg)))), Use(Close(Some(InternalError), Some(msg))))
    case WsDisconnect(msg) =>
      Act(w, Use(Close(Some(NormalClosure), Some(msg))))
    case _ => w
  }

  /** What the endpoint needs when a client connects: a new, open websocket. */
  predicate Admissible(n: Net, cs: seq<Client>, s: SocketId)
  {
    WellFormed(n) && Registered(n, cs) && s < |n.wires| && !n.wires[s].closed && !HasSocket(cs, s)
  }

  /** `connected_clients.append({"websocket": websocket, "tasks": []})` keeps the registry consistent. */
  lemma RegisterNew(n: Net, cs: seq<Client>, s: SocketId)
    requires Admissible(n, cs, s)
    ensures Good(World(n, cs + [Client(s, [])], Conn(s, [], false)))
  {
    var ds := cs + [Client(s, [])];
    forall i, j | 0 <= i < j < |ds| ensures ds[i].socket != ds[j].socket {
      if j == |cs| {
        assert ds[i] == cs[i];
      }
    }
  }

  /** The world once the handler has returned or raised. */
  function AfterHandler(n: Net, cs: seq<Client>, s: SocketId, actions: seq<Action>): (w: World)
    requires Admissible(n, cs, s)
    ensures Good(w) && SameSockets(cs + [Client(s, [])], w.clients) && w.conn.socket == s
  {
    RegisterNew(n, cs, s);
    Handled(World(n, cs + [Client(s, [])], Conn(s, [], false)), actions)
  }

  /**
   * The whole endpoint: register, run the handler, the `except` clauses, and
   * the `finally` clause (drain stdout's writer, drain stderr's writer,
   * `connected_clients.remove`). An exception raised by `remove` replaces
   * the handler's.
   */
  function Lifecycle(n: Net, cs: seq<Client>, s: SocketId, h: Handler): (e: SessionEnd)
    requires Admissible(n, cs, s)
    ensures WellFormed(e.net) && Attached(e.net, e.conn)
  {
    var w1 := AfterHandler(n, cs, s, h.actions);
    var w2 := Excepted(w1, h.outcome);
    var n3 := Gathered(w2.net, Flatten(w2.clients));
    var cs3 := Emptied(w2.clients);
    var n4 := Gathered(n3, Flatten(cs3));
    GatherKeepsAttached(w2.net, w2.conn, Flatten(w2.clients));
    GatherKeepsAttached(n3, w2.conn, Flatten(cs3));
    var removed := RemoveFirst(cs3, s);
    SessionEnd(n4, if removed.Some? then removed.value else cs3, w2.conn,
               if removed.None? then Fail(NotInList)
               else if h.outcome.OtherError? then Fail(h.outcome.message)
               else Pass)
  }

  /**
   * On every exit path the session's entry is gone, every other entry is
   * still there, in order, with its pending sends flushed, and `remove` does
   * not raise: the endpoint ends with the handler's own exception, if any.
   */
  lemma SessionUnregisters(n: Net, cs: seq<Client>, s: SocketId, h: Handler)
    requires Admissible(n, cs, s)
    ensures Lifecycle(n, cs, s, h).clients == Emptied(cs)
    ensures Lifecycle(n, cs, s, h).exit == if h.outcome.OtherError? then Fail(h.outcome.message) else Pass
    ensures var w2, e := Excepted(AfterHandler(n, cs, s, h.actions), h.outcome), Lifecycle(n, cs, s, h);
      forall i, j :: 0 <= i < |w2.clients| && 0 <= j < |w2.clients[i].tasks| ==>
        w2.clients[i].tasks[j] < |e.net.tasks| && !e.net.tasks[w2.clients[i].tasks[j]].state.Pending?
  {
    var w2 := Excepted(AfterHandler(n, cs, s, h.actions), h.outcome);
    DrainSettles(w2.net, w2.clients);
    FlattenEmptied(w2.clients);
    var cs3 := Emptied(w2.clients);
    var k := |cs|;
    assert cs3[k].socket == s by {
      assert (cs + [Client(s, [])])[k].socket == s;
    }
    forall j | 0 <= j < k ensures cs3[j].socket != s {
      assert cs3[j].socket == cs[j].socket by {
        assert (cs + [Client(s, [])])[j] == cs[j];
      }
    }
    RemoveFirstAt(cs3, s, k);
    forall j | 0 <= j < k ensures (cs3[..k] + cs3[k + 1..])[j] == Emptied(cs)[j] {
      assert (cs + [Client(s, [])])[j] == cs[j];
    }
  }

  /** A websocket that has sent its close frame is left as it is by both drains. */
  lemma DrainsKeepClosed(w: World)
    requires Good(w) && w.conn.closed
    ensures var n3 := Gathered(w.net, Flatten(w.clients));
      Gathered(n3, Flatten(Emptied(w.clients))).wires[w.conn.socket] == w.net.wires[w.conn.socket]
  {
    var n3 := Gathered(w.net, Flatten(w.clients));
    GatherFrames(w.net, Flatten(w.clients), w.conn.socket);
    GatherFrames(n3, Flatten(Emptied(w.clients)), w.conn.socket);
  }

  /**
   * After a `WebSocketException` on a wrapper the handler left open, the
   * client receives `{"error": msg}`, then the log payloads still queued on
   * the wrapper, then a close frame with 1011 and reason `msg`, and nothing
   * after it.
   */
  lemma ExceptionCloses(n: Net, cs: seq<Client>, s: SocketId, h: Handler)
    requires Admissible(n, cs, s) && h.outcome.WsException?
    requires !AfterHandler(n, cs, s, h.actions).conn.closed
    ensures var w1 := AfterHandler(n, cs, s, h.actions);
      Lifecycle(n, cs, s, h).net.wires[s]
      == Wire(w1.net.wires[s].frames + [JsonFrame(ErrorEvent(h.outcome.message))]
                + Delivery(w1.net.tasks, w1.conn.logTasks, s)
                + [CloseFrame(Some(InternalError), Some(h.outcome.message))], true)
  {
    var w1 := AfterHandler(n, cs, s, h.actions);
    var msg := h.outcome.message;
    SendJsonRoutes(w1.net, w1.conn, ErrorEvent(msg));
    var st1 := SendJsonSpec(w1.net, w1.conn, ErrorEvent(msg));
    CloseFlushesLogsFirst(st1.net, st1.conn, Some(InternalError), Some(msg));
    DrainsKeepClosed(Excepted(w1, h.outcome));
  }

  /**
   * After a `WebSocketDisconnect` on a wrapper the handler left open, the
   * client receives no error payload: only the log payloads still queued on
   * the wrapper, then a close frame with 1000 and reason `msg`, and nothing
   * after it.
   */
  lemma DisconnectCloses(n: Net, cs: seq<Client>, s: SocketId, h: Handler)
    requires Admissible(n, cs, s) && h.outcome.WsDisconnect?
    requires !AfterHandler(n, cs, s, h.actions).conn.closed
    ensures var w1 := AfterHandler(n, cs, s, h.actions);
      Lifecycle(n, cs, s, h).net.wires[s]
      == Wire(w1.net.wires[s].frames + Delivery(w1.net.tasks, w1.conn.logTasks, s)
                + [CloseFrame(Some(NormalClosure), Some(h.outcome.message))], true)
  {
    var w1 := AfterHandler(n, cs, s, h.actions);
    CloseFlushesLogsFirst(w1.net, w1.conn, Some(NormalClosure), Some(h.outcome.message));
    DrainsKeepClosed(Excepted(w1, h.outcome));
  }

  /** When the handler closed the wrapper itself, the endpoint sends nothing more on the websocket. */
  lemma ClosedByHandler(n: Net, cs: seq<Client>, s: SocketId, h: Handler)
    requires Admissible(n, cs, s) && AfterHandler(n, cs, s, h.actions).conn.closed
    ensures Lifecycle(n, cs, s, h).net.wires[s] == AfterHandler(n, cs, s, h.actions).net.wires[s]
  {
    var w1 := AfterHandler(n, cs, s, h.actions);
    var msg := if h.outcome.Normal? then "" else h.outcome.message;
    ClosedIsSilent(Step(w1.net, w1.conn), SendJson(ErrorEvent(msg)));
    ClosedIsSilent(Step(w1.net, w1.conn), Close(Some(InternalError), Some(msg)));
    ClosedIsSilent(Step(w1.net, w1.conn), Close(Some(NormalClosure), Some(msg)));
    DrainsKeepClosed(Excepted(w1, h.outcome));
  }

  /**
   * A handler that returns, or raises anything but a websocket exception,
   * gets no close from the endpoint: the wrapper is as the handler left it,
   * and the only thing added is what the first drain delivers; the second
   * drain finds nothing left to gather.
   */
  lemma EndpointAddsNoClose(n: Net, cs: seq<Client>, s: SocketId, h: Handler)
    requires Admissible(n, cs, s)
    requires h.outcome.Normal? || h.outcome.OtherError?
    ensures var w1 := AfterHandler(n, cs, s, h.actions);
      Lifecycle(n, cs, s, h).conn == w1.conn
      && Lifecycle(n, cs, s, h).net == Gathered(w1.net, Flatten(w1.clients))
  {
    var w1 := AfterHandler(n, cs, s, h.actions);
    FlattenEmptied(w1.clients);
  }

  /**
   * A non-blank write followed by a `RuntimeError`: the handler's exception
   * leaves the endpoint, no error payload and no close frame are sent, and
   * the drain delivers the log line on the still open websocket.
   */
  lemma WriteThenOtherError(n: Net, s: SocketId, text: string, msg: string)
    requires Admissible(n, [], s) && Strip(text) != ""
    ensures var e := Lifecycle(n, [], s, Handler([Write(Stdout, text, true)], OtherError(msg)));
      e.exit == Fail(msg) && e.clients == []
      && e.net.wires[s] == Wire(n.wires[s].frames + [JsonFrame(LogEvent(text))], false)
  {
    var h := Handler([Write(Stdout, text, true)], OtherError(msg));
    var w1 := AfterHandler(n, [], s, h.actions);
    var id := |n.tasks|;
    WriteOnce(n, s, text);
    SessionUnregisters(n, [], s, h);
    EndpointAddsNoClose(n, [], s, h);
    FlattenOne(w1.clients[0]);
    GatherOne(w1.net, id);
    assert Emptied([]) == [];
  }

  /**
   * A non-blank write followed by a `WebSocketException`: under the model's
   * schedule, where a task runs only when it is gathered, the writer's log
   * task is aimed at the raw websocket and only gathered by the drain, after
   * the close frame, so it fails; the client receives the error payload and
   * the close frame and nothing else. A real event loop may run the task at
   * an earlier `await` and deliver the line first.
   */
  lemma WriteThenWsException(n: Net, s: SocketId, text: string, msg: string)
    requires Admissible(n, [], s) && Strip(text) != ""
    ensures var e := Lifecycle(n, [], s, Handler([Write(Stdout, text, true)], WsException(msg)));
      e.exit == Pass && e.clients == []
      && e.net.wires[s] == Wire(n.wires[s].frames + [JsonFrame(ErrorEvent(msg)),
                                                     CloseFrame(Some(InternalError), Some(msg))], true)
      && |n.tasks| < |e.net.tasks| && e.net.tasks[|n.tasks|] == Task(s, LogEvent(text), Failed)
  {
    var h := Handler([Write(Stdout, text, true)], WsException(msg));
    SessionUnregisters(n, [], s, h);
    assert Emptied([]) == [];
    WsExceptionWire(n, s, text, msg);
    WsExceptionTask(n, s, text, msg);
  }

  lemma WsExceptionWire(n: Net, s: SocketId, text: string, msg: string)
    requires Admissible(n, [], s) && Strip(text) != ""
    ensures Lifecycle(n, [], s, Handler([Write(Stdout, text, true)], WsException(msg))).net.wires[s]
         == Wire(n.wires[s].frames + [JsonFrame(ErrorEvent(msg)), CloseFrame(Some(InternalError), Some(msg))], true)
  {
    var h := Handler([Write(Stdout, text, true)], WsException(msg));
    var w1 := AfterHandler(n, [], s, h.actions);
    WriteOnce(n, s, text);
    ExceptionCloses(n, [], s, h);
    var f := n.wires[s].frames;
    assert Delivery(w1.net.tasks, [], s) == [];
    AppendPair(f, JsonFrame(ErrorEvent(msg)), CloseFrame(Some(InternalError), Some(msg)));
  }

  lemma WsExceptionTask(n: Net, s: SocketId, text: string, msg: string)
    requires Admissible(n, [], s) && Strip(text) != ""
    ensures var e := Lifecycle(n, [], s, Handler([Write(Stdout, text, true)], WsException(msg)));
      |n.tasks| < |e.net.tasks| && e.net.tasks[|n.tasks|] == Task(s, LogEvent(text), Failed)
  {
    var h := Handler([Write(Stdout, text, true)], WsException(msg));
    var w1 := AfterHandler(n, [], s, h.actions);
    WriteOnce(n, s, text);
    WsExceptionWorld(w1, msg);
    ClosedDrainFails(Excepted(w1, h.outcome), |n.tasks|);
  }

  /** The drains of a closed session that is the only registered one fail its pending task. */
  lemma ClosedDrainFails(w: World, id: TaskId)
    requires Good(w) && w.conn.closed && w.clients == [Client(w.conn.socket, [id])]
    ensures id < |w.net.tasks|
    ensures var n3 := Gathered(w.net, Flatten(w.clients));
      var t := Gathered(n3, Flatten(Emptied(w.clients))).tasks[id];
      t == if w.net.tasks[id].state.Pending? then w.net.tasks[id].(state := Failed) else w.net.tasks[id]
  {
    assert id in w.clients[0].tasks;
    FlattenOne(w.clients[0]);
    GatherOne(w.net, id);
    FlattenEmptied(w.clients);
  }

  /** The `except WebSocketException` branch closes the websocket and starts no task. */
  lemma WsExceptionWorld(w: World, msg: string)
    requires Good(w) && w.conn.logTasks == []
    ensures var r := Excepted(w, WsException(msg));
      r.net.tasks == w.net.tasks && r.clients == w.clients && r.conn.closed
  {
    ExceptedKeepsTasks(w, WsException(msg));
  }

  /** One non-blank write on the loop from a session that is the only registered one. */
  lemma WriteOnce(n: Net, s: SocketId, text: string)
    requires Admissible(n, [], s) && Strip(text) != ""
    ensures var w1 := AfterHandler(n, [], s, [Write(Stdout, text, true)]);
      w1.clients == [Client(s, [|n.tasks|])] && w1.conn == Conn(s, [], false)
      && w1.net == Spawned(n, s, LogEvent(text))
  {
    var c0 := [Client(s, [])];
    RegisterNew(n, [], s);
    assert [] + [Client(s, [])] == c0;
    HandledOne(World(n, c0, Conn(s, [], false)), Write(Stdout, text, true));
    LogSendsOne(n, c0[0], text);
    WithLogTaskOne(s, |n.tasks|);
  }

  /** When the wrapper has queued nothing, the `except` clauses neither add nor run a task. */
  lemma ExceptedKeepsTasks(w: World, outcome: HandlerOutcome)
    requires Good(w) && w.conn.logTasks == []
    ensures Excepted(w, outcome).net.tasks == w.net.tasks
  {
    var msg := if outcome.Normal? then "" else outcome.message;
    var st := Step(w.net, w.conn);
    if !w.conn.closed {
      SendJsonRoutes(w.net, w.conn, ErrorEvent(msg));
    }
    assert Gathered(w.net, []) == w.net;
    var st1 := SendJsonSpec(w.net, w.conn, ErrorEvent(msg));
    assert Gathered(st1.net, []) == st1.net;
  }

  /** A text that starts with a non-space character is not blank, so writing it fans out. */
  lemma NotBlank(text: string)
    requires |text| > 0 && !IsSpace(text[0])
    ensures Strip(text) != ""
  {
    StripEmptyIffBlank(text);
  }

  /**
   * A handler that writes "Step 1 complete\n" and then raises
   * `RuntimeError("boom")`: the exception leaves the endpoint, and the
   * client receives the log line and no error payload or close frame.
   */
  lemma StepOneThenRuntimeError(n: Net, s: SocketId)
    requires Admissible(n, [], s)
    ensures var e := Lifecycle(n, [], s, Handler([Write(Stdout, "Step 1 complete\n", true)], OtherError("boom")));
      e.exit == Fail("boom")
      && e.net.wires[s] == Wire(n.wires[s].frames + [JsonFrame(LogEvent("Step 1 complete\n"))], false)
  {
    NotBlank("Step 1 complete\n");
    WriteThenOtherError(n, s, "Step 1 complete\n", "boom");
  }

  /**
   * The same handler raising a `WebSocketException` whose text is "boom":
   * under the model's schedule the client receives the error payload and the
   * 1011 close frame, and the log line, gathered after the close, never
   * arrives.
   */
  lemma StepOneThenWsException(n: Net, s: SocketId)
    requires Admissible(n, [], s)
    ensures var e := Lifecycle(n, [], s, Handler([Write(Stdout, "Step 1 complete\n", true)], WsException("boom")));
      e.net.wires[s] == Wire(n.wires[s].frames + [JsonFrame(ErrorEvent("boom")),
                                                  CloseFrame(Some(InternalError), Some("boom"))], true)
  {
    NotBlank("Step 1 complete\n");
    WriteThenWsException(n, s, "Step 1 complete\n", "boom");
  }

  /** A handler's `write` to stdout or stderr, which goes through that stream's writer. */
  method PerformWrite(ws: SafeWebSocket, out: Writer, err: Writer, stream: Stream, text: string, onLoop: bool)
    requires out != err && ws.runtime == out.runtime == err.runtime && out.registry == err.registry
    requires ws.Valid() && out.Valid()
    modifies out.runtime, out.registry, out`forwarded, out`logFile, err`forwarded, err`logFile
    ensures ws.Valid() && out.Valid()
    ensures World(out.runtime.Snapshot(), out.registry.clients, ws.State())
         == Act(old(World(out.runtime.Snapshot(), out.registry.clients, ws.State())), Write(stream, text, onLoop))
    ensures out.forwarded == old(out.forwarded) + (if stream == Stdout then [text] else [])
    ensures err.forwarded == old(err.forwarded) + (if stream == Stderr then [text] else [])
    ensures out.logFile == old(out.logFile) + (if stream == Stdout && out.HasLogFile() then [text] else [])
    ensures err.logFile == old(err.logFile) + (if stream == Stderr && err.HasLogFile() then [text] else [])
  {
    if Strip(text) != "" && onLoop {
      FanoutKeepsAttached(out.runtime.Snapshot(), out.registry.clients, text, ws.State());
    }
    if stream == Stdout {
      out.Write(text, onLoop);
    } else {
      err.Write(text, onLoop);
    }
  }

  /** A handler's call on its `SafeWebSocket`. */
  method PerformCall(ws: SafeWebSocket, out: Writer, call: Call)
    requires ws.runtime == out.runtime && ws.Valid() && out.Valid()
    modifies ws`logTasks, ws`closed, out.runtime
    ensures ws.Valid() && out.Valid()
    ensures World(out.runtime.Snapshot(), out.registry.clients, ws.State())
         == Act(old(World(out.runtime.Snapshot(), out.registry.clients, ws.State())), Use(call))
  {
    ghost var w := World(out.runtime.Snapshot(), out.registry.clients, ws.State());
    ApplyGrows(Step(w.net, w.conn), call);
    GrowsKeepsRegistered(w.net, Apply(Step(w.net, w.conn), call).net, w.clients);
    match call {
      case Send(m) => ws.Send(m);
      case SendJson(d) => ws.SendJson(d);
      case Close(code, reason) => ws.Close(code, reason);
    }
  }

  /** One handler step. */
  method Perform(ws: SafeWebSocket, out: Writer, err: Writer, a: Action)
    requires out != err && ws.runtime == out.runtime == err.runtime && out.registry == err.registry
    requires ws.Valid() && out.Valid()
    modifies ws`logTasks, ws`closed, out.runtime, out.registry, out`forwarded, out`logFile, err`forwarded, err`logFile
    ensures ws.Valid() && out.Valid()
    ensures World(out.runtime.Snapshot(), out.registry.clients, ws.State())
         == Act(old(World(out.runtime.Snapshot(), out.registry.clients, ws.State())), a)
    ensures out.forwarded == old(out.forwarded) + Written([a], Stdout)
    ensures err.forwarded == old(err.forwarded) + Written([a], Stderr)
    ensures out.logFile == old(out.logFile) + (if out.HasLogFile() then Written([a], Stdout) else [])
    ensures err.logFile == old(err.logFile) + (if err.HasLogFile() then Written([a], Stderr) else [])
  {
    assert [a][..0] == [];
    match a {
      case Write(stream, text, onLoop) => PerformWrite(ws, out, err, stream, text, onLoop);
      case Use(call) => PerformCall(ws, out, call);
    }
  }

  /** `Written` grows by one action at a time. */
  lemma WrittenStep(actions: seq<Action>, i: nat, stream: Stream)
    requires i < |actions|
    ensures Written(actions[..i + 1], stream) == Written(actions[..i], stream) + Written([actions[i]], stream)
  {
    assert actions[..i + 1][..i] == actions[..i];
    assert [actions[i]][..0] == [];
  }

  /**
   * What a stream (`kept` true) or a log file (`kept` says whether there is
   * one) holds grows by what action `i` writes.
   */
  lemma EchoStep(before: seq<string>, actions: seq<Action>, i: nat, stream: Stream, kept: bool)
    requires i < |actions|
    ensures before + (if kept then Written(actions[..i + 1], stream) else [])
         == before + (if kept then Written(actions[..i], stream) else [])
            + (if kept then Written([actions[i]], stream) else [])
  {
    WrittenStep(actions, i, stream);
    Associative(before, Written(actions[..i], stream), Written([actions[i]], stream));
  }

  /** `Handled` grows by one action at a time. */
  lemma HandledStep(w: World, actions: seq<Action>, i: nat)
    requires Good(w) && i < |actions|
    ensures Handled(w, actions[..i + 1]) == Act(Handled(w, actions[..i]), actions[i])
  {
    assert actions[..i + 1][..i] == actions[..i];
  }

  /**
   * Stand-in for `await chat_manager.handle_websocket(client_id, ws)`: runs
   * the handler's script against the two writers and the wrapper.
   */
  method RunHandler(ws: SafeWebSocket, out: Writer, err: Writer, actions: seq<Action>)
    requires out != err && ws.runtime == out.runtime == err.runtime && out.registry == err.registry
    requires ws.Valid() && out.Valid()
    modifies ws`logTasks, ws`closed, out.runtime, out.registry, out`forwarded, out`logFile, err`forwarded, err`logFile
    ensures ws.Valid() && out.Valid()
    ensures World(out.runtime.Snapshot(), out.registry.clients, ws.State())
         == Handled(old(World(out.runtime.Snapshot(), out.registry.clients, ws.State())), actions)
    ensures out.forwarded == old(out.forwarded) + Written(actions, Stdout)
    ensures err.forwarded == old(err.forwarded) + Written(actions, Stderr)
    ensures out.logFile == old(out.logFile) + (if out.HasLogFile() then Written(actions, Stdout) else [])
    ensures err.logFile == old(err.logFile) + (if err.HasLogFile() then Written(actions, Stderr) else [])
  {
    var runtime, registry := out.runtime, out.registry;
    ghost var w0 := World(runtime.Snapshot(), registry.clients, ws.State());
    var i := 0;
    while i < |actions|
      invariant 0 <= i <= |actions|
      invariant ws.Valid() && out.Valid()
      invariant World(runtime.Snapshot(), registry.clients, ws.State()) == Handled(w0, actions[..i])
      invariant out.forwarded == old(out.forwarded) + Written(actions[..i], Stdout)
      invariant err.forwarded == old(err.forwarded) + Written(actions[..i], Stderr)
      invariant out.logFile == old(out.logFile) + (if out.HasLogFile() then Written(actions[..i], Stdout) else [])
      invariant err.logFile == old(err.logFile) + (if err.HasLogFile() then Written(actions[..i], Stderr) else [])
    {
      HandledStep(w0, actions, i);
      EchoStep(old(out.forwarded), actions, i, Stdout, true);
      EchoStep(old(err.forwarded), actions, i, Stderr, true);
      EchoStep(old(out.logFile), actions, i, Stdout, out.HasLogFile());
      EchoStep(old(err.logFile), actions, i, Stderr, err.HasLogFile());
      Perform(ws, out, err, actions[i]);
      i := i + 1;
    }
    assert actions[..i] == actions;
  }

  /** The `except` clauses of the endpoint, on the handler's outcome. */
  method Except(ws: SafeWebSocket, out: Writer, outcome: HandlerOutcome) returns (exit: Outcome<string>)
    requires ws.runtime == out.runtime && ws.Valid() && out.Valid()
    modifies ws`logTasks, ws`closed, out.runtime
    ensures ws.Valid() && out.Valid()
    ensures World(out.runtime.Snapshot(), out.registry.clients, ws.State())
         == Excepted(old(World(out.runtime.Snapshot(), out.registry.clients, ws.State())), outcome)
    ensures exit == if outcome.OtherError? then Fail(outcome.message) else Pass
  {
    exit := Pass;
    match outcome {
      case Normal =>
      case WsException(msg) =>
        PerformCall(ws, out, SendJson(ErrorEvent(msg)));
        PerformCall(ws, out, Close(Some(InternalError), Some(msg)));
      case WsDisconnect(msg) =>
        PerformCall(ws, out, Close(Some(NormalClosure), Some(msg)));
      case OtherError(msg) =>
        exit := Fail(msg);
    }
  }

  /**
   * The `finally` block: both writers drain, then the session's entry is
   * removed from the registry; `removed` is the `ValueError` when it is
   * not there.
   */
  method Finally(out: Writer, err: Writer, socket: SocketId) returns (removed: Outcome<string>)
    requires out != err && out.runtime == err.runtime && out.registry == err.registry
    requires out.Valid()
    modifies out.runtime, out.registry
    ensures var cs3 := Emptied(old(out.registry.clients));
      out.runtime.Snapshot()
        == Gathered(Gathered(old(out.runtime.Snapshot()), Flatten(old(out.registry.clients))), Flatten(cs3))
    ensures var cs3 := Emptied(old(out.registry.clients));
      var r := RemoveFirst(cs3, socket);
      out.registry.clients == (if r.Some? then r.value else cs3)
      && removed == (if r.None? then Fail(NotInList) else Pass)
  {
    out.Drain();
    ghost var cs3 := out.registry.clients;
    err.Drain();
    assert out.registry.clients == cs3;
    removed := out.registry.Remove(socket);
  }

  /**
   * `websocket_endpoint(client_id, websocket)`, with `out` and `err` the
   * writers installed over stdout and stderr and `registry` the
   * `connected_clients` list they share.
   */
  method Endpoint(runtime: Runtime, registry: Registry, out: Writer, err: Writer, socket: SocketId, handler: Handler)
      returns (exit: Outcome<string>)
    requires out != err && out.runtime == runtime && err.runtime == runtime
    requires out.registry == registry && err.registry == registry
    requires runtime.Valid() && Admissible(runtime.Snapshot(), registry.clients, socket)
    modifies runtime, registry, out`forwarded, out`logFile, err`forwarded, err`logFile
    ensures var e := Lifecycle(old(runtime.Snapshot()), old(registry.clients), socket, handler);
      runtime.Snapshot() == e.net && registry.clients == e.clients && exit == e.exit
    ensures out.forwarded == old(out.forwarded) + Written(handler.actions, Stdout)
    ensures err.forwarded == old(err.forwarded) + Written(handler.actions, Stderr)
    ensures out.logFile == old(out.logFile) + (if out.HasLogFile() then Written(handler.actions, Stdout) else [])
    ensures err.logFile == old(err.logFile) + (if err.HasLogFile() then Written(handler.actions, Stderr) else [])
  {
    ghost var n0, cs0 := runtime.Snapshot(), registry.clients;
    RegisterNew(n0, cs0, socket);
    registry.Append(Client(socket, []));
    var ws := new SafeWebSocket(runtime, socket);
    RunHandler(ws, out, err, handler.actions);
    ghost var w1 := World(runtime.Snapshot(), registry.clients, ws.State());
    assert w1 == AfterHandler(n0, cs0, socket, handler.actions);
    exit := Except(ws, out, handler.outcome);
    ghost var w2 := World(runtime.Snapshot(), registry.clients, ws.State());
    var removed := Finally(out, err, socket);
    if removed.Fail? {
      exit := removed;
    }
  }

  /*
   * Proof helpers. These model nothing in the source: each unfolds one step
   * of a definition or states a fact about sequences, so that the proofs
   * above stay small enough for the verifier.
   */

  lemma Associative<T>(a: seq<T>, b: seq<T>, c: seq<T>)
    ensures a + b + c == a + (b + c)
  {
  }

  /** `f + [a] + [] + [b]` is `f + [a, b]`, whatever the elements. */
  lemma AppendPair<T>(f: seq<T>, a: T, b: T)
    ensures f + [a] + [] + [b] == f + [a, b]
  {
  }

  lemma FlattenOne(c: Client)
    ensures Flatten([c]) == c.tasks
  {
    assert [c][..0] == [];
  }

  lemma GatherOne(n: Net, id: TaskId)
    requires WellFormed(n)
    ensures Gathered(n, [id]) == RunTask(n, id)
  {
    assert [id][1..] == [];
  }

  lemma HandledOne(w: World, a: Action)
    requires Good(w)
    ensures Handled(w, [a]) == Act(w, a)
  {
    assert [a][..0] == [];
  }

  lemma LogSendsOne(n: Net, c: Client, text: string)
    requires WellFormed(n) && c.socket < |n.wires|
    ensures LogSends(n, [c], text) == Spawned(n, c.socket, LogEvent(text))
  {
    assert [c][..0] == [];
  }

  lemma WithLogTaskOne(s: SocketId, base: nat)
    ensures WithLogTask([Client(s, [])], base) == [Client(s, [base])]
  {
    var c := Client(s, []);
    assert [c][..0] == [];
    var none: seq<Client> := [];
    var ids: seq<TaskId> := [];
    assert ids + [base] == [base];
    assert none + [Client(s, [base])] == [Client(s, [base])];
  }
}
