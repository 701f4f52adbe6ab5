# Websocket log relay of the langflow chat endpoint

This project models the websocket half of langflow's chat API
(`src/backend/langflow/api/chat.py`) and proves properties of it:

- `connected_clients`: the module-wide list of `{"websocket", "tasks"}`
  entries, one per open chat session.
- `WebsocketWriter`: the object installed over `sys.stdout` and `sys.stderr`.
  - `write` echoes each message to the original stream and appends it to the
    log file.
  - For a message that is not blank, `write` also schedules one
    `send_json({'type': 'log', 'message': ...})` task per connected client.
  - `drain` waits for every client's pending tasks and then forgets them.
- `SafeWebSocket`: the wrapper handed to the chat handler.
  - Log payloads are queued as tasks and are not sent at once.
  - `send` and `close` first wait for the queued log tasks.
  - Nothing is sent once `close` has run, and only the first `close` reaches
    the websocket.
- `websocket_endpoint`: the lifecycle of one session.
  1. Register the session's entry.
  2. Run the handler.
  3. On `WebSocketException`, send `{"error": ...}` and close with 1011.
     On `WebSocketDisconnect`, close with 1000.
  4. In every case, drain both writers and remove the entry.

## How the model reads

- **The event loop** (`EventLoop`) is sequential. Its state is a `Net`: a
  task table and one `Wire` per raw websocket.
  - The `Wire` holds the frames the websocket has sent so far and whether a
    close frame has gone out.
  - `asyncio.create_task` appends a pending task.
  - `asyncio.gather(*ids)` runs the listed tasks in list order. A task that
    has already completed is not run again.
  - A pending task whose websocket is already closed fails instead of
    sending, which is what `return_exceptions=True` swallows.
  - `class Runtime` holds this state and changes it in place. The functions
    `Spawned`, `Transmitted`, `RunTask` and `Gathered` specify each method.
- **The registry** (`Relay.Registry`) holds the `connected_clients` list as a
  sequence of `Client(socket, tasks)` values.
  - Each session owns its own websocket, so an entry is identified by its
    socket.
  - `list.remove(client_info)` removes the first entry with that socket.
    When there is none, it fails with `ValueError`.
- **The writers** are `Relay.Writer` objects. `forwarded` is what reached
  the original stream and `logFile` is what was appended to the file.
- **`Ordered.SafeWebSocket`** keeps `log_tasks` and `closed` as fields. Each
  of its methods is proved equal to a specification function on values:
  `SendSpec`, `SendJsonSpec` or `CloseSpec`.
- **The chat handler** (`chat_manager.handle_websocket`) is a `Handler`. It
  is a script of actions and an outcome.
  - The actions are `write` calls on stdout or stderr, and calls on the
    wrapper. Python's `print(x)` is two writes, `x` and then `"\n"`; the
    second is blank, so it is forwarded but never fanned out.
  - The outcome is one of: normal return, `WebSocketException`,
    `WebSocketDisconnect`, or any other exception.
  - `Session.Lifecycle` states the whole endpoint as a function.
  - `Session.Endpoint` runs it imperatively and is proved to end in exactly
    that state.

Three behaviours of the code a reader might not expect:

- **Error payload.** It is `{"error": str(exc)}`, with no `"type"` key
  (`chat.py:99`).
- **Removal.** `connected_clients.remove` raises `ValueError` when the entry
  is missing. It is not a silent no-op (`chat.py:110`).
- **Other exceptions are not caught.** An exception other than the two
  websocket exceptions skips both `except` clauses. So no error payload is
  sent and the websocket is not closed. The `finally` block still drains and
  unregisters, and the exception propagates (`Session.StepOneThenRuntimeError`).

## Model

| member | source | states |
|---|---|---|
| Messages.LogEvent | src/backend/langflow/api/chat.py:39 | the payload the writer sends is a log message (`type` is `log`) carrying the written text under `message` |
| Messages.ErrorEvent | src/backend/langflow/api/chat.py:99 | the error payload is not a log message, so `send_json` sends it at once, and it carries the exception text under `error` |
| Messages.OnlyTypeRoutes | src/backend/langflow/api/chat.py:69 | only the `type` key decides the `send_json` test: setting or replacing any other key of a dict never changes whether it is queued as a log message |
| Messages.TrimStart | src/backend/langflow/api/chat.py:37 | `lstrip` keeps a suffix, drops only whitespace, and leaves no leading whitespace |
| Messages.TrimEnd | src/backend/langflow/api/chat.py:37 | `rstrip` keeps a prefix, drops only whitespace, and leaves no trailing whitespace |
| Messages.StripShape | src/backend/langflow/api/chat.py:37 | `message.strip()` is the part of the message between a blank prefix (what `lstrip` drops) and a blank suffix |
| Messages.StripEnds | src/backend/langflow/api/chat.py:37 | what `strip()` leaves is empty or starts and ends with a non-whitespace character, so no shorter part would do |
| Messages.StripEmptyIffBlank | src/backend/langflow/api/chat.py:37 | `message.strip() != ""` holds exactly when the message has a non-whitespace character (both directions) |
| EventLoop.Spawned | src/backend/langflow/api/chat.py:39 | `create_task` adds one pending task aimed at the given websocket and leaves the existing tasks and websockets as they were |
| EventLoop.Transmitted | src/backend/langflow/api/chat.py:65 | a direct send appends one frame to that websocket only; a close frame marks it closed |
| EventLoop.RunTask | src/backend/langflow/api/chat.py:48 | running a pending task marks it delivered, or failed if its websocket is closed, and keeps its target and payload; every other task is unchanged; running a completed task changes nothing |
| EventLoop.RunTaskWire | src/backend/langflow/api/chat.py:48 | running a task adds its payload to its websocket if that websocket is open and the task pending, and changes no other websocket |
| EventLoop.Gathered | src/backend/langflow/api/chat.py:48 | `gather` keeps the loop well formed and neither creates nor drops a task or a websocket |
| EventLoop.Delivery | src/backend/langflow/api/chat.py:48 | a gather sends a websocket at most one frame per gathered id, and only JSON frames, never a close frame |
| EventLoop.DeliveryElsewhere | src/backend/langflow/api/chat.py:48 | gathering ids whose tasks are all aimed at other websockets sends `s` nothing |
| EventLoop.DeliveryExtend | src/backend/langflow/api/chat.py:39-48 | tasks created later do not change what gathering earlier ids sends |
| EventLoop.GatherConcat | src/backend/langflow/api/chat.py:48 | gathering `a + b` is gathering `a` and then `b` |
| EventLoop.GatherTask | src/backend/langflow/api/chat.py:48 | after a gather, a task is still pending exactly when it was pending and not gathered; its target and payload never change |
| EventLoop.GatherSettles | src/backend/langflow/api/chat.py:48 | every gathered task is complete (delivered or failed) afterwards |
| EventLoop.GatherCompleted | src/backend/langflow/api/chat.py:63 | gathering tasks that are all complete changes nothing |
| EventLoop.GatherIdempotent | src/backend/langflow/api/chat.py:63 | gathering the same tasks twice is gathering them once, so the never-cleared `log_tasks` are harmless |
| EventLoop.GatherFrames | src/backend/langflow/api/chat.py:48 | a gather adds to an open websocket exactly the payloads of the gathered pending tasks aimed at it, in order (`Delivery`); a closed websocket gets nothing; no websocket opens or closes |
| EventLoop.GatherWires | src/backend/langflow/api/chat.py:48 | corollary for every websocket at once: closed ones are untouched and none changes its closed flag |
| EventLoop.Runtime.constructor | src/backend/langflow/api/chat.py:9 | the event loop starts with no tasks and no websockets |
| EventLoop.Runtime.CreateTask | src/backend/langflow/api/chat.py:39 | in-place `create_task`: the new state is `Spawned` of the old one, and the id is the new task's index |
| EventLoop.Runtime.Send | src/backend/langflow/api/chat.py:79 | in-place direct send: the new state is `Transmitted` of the old one |
| EventLoop.Runtime.Run | src/backend/langflow/api/chat.py:48 | running one task delivers its payload, or fails it if the websocket is closed, or does nothing if it is complete |
| EventLoop.Runtime.Gather | src/backend/langflow/api/chat.py:48 | the loop over the gathered ids leaves exactly `Gathered` of the old state |
| Relay.LogSends | src/backend/langflow/api/chat.py:38-39 | the fan-out keeps the loop well formed, touches no websocket, and adds exactly one task per entry |
| Relay.WithLogTask | src/backend/langflow/api/chat.py:39 | the fan-out neither adds nor drops an entry |
| Relay.LogSendsAdds | src/backend/langflow/api/chat.py:38-39 | the fan-out adds exactly one pending `LogEvent(text)` task per registered entry, in registry order, aimed at that entry's websocket, and keeps the existing tasks |
| Relay.WithLogTaskAt | src/backend/langflow/api/chat.py:39 | entry `j` of the registry gains exactly the id of the task made for it |
| Relay.FanoutKeepsRegistered | src/backend/langflow/api/chat.py:38-39 | after the fan-out every entry's task list still names tasks aimed at that entry's own websocket |
| Relay.RemoveFirst | src/backend/langflow/api/chat.py:110 | removal fails exactly when no entry holds the websocket, and otherwise drops one entry |
| Relay.RemoveFirstAt | src/backend/langflow/api/chat.py:110 | removal drops precisely the first entry holding the websocket and keeps the others in order |
| Relay.RemoveAppended | src/backend/langflow/api/chat.py:90-91 | removing an entry just appended for a new websocket gives back the registry as it was before |
| Relay.Flatten | src/backend/langflow/api/chat.py:46-48 | with no entries, drain gathers no ids; which ids it gathers, in both directions, is `FlattenHas` and `FlattenFrom` |
| Relay.FlattenHas | src/backend/langflow/api/chat.py:46-48 | every id any entry lists is among the ids the drain gathers |
| Relay.FlattenFrom | src/backend/langflow/api/chat.py:46-48 | conversely, every id the drain gathers is listed by some entry |
| Relay.Emptied | src/backend/langflow/api/chat.py:49 | the drain keeps every entry, in order and on its websocket, and leaves every task list empty |
| Relay.DrainSettles | src/backend/langflow/api/chat.py:46-49 | after a drain, no task recorded in any entry is still pending |
| Relay.FlattenEmptied | src/backend/langflow/api/chat.py:49 | after a drain no entry records a task, so a second drain gathers nothing |
| Relay.FlattenElsewhere | src/backend/langflow/api/chat.py:46-48 | when no entry holds websocket `s`, no id the drain gathers names a task aimed at `s` |
| Relay.FanoutKeepsSockets | src/backend/langflow/api/chat.py:38-39 | the fan-out changes no entry's websocket: `s` is registered after it exactly when it was before |
| Relay.FanoutAimedAtOwn | src/backend/langflow/api/chat.py:38-39 | after the fan-out every id an entry lists, old or new, names a task aimed at that entry's websocket |
| Relay.FanoutDrainDelivery | src/backend/langflow/api/chat.py:38-48 | gathering every entry's list after a fan-out gives websocket `s` what the earlier pending tasks held for it, then exactly one copy of the payload if an entry holds `s`, and no copy otherwise |
| Relay.WriteThenDrainAt | src/backend/langflow/api/chat.py:31-49 | the statement of `WriteThenDrain` for one websocket |
| Relay.WriteThenDrain | src/backend/langflow/api/chat.py:31-49 | from any registry in agreement with the loop, a non-blank write followed by a drain gives every registered open websocket the earlier pending sends aimed at it, in registry order, and then exactly one `LogEvent(text)` frame; an unregistered websocket gets nothing new, and a closed one nothing at all |
| Relay.Registry.constructor | src/backend/langflow/api/chat.py:23 | the registry starts empty |
| Relay.Registry.Append | src/backend/langflow/api/chat.py:90-91 | registration appends the entry at the end |
| Relay.Registry.Remove | src/backend/langflow/api/chat.py:110 | the linear search removes what `RemoveFirst` says, or leaves the list and reports `ValueError` |
| Relay.FanOut | src/backend/langflow/api/chat.py:38-39 | the loop over the entries leaves the loop state as `LogSends` and the entries as `WithLogTask` |
| Relay.Writer.constructor | src/backend/langflow/api/chat.py:26-29 | a writer over a registry that agrees with the event loop starts in its invariant, shares the given registry, has an optional log file path, and has written nothing yet |
| Relay.Writer.Write | src/backend/langflow/api/chat.py:31-41 | the message always reaches the original stream, and the log file when `HasLogFile` holds (`if self.filepath:` at chat.py:33, a path that is given and not empty); a non-blank message written on the loop is fanned out to every entry; a blank one, or one written off the loop, changes neither the loop nor the registry |
| Relay.Writer.Flush | src/backend/langflow/api/chat.py:43-44 | `flush` flushes the original stream once and touches nothing else |
| Relay.Writer.Drain | src/backend/langflow/api/chat.py:46-49 | drain gathers every entry's tasks in registry order and then empties every entry's task list, keeping the entries |
| Ordered.GatherKeepsAttached | src/backend/langflow/api/chat.py:63 | gathering keeps the wrapper consistent with its websocket |
| Ordered.SendSpec | src/backend/langflow/api/chat.py:62-65 | `send` keeps the wrapper consistent with its websocket |
| Ordered.SendJsonSpec | src/backend/langflow/api/chat.py:67-73 | `send_json` never opens or closes the wrapper |
| Ordered.CloseSpec | src/backend/langflow/api/chat.py:75-79 | `close` leaves the wrapper marked closed and changes nothing else about it |
| Ordered.Apply | src/backend/langflow/api/chat.py:62-79 | any one call on the wrapper keeps it consistent with its websocket and on the same websocket |
| Ordered.Replay | src/backend/langflow/api/chat.py:62-79 | so does any sequence of calls |
| Ordered.SendOrdersLogsFirst | src/backend/langflow/api/chat.py:62-65 | on an open wrapper, `send` delivers the queued log payloads first and then the raw message |
| Ordered.SendWhenClosedIsSilent | src/backend/langflow/api/chat.py:64 | on a closed wrapper, `send` puts nothing on the websocket |
| Ordered.SendJsonRoutes | src/backend/langflow/api/chat.py:67-73 | on an open wrapper, a log payload (`IsLogMessage`, the test at chat.py:69) is queued as a new task and sends nothing now; any other payload is sent at once and queues nothing |
| Ordered.CloseFlushesLogsFirst | src/backend/langflow/api/chat.py:75-79 | the first `close` delivers the queued log payloads, then the close frame with the given code and reason |
| Ordered.ClosedIsSilent | src/backend/langflow/api/chat.py:64-76 | once closed, no call changes the wrapper or its websocket |
| Ordered.ClosedStaysClosed | src/backend/langflow/api/chat.py:64-76 | once closed, any sequence of calls changes neither the wrapper nor its websocket |
| Ordered.ReplayConcat | src/backend/langflow/api/chat.py:56-79 | running calls `a + b` is running `a` and then `b` |
| Ordered.FirstCloseWins | src/backend/langflow/api/chat.py:75-79 | after a first `close`, whatever calls follow, the websocket's last frame is that close frame and nothing more is sent |
| Ordered.CloseIdempotent | src/backend/langflow/api/chat.py:76 | a second `close` changes nothing |
| Ordered.QueueThenSend | src/backend/langflow/api/chat.py:67-73 | a queued log payload followed by a non-log payload: the non-log one is on the websocket and the log one is still pending |
| Ordered.QueuedLogOvertaken | src/backend/langflow/api/chat.py:67-79 | a log payload queued before a non-log payload reaches the websocket after it, just before the close frame |
| Ordered.ErrorOvertakesQueuedLog | src/backend/langflow/api/chat.py:97-100 | on the error path, the `{"error": ...}` payload reaches the client before a log line queued earlier, and the 1011 close frame comes last |
| Ordered.SafeWebSocket.constructor | src/backend/langflow/api/chat.py:57-60 | a new wrapper has nothing queued and is open |
| Ordered.SafeWebSocket.Send | src/backend/langflow/api/chat.py:62-65 | the in-place `send` leaves exactly `SendSpec` |
| Ordered.SafeWebSocket.SendJson | src/backend/langflow/api/chat.py:67-73 | the in-place `send_json` leaves exactly `SendJsonSpec`, fields included |
| Ordered.SafeWebSocket.Close | src/backend/langflow/api/chat.py:75-79 | the in-place `close` leaves exactly `CloseSpec`, fields included |
| Session.Act | src/backend/langflow/api/chat.py:96 | one handler step keeps every registry entry on its websocket and the wrapper on its own |
| Session.Handled | src/backend/langflow/api/chat.py:96 | the handler as a whole keeps the same property |
| Session.Excepted | src/backend/langflow/api/chat.py:97-104 | the `except` clauses never change the registry |
| Session.Written | src/backend/langflow/api/chat.py:31-32 | every text selected for a stream is the text of one of the handler's `write` calls on that stream, and there are at most as many texts as steps |
| Session.RegisterNew | src/backend/langflow/api/chat.py:90-93 | registering a fresh open websocket with an empty task list keeps the registry and the wrapper consistent |
| Session.AfterHandler | src/backend/langflow/api/chat.py:90-96 | after registration and the handler, the loop, the registry and the wrapper still agree, the registry holds the same websockets as before plus the new one, and the wrapper is on the session's websocket |
| Session.Lifecycle | src/backend/langflow/api/chat.py:86-110 | the session's end state is consistent: the wrapper still matches its websocket |
| Session.SessionUnregisters | src/backend/langflow/api/chat.py:105-110 | on every exit the registry is the one before the session, in order, with every entry's task list emptied; every task any entry listed when the `finally` block began is complete (delivered or failed) at the end; `remove` never raises; the endpoint ends with the handler's own exception, if any |
| Session.DrainsKeepClosed | src/backend/langflow/api/chat.py:105-108 | the drains add nothing to a websocket that is already closed |
| Session.ExceptionCloses | src/backend/langflow/api/chat.py:97-100 | on `WebSocketException`, the websocket gets the error payload, then the wrapper's queued logs, then a 1011 close frame with the exception text, and ends closed |
| Session.DisconnectCloses | src/backend/langflow/api/chat.py:102-104 | on `WebSocketDisconnect`, the websocket gets the wrapper's queued logs, then a 1000 close frame with the exception text |
| Session.ClosedByHandler | src/backend/langflow/api/chat.py:76 | if the handler already closed the wrapper, nothing after it reaches the websocket |
| Session.EndpointAddsNoClose | src/backend/langflow/api/chat.py:95-110 | on a normal return or an uncaught exception the endpoint adds no close: the wrapper stays as the handler left it (closed only if the handler closed it), and the websocket only gets what the first drain delivers |
| Session.WriteThenOtherError | src/backend/langflow/api/chat.py:31-49 | one non-blank write and then an uncaught exception: the exception propagates, the registry ends empty, and the log line is delivered on the still-open websocket |
| Session.WriteThenWsException | src/backend/langflow/api/chat.py:97-110 | one non-blank write and then `WebSocketException`: the client sees the error payload and then the 1011 close frame; under the model's schedule the written line's task fails after the close and is never delivered |
| Session.StepOneThenRuntimeError | src/backend/langflow/api/chat.py:95-110 | "Step 1 complete" then an uncaught error: the log line arrives, no error payload and no close frame are sent, and the error propagates |
| Session.StepOneThenWsException | src/backend/langflow/api/chat.py:97-100 | "Step 1 complete" then `WebSocketException("boom")`: the client gets `{"error": "boom"}` and a 1011 close frame, and, under the model's schedule, no log frame |
| Session.Perform | src/backend/langflow/api/chat.py:31-79 | one handler step performed on the writers and the wrapper leaves the state `Act` specifies and echoes exactly that step's writes |
| Session.RunHandler | src/backend/langflow/api/chat.py:96 | the loop over the handler's steps leaves the state `Handled` specifies and forwards every write, in order, to its stream and log file |
| Session.Except | src/backend/langflow/api/chat.py:97-104 | the `except` clauses run on the objects leave exactly `Excepted`, and only another exception propagates |
| Session.Finally | src/backend/langflow/api/chat.py:105-110 | the `finally` block drains stdout's writer, then stderr's, then removes the entry, or reports `ValueError` |
| Session.Endpoint | src/backend/langflow/api/chat.py:86-110 | the imperative endpoint ends exactly in `Lifecycle`'s state (websockets, tasks, registry, exit) and forwards every write to its stream and log file |

## Left out

- The rebinding of `sys.stdout` and `sys.stderr` at import time (`chat.py:51-54`) is left out. The model passes the two writers to `Endpoint` as `out` and `err`, together with their file paths.
- `SafeWebSocket.__getattr__` (`chat.py:81-84`) is left out. Any other method reaches the raw websocket directly, bypassing the wrapper's ordering. The handler's actions here are limited to `send`, `send_json` and `close`.
- `logger.error(exc)` in the two `except` clauses is left out. The logger's configuration is not part of this model, so it is not known whether it writes through the replaced `sys.stderr`.
- `ChatManager.handle_websocket` is not part of this model. The handler is a script of writes and wrapper calls plus an outcome.
- `client_id` is left out because the endpoint only passes it on.
- Real asyncio scheduling and concurrency are left out. A task runs only when something gathers it. A real loop may run a created task at any `await`, so in the model the writer's log frames come later than a real loop could send them. The model also assumes that the tasks one `gather` waits on complete in the order they are listed; asyncio only promises that all of them complete. The "in order" statements of `GatherFrames`, `SendOrdersLogsFirst` and `WriteThenDrain` rest on that assumption.
- `gather(..., return_exceptions=True)` collects exceptions into a result list, which is left out. The model keeps only the failed state of each task.
- A raw send that fails because the peer has gone away is left out. Sends on a socket that has sent its close frame are kept out by preconditions, because the wrapper never makes them.
- `Relay.Writer.Write` assigns the registry once after the fan-out loop. The source appends to each entry's own list in place; the entries are values here, so the end state is the same but no aliasing is modelled.
- `Relay.Writer.Write`: the `except Exception: pass` around the fan-out is modelled only for a write made with no running event loop (`inLoop` false). Then `create_task` raises at the first entry, nothing is appended, and nothing is sent. No other exception is modelled: every entry is built with both keys at `chat.py:90`, so the lookups cannot raise `KeyError`, and an exception part-way through the loop, after some appends, is left out.
- The original streams and log files are sequences of the strings written to them. Open modes, encodings and I/O errors are left out.
- `Relay.Registry.Remove` matches entries by websocket. Python compares the dicts by value, and those coincide here because each session has its own websocket.
- The wrapper's `log_tasks` is never cleared in the source. On a normal exit its tasks can stay pending when the session ends, and the model keeps them pending too.
