/**
 * A sequential model of the asyncio event loop and of the raw Starlette
 * websockets underneath the chat layer.
 *
 * `asyncio.create_task(ws.send_json(p))` appends a Pending task to a task
 * table and returns its index; `await asyncio.gather(*ids,
 * return_exceptions=True)` runs the listed tasks in list order. A pending task
 * delivers its payload when its websocket has not yet sent a close frame, and
 * otherwise fails; the failure is collected by `gather` and dropped. A task
 * that has completed is never run again, so gathering it twice sends once.
 */
module EventLoop {
  import opened Wrappers
  import opened Messages

  type SocketId = nat
  type TaskId = nat

  /** What a raw websocket puts on the wire. */
  datatype Frame =
    | JsonFrame(data: Json)                                  // websocket.send_json(data)
    | RawFrame(message: Json)                                // websocket.send(message)
    | CloseFrame(code: Option<int>, reason: Option<string>)  // websocket.close(code, reason)

  /** The frames one raw websocket has sent, and whether one of them was the close frame. */
  datatype Wire = Wire(frames: seq<Frame>, closed: bool)

  datatype TaskState = Pending | Delivered | Failed

  /** One `create_task(websocket.send_json(payload))` aimed at websocket `target`. */
  datatype Task = Task(target: SocketId, payload: Json, state: TaskState)

  /** The event loop's tasks and every raw websocket's wire. */
  datatype Net = Net(tasks: seq<Task>, wires: seq<Wire>)

  /** A wire sends nothing after its close frame, and sends at most one. */
  predicate WireOk(w: Wire)
  {
    (w.closed <==> (|w.frames| > 0 && w.frames[|w.frames| - 1].CloseFrame?))
    && forall i :: 0 <= i < |w.frames| - 1 ==> !w.frames[i].CloseFrame?
  }

  predicate WellFormed(n: Net)
  {
    (forall i :: 0 <= i < |n.tasks| ==> n.tasks[i].target < |n.wires|)
    && (forall s :: 0 <= s < |n.wires| ==> WireOk(n.wires[s]))
  }

  /** Every id names a task of the table. */
  predicate IdsBelow(ids: seq<TaskId>, bound: nat)
  {
    forall i :: 0 <= i < |ids| ==> ids[i] < bound
  }

  predicate ValidIds(n: Net, ids: seq<TaskId>)
  {
    IdsBelow(ids, |n.tasks|)
  }

  /** `asyncio.create_task(websocket.send_json(payload))` for websocket `s`. */
  function Spawned(n: Net, s: SocketId, payload: Json): (r: Net)
    requires WellFormed(n) && s < |n.wires|
    ensures WellFormed(r) && r.wires == n.wires
    ensures |r.tasks| == |n.tasks| + 1 && r.tasks[|n.tasks|] == Task(s, payload, Pending)
    ensures r.tasks[..|n.tasks|] == n.tasks
  {
    n.(tasks := n.tasks + [Task(s, payload, Pending)])
  }

  /** A send awaited directly on an open raw websocket. */
  function Transmitted(n: Net, s: SocketId, f: Frame): (r: Net)
    requires WellFormed(n) && s < |n.wires| && !n.wires[s].closed
    ensures WellFormed(r) && r.tasks == n.tasks && |r.wires| == |n.wires|
    ensures r.wires[s] == Wire(n.wires[s].frames + [f], f.CloseFrame?)
    ensures forall k :: 0 <= k < |n.wires| && k != s ==> r.wires[k] == n.wires[k]
  {
    var w := Wire(n.wires[s].frames + [f], f.CloseFrame?);
    assert WireOk(n.wires[s]);
    n.(wires := n.wires[s := w])
  }

  /**
   * The event loop running task `id` to completion. A completed task is left
   * as it is; an id that names no task (which the model never produces) is
   * ignored.
   */
  function RunTask(n: Net, id: TaskId): (r: Net)
    requires WellFormed(n)
    ensures WellFormed(r) && |r.tasks| == |n.tasks| && |r.wires| == |n.wires|
    ensures id < |n.tasks| && n.tasks[id].state.Pending? ==>
      r.tasks[id] == n.tasks[id].(state := if n.wires[n.tasks[id].target].closed then Failed else Delivered)
    ensures forall k :: 0 <= k < |n.tasks| && k != id ==> r.tasks[k] == n.tasks[k]
    ensures !(id < |n.tasks| && n.tasks[id].state.Pending?) ==> r == n
  {
    if id >= |n.tasks| || !n.tasks[id].state.Pending? then n
    else
    var t := n.tasks[id];
    if n.wires[t.target].closed then n.(tasks := n.tasks[id := t.(state := Failed)])
    else
      var w := n.wires[t.target].(frames := n.wires[t.target].frames + [JsonFrame(t.payload)]);
      assert WireOk(n.wires[t.target]);
      Net(n.tasks[id := t.(state := Delivered)], n.wires[t.target := w])
  }

  /** `await asyncio.gather(*ids, return_exceptions=True)`, the tasks run in list order. */
  function Gathered(n: Net, ids: seq<TaskId>): (r: Net)
    requires WellFormed(n)
    ensures WellFormed(r) && |r.tasks| == |n.tasks| && |r.wires| == |n.wires|
    decreases |ids|
  {
    if ids == [] then n else Gathered(RunTask(n, ids[0]), ids[1..])
  }

  /**
   * The frames that gathering `ids` puts on websocket `s` when it is open,
   * stated without running anything: one JSON frame for the first occurrence
   * of each id whose task is still pending and aimed at `s`, in list order.
   */
  function Delivery(tasks: seq<Task>, ids: seq<TaskId>, s: SocketId): (r: seq<Frame>)
    ensures |r| <= |ids|
    ensures forall k :: 0 <= k < |r| ==> r[k].JsonFrame?
  {
    if ids == [] then []
    else
      var init, id := ids[..|ids| - 1], ids[|ids| - 1];
      Delivery(tasks, init, s)
      + (if id < |tasks| && tasks[id].state.Pending? && tasks[id].target == s && id !in init
         then [JsonFrame(tasks[id].payload)] else [])
  }

  /** No id of `ids` names a task aimed at websocket `s`. */
  predicate AimedElsewhere(tasks: seq<Task>, ids: seq<TaskId>, s: SocketId)
  {
    forall j :: 0 <= j < |ids| ==> ids[j] >= |tasks| || tasks[ids[j]].target != s
  }

  /** Tasks aimed at other websockets deliver nothing to `s`. */
  lemma {:induction false} DeliveryElsewhere(tasks: seq<Task>, ids: seq<TaskId>, s: SocketId)
    requires AimedElsewhere(tasks, ids, s)
    ensures Delivery(tasks, ids, s) == []
    decreases |ids|
  {
    if ids != [] {
      DeliveryElsewhere(tasks, ids[..|ids| - 1], s);
    }
  }

  /** Ids after `a` that are aimed elsewhere add nothing to what `a` delivers to `s`. */
  lemma {:induction false} DeliveryDropSuffix(tasks: seq<Task>, a: seq<TaskId>, b: seq<TaskId>, s: SocketId)
    requires AimedElsewhere(tasks, b, s)
    ensures Delivery(tasks, a + b, s) == Delivery(tasks, a, s)
    decreases |b|
  {
    if b == [] {
      assert a + b == a;
    } else {
      var init := b[..|b| - 1];
      DeliveryDropSuffix(tasks, a, init, s);
      assert (a + b)[..|a + b| - 1] == a + init;
    }
  }

  /** Ids before `b` that are aimed elsewhere change nothing that `b` delivers to `s`. */
  lemma {:induction false} DeliveryDropPrefix(tasks: seq<Task>, a: seq<TaskId>, b: seq<TaskId>, s: SocketId)
    requires AimedElsewhere(tasks, a, s)
    ensures Delivery(tasks, a + b, s) == Delivery(tasks, b, s)
    decreases |b|
  {
    if b == [] {
      assert a + b == a;
      DeliveryElsewhere(tasks, a, s);
    } else {
      var init, id := b[..|b| - 1], b[|b| - 1];
      DeliveryDropPrefix(tasks, a, init, s);
      assert (a + b)[..|a + b| - 1] == a + init;
      if id < |tasks| && tasks[id].target == s {
        assert id !in a;
      }
    }
  }

  /** Tasks created later do not change what older ids deliver. */
  lemma {:induction false} DeliveryExtend(tasks: seq<Task>, more: seq<Task>, ids: seq<TaskId>, s: SocketId)
    requires IdsBelow(ids, |tasks|)
    ensures Delivery(tasks + more, ids, s) == Delivery(tasks, ids, s)
    decreases |ids|
  {
    if ids != [] {
      DeliveryExtend(tasks, more, ids[..|ids| - 1], s);
    }
  }

  /** Gathering `a` and then `b` is gathering `a + b`. */
  lemma {:induction false} GatherConcat(n: Net, a: seq<TaskId>, b: seq<TaskId>)
    requires WellFormed(n)
    ensures Gathered(n, a + b) == Gathered(Gathered(n, a), b)
    decreases |a|
  {
    if a != [] {
      assert (a + b)[0] == a[0] && (a + b)[1..] == a[1..] + b;
      GatherConcat(RunTask(n, a[0]), a[1..], b);
    } else {
      assert a + b == b;
    }
  }

  /**
   * Gathering never changes a task's target or payload, leaves a task outside
   * `ids` as it was, and leaves a task pending exactly when it was pending and
   * is not among `ids`.
   */
  lemma {:induction false} GatherTask(n: Net, ids: seq<TaskId>, k: TaskId)
    requires WellFormed(n) && k < |n.tasks|
    ensures var t := Gathered(n, ids).tasks[k];
      t.target == n.tasks[k].target && t.payload == n.tasks[k].payload
      && (k !in ids ==> t == n.tasks[k])
      && (t.state.Pending? <==> n.tasks[k].state.Pending? && k !in ids)
    decreases |ids|
  {
    if ids != [] {
      var m := RunTask(n, ids[0]);
      GatherTask(m, ids[1..], k);
      assert k in ids <==> k == ids[0] || k in ids[1..];
    }
  }

  /** After `gather`, none of the gathered tasks is pending. */
  lemma GatherSettles(n: Net, ids: seq<TaskId>)
    requires WellFormed(n) && ValidIds(n, ids)
    ensures forall id :: id in ids ==> !Gathered(n, ids).tasks[id].state.Pending?
  {
    forall id | id in ids
      ensures !Gathered(n, ids).tasks[id].state.Pending?
    {
      GatherTask(n, ids, id);
    }
  }

  /** Gathering tasks that have all completed changes nothing. */
  lemma {:induction false} GatherCompleted(n: Net, ids: seq<TaskId>)
    requires WellFormed(n) && ValidIds(n, ids)
    requires forall id :: id in ids ==> !n.tasks[id].state.Pending?
    ensures Gathered(n, ids) == n
    decreases |ids|
  {
    if ids != [] {
      assert ids[0] in ids;
      GatherCompleted(n, ids[1..]);
    }
  }

  /** Gathering the same tasks a second time sends nothing more. */
  lemma GatherIdempotent(n: Net, ids: seq<TaskId>)
    requires WellFormed(n) && ValidIds(n, ids)
    ensures Gathered(Gathered(n, ids), ids) == Gathered(n, ids)
  {
    GatherSettles(n, ids);
    GatherCompleted(Gathered(n, ids), ids);
  }

  /**
   * What gathering does to one websocket: an open one receives exactly the
   * `Delivery` frames after what it had; a closed one receives nothing; and
   * gathering never opens or closes a websocket.
   */
  lemma {:induction false} GatherFrames(n: Net, ids: seq<TaskId>, s: SocketId)
    requires WellFormed(n) && s < |n.wires|
    ensures Gathered(n, ids).wires[s]
         == Wire(n.wires[s].frames + (if n.wires[s].closed then [] else Delivery(n.tasks, ids, s)),
                 n.wires[s].closed)
    decreases |ids|
  {
    if ids != [] {
      var init, id := ids[..|ids| - 1], ids[|ids| - 1];
      assert ids == init + [id];
      GatherConcat(n, init, [id]);
      var m := Gathered(n, init);
      GatherFrames(n, init, s);
      if id < |n.tasks| {
        GatherTask(n, init, id);
      }
      assert Gathered(m, [id]) == RunTask(m, id) by {
        assert [id][1..] == [];
      }
      RunTaskWire(m, id, s);
    }
  }

  /** Running one task adds at most its own payload to its own open websocket. */
  lemma RunTaskWire(n: Net, id: TaskId, s: SocketId)
    requires WellFormed(n) && s < |n.wires|
    ensures RunTask(n, id).wires[s]
         == Wire(n.wires[s].frames
                 + (if !n.wires[s].closed && id < |n.tasks| && n.tasks[id].state.Pending? && n.tasks[id].target == s
                    then [JsonFrame(n.tasks[id].payload)] else []),
                 n.wires[s].closed)
  {
  }

  /** A corollary of GatherFrames for every websocket at once. */
  lemma GatherWires(n: Net, ids: seq<TaskId>)
    requires WellFormed(n)
    ensures forall s :: 0 <= s < |n.wires| ==>
      Gathered(n, ids).wires[s].closed == n.wires[s].closed
      && (n.wires[s].closed ==> Gathered(n, ids).wires[s] == n.wires[s])
  {
    forall s | 0 <= s < |n.wires|
      ensures Gathered(n, ids).wires[s].closed == n.wires[s].closed
      ensures n.wires[s].closed ==> Gathered(n, ids).wires[s] == n.wires[s]
    {
      GatherFrames(n, ids, s);
    }
  }

  /**
   * The event loop together with the raw websockets it serves. Websockets
   * are created by the web framework, not by the code modelled here: a
   * caller that needs one appends an open `Wire([], false)` to `wires` and
   * passes its index, as FastAPI passes `websocket` to the endpoint.
   */
  class Runtime {
    var tasks: seq<Task>
    var wires: seq<Wire>

    function Snapshot(): (n: Net)
      reads this
    {
      Net(tasks, wires)
    }

    ghost predicate Valid()
      reads this
    {
      WellFormed(Snapshot())
    }

    constructor ()
      ensures Valid() && tasks == [] && wires == []
    {
      tasks, wires := [], [];
    }

    /** `asyncio.create_task(websocket.send_json(payload))`, returning the task. */
    method CreateTask(s: SocketId, payload: Json) returns (id: TaskId)
      requires Valid() && s < |wires|
      modifies this
      ensures Valid() && Snapshot() == Spawned(old(Snapshot()), s, payload)
      ensures id == |old(tasks)|
    {
      id := |tasks|;
      tasks := tasks + [Task(s, payload, Pending)];
    }

    /** `await websocket.send_json / send / close` on an open raw websocket. */
    method Send(s: SocketId, f: Frame)
      requires Valid() && s < |wires| && !wires[s].closed
      modifies this
      ensures Valid() && Snapshot() == Transmitted(old(Snapshot()), s, f)
    {
      wires := wires[s := Wire(wires[s].frames + [f], f.CloseFrame?)];
    }

    /** Runs one task, as the event loop does once `gather` waits on it. */
    method Run(id: TaskId)
      requires Valid()
      modifies this
      ensures Valid() && Snapshot() == RunTask(old(Snapshot()), id)
    {
      if id < |tasks| && tasks[id].state.Pending? {
        var t := tasks[id];
        if wires[t.target].closed {
          tasks := tasks[id := t.(state := Failed)];
        } else {
          tasks := tasks[id := t.(state := Delivered)];
          wires := wires[t.target := wires[t.target].(frames := wires[t.target].frames + [JsonFrame(t.payload)])];
        }
      }
    }

    /** `await asyncio.gather(*ids, return_exceptions=True)` */
    method Gather(ids: seq<TaskId>)
      requires Valid()
      modifies this
      ensures Valid() && Snapshot() == Gathered(old(Snapshot()), ids)
    {
      var i := 0;
      while i < |ids|
        invariant 0 <= i <= |ids|
        invariant Valid() && |tasks| == |old(tasks)|
        invariant Gathered(Snapshot(), ids[i..]) == Gathered(old(Snapshot()), ids)
      {
        assert ids[i..][0] == ids[i] && ids[i..][1..] == ids[i + 1..];
        Run(ids[i]);
        i := i + 1;
      }
    }
  }
}
