/**
 * The `connected_clients` registry and `WebsocketWriter`, the tee installed
 * over stdout and stderr that fans every non-blank write out as a log event
 * to every registered client.
 *
 * A registry entry is the dict `{"websocket": ws, "tasks": [...]}`. It is
 * modelled as the value `Client(socket, tasks)`; since every session brings
 * its own websocket, the socket identifies the dict.
 */
module Relay {
  import opened Wrappers
  import opened Messages
  import opened EventLoop

  /** One `{"websocket": ..., "tasks": [...]}` entry of `connected_clients`. */
  datatype Client = Client(socket: SocketId, tasks: seq<TaskId>)

  /**
   * The registry agrees with the event loop: every entry's websocket exists,
   * every task in an entry's list exists and is aimed at that entry's
   * websocket, and no two entries share a websocket.
   */
  predicate Registered(n: Net, cs: seq<Client>)
  {
    (forall i :: 0 <= i < |cs| ==> cs[i].socket < |n.wires| && IdsBelow(cs[i].tasks, |n.tasks|))
    && AimedAtOwn(n.tasks, cs)
    && (forall i, j :: 0 <= i < j < |cs| ==> cs[i].socket != cs[j].socket)
  }

  /** Every task an entry lists exists and is aimed at that entry's own websocket. */
  predicate AimedAtOwn(tasks: seq<Task>, cs: seq<Client>)
  {
    forall i, j :: 0 <= i < |cs| && 0 <= j < |cs[i].tasks| ==>
      cs[i].tasks[j] < |tasks| && tasks[cs[i].tasks[j]].target == cs[i].socket
  }

  /** Whether some entry holds websocket `s`. */
  predicate HasSocket(cs: seq<Client>, s: SocketId)
  {
    exists i :: 0 <= i < |cs| && cs[i].socket == s
  }

  /** All entries' task lists, one after the other, in registry order. */
  function Flatten(cs: seq<Client>): (ids: seq<TaskId>)
    ensures |cs| == 0 ==> ids == []
  {
    if cs == [] then [] else Flatten(cs[..|cs| - 1]) + cs[|cs| - 1].tasks
  }

  /** Every entry's websocket exists. */
  predicate SocketsExist(n: Net, cs: seq<Client>)
  {
    forall i :: 0 <= i < |cs| ==> cs[i].socket < |n.wires|
  }

  /**
   * The event loop after the fan-out loop of `write` created, entry by entry
   * in registry order, one task sending `LogEvent(text)` to that entry's
   * websocket.
   */
  function LogSends(n: Net, cs: seq<Client>, text: string): (r: Net)
    requires WellFormed(n) && SocketsExist(n, cs)
    ensures WellFormed(r) && r.wires == n.wires && |r.tasks| == |n.tasks| + |cs|
    decreases |cs|
  {
    if cs == [] then n
    else Spawned(LogSends(n, cs[..|cs| - 1], text), cs[|cs| - 1].socket, LogEvent(text))
  }

  /** The entries after the fan-out loop appended task `base + i` to entry `i`'s list. */
  function WithLogTask(cs: seq<Client>, base: nat): (r: seq<Client>)
    ensures |r| == |cs|
    decreases |cs|
  {
    if cs == [] then []
    else
      var last := cs[|cs| - 1];
      WithLogTask(cs[..|cs| - 1], base) + [last.(tasks := last.tasks + [base + |cs| - 1])]
  }

  /** One more round of the fan-out loop: entry `i`'s websocket gets the next task ... */
  lemma LogSendsStep(n: Net, cs: seq<Client>, text: string, i: nat)
    requires WellFormed(n) && SocketsExist(n, cs) && i < |cs|
    ensures LogSends(n, cs[..i + 1], text) == Spawned(LogSends(n, cs[..i], text), cs[i].socket, LogEvent(text))
  {
    assert cs[..i + 1][..i] == cs[..i];
  }

  /** ... and entry `i` records it. */
  lemma WithLogTaskStep(cs: seq<Client>, base: nat, i: nat)
    requires i < |cs|
    ensures WithLogTask(cs[..i + 1], base) == WithLogTask(cs[..i], base) + [cs[i].(tasks := cs[i].tasks + [base + i])]
  {
    assert cs[..i + 1][..i] == cs[..i];
  }

  /**
   * What the fan-out adds, entry by entry: exactly one new task per entry, in
   * registry order, aimed at that entry's websocket and carrying
   * `LogEvent(text)`; the tasks that existed stay as they were.
   */
  lemma {:induction false} LogSendsAdds(n: Net, cs: seq<Client>, text: string)
    requires WellFormed(n) && SocketsExist(n, cs)
    ensures var r := LogSends(n, cs, text);
      |r.tasks| == |n.tasks| + |cs| && r.tasks[..|n.tasks|] == n.tasks
      && forall j :: 0 <= j < |cs| ==> r.tasks[|n.tasks| + j] == Task(cs[j].socket, LogEvent(text), Pending)
    decreases |cs|
  {
    if cs != [] {
      var init := cs[..|cs| - 1];
      LogSendsAdds(n, init, text);
      var m := LogSends(n, init, text);
      var r := LogSends(n, cs, text);
      assert r.tasks == m.tasks + [Task(cs[|cs| - 1].socket, LogEvent(text), Pending)];
      assert r.tasks[..|n.tasks|] == m.tasks[..|n.tasks|];
      forall j | 0 <= j < |cs|
        ensures r.tasks[|n.tasks| + j] == Task(cs[j].socket, LogEvent(text), Pending)
      {
        if j < |init| {
          assert r.tasks[|n.tasks| + j] == m.tasks[|n.tasks| + j];
        }
      }
    }
  }

  /** Entry `j` of the fanned-out registry is entry `j` of the old one with task `base + j` appended. */
  lemma {:induction false} WithLogTaskAt(cs: seq<Client>, base: nat, j: nat)
    requires j < |cs|
    ensures WithLogTask(cs, base)[j] == cs[j].(tasks := cs[j].tasks + [base + j])
    decreases |cs|
  {
    if j < |cs| - 1 {
      WithLogTaskAt(cs[..|cs| - 1], base, j);
    }
  }

  /** The entries after each task list was reset to `[]`. */
  function Emptied(cs: seq<Client>): (r: seq<Client>)
    ensures |r| == |cs|
    ensures forall i :: 0 <= i < |cs| ==> r[i].socket == cs[i].socket && r[i].tasks == []
  {
    seq(|cs|, i requires 0 <= i < |cs| => cs[i].(tasks := []))
  }

  /**
   * `connected_clients.remove(entry)`: drops the first entry holding websocket
   * `s`, or is None (Python raises ValueError) when no entry holds it.
   */
  function RemoveFirst(cs: seq<Client>, s: SocketId): (r: Option<seq<Client>>)
    ensures r.None? <==> !HasSocket(cs, s)
    ensures r.Some? ==> |r.value| == |cs| - 1
  {
    if cs == [] then None
    else if cs[0].socket == s then Some(cs[1..])
    else
      match RemoveFirst(cs[1..], s)
      case None =>
        assert forall i :: 1 <= i < |cs| ==> cs[i] == cs[1..][i - 1];
        None
      case Some(rest) =>
        assert cs[1..][0] == cs[1];
        Some([cs[0]] + rest)
  }

  /** The entry `RemoveFirst` drops is the first one holding `s`, and every other entry stays, in order. */
  lemma {:induction false} RemoveFirstAt(cs: seq<Client>, s: SocketId, k: nat)
    requires k < |cs| && cs[k].socket == s
    requires forall j :: 0 <= j < k ==> cs[j].socket != s
    ensures RemoveFirst(cs, s) == Some(cs[..k] + cs[k + 1..])
  {
    if k > 0 {
      assert cs[0].socket != s;
      assert forall j :: 0 <= j < k - 1 ==> cs[1..][j] == cs[j + 1];
      RemoveFirstAt(cs[1..], s, k - 1);
      assert RemoveFirst(cs, s) == Some([cs[0]] + RemoveFirst(cs[1..], s).value);
      var rest := cs[1..][..k - 1] + cs[1..][k..];
      forall i | 0 <= i < |cs| - 1
        ensures ([cs[0]] + rest)[i] == (cs[..k] + cs[k + 1..])[i]
      {
        if i == 0 {
        } else if i < k {
          assert rest[i - 1] == cs[i];
        } else {
          assert rest[i - 1] == cs[i + 1];
        }
      }
      assert [cs[0]] + rest == cs[..k] + cs[k + 1..];
    } else {
      assert cs[..0] + cs[1..] == cs[1..];
    }
  }

  /** A write's fan-out keeps the registry in agreement with the event loop. */
  lemma FanoutKeepsRegistered(n: Net, cs: seq<Client>, text: string)
    requires WellFormed(n) && Registered(n, cs)
    ensures Registered(LogSends(n, cs, text), WithLogTask(cs, |n.tasks|))
  {
    var r, ds := LogSends(n, cs, text), WithLogTask(cs, |n.tasks|);
    forall i | 0 <= i < |cs| ensures ds[i] == cs[i].(tasks := cs[i].tasks + [|n.tasks| + i]) {
      WithLogTaskAt(cs, |n.tasks|, i);
    }
    forall i, j | 0 <= i < |ds| && 0 <= j < |ds[i].tasks|
      ensures ds[i].tasks[j] < |r.tasks| && r.tasks[ds[i].tasks[j]].target == ds[i].socket
    {
      FanoutTaskTarget(n, cs, text, i, j);
    }
  }

  /** One task of one entry after the fan-out, old or new, is aimed at that entry's websocket. */
  lemma FanoutTaskTarget(n: Net, cs: seq<Client>, text: string, i: nat, j: nat)
    requires WellFormed(n) && Registered(n, cs)
    requires i < |cs| && j <= |cs[i].tasks|
    ensures var r, t := LogSends(n, cs, text), (cs[i].tasks + [|n.tasks| + i])[j];
      t < |r.tasks| && r.tasks[t].target == cs[i].socket
  {
    var r := LogSends(n, cs, text);
    LogSendsAdds(n, cs, text);
    if j < |cs[i].tasks| {
      assert r.tasks[cs[i].tasks[j]] == r.tasks[..|n.tasks|][cs[i].tasks[j]];
    }
  }

  /**
   * Removing the entry a session appended finds exactly that entry, as long as
   * no earlier entry holds the same websocket, and restores the registry.
   */
  lemma {:induction false} RemoveAppended(cs: seq<Client>, c: Client)
    requires !HasSocket(cs, c.socket)
    ensures RemoveFirst(cs + [c], c.socket) == Some(cs)
  {
    if cs != [] {
      assert (cs + [c])[1..] == cs[1..] + [c];
      assert !HasSocket(cs[1..], c.socket) by {
        forall i | 0 <= i < |cs[1..]| ensures cs[1..][i].socket != c.socket {
          assert cs[1..][i] == cs[i + 1];
        }
      }
      RemoveAppended(cs[1..], c);
      assert cs == [cs[0]] + cs[1..];
    }
  }

  /** Every task of every entry occurs in `Flatten`. */
  lemma {:induction false} FlattenHas(cs: seq<Client>, i: nat, j: nat)
    requires i < |cs| && j < |cs[i].tasks|
    ensures cs[i].tasks[j] in Flatten(cs)
    decreases |cs|
  {
    var init := cs[..|cs| - 1];
    if i < |cs| - 1 {
      FlattenHas(init, i, j);
      assert init[i] == cs[i];
    }
  }

  /** Conversely, every id the drain gathers is listed by some entry. */
  lemma {:induction false} FlattenFrom(cs: seq<Client>, k: nat)
    requires k < |Flatten(cs)|
    ensures exists i, j :: 0 <= i < |cs| && 0 <= j < |cs[i].tasks| && cs[i].tasks[j] == Flatten(cs)[k]
    decreases |cs|
  {
    var init := cs[..|cs| - 1];
    if k < |Flatten(init)| {
      FlattenFrom(init, k);
      var i, j :| 0 <= i < |init| && 0 <= j < |init[i].tasks| && init[i].tasks[j] == Flatten(init)[k];
      assert cs[i] == init[i];
    } else {
      assert cs[|cs| - 1].tasks[k - |Flatten(init)|] == Flatten(cs)[k];
    }
  }

  /**
   * After `drain`, no task that any entry held is still pending: each one
   * was delivered, or failed because its websocket had closed.
   */
  lemma DrainSettles(n: Net, cs: seq<Client>)
    requires WellFormed(n) && Registered(n, cs)
    ensures forall i, j :: 0 <= i < |cs| && 0 <= j < |cs[i].tasks| ==>
      !Gathered(n, Flatten(cs)).tasks[cs[i].tasks[j]].state.Pending?
  {
    forall i, j | 0 <= i < |cs| && 0 <= j < |cs[i].tasks|
      ensures !Gathered(n, Flatten(cs)).tasks[cs[i].tasks[j]].state.Pending?
    {
      FlattenHas(cs, i, j);
      GatherTask(n, Flatten(cs), cs[i].tasks[j]);
    }
  }

  /** Once drained, the registry holds no task: a second `drain` gathers nothing. */
  lemma {:induction false} FlattenEmptied(cs: seq<Client>)
    ensures Flatten(Emptied(cs)) == []
    decreases |cs|
  {
    if cs != [] {
      var init := cs[..|cs| - 1];
      FlattenEmptied(init);
      assert Emptied(cs)[..|cs| - 1] == Emptied(init);
    }
  }

  /** A prefix one entry longer holds `s` iff the shorter one does or the new entry does. */
  lemma HasSocketGrow(cs: seq<Client>, k: nat, s: SocketId)
    requires 0 < k <= |cs|
    ensures HasSocket(cs[..k], s) <==> HasSocket(cs[..k - 1], s) || cs[k - 1].socket == s
  {
    var pre, cur := cs[..k - 1], cs[..k];
    if HasSocket(cur, s) && cs[k - 1].socket != s {
      var i :| 0 <= i < k && cur[i].socket == s;
      assert pre[i].socket == s;
    }
    if HasSocket(pre, s) {
      var i :| 0 <= i < k - 1 && pre[i].socket == s;
      assert cur[i].socket == s;
    }
    if cs[k - 1].socket == s {
      assert cur[k - 1].socket == s;
    }
  }

  /** The tasks listed for websockets other than `s` deliver nothing to `s`. */
  lemma {:induction false} FlattenElsewhere(cs: seq<Client>, tasks: seq<Task>, s: SocketId)
    requires AimedAtOwn(tasks, cs) && !HasSocket(cs, s)
    ensures AimedElsewhere(tasks, Flatten(cs), s)
    decreases |cs|
  {
    if cs != [] {
      var init := cs[..|cs| - 1];
      FlattenElsewhere(init, tasks, s);
      assert cs[|cs| - 1].socket != s;
    }
  }

  /** All the lists after a fan-out: those before it, then the last entry's list and its new id. */
  lemma {:induction false} FlattenFanoutLast(cs: seq<Client>, base: nat)
    requires cs != []
    ensures Flatten(WithLogTask(cs, base))
         == Flatten(WithLogTask(cs[..|cs| - 1], base)) + (cs[|cs| - 1].tasks + [base + |cs| - 1])
  {
    var ws := WithLogTask(cs, base);
    assert ws[..|ws| - 1] == WithLogTask(cs[..|cs| - 1], base);
  }

  /** The fan-out changes no entry's websocket. */
  lemma {:induction false} FanoutKeepsSockets(cs: seq<Client>, base: nat, s: SocketId)
    ensures HasSocket(WithLogTask(cs, base), s) <==> HasSocket(cs, s)
  {
    var ws := WithLogTask(cs, base);
    if HasSocket(cs, s) {
      var i :| 0 <= i < |cs| && cs[i].socket == s;
      WithLogTaskAt(cs, base, i);
      assert ws[i].socket == s;
    }
    if HasSocket(ws, s) {
      var i :| 0 <= i < |ws| && ws[i].socket == s;
      WithLogTaskAt(cs, base, i);
      assert cs[i].socket == s;
    }
  }

  /** After a fan-out the entries' lists still name tasks aimed at their own websockets. */
  lemma {:induction false} FanoutAimedAtOwn(tasks: seq<Task>, after: seq<Task>, cs: seq<Client>, payload: Json)
    requires |tasks| + |cs| <= |after| && after[..|tasks|] == tasks
    requires forall j :: 0 <= j < |cs| ==> after[|tasks| + j] == Task(cs[j].socket, payload, Pending)
    requires AimedAtOwn(tasks, cs)
    ensures AimedAtOwn(after, WithLogTask(cs, |tasks|))
  {
    var ws := WithLogTask(cs, |tasks|);
    forall i | 0 <= i < |ws| ensures ws[i] == cs[i].(tasks := cs[i].tasks + [|tasks| + i]) {
      WithLogTaskAt(cs, |tasks|, i);
    }
    forall i, j | 0 <= i < |cs| && 0 <= j < |cs[i].tasks| ensures after[cs[i].tasks[j]] == tasks[cs[i].tasks[j]] {
      assert after[..|tasks|][cs[i].tasks[j]] == after[cs[i].tasks[j]];
    }
  }

  /** Appending the id of a pending task aimed at `s` that is not yet listed adds its frame. */
  lemma {:induction false} DeliveryAppendNew(tasks: seq<Task>, ids: seq<TaskId>, id: TaskId, s: SocketId)
    requires id < |tasks| && tasks[id].state.Pending? && tasks[id].target == s && id !in ids
    ensures Delivery(tasks, ids + [id], s) == Delivery(tasks, ids, s) + [JsonFrame(tasks[id].payload)]
  {
    assert (ids + [id])[..|ids|] == ids;
  }

  /** The fan-out's last entry holds `s`: only its list and its new task reach `s`. */
  lemma {:induction false} FanoutDrainHolder(tasks: seq<Task>, after: seq<Task>, cs: seq<Client>, payload: Json, s: SocketId)
    requires cs != [] && cs[|cs| - 1].socket == s
    requires |tasks| + |cs| <= |after| && after[..|tasks|] == tasks
    requires forall j :: 0 <= j < |cs| ==> after[|tasks| + j] == Task(cs[j].socket, payload, Pending)
    requires AimedAtOwn(tasks, cs)
    requires forall i, j :: 0 <= i < j < |cs| ==> cs[i].socket != cs[j].socket
    ensures Delivery(after, Flatten(WithLogTask(cs, |tasks|)), s)
         == Delivery(tasks, Flatten(cs), s) + [JsonFrame(payload)]
  {
    var base, init, c := |tasks|, cs[..|cs| - 1], cs[|cs| - 1];
    var last := base + |cs| - 1;
    assert !HasSocket(init, s);
    FanoutAimedAtOwn(tasks, after, init, payload);
    FanoutKeepsSockets(init, base, s);
    FlattenElsewhere(WithLogTask(init, base), after, s);
    FlattenFanoutLast(cs, base);
    DeliveryDropPrefix(after, Flatten(WithLogTask(init, base)), c.tasks + [last], s);
    assert IdsBelow(c.tasks, base);
    assert last !in c.tasks;
    DeliveryAppendNew(after, c.tasks, last, s);
    assert after == tasks + after[base..];
    DeliveryExtend(tasks, after[base..], c.tasks, s);
    FlattenElsewhere(init, tasks, s);
    DeliveryDropPrefix(tasks, Flatten(init), c.tasks, s);
  }

  /**
   * The fan-out's last entry holds another websocket: neither its list nor its
   * new task reaches `s`, so what reaches `s` is decided by the entries before it.
   */
  lemma {:induction false} FanoutDrainOther(tasks: seq<Task>, after: seq<Task>, cs: seq<Client>, payload: Json, s: SocketId, extra: seq<Frame>)
    requires cs != [] && cs[|cs| - 1].socket != s
    requires |tasks| + |cs| <= |after| && after[..|tasks|] == tasks
    requires after[|tasks| + |cs| - 1] == Task(cs[|cs| - 1].socket, payload, Pending)
    requires AimedAtOwn(tasks, cs)
    requires Delivery(after, Flatten(WithLogTask(cs[..|cs| - 1], |tasks|)), s)
          == Delivery(tasks, Flatten(cs[..|cs| - 1]), s) + extra
    ensures Delivery(after, Flatten(WithLogTask(cs, |tasks|)), s) == Delivery(tasks, Flatten(cs), s) + extra
  {
    var base, init, c := |tasks|, cs[..|cs| - 1], cs[|cs| - 1];
    var ids := c.tasks + [base + |cs| - 1];
    forall j | 0 <= j < |c.tasks| ensures tasks[c.tasks[j]].target != s && after[c.tasks[j]] == tasks[c.tasks[j]] {
      assert c.tasks[j] < base && tasks[c.tasks[j]].target == c.socket;
      assert after[..base][c.tasks[j]] == after[c.tasks[j]];
    }
    assert AimedElsewhere(after, ids, s);
    FlattenFanoutLast(cs, base);
    DeliveryDropSuffix(after, Flatten(WithLogTask(init, base)), ids, s);
    DeliveryDropSuffix(tasks, Flatten(init), c.tasks, s);
  }

  /**
   * What draining after a fan-out delivers to websocket `s`: what the entries'
   * earlier tasks would have delivered, then, if some entry holds `s`, exactly
   * one frame carrying the fan-out's payload.
   */
  lemma {:induction false} FanoutDrainDelivery(tasks: seq<Task>, after: seq<Task>, cs: seq<Client>, payload: Json, s: SocketId)
    requires |tasks| + |cs| <= |after| && after[..|tasks|] == tasks
    requires forall j :: 0 <= j < |cs| ==> after[|tasks| + j] == Task(cs[j].socket, payload, Pending)
    requires AimedAtOwn(tasks, cs)
    requires forall i, j :: 0 <= i < j < |cs| ==> cs[i].socket != cs[j].socket
    ensures Delivery(after, Flatten(WithLogTask(cs, |tasks|)), s)
         == Delivery(tasks, Flatten(cs), s) + (if HasSocket(cs, s) then [JsonFrame(payload)] else [])
    decreases |cs|
  {
    if cs == [] {
      assert !HasSocket(cs, s);
    } else {
      var base, init, c := |tasks|, cs[..|cs| - 1], cs[|cs| - 1];
      HasSocketGrow(cs, |cs|, s);
      assert cs[..|cs|] == cs;
      if c.socket == s {
        FanoutDrainHolder(tasks, after, cs, payload, s);
      } else {
        FanoutDrainDelivery(tasks, after, init, payload, s);
        FanoutDrainOther(tasks, after, cs, payload, s, if HasSocket(init, s) then [JsonFrame(payload)] else []);
      }
    }
  }

  /**
   * A non-blank write followed by `drain`: every registered websocket that is
   * still open receives what the entries' earlier pending tasks hold for it,
   * then exactly one `LogEvent(text)` frame; an unregistered websocket
   * receives nothing, and a closed one nothing at all.
   */
  lemma WriteThenDrain(n: Net, cs: seq<Client>, text: string)
    requires WellFormed(n) && Registered(n, cs)
    ensures var m := Gathered(LogSends(n, cs, text), Flatten(WithLogTask(cs, |n.tasks|)));
      |m.wires| == |n.wires|
      && forall s :: 0 <= s < |n.wires| ==>
           m.wires[s] == Wire(n.wires[s].frames
                                + (if n.wires[s].closed then []
                                   else Delivery(n.tasks, Flatten(cs), s)
                                        + (if HasSocket(cs, s) then [JsonFrame(LogEvent(text))] else [])),
                              n.wires[s].closed)
    ensures forall s :: 0 <= s < |n.wires| && !HasSocket(cs, s) ==> Delivery(n.tasks, Flatten(cs), s) == []
  {
    forall s | 0 <= s < |n.wires|
      ensures Gathered(LogSends(n, cs, text), Flatten(WithLogTask(cs, |n.tasks|))).wires[s]
           == Wire(n.wires[s].frames
                     + (if n.wires[s].closed then []
                        else Delivery(n.tasks, Flatten(cs), s)
                             + (if HasSocket(cs, s) then [JsonFrame(LogEvent(text))] else [])),
                   n.wires[s].closed)
    {
      WriteThenDrainAt(n, cs, text, s);
    }
    forall s | 0 <= s < |n.wires| && !HasSocket(cs, s)
      ensures Delivery(n.tasks, Flatten(cs), s) == []
    {
      FlattenElsewhere(cs, n.tasks, s);
      DeliveryElsewhere(n.tasks, Flatten(cs), s);
    }
  }

  /** `WriteThenDrain` for one websocket. */
  lemma WriteThenDrainAt(n: Net, cs: seq<Client>, text: string, s: SocketId)
    requires WellFormed(n) && Registered(n, cs) && s < |n.wires|
    ensures Gathered(LogSends(n, cs, text), Flatten(WithLogTask(cs, |n.tasks|))).wires[s]
         == Wire(n.wires[s].frames
                   + (if n.wires[s].closed then []
                      else Delivery(n.tasks, Flatten(cs), s)
                           + (if HasSocket(cs, s) then [JsonFrame(LogEvent(text))] else [])),
                 n.wires[s].closed)
  {
    var n1 := LogSends(n, cs, text);
    LogSendsAdds(n, cs, text);
    GatherFrames(n1, Flatten(WithLogTask(cs, |n.tasks|)), s);
    FanoutDrainDelivery(n.tasks, n1.tasks, cs, LogEvent(text), s);
  }

  /** The message of the `ValueError` that `list.remove` raises. */
  const NotInList := "list.remove(x): x not in list"

  /** One more entry's list, in the order `drain` visits the entries. */
  lemma FlattenStep(cs: seq<Client>, i: nat)
    requires i < |cs|
    ensures Flatten(cs[..i + 1]) == Flatten(cs[..i]) + cs[i].tasks
  {
    assert cs[..i + 1][..i] == cs[..i];
  }

  /** Emptied entries agree with any later state of the loop that keeps the websockets. */
  lemma EmptiedRegistered(n: Net, m: Net, cs: seq<Client>)
    requires Registered(n, cs) && |m.wires| == |n.wires|
    ensures Registered(m, Emptied(cs))
  {
  }

  /** `connected_clients`, shared by both writers and every session. */
  class Registry {
    var clients: seq<Client>

    constructor ()
      ensures clients == []
    {
      clients := [];
    }

    /** `connected_clients.append(entry)` */
    method Append(c: Client)
      modifies this
      ensures clients == old(clients) + [c]
    {
      clients := clients + [c];
    }

    /** `connected_clients.remove(entry)`: a linear search for the first matching entry. */
    method Remove(s: SocketId) returns (result: Outcome<string>)
      modifies this
      ensures RemoveFirst(old(clients), s).None? ==>
                result == Fail(NotInList) && clients == old(clients)
      ensures RemoveFirst(old(clients), s).Some? ==>
                result == Pass && clients == RemoveFirst(old(clients), s).value
    {
      var k := 0;
      while k < |clients| && clients[k].socket != s
        invariant 0 <= k <= |clients|
        invariant forall j :: 0 <= j < k ==> clients[j].socket != s
      {
        k := k + 1;
      }
      if k == |clients| {
        result := Fail(NotInList);
      } else {
        RemoveFirstAt(clients, s, k);
        clients := clients[..k] + clients[k + 1..];
        result := Pass;
      }
    }
  }

  /**
   * The `for client in self.connected_clients` loop of `write`: one
   * `create_task(client["websocket"].send_json(LogEvent(message)))` per
   * entry, in order, each task appended to that entry's list.
   */
  method FanOut(runtime: Runtime, cs: seq<Client>, message: string) returns (updated: seq<Client>)
    requires runtime.Valid() && SocketsExist(runtime.Snapshot(), cs)
    modifies runtime
    ensures runtime.Valid()
    ensures runtime.Snapshot() == LogSends(old(runtime.Snapshot()), cs, message)
    ensures updated == WithLogTask(cs, |old(runtime.tasks)|)
  {
    ghost var n0 := runtime.Snapshot();
    assert cs[..0] == [];
    var event := LogEvent(message);
    updated := [];
    var i := 0;
    while i < |cs|
      invariant 0 <= i <= |cs|
      invariant runtime.Valid() && runtime.wires == n0.wires
      invariant runtime.Snapshot() == LogSends(n0, cs[..i], message)
      invariant updated == WithLogTask(cs[..i], |n0.tasks|)
    {
      LogSendsStep(n0, cs, message, i);
      WithLogTaskStep(cs, |n0.tasks|, i);
      var id := runtime.CreateTask(cs[i].socket, event);
      updated := updated + [cs[i].(tasks := cs[i].tasks + [id])];
      i := i + 1;
    }
    assert cs[..i] == cs;
  }

  /** `WebsocketWriter`: a tee over one of the process's output streams. */
  class Writer {
    const registry: Registry
    const runtime: Runtime
    /** `filepath`; None and the empty string both mean "no log file". */
    const path: Option<string>
    /** Everything passed on to the original stream, one entry per write. */
    var forwarded: seq<string>
    /** Every append made to the log file at `path`, in order. */
    var logFile: seq<string>
    /** How many times the original stream was flushed. */
    var flushes: nat

    constructor (registry: Registry, runtime: Runtime, path: Option<string>)
      requires runtime.Valid() && Registered(runtime.Snapshot(), registry.clients)
      ensures Valid()
      ensures this.registry == registry && this.runtime == runtime && this.path == path
      ensures forwarded == [] && logFile == [] && flushes == 0
    {
      this.registry, this.runtime, this.path := registry, runtime, path;
      forwarded, logFile, flushes := [], [], 0;
    }

    /** `if self.filepath:`, Python's truth value of an optional string. */
    predicate HasLogFile()
      reads this
    {
      path.Some? && path.value != ""
    }

    ghost predicate Valid()
      reads this, registry, runtime
    {
      runtime.Valid() && Registered(runtime.Snapshot(), registry.clients)
    }

    /**
     * `write(message)`. `inLoop` says whether the writing code runs on the
     * event loop's thread: if not, `create_task` raises before the first
     * entry gets a task, the exception is swallowed, and nothing is fanned out.
     */
    method Write(message: string, inLoop: bool)
      requires Valid()
      modifies this`forwarded, this`logFile, registry, runtime
      ensures Valid()
      ensures forwarded == old(forwarded) + [message]
      ensures logFile == if HasLogFile() then old(logFile) + [message] else old(logFile)
      ensures if Strip(message) != "" && inLoop then
                runtime.Snapshot() == LogSends(old(runtime.Snapshot()), old(registry.clients), message)
                && registry.clients == WithLogTask(old(registry.clients), |old(runtime.tasks)|)
              else
                runtime.Snapshot() == old(runtime.Snapshot()) && registry.clients == old(registry.clients)
    {
      forwarded := forwarded + [message];
      if HasLogFile() {
        logFile := logFile + [message];
      }
      if Strip(message) != "" && inLoop {
        FanoutKeepsRegistered(runtime.Snapshot(), registry.clients, message);
        var updated := FanOut(runtime, registry.clients, message);
        registry.clients := updated;
      }
    }

    /** `flush()`: flushes the original stream and nothing else. */
    method Flush()
      modifies this`flushes
      ensures flushes == old(flushes) + 1
    {
      flushes := flushes + 1;
    }

    /**
     * `drain()`: for every entry, in registry order, gathers its tasks and
     * resets its list to `[]`.
     */
    method Drain()
      requires Valid()
      modifies registry, runtime
      ensures Valid()
      ensures runtime.Snapshot() == Gathered(old(runtime.Snapshot()), Flatten(old(registry.clients)))
      ensures registry.clients == Emptied(old(registry.clients))
    {
      ghost var n0, cs0 := runtime.Snapshot(), registry.clients;
      var i := 0;
      while i < |registry.clients|
        invariant 0 <= i <= |registry.clients| == |cs0|
        invariant forall j :: 0 <= j < i ==> registry.clients[j] == Client(cs0[j].socket, [])
        invariant forall j :: i <= j < |cs0| ==> registry.clients[j] == cs0[j]
        invariant runtime.Valid() && |runtime.tasks| == |n0.tasks| && |runtime.wires| == |n0.wires|
        invariant runtime.Snapshot() == Gathered(n0, Flatten(cs0[..i]))
      {
        var c := registry.clients[i];
        FlattenStep(cs0, i);
        GatherConcat(n0, Flatten(cs0[..i]), c.tasks);
        runtime.Gather(c.tasks);
        registry.clients := registry.clients[i := Client(c.socket, [])];
        i := i + 1;
      }
      assert cs0[..i] == cs0;
      assert registry.clients == Emptied(cs0);
      EmptiedRegistered(n0, runtime.Snapshot(), cs0);
    }
  }
}
