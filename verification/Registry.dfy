/**
 The registry and its channels as the objects they are (core-lib/src/session.rs):
 a map from stream id to the sending end of a bounded channel.  Each method is
 proved to do to the objects what module Streams says happens to their values.
 */
module Registry {
  import opened Basics
  import opened Frames
  import opened Streams

  /** `channel::bounded::<Vec<u8>>(32)`, with the write task that empties it. */
  class DataChannel {
    var queue: seq<Bytes>
    var task: Task
    var done: seq<Bytes>
    ghost var link: Link

    constructor ()
      ensures Value() == Chan(Linked, [], Held, [])
    {
      queue, task, done, link := [], Held, [], Linked;
    }

    ghost function Value(): Chan
      reads this
    {
      Chan(link, queue, task, done)
    }

    /** `tx.send(data).await`, as far as it gets without waiting. */
    method Send(data: Bytes) returns (blocked: bool)
      modifies this
      ensures blocked == old(Value().Receiving() && |queue| >= CHANNEL_CAPACITY)
      ensures Value() == old(Value()).(queue := if !blocked && old(Value().Receiving()) then old(queue) + [data]
                                                else old(queue))
    {
      blocked := !task.Stopped? && |queue| >= CHANNEL_CAPACITY;
      if !blocked && !task.Stopped? {
        queue := queue + [data];
      }
    }

    /** One turn of the write task while the channel still has a sender. */
    method Turn(a: TaskAct)
      modifies this
      ensures Value() == Turned(old(Value()), a)
    {
      var c := Turned(Chan(Linked, queue, task, done), a);
      queue, task, done := c.queue, c.task, c.done;
    }

    /**
     The write task of a channel all of whose senders are gone: it still drains the
     queue.  The socket accepts `accepts` more bytes and then fails.
     */
    method Drain(accepts: nat)
      requires task.Ready?
      modifies this
      ensures task.Stopped? && queue == [] && link == old(link)
      ensures var all := Flat(old(queue));
              Value().Written() == old(Value().Written()) + if accepts < |all| then all[..accepts] else all
      ensures done + Value().InHand() <= old(done + queue)
      ensures task.cut.None? <==> |Flat(old(queue))| <= accepts
    {
      var left: nat := accepts;
      ghost var start, before := queue, done;
      ghost var taken := 0;
      while queue != []
        invariant task.Ready? && link == old(link)
        invariant 0 <= taken <= |start| && queue == start[taken..]
        invariant done == before + start[..taken]
        invariant left + |Flat(start[..taken])| == accepts
        decreases |queue|
      {
        var data := queue[0];
        queue := queue[1..];
        if left < |data| {
          CutShort(before, start, taken, left);
          CutPrefix(before, start, taken);
          task := Stopped(Some(data), left);
          queue := [];
          return;
        }
        NextChunk(before, start, taken);
        left := left - |data|;
        done := done + [data];
        taken := taken + 1;
      }
      assert start[..taken] == start;
      FlatConcat(before, start);
      task := Stopped(None, 0);
    }
  }

  lemma NextChunk(before: seq<Bytes>, start: seq<Bytes>, taken: nat)
    requires taken < |start|
    ensures before + start[..taken] + [start[taken]] == before + start[..taken + 1]
    ensures |Flat(start[..taken + 1])| == |Flat(start[..taken])| + |start[taken]|
  {
    assert start[..taken + 1] == start[..taken] + [start[taken]];
    FlatConcat(start[..taken], [start[taken]]);
    FlatOne(start[taken]);
  }

  /** The bytes of the first `k` chunks, then the next chunk, then the rest. */
  lemma SplitFlat(chunks: seq<Bytes>, k: nat)
    requires k < |chunks|
    ensures Flat(chunks) == Flat(chunks[..k]) + (chunks[k] + Flat(chunks[k + 1..]))
  {
    var front, back := chunks[..k], chunks[k..];
    assert chunks == front + back;
    FlatConcat(front, back);
    assert back[0] == chunks[k] && back[1..] == chunks[k + 1..];
  }

  lemma CutBytes(before: Bytes, head: Bytes, chunk: Bytes, rest: Bytes, left: nat)
    requires left < |chunk|
    ensures (before + head) + chunk[..left] == before + (head + (chunk + rest))[..left + |head|]
  {
  }

  /** Writing stops `left` bytes into chunk `taken`. */
  lemma CutShort(before: seq<Bytes>, start: seq<Bytes>, taken: nat, left: nat)
    requires taken < |start| && left < |start[taken]|
    ensures var accepts := left + |Flat(start[..taken])|;
            accepts < |Flat(start)|
            && Flat(before + start[..taken]) + start[taken][..left] == Flat(before) + Flat(start)[..accepts]
  {
    SplitFlat(start, taken);
    FlatConcat(before, start[..taken]);
    CutBytes(Flat(before), Flat(start[..taken]), start[taken], Flat(start[taken + 1..]), left);
  }

  lemma CutPrefix(before: seq<Bytes>, start: seq<Bytes>, taken: nat)
    requires taken < |start|
    ensures (before + start[..taken]) + [start[taken]] <= before + start
  {
    assert start == start[..taken] + [start[taken]] + start[taken + 1..];
  }

  // ── A send that waits ───────────────────────────────────────────────────────

  /** A turn that is not enabled changes nothing; the end is not seen while a send waits. */
  function Turned(c: Chan, a: TaskAct): Chan {
    if CanChan(c, a) && !a.SeeEnd? then ChanAfter(c, a) else c
  }

  /** `tx.send(data).await` while the write task takes these turns: the channel, and whether the send has returned. */
  function WaitChan(c: Chan, data: Bytes, turns: seq<TaskAct>): (Chan, bool)
    decreases |turns|
  {
    if !c.Receiving() then (c, true)
    else if |c.queue| < CHANNEL_CAPACITY then (c.(queue := c.queue + [data]), true)
    else if turns == [] then (c, false)
    else WaitChan(Turned(c, turns[0]), data, turns[1..])
  }

  /** The same as steps of a parked reader and a write task. */
  function Wait(r: Recv, turns: seq<TaskAct>): Recv
    decreases |turns|
  {
    if CanAdmit(r) then Admit(r)
    else if CanBounce(r) then Bounce(r)
    else if r.parked.None? || turns == [] then r
    else if CanTask(r, r.parked.value.id, turns[0]) then Wait(DoTask(r, r.parked.value.id, turns[0]), turns[1..])
    else Wait(r, turns[1..])
  }

  /** A waiting send is exactly such a sequence of steps. */
  lemma {:induction false} WaitIsSteps(r: Recv, id: Id, data: Bytes, turns: seq<TaskAct>)
    requires id in r.chans && r.parked == Some(Parked(id, data))
    ensures var (c, done) := WaitChan(r.chans[id], data, turns);
            Wait(r, turns) == r.(chans := r.chans[id := c], parked := if done then None else r.parked)
    decreases |turns|
  {
    var c := r.chans[id];
    if c.Receiving() && |c.queue| >= CHANNEL_CAPACITY && turns != [] {
      var r1 := r.(chans := r.chans[id := Turned(c, turns[0])]);
      assert r.chans[id := c] == r.chans;
      WaitIsSteps(r1, id, data, turns[1..]);
      assert r1 == if CanTask(r, id, turns[0]) then DoTask(r, id, turns[0]) else r;
    } else {
      assert r.chans[id := c] == r.chans;
    }
  }

  /** However long a send waits, the channel keeps to the data read off the wire, in order. */
  lemma {:induction false} WaitOk(r: Recv, delivered: seq<Frame>, turns: seq<TaskAct>)
    requires RecvOk(r, delivered)
    ensures RecvOk(Wait(r, turns), delivered)
    decreases |turns|
  {
    if CanAdmit(r) {
      AdmitOk(r, delivered);
    } else if CanBounce(r) {
      BounceOk(r, delivered);
    } else if r.parked.Some? && turns != [] {
      var id := r.parked.value.id;
      if CanTask(r, id, turns[0]) {
        TaskOk(r, delivered, id, turns[0]);
        WaitOk(DoTask(r, id, turns[0]), delivered, turns[1..]);
      } else {
        WaitOk(r, delivered, turns[1..]);
      }
    }
  }

  class StreamRegistry {
    var inner: map<Id, DataChannel>
    ghost var all: map<Id, DataChannel>  // every channel handed out, by id

    ghost predicate Valid()
      reads this
    {
      inner.Keys <= all.Keys
      && (forall id :: id in inner ==> inner[id] == all[id])
      && (forall i, j :: i in all && j in all && i != j ==> all[i] != all[j])
    }

    ghost function Value(): Recv
      reads this, all.Values
      requires Valid()
    {
      Recv(inner.Keys, map id | id in all :: all[id].Value(), None)
    }

    constructor ()
      ensures Valid() && Value() == EMPTY_RECV
    {
      inner, all := map[], map[];
    }

    method Register(id: Id) returns (rx: DataChannel)
      requires Valid()
      modifies this
      ensures Valid() && fresh(rx) && id in inner && inner[id] == rx
      ensures Value() == Streams.Register(old(Value()), id)
    {
      ghost var before := Value();
      rx := new DataChannel();
      inner := inner[id := rx];
      all := all[id := rx];
      assert Value().chans == before.chans[id := rx.Value()];
    }

    /** `route`, while the stream's write task takes these turns; `returned` unless it still waits then. */
    method Route(id: Id, data: Bytes, turns: seq<TaskAct>) returns (returned: bool)
      requires Valid()
      modifies all.Values
      ensures Valid() && inner == old(inner) && all == old(all)
      ensures var r := Wait(Streams.Route(old(Value()), id, data), turns);
              (returned <==> r.parked.None?) && Value() == r.(parked := None)
    {
      returned := true;
      ghost var before := Value();
      if id in inner {
        var tx := inner[id];
        assert tx == all[id] && tx in all.Values;
        WaitIsSteps(Streams.Route(before, id, data), id, data, turns);
        var i := 0;
        var blocked := tx.Send(data);
        while blocked && i < |turns|
          invariant 0 <= i <= |turns|
          invariant forall k :: k in all && k != id ==> all[k].Value() == before.chans[k]
          invariant if blocked
                    then WaitChan(before.chans[id], data, turns) == WaitChan(tx.Value(), data, turns[i..])
                         && tx.Value().Receiving() && |tx.queue| >= CHANNEL_CAPACITY
                    else WaitChan(before.chans[id], data, turns) == (tx.Value(), true)
          decreases |turns| - i
        {
          assert turns[i..][1..] == turns[i + 1..];
          tx.Turn(turns[i]);
          i := i + 1;
          blocked := tx.Send(data);
        }
        returned := !blocked;
        assert Value().chans == before.chans[id := tx.Value()];
      }
    }

    method Close(id: Id, ghost why: Link)
      requires Valid()
      modifies this, all.Values
      ensures Valid() && all == old(all)
      ensures Value() == Unlink(old(Value()), id, why)
    {
      ghost var known := id in inner;
      if known {
        assert all[id] in all.Values;
        all[id].link := why;
      }
      inner := inner - {id};
      assert Value().chans == Unlink(old(Value()), id, why).chans;
    }

    method CloseAll()
      requires Valid()
      modifies this, all.Values
      ensures Valid() && all == old(all) && inner == map[]
      ensures Value() == UnlinkAll(old(Value()))
      ensures forall id :: id in all ==>
                && all[id].queue == old(all[id].queue) && all[id].task == old(all[id].task)
                && all[id].done == old(all[id].done)
    {
      forall id | id in inner {
        all[id].link := Wiped;
      }
      inner := map[];
    }
  }
}
