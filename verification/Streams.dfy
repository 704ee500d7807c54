/**
 The receiving side of a process: the stream registry, the bounded per-stream
 channels it hands out, and the chunk the reader loop is holding while it waits
 for room in a channel (core-lib/src/session.rs).

 A channel outlives its registry entry: `reg` is the set of ids whose sender is
 in the registry's map, `chans` keeps the channel of every id ever registered.
 `link` records how a sender left the map.
 */
module Streams {
  import opened Basics
  import opened Frames
  import opened History

  const CHANNEL_CAPACITY := 32

  datatype Link = Linked | PeerClosed | OwnerClosed | Wiped

  /** Who holds the receiving end of a channel, and the chunk being written out. */
  datatype Task =
    | Held                                 // still with the handler or relay that registered the stream
    | Ready                                // a write task waits for the next chunk
    | Writing(data: Bytes, n: nat)         // the write task has put n bytes of data on the socket
    | Stopped(cut: Option<Bytes>, n: nat)  // receiver dropped; cut is the chunk whose write failed after n bytes

  /** A per-stream channel; `done` lists the chunks written out completely. */
  datatype Chan = Chan(link: Link, queue: seq<Bytes>, task: Task, done: seq<Bytes>) {
    predicate Receiving() { !task.Stopped? }

    /** The chunk the write task took last and did not finish. */
    function InHand(): seq<Bytes> {
      match task
      case Writing(data, _) => [data]
      case Stopped(cut, _) => Opt(cut)
      case _ => []
    }

    /** Every byte that reached the socket. */
    function Written(): Bytes {
      Flat(done) + match task
                   case Writing(data, n) => if n <= |data| then data[..n] else data
                   case Stopped(Some(data), n) => if n <= |data| then data[..n] else data
                   case _ => []
    }
  }

  datatype Parked = Parked(id: Id, data: Bytes)

  datatype Recv = Recv(reg: set<Id>, chans: map<Id, Chan>, parked: Option<Parked>)

  const EMPTY_RECV := Recv({}, map[], None)

  /** `register`: a new channel replaces whatever the map held for `id`. */
  function Register(r: Recv, id: Id): Recv {
    r.(reg := r.reg + {id}, chans := r.chans[id := Chan(Linked, [], Held, [])])
  }

  /** `close`: the sender leaves the map; a missing id is no error. */
  function Unlink(r: Recv, id: Id, why: Link): Recv {
    if id in r.reg && id in r.chans
    then r.(reg := r.reg - {id}, chans := r.chans[id := r.chans[id].(link := why)])
    else r
  }

  /** `close_all`. */
  function UnlinkAll(r: Recv): Recv {
    r.(reg := {}, chans := map id | id in r.chans :: if id in r.reg then r.chans[id].(link := Wiped) else r.chans[id])
  }

  /** First half of `route`: look the sender up under the lock and clone it. */
  function Route(r: Recv, id: Id, data: Bytes): Recv {
    if id in r.reg then r.(parked := Some(Parked(id, data))) else r
  }

  /** Second half of `route`: the parked send finds room. */
  predicate CanAdmit(r: Recv) {
    r.parked.Some? && r.parked.value.id in r.chans
    && r.chans[r.parked.value.id].Receiving() && |r.chans[r.parked.value.id].queue| < CHANNEL_CAPACITY
  }

  function Admit(r: Recv): Recv
    requires CanAdmit(r)
  {
    var Parked(id, data) := r.parked.value;
    var c := r.chans[id];
    r.(parked := None, chans := r.chans[id := c.(queue := c.queue + [data])])
  }

  /** Second half of `route`, receiver dropped: the send fails and the chunk is lost. */
  predicate CanBounce(r: Recv) {
    r.parked.Some? && r.parked.value.id in r.chans && !r.chans[r.parked.value.id].Receiving()
  }

  function Bounce(r: Recv): Recv
    requires CanBounce(r)
  {
    r.(parked := None)
  }

  /** The receiver moves into a spawned write task. */
  function Spawn(r: Recv, id: Id): Recv {
    if id in r.chans && r.chans[id].task.Held?
    then r.(chans := r.chans[id := r.chans[id].(task := Ready)])
    else r
  }

  /** The receiver is dropped before any write task took it. */
  function DropReceiver(r: Recv, id: Id): Recv {
    if id in r.chans && r.chans[id].task.Held?
    then r.(chans := r.chans[id := r.chans[id].(task := Stopped(None, 0), queue := [])])
    else r
  }

  function ParkedFor(r: Recv, id: Id): seq<Bytes> {
    if r.parked.Some? && r.parked.value.id == id then [r.parked.value.data] else []
  }

  datatype TaskAct = TakeChunk | WriteBytes(k: nat) | WriteFails | SeeEnd

  /** One step of the loop `while let Ok(data) = data_rx.recv().await { write_all(&data) }`. */
  predicate CanChan(c: Chan, a: TaskAct) {
    match a
    case TakeChunk => c.task.Ready? && c.queue != []
    case WriteBytes(k) => c.task.Writing? && c.task.n + k <= |c.task.data| && (k > 0 || c.task.data == [])
    case WriteFails => c.task.Writing?
    case SeeEnd => c.task.Ready? && c.queue == []
  }

  /** The end is seen only when every sender is gone and the queue has been drained. */
  predicate CanTask(r: Recv, id: Id, a: TaskAct) {
    id in r.chans && CanChan(r.chans[id], a) && (a.SeeEnd? ==> id !in r.reg && ParkedFor(r, id) == [])
  }

  function ChanAfter(c: Chan, a: TaskAct): Chan
    requires CanChan(c, a)
  {
    match a
    case TakeChunk => c.(queue := c.queue[1..], task := Writing(c.queue[0], 0))
    case WriteBytes(k) =>
      if c.task.n + k < |c.task.data| then c.(task := Writing(c.task.data, c.task.n + k))
      else c.(task := Ready, done := c.done + [c.task.data])
    case WriteFails => c.(task := Stopped(Some(c.task.data), c.task.n), queue := [])
    case SeeEnd => c.(task := Stopped(None, 0))
  }

  function DoTask(r: Recv, id: Id, a: TaskAct): Recv
    requires CanTask(r, id, a)
  {
    r.(chans := r.chans[id := ChanAfter(r.chans[id], a)])
  }

  // ── What a receiving side always satisfies ──────────────────────────────────

  /** Every chunk the receiving side has accepted for `id`, oldest first. */
  function Got(r: Recv, id: Id): seq<Bytes>
    requires id in r.chans
  {
    var c := r.chans[id];
    c.done + c.InHand() + c.queue + ParkedFor(r, id)
  }

  /**
   `delivered` is what the reader loop has taken off the wire.  A channel whose
   sender was not removed by this side itself has received every DATA chunk of
   its stream; any other channel has received a prefix of them.
   */
  ghost predicate ChanOk(r: Recv, delivered: seq<Frame>, id: Id) {
    (id in r.reg ==> id in r.chans)
    && (r.parked.Some? && r.parked.value.id == id ==> id in r.chans)
    && (id in r.chans ==>
         var c := r.chans[id];
         (id in r.reg <==> c.link == Linked)
         && |c.queue| <= CHANNEL_CAPACITY
         && (c.task.Writing? ==> c.task.n < |c.task.data| || (c.task.n == 0 && c.task.data == []))
         && (c.task.Stopped? ==> c.queue == [] && (c.task.cut.Some? ==> c.task.n <= |c.task.cut.value|))
         && (c.task.Held? ==> c.done == [])
         && (c.link == PeerClosed ==> StageOf(delivered, id) == Closed)
         && c.done + c.InHand() <= ChunksOf(delivered, id)
         && (c.Receiving() ==> Got(r, id) <= ChunksOf(delivered, id))
         && (c.Receiving() && c.link in {Linked, PeerClosed} ==> Got(r, id) == ChunksOf(delivered, id)))
  }

  ghost predicate RecvOk(r: Recv, delivered: seq<Frame>) {
    forall id: Id :: ChanOk(r, delivered, id)
  }

  lemma RegisterOk(r: Recv, delivered: seq<Frame>, id: Id)
    requires RecvOk(r, delivered)
    requires id !in r.chans && ChunksOf(delivered, id) == []
    ensures RecvOk(Register(r, id), delivered)
  {
    forall i: Id ensures ChanOk(Register(r, id), delivered, i) {
      assert ChanOk(r, delivered, i);
    }
  }

  lemma UnlinkOk(r: Recv, delivered: seq<Frame>, id: Id, why: Link)
    requires RecvOk(r, delivered)
    requires why in {OwnerClosed, Wiped} || (why == PeerClosed && StageOf(delivered, id) == Closed)
    ensures RecvOk(Unlink(r, id, why), delivered)
  {
    forall i: Id ensures ChanOk(Unlink(r, id, why), delivered, i) {
      assert ChanOk(r, delivered, i);
    }
  }

  lemma UnlinkAllOk(r: Recv, delivered: seq<Frame>)
    requires RecvOk(r, delivered)
    ensures RecvOk(UnlinkAll(r), delivered)
  {
    forall i: Id ensures ChanOk(UnlinkAll(r), delivered, i) {
      assert ChanOk(r, delivered, i);
    }
  }

  /** After `close_all` no sender is in the map; channels, queues and write tasks stay as they are. */
  lemma UnlinkAllMeans(r: Recv)
    ensures var r' := UnlinkAll(r);
            && r'.reg == {} && r'.parked == r.parked && r'.chans.Keys == r.chans.Keys
            && forall id :: id in r.chans ==>
                 r'.chans[id] == r.chans[id].(link := if id in r.reg then Wiped else r.chans[id].link)
  {
  }

  /** The reader takes a frame other than DATA: nothing moves in the channels. */
  lemma DeliverOtherOk(r: Recv, delivered: seq<Frame>, f: Frame)
    requires RecvOk(r, delivered) && !f.Data?
    requires forall id: Id :: StageOf(delivered + [f], id) != Bad
    ensures RecvOk(r, delivered + [f])
  {
    forall i: Id ensures ChanOk(r, delivered + [f], i) {
      assert ChanOk(r, delivered, i);
      Append(delivered, f, i);
      assert StageOf(delivered + [f], i) != Bad;
    }
  }

  /** The reader takes DATA(id) and starts `route`. */
  lemma RouteOk(r: Recv, delivered: seq<Frame>, id: Id, data: Bytes)
    requires RecvOk(r, delivered) && r.parked == None
    requires StageOf(delivered + [Data(id, data)], id) != Bad
    ensures RecvOk(Route(r, id, data), delivered + [Data(id, data)])
  {
    var f, r' := Data(id, data), Route(r, id, data);
    forall i: Id ensures ChanOk(r', delivered + [f], i) {
      assert ChanOk(r, delivered, i);
      Append(delivered, f, i);
      if i in r.chans {
        assert Got(r', i) == Got(r, i) + if i == id && id in r.reg then [data] else [];
      }
    }
  }

  lemma AdmitOk(r: Recv, delivered: seq<Frame>)
    requires RecvOk(r, delivered) && CanAdmit(r)
    ensures RecvOk(Admit(r), delivered)
  {
    forall i: Id ensures ChanOk(Admit(r), delivered, i) {
      assert ChanOk(r, delivered, i);
      if i in r.chans {
        assert Got(Admit(r), i) == Got(r, i);
      }
    }
  }

  lemma BounceOk(r: Recv, delivered: seq<Frame>)
    requires RecvOk(r, delivered) && CanBounce(r)
    ensures RecvOk(Bounce(r), delivered)
  {
    forall i: Id ensures ChanOk(Bounce(r), delivered, i) {
      assert ChanOk(r, delivered, i);
      assert i in r.chans && r.chans[i].Receiving() ==> Got(Bounce(r), i) == Got(r, i);
    }
  }

  lemma SpawnOk(r: Recv, delivered: seq<Frame>, id: Id)
    requires RecvOk(r, delivered)
    ensures RecvOk(Spawn(r, id), delivered)
  {
    forall i: Id ensures ChanOk(Spawn(r, id), delivered, i) {
      assert ChanOk(r, delivered, i);
    }
  }

  lemma DropReceiverOk(r: Recv, delivered: seq<Frame>, id: Id)
    requires RecvOk(r, delivered)
    ensures RecvOk(DropReceiver(r, id), delivered)
  {
    forall i: Id ensures ChanOk(DropReceiver(r, id), delivered, i) {
      assert ChanOk(r, delivered, i);
    }
  }

  /** A write task moves chunks along without dropping or reordering any while it lives. */
  lemma TaskMoves(c: Chan, a: TaskAct)
    requires CanChan(c, a)
    requires c.task.Writing? ==> c.task.n <= |c.task.data|
    ensures var c' := ChanAfter(c, a);
            c.Receiving() && c'.link == c.link && |c'.queue| <= |c.queue| && !c'.task.Held?
            && c'.done + c'.InHand() <= c.done + c.InHand() + c.queue
            && (c'.Receiving() ==> c'.done + c'.InHand() + c'.queue == c.done + c.InHand() + c.queue)
            && (c'.task.Writing? ==> c'.task.n < |c'.task.data| || (c'.task.n == 0 && c'.task.data == []))
            && (c'.task.Stopped? ==> c'.queue == [] && (c'.task.cut.Some? ==> c'.task.n <= |c'.task.cut.value|))
  {
    match a
    case TakeChunk => assert c.queue == [c.queue[0]] + c.queue[1..];
    case _ =>
  }

  lemma TaskOk(r: Recv, delivered: seq<Frame>, id: Id, a: TaskAct)
    requires RecvOk(r, delivered) && CanTask(r, id, a)
    ensures RecvOk(DoTask(r, id, a), delivered)
  {
    var r' := DoTask(r, id, a);
    assert ChanOk(r, delivered, id);
    var c, c' := r.chans[id], r'.chans[id];
    TaskMoves(c, a);
    forall i: Id ensures ChanOk(r', delivered, i) {
      assert ChanOk(r, delivered, i);
      if i == id {
        assert c.done + c.InHand() + c.queue <= Got(r, id) <= ChunksOf(delivered, id);
        PrefixTrans(c'.done + c'.InHand(), c.done + c.InHand() + c.queue, ChunksOf(delivered, id));
        assert c'.Receiving() ==> Got(r', id) == Got(r, id);
      }
    }
  }

  /** The bytes on the socket are a prefix of the bytes that came off the wire. */
  lemma WrittenIsPrefix(r: Recv, delivered: seq<Frame>, id: Id)
    requires ChanOk(r, delivered, id) && id in r.chans
    ensures r.chans[id].Written() <= Flat(ChunksOf(delivered, id))
  {
    var c := r.chans[id];
    var whole := c.done + c.InHand();
    FlatPrefix(whole, ChunksOf(delivered, id));
    FlatConcat(c.done, c.InHand());
    if c.InHand() != [] { FlatOne(c.InHand()[0]); }
    assert c.Written() <= Flat(whole);
  }
}
