/**
 How channels end.  The write task of a stream that has reached its relay stops only
 after a failed socket write, or once every sender is gone and everything its channel
 accepted has been written; so a stream that the peer has closed, and this side has not
 removed before, ends complete.  Module TunnelHalfClose deals with those it has.
 */
module TunnelEnds {
  import opened Frames
  import opened History
  import opened Streams
  import opened Pipes
  import opened Tunnel
  import opened TunnelInvariant

  /** The socket has refused a chunk. */
  predicate Failed(c: Chan) {
    c.task.Stopped? && c.task.cut.Some?
  }

  /** `din` is what this process has read. */
  ghost predicate EndOk(h: Half, din: seq<Frame>, id: Id) {
    (StageOf(din, id) == Closed ==> id !in h.recv.reg)
    && (id in h.recv.chans ==> ChanEndOk(h, din, id))
  }

  ghost predicate ChanEndOk(h: Half, din: seq<Frame>, id: Id)
    requires id in h.recv.chans
  {
    var c := h.recv.chans[id];
    (c.link == PeerClosed ==> ParkedFor(h.recv, id) == [])
    && (id in h.relays && c.task.Stopped? && !Failed(c) ==>
         c.link != Linked && (c.link == PeerClosed ==> c.done == ChunksOf(din, id)))
  }

  ghost predicate EndOf(s: Session, side: Side, id: Id) {
    EndOk(HalfOf(s, side), HalfOf(s, Peer(side)).out.delivered, id)
  }

  ghost predicate EndsOk(s: Session) {
    forall side: Side, id: Id :: EndOf(s, side, id)
  }

  /** What the channel of a stream may go through without its end coming into question. */
  predicate Undisturbed(h: Half, h': Half, id: Id) {
    (id in h'.recv.reg ==> id in h.recv.reg)
    && (id in h'.recv.chans ==> ChanUndisturbed(h, h', id))
  }

  predicate ChanUndisturbed(h: Half, h': Half, id: Id)
    requires id in h'.recv.chans
  {
    var c' := h'.recv.chans[id];
    (c'.link == PeerClosed ==> ParkedFor(h'.recv, id) == [])
    && (id in h'.relays && c'.task.Stopped? && !Failed(c') ==>
         id in h.relays && id in h.recv.chans
         && var c := h.recv.chans[id];
            c.task == c'.task && c.done == c'.done && (c'.link in {c.link, OwnerClosed, Wiped} || c.link == Linked)
            && (c'.link == Linked ==> c.link == Linked))
  }

  lemma UndisturbedOk(h: Half, h': Half, din: seq<Frame>, id: Id)
    requires EndOk(h, din, id) && Undisturbed(h, h', id)
    ensures EndOk(h', din, id)
  {
  }

  // ── Steps ───────────────────────────────────────────────────────────────────

  lemma RegisterEnds(h: Half, din: seq<Frame>, id: Id, i: Id)
    requires EndOk(h, din, i) && StageOf(din, id) != Closed && id !in h.relays
    ensures EndOk(h.(recv := Register(h.recv, id)), din, i)
  {
  }

  /** Steps in which a handler gives its stream up. */
  lemma ReceiverEnds(s: Session, id: Id, a: HandlerAct, i: Id)
    requires CanHandler(s, id, a) && StreamOk(s, id) && (a.AbortClose? || a.WriteFailure?)
    requires EndOf(s, Client, i)
    ensures EndOf(DoHandler(s, id, a), Client, i)
  {
    assert id !in s.client.relays;
    UndisturbedOk(s.client, DoHandler(s, id, a).client, s.server.out.delivered, i);
  }

  lemma HandlerEnds(s: Session, id: Id, a: HandlerAct, i: Id)
    requires Inv(s) && CanHandler(s, id, a) && EndOf(s, Client, i)
    ensures EndOf(DoHandler(s, id, a), Client, i)
  {
    assert StreamOk(s, id);
    if a.RegisterSelf? {
      Cross(s, id);
      RegisterEnds(s.client, s.server.out.delivered, id, i);
    } else if a.AbortClose? || a.WriteFailure? {
      ReceiverEnds(s, id, a, i);
    } else {
      assert DoHandler(s, id, a).client.recv == s.client.recv;
      UndisturbedOk(s.client, DoHandler(s, id, a).client, s.server.out.delivered, i);
    }
  }

  lemma RelayEnds(h: Half, din: seq<Frame>, id: Id, a: RelayAct, i: Id)
    requires CanRelay(h, id, a) && EndOk(h, din, i)
    ensures EndOk(DoRelay(h, id, a), din, i)
  {
    UndisturbedOk(h, DoRelay(h, id, a), din, i);
  }

  /** The only step that ends a task in peace finds its queue empty and nothing parked for it. */
  lemma TaskEnds(h: Half, din: seq<Frame>, id: Id, a: TaskAct, i: Id)
    requires CanTask(h.recv, id, a) && ChanOk(h.recv, din, id) && EndOk(h, din, i)
    ensures EndOk(h.(recv := DoTask(h.recv, id, a)), din, i)
  {
    var h' := h.(recv := DoTask(h.recv, id, a));
    if a.SeeEnd? && i == id {
      assert Got(h.recv, id) == h.recv.chans[id].done;
    } else {
      UndisturbedOk(h, h', din, i);
    }
  }

  lemma UnlinkAllEnds(h: Half, din: seq<Frame>, i: Id)
    requires EndOk(h, din, i) && ChanOk(h.recv, din, i)
    ensures EndOk(h.(recv := UnlinkAll(h.recv)), din, i)
  {
  }

  /** The chunks of a stream the peer has closed are all there are. */
  lemma NoMoreChunks(s: Session, side: Side, f: Frame, i: Id)
    requires Inv(s) && HalfOf(s, Peer(side)).out.wire != [] && f == HalfOf(s, Peer(side)).out.wire[0]
    requires StageOf(HalfOf(s, Peer(side)).out.delivered, i) == Closed
    ensures ChunksOf(HalfOf(s, Peer(side)).out.delivered + [f], i) == ChunksOf(HalfOf(s, Peer(side)).out.delivered, i)
  {
    NextFrame(s, Peer(side), i);
    Append(HalfOf(s, Peer(side)).out.delivered, f, i);
  }

  /** A frame is taken off the wire and dispatched. */
  lemma FrameEnds(h: Half, din: seq<Frame>, f: Frame, i: Id)
    requires EndOk(h, din, i) && ChanOk(h.recv, din, i) && h.recv.parked.None?
    requires StageOf(din, i) == Closed ==> ChunksOf(din + [f], i) == ChunksOf(din, i)
    requires StageOf(din + [f], i) == Closed ==> StageOf(din, i) == Closed || f == Close(i)
    ensures !f.Close? ==> EndOk(h, din + [f], i)
    ensures f.Data? ==> EndOk(h.(recv := Route(h.recv, f.id, f.bytes)), din + [f], i)
    ensures f.Close? ==> EndOk(h.(recv := Unlink(h.recv, f.id, PeerClosed)), din + [f], i)
  {
  }

  lemma TakeEnds(s: Session, side: Side, i: Id)
    requires Inv(s) && CanRead(s, side, TakeMessage) && EndOf(s, side, i)
    ensures EndOf(DoRead(s, side, TakeMessage), side, i)
  {
    var h, p := HalfOf(s, side), HalfOf(s, Peer(side)).out;
    var f := p.wire[0];
    assert ChanOk(h.recv, p.delivered, i);
    if StageOf(p.delivered, i) == Closed { NoMoreChunks(s, side, f, i); }
    FrameEnds(h, p.delivered, f, i);
    TakenHalf(s, side);
  }

  /** Which of these the dispatch is. */
  lemma TakenHalf(s: Session, side: Side)
    requires CanRead(s, side, TakeMessage)
    ensures var h, p, s' := HalfOf(s, side), HalfOf(s, Peer(side)).out, DoRead(s, side, TakeMessage);
            var f := p.wire[0];
            HalfOf(s', Peer(side)).out.delivered == p.delivered + [f]
            && HalfOf(s', side) == if f.Data? then h.(recv := Route(h.recv, f.id, f.bytes))
                                   else if f.Close? then h.(recv := Unlink(h.recv, f.id, PeerClosed)) else h
  {
  }

  lemma ReaderEnds(s: Session, side: Side, a: ReaderAct, i: Id)
    requires Inv(s) && CanRead(s, side, a) && EndOf(s, side, i)
    ensures EndOf(DoRead(s, side, a), side, i)
  {
    var h, din := HalfOf(s, side), HalfOf(s, Peer(side)).out.delivered;
    assert ChanOk(h.recv, din, i);
    if a.TakeMessage? {
      TakeEnds(s, side, i);
    } else if a.SweepStreams? {
      UnlinkAllEnds(h, din, i);
    } else {
      UndisturbedOk(h, HalfOf(DoRead(s, side, a), side), din, i);
    }
  }

  lemma OpeningEnds(s: Session, a: OpeningAct, i: Id)
    requires Inv(s) && CanOpen(s, a) && EndOf(s, Server, i)
    ensures EndOf(DoOpen(s, a), Server, i)
  {
    assert StreamOk(s, s.opening.id);
    if a.RegisterStream? {
      Cross(s, s.opening.id);
      RegisterEnds(s.server, s.client.out.delivered, s.opening.id, i);
    } else {
      UndisturbedOk(s.server, DoOpen(s, a).server, s.client.out.delivered, i);
    }
  }

  lemma WriterEnds(s: Session, side: Side, a: WriterAct, i: Id)
    requires Inv(s) && CanWrite(HalfOf(s, side).out, s.cfg.wireCap, a) && EndOf(s, side, i)
    ensures EndOf(DoWriter(s, side, a), side, i)
  {
    var h, din := HalfOf(s, side), HalfOf(s, Peer(side)).out.delivered;
    assert ChanOk(h.recv, din, i);
    UnlinkAllEnds(h, din, i);
  }

  /** The process a step happens in. */
  function Home(a: Action): Side {
    match a
    case HandlerStep(_, _) => Client
    case RelayStep(side, _, _) => side
    case TaskStep(side, _, _) => side
    case WriterStep(side, _) => side
    case ReaderStep(side, _) => side
    case OpeningStep(_) => Server
    case ConnStep(_) => Client
  }

  /** Elsewhere a step changes at most what is on the wire. */
  lemma AbroadEnds(s: Session, a: Action, i: Id)
    requires Can(s, a) && EndOf(s, Peer(Home(a)), i)
    ensures EndOf(Do(s, a), Peer(Home(a)), i)
  {
    var side := Peer(Home(a));
    assert HalfOf(Do(s, a), side).recv == HalfOf(s, side).recv;
    assert HalfOf(Do(s, a), side).relays == HalfOf(s, side).relays;
    assert HalfOf(Do(s, a), Home(a)).out.delivered == HalfOf(s, Home(a)).out.delivered;
  }

  lemma HomeEnds(s: Session, a: Action, i: Id)
    requires Inv(s) && Can(s, a) && EndOf(s, Home(a), i)
    ensures EndOf(Do(s, a), Home(a), i)
  {
    match a
    case HandlerStep(id, h) => HandlerEnds(s, id, h, i);
    case RelayStep(side, id, r) => RelayEnds(HalfOf(s, side), HalfOf(s, Peer(side)).out.delivered, id, r, i);
    case TaskStep(side, id, t) =>
      assert ChanOk(HalfOf(s, side).recv, HalfOf(s, Peer(side)).out.delivered, id);
      TaskEnds(HalfOf(s, side), HalfOf(s, Peer(side)).out.delivered, id, t, i);
    case WriterStep(side, w) => WriterEnds(s, side, w, i);
    case ReaderStep(side, d) => ReaderEnds(s, side, d, i);
    case OpeningStep(o) => OpeningEnds(s, o, i);
    case ConnStep(c) =>
      assert ChanOk(s.client.recv, s.server.out.delivered, i);
      UnlinkAllEnds(s.client, s.server.out.delivered, i);
  }

  lemma StepEnds(s: Session, a: Action)
    requires Inv(s) && EndsOk(s) && Can(s, a)
    ensures EndsOk(Do(s, a))
  {
    forall side: Side, i: Id ensures EndOf(Do(s, a), side, i) {
      assert EndOf(s, side, i);
      if side == Home(a) { HomeEnds(s, a, i); } else { AbroadEnds(s, a, i); }
    }
  }

  lemma {:induction false} RunEnds(s: Session, run: seq<Action>)
    requires Inv(s) && EndsOk(s) && Runs(s, run)
    ensures EndsOk(After(s, run))
    decreases |run|
  {
    if run != [] {
      StepEnds(s, run[0]);
      StepKeeps(s, run[0]);
      RunEnds(Do(s, run[0]), run[1..]);
    }
  }

  lemma ReachableEnds(s: Session)
    requires Reachable(s)
    ensures EndsOk(s)
  {
    var cfg, run :| Runs(Start(cfg), run) && s == After(Start(cfg), run);
    StartOk(cfg);
    RunEnds(Start(cfg), run);
  }

  /** After CLOSE a well-formed history says nothing more about a stream. */
  lemma {:induction false} ClosedIsFinal(a: seq<Frame>, b: seq<Frame>, id: Id)
    requires a <= b && StageOf(a, id) == Closed && StageOf(b, id) != Bad
    ensures StageOf(b, id) == Closed && ChunksOf(b, id) == ChunksOf(a, id)
    decreases |b|
  {
    if |a| < |b| {
      assert b == Init(b) + [Last(b)];
      Append(Init(b), Last(b), id);
      ClosedIsFinal(a, Init(b), id);
    } else {
      assert a == b;
    }
  }
}
