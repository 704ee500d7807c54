/** What the tunnel promises in every reachable state, whatever the interleaving. */
module TunnelSafety {
  import opened Basics
  import opened Frames
  import opened History
  import opened Streams
  import opened Pipes
  import opened HttpLimits
  import opened Tunnel
  import opened TunnelInvariant
  import opened TunnelEnds

  // ── Delivery ────────────────────────────────────────────────────────────────

  /** Bytes put into DATA frames of stream `id` towards `side`. */
  function Sent(s: Session, side: Side, id: Id): Bytes {
    Flat(ChunksOf(HalfOf(s, Peer(side)).out.pushed, id))
  }

  /** Bytes of the chunk a write task is busy with that are not on the socket yet. */
  function Remaining(c: Chan): Bytes {
    if c.task.Writing? && c.task.n <= |c.task.data| then c.task.data[c.task.n..] else []
  }

  /** Bytes of stream `id` between the write task and the peer's relay, nearest first. */
  function OnTheWay(s: Session, side: Side, id: Id): Bytes
    requires id in HalfOf(s, side).recv.chans
  {
    var r, p := HalfOf(s, side).recv, HalfOf(s, Peer(side)).out;
    (Remaining(r.chans[id]) + Flat(r.chans[id].queue) + Flat(ParkedFor(r, id)))
      + (Flat(ChunksOf(p.wire, id)) + Flat(ChunksOf(Opt(p.hand), id)) + Flat(ChunksOf(p.queue, id)))
  }

  /** In order, without a gap, and nothing from another stream: on every run. */
  lemma DeliveryIsPrefix(s: Session, side: Side, id: Id)
    requires Reachable(s) && id in HalfOf(s, side).recv.chans
    ensures HalfOf(s, side).recv.chans[id].Written() <= Sent(s, side, id)
    ensures id in HalfOf(s, Peer(side)).relays ==>
              HalfOf(s, side).recv.chans[id].Written() <= Flat(HalfOf(s, Peer(side)).relays[id].fed)
  {
    ReachableOk(s);
    var p := HalfOf(s, Peer(side)).out;
    assert ChanOk(HalfOf(s, side).recv, p.delivered, id) && StreamOk(s, id);
    WrittenIsPrefix(HalfOf(s, side).recv, p.delivered, id);
    DeliveredIsPrefix(p, s.cfg.wireCap);
    StagePrefix(p.delivered, p.pushed, id);
    FlatPrefix(ChunksOf(p.delivered, id), ChunksOf(p.pushed, id));
    if id in HalfOf(s, Peer(side)).relays {
      FlatPrefix(ChunksOf(p.pushed, id), HalfOf(s, Peer(side)).relays[id].fed);
    }
  }

  lemma Regroup(a: Bytes, b: Bytes, c: Bytes, d: Bytes, e: Bytes)
    ensures ((a + (b + c)) + d) + e == (a + b) + ((c + d) + e)
  {
  }

  lemma HandBytes(c: Chan)
    requires c.Receiving() && (c.task.Writing? ==> c.task.n <= |c.task.data|)
    ensures exists x: Bytes :: c.Written() == Flat(c.done) + x && Flat(c.InHand()) == x + Remaining(c)
  {
    if c.task.Writing? {
      var x := c.task.data[..c.task.n];
      FlatOne(c.task.data);
      assert c.task.data == x + c.task.data[c.task.n..];
      assert c.Written() == Flat(c.done) + x;
    } else {
      assert c.Written() == Flat(c.done) + [] && Flat(c.InHand()) == [] + Remaining(c);
    }
  }

  lemma GotBytes(r: Recv, id: Id)
    requires id in r.chans && r.chans[id].Receiving()
    requires r.chans[id].task.Writing? ==> r.chans[id].task.n <= |r.chans[id].task.data|
    ensures Flat(Got(r, id)) ==
            r.chans[id].Written() + ((Remaining(r.chans[id]) + Flat(r.chans[id].queue)) + Flat(ParkedFor(r, id)))
  {
    var c, p := r.chans[id], ParkedFor(r, id);
    HandBytes(c);
    var x: Bytes :| c.Written() == Flat(c.done) + x && Flat(c.InHand()) == x + Remaining(c);
    FlatConcat(c.done + c.InHand() + c.queue, p);
    FlatConcat(c.done + c.InHand(), c.queue);
    FlatConcat(c.done, c.InHand());
    Regroup(Flat(c.done), x, Remaining(c), Flat(c.queue), Flat(p));
  }

  lemma TransitBytes(p: Pipe, id: Id)
    requires p.writer.Running? && p.pushed == p.delivered + InTransit(p)
    ensures Flat(ChunksOf(p.pushed, id)) ==
            Flat(ChunksOf(p.delivered, id))
              + (Flat(ChunksOf(p.wire, id)) + Flat(ChunksOf(Opt(p.hand), id)) + Flat(ChunksOf(p.queue, id)))
  {
    ChunksConcat(p.delivered, InTransit(p), id);
    ChunksConcat(p.wire + Opt(p.hand), p.queue, id);
    ChunksConcat(p.wire, Opt(p.hand), id);
    FlatConcat(ChunksOf(p.delivered, id), ChunksOf(InTransit(p), id));
    FlatConcat(ChunksOf(p.wire + Opt(p.hand), id), ChunksOf(p.queue, id));
    FlatConcat(ChunksOf(p.wire, id), ChunksOf(Opt(p.hand), id));
  }

  lemma Assoc(a: Bytes, b: Bytes, c: Bytes)
    ensures (a + b) + c == a + (b + c)
  {
  }

  lemma BytesConserved(r: Recv, p: Pipe, id: Id)
    requires ChanOk(r, p.delivered, id) && id in r.chans && r.chans[id].Receiving()
    requires r.chans[id].link in {Linked, PeerClosed}
    requires p.writer.Running? && p.pushed == p.delivered + InTransit(p)
    ensures Flat(ChunksOf(p.pushed, id)) ==
            r.chans[id].Written()
              + (((Remaining(r.chans[id]) + Flat(r.chans[id].queue)) + Flat(ParkedFor(r, id)))
                 + (Flat(ChunksOf(p.wire, id)) + Flat(ChunksOf(Opt(p.hand), id)) + Flat(ChunksOf(p.queue, id))))
  {
    GotBytes(r, id);
    TransitBytes(p, id);
    Assoc(r.chans[id].Written(), (Remaining(r.chans[id]) + Flat(r.chans[id].queue)) + Flat(ParkedFor(r, id)),
          Flat(ChunksOf(p.wire, id)) + Flat(ChunksOf(Opt(p.hand), id)) + Flat(ChunksOf(p.queue, id)));
  }

  /**
   This side has neither removed the stream itself, nor has its handler given it up,
   nor has its socket refused a chunk.
   */
  predicate Unharmed(h: Half, id: Id) {
    id in h.recv.chans
    && var c := h.recv.chans[id];
       c.link in {Linked, PeerClosed} && (c.Receiving() || (id in h.relays && !Failed(c)))
  }

  /**
   The write task of a stream that this side has not removed ends without a failure only
   after the peer's CLOSE, and then the stream is complete: the socket has every byte ever
   sent, whatever became of the session since, and while the peer's writer lives that is
   every byte the peer's relay read.
   */
  lemma CompleteDelivery(s: Session, side: Side, id: Id)
    requires Reachable(s) && Unharmed(HalfOf(s, side), id) && HalfOf(s, side).recv.chans[id].task.Stopped?
    ensures HalfOf(s, side).recv.chans[id].link == PeerClosed
    ensures HalfOf(s, side).recv.chans[id].Written() == Sent(s, side, id)
    ensures id in HalfOf(s, Peer(side)).relays
    ensures HalfOf(s, Peer(side)).out.writer.Running? ==>
              HalfOf(s, side).recv.chans[id].Written() == Flat(HalfOf(s, Peer(side)).relays[id].fed)
  {
    ReachableOk(s);
    ReachableEnds(s);
    var r, p := HalfOf(s, side).recv, HalfOf(s, Peer(side)).out;
    assert EndOf(s, side, id) && ChanOk(r, p.delivered, id) && StreamOk(s, id);
    DeliveredIsPrefix(p, s.cfg.wireCap);
    ClosedIsFinal(p.delivered, p.pushed, id);
    ClosedHasRelay(s, Peer(side), id);
  }

  /** Who has sent CLOSE has, or had, a relay, and while its writer lives it has sent all that was read. */
  lemma ClosedHasRelay(s: Session, side: Side, id: Id)
    requires Inv(s) && StageOf(HalfOf(s, side).out.pushed, id) == Closed
    ensures id in HalfOf(s, side).relays
    ensures HalfOf(s, side).out.writer.Running? ==>
              ChunksOf(HalfOf(s, side).out.pushed, id) == HalfOf(s, side).relays[id].fed
  {
    assert StreamOk(s, id);
  }

  /** With the write task ended in peace nothing is left on the way. */
  lemma NothingLeft(s: Session, side: Side, id: Id)
    requires Reachable(s) && Unharmed(HalfOf(s, side), id) && HalfOf(s, side).recv.chans[id].task.Stopped?
    requires HalfOf(s, Peer(side)).out.writer.Running?
    ensures OnTheWay(s, side, id) == []
  {
    ReachableOk(s);
    ReachableEnds(s);
    var r, p := HalfOf(s, side).recv, HalfOf(s, Peer(side)).out;
    assert EndOf(s, side, id) && ChanOk(r, p.delivered, id) && StreamOk(s, id);
    CompleteDelivery(s, side, id);
    DeliveredIsPrefix(p, s.cfg.wireCap);
    ClosedIsFinal(p.delivered, p.pushed, id);
    TransitBytes(p, id);
    EmptyTail(Flat(ChunksOf(p.delivered, id)),
              Flat(ChunksOf(p.wire, id)) + Flat(ChunksOf(Opt(p.hand), id)) + Flat(ChunksOf(p.queue, id)));
  }

  lemma EmptyTail(a: Bytes, b: Bytes)
    requires a == a + b
    ensures b == []
  {
    assert |a| == |a| + |b|;
  }

  /**
   Nothing is lost or invented on the way: while the sender's writer lives, the
   receiver's writes have not failed and the receiving side has not removed the
   stream itself, the bytes sent are exactly those written and those still on
   their way.  Neither the peer's CLOSE nor the end of the write task disturbs this.
   */
  lemma Conservation(s: Session, side: Side, id: Id)
    requires Reachable(s) && HalfOf(s, Peer(side)).out.writer.Running?
    requires Unharmed(HalfOf(s, side), id)
    ensures Sent(s, side, id) == HalfOf(s, side).recv.chans[id].Written() + OnTheWay(s, side, id)
  {
    ReachableOk(s);
    var r, p := HalfOf(s, side).recv, HalfOf(s, Peer(side)).out;
    assert ChanOk(r, p.delivered, id) && PipeOk(p, s.cfg.wireCap);
    if r.chans[id].Receiving() {
      BytesConserved(r, p, id);
    } else {
      CompleteDelivery(s, side, id);
      NothingLeft(s, side, id);
    }
  }

  /** What the peer's relay took from its socket and has not queued is all that is missing above. */
  lemma SentIsFed(s: Session, side: Side, id: Id)
    requires Reachable(s) && HalfOf(s, Peer(side)).out.writer.Running? && id in HalfOf(s, Peer(side)).relays
    ensures var relay := HalfOf(s, Peer(side)).relays[id];
            Flat(relay.fed) == Sent(s, side, id) + Flat(Unsent(relay.pc))
  {
    ReachableOk(s);
    assert StreamOk(s, id);
    FlatConcat(ChunksOf(HalfOf(s, Peer(side)).out.pushed, id), Unsent(HalfOf(s, Peer(side)).relays[id].pc));
  }

  lemma ClosedEndsWithClose(frames: seq<Frame>, id: Id)
    requires StageOf(frames, id) == Closed
    ensures FramesOf(frames, id) != [] && Last(FramesOf(frames, id)) == Close(id)
  {
    StageMeansGrammar(frames, id);
  }

  /** A relay that has finished, its writer alive, has queued all it read and then CLOSE as its last frame. */
  lemma EndedRelayHasClosed(s: Session, side: Side, id: Id)
    requires Reachable(s) && HalfOf(s, side).out.writer.Running?
    requires id in HalfOf(s, side).relays && HalfOf(s, side).relays[id].pc.Ended?
    ensures var p := HalfOf(s, side).out;
            ChunksOf(p.pushed, id) == HalfOf(s, side).relays[id].fed
            && FramesOf(p.pushed, id) != [] && Last(FramesOf(p.pushed, id)) == Close(id)
  {
    ReachableOk(s);
    assert StreamOk(s, id);
    ClosedEndsWithClose(HalfOf(s, side).out.pushed, id);
  }

  /** What a plain HTTP stream writes upstream starts with its request: headers, then body. */
  lemma RequestGoesFirst(s: Session, id: Id)
    requires Reachable(s) && id in s.handlers && s.handlers[id].kind.Plain? && id in s.server.recv.chans
    ensures var written, request := s.server.recv.chans[id].Written(), s.handlers[id].kind.request;
            written <= request || request <= written
  {
    ReachableOk(s);
    assert StreamOk(s, id);
    var written, request := s.server.recv.chans[id].Written(), s.handlers[id].kind.request;
    DeliveryIsPrefix(s, Server, id);
    if id in s.client.relays {
      var fed := s.client.relays[id].fed;
      assert Flat(fed) == request + Flat(fed[1..]);
      if |written| <= |request| {
        assert written == Flat(fed)[..|written|] == request[..|written|];
      } else {
        assert request == Flat(fed)[..|request|] == written[..|request|];
      }
    } else {
      NoChunks(s, id);
    }
  }

  lemma NoChunks(s: Session, id: Id)
    requires Inv(s) && id !in s.client.relays
    ensures ChunksOf(s.client.out.pushed, id) == []
  {
    assert StreamOk(s, id);
  }

  /**
   The way between two processes is faithful: what a reader has taken is a prefix of what
   its peer queued, and while the peer's writer lives the rest is on the way, in order.
   */
  lemma WireIsFaithful(s: Session, side: Side)
    requires Reachable(s)
    ensures HalfOf(s, side).out.delivered <= HalfOf(s, side).out.pushed
    ensures HalfOf(s, side).out.writer.Running? ==>
              HalfOf(s, side).out.pushed == HalfOf(s, side).out.delivered + InTransit(HalfOf(s, side).out)
  {
    ReachableOk(s);
    DeliveredIsPrefix(HalfOf(s, side).out, s.cfg.wireCap);
  }

  // ── The registration race ───────────────────────────────────────────────────

  /** Once a peer has sent data on a stream, the stream is registered here. */
  lemma DataMeansRegistered(s: Session, side: Side, id: Id)
    requires Inv(s) && ChunksOf(HalfOf(s, Peer(side)).out.pushed, id) != []
    ensures id in HalfOf(s, side).recv.chans
  {
    assert StreamOk(s, id);
    Cross(s, id);
    if StageOf(HalfOf(s, Peer(side)).out.pushed, id) == Fresh { FreshIsSilent(HalfOf(s, Peer(side)).out.pushed, id); }
  }

  lemma NextDataIsRegistered(s: Session, side: Side)
    requires Inv(s) && HalfOf(s, Peer(side)).out.wire != [] && HalfOf(s, Peer(side)).out.wire[0].Data?
    ensures var id, r := HalfOf(s, Peer(side)).out.wire[0].id, HalfOf(s, side).recv;
            id in r.chans && (id in r.reg || r.chans[id].link in {OwnerClosed, Wiped})
  {
    var p := HalfOf(s, Peer(side)).out;
    var f := p.wire[0];
    NextFrame(s, Peer(side), f.id);
    DeliverOk(p, s.cfg.wireCap);
    StagePrefix(p.delivered + [f], p.pushed, f.id);
    Append(p.delivered, f, f.id);
    DataMeansRegistered(s, side, f.id);
    assert ChanOk(HalfOf(s, side).recv, p.delivered, f.id);
  }

  /**
   Whenever a reader takes DATA(id) off the wire, its side registered `id` before,
   and the sender is still in the registry unless that side itself removed it.
   */
  lemma NoRegistrationRace(s: Session, side: Side)
    requires Reachable(s) && CanRead(s, side, TakeMessage)
    requires HalfOf(s, Peer(side)).out.wire[0].Data?
    ensures var id, r := HalfOf(s, Peer(side)).out.wire[0].id, HalfOf(s, side).recv;
            id in r.chans && (id in r.reg || r.chans[id].link in {OwnerClosed, Wiped})
  {
    ReachableOk(s);
    NextDataIsRegistered(s, side);
  }

  /** A stream's own task removed it only in its closing step. */
  lemma OwnerClosedMeansDone(s: Session, side: Side, id: Id)
    requires Reachable(s) && id in HalfOf(s, side).recv.chans
    requires HalfOf(s, side).recv.chans[id].link == OwnerClosed
    ensures (id in HalfOf(s, side).relays && HalfOf(s, side).relays[id].pc.Ended?)
            || (side.Client? && id in s.handlers && (s.handlers[id].pc.Failing? || s.handlers[id].pc.Returned?))
  {
    ReachableOk(s);
    assert StreamOk(s, id);
  }

  // ── Frame grammar ───────────────────────────────────────────────────────────

  /** The frames of stream `id`, in order. */
  function FramesOf(frames: seq<Frame>, id: Id): seq<Frame> {
    if frames == [] then []
    else FramesOf(Init(frames), id) + if !Last(frames).Hello? && Last(frames).id == id then [Last(frames)] else []
  }

  /** A prefix of OPEN_ACK(false), or of a head frame, DATA*, CLOSE. */
  ghost predicate Grammatical(frames: seq<Frame>, id: Id) {
    frames == []
    || frames == [OpenAck(id, false)]
    || ((frames[0].Open? || (frames[0].OpenAck? && frames[0].ok))
        && forall i :: 1 <= i < |frames| ==> frames[i].Data? || (frames[i].Close? && i == |frames| - 1))
  }

  /** When one more own frame fits the grammar. */
  lemma GrammarSnoc(before: seq<Frame>, f: Frame, id: Id)
    requires !f.Hello? && f.id == id
    ensures Grammatical(before + [f], id) <==>
            if before == [] then f.Open? || f.OpenAck?
            else Grammatical(before, id) && before != [OpenAck(id, false)] && !Last(before).Close?
                 && (f.Data? || f.Close?)
    ensures before != [] && Grammatical(before, id) && Last(before).Close? ==> |before| > 1
  {
    var own := before + [f];
    assert own[|before|] == f && forall i :: 0 <= i < |before| ==> own[i] == before[i];
    if before != [] && Grammatical(own, id) {
      assert own[0] == before[0];
      assert own[|before| - 1] == Last(before);
    }
  }

  /** What the stage of a stream says of its frames. */
  ghost predicate StageSays(stage: Stage, own: seq<Frame>, id: Id) {
    && (stage == Fresh <==> own == [])
    && (stage == Refused <==> own == [OpenAck(id, false)])
    && (stage == Closed <==> Grammatical(own, id) && |own| > 1 && Last(own).Close?)
    && (stage != Bad <==> Grammatical(own, id))
  }

  lemma AdvanceSays(stage: Stage, own: seq<Frame>, f: Frame, id: Id)
    requires StageSays(stage, own, id) && !f.Hello? && f.id == id
    ensures StageSays(Advance(stage, f, id), own + [f], id)
  {
    Snoc(own, f);
    GrammarSnoc(own, f, id);
  }

  lemma {:induction false} StageMeansGrammar(frames: seq<Frame>, id: Id)
    ensures forall f :: f in FramesOf(frames, id) ==> !f.Hello? && f.id == id
    ensures StageSays(StageOf(frames, id), FramesOf(frames, id), id)
  {
    if frames != [] {
      StageMeansGrammar(Init(frames), id);
      var before, f := FramesOf(Init(frames), id), Last(frames);
      if !f.Hello? && f.id == id {
        AdvanceSays(StageOf(Init(frames), id), before, f, id);
        assert FramesOf(frames, id) == before + [f];
      } else {
        assert FramesOf(frames, id) == before;
      }
    }
  }

  lemma {:induction false} LiveHasAck(frames: seq<Frame>, id: Id)
    requires StageOf(frames, id) == Live || StageOf(frames, id) == Closed
    requires forall f :: f in frames ==> !f.Open?
    ensures OpenAck(id, true) in frames
  {
    assert frames == Init(frames) + [Last(frames)];
    if StageOf(Init(frames), id) != Fresh { LiveHasAck(Init(frames), id); }
  }

  lemma {:induction false} OwnFrameAdvances(frames: seq<Frame>, f: Frame, id: Id)
    requires f in frames && !f.Hello? && f.id == id && StageOf(frames, id) != Bad
    ensures StageOf(frames, id) != Fresh
    ensures f.Close? ==> StageOf(frames, id) == Closed
    ensures f.Data? ==> ChunksOf(frames, id) != []
  {
    assert frames == Init(frames) + [Last(frames)];
    if f in Init(frames) { OwnFrameAdvances(Init(frames), f, id); }
  }

  /** Every run keeps both sides to the grammar, each with its own head frame. */
  lemma FrameGrammar(s: Session, side: Side, id: Id)
    requires Reachable(s)
    ensures var own := FramesOf(HalfOf(s, side).out.pushed, id);
            Grammatical(own, id)
            && (own != [] ==> if side.Client? then own[0].Open? else own[0].OpenAck?)
  {
    ReachableOk(s);
    assert StreamOk(s, id);
    StageMeansGrammar(HalfOf(s, side).out.pushed, id);
    OwnAreFrames(HalfOf(s, side).out.pushed, id);
  }

  lemma {:induction false} OwnAreFrames(frames: seq<Frame>, id: Id)
    ensures forall f :: f in FramesOf(frames, id) ==> f in frames
  {
    if frames != [] { OwnAreFrames(Init(frames), id); }
  }

  /** The client sends nothing but OPEN on a stream before its reader has seen the positive OPEN_ACK. */
  lemma NothingBeforeAck(s: Session, f: Frame)
    requires Reachable(s) && f in s.client.out.pushed && (f.Data? || f.Close?)
    ensures OpenAck(f.id, true) in s.server.out.delivered
  {
    ReachableOk(s);
    assert StreamOk(s, f.id);
    OwnFrameAdvances(s.client.out.pushed, f, f.id);
    VerdictIsAck(s, f.id);
  }

  lemma VerdictIsAck(s: Session, id: Id)
    requires Inv(s) && Verdict(ViewOf(s, id), true)
    ensures OpenAck(id, true) in s.server.out.delivered
  {
    Cross(s, id);
    assert forall f :: f in s.server.out.delivered ==> f in s.server.out.pushed;
    LiveHasAck(s.server.out.delivered, id);
  }

  // ── Acknowledgements ────────────────────────────────────────────────────────

  lemma {:induction false} OpensAreOnce(frames: seq<Frame>)
    requires forall id: Id :: StageOf(frames, id) != Bad
    ensures forall i, j :: 0 <= i < j < |OpenIds(frames)| ==> OpenIds(frames)[i] != OpenIds(frames)[j]
    ensures forall id: Id :: id in OpenIds(frames) ==> StageOf(frames, id) != Fresh
  {
    if frames != [] {
      var before, f := Init(frames), Last(frames);
      assert frames == before + [f];
      forall id: Id ensures StageOf(before, id) != Bad {
        assert StageOf(frames, id) != Bad;
        StagePrefix(before, frames, id);
      }
      OpensAreOnce(before);
      forall id: Id ensures StageOf(frames, id) == Advance(StageOf(before, id), f, id) {}
      if f.Open? {
        assert StageOf(frames, f.id) != Bad;
        assert OpenIds(frames) == OpenIds(before) + [f.id];
      }
    }
  }

  /**
   One OPEN_ACK per OPEN, in the order of the OPENs, whatever mix of connects
   fails: the acks the client has read are a prefix of the OPENs it wrote, no
   stream is opened twice, and while the server's writer lives every OPEN it has
   read is answered or is the one being handled.
   */
  lemma AcksInOrder(s: Session)
    requires Reachable(s)
    ensures AckIds(s.server.out.delivered) <= AckIds(s.server.out.pushed) <= OpenIds(s.client.out.delivered)
                                                                          <= OpenIds(s.client.out.pushed)
    ensures forall i, j :: 0 <= i < j < |OpenIds(s.client.out.pushed)| ==>
                             OpenIds(s.client.out.pushed)[i] != OpenIds(s.client.out.pushed)[j]
    ensures s.server.out.writer.Running? ==>
              AckIds(s.server.out.pushed) + OpeningId(s.opening) == OpenIds(s.client.out.delivered)
  {
    ReachableOk(s);
    Cross(s, 0);
    IdsPrefix(s.server.out.delivered, s.server.out.pushed);
    IdsPrefix(s.client.out.delivered, s.client.out.pushed);
    forall id: Id ensures StageOf(s.client.out.pushed, id) != Bad { assert StreamOk(s, id); }
    OpensAreOnce(s.client.out.pushed);
  }

  // ── Verdicts and replies ────────────────────────────────────────────────────

  /** A handler that got ok = true got it from this session's server, which had registered the stream. */
  lemma VerdictIsSound(s: Session, id: Id)
    requires Reachable(s) && id in s.slots && s.slots[id] == Some(true)
    ensures OpenAck(id, true) in s.server.out.delivered && id in s.server.recv.chans && id in s.server.relays
  {
    ReachableOk(s);
    assert StreamOk(s, id);
    VerdictIsAck(s, id);
    Cross(s, id);
  }

  /** Past the verdict means the verdict was ok. */
  lemma AcceptedNeedsVerdict(s: Session, id: Id)
    requires Reachable(s) && id in s.handlers && Accepted(s.handlers[id].pc)
    ensures id in s.slots && s.slots[id] == Some(true)
  {
    ReachableOk(s);
    assert StreamOk(s, id);
  }

  /** `try_send` never finds the one-shot channel full. */
  lemma SlotIsEmpty(s: Session, id: Id)
    requires Reachable(s) && id in s.pending
    ensures id in s.slots && s.slots[id] == None
  {
    ReachableOk(s);
    assert StreamOk(s, id);
  }

  /** Tunnel bytes reach a local socket only after the success reply (a plain request has none). */
  lemma ReplyComesFirst(s: Session, id: Id)
    requires Reachable(s) && id in s.client.recv.chans && s.client.recv.chans[id].Written() != []
    ensures id in s.handlers && (s.handlers[id].kind.Plain? || s.handlers[id].reply == Success)
  {
    ReachableOk(s);
    assert StreamOk(s, id) && ChanOk(s.client.recv, s.server.out.delivered, id);
  }

  /**
   Who leaves without any reply had been told ok (and lost its local connection or the
   session since), or never queued its OPEN; so a refusal is always passed on.
   */
  lemma SilenceMeansUnsent(s: Session, id: Id)
    requires Reachable(s) && id in s.handlers && s.handlers[id].pc.Returned? && s.handlers[id].reply.NoReply?
    ensures id in s.slots
    ensures s.slots[id] == Some(true) || (s.slots[id] == None && FramesOf(s.client.out.pushed, id) == [])
  {
    ReachableOk(s);
    assert StreamOk(s, id);
    Cross(s, id);
    StageMeansGrammar(s.client.out.pushed, id);
  }

  /** Without a frame queued, exactly the SOCKS5 handlers report the failure; HTTP connections are just dropped. */
  lemma UnsentReply(s: Session, id: Id)
    requires Reachable(s) && id in s.handlers && s.handlers[id].pc.Returned?
    requires FramesOf(s.client.out.pushed, id) == []
    ensures s.handlers[id].reply == if s.handlers[id].kind.Socks? then Failure else NoReply
  {
    ReachableOk(s);
    assert StreamOk(s, id);
    StageMeansGrammar(s.client.out.pushed, id);
  }

  /** With its OPEN queued, a handler that returns without an ok reports the failure, whatever its kind. */
  lemma SentReply(s: Session, id: Id)
    requires Reachable(s) && id in s.handlers && s.handlers[id].pc.Returned?
    requires FramesOf(s.client.out.pushed, id) != [] && id in s.slots && s.slots[id] != Some(true)
    ensures s.handlers[id].reply == Failure
  {
    ReachableOk(s);
    assert StreamOk(s, id);
    if s.handlers[id].reply.NoReply? { SilenceMeansUnsent(s, id); }
  }

  /** A handler that has been told ok, and what becomes of it. */
  predicate Served(h: Handler) {
    h.pc.Replying? || h.pc.SendingFirst? || h.pc.Relaying? || (h.pc.Aborting? && !h.pc.reply)
    || (h.pc.Returned? && h.reply.NoReply?)
  }

  lemma ServedStep(s: Session, a: Action, id: Id)
    requires Inv(s) && Can(s, a) && id in s.handlers && Served(s.handlers[id])
    ensures id in Do(s, a).handlers && Served(Do(s, a).handlers[id])
  {
    assert StreamOk(s, id);
    match a
    case HandlerStep(i, h) => ServedHandler(s, i, h, id);
    case ConnStep(_) =>
    case _ => OthersLeaveHandlers(s, a);
  }

  lemma ServedHandler(s: Session, i: Id, h: HandlerAct, id: Id)
    requires CanHandler(s, i, h) && StreamOk(s, id) && id in s.handlers && Served(s.handlers[id])
    ensures id in DoHandler(s, i, h).handlers && Served(DoHandler(s, i, h).handlers[id])
  {
  }

  /** Once told ok, a handler relays or goes silently: it never reports a failure any more. */
  lemma {:induction false} OkIsNeverFailure(s: Session, run: seq<Action>, id: Id)
    requires Inv(s) && Runs(s, run) && id in s.handlers && Served(s.handlers[id])
    ensures id in After(s, run).handlers && Served(After(s, run).handlers[id])
    ensures After(s, run).handlers[id].reply != Failure
    decreases |run|
  {
    if run == [] {
      assert StreamOk(s, id);
    } else {
      ServedStep(s, run[0], id);
      StepKeeps(s, run[0]);
      OkIsNeverFailure(Do(s, run[0]), run[1..], id);
    }
  }

  /** A handler that can no longer be told ok: its slot's sender is gone and no ok was sent. */
  ghost predicate Doomed(s: Session, id: Id) {
    id in s.handlers
    && var pc := s.handlers[id].pc;
       pc.Aborting? || pc.Failing? || pc.Returned?
       || (pc.AwaitingAck? && id !in s.pending && id in s.slots && s.slots[id] != Some(true))
  }

  /** Only handlers, the client's reader and the keeper touch handlers, pending acks and slots. */
  lemma OthersLeaveHandlers(s: Session, a: Action)
    requires Can(s, a) && (a.RelayStep? || a.TaskStep? || a.WriterStep? || a.OpeningStep? || a.ReaderStep?)
    ensures Do(s, a).handlers == s.handlers
    ensures !a.ReaderStep? ==> Do(s, a).pending == s.pending && Do(s, a).slots == s.slots
  {
  }

  /** The client's reader removes pending acks, and only fills the slot of an ack it removes. */
  lemma ReaderFillsSlots(s: Session, side: Side, d: ReaderAct, id: Id)
    requires CanRead(s, side, d)
    ensures var s' := DoRead(s, side, d);
            s'.pending <= s.pending && s'.slots.Keys >= s.slots.Keys
            && (id !in s.pending && id in s.slots ==> s'.slots[id] == s.slots[id])
  {
  }

  lemma DoomedHandler(s: Session, i: Id, h: HandlerAct, id: Id)
    requires CanHandler(s, i, h) && Doomed(s, id)
    ensures Doomed(DoHandler(s, i, h), id)
  {
  }

  lemma DoomedStep(s: Session, a: Action, id: Id)
    requires Can(s, a) && Doomed(s, id)
    ensures Doomed(Do(s, a), id)
  {
    match a
    case HandlerStep(i, h) => DoomedHandler(s, i, h, id);
    case ReaderStep(side, d) =>
      OthersLeaveHandlers(s, a);
      ReaderFillsSlots(s, side, d, id);
    case ConnStep(_) =>
    case _ => OthersLeaveHandlers(s, a);
  }

  lemma {:induction false} DoomedRun(s: Session, run: seq<Action>, id: Id)
    requires Runs(s, run) && Doomed(s, id)
    ensures Doomed(After(s, run), id)
    decreases |run|
  {
    if run != [] {
      DoomedStep(s, run[0], id);
      DoomedRun(Do(s, run[0]), run[1..], id);
    }
  }

  /**
   Clearing the map of pending acks, by the reader or by `MuxConn::close`, turns every
   waiter whose slot is still empty into a failure: on no continuation does it report
   success or let a tunnel byte through.
   */
  lemma ClearedWaitersFail(s: Session, a: Action, run: seq<Action>, id: Id)
    requires Inv(s) && Can(s, a) && (a == ReaderStep(Client, ClearAcks) || a == ConnStep(ConnClear))
    requires id in s.handlers && s.handlers[id].pc.AwaitingAck? && id in s.slots && s.slots[id] == None
    requires Runs(Do(s, a), run)
    ensures var t := After(Do(s, a), run);
            id in t.handlers && !Accepted(t.handlers[id].pc) && t.handlers[id].reply != Success
            && id in t.client.recv.chans && t.client.recv.chans[id].Written() == []
  {
    assert Doomed(Do(s, a), id);
    DoomedRun(Do(s, a), run, id);
    StepKeeps(s, a);
    RunKeeps(Do(s, a), run);
    var t := After(Do(s, a), run);
    assert StreamOk(t, id) && ChanOk(t.client.recv, t.server.out.delivered, id);
  }

  lemma VerdictHandler(s: Session, i: Id, h: HandlerAct, id: Id)
    requires StreamOk(s, id) && CanHandler(s, i, h) && id in s.slots
    ensures var s' := DoHandler(s, i, h); id in s'.slots && s'.slots[id] == s.slots[id]
  {
  }

  /** A verdict once sent into a slot never changes. */
  lemma VerdictStep(s: Session, a: Action, id: Id, ok: bool)
    requires Inv(s) && Can(s, a) && id in s.slots && s.slots[id] == Some(ok)
    ensures id in Do(s, a).slots && Do(s, a).slots[id] == Some(ok)
  {
    assert StreamOk(s, id);
    match a
    case HandlerStep(i, h) => VerdictHandler(s, i, h, id);
    case ReaderStep(side, d) => ReaderFillsSlots(s, side, d, id);
    case ConnStep(_) =>
    case _ => OthersLeaveHandlers(s, a);
  }

  lemma {:induction false} VerdictStays(s: Session, run: seq<Action>, id: Id, ok: bool)
    requires Inv(s) && Runs(s, run) && id in s.slots && s.slots[id] == Some(ok)
    ensures id in After(s, run).slots && After(s, run).slots[id] == Some(ok)
    decreases |run|
  {
    if run != [] {
      VerdictStep(s, run[0], id, ok);
      StepKeeps(s, run[0]);
      VerdictStays(Do(s, run[0]), run[1..], id, ok);
    }
  }

  // ── Registry and tasks ──────────────────────────────────────────────────────

  lemma RegistryHasOwners(s: Session, id: Id)
    requires Reachable(s)
    ensures id in s.client.recv.reg ==>
              id in s.handlers
              && var pc := s.handlers[id].pc;
                 !pc.Snapshot? && !pc.Failing? && !pc.Returned?
                 && (pc.Relaying? ==> id in s.client.relays && !s.client.relays[id].pc.Ended?)
    ensures id in s.server.recv.reg ==>
              s.opening == Acking(id, true) || (id in s.server.relays && !s.server.relays[id].pc.Ended?)
  {
    ReachableOk(s);
    assert StreamOk(s, id);
    assert ChanOk(s.client.recv, s.server.out.delivered, id) && ChanOk(s.server.recv, s.client.out.delivered, id);
  }

  /** With no live handler or relay a side's registry is empty. */
  lemma IdleRegistryIsEmpty(s: Session)
    requires Reachable(s)
    ensures (forall id :: id in s.handlers ==>
               s.handlers[id].pc.Snapshot? || s.handlers[id].pc.Returned?
               || (s.handlers[id].pc.Relaying? && id in s.client.relays && s.client.relays[id].pc.Ended?))
            ==> s.client.recv.reg == {}
    ensures s.opening.Nothing? && (forall id :: id in s.server.relays ==> s.server.relays[id].pc.Ended?)
            ==> s.server.recv.reg == {}
  {
    forall id: Id | id in s.client.recv.reg || id in s.server.recv.reg
      ensures id in s.client.recv.reg ==>
                id in s.handlers && !s.handlers[id].pc.Snapshot? && !s.handlers[id].pc.Returned?
                && (s.handlers[id].pc.Relaying? ==> id in s.client.relays && !s.client.relays[id].pc.Ended?)
      ensures id in s.server.recv.reg ==>
                s.opening == Acking(id, true) || (id in s.server.relays && !s.server.relays[id].pc.Ended?)
    {
      RegistryHasOwners(s, id);
    }
  }

  // ── Memory ──────────────────────────────────────────────────────────────────

  /** A stretch of `queue` chunks taken out of `chunks` at position `k`. */
  lemma {:induction false} StretchSize(chunks: seq<Bytes>, first: nat, k: nat, queue: seq<Bytes>)
    requires SizesOk(chunks, first) && first >= RELAY_BUFFER
    requires k + |queue| <= |chunks| && queue == chunks[k..k + |queue|]
    ensures |Flat(queue)| <= if k == 0 && queue != [] then first + RELAY_BUFFER * (|queue| - 1)
                             else RELAY_BUFFER * |queue|
    decreases |queue|
  {
    if queue != [] {
      assert queue[0] == chunks[k];
      assert queue[1..] == chunks[k + 1..k + 1 + |queue[1..]|];
      StretchSize(chunks, first, k + 1, queue[1..]);
    }
  }

  lemma QueueSize(r: Recv, pushed: seq<Frame>, delivered: seq<Frame>, first: nat, id: Id)
    requires ChanOk(r, delivered, id) && id in r.chans
    requires delivered <= pushed && SizesOk(ChunksOf(pushed, id), first) && first >= RELAY_BUFFER
    ensures |Flat(r.chans[id].queue)| <= first + RELAY_BUFFER * (CHANNEL_CAPACITY - 1)
  {
    var c := r.chans[id];
    if c.Receiving() {
      StagePrefix(delivered, pushed, id);
      var all := ChunksOf(pushed, id);
      PrefixTrans(Got(r, id), ChunksOf(delivered, id), all);
      var k := |c.done + c.InHand()|;
      assert Got(r, id)[k..k + |c.queue|] == c.queue;
      StretchSize(all, first, k, c.queue);
    }
  }

  /** A writer leaves its loop in peace exactly when its queue is empty and no task can send to it any more. */
  lemma WriterSeesEnd(s: Session, side: Side)
    ensures Can(s, WriterStep(side, SeeNoSender)) <==>
            var h := HalfOf(s, side);
            && h.out.writer.Running? && h.out.hand.None? && h.out.queue == []
            && (forall id :: id in h.relays ==> h.relays[id].pc.Ended?)
            && (side.Server? ==> h.reader.Finished?)
            && (side.Client? ==> !s.held && forall id :: id in s.handlers ==>
                                      s.handlers[id].pc.Relaying? || s.handlers[id].pc.Returned?)
  {
  }

  /** Otherwise only a failed send takes it out of the loop. */
  lemma WriterFailsOnly(s: Session, a: Action, side: Side)
    requires Can(s, a) && HalfOf(s, side).out.writer.Running? && !HalfOf(Do(s, a), side).out.writer.Running?
    ensures a == WriterStep(side, SendFails) || a == WriterStep(side, SeeNoSender)
  {
    if a.HandlerStep? { HandlerLeavesWriter(s, a.id, a.h); }
    if a.ReaderStep? { ReaderLeavesWriter(s, a.side, a.d); }
  }

  lemma HandlerLeavesWriter(s: Session, id: Id, h: HandlerAct)
    requires CanHandler(s, id, h)
    ensures DoHandler(s, id, h).client.out.writer == s.client.out.writer && DoHandler(s, id, h).server == s.server
  {
  }

  lemma ReaderLeavesWriter(s: Session, side: Side, d: ReaderAct)
    requires CanRead(s, side, d)
    ensures DoRead(s, side, d).client.out.writer == s.client.out.writer
    ensures DoRead(s, side, d).server.out.writer == s.server.out.writer
  {
  }

  /** The capacities and sizes, in numbers. */
  lemma LimitsInNumbers(s: Session, side: Side, id: Id, chunk: Bytes, request: Bytes, dest: string)
    ensures HasRoom(HalfOf(s, side).out) <==>
            HalfOf(s, side).out.writer.Running? && |HalfOf(s, side).out.queue| < 128
    ensures CanAdmit(HalfOf(s, side).recv) <==>
            var r := HalfOf(s, side).recv;
            r.parked.Some? && r.parked.value.id in r.chans
            && !r.chans[r.parked.value.id].task.Stopped? && |r.chans[r.parked.value.id].queue| < 32
    ensures CanRelay(HalfOf(s, side), id, ReadSocket(chunk)) <==>
            id in HalfOf(s, side).relays && HalfOf(s, side).relays[id].pc.Reading? && 1 <= |chunk| <= 8192
    ensures CanHandler(s, id, Arrive(Plain(request), dest)) <==> id !in s.handlers && |request| <= 67174400
  {
  }

  /** Bytes held in a stream channel and frames held in a frame channel, in every reachable state. */
  lemma MemoryBound(s: Session, id: Id)
    requires Reachable(s)
    ensures id in s.client.recv.chans ==> |Flat(s.client.recv.chans[id].queue)| <= 262144
    ensures id in s.server.recv.chans ==> |Flat(s.server.recv.chans[id].queue)| <= 67174400 + 31 * 8192
    ensures |s.client.out.queue| <= 128 && |s.server.out.queue| <= 128
  {
    ReachableOk(s);
    Cross(s, id);
    assert StreamOk(s, id);
    assert ChanOk(s.client.recv, s.server.out.delivered, id) && ChanOk(s.server.recv, s.client.out.delivered, id);
    if id in s.client.recv.chans {
      QueueSize(s.client.recv, s.server.out.pushed, s.server.out.delivered, RELAY_BUFFER, id);
    }
    if id in s.server.recv.chans {
      QueueSize(s.server.recv, s.client.out.pushed, s.client.out.delivered, MAX_REQUEST, id);
    }
  }
}
