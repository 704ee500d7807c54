/** Pieces of runs, written out step by step. */
module TunnelScripts {
  import opened Basics
  import opened Frames
  import opened Streams
  import opened Pipes
  import opened HttpLimits
  import opened Tunnel
  import opened TunnelInvariant
  import opened TunnelProgress

  /** One more step. */
  lemma Go(s: Session, a: Action) returns (s': Session)
    requires Reachable(s) && Can(s, a)
    ensures s' == Do(s, a) && Reachable(s')
  {
    ReachableStep(s, a);
    s' := Do(s, a);
  }

  predicate Quiet(p: Pipe) {
    p.queue == [] && p.hand.None? && p.wire == []
  }

  /** Nothing is moving. */
  predicate Idle(s: Session) {
    Alive(s) && Quiet(s.client.out) && Quiet(s.server.out) && s.opening.Nothing?
    && s.client.recv.parked.None? && s.server.recv.parked.None?
  }

  // ── Filling a pipe ──────────────────────────────────────────────────────────

  /** Relay `id` of `side` waits for its socket. */
  predicate Feeds(s: Session, side: Side, id: Id) {
    id in HalfOf(s, side).relays && HalfOf(s, side).relays[id].pc.Reading?
  }

  /** Only the pipe out of `side` and the relay that feeds it have changed. */
  ghost predicate OnlyPipe(s: Session, s': Session, side: Side, id: Id) {
    && HalfOf(s', Peer(side)) == HalfOf(s, Peer(side)) && HalfOf(s', side).recv == HalfOf(s, side).recv
    && s'.cfg == s.cfg && s'.handlers == s.handlers && s'.opening == s.opening
    && s'.pending == s.pending && s'.slots == s.slots
    && Feeds(s', side, id) && Alive(s')
  }

  /** The relay reads a byte and queues it. */
  lemma Feed(s: Session, side: Side, id: Id) returns (s': Session)
    requires Reachable(s) && Alive(s) && Feeds(s, side, id) && HasRoom(HalfOf(s, side).out)
    ensures Reachable(s') && OnlyPipe(s, s', side, id)
    ensures HalfOf(s', side).out == Push(HalfOf(s, side).out, Data(id, [0]))
    ensures HalfOf(s', side).relays[id].fed == HalfOf(s, side).relays[id].fed + [[0]]
  {
    var s1 := Go(s, RelayStep(side, id, ReadSocket([0])));
    s' := Go(s1, RelayStep(side, id, PushData));
  }

  /** The writer puts the one queued frame on the wire. */
  lemma Ship(s: Session, side: Side, id: Id) returns (s': Session)
    requires Reachable(s) && Alive(s) && Feeds(s, side, id)
    requires var p := HalfOf(s, side).out; |p.queue| == 1 && p.hand.None? && |p.wire| < s.cfg.wireCap
    ensures Reachable(s') && OnlyPipe(s, s', side, id)
    ensures var p, q := HalfOf(s, side).out, HalfOf(s', side).out;
            q.queue == [] && q.hand.None? && q.wire == p.wire + p.queue && q.delivered == p.delivered
    ensures HalfOf(s', side).relays == HalfOf(s, side).relays
  {
    var s1 := Go(s, WriterStep(side, TakeFrame));
    s' := Go(s1, WriterStep(side, PutFrame));
  }

  lemma {:induction false} FillWire(s: Session, side: Side, id: Id) returns (s': Session)
    requires Reachable(s) && Alive(s) && Feeds(s, side, id)
    requires var p := HalfOf(s, side).out; p.queue == [] && p.hand.None? && |p.wire| <= s.cfg.wireCap
    ensures Reachable(s') && OnlyPipe(s, s', side, id)
    ensures var p := HalfOf(s', side).out; p.queue == [] && p.hand.None? && |p.wire| == s.cfg.wireCap
    decreases s.cfg.wireCap - |HalfOf(s, side).out.wire|
  {
    if |HalfOf(s, side).out.wire| == s.cfg.wireCap {
      s' := s;
    } else {
      var s1 := Feed(s, side, id);
      var s2 := Ship(s1, side, id);
      s' := FillWire(s2, side, id);
    }
  }

  lemma {:induction false} FillQueue(s: Session, side: Side, id: Id) returns (s': Session)
    requires Reachable(s) && Alive(s) && Feeds(s, side, id)
    requires var p := HalfOf(s, side).out;
             |p.queue| <= FRAME_CAPACITY && p.hand.Some? && |p.wire| == s.cfg.wireCap
    ensures Reachable(s') && OnlyPipe(s, s', side, id) && PipeFull(HalfOf(s', side).out, s.cfg.wireCap)
    decreases FRAME_CAPACITY - |HalfOf(s, side).out.queue|
  {
    if |HalfOf(s, side).out.queue| == FRAME_CAPACITY {
      s' := s;
    } else {
      var s1 := Feed(s, side, id);
      s' := FillQueue(s1, side, id);
    }
  }

  /** A relay with enough input fills the pipe it feeds, while nobody reads at its end. */
  lemma FillPipe(s: Session, side: Side, id: Id) returns (s': Session)
    requires Reachable(s) && Alive(s) && Feeds(s, side, id) && Quiet(HalfOf(s, side).out)
    ensures Reachable(s') && OnlyPipe(s, s', side, id) && PipeFull(HalfOf(s', side).out, s.cfg.wireCap)
  {
    var s1 := FillWire(s, side, id);
    var s2 := Feed(s1, side, id);
    var s3 := Go(s2, WriterStep(side, TakeFrame));
    s' := FillQueue(s3, side, id);
  }

  // ── Opening a stream ────────────────────────────────────────────────────────

  /** Stream `id` has just been asked for; nothing else has changed since `s`. */
  ghost predicate Asked(s: Session, s': Session, id: Id, h: Handler) {
    && s'.cfg == s.cfg && s'.handlers == s.handlers[id := h] && s'.server == s.server && s'.opening == s.opening
    && s'.client.recv == Register(s.client.recv, id) && s'.client.relays == s.client.relays
    && s'.pending == s.pending + {id} && s'.slots == s.slots[id := None]
    && Alive(s')
  }

  lemma Enter(s: Session, id: Id, kind: Kind, dest: string) returns (s': Session)
    requires Reachable(s) && Alive(s) && id !in s.handlers && (kind.Plain? ==> |kind.request| <= MAX_REQUEST)
    ensures Reachable(s') && Alive(s') && s'.cfg == s.cfg && s'.server == s.server && s'.opening == s.opening
    ensures s'.handlers == s.handlers[id := Handler(kind, dest, Registered, NoReply)]
    ensures s'.client == s.client.(recv := Register(s.client.recv, id))
    ensures s'.pending == s.pending && s'.slots == s.slots
  {
    var s1 := Go(s, HandlerStep(id, Arrive(kind, dest)));
    s' := Go(s1, HandlerStep(id, RegisterSelf));
  }

  lemma Ask(s: Session, id: Id, kind: Kind, dest: string) returns (s': Session)
    requires Reachable(s) && Alive(s) && Quiet(s.client.out) && id !in s.handlers
    requires kind.Plain? ==> |kind.request| <= MAX_REQUEST
    ensures Reachable(s') && Asked(s, s', id, Handler(kind, dest, AwaitingAck, NoReply))
    ensures s'.client.out == Push(s.client.out, Open(id, dest))
  {
    var s1 := Enter(s, id, kind, dest);
    var s2 := Go(s1, HandlerStep(id, InsertAck));
    s' := Go(s2, HandlerStep(id, PushOpen));
  }

  /** The OPEN crosses and the server's reader takes it up. */
  lemma Hear(s: Session, s0: Session, id: Id, h: Handler) returns (s': Session)
    requires Reachable(s) && Asked(s0, s, id, h) && s.opening.Nothing? && s.server.recv.parked.None?
    requires s.client.out.queue == [Open(id, h.dest)] && s.client.out.hand.None? && s.client.out.wire == []
    ensures Reachable(s') && Asked(s0.(opening := Deciding(id, h.dest)), s', id, h) && Quiet(s'.client.out)
  {
    var s1 := Go(s, WriterStep(Client, TakeFrame));
    var s2 := Go(s1, WriterStep(Client, PutFrame));
    s' := Go(s2, ReaderStep(Server, TakeMessage));
  }

  /** The connect succeeds and the stream is registered. */
  lemma Connects(s: Session, id: Id, dest: string) returns (s': Session)
    requires Reachable(s) && Alive(s) && s.opening == Deciding(id, dest) && s.cfg.allowed(dest)
    requires s.server.recv.parked.None?
    ensures Reachable(s') && s'.client == s.client && s'.cfg == s.cfg && s'.opening == Acking(id, true)
    ensures s'.handlers == s.handlers && s'.pending == s.pending && s'.slots == s.slots
    ensures s'.server == s.server.(recv := Register(s.server.recv, id))
  {
    var s1 := Go(s, OpeningStep(ConnectOk));
    s' := Go(s1, OpeningStep(RegisterStream));
  }

  /** Then the ack is queued and the relay reads from upstream. */
  lemma Accept(s: Session, id: Id, dest: string) returns (s': Session)
    requires Reachable(s) && Alive(s) && s.opening == Deciding(id, dest) && s.cfg.allowed(dest)
    requires Quiet(s.server.out) && s.server.recv.parked.None?
    ensures Reachable(s') && Alive(s') && s'.client == s.client && s'.opening.Nothing? && s'.cfg == s.cfg
    ensures s'.handlers == s.handlers && s'.pending == s.pending && s'.slots == s.slots
    ensures s'.server.recv.parked.None? && id in s'.server.relays && s'.server.relays[id] == Relay(Reading, [])
    ensures s'.server.out.queue == [OpenAck(id, true)] && s'.server.out.hand.None? && s'.server.out.wire == []
    ensures s'.server.out.delivered == s.server.out.delivered
  {
    var s1 := Connects(s, id, dest);
    var s2 := Go(s1, OpeningStep(PushAck));
    s' := Go(s2, RelayStep(Server, id, SpawnWriter));
  }

  /** The ack crosses and the handler takes its verdict. */
  lemma Tell(s: Session, id: Id) returns (s': Session)
    requires Reachable(s) && Alive(s) && s.opening.Nothing? && s.client.recv.parked.None? && Quiet(s.client.out)
    requires s.server.out.queue == [OpenAck(id, true)] && s.server.out.hand.None? && s.server.out.wire == []
    requires id in s.handlers && s.handlers[id].pc.AwaitingAck? && id in s.pending && Feeds(s, Server, id)
    requires s.server.recv.parked.None?
    ensures Reachable(s') && Idle(s') && s'.cfg == s.cfg && Feeds(s', Server, id)
    ensures s'.client == s.client && id in s'.server.relays && s'.server.relays[id] == s.server.relays[id]
    ensures s'.server.out.delivered == s.server.out.delivered + [OpenAck(id, true)]
    ensures var h := s.handlers[id];
            s'.handlers == s.handlers[id := h.(pc := if h.kind.Plain? then SendingFirst else Replying)]
  {
    var s1 := Ship(s, Server, id);
    var s2 := Go(s1, ReaderStep(Client, TakeMessage));
    s' := Go(s2, HandlerStep(id, TakeVerdict));
  }

  /** A stream opened while nothing else moves, up to its handler's verdict. */
  lemma OpenStream(s: Session, id: Id, kind: Kind, dest: string) returns (s': Session)
    requires Reachable(s) && Idle(s) && id !in s.handlers && s.cfg.allowed(dest)
    requires kind.Plain? ==> |kind.request| <= MAX_REQUEST
    ensures Reachable(s') && Idle(s') && s'.cfg == s.cfg
    ensures id in s'.server.relays && s'.server.relays[id] == Relay(Reading, [])
    ensures s'.server.out.delivered == s.server.out.delivered + [OpenAck(id, true)]
    ensures s'.handlers ==
            s.handlers[id := Handler(kind, dest, if kind.Plain? then SendingFirst else Replying, NoReply)]
    ensures s'.client.recv == Register(s.client.recv, id) && s'.client.relays == s.client.relays
  {
    var h := Handler(kind, dest, AwaitingAck, NoReply);
    var s1 := Ask(s, id, kind, dest);
    var s2 := Hear(s1, s, id, h);
    var s3 := Accept(s2, id, dest);
    s' := Tell(s3, id);
  }
}
