/**
 Whether a session can get stuck.  With live writers and readers, sockets that
 accept writes and connects that return, a session with no enabled step has either
 delivered everything sent or is jammed: both readers wait for each other through a
 plain HTTP stream that sends its request before its write task exists.  CONNECT
 and SOCKS5 streams cannot jam.
 */
module TunnelProgress {
  import opened Basics
  import opened Frames
  import opened History
  import opened Streams
  import opened Pipes
  import opened Tunnel
  import opened TunnelInvariant
  import opened TunnelDrain
  import opened TunnelSafety

  /** The steps that need no input, no timeout and no fault. */
  predicate Hop(a: Action) {
    match a
    case HandlerStep(_, h) =>
      h.RegisterSelf? || h.InsertAck? || h.PushOpen? || h.TakeVerdict? || h.AbortClose? || h.WriteFailure?
      || h.WriteSuccess? || h.PushFirst?
    case RelayStep(_, _, r) => r.SpawnWriter? || r.PushData? || r.PushClose? || r.UnlinkSelf?
    case TaskStep(_, _, t) => t.TakeChunk? || t.WriteBytes? || t.SeeEnd?
    case WriterStep(_, w) => w.TakeFrame? || w.PutFrame?
    case ReaderStep(_, d) => d.TakeMessage? || d.AdmitChunk? || d.BounceChunk?
    case OpeningStep(_) => true
    case ConnStep(_) => false
  }

  predicate Alive(s: Session) {
    s.client.out.writer.Running? && s.server.out.writer.Running? && s.client.reader.Looping? && s.server.reader.Looping?
    && s.cfg.wireCap > 0
  }

  ghost predicate Stuck(s: Session) {
    forall a :: Hop(a) ==> !Can(s, a)
  }

  ghost predicate StreamsEmpty(h: Half) {
    InTransit(h.out) == [] && h.recv.parked.None?
    && (forall id :: id in h.recv.chans ==> ChanSettled(h, id))
    && (forall id :: id in h.relays ==> h.relays[id].pc.Reading? || h.relays[id].pc.Ended?)
  }

  /** Nothing is left to write, and the write task has ended if the stream's sender has left the registry. */
  predicate ChanSettled(h: Half, id: Id)
    requires id in h.recv.chans
  {
    var c := h.recv.chans[id];
    c.queue == [] && !c.task.Writing? && (c.task.Ready? ==> id in h.recv.reg)
  }

  /** Every queue is empty, every OPEN has been answered, and every task waits for new input or has ended. */
  ghost predicate Drained(s: Session) {
    StreamsEmpty(s.client) && StreamsEmpty(s.server) && s.opening.Nothing?
    && forall id :: id in s.handlers ==> s.handlers[id].pc.Relaying? || s.handlers[id].pc.Returned?
  }

  predicate PipeFull(p: Pipe, wireCap: nat) {
    |p.queue| == FRAME_CAPACITY && p.hand.Some? && |p.wire| == wireCap
  }

  /**
   The client's reader is parked on a full channel nobody reads yet; its handler
   waits to queue the plain request; the server's reader waits to queue an ack.
   */
  predicate Jammed(s: Session) {
    s.client.recv.parked.Some?
    && var id := s.client.recv.parked.value.id;
       id in s.handlers && s.handlers[id].pc.SendingFirst?
       && id in s.client.recv.chans && s.client.recv.chans[id].task.Held?
       && |s.client.recv.chans[id].queue| == CHANNEL_CAPACITY
       && PipeFull(s.client.out, s.cfg.wireCap) && PipeFull(s.server.out, s.cfg.wireCap) && s.opening.Acking?
  }

  // ── What being stuck means for each task ────────────────────────────────────

  lemma WriterStuck(s: Session, side: Side)
    requires Stuck(s) && HalfOf(s, side).out.writer.Running?
    ensures var p := HalfOf(s, side).out;
            (p.queue != [] ==> p.hand.Some?) && (p.hand.Some? ==> |p.wire| >= s.cfg.wireCap)
  {
    assert !Can(s, WriterStep(side, TakeFrame));
    assert !Can(s, WriterStep(side, PutFrame));
  }

  lemma TaskStuck(s: Session, side: Side, id: Id)
    requires Stuck(s) && id in HalfOf(s, side).recv.chans
    requires ChanOk(HalfOf(s, side).recv, HalfOf(s, Peer(side)).out.delivered, id)
    ensures var r := HalfOf(s, side).recv; var c := r.chans[id];
            !c.task.Writing? && (c.task.Ready? ==> c.queue == [] && (id in r.reg || ParkedFor(r, id) != []))
  {
    assert !Can(s, TaskStep(side, id, SeeEnd));
    var c := HalfOf(s, side).recv.chans[id];
    assert !Can(s, TaskStep(side, id, TakeChunk));
    var rest: nat := if c.task.Writing? then |c.task.data| - c.task.n else 0;
    assert !Can(s, TaskStep(side, id, WriteBytes(rest)));
  }

  lemma RelayStuck(s: Session, side: Side, id: Id)
    requires Stuck(s) && id in HalfOf(s, side).relays
    ensures var pc := HalfOf(s, side).relays[id].pc;
            !pc.Spawning? && !pc.Unlinking? && (pc.Sending? || pc.SendingClose? ==> !HasRoom(HalfOf(s, side).out))
  {
    assert !Can(s, RelayStep(side, id, SpawnWriter));
    assert !Can(s, RelayStep(side, id, UnlinkSelf));
    assert !Can(s, RelayStep(side, id, PushData));
    assert !Can(s, RelayStep(side, id, PushClose));
  }

  lemma OpeningStuck(s: Session)
    requires Stuck(s)
    ensures s.opening.Nothing? || (s.opening.Acking? && !HasRoom(s.server.out))
  {
    assert !Can(s, OpeningStep(Deny)) && !Can(s, OpeningStep(ConnectOk)) && !Can(s, OpeningStep(RegisterStream));
    assert !Can(s, OpeningStep(UnlinkFailed)) && !Can(s, OpeningStep(PushAck));
  }

  /** A reader that is parked waits on a full channel whose receiver nobody runs yet. */
  lemma ParkedStuck(s: Session, side: Side)
    requires Inv(s) && Stuck(s) && HalfOf(s, side).recv.parked.Some?
    ensures var r := HalfOf(s, side).recv; var id := r.parked.value.id;
            id in r.chans && r.chans[id].task.Held? && |r.chans[id].queue| == CHANNEL_CAPACITY
  {
    var r := HalfOf(s, side).recv;
    var id := r.parked.value.id;
    assert ChanOk(r, HalfOf(s, Peer(side)).out.delivered, id);
    assert !Can(s, ReaderStep(side, AdmitChunk));
    assert !Can(s, ReaderStep(side, BounceChunk));
    TaskStuck(s, side, id);
  }

  lemma ServerNotParked(s: Session)
    requires Inv(s) && Stuck(s)
    ensures s.server.recv.parked.None?
  {
    if s.server.recv.parked.Some? {
      ParkedStuck(s, Server);
      var id := s.server.recv.parked.value.id;
      assert StreamOk(s, id);
      assert id in s.server.relays && s.server.relays[id].pc.Spawning?;
      RelayStuck(s, Server, id);
    }
  }

  /** A stuck handler waits for its ack, or for room in the frame channel. */
  lemma HandlerStuck(s: Session, id: Id)
    requires StreamOk(s, id) && Stuck(s) && id in s.handlers
    ensures var pc := s.handlers[id].pc;
            pc.Relaying? || pc.Returned? || (pc.AwaitingAck? && id in s.pending)
            || ((pc.SendingOpen? || pc.SendingFirst?) && !HasRoom(s.client.out))
  {
    assert !Can(s, HandlerStep(id, RegisterSelf)) && !Can(s, HandlerStep(id, InsertAck));
    assert !Can(s, HandlerStep(id, PushOpen)) && !Can(s, HandlerStep(id, TakeVerdict));
    assert !Can(s, HandlerStep(id, AbortClose)) && !Can(s, HandlerStep(id, WriteFailure));
    assert !Can(s, HandlerStep(id, WriteSuccess)) && !Can(s, HandlerStep(id, PushFirst));
  }

  /** The client's reader can only be parked on a plain stream that cannot queue its request. */
  lemma ClientParked(s: Session)
    requires Inv(s) && Stuck(s) && s.client.recv.parked.Some?
    ensures var id := s.client.recv.parked.value.id;
            id in s.handlers && s.handlers[id].pc.SendingFirst? && s.handlers[id].kind.Plain? && !HasRoom(s.client.out)
  {
    ParkedStuck(s, Client);
    var id := s.client.recv.parked.value.id;
    assert StreamOk(s, id) && ChanOk(s.client.recv, s.server.out.delivered, id);
    assert ChunksOf(s.server.out.delivered, id) != [];
    Cross(s, id);
    HandlerStuck(s, id);
    if id in s.client.relays { RelayStuck(s, Client, id); }
  }

  /** A reader at its `next()` with nothing to do: the whole pipe towards it is empty. */
  lemma PipeStuck(s: Session, side: Side)
    requires Inv(s) && Stuck(s) && Alive(s) && AtNext(s, side)
    ensures InTransit(HalfOf(s, Peer(side)).out) == [] && HasRoom(HalfOf(s, Peer(side)).out)
  {
    assert !Can(s, ReaderStep(side, TakeMessage));
    WriterStuck(s, Peer(side));
  }

  lemma FullPipe(s: Session, side: Side)
    requires Inv(s) && Stuck(s) && HalfOf(s, side).out.writer.Running? && !HasRoom(HalfOf(s, side).out)
    ensures PipeFull(HalfOf(s, side).out, s.cfg.wireCap)
  {
    WriterStuck(s, side);
  }

  /** One side of a stuck session whose frame channel has room and whose reader is not parked. */
  lemma HalfEmpty(s: Session, side: Side)
    requires Inv(s) && Stuck(s) && Alive(s) && HalfOf(s, side).recv.parked.None? && s.opening.Nothing?
    requires InTransit(HalfOf(s, side).out) == [] && HasRoom(HalfOf(s, side).out)
    ensures StreamsEmpty(HalfOf(s, side))
  {
    var h := HalfOf(s, side);
    forall id | id in h.recv.chans ensures ChanSettled(h, id) {
      var din := HalfOf(s, Peer(side)).out.delivered;
      assert StreamOk(s, id) && ChanOk(h.recv, din, id);
      TaskStuck(s, side, id);
      if id in h.relays { RelayStuck(s, side, id); }
      if h.recv.chans[id].task.Held? {
        HandlerStuck(s, id);
        FreshIsSilent(din, id);
      }
    }
    forall id | id in h.relays ensures h.relays[id].pc.Reading? || h.relays[id].pc.Ended? {
      RelayStuck(s, side, id);
    }
  }

  lemma {:induction false} LiveWasOpened(frames: seq<Frame>, id: Id)
    requires StageOf(frames, id) == Live && forall f :: f in frames ==> !f.OpenAck?
    ensures id in OpenIds(frames)
  {
    assert frames == Init(frames) + [Last(frames)];
    AppendIds(Init(frames), Last(frames));
    if StageOf(Init(frames), id) != Fresh { LiveWasOpened(Init(frames), id); }
  }

  lemma {:induction false} AckedIsNotFresh(frames: seq<Frame>, id: Id)
    requires id in AckIds(frames)
    ensures StageOf(frames, id) != Fresh
  {
    assert frames == Init(frames) + [Last(frames)];
    AppendIds(Init(frames), Last(frames));
    if id in AckIds(Init(frames)) { AckedIsNotFresh(Init(frames), id); }
  }

  /** With both pipes empty and no OPEN being handled, no handler still waits for its ack. */
  lemma NobodyWaits(s: Session, id: Id)
    requires Inv(s) && Alive(s) && s.opening.Nothing?
    requires InTransit(s.client.out) == [] && InTransit(s.server.out) == []
    requires id in s.handlers && s.handlers[id].pc.AwaitingAck?
    ensures id !in s.pending
  {
    assert StreamOk(s, id);
    assert s.client.out.pushed == s.client.out.delivered && s.server.out.pushed == s.server.out.delivered;
    LiveWasOpened(s.client.out.pushed, id);
    AckedIsNotFresh(s.server.out.pushed, id);
  }

  /** A session that cannot move is drained, or jammed. */
  lemma StuckMeansDrainedOrJammed(s: Session)
    requires Inv(s) && Alive(s) && Stuck(s)
    ensures Drained(s) || Jammed(s)
  {
    OpeningStuck(s);
    ServerNotParked(s);
    if s.client.recv.parked.Some? {
      ClientParked(s);
      ParkedStuck(s, Client);
      FullPipe(s, Client);
      if s.opening.Nothing? { PipeStuck(s, Server); }
      FullPipe(s, Server);
    } else {
      PipeStuck(s, Client);
      PipeStuck(s, Server);
      HalfEmpty(s, Client);
      HalfEmpty(s, Server);
      forall id | id in s.handlers ensures s.handlers[id].pc.Relaying? || s.handlers[id].pc.Returned? {
        assert StreamOk(s, id);
        HandlerStuck(s, id);
        if s.handlers[id].pc.AwaitingAck? { NobodyWaits(s, id); }
      }
    }
  }

  // ── Jams last ───────────────────────────────────────────────────────────────

  /** Neither reader has taken a frame in between. */
  predicate SameDelivered(s: Session, s': Session) {
    s'.client.out.delivered == s.client.out.delivered && s'.server.out.delivered == s.server.out.delivered
  }

  predicate WriterFails(a: Action) {
    a.WriterStep? && a.w.SendFails?
  }

  lemma JamHandler(s: Session, i: Id, h: HandlerAct)
    requires Alive(s) && Jammed(s) && CanHandler(s, i, h)
    ensures Alive(DoHandler(s, i, h)) && Jammed(DoHandler(s, i, h))
    ensures SameDelivered(s, DoHandler(s, i, h))
  {
    var id := s.client.recv.parked.value.id;
    assert i == id ==> h.PushFirst? || h.FirstLost?;
    assert !h.PushFirst? && !h.FirstLost? && !h.PushOpen?;
  }

  lemma JamRelay(s: Session, side: Side, i: Id, r: RelayAct)
    requires Alive(s) && Jammed(s) && CanRelay(HalfOf(s, side), i, r)
    requires StreamOk(s, s.client.recv.parked.value.id)
    ensures var s' := SetHalf(s, side, DoRelay(HalfOf(s, side), i, r)); Alive(s') && Jammed(s')
    ensures SameDelivered(s, SetHalf(s, side, DoRelay(HalfOf(s, side), i, r)))
  {
    assert !r.PushData? && !r.PushClose? && !r.DataLost?;
    assert side.Client? ==> i != s.client.recv.parked.value.id;
  }

  lemma JamReader(s: Session, side: Side, d: ReaderAct)
    requires Alive(s) && Jammed(s) && FlowOk(s)
    ensures !CanRead(s, side, d)
  {
  }

  lemma JamTask(s: Session, side: Side, i: Id, t: TaskAct)
    requires Alive(s) && Jammed(s) && CanTask(HalfOf(s, side).recv, i, t)
    ensures Alive(Do(s, TaskStep(side, i, t))) && Jammed(Do(s, TaskStep(side, i, t)))
    ensures SameDelivered(s, Do(s, TaskStep(side, i, t)))
  {
    assert side.Client? ==> i != s.client.recv.parked.value.id;
  }

  lemma JamWriter(s: Session, side: Side, w: WriterAct)
    requires Alive(s) && Jammed(s) && CanWrite(HalfOf(s, side).out, s.cfg.wireCap, w)
    ensures w.SendFails?
  {
  }

  lemma JamOpening(s: Session, o: OpeningAct)
    requires Alive(s) && Jammed(s)
    ensures !CanOpen(s, o)
  {
  }

  lemma JamConn(s: Session, c: ConnAct)
    requires Alive(s) && Jammed(s)
    ensures Alive(DoConn(s, c)) && Jammed(DoConn(s, c))
    ensures SameDelivered(s, DoConn(s, c))
  {
  }

  lemma JamStep(s: Session, a: Action)
    requires Alive(s) && Jammed(s) && FlowOk(s) && StreamOk(s, s.client.recv.parked.value.id)
    requires Can(s, a) && !WriterFails(a)
    ensures Alive(Do(s, a)) && Jammed(Do(s, a))
    ensures SameDelivered(s, Do(s, a))
  {
    match a
    case HandlerStep(i, h) => JamHandler(s, i, h);
    case RelayStep(side, i, r) => JamRelay(s, side, i, r);
    case ReaderStep(side, d) => JamReader(s, side, d);
    case OpeningStep(o) => JamOpening(s, o);
    case TaskStep(side, i, t) => JamTask(s, side, i, t);
    case WriterStep(side, w) => JamWriter(s, side, w);
    case ConnStep(c) => JamConn(s, c);
  }

  /** Once jammed, a session stays jammed until a WebSocket write fails: no frame is ever read again. */
  lemma {:induction false} JamIsForever(s: Session, run: seq<Action>)
    requires Inv(s) && Alive(s) && Jammed(s) && Runs(s, run) && forall a :: a in run ==> !WriterFails(a)
    ensures Jammed(After(s, run)) && !Drained(After(s, run))
    ensures SameDelivered(s, After(s, run))
    decreases |run|
  {
    if run != [] {
      assert run[0] in run && forall a :: a in run[1..] ==> a in run;
      assert StreamOk(s, s.client.recv.parked.value.id);
      JamStep(s, run[0]);
      StepKeeps(s, run[0]);
      JamIsForever(Do(s, run[0]), run[1..]);
    }
  }

  // ── Draining ────────────────────────────────────────────────────────────────

  /** Only CONNECT and SOCKS5 streams. */
  ghost predicate NoPlain(s: Session) {
    forall id :: id in s.handlers ==> !s.handlers[id].kind.Plain?
  }

  lemma HopHandler(s: Session, id: Id, h: HandlerAct)
    requires Alive(s) && CanHandler(s, id, h) && !h.Arrive?
    ensures Alive(DoHandler(s, id, h)) && (NoPlain(s) ==> NoPlain(DoHandler(s, id, h)))
  {
    HandlerFrameCost(s, id, h);
    assert DoHandler(s, id, h).handlers[id].kind == s.handlers[id].kind;
  }

  lemma RelayAlive(h: Half, id: Id, r: RelayAct)
    requires CanRelay(h, id, r)
    ensures DoRelay(h, id, r).out.writer == h.out.writer && DoRelay(h, id, r).reader == h.reader
  {
  }

  lemma HopAlive(s: Session, a: Action)
    requires Alive(s) && Can(s, a) && Hop(a) && !a.HandlerStep?
    ensures Alive(Do(s, a)) && Do(s, a).handlers == s.handlers
  {
    OthersLeaveHandlers(s, a);
    if a.RelayStep? { RelayAlive(HalfOf(s, a.side), a.id, a.r); }
  }

  lemma HopKeeps(s: Session, a: Action)
    requires Alive(s) && Can(s, a) && Hop(a)
    ensures Alive(Do(s, a)) && (NoPlain(s) ==> NoPlain(Do(s, a)))
  {
    if a.HandlerStep? { HopHandler(s, a.id, a.h); } else { HopAlive(s, a); }
  }

  lemma NoJam(s: Session, id: Id)
    requires StreamOk(s, id) && NoPlain(s) && id in s.handlers
    ensures !s.handlers[id].pc.SendingFirst?
  {
  }

  /** Without plain streams there is no jam. */
  lemma PlainlessStuck(s: Session)
    requires Inv(s) && Alive(s) && NoPlain(s) && Stuck(s)
    ensures Drained(s)
  {
    StuckMeansDrainedOrJammed(s);
    if Jammed(s) { NoJam(s, s.client.recv.parked.value.id); }
  }

  /** A session without plain streams is never stuck with anything on its way. */
  lemma NoDeadlock(s: Session)
    requires Reachable(s) && Alive(s) && NoPlain(s) && !Drained(s)
    ensures exists a :: Hop(a) && Can(s, a)
  {
    ReachableOk(s);
    if Stuck(s) { PlainlessStuck(s); }
  }

  // ── What a drained session has delivered ────────────────────────────────────

  /** Every byte sent on a stream, and every byte the peer's relay read, is on this side's socket. */
  ghost predicate Arrived(s: Session, side: Side, id: Id)
    requires id in HalfOf(s, side).recv.chans
  {
    var written := HalfOf(s, side).recv.chans[id].Written();
    written == Sent(s, side, id)
    && (id in HalfOf(s, Peer(side)).relays ==> written == Flat(HalfOf(s, Peer(side)).relays[id].fed))
  }

  /** That is so for every stream that this side has not removed and whose socket has refused nothing. */
  ghost predicate Delivered(s: Session) {
    (forall side: Side, id: Id :: Unharmed(HalfOf(s, side), id) ==> Arrived(s, side, id))
    && s.client.relays.Keys <= s.server.relays.Keys
  }

  lemma NothingOnTheWay(s: Session, side: Side, id: Id)
    requires id in HalfOf(s, side).recv.chans
    requires StreamsEmpty(HalfOf(s, side)) && StreamsEmpty(HalfOf(s, Peer(side)))
    ensures OnTheWay(s, side, id) == []
  {
    var p := HalfOf(s, Peer(side)).out;
    assert p.wire == [] && p.hand.None? && p.queue == [];
  }

  lemma StreamArrived(s: Session, side: Side, id: Id)
    requires Reachable(s) && Alive(s) && Drained(s) && Unharmed(HalfOf(s, side), id)
    ensures Arrived(s, side, id)
  {
    Conservation(s, side, id);
    NothingOnTheWay(s, side, id);
    if id in HalfOf(s, Peer(side)).relays { SentIsFed(s, side, id); }
  }

  /** A relaying client has a relay on the server. */
  lemma RelayHasPeer(s: Session, id: Id)
    requires Inv(s) && id in s.client.relays
    ensures id in s.server.relays
  {
    assert StreamOk(s, id);
    Cross(s, id);
  }

  lemma DrainedHasDelivered(s: Session)
    requires Reachable(s) && Alive(s) && Drained(s)
    ensures Delivered(s)
  {
    ReachableOk(s);
    forall side: Side, id: Id | Unharmed(HalfOf(s, side), id) ensures Arrived(s, side, id) {
      StreamArrived(s, side, id);
    }
    forall id | id in s.client.relays ensures id in s.server.relays { RelayHasPeer(s, id); }
  }

  /** The standstill of a live session: everything has been delivered, or it is jammed. */
  lemma StandstillHasDelivered(s: Session)
    requires Reachable(s) && Alive(s) && Stuck(s)
    ensures (Drained(s) && Delivered(s)) || Jammed(s)
  {
    ReachableOk(s);
    StuckMeansDrainedOrJammed(s);
    if Drained(s) { DrainedHasDelivered(s); }
  }

  // ── Runs to the end ─────────────────────────────────────────────────────────

  /** Left to itself, a session comes to a standstill: all delivered, or jammed if it has a plain stream. */
  lemma {:induction false} HopsEnd(s: Session) returns (run: seq<Action>)
    requires Reachable(s) && Alive(s)
    ensures Runs(s, run) && (forall a :: a in run ==> Hop(a))
    ensures (Drained(After(s, run)) && Delivered(After(s, run))) || (Jammed(After(s, run)) && !NoPlain(s))
    decreases Cost(s)
  {
    ReachableOk(s);
    if Stuck(s) {
      run := [];
      StandstillHasDelivered(s);
      if NoPlain(s) {
        PlainlessStuck(s);
        DrainedHasDelivered(s);
      }
    } else {
      var a :| Hop(a) && Can(s, a);
      StepCosts(s, a);
      ReachableStep(s, a);
      HopKeeps(s, a);
      var rest := HopsEnd(Do(s, a));
      run := [a] + rest;
      assert run[1..] == rest;
    }
  }

  /** From every reachable state the hops alone lead to a session that has delivered everything, or to a jammed one. */
  lemma HopsSuffice(s: Session)
    requires Reachable(s) && Alive(s)
    ensures exists run :: Runs(s, run) && (forall a :: a in run ==> Hop(a))
                          && ((Drained(After(s, run)) && Delivered(After(s, run)))
                              || (Jammed(After(s, run)) && !NoPlain(s)))
  {
    var run := HopsEnd(s);
  }

  /** Hops, acks that time out, and local sockets that refuse a reply or a chunk, at any moment. */
  predicate Scheduled(a: Action) {
    Hop(a) || (a.HandlerStep? && (a.h.TimeOut? || a.h.SuccessLost?)) || (a.TaskStep? && a.t.WriteFails?)
  }

  lemma ScheduledKeeps(s: Session, a: Action)
    requires Alive(s) && Can(s, a) && Scheduled(a)
    ensures Alive(Do(s, a)) && (NoPlain(s) ==> NoPlain(Do(s, a)))
  {
    if a.HandlerStep? {
      HopHandler(s, a.id, a.h);
    } else if a.TaskStep? {
      OthersLeaveHandlers(s, a);
    } else {
      HopAlive(s, a);
    }
  }

  /**
   However the steps of a session without plain streams are scheduled, whichever acks time
   out and whichever sockets fail on the way, they come to an end, and only with every queue
   empty and every byte delivered to the sockets that refused nothing.
   */
  lemma {:induction false} EveryScheduleDrains(s: Session, run: seq<Action>)
    requires Reachable(s) && Alive(s) && NoPlain(s) && Runs(s, run) && forall a :: a in run ==> Scheduled(a)
    ensures |run| <= Cost(s)
    ensures (Drained(After(s, run)) && Delivered(After(s, run))) || exists a :: Hop(a) && Can(After(s, run), a)
    decreases |run|
  {
    ReachableOk(s);
    if run == [] {
      if Stuck(s) {
        PlainlessStuck(s);
        DrainedHasDelivered(s);
      }
    } else {
      assert run[0] in run && forall a :: a in run[1..] ==> a in run;
      StepCosts(s, run[0]);
      ReachableStep(s, run[0]);
      ScheduledKeeps(s, run[0]);
      EveryScheduleDrains(Do(s, run[0]), run[1..]);
    }
  }
}
