/**
 What becomes of a session that has lost a writer or a reader.  Every handler gives up
 or is already relaying, nobody stays parked, and the registries keep at most streams
 whose relay still reads a live socket; jams do not outlive the session.
 */
module TunnelShutdown {
  import opened Frames
  import opened Streams
  import opened Pipes
  import opened Tunnel
  import opened TunnelInvariant
  import opened TunnelDrain
  import opened TunnelProgress

  /** A writer has left its loop, or a reader has. */
  predicate Dead(s: Session) {
    s.cfg.wireCap > 0 && !Alive(s)
  }

  /**
   The steps that wind a session down: hops, timeouts, sends and writes that find the
   other end gone, a reader that sees the end of what its peer has written, and the sweeps.
   */
  predicate WindsDown(s: Session, a: Action) {
    Hop(a)
    || match a
       case HandlerStep(_, h) => h.TimeOut? || h.OpenLost? || h.FirstLost?
       case RelayStep(_, _, r) => r.DataLost?
       case WriterStep(side, w) => w.Sweep? || (w.SendFails? && !HalfOf(s, Peer(side)).reader.Looping?)
       case ReaderStep(side, d) =>
         var p := HalfOf(s, Peer(side)).out;
         d.SweepStreams? || d.ClearAcks? || (d.Leave? && !p.writer.Running? && p.wire == [])
       case _ => false
  }

  ghost predicate Halted(s: Session) {
    forall a :: WindsDown(s, a) ==> !Can(s, a)
  }

  /** Nothing queued, nobody parked, and registered only what a relay with a live socket still uses. */
  ghost predicate HalfClean(h: Half) {
    h.recv.parked.None? && h.out.queue == [] && h.out.hand.None?
    && (forall id :: id in h.recv.chans ==> ChanSettled(h, id) && !h.recv.chans[id].task.Held?)
    && (forall id :: id in h.relays ==> h.relays[id].pc.Reading? || h.relays[id].pc.Ended?)
    && (forall id :: id in h.recv.reg ==> id in h.relays && h.relays[id].pc.Reading?)
  }

  ghost predicate Clean(s: Session) {
    HalfClean(s.client) && HalfClean(s.server) && s.opening.Nothing?
    && forall id :: id in s.handlers ==> s.handlers[id].pc.Relaying? || s.handlers[id].pc.Returned?
  }

  lemma HaltedIsStuck(s: Session)
    requires Halted(s)
    ensures Stuck(s)
  {
    forall a | Hop(a) ensures !Can(s, a) { assert WindsDown(s, a); }
  }

  // ── Room, or nobody to make it ──────────────────────────────────────────────

  /** A full pipe waits for a reader that is in its loop and busy. */
  lemma FullPipeHalted(s: Session, side: Side)
    requires Inv(s) && Halted(s) && s.cfg.wireCap > 0
    requires HalfOf(s, side).out.writer.Running? && !HasRoom(HalfOf(s, side).out)
    ensures HalfOf(s, Peer(side)).reader.Looping? && !AtNext(s, Peer(side))
  {
    HaltedIsStuck(s);
    FullPipe(s, side);
    assert WindsDown(s, ReaderStep(Peer(side), TakeMessage)) && !Can(s, ReaderStep(Peer(side), TakeMessage));
    var fail := WriterStep(side, SendFails);
    assert !HalfOf(s, Peer(side)).reader.Looping? ==> WindsDown(s, fail) && Can(s, fail);
  }

  /** If the server cannot queue, the client's reader is parked, and so is everything else alive. */
  lemma ServerFull(s: Session)
    requires Inv(s) && Halted(s) && Dead(s)
    ensures HasRoom(s.server.out) || !s.server.out.writer.Running?
  {
    if s.server.out.writer.Running? && !HasRoom(s.server.out) {
      HaltedIsStuck(s);
      FullPipeHalted(s, Server);
      ClientParked(s);
      var lost := HandlerStep(s.client.recv.parked.value.id, FirstLost);
      assert WindsDown(s, lost) && !Can(s, lost);
      FullPipeHalted(s, Client);
    }
  }

  lemma OpeningHalted(s: Session)
    requires Inv(s) && Halted(s) && Dead(s)
    ensures s.opening.Nothing?
  {
    HaltedIsStuck(s);
    OpeningStuck(s);
    ServerFull(s);
    assert WindsDown(s, OpeningStep(PushAck)) && !Can(s, OpeningStep(PushAck));
  }

  lemma ClientFull(s: Session)
    requires Inv(s) && Halted(s) && Dead(s)
    ensures HasRoom(s.client.out) || !s.client.out.writer.Running?
  {
    if s.client.out.writer.Running? && !HasRoom(s.client.out) {
      HaltedIsStuck(s);
      FullPipeHalted(s, Client);
      OpeningHalted(s);
      ServerNotParked(s);
    }
  }

  // ── What a halted session looks like ────────────────────────────────────────

  lemma HandlerHalted(s: Session, id: Id)
    requires Inv(s) && Halted(s) && Dead(s) && id in s.handlers
    ensures s.handlers[id].pc.Relaying? || s.handlers[id].pc.Returned?
  {
    HaltedIsStuck(s);
    assert StreamOk(s, id);
    HandlerStuck(s, id);
    ClientFull(s);
    var timeout, open, first := HandlerStep(id, TimeOut), HandlerStep(id, OpenLost), HandlerStep(id, FirstLost);
    assert WindsDown(s, timeout) && !Can(s, timeout);
    assert WindsDown(s, open) && !Can(s, open);
    assert WindsDown(s, first) && !Can(s, first);
  }

  lemma RelayHalted(s: Session, side: Side, id: Id)
    requires Inv(s) && Halted(s) && Dead(s) && id in HalfOf(s, side).relays
    ensures HalfOf(s, side).relays[id].pc.Reading? || HalfOf(s, side).relays[id].pc.Ended?
  {
    HaltedIsStuck(s);
    RelayStuck(s, side, id);
    if side.Client? { ClientFull(s); } else { ServerFull(s); }
    var lost, close := RelayStep(side, id, DataLost), RelayStep(side, id, PushClose);
    assert WindsDown(s, lost) && !Can(s, lost);
    assert WindsDown(s, close) && !Can(s, close);
  }

  lemma ChanHalted(s: Session, side: Side, id: Id)
    requires Inv(s) && Halted(s) && Dead(s) && id in HalfOf(s, side).recv.chans
    ensures var c := HalfOf(s, side).recv.chans[id];
            c.queue == [] && !c.task.Writing? && !c.task.Held?
            && (c.task.Ready? ==> id in HalfOf(s, side).recv.reg || ParkedFor(HalfOf(s, side).recv, id) != [])
  {
    HaltedIsStuck(s);
    assert ChanOk(HalfOf(s, side).recv, HalfOf(s, Peer(side)).out.delivered, id) && StreamOk(s, id);
    TaskStuck(s, side, id);
    OpeningHalted(s);
    if id in HalfOf(s, side).relays {
      RelayHalted(s, side, id);
    } else if side.Client? {
      HandlerHalted(s, id);
    }
  }

  lemma NobodyParked(s: Session, side: Side)
    requires Inv(s) && Halted(s) && Dead(s)
    ensures HalfOf(s, side).recv.parked.None?
  {
    if HalfOf(s, side).recv.parked.Some? {
      HaltedIsStuck(s);
      ParkedStuck(s, side);
      ChanHalted(s, side, HalfOf(s, side).recv.parked.value.id);
    }
  }

  lemma RegisteredHalted(s: Session, side: Side, id: Id)
    requires Inv(s) && Halted(s) && Dead(s) && id in HalfOf(s, side).recv.reg
    ensures id in HalfOf(s, side).relays && HalfOf(s, side).relays[id].pc.Reading?
  {
    assert ChanOk(HalfOf(s, side).recv, HalfOf(s, Peer(side)).out.delivered, id) && StreamOk(s, id);
    OpeningHalted(s);
    if side.Client? { HandlerHalted(s, id); }
    RelayHalted(s, side, id);
  }

  /** The frame channel is empty: a writer that holds a frame waits for a reader that is busy, and none is. */
  lemma ChannelHalted(s: Session, side: Side)
    requires Inv(s) && Halted(s) && Dead(s)
    ensures HalfOf(s, side).out.queue == [] && HalfOf(s, side).out.hand.None?
  {
    var p := HalfOf(s, side).out;
    if p.writer.Running? {
      HaltedIsStuck(s);
      WriterStuck(s, side);
      NobodyParked(s, Peer(side));
      OpeningHalted(s);
      var take, fail := ReaderStep(Peer(side), TakeMessage), WriterStep(side, SendFails);
      assert WindsDown(s, take) && !Can(s, take);
      assert !HalfOf(s, Peer(side)).reader.Looping? ==> WindsDown(s, fail) && !Can(s, fail);
    }
  }

  lemma HalfHalted(s: Session, side: Side)
    requires Inv(s) && Halted(s) && Dead(s)
    ensures HalfClean(HalfOf(s, side))
  {
    NobodyParked(s, side);
    ChannelHalted(s, side);
    var h := HalfOf(s, side);
    forall id | id in h.recv.chans ensures ChanSettled(h, id) && !h.recv.chans[id].task.Held? {
      ChanHalted(s, side, id);
    }
    forall id | id in h.relays ensures h.relays[id].pc.Reading? || h.relays[id].pc.Ended? { RelayHalted(s, side, id); }
    forall id | id in h.recv.reg ensures id in h.relays && h.relays[id].pc.Reading? { RegisteredHalted(s, side, id); }
  }

  /** A dead session in which nothing is left to wind down is clean. */
  lemma HaltedIsClean(s: Session)
    requires Inv(s) && Halted(s) && Dead(s)
    ensures Clean(s)
  {
    HalfHalted(s, Client);
    HalfHalted(s, Server);
    OpeningHalted(s);
    forall id | id in s.handlers ensures s.handlers[id].pc.Relaying? || s.handlers[id].pc.Returned? {
      HandlerHalted(s, id);
    }
  }

  // ── Getting there ───────────────────────────────────────────────────────────

  /** Writers and readers do not come back. */
  predicate Declines(h: Half, h': Half) {
    (h'.out.writer.Running? ==> h.out.writer.Running?) && (h'.reader.Looping? ==> h.reader.Looping?)
  }

  lemma HandlerDeclines(s: Session, id: Id, a: HandlerAct)
    requires CanHandler(s, id, a)
    ensures Declines(s.client, DoHandler(s, id, a).client) && DoHandler(s, id, a).server == s.server
    ensures DoHandler(s, id, a).cfg == s.cfg
  {
  }

  lemma ReaderDeclines(s: Session, side: Side, d: ReaderAct)
    requires CanRead(s, side, d)
    ensures var s' := DoRead(s, side, d);
            Declines(s.client, s'.client) && Declines(s.server, s'.server) && s'.cfg == s.cfg
  {
  }

  lemma StepDeclines(s: Session, a: Action)
    requires Can(s, a)
    ensures Declines(s.client, Do(s, a).client) && Declines(s.server, Do(s, a).server) && Do(s, a).cfg == s.cfg
  {
    match a
    case HandlerStep(id, h) => HandlerDeclines(s, id, h);
    case RelayStep(side, id, r) => RelayAlive(HalfOf(s, side), id, r);
    case ReaderStep(side, d) => ReaderDeclines(s, side, d);
    case _ =>
  }

  /**
   However a dead session is wound down, and whatever else fails on the way, it takes a
   bounded number of steps and can stop only when it is clean.
   */
  lemma {:induction false} EveryShutdownEnds(s: Session, run: seq<Action>)
    requires Inv(s) && Dead(s) && Runs(s, run) && forall a :: a in run ==> !IsInput(a)
    ensures |run| <= Cost(s)
    ensures Dead(After(s, run))
    ensures Clean(After(s, run)) || exists a :: WindsDown(After(s, run), a) && Can(After(s, run), a)
    decreases |run|
  {
    if run == [] {
      if Halted(s) { HaltedIsClean(s); }
    } else {
      assert run[0] in run && forall a :: a in run[1..] ==> a in run;
      StepCosts(s, run[0]);
      StepKeeps(s, run[0]);
      StepDeclines(s, run[0]);
      EveryShutdownEnds(Do(s, run[0]), run[1..]);
    }
  }
}
