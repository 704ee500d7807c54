/**
 Taking streams out of the registry: a sweep takes out every one, CLOSE and `close` one,
 and who is out stays out, so that its write task ends and its socket with it.
 */
module TunnelTeardown {
  import opened Frames
  import opened History
  import opened Streams
  import opened Pipes
  import opened Tunnel
  import opened TunnelEnds
  import opened TunnelInvariant
  import opened TunnelProgress
  import opened TunnelShutdown

  /** The sweep a reader, a writer or the keeper makes of its side. */
  predicate Sweeps(a: Action, side: Side) {
    a == ReaderStep(side, SweepStreams) || a == WriterStep(side, Sweep) || (a == ConnStep(ConnSweep) && side.Client?)
  }

  /** A sweep empties the registry, and leaves to the write tasks what they have. */
  lemma SweepEmpties(s: Session, a: Action, side: Side)
    requires Can(s, a) && Sweeps(a, side)
    ensures var r, r' := HalfOf(s, side).recv, HalfOf(Do(s, a), side).recv;
            && r'.reg == {} && r'.parked == r.parked && r'.chans.Keys == r.chans.Keys
            && forall id :: id in r.chans ==>
                 && r'.chans[id].queue == r.chans[id].queue && r'.chans[id].task == r.chans[id].task
                 && r'.chans[id].done == r.chans[id].done
  {
    UnlinkAllMeans(HalfOf(s, side).recv);
  }

  /**
   No reader comes to its end but by sweeping its streams, and the client's then by
   clearing the acks.
   */
  lemma ReaderExits(s: Session, a: Action, side: Side)
    requires Can(s, a)
    ensures var h, h' := HalfOf(s, side), HalfOf(Do(s, a), side);
            || h'.reader == h.reader
            || (h.reader.Looping? && h'.reader.LeftLoop?)
            || (h.reader.LeftLoop? && h'.reader == (if side.Client? then Swept else Finished) && h'.recv.reg == {})
            || (side.Client? && h.reader.Swept? && h'.reader.Finished? && Do(s, a).pending == {})
  {
    match a
    case HandlerStep(i, h) => HandlerReaders(s, i, h);
    case ReaderStep(at, d) =>
      if d.TakeMessage? { TakenHalf(s, at); }
    case _ =>
  }

  lemma HandlerReaders(s: Session, i: Id, a: HandlerAct)
    requires CanHandler(s, i, a)
    ensures DoHandler(s, i, a).client.reader == s.client.reader && DoHandler(s, i, a).server == s.server
  {
  }

  /** And no writer but by sweeping its streams after it left its loop. */
  lemma WriterExits(s: Session, a: Action, side: Side)
    requires Can(s, a)
    ensures var h, h' := HalfOf(s, side), HalfOf(Do(s, a), side);
            || h'.out.writer == h.out.writer
            || (h.out.writer.Running? && h'.out.writer.Broken?)
            || (h.out.writer.Broken? && h'.out.writer.Gone? && h'.recv.reg == {})
  {
    match a
    case HandlerStep(i, h) => HandlerWriters(s, i, h);
    case ReaderStep(at, d) =>
      if d.TakeMessage? { TakenHalf(s, at); }
    case _ =>
  }

  lemma HandlerWriters(s: Session, i: Id, a: HandlerAct)
    requires CanHandler(s, i, a)
    ensures DoHandler(s, i, a).client.out.writer == s.client.out.writer && DoHandler(s, i, a).server == s.server
  {
  }

  /** Clearing the acks releases every handler that waits for one: it can take its verdict at once. */
  lemma ClearReleases(s: Session, a: Action, id: Id)
    requires Inv(s) && Can(s, a) && (a == ReaderStep(Client, ClearAcks) || a == ConnStep(ConnClear))
    requires id in s.handlers && s.handlers[id].pc.AwaitingAck?
    ensures Do(s, a).pending == {} && Can(Do(s, a), HandlerStep(id, TakeVerdict))
  {
    assert StreamOk(s, id);
  }

  /** Once registered and out of the registry: for good. */
  predicate Out(h: Half, id: Id) {
    id in h.recv.chans && id !in h.recv.reg
  }

  lemma HandlerOut(s: Session, i: Id, a: HandlerAct, id: Id)
    requires CanHandler(s, i, a) && StreamOk(s, id) && Out(s.client, id)
    ensures Out(DoHandler(s, i, a).client, id)
  {
  }

  lemma RelayOut(h: Half, i: Id, a: RelayAct, id: Id)
    requires CanRelay(h, i, a) && Out(h, id)
    ensures Out(DoRelay(h, i, a), id)
  {
  }

  lemma ReaderOut(s: Session, side: Side, a: ReaderAct, id: Id)
    requires CanRead(s, side, a) && Out(HalfOf(s, side), id)
    ensures Out(HalfOf(DoRead(s, side, a), side), id)
  {
    if a.TakeMessage? { TakenHalf(s, side); }
  }

  lemma OpeningOut(s: Session, a: OpeningAct, id: Id)
    requires CanOpen(s, a) && StreamOk(s, id) && Out(s.server, id)
    ensures Out(DoOpen(s, a).server, id)
  {
  }

  lemma HomeOut(s: Session, a: Action, id: Id)
    requires Can(s, a) && StreamOk(s, id) && Out(HalfOf(s, Home(a)), id)
    ensures Out(HalfOf(Do(s, a), Home(a)), id)
  {
    match a
    case HandlerStep(i, h) => HandlerOut(s, i, h, id);
    case RelayStep(side, i, r) => RelayOut(HalfOf(s, side), i, r, id);
    case ReaderStep(side, d) => ReaderOut(s, side, d, id);
    case OpeningStep(o) => OpeningOut(s, o, id);
    case _ =>
  }

  lemma AbroadOut(s: Session, a: Action)
    requires Can(s, a)
    ensures HalfOf(Do(s, a), Peer(Home(a))).recv == HalfOf(s, Peer(Home(a))).recv
  {
  }

  lemma {:induction false} StaysOut(s: Session, run: seq<Action>, side: Side, id: Id)
    requires Inv(s) && Runs(s, run) && Out(HalfOf(s, side), id)
    ensures Out(HalfOf(After(s, run), side), id)
    decreases |run|
  {
    if run != [] {
      assert StreamOk(s, id);
      if side == Home(run[0]) { HomeOut(s, run[0], id); } else { AbroadOut(s, run[0]); }
      StepKeeps(s, run[0]);
      StaysOut(Do(s, run[0]), run[1..], side, id);
    }
  }

  /** On every continuation of a sweep, the streams it met are out of the registry. */
  lemma SweptStaysOut(s: Session, a: Action, run: seq<Action>, side: Side, id: Id)
    requires Inv(s) && Can(s, a) && Sweeps(a, side) && id in HalfOf(s, side).recv.chans && Runs(Do(s, a), run)
    ensures Out(HalfOf(After(Do(s, a), run), side), id)
  {
    SweepEmpties(s, a, side);
    StepKeeps(s, a);
    StaysOut(Do(s, a), run, side, id);
  }

  /** A reader that has read CLOSE has taken the stream out, and it stays out. */
  lemma ReadCloseIsOut(s: Session, side: Side, id: Id)
    requires Reachable(s) && StageOf(HalfOf(s, Peer(side)).out.delivered, id) == Closed
    ensures id !in HalfOf(s, side).recv.reg
  {
    ReachableEnds(s);
    assert EndOf(s, side, id);
  }

  /**
   And then its write task ends: where a live session stands still without being jammed,
   or a dead one has been wound down, a relayed stream that is out has a stopped task.
   */
  lemma OutHasStopped(s: Session, side: Side, id: Id)
    requires Inv(s) && Out(HalfOf(s, side), id) && id in HalfOf(s, side).relays
    requires (Alive(s) && Stuck(s) && !Jammed(s)) || (Dead(s) && Halted(s))
    ensures HalfOf(s, side).recv.chans[id].task.Stopped?
  {
    var h := HalfOf(s, side);
    assert StreamOk(s, id);
    if Alive(s) && Stuck(s) && !Jammed(s) { StuckMeansDrainedOrJammed(s); } else { HaltedIsClean(s); }
    assert ChanSettled(h, id);
  }
}
