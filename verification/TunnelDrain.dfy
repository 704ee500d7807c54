/**
 Every step of a session that is not new input makes a measure smaller: the
 distance, in steps, that every frame, chunk and task still has to go.
 */
module TunnelDrain {
  import opened Basics
  import opened Frames
  import opened Streams
  import opened Pipes
  import opened Tunnel
  import opened TunnelInvariant
  import opened Totals

  // ── The measure ─────────────────────────────────────────────────────────────

  /** Steps a frame still causes once it is on the wire. */
  function WireCost(f: Frame): nat {
    match f
    case Open(_, _) => 10
    case Data(_, bytes) => |bytes| + 5
    case _ => 1
  }

  function QueueCost(f: Frame): nat {
    WireCost(f) + 2
  }

  function PipeCost(p: Pipe): nat {
    SeqTotal(p.queue, QueueCost) + (if p.hand.Some? then WireCost(p.hand.value) + 1 else 0) + SeqTotal(p.wire, WireCost)
      + match p.writer case Running => 2 case Broken => 1 case Gone => 0
  }

  function ChunkCost(chunk: Bytes): nat {
    |chunk| + 3
  }

  function ChanCost(c: Chan): nat {
    SeqTotal(c.queue, ChunkCost)
      + match c.task
        case Held => 2
        case Ready => 1
        case Writing(data, n) => (if n <= |data| then |data| - n else 0) + 2
        case Stopped(_, _) => 0
  }

  ghost function RecvCost(r: Recv): nat {
    Total(r.chans, ChanCost) + if r.parked.Some? then |r.parked.value.data| + 4 else 0
  }

  function RelayCost(r: Relay): nat {
    match r.pc
    case Spawning => 1
    case Reading => 0
    case Sending(chunk) => |chunk| + 8
    case SendingClose => 5
    case Unlinking => 1
    case Ended => 0
  }

  function HandlerCost(h: Handler): nat {
    var extra := if h.kind.Plain? then |h.kind.request| else 0;
    match h.pc
    case Snapshot => extra + 27
    case Registered => extra + 24
    case SendingOpen => extra + 23
    case AwaitingAck => extra + 10
    case Aborting(_) => 3
    case Failing => 1
    case Replying => 4
    case SendingFirst => extra + 9
    case Relaying => 0
    case Returned => 0
  }

  function OpeningCost(o: Opening): nat {
    match o
    case Nothing => 0
    case Deciding(_, _) => 9
    case Connected(_) => 8
    case ConnectFailed(_) => 6
    case Acking(_, _) => 5
  }

  function ReaderCost(r: Reader): nat {
    match r case Looping => 3 case LeftLoop => 2 case Swept => 1 case Finished => 0
  }

  ghost function HalfCost(h: Half): nat {
    PipeCost(h.out) + RecvCost(h.recv) + Total(h.relays, RelayCost) + ReaderCost(h.reader)
  }

  ghost function Cost(s: Session): nat {
    HalfCost(s.client) + HalfCost(s.server) + Total(s.handlers, HandlerCost) + OpeningCost(s.opening)
  }

  /** New work from outside: a connection, bytes or the end of a socket; and the keeper's own steps. */
  predicate IsInput(a: Action) {
    match a
    case HandlerStep(_, h) => h.Arrive?
    case RelayStep(_, _, r) => r.ReadSocket? || r.ReadEnds?
    case ConnStep(_) => true
    case _ => false
  }

  // ── Pieces ──────────────────────────────────────────────────────────────────

  lemma PushCost(p: Pipe, f: Frame)
    ensures PipeCost(Push(p, f)) == PipeCost(p) + QueueCost(f)
  {
    SeqTotalSnoc(p.queue, QueueCost, f);
  }

  lemma WriteCost(p: Pipe, cap: nat, a: WriterAct)
    requires CanWrite(p, cap, a)
    ensures PipeCost(DoWrite(p, a)) < PipeCost(p)
  {
    if a.PutFrame? { SeqTotalSnoc(p.wire, WireCost, p.hand.value); }
  }

  lemma ChanPut(r: Recv, id: Id, c: Chan)
    ensures RecvCost(r.(chans := r.chans[id := c])) + (if id in r.chans then ChanCost(r.chans[id]) else 0) ==
            RecvCost(r) + ChanCost(c)
  {
    TotalPut(r.chans, ChanCost, id, c);
  }

  lemma UnlinkCost(r: Recv, id: Id, why: Link)
    ensures RecvCost(Unlink(r, id, why)) == RecvCost(r)
  {
    if id in r.chans { ChanPut(r, id, r.chans[id].(link := why)); }
  }

  lemma UnlinkAllCost(r: Recv)
    ensures RecvCost(UnlinkAll(r)) == RecvCost(r)
  {
    TotalSame(UnlinkAll(r).chans, r.chans, ChanCost);
  }

  lemma RegisterCost(r: Recv, id: Id)
    ensures RecvCost(Register(r, id)) <= RecvCost(r) + 2
  {
    ChanPut(r, id, Chan(Linked, [], Held, []));
  }

  lemma DropCost(r: Recv, id: Id)
    ensures RecvCost(DropReceiver(r, id)) <= RecvCost(r)
  {
    if id in r.chans { ChanPut(r, id, r.chans[id].(task := Stopped(None, 0), queue := [])); }
  }

  lemma SpawnCost(r: Recv, id: Id)
    ensures RecvCost(Spawn(r, id)) <= RecvCost(r)
  {
    if id in r.chans { ChanPut(r, id, r.chans[id].(task := Ready)); }
  }

  lemma AdmitCost(r: Recv)
    requires CanAdmit(r)
    ensures RecvCost(Admit(r)) < RecvCost(r)
  {
    var Parked(id, data) := r.parked.value;
    var c := r.chans[id];
    SeqTotalSnoc(c.queue, ChunkCost, data);
    ChanPut(r, id, c.(queue := c.queue + [data]));
  }

  lemma TaskCost(r: Recv, id: Id, a: TaskAct)
    requires CanTask(r, id, a)
    ensures RecvCost(DoTask(r, id, a)) < RecvCost(r)
  {
    ChanPut(r, id, ChanAfter(r.chans[id], a));
  }

  // ── Every step that is not input ────────────────────────────────────────────

  lemma RelayStepCost(h: Half, id: Id, a: RelayAct)
    requires CanRelay(h, id, a) && !a.ReadSocket? && !a.ReadEnds?
    ensures HalfCost(DoRelay(h, id, a)) < HalfCost(h)
  {
    TotalPut(h.relays, RelayCost, id, DoRelay(h, id, a).relays[id]);
    match a
    case SpawnWriter => SpawnCost(h.recv, id);
    case PushData => PushCost(h.out, Data(id, h.relays[id].pc.chunk));
    case PushClose => PushCost(h.out, Close(id));
    case UnlinkSelf => UnlinkCost(h.recv, id, OwnerClosed);
    case _ =>
  }

  lemma WriterStepCost(s: Session, side: Side, a: WriterAct)
    requires CanWrite(HalfOf(s, side).out, s.cfg.wireCap, a)
    ensures Cost(DoWriter(s, side, a)) < Cost(s)
  {
    WriteCost(HalfOf(s, side).out, s.cfg.wireCap, a);
    UnlinkAllCost(HalfOf(s, side).recv);
  }

  lemma DispatchCost(s: Session, side: Side, f: Frame)
    requires HalfOf(s, side).recv.parked.None? && (side.Server? ==> s.opening.Nothing?)
    ensures var m: Result<Frame, ()> := Ok(f); Cost(Dispatch(s, side, m)) < Cost(s) + WireCost(f)
  {
    if f.Close? { UnlinkCost(HalfOf(s, side).recv, f.id, PeerClosed); }
  }

  lemma ReaderStepCost(s: Session, side: Side, a: ReaderAct)
    requires CanRead(s, side, a)
    ensures Cost(DoRead(s, side, a)) < Cost(s)
  {
    var h := HalfOf(s, side);
    match a
    case TakeMessage =>
      assert Cost(PopWire(s, side)) + WireCost(HalfOf(s, Peer(side)).out.wire[0]) == Cost(s);
      DispatchCost(PopWire(s, side), side, HalfOf(s, Peer(side)).out.wire[0]);
    case AdmitChunk => AdmitCost(h.recv);
    case BounceChunk =>
    case Leave =>
    case SweepStreams => UnlinkAllCost(h.recv);
    case ClearAcks =>
  }

  lemma OpeningStepCost(s: Session, a: OpeningAct)
    requires CanOpen(s, a) && (a.PushAck? ==> s.opening.id !in s.server.relays)
    ensures Cost(DoOpen(s, a)) < Cost(s)
  {
    var id := s.opening.id;
    match a
    case RegisterStream => RegisterCost(s.server.recv, id);
    case UnlinkFailed => UnlinkCost(s.server.recv, id, OwnerClosed);
    case PushAck =>
      PushCost(s.server.out, OpenAck(id, s.opening.ok));
      TotalPut(s.server.relays, RelayCost, id, Relay(Spawning, []));
    case _ =>
  }

  lemma HandlerFrameCost(s: Session, id: Id, a: HandlerAct)
    requires CanHandler(s, id, a)
    ensures id in DoHandler(s, id, a).handlers
            && DoHandler(s, id, a).handlers == s.handlers[id := DoHandler(s, id, a).handlers[id]]
    ensures DoHandler(s, id, a).server == s.server && DoHandler(s, id, a).opening == s.opening
  {
  }

  /** The handlers alone. */
  lemma HandlersCost(s: Session, s': Session, id: Id)
    requires id in s.handlers && id in s'.handlers && s'.handlers == s.handlers[id := s'.handlers[id]]
    ensures Total(s'.handlers, HandlerCost) + HandlerCost(s.handlers[id]) ==
            Total(s.handlers, HandlerCost) + HandlerCost(s'.handlers[id])
  {
    TotalPut(s.handlers, HandlerCost, id, s'.handlers[id]);
  }

  lemma EnterRelayCost(h: Half, id: Id, fed: seq<Bytes>)
    requires id !in h.relays
    ensures HalfCost(h.(relays := h.relays[id := Relay(Spawning, fed)])) == HalfCost(h) + 1
  {
    TotalPut(h.relays, RelayCost, id, Relay(Spawning, fed));
  }

  /** What a handler step puts into the client's half. */
  function Payload(h: Handler, a: HandlerAct): nat {
    match a
    case RegisterSelf => 2
    case PushOpen => 12
    case WriteSuccess => 1
    case PushFirst => if h.kind.Plain? then |h.kind.request| + 8 else 0
    case _ => 0
  }

  lemma HandlerHalfCost(s: Session, id: Id, a: HandlerAct)
    requires CanHandler(s, id, a) && !a.Arrive?
    requires a.WriteSuccess? || a.PushFirst? ==> id !in s.client.relays
    ensures HalfCost(DoHandler(s, id, a).client) <= HalfCost(s.client) + Payload(s.handlers[id], a)
  {
    var r := s.client.recv;
    if a.RegisterSelf? {
      RegisterCost(r, id);
    } else if a.PushOpen? {
      PushCost(s.client.out, Open(id, s.handlers[id].dest));
    } else if a.AbortClose? {
      UnlinkCost(r, id, OwnerClosed);
      DropCost(Unlink(r, id, OwnerClosed), id);
    } else if a.WriteFailure? {
      DropCost(r, id);
    } else if a.WriteSuccess? {
      EnterRelayCost(s.client, id, []);
    } else if a.PushFirst? {
      var request := s.handlers[id].kind.request;
      EnterRelayCost(s.client, id, [request]);
      PushCost(s.client.out, Data(id, request));
    } else {
      assert DoHandler(s, id, a).client == s.client;
    }
  }

  /** A handler's own cost goes down by more than that. */
  lemma HandlerPays(s: Session, id: Id, a: HandlerAct)
    requires CanHandler(s, id, a) && !a.Arrive?
    ensures HandlerCost(DoHandler(s, id, a).handlers[id]) + Payload(s.handlers[id], a) < HandlerCost(s.handlers[id])
  {
  }

  lemma HandlerStepCost(s: Session, id: Id, a: HandlerAct)
    requires CanHandler(s, id, a) && !a.Arrive?
    requires a.WriteSuccess? || a.PushFirst? ==> id !in s.client.relays
    ensures Cost(DoHandler(s, id, a)) < Cost(s)
  {
    HandlerFrameCost(s, id, a);
    HandlersCost(s, DoHandler(s, id, a), id);
    HandlerHalfCost(s, id, a);
    HandlerPays(s, id, a);
  }

  /** No step but new input can keep a session busy. */
  lemma StepCosts(s: Session, a: Action)
    requires Inv(s) && Can(s, a) && !IsInput(a)
    ensures Cost(Do(s, a)) < Cost(s)
  {
    match a
    case HandlerStep(id, h) =>
      assert StreamOk(s, id);
      HandlerStepCost(s, id, h);
    case RelayStep(side, id, r) => RelayStepCost(HalfOf(s, side), id, r);
    case TaskStep(side, id, t) => TaskCost(HalfOf(s, side).recv, id, t);
    case WriterStep(side, w) => WriterStepCost(s, side, w);
    case ReaderStep(side, d) => ReaderStepCost(s, side, d);
    case OpeningStep(o) =>
      assert StreamOk(s, s.opening.id);
      OpeningStepCost(s, o);
  }

  /** A run without input is no longer than the measure of the state it starts from. */
  lemma {:induction false} QuietRunsEnd(s: Session, run: seq<Action>)
    requires Inv(s) && Runs(s, run) && forall a :: a in run ==> !IsInput(a)
    ensures |run| + Cost(After(s, run)) <= Cost(s)
    decreases |run|
  {
    if run != [] {
      assert run[0] in run && forall a :: a in run[1..] ==> a in run;
      StepCosts(s, run[0]);
      StepKeeps(s, run[0]);
      QuietRunsEnd(Do(s, run[0]), run[1..]);
    }
  }
}
