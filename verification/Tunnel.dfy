/**
 One tunnel session as a transition system: the client process and the server
 process at the two ends of one WebSocket, with any number of streams.  Every
 action is one atomic step of one task between two points where it can be
 preempted; `Can` is its guard and `Do` its effect.

   client handlers, relay loops, write tasks, writer and reader loop
       client/src/lib.rs
   server relays, write tasks, writer and reader loop with `handle_open` inline
       server/src/lib.rs
 */
module Tunnel {
  import opened Basics
  import opened Frames
  import opened Streams
  import opened Pipes
  import opened HttpLimits

  const RELAY_BUFFER := 8192

  /** `allowed` is the server's destination filter, `wireCap` how many frames the wire can hold. */
  datatype Config = Config(allowed: string -> bool, wireCap: nat)

  // ── One process ─────────────────────────────────────────────────────────────

  /** The loop that copies a socket into DATA frames, from spawning its write task to its last step. */
  datatype RelayPc =
    | Spawning
    | Reading
    | Sending(chunk: Bytes)
    | SendingClose
    | Unlinking
    | Ended

  /** `fed` lists the chunks the stream's sender has produced so far. */
  datatype Relay = Relay(pc: RelayPc, fed: seq<Bytes>)

  /** Looping, then left the loop, then streams cleared, then (client only) acks cleared. */
  datatype Reader = Looping | LeftLoop | Swept | Finished

  datatype Half = Half(out: Pipe, recv: Recv, relays: map<Id, Relay>, reader: Reader)

  const EMPTY_HALF := Half(EMPTY_PIPE, EMPTY_RECV, map[], Looping)

  datatype RelayAct = SpawnWriter | ReadSocket(chunk: Bytes) | ReadEnds | PushData | DataLost | PushClose | UnlinkSelf

  predicate CanRelay(h: Half, id: Id, a: RelayAct) {
    id in h.relays
    && var pc := h.relays[id].pc;
       match a
       case SpawnWriter => pc.Spawning?
       case ReadSocket(chunk) => pc.Reading? && 0 < |chunk| <= RELAY_BUFFER
       case ReadEnds => pc.Reading?
       case PushData => pc.Sending? && HasRoom(h.out)
       case DataLost => pc.Sending? && !h.out.writer.Running?
       case PushClose => pc.SendingClose? && (HasRoom(h.out) || !h.out.writer.Running?)
       case UnlinkSelf => pc.Unlinking?
  }

  function SetRelay(h: Half, id: Id, pc: RelayPc): Half
    requires id in h.relays
  {
    h.(relays := h.relays[id := h.relays[id].(pc := pc)])
  }

  function DoRelay(h: Half, id: Id, a: RelayAct): Half
    requires CanRelay(h, id, a)
  {
    match a
    case SpawnWriter => SetRelay(h, id, Reading).(recv := Spawn(h.recv, id))
    case ReadSocket(chunk) => h.(relays := h.relays[id := Relay(Sending(chunk), h.relays[id].fed + [chunk])])
    case ReadEnds => SetRelay(h, id, SendingClose)
    case PushData => SetRelay(h, id, Reading).(out := Push(h.out, Data(id, h.relays[id].pc.chunk)))
    case DataLost => SetRelay(h, id, SendingClose)
    case PushClose =>
      var h1 := SetRelay(h, id, Unlinking);
      if h.out.writer.Running? then h1.(out := Push(h.out, Close(id))) else h1
    case UnlinkSelf => SetRelay(h, id, Ended).(recv := Unlink(h.recv, id, OwnerClosed))
  }

  // ── The whole session ───────────────────────────────────────────────────────

  /** What a local connection wants: a plain request carries the bytes sent ahead of the relay. */
  datatype Kind = Connect | Socks | Plain(request: Bytes)

  /** Program counter of a client handler. */
  datatype HandlerPc =
    | Snapshot               // holds the session, nothing done yet
    | Registered             // stream registered, ack slot not yet
    | SendingOpen
    | AwaitingAck
    | Aborting(reply: bool)  // about to close its stream, then maybe report failure
    | Failing                // about to write the failure reply
    | Replying               // about to write the success reply
    | SendingFirst           // about to send the plain request
    | Relaying               // the rest is in `relays`
    | Returned

  datatype Reply = NoReply | Success | Failure

  datatype Handler = Handler(kind: Kind, dest: string, pc: HandlerPc, reply: Reply)

  /** The server's `handle_open`, awaited inside its reader loop. */
  datatype Opening =
    | Nothing
    | Deciding(id: Id, dest: string)
    | Connected(id: Id)
    | ConnectFailed(id: Id)
    | Acking(id: Id, ok: bool)

  /**
   `pending` holds the ids in `pending_acks`; `slots` the one-shot channel of every
   handler that made one, with the verdict sent into it.  `held` says that the
   client's main task still holds the session's frame sender.
   */
  datatype Session = Session(cfg: Config, client: Half, server: Half, handlers: map<Id, Handler>,
                             pending: set<Id>, slots: map<Id, Option<bool>>, opening: Opening, held: bool)

  function Start(cfg: Config): Session {
    Session(cfg, EMPTY_HALF, EMPTY_HALF, map[], {}, map[], Nothing, true)
  }

  datatype Side = Client | Server

  function HalfOf(s: Session, side: Side): Half {
    if side.Client? then s.client else s.server
  }

  function SetHalf(s: Session, side: Side, h: Half): Session {
    if side.Client? then s.(client := h) else s.(server := h)
  }

  function Peer(side: Side): Side {
    if side.Client? then Server else Client
  }

  datatype HandlerAct =
    | Arrive(kind: Kind, dest: string)
    | RegisterSelf
    | InsertAck
    | PushOpen
    | OpenLost
    | TakeVerdict
    | TimeOut
    | AbortClose
    | WriteFailure
    | WriteSuccess
    | SuccessLost
    | PushFirst
    | FirstLost

  datatype ReaderAct = TakeMessage | AdmitChunk | BounceChunk | Leave | SweepStreams | ClearAcks

  datatype OpeningAct = Deny | ConnectOk | ConnectErr | RegisterStream | UnlinkFailed | PushAck

  datatype ConnAct = ConnClear | ConnSweep | ConnRelease

  datatype Action =
    | HandlerStep(id: Id, h: HandlerAct)
    | RelayStep(side: Side, id: Id, r: RelayAct)
    | TaskStep(side: Side, id: Id, t: TaskAct)
    | WriterStep(side: Side, w: WriterAct)
    | ReaderStep(side: Side, d: ReaderAct)
    | OpeningStep(o: OpeningAct)
    | ConnStep(c: ConnAct)

  // ── Client handlers ─────────────────────────────────────────────────────────

  predicate CanHandler(s: Session, id: Id, a: HandlerAct) {
    if a.Arrive? then id !in s.handlers && (a.kind.Plain? ==> |a.kind.request| <= MAX_REQUEST)
    else
      id in s.handlers
      && var h := s.handlers[id];
         match a
         case RegisterSelf => h.pc.Snapshot?
         case InsertAck => h.pc.Registered?
         case PushOpen => h.pc.SendingOpen? && HasRoom(s.client.out)
         case OpenLost => h.pc.SendingOpen? && !s.client.out.writer.Running?
         // the slot has a verdict, or its sender has been dropped
         case TakeVerdict => h.pc.AwaitingAck? && id in s.slots && (s.slots[id].Some? || id !in s.pending)
         case TimeOut => h.pc.AwaitingAck?
         case AbortClose => h.pc.Aborting?
         case WriteFailure => h.pc.Failing?
         case WriteSuccess => h.pc.Replying?
         case SuccessLost => h.pc.Replying?
         case PushFirst => h.pc.SendingFirst? && h.kind.Plain? && HasRoom(s.client.out)
         case FirstLost => h.pc.SendingFirst? && !s.client.out.writer.Running?
  }

  function SetPc(s: Session, id: Id, pc: HandlerPc): Session
    requires id in s.handlers
  {
    s.(handlers := s.handlers[id := s.handlers[id].(pc := pc)])
  }

  function SetReply(s: Session, id: Id, pc: HandlerPc, reply: Reply): Session
    requires id in s.handlers
  {
    s.(handlers := s.handlers[id := s.handlers[id].(pc := pc, reply := reply)])
  }

  /** The handler enters the relay loop shared by all kinds. */
  function EnterRelay(s: Session, id: Id, reply: Reply, fed: seq<Bytes>): Session
    requires id in s.handlers
  {
    var s1 := SetReply(s, id, Relaying, reply);
    s1.(client := s1.client.(relays := s1.client.relays[id := Relay(Spawning, fed)]))
  }

  function DoHandler(s: Session, id: Id, a: HandlerAct): Session
    requires CanHandler(s, id, a)
  {
    match a
    case Arrive(kind, dest) => s.(handlers := s.handlers[id := Handler(kind, dest, Snapshot, NoReply)])
    case RegisterSelf => SetPc(s, id, Registered).(client := s.client.(recv := Register(s.client.recv, id)))
    case InsertAck => SetPc(s, id, SendingOpen).(pending := s.pending + {id}, slots := s.slots[id := None])
    case PushOpen =>
      var open := Open(id, s.handlers[id].dest);
      SetPc(s, id, AwaitingAck).(client := s.client.(out := Push(s.client.out, open)))
    case OpenLost => SetPc(s, id, Aborting(s.handlers[id].kind.Socks?))
    case TakeVerdict =>
      if s.slots[id] != Some(true) then SetPc(s, id, Aborting(true))
      else SetPc(s, id, if s.handlers[id].kind.Plain? then SendingFirst else Replying)
    case TimeOut => SetPc(s, id, Aborting(true))
    case AbortClose =>
      var r := Unlink(s.client.recv, id, OwnerClosed);
      if s.handlers[id].pc.reply then SetPc(s, id, Failing).(client := s.client.(recv := r))
      else SetPc(s, id, Returned).(client := s.client.(recv := DropReceiver(r, id)))
    case WriteFailure =>
      SetReply(s, id, Returned, Failure).(client := s.client.(recv := DropReceiver(s.client.recv, id)))
    case WriteSuccess => EnterRelay(s, id, Success, [])
    case SuccessLost => SetPc(s, id, Aborting(false))
    case PushFirst =>
      var request := s.handlers[id].kind.request;
      var s1 := EnterRelay(s, id, NoReply, [request]);
      s1.(client := s1.client.(out := Push(s1.client.out, Data(id, request))))
    case FirstLost => SetPc(s, id, Aborting(false))
  }

  // ── Reader loops ────────────────────────────────────────────────────────────

  /** The reader waits at `ws_src.next()`. */
  predicate AtNext(s: Session, side: Side) {
    HalfOf(s, side).reader.Looping? && HalfOf(s, side).recv.parked.None? && (side.Server? ==> s.opening.Nothing?)
  }

  predicate CanRead(s: Session, side: Side, a: ReaderAct) {
    var h := HalfOf(s, side);
    match a
    case TakeMessage => AtNext(s, side) && HalfOf(s, Peer(side)).out.wire != []
    case AdmitChunk => h.reader.Looping? && CanAdmit(h.recv)
    case BounceChunk => h.reader.Looping? && CanBounce(h.recv)
    case Leave => AtNext(s, side)
    case SweepStreams => h.reader.LeftLoop?
    case ClearAcks => side.Client? && h.reader.Swept?
  }

  /** The client reader's `match Frame::decode(&data)`; the last case is its catch-all arm. */
  function DispatchClient<E>(s: Session, m: Result<Frame, E>): Session {
    match m
    case Ok(OpenAck(id, ok)) =>
      if id in s.pending then s.(pending := s.pending - {id}, slots := s.slots[id := Some(ok)]) else s
    case Ok(Data(id, bytes)) => s.(client := s.client.(recv := Route(s.client.recv, id, bytes)))
    case Ok(Close(id)) => s.(client := s.client.(recv := Unlink(s.client.recv, id, PeerClosed)))
    case _ => s
  }

  /** The server reader's `match Frame::decode(&data)`. */
  function DispatchServer<E>(s: Session, m: Result<Frame, E>): Session {
    match m
    case Ok(Open(id, dest)) => s.(opening := Deciding(id, dest))
    case Ok(Data(id, bytes)) => s.(server := s.server.(recv := Route(s.server.recv, id, bytes)))
    case Ok(Close(id)) => s.(server := s.server.(recv := Unlink(s.server.recv, id, PeerClosed)))
    case _ => s
  }

  function Dispatch<E>(s: Session, side: Side, m: Result<Frame, E>): Session {
    if side.Client? then DispatchClient(s, m) else DispatchServer(s, m)
  }

  /** The first frame leaves the wire towards `side`. */
  function PopWire(s: Session, side: Side): Session
    requires HalfOf(s, Peer(side)).out.wire != []
  {
    var p := HalfOf(s, Peer(side));
    SetHalf(s, Peer(side), p.(out := Deliver(p.out)))
  }

  function DoRead(s: Session, side: Side, a: ReaderAct): Session
    requires CanRead(s, side, a)
  {
    var h := HalfOf(s, side);
    match a
    case TakeMessage =>
      var f: Result<Frame, ()> := Ok(HalfOf(s, Peer(side)).out.wire[0]);
      Dispatch(PopWire(s, side), side, f)
    case AdmitChunk => SetHalf(s, side, h.(recv := Admit(h.recv)))
    case BounceChunk => SetHalf(s, side, h.(recv := Bounce(h.recv)))
    case Leave => SetHalf(s, side, h.(reader := LeftLoop))
    case SweepStreams =>
      SetHalf(s, side, h.(recv := UnlinkAll(h.recv), reader := if side.Client? then Swept else Finished))
    case ClearAcks => SetHalf(s, side, h.(reader := Finished)).(pending := {})
  }

  // ── The server's handle_open ────────────────────────────────────────────────

  predicate CanOpen(s: Session, a: OpeningAct) {
    match a
    case Deny => s.opening.Deciding? && !s.cfg.allowed(s.opening.dest)
    case ConnectOk => s.opening.Deciding? && s.cfg.allowed(s.opening.dest)
    case ConnectErr => s.opening.Deciding? && s.cfg.allowed(s.opening.dest)
    case RegisterStream => s.opening.Connected?
    case UnlinkFailed => s.opening.ConnectFailed?
    case PushAck => s.opening.Acking? && (HasRoom(s.server.out) || !s.server.out.writer.Running?)
  }

  function DoOpen(s: Session, a: OpeningAct): Session
    requires CanOpen(s, a)
  {
    var id := s.opening.id;
    match a
    case Deny => s.(opening := Acking(id, false))
    case ConnectOk => s.(opening := Connected(id))
    case ConnectErr => s.(opening := ConnectFailed(id))
    case RegisterStream => s.(opening := Acking(id, true), server := s.server.(recv := Register(s.server.recv, id)))
    case UnlinkFailed =>
      s.(opening := Acking(id, false), server := s.server.(recv := Unlink(s.server.recv, id, OwnerClosed)))
    case PushAck =>
      var ok := s.opening.ok;
      // a failed send is ignored: the relay is spawned all the same
      var out := if s.server.out.writer.Running? then Push(s.server.out, OpenAck(id, ok)) else s.server.out;
      var relays := if ok then s.server.relays[id := Relay(Spawning, [])] else s.server.relays;
      s.(opening := Nothing, server := s.server.(out := out, relays := relays))
  }

  // ── Writer loops and the keeper's hand on the session ───────────────────────

  /** No task of `side` holds a sender of its frame channel any more. */
  ghost predicate NoSender(s: Session, side: Side) {
    (forall id :: id in HalfOf(s, side).relays ==> HalfOf(s, side).relays[id].pc.Ended?)
    && if side.Client?
       then !s.held && forall id :: id in s.handlers ==> s.handlers[id].pc.Relaying? || s.handlers[id].pc.Returned?
       else s.server.reader.Finished?
  }

  ghost predicate CanWriter(s: Session, side: Side, a: WriterAct) {
    CanWrite(HalfOf(s, side).out, s.cfg.wireCap, a) && (a.SeeNoSender? ==> NoSender(s, side))
  }

  function DoWriter(s: Session, side: Side, a: WriterAct): Session
    requires CanWrite(HalfOf(s, side).out, s.cfg.wireCap, a)
  {
    var h := HalfOf(s, side);
    var h1 := h.(out := DoWrite(h.out, a));
    SetHalf(s, side, if a.Sweep? then h1.(recv := UnlinkAll(h.recv)) else h1)
  }

  /** `MuxConn::close`, one lock at a time, and the keeper's reference going away. */
  function DoConn(s: Session, a: ConnAct): Session {
    match a
    case ConnClear => s.(pending := {})
    case ConnSweep => s.(client := s.client.(recv := UnlinkAll(s.client.recv)))
    case ConnRelease => s.(held := false)
  }

  // ── Steps and runs ──────────────────────────────────────────────────────────

  ghost predicate Can(s: Session, a: Action) {
    match a
    case HandlerStep(id, h) => CanHandler(s, id, h)
    case RelayStep(side, id, r) => CanRelay(HalfOf(s, side), id, r)
    case TaskStep(side, id, t) => CanTask(HalfOf(s, side).recv, id, t)
    case WriterStep(side, w) => CanWriter(s, side, w)
    case ReaderStep(side, d) => CanRead(s, side, d)
    case OpeningStep(o) => CanOpen(s, o)
    case ConnStep(_) => true
  }

  ghost function Do(s: Session, a: Action): Session
    requires Can(s, a)
  {
    match a
    case HandlerStep(id, h) => DoHandler(s, id, h)
    case RelayStep(side, id, r) => SetHalf(s, side, DoRelay(HalfOf(s, side), id, r))
    case TaskStep(side, id, t) =>
      var h := HalfOf(s, side);
      SetHalf(s, side, h.(recv := DoTask(h.recv, id, t)))
    case WriterStep(side, w) => DoWriter(s, side, w)
    case ReaderStep(side, d) => DoRead(s, side, d)
    case OpeningStep(o) => DoOpen(s, o)
    case ConnStep(c) => DoConn(s, c)
  }

  /** `run` can be executed from `s`, one action after the other. */
  ghost predicate Runs(s: Session, run: seq<Action>)
    decreases |run|
  {
    run == [] || (Can(s, run[0]) && Runs(Do(s, run[0]), run[1..]))
  }

  ghost function After(s: Session, run: seq<Action>): Session
    requires Runs(s, run)
    decreases |run|
  {
    if run == [] then s else After(Do(s, run[0]), run[1..])
  }

  ghost predicate Reachable(s: Session) {
    exists cfg: Config, run: seq<Action> :: Runs(Start(cfg), run) && s == After(Start(cfg), run)
  }
}
