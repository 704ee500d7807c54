/** What every reachable state of a session satisfies, and why each step keeps it. */
module TunnelInvariant {
  import opened Basics
  import opened Frames
  import opened History
  import opened Streams
  import opened Pipes
  import opened HttpLimits
  import opened Tunnel

  /** The first chunk of a stream has its own limit, the others come out of a relay buffer. */
  ghost predicate SizesOk(chunks: seq<Bytes>, first: nat) {
    forall i :: 0 <= i < |chunks| ==> |chunks[i]| <= if i == 0 then first else RELAY_BUFFER
  }

  function Unsent(pc: RelayPc): seq<Bytes> {
    if pc.Sending? then [pc.chunk] else []
  }

  // ── One stream, seen in isolation ───────────────────────────────────────────

  /** Everything one side knows about one stream. `arrived` is the stage of what its peer has read. */
  datatype HalfView = HalfView(stage: Stage, chunks: seq<Bytes>, arrived: Stage, running: bool,
                               linked: bool, chan: Option<Chan>, relay: Option<Relay>)

  datatype View = View(handler: Option<Handler>, pending: bool, slot: Option<Option<bool>>,
                       opening: Opening, client: HalfView, server: HalfView)

  function Lookup<T>(m: map<Id, T>, id: Id): Option<T> {
    if id in m then Some(m[id]) else None
  }

  function HalfViewOf(h: Half, id: Id): HalfView {
    HalfView(StageOf(h.out.pushed, id), ChunksOf(h.out.pushed, id), StageOf(h.out.delivered, id),
             h.out.writer.Running?, id in h.recv.reg, Lookup(h.recv.chans, id), Lookup(h.relays, id))
  }

  function ViewOf(s: Session, id: Id): View {
    View(Lookup(s.handlers, id), id in s.pending, Lookup(s.slots, id),
         if !s.opening.Nothing? && s.opening.id == id then s.opening else Nothing,
         HalfViewOf(s.client, id), HalfViewOf(s.server, id))
  }

  predicate HeldIn(h: HalfView) {
    h.chan.Some? && h.chan.value.task.Held?
  }

  /** The relay has not seen the end of its socket, nor a failed send. */
  predicate MayRead(pc: RelayPc) {
    pc.Spawning? || pc.Reading? || pc.Sending?
  }

  /** A relay loop agrees with the frames it has queued. */
  ghost predicate HalfOk(h: HalfView, first: nat) {
    h.stage != Bad
    && SizesOk(h.chunks, first)
    && (h.linked ==> h.chan.Some?)
    && (h.relay.None? ==> h.chunks == [] && h.stage != Closed)
    && (h.relay.Some? ==>
         var Relay(pc, fed) := h.relay.value;
         h.chan.Some?
         && (HeldIn(h) <==> pc.Spawning?)
         && (h.linked ==> !pc.Ended?)
         && (h.chan.value.link == OwnerClosed ==> pc.Ended?)
         && h.chunks <= fed
         && (pc.Sending? ==> 0 < |pc.chunk| <= RELAY_BUFFER)
         && (h.running ==> h.stage == if pc.Unlinking? || pc.Ended? then Closed else Live)
         && (h.running || MayRead(pc) ==> fed == h.chunks + Unsent(pc)))
  }

  /** The client has read an OPEN_ACK with status ok (or with the opposite one). */
  predicate Verdict(w: View, ok: bool) {
    if ok then w.server.arrived == Live || w.server.arrived == Closed else w.server.arrived == Refused
  }

  predicate BeforeOpen(pc: HandlerPc) {
    pc.Snapshot? || pc.Registered? || pc.SendingOpen?
  }

  /** States in which the handler itself holds the receiver of its stream. */
  predicate HoldsReceiver(pc: HandlerPc) {
    !pc.Snapshot? && !pc.Relaying? && !pc.Returned?
  }

  /** On the way out without a word to the local connection. */
  predicate Silent(h: Handler) {
    (h.pc.Aborting? && !h.pc.reply) || (h.pc.Returned? && h.reply.NoReply?)
  }

  /** A handler that could not queue its OPEN reports that to a SOCKS5 client and to no other. */
  predicate UnsentOk(h: Handler) {
    (h.pc.Aborting? ==> h.pc.reply == h.kind.Socks?)
    && (h.pc.Failing? ==> h.kind.Socks?)
    && (h.pc.Returned? ==> h.reply == if h.kind.Socks? then Failure else NoReply)
  }

  predicate Accepted(pc: HandlerPc) {
    pc.Replying? || pc.SendingFirst? || pc.Relaying?
  }

  predicate HandlerOk(h: Handler, w: View) {
    (h.pc.Relaying? <==> w.client.relay.Some?)
    && (w.client.chan.Some? <==> !h.pc.Snapshot?)
    && (w.slot.Some? <==> !h.pc.Snapshot? && !h.pc.Registered?)
    && (BeforeOpen(h.pc) ==> w.client.stage == Fresh)
    && (h.pc.AwaitingAck? || h.pc.Replying? || h.pc.SendingFirst? ==>
         w.client.stage == Live && w.client.chunks == [])
    && (HoldsReceiver(h.pc) ==> HeldIn(w.client) && w.client.chan.value.done == [])
    && (h.pc.Returned? ==> w.client.chan.value.task == Stopped(None, 0) && w.client.chan.value.done == [])
    && (w.client.chan.Some? && w.client.chan.value.link == OwnerClosed ==>
         h.pc.Failing? || h.pc.Returned? || h.pc.Relaying?)
    && (h.pc.Returned? || h.pc.Failing? ==> !w.client.linked)
    && (Accepted(h.pc) ==> w.slot == Some(Some(true)))
    && (h.pc.SendingFirst? ==> h.kind.Plain?)
    && (h.pc.Replying? ==> !h.kind.Plain?)
    && (h.kind.Plain? ==> |h.kind.request| <= MAX_REQUEST)
    && (h.pc.Relaying? ==> h.reply == if h.kind.Plain? then NoReply else Success)
    && (h.pc.Returned? ==> h.reply != Success)
    && (!h.pc.Relaying? && !h.pc.Returned? ==> h.reply == NoReply)
    && (h.pc.Relaying? && h.kind.Plain? ==>
         w.client.relay.value.fed != [] && w.client.relay.value.fed[0] == h.kind.request)
    && (Silent(h) ==> w.slot == Some(Some(true)) || w.client.stage == Fresh)
    && (w.client.stage == Fresh ==> UnsentOk(h))
  }

  /** The client's side of a stream. */
  predicate ClientOk(w: View) {
    (w.handler.None? ==>
       w.client.chan.None? && w.client.relay.None? && w.slot.None? && w.client.stage == Fresh)
    && (w.handler.Some? ==> HandlerOk(w.handler.value, w))
    && (w.pending ==> w.slot == Some(None) && w.server.arrived == Fresh)
    && (w.slot.Some? && w.slot.value.Some? ==> Verdict(w, w.slot.value.value))
    && (w.client.chunks != [] || w.client.stage == Closed ==> Verdict(w, true))
  }

  /** The server's side of a stream. */
  predicate ServerOk(w: View) {
    (w.client.arrived == Fresh ==>
       w.server.chan.None? && w.server.relay.None? && w.opening.Nothing? && w.server.stage == Fresh)
    && (!w.opening.Nothing? ==>
         w.server.relay.None? && w.server.stage == Fresh
         && (w.server.chan.Some? <==> w.opening.Acking? && w.opening.ok)
         && (w.server.chan.Some? ==> HeldIn(w.server) && w.server.chan.value.link != OwnerClosed))
    && (w.opening.Nothing? ==> (w.server.chan.Some? <==> w.server.relay.Some?))
    && (w.server.stage == Live || w.server.stage == Closed ==> w.server.relay.Some?)
  }

  ghost predicate ViewOk(w: View) {
    HalfOk(w.client, MAX_REQUEST) && HalfOk(w.server, RELAY_BUFFER) && ClientOk(w) && ServerOk(w)
  }

  ghost predicate StreamOk(s: Session, id: Id) {
    ViewOk(ViewOf(s, id))
  }

  function OpeningId(opening: Opening): seq<Id> {
    if opening.Nothing? then [] else [opening.id]
  }

  /** Facts about a session as a whole: directions, order of acknowledgements, where the readers are. */
  ghost predicate FlowOk(s: Session) {
    (forall f :: f in s.client.out.pushed ==> f.Open? || f.Data? || f.Close?)
    && (forall f :: f in s.server.out.pushed ==> f.OpenAck? || f.Data? || f.Close?)
    && AckIds(s.server.out.pushed) <= OpenIds(s.client.out.delivered)
    && (s.server.out.writer.Running? ==>
         AckIds(s.server.out.pushed) + OpeningId(s.opening) == OpenIds(s.client.out.delivered))
    && (s.client.recv.parked.Some? ==> s.client.reader.Looping?)
    && (s.server.recv.parked.Some? ==> s.server.reader.Looping? && s.opening.Nothing?)
    && (!s.opening.Nothing? ==> s.server.reader.Looping?)
  }

  ghost predicate Inv(s: Session) {
    PipeOk(s.client.out, s.cfg.wireCap)
    && PipeOk(s.server.out, s.cfg.wireCap)
    && RecvOk(s.client.recv, s.server.out.delivered)
    && RecvOk(s.server.recv, s.client.out.delivered)
    && FlowOk(s)
    && forall id: Id :: StreamOk(s, id)
  }

  lemma StartOk(cfg: Config)
    ensures Inv(Start(cfg))
  {
    forall id: Id ensures StreamOk(Start(cfg), id) {}
  }

  /** How far a stream has come on one side bounds how far it can be on the other. */
  lemma Cross(s: Session, id: Id)
    requires Inv(s)
    ensures s.client.out.delivered <= s.client.out.pushed && s.server.out.delivered <= s.server.out.pushed
    ensures var w := ViewOf(s, id);
            w.client.arrived != Bad && w.server.arrived != Bad
            && Reaches(w.client.arrived, w.client.stage) && Reaches(w.server.arrived, w.server.stage)
            && (w.client.arrived == Fresh ==> w.server.arrived == Fresh)
            && (w.client.stage == Fresh ==> w.client.arrived == Fresh)
            && (Verdict(w, true) ==> w.server.relay.Some?)
            && (ChunksOf(s.client.out.delivered, id) != [] ==> w.server.relay.Some?)
            && (w.server.arrived == Fresh ==> ChunksOf(s.server.out.delivered, id) == [])
  {
    DeliveredIsPrefix(s.client.out, s.cfg.wireCap);
    DeliveredIsPrefix(s.server.out, s.cfg.wireCap);
    assert StreamOk(s, id);
    StagePrefix(s.client.out.delivered, s.client.out.pushed, id);
    StagePrefix(s.server.out.delivered, s.server.out.pushed, id);
    if StageOf(s.server.out.delivered, id) == Fresh { FreshIsSilent(s.server.out.delivered, id); }
  }

  // ── Closing a stream and dropping its receiver ──────────────────────────────

  function UnlinkView(h: HalfView): HalfView {
    if h.linked && h.chan.Some?
    then h.(linked := false, chan := Some(h.chan.value.(link := OwnerClosed)))
    else h
  }

  function DropView(h: HalfView): HalfView {
    if HeldIn(h) then h.(chan := Some(h.chan.value.(task := Stopped(None, 0), queue := []))) else h
  }

  lemma UnlinkViews(h: Half, id: Id, i: Id)
    ensures HalfViewOf(h.(recv := Unlink(h.recv, id, OwnerClosed)), i) ==
            if i == id then UnlinkView(HalfViewOf(h, i)) else HalfViewOf(h, i)
  {
  }

  lemma DropViews(h: Half, id: Id, i: Id)
    ensures HalfViewOf(h.(recv := DropReceiver(h.recv, id)), i) ==
            if i == id then DropView(HalfViewOf(h, i)) else HalfViewOf(h, i)
  {
  }

  // ── Relay loops, on either side ─────────────────────────────────────────────

  /** A relay step as its own stream sees it. */
  function RelayView(h: HalfView, id: Id, a: RelayAct): HalfView
    requires h.relay.Some? && (a.PushData? ==> h.relay.value.pc.Sending?)
  {
    var Relay(pc, fed) := h.relay.value;
    match a
    case SpawnWriter =>
      h.(relay := Some(Relay(Reading, fed)),
         chan := if HeldIn(h) then Some(h.chan.value.(task := Ready)) else h.chan)
    case ReadSocket(chunk) => h.(relay := Some(Relay(Sending(chunk), fed + [chunk])))
    case ReadEnds => h.(relay := Some(Relay(SendingClose, fed)))
    case PushData =>
      h.(relay := Some(Relay(Reading, fed)), chunks := h.chunks + [pc.chunk],
         stage := Advance(h.stage, Data(id, pc.chunk), id))
    case DataLost => h.(relay := Some(Relay(SendingClose, fed)))
    case PushClose =>
      h.(relay := Some(Relay(Unlinking, fed)), stage := if h.running then Advance(h.stage, Close(id), id) else h.stage)
    case UnlinkSelf =>
      UnlinkView(h).(relay := Some(Relay(Ended, fed)))
  }

  lemma SetRelayViews(h: Half, id: Id, relay: Relay, i: Id)
    ensures HalfViewOf(h.(relays := h.relays[id := relay]), i) ==
            if i == id then HalfViewOf(h, i).(relay := Some(relay)) else HalfViewOf(h, i)
  {
  }

  lemma RelayViews(h: Half, id: Id, a: RelayAct, i: Id)
    requires CanRelay(h, id, a)
    ensures HalfViewOf(DoRelay(h, id, a), i) ==
            if i == id then RelayView(HalfViewOf(h, id), id, a) else HalfViewOf(h, i)
  {
    var h' := DoRelay(h, id, a);
    SetRelayViews(h, id, h'.relays[id], i);
    var moved := h.(relays := h.relays[id := h'.relays[id]]);
    match a
    case PushData => Append(h.out.pushed, Data(id, h.relays[id].pc.chunk), i);
    case PushClose => Append(h.out.pushed, Close(id), i);
    case UnlinkSelf =>
      UnlinkViews(moved, id, i);
      assert h' == moved.(recv := Unlink(moved.recv, id, OwnerClosed));
    case SpawnWriter => assert h' == moved.(recv := Spawn(h.recv, id));
    case _ => assert h' == moved;
  }

  predicate CanRelayView(h: HalfView, a: RelayAct) {
    h.relay.Some?
    && var pc := h.relay.value.pc;
       match a
       case SpawnWriter => pc.Spawning?
       case ReadSocket(chunk) => pc.Reading? && 0 < |chunk| <= RELAY_BUFFER
       case ReadEnds => pc.Reading?
       case PushData => pc.Sending? && h.running
       case DataLost => pc.Sending? && !h.running
       case PushClose => pc.SendingClose?
       case UnlinkSelf => pc.Unlinking?
  }

  lemma RelayHalfOk(h: HalfView, first: nat, id: Id, a: RelayAct)
    requires HalfOk(h, first) && RELAY_BUFFER <= first && CanRelayView(h, a)
    ensures HalfOk(RelayView(h, id, a), first)
  {
  }

  function SetView(w: View, side: Side, h: HalfView): View {
    if side.Client? then w.(client := h) else w.(server := h)
  }

  function HalfIn(w: View, side: Side): HalfView {
    if side.Client? then w.client else w.server
  }

  lemma RelayViewOk(w: View, side: Side, id: Id, a: RelayAct)
    requires ViewOk(w) && CanRelayView(HalfIn(w, side), a)
    ensures ViewOk(SetView(w, side, RelayView(HalfIn(w, side), id, a)))
  {
    RelayHalfOk(HalfIn(w, side), if side.Client? then MAX_REQUEST else RELAY_BUFFER, id, a);
  }

  lemma RelayFlow(h: Half, cap: nat, din: seq<Frame>, id: Id, a: RelayAct)
    requires CanRelay(h, id, a) && PipeOk(h.out, cap) && RecvOk(h.recv, din)
    ensures var h' := DoRelay(h, id, a);
            PipeOk(h'.out, cap) && RecvOk(h'.recv, din) && AckIds(h'.out.pushed) == AckIds(h.out.pushed)
            && h'.out.delivered == h.out.delivered && h'.out.writer == h.out.writer && h'.reader == h.reader
            && h'.recv.parked == h.recv.parked
            && (forall f :: f in h'.out.pushed && f !in h.out.pushed ==> f.Data? || f.Close?)
  {
    match a
    case PushData =>
      var f := Data(id, h.relays[id].pc.chunk);
      PushOk(h.out, cap, f);
      AppendIds(h.out.pushed, f);
    case PushClose =>
      if h.out.writer.Running? {
        PushOk(h.out, cap, Close(id));
        AppendIds(h.out.pushed, Close(id));
      }
    case SpawnWriter => SpawnOk(h.recv, din, id);
    case UnlinkSelf => UnlinkOk(h.recv, din, id, OwnerClosed);
    case _ =>
  }

  lemma RelayKeepsStream(s: Session, side: Side, id: Id, a: RelayAct, i: Id)
    requires CanRelay(HalfOf(s, side), id, a) && StreamOk(s, i) && StreamOk(s, id)
    ensures StreamOk(SetHalf(s, side, DoRelay(HalfOf(s, side), id, a)), i)
  {
    var h := HalfOf(s, side);
    var s' := SetHalf(s, side, DoRelay(h, id, a));
    RelayViews(h, id, a, i);
    if i == id {
      RelayViewOk(ViewOf(s, id), side, id, a);
      assert ViewOf(s', i) == SetView(ViewOf(s, i), side, RelayView(HalfIn(ViewOf(s, i), side), id, a));
    } else {
      assert ViewOf(s', i) == ViewOf(s, i);
    }
  }

  lemma RelayKeepsFlow(s: Session, side: Side, id: Id, a: RelayAct)
    requires Inv(s) && CanRelay(HalfOf(s, side), id, a)
    ensures FlowOk(SetHalf(s, side, DoRelay(HalfOf(s, side), id, a)))
  {
    RelayFlow(HalfOf(s, side), s.cfg.wireCap, HalfOf(s, Peer(side)).out.delivered, id, a);
  }

  lemma RelayKeeps(s: Session, side: Side, id: Id, a: RelayAct)
    requires Inv(s) && CanRelay(HalfOf(s, side), id, a)
    ensures Inv(Do(s, RelayStep(side, id, a)))
  {
    RelayKeepsFlow(s, side, id, a);
    RelayFlow(HalfOf(s, side), s.cfg.wireCap, HalfOf(s, Peer(side)).out.delivered, id, a);
    forall i: Id ensures StreamOk(Do(s, RelayStep(side, id, a)), i) {
      assert StreamOk(s, i) && StreamOk(s, id);
      RelayKeepsStream(s, side, id, a, i);
    }
  }

  // ── Write tasks and writer loops ────────────────────────────────────────────

  /** A write task that has started leaves its stream's bookkeeping as it is. */
  lemma TaskViewOk(w: View, side: Side, c: Chan)
    requires ViewOk(w) && HalfIn(w, side).chan.Some?
    requires var d := HalfIn(w, side).chan.value;
             d.Receiving() && !d.task.Held? && !c.task.Held? && c.link == d.link
    ensures ViewOk(SetView(w, side, HalfIn(w, side).(chan := Some(c))))
  {
    var h := HalfIn(w, side).(chan := Some(c));
    assert HalfOk(h, if side.Client? then MAX_REQUEST else RELAY_BUFFER);
  }

  lemma TaskKeepsStream(s: Session, side: Side, id: Id, a: TaskAct, i: Id)
    requires CanTask(HalfOf(s, side).recv, id, a) && StreamOk(s, i)
    ensures StreamOk(Do(s, TaskStep(side, id, a)), i)
  {
    var s' := Do(s, TaskStep(side, id, a));
    if i == id {
      var c := HalfOf(s', side).recv.chans[id];
      TaskViewOk(ViewOf(s, i), side, c);
      assert ViewOf(s', i) == SetView(ViewOf(s, i), side, HalfIn(ViewOf(s, i), side).(chan := Some(c)));
    } else {
      assert HalfViewOf(HalfOf(s', side), i) == HalfViewOf(HalfOf(s, side), i);
      assert ViewOf(s', i) == ViewOf(s, i);
    }
  }

  lemma TaskKeeps(s: Session, side: Side, id: Id, a: TaskAct)
    requires Inv(s) && CanTask(HalfOf(s, side).recv, id, a)
    ensures Inv(Do(s, TaskStep(side, id, a)))
  {
    TaskOk(HalfOf(s, side).recv, HalfOf(s, Peer(side)).out.delivered, id, a);
    forall i: Id ensures StreamOk(Do(s, TaskStep(side, id, a)), i) {
      assert StreamOk(s, i);
      TaskKeepsStream(s, side, id, a, i);
    }
  }

  /** What a handler's agreement with its stream rests on. */
  lemma HandlerFrame(w: View, w': View, h: Handler)
    requires HandlerOk(h, w) && w'.client.relay == w.client.relay && w'.client.stage == w.client.stage
    requires (w'.client.running ==> w.client.running) && w'.client.chunks == w.client.chunks
    requires w'.slot.Some? <==> w.slot.Some?
    requires w.slot == Some(Some(true)) ==> w'.slot == w.slot
    requires w'.client.linked ==> w.client.linked
    requires w'.client.chan.Some? <==> w.client.chan.Some?
    requires w.client.chan.Some? ==>
               var c, d := w'.client.chan.value, w.client.chan.value;
               c.task == d.task && c.done == d.done && (c.link == OwnerClosed ==> d.link == OwnerClosed)
    ensures HandlerOk(h, w')
  {
  }

  /** Clearing a registry, or losing the writer, only takes possibilities away from a stream. */
  lemma WeakerOk(w: View, side: Side, h: HalfView)
    requires ViewOk(w)
    requires var g := HalfIn(w, side);
             h.stage == g.stage && h.chunks == g.chunks && h.arrived == g.arrived && h.relay == g.relay
             && (h.running ==> g.running) && (h.linked ==> g.linked) && (h.chan.Some? <==> g.chan.Some?)
             && (h.chan.Some? ==>
                  var c, d := h.chan.value, g.chan.value;
                  c.task == d.task && c.done == d.done && (c.link == OwnerClosed ==> d.link == OwnerClosed))
    ensures ViewOk(SetView(w, side, h))
  {
    var w' := SetView(w, side, h);
    assert HeldIn(h) == HeldIn(HalfIn(w, side));
    assert HalfOk(h, if side.Client? then MAX_REQUEST else RELAY_BUFFER);
    if side.Client? && w.handler.Some? { HandlerFrame(w, w', w.handler.value); }
  }

  lemma WriterViews(s: Session, side: Side, a: WriterAct, i: Id)
    requires CanWrite(HalfOf(s, side).out, s.cfg.wireCap, a)
    ensures var s' := DoWriter(s, side, a);
            ViewOf(s', i) == SetView(ViewOf(s, i), side, HalfViewOf(HalfOf(s', side), i))
  {
  }

  lemma WriterKeepsStream(s: Session, side: Side, a: WriterAct, i: Id)
    requires CanWrite(HalfOf(s, side).out, s.cfg.wireCap, a) && StreamOk(s, i)
    ensures StreamOk(DoWriter(s, side, a), i)
  {
    WriterViews(s, side, a, i);
    WeakerOk(ViewOf(s, i), side, HalfViewOf(HalfOf(DoWriter(s, side, a), side), i));
  }

  lemma WriterKeeps(s: Session, side: Side, a: WriterAct)
    requires Inv(s) && CanWrite(HalfOf(s, side).out, s.cfg.wireCap, a)
    ensures Inv(DoWriter(s, side, a))
  {
    WriteOk(HalfOf(s, side).out, s.cfg.wireCap, a);
    UnlinkAllOk(HalfOf(s, side).recv, HalfOf(s, Peer(side)).out.delivered);
    forall i: Id ensures StreamOk(DoWriter(s, side, a), i) {
      assert StreamOk(s, i);
      WriterKeepsStream(s, side, a, i);
    }
  }

  // ── Reader loops ────────────────────────────────────────────────────────────

  /** What taking the next frame means for the histories. */
  lemma NextFrame(s: Session, side: Side, id: Id)
    requires Inv(s) && HalfOf(s, side).out.wire != []
    ensures var p := HalfOf(s, side).out; var f := p.wire[0];
            f in p.pushed
            && StageOf(p.delivered + [f], id) == Advance(StageOf(p.delivered, id), f, id) != Bad
  {
    var p := HalfOf(s, side).out;
    var f := p.wire[0];
    DeliverOk(p, s.cfg.wireCap);
    assert StreamOk(s, id);
    StagePrefix(p.delivered + [f], p.pushed, id);
    Append(p.delivered, f, id);
    assert f in p.delivered + [f];
  }

  lemma TakeKeepsRecv(r: Recv, din: seq<Frame>, f: Frame)
    requires RecvOk(r, din) && r.parked == None
    requires forall i: Id :: StageOf(din + [f], i) != Bad
    ensures f.Data? ==> RecvOk(Route(r, f.id, f.bytes), din + [f])
    ensures f.Close? ==> RecvOk(Unlink(r, f.id, PeerClosed), din + [f])
    ensures f.Open? || f.OpenAck? ==> RecvOk(r, din + [f])
  {
    if f.Data? {
      RouteOk(r, din, f.id, f.bytes);
    } else {
      DeliverOtherOk(r, din, f);
      if f.Close? {
        Append(din, f, f.id);
        UnlinkOk(r, din + [f], f.id, PeerClosed);
      }
    }
  }

  /** Frame `f` is handed to `side`'s dispatch, as stream `id` sees it. */
  function DispatchView(w: View, side: Side, f: Frame, id: Id): View {
    if f.Hello? || f.id != id then w
    else match f
      case OpenAck(_, ok) => if side.Client? && w.pending then w.(pending := false, slot := Some(Some(ok))) else w
      case Open(_, dest) => if side.Server? then w.(opening := Deciding(id, dest)) else w
      case Close(_) =>
        var h := HalfIn(w, side);
        if h.linked && h.chan.Some?
        then SetView(w, side, h.(linked := false, chan := Some(h.chan.value.(link := PeerClosed))))
        else w
      case _ => w
  }

  /** Frame `f` leaves the wire towards `side`. */
  function ArriveView(w: View, side: Side, f: Frame, id: Id): View {
    var peer := HalfIn(w, Peer(side));
    SetView(w, Peer(side), peer.(arrived := Advance(peer.arrived, f, id)))
  }

  /** A CLOSE from the peer, or a later stage of what the peer has read, keeps a half in order. */
  lemma HalfFrame(h: HalfView, h': HalfView, first: nat)
    requires HalfOk(h, first) && h'.stage == h.stage && h'.chunks == h.chunks && h'.running == h.running
    requires h'.relay == h.relay && (h'.linked ==> h.linked) && (h'.chan.Some? <==> h.chan.Some?)
    requires h.chan.Some? ==>
               var c, d := h'.chan.value, h.chan.value;
               c.task == d.task && (c.link == OwnerClosed ==> d.link == OwnerClosed)
    ensures HalfOk(h', first) && HeldIn(h') == HeldIn(h)
  {
  }

  lemma TakeHalf(w: View, side: Side, f: Frame, id: Id, x: Side, first: nat)
    requires HalfOk(HalfIn(w, x), first)
    ensures HalfOk(HalfIn(DispatchView(ArriveView(w, side, f, id), side, f, id), x), first)
  {
    HalfFrame(HalfIn(w, x), HalfIn(DispatchView(ArriveView(w, side, f, id), side, f, id), x), first);
  }

  lemma TakeHalves(w: View, side: Side, f: Frame, id: Id)
    requires HalfOk(w.client, MAX_REQUEST) && HalfOk(w.server, RELAY_BUFFER)
    ensures var w' := DispatchView(ArriveView(w, side, f, id), side, f, id);
            HalfOk(w'.client, MAX_REQUEST) && HalfOk(w'.server, RELAY_BUFFER)
  {
    TakeHalf(w, side, f, id, Client, MAX_REQUEST);
    TakeHalf(w, side, f, id, Server, RELAY_BUFFER);
  }

  lemma ClientTakeServer(w: View, f: Frame, id: Id)
    requires ServerOk(w) && (f.OpenAck? || f.Data? || f.Close?)
    ensures ServerOk(DispatchView(ArriveView(w, Client, f, id), Client, f, id))
  {
  }

  lemma ClientTakeClient(w: View, f: Frame, id: Id)
    requires ClientOk(w) && (f.OpenAck? || f.Data? || f.Close?)
    requires Advance(w.server.arrived, f, id) != Bad
    ensures ClientOk(DispatchView(ArriveView(w, Client, f, id), Client, f, id))
  {
    var w' := DispatchView(ArriveView(w, Client, f, id), Client, f, id);
    if w.handler.Some? { HandlerFrame(w, w', w.handler.value); }
  }

  lemma ClientTakeOk(w: View, f: Frame, id: Id)
    requires ViewOk(w) && (f.OpenAck? || f.Data? || f.Close?)
    requires Advance(w.server.arrived, f, id) != Bad
    ensures ViewOk(DispatchView(ArriveView(w, Client, f, id), Client, f, id))
  {
    ClientTakeServer(w, f, id);
    ClientTakeClient(w, f, id);
    TakeHalves(w, Client, f, id);
  }

  lemma ServerTakeClient(w: View, f: Frame, id: Id)
    requires ClientOk(w) && (f.Open? || f.Data? || f.Close?)
    ensures ClientOk(DispatchView(ArriveView(w, Server, f, id), Server, f, id))
  {
  }

  lemma ServerTakeServer(w: View, f: Frame, id: Id)
    requires ServerOk(w) && w.opening.Nothing? && (f.Open? || f.Data? || f.Close?)
    requires Advance(w.client.arrived, f, id) != Bad
    ensures ServerOk(DispatchView(ArriveView(w, Server, f, id), Server, f, id))
  {
    var w' := DispatchView(ArriveView(w, Server, f, id), Server, f, id);
    assert HeldIn(w'.server) == HeldIn(w.server);
  }

  lemma ServerTakeOk(w: View, f: Frame, id: Id)
    requires ViewOk(w) && w.opening.Nothing? && (f.Open? || f.Data? || f.Close?)
    requires Advance(w.client.arrived, f, id) != Bad
    ensures ViewOk(DispatchView(ArriveView(w, Server, f, id), Server, f, id))
  {
    ServerTakeClient(w, f, id);
    ServerTakeServer(w, f, id);
    TakeHalves(w, Server, f, id);
  }

  lemma DispatchViews(s: Session, side: Side, f: Frame, i: Id)
    requires side.Server? ==> s.opening.Nothing?
    ensures var m: Result<Frame, ()> := Ok(f);
            ViewOf(Dispatch(s, side, m), i) == DispatchView(ViewOf(s, i), side, f, i)
  {
  }

  lemma PopViews(s: Session, side: Side, i: Id)
    requires HalfOf(s, Peer(side)).out.wire != []
    ensures ViewOf(PopWire(s, side), i) == ArriveView(ViewOf(s, i), side, HalfOf(s, Peer(side)).out.wire[0], i)
  {
    var p := HalfOf(s, Peer(side)).out;
    Append(p.delivered, p.wire[0], i);
  }

  lemma TakeKeepsStream(s: Session, side: Side, i: Id)
    requires Inv(s) && CanRead(s, side, TakeMessage)
    ensures StreamOk(DoRead(s, side, TakeMessage), i)
  {
    var f := HalfOf(s, Peer(side)).out.wire[0];
    assert StreamOk(s, i);
    NextFrame(s, Peer(side), i);
    PopViews(s, side, i);
    DispatchViews(PopWire(s, side), side, f, i);
    if side.Client? { ClientTakeOk(ViewOf(s, i), f, i); } else { ServerTakeOk(ViewOf(s, i), f, i); }
  }

  lemma ClientTakeFlow(s: Session)
    requires FlowOk(s) && CanRead(s, Client, TakeMessage)
    ensures FlowOk(DoRead(s, Client, TakeMessage))
  {
    var s' := DoRead(s, Client, TakeMessage);
    assert s'.server.out.pushed == s.server.out.pushed && s'.client.out == s.client.out;
  }

  lemma ServerTakeFlow(s: Session)
    requires FlowOk(s) && CanRead(s, Server, TakeMessage)
    requires s.client.out.wire[0] in s.client.out.pushed
    ensures FlowOk(DoRead(s, Server, TakeMessage))
  {
    var s' := DoRead(s, Server, TakeMessage);
    AppendIds(s.client.out.delivered, s.client.out.wire[0]);
    assert s'.client.out.pushed == s.client.out.pushed && s'.server.out == s.server.out;
  }

  lemma TakeKeepsPipes(s: Session, side: Side)
    requires Inv(s) && CanRead(s, side, TakeMessage)
    ensures var s' := DoRead(s, side, TakeMessage);
            PipeOk(HalfOf(s', Peer(side)).out, s.cfg.wireCap) && HalfOf(s', side).out == HalfOf(s, side).out
            && RecvOk(HalfOf(s', side).recv, HalfOf(s', Peer(side)).out.delivered)
            && HalfOf(s', Peer(side)).recv == HalfOf(s, Peer(side)).recv
  {
    var p := HalfOf(s, Peer(side)).out;
    var f := p.wire[0];
    forall i: Id ensures StageOf(p.delivered + [f], i) != Bad {
      NextFrame(s, Peer(side), i);
    }
    NextFrame(s, Peer(side), 0);
    DeliverOk(p, s.cfg.wireCap);
    TakeKeepsRecv(HalfOf(s, side).recv, p.delivered, f);
  }

  lemma TakeKeeps(s: Session, side: Side)
    requires Inv(s) && CanRead(s, side, TakeMessage)
    ensures Inv(DoRead(s, side, TakeMessage))
  {
    TakeKeepsPipes(s, side);
    NextFrame(s, Peer(side), 0);
    if side.Client? { ClientTakeFlow(s); } else { ServerTakeFlow(s); }
    forall i: Id ensures StreamOk(DoRead(s, side, TakeMessage), i) {
      TakeKeepsStream(s, side, i);
    }
  }

  lemma ReaderKeepsStream(s: Session, side: Side, a: ReaderAct, i: Id)
    requires CanRead(s, side, a) && !a.TakeMessage? && StreamOk(s, i)
    ensures StreamOk(DoRead(s, side, a), i)
  {
    var s' := DoRead(s, side, a);
    var h := HalfViewOf(HalfOf(s', side), i);
    WeakerOk(ViewOf(s, i), side, h);
    assert ViewOf(s', i) == SetView(ViewOf(s, i), side, h).(pending := i in s'.pending);
  }

  lemma ReaderKeeps(s: Session, side: Side, a: ReaderAct)
    requires Inv(s) && CanRead(s, side, a)
    ensures Inv(DoRead(s, side, a))
  {
    if a.TakeMessage? {
      TakeKeeps(s, side);
    } else {
      var r, din := HalfOf(s, side).recv, HalfOf(s, Peer(side)).out.delivered;
      if a.AdmitChunk? { AdmitOk(r, din); }
      if a.BounceChunk? { BounceOk(r, din); }
      UnlinkAllOk(r, din);
      forall i: Id ensures StreamOk(DoRead(s, side, a), i) {
        assert StreamOk(s, i);
        ReaderKeepsStream(s, side, a, i);
      }
    }
  }

  // ── handle_open ─────────────────────────────────────────────────────────────

  lemma OpeningKeepsRecv(s: Session, a: OpeningAct)
    requires Inv(s) && CanOpen(s, a)
    ensures RecvOk(DoOpen(s, a).server.recv, s.client.out.delivered)
  {
    var id := s.opening.id;
    if a.RegisterStream? {
      assert StreamOk(s, id);
      Cross(s, id);
      RegisterOk(s.server.recv, s.client.out.delivered, id);
    } else if a.UnlinkFailed? {
      UnlinkOk(s.server.recv, s.client.out.delivered, id, OwnerClosed);
    }
  }

  lemma OpeningKeepsFlow(s: Session, a: OpeningAct)
    requires FlowOk(s) && PipeOk(s.server.out, s.cfg.wireCap) && CanOpen(s, a)
    ensures FlowOk(DoOpen(s, a)) && PipeOk(DoOpen(s, a).server.out, s.cfg.wireCap)
  {
    if a.PushAck? && s.server.out.writer.Running? {
      var f := OpenAck(s.opening.id, s.opening.ok);
      PushOk(s.server.out, s.cfg.wireCap, f);
      AppendIds(s.server.out.pushed, f);
    }
  }

  /** A step of `handle_open` as the stream being opened sees it. */
  function OpeningView(w: View, id: Id, a: OpeningAct): View
    requires !w.opening.Nothing? && (a.PushAck? ==> w.opening.Acking?)
  {
    var v := w.server;
    match a
    case Deny => w.(opening := Acking(id, false))
    case ConnectOk => w.(opening := Connected(id))
    case ConnectErr => w.(opening := ConnectFailed(id))
    case RegisterStream =>
      w.(opening := Acking(id, true), server := v.(linked := true, chan := Some(Chan(Linked, [], Held, []))))
    case UnlinkFailed =>
      w.(opening := Acking(id, false), server := UnlinkView(v))
    case PushAck =>
      var ok := w.opening.ok;
      w.(opening := Nothing,
         server := v.(stage := if v.running then Advance(v.stage, OpenAck(id, ok), id) else v.stage,
                      relay := if ok then Some(Relay(Spawning, [])) else v.relay))
  }

  lemma OpeningViewOk(w: View, id: Id, a: OpeningAct)
    requires ViewOk(w) && !w.opening.Nothing? && w.opening.id == id && w.server.chunks == []
    requires match a
             case RegisterStream => w.opening.Connected?
             case UnlinkFailed => w.opening.ConnectFailed?
             case PushAck => w.opening.Acking?
             case _ => w.opening.Deciding?
    ensures ViewOk(OpeningView(w, id, a))
  {
  }

  lemma OpeningViews(s: Session, a: OpeningAct, i: Id)
    requires CanOpen(s, a)
    ensures ViewOf(DoOpen(s, a), i) == if i == s.opening.id then OpeningView(ViewOf(s, i), i, a) else ViewOf(s, i)
  {
    var s' := DoOpen(s, a);
    match a
    case RegisterStream => assert s'.server.out == s.server.out && s'.server.relays == s.server.relays;
    case UnlinkFailed => UnlinkViews(s.server, s.opening.id, i);
    case PushAck => Append(s.server.out.pushed, OpenAck(s.opening.id, s.opening.ok), i);
    case _ => assert s'.server == s.server;
  }

  lemma OpeningKeepsStream(s: Session, a: OpeningAct, i: Id)
    requires CanOpen(s, a) && StreamOk(s, i)
    ensures StreamOk(DoOpen(s, a), i)
  {
    OpeningViews(s, a, i);
    if i == s.opening.id {
      FreshIsSilent(s.server.out.pushed, i);
      OpeningViewOk(ViewOf(s, i), i, a);
    }
  }

  lemma OpeningKeeps(s: Session, a: OpeningAct)
    requires Inv(s) && CanOpen(s, a)
    ensures Inv(DoOpen(s, a))
  {
    OpeningKeepsRecv(s, a);
    OpeningKeepsFlow(s, a);
    forall i: Id ensures StreamOk(DoOpen(s, a), i) {
      assert StreamOk(s, i);
      OpeningKeepsStream(s, a, i);
    }
  }

  // ── Client handlers ─────────────────────────────────────────────────────────

  lemma PushKeepsFlow(s: Session, s': Session, f: Frame)
    requires FlowOk(s) && PipeOk(s.client.out, s.cfg.wireCap) && HasRoom(s.client.out) && (f.Open? || f.Data?)
    requires s'.client.out == Push(s.client.out, f) && s'.server == s.server && s'.opening == s.opening
    requires s'.client.recv == s.client.recv && s'.client.reader == s.client.reader
    ensures FlowOk(s') && PipeOk(s'.client.out, s.cfg.wireCap)
  {
    PushOk(s.client.out, s.cfg.wireCap, f);
  }

  lemma HandlerKeepsFlow(s: Session, id: Id, a: HandlerAct)
    requires FlowOk(s) && PipeOk(s.client.out, s.cfg.wireCap) && CanHandler(s, id, a)
    ensures FlowOk(DoHandler(s, id, a)) && PipeOk(DoHandler(s, id, a).client.out, s.cfg.wireCap)
  {
    var s' := DoHandler(s, id, a);
    if a.PushOpen? {
      PushKeepsFlow(s, s', Open(id, s.handlers[id].dest));
    } else if a.PushFirst? {
      PushKeepsFlow(s, s', Data(id, s.handlers[id].kind.request));
    } else {
      assert s'.client.out == s.client.out && s'.client.reader == s.client.reader && s'.server == s.server;
      assert s'.client.recv.parked == s.client.recv.parked && s'.opening == s.opening;
    }
  }

  lemma HandlerKeepsRecv(s: Session, id: Id, a: HandlerAct)
    requires Inv(s) && CanHandler(s, id, a)
    ensures RecvOk(DoHandler(s, id, a).client.recv, s.server.out.delivered)
  {
    var din := s.server.out.delivered;
    match a
    case RegisterSelf =>
      assert StreamOk(s, id);
      Cross(s, id);
      RegisterOk(s.client.recv, din, id);
    case AbortClose =>
      UnlinkOk(s.client.recv, din, id, OwnerClosed);
      DropReceiverOk(Unlink(s.client.recv, id, OwnerClosed), din, id);
    case WriteFailure => DropReceiverOk(s.client.recv, din, id);
    case _ =>
  }

  function WithHandler(w: View, h: Handler, c: HalfView): View {
    w.(handler := Some(h), client := c)
  }

  /** A handler step as its own stream sees it. */
  function HandlerView(w: View, id: Id, a: HandlerAct): View
    requires !a.Arrive? ==> w.handler.Some?
    requires a.PushFirst? ==> w.handler.value.kind.Plain?
    requires a.AbortClose? ==> w.handler.value.pc.Aborting?
  {
    if a.Arrive? then w.(handler := Some(Handler(a.kind, a.dest, Snapshot, NoReply)))
    else
      var h, c := w.handler.value, w.client;
      match a
      case RegisterSelf =>
        WithHandler(w, h.(pc := Registered), c.(linked := true, chan := Some(Chan(Linked, [], Held, []))))
      case InsertAck => WithHandler(w, h.(pc := SendingOpen), c).(pending := true, slot := Some(None))
      case PushOpen => WithHandler(w, h.(pc := AwaitingAck), c.(stage := Advance(c.stage, Open(id, h.dest), id)))
      case OpenLost => WithHandler(w, h.(pc := Aborting(h.kind.Socks?)), c)
      case TakeVerdict =>
        WithHandler(w, h.(pc := if w.slot != Some(Some(true)) then Aborting(true)
                                else if h.kind.Plain? then SendingFirst else Replying), c)
      case TimeOut => WithHandler(w, h.(pc := Aborting(true)), c)
      case AbortClose =>
        if h.pc.reply then WithHandler(w, h.(pc := Failing), UnlinkView(c))
        else WithHandler(w, h.(pc := Returned), DropView(UnlinkView(c)))
      case WriteFailure => WithHandler(w, h.(pc := Returned, reply := Failure), DropView(c))
      case WriteSuccess =>
        WithHandler(w, h.(pc := Relaying, reply := Success), c.(relay := Some(Relay(Spawning, []))))
      case SuccessLost => WithHandler(w, h.(pc := Aborting(false)), c)
      case PushFirst =>
        WithHandler(w, h.(pc := Relaying, reply := NoReply),
                    c.(relay := Some(Relay(Spawning, [h.kind.request])), chunks := c.chunks + [h.kind.request],
                       stage := Advance(c.stage, Data(id, h.kind.request), id)))
      case FirstLost => WithHandler(w, h.(pc := Aborting(false)), c)
  }

  predicate CanHandlerView(w: View, a: HandlerAct) {
    if a.Arrive? then w.handler.None? && (a.kind.Plain? ==> |a.kind.request| <= MAX_REQUEST)
    else
      w.handler.Some?
      && var h := w.handler.value;
         match a
         case RegisterSelf => h.pc.Snapshot?
         case InsertAck => h.pc.Registered? && w.server.arrived == Fresh
         case PushOpen => h.pc.SendingOpen? && w.client.running && w.client.chunks == []
         case OpenLost => h.pc.SendingOpen?
         case TakeVerdict => h.pc.AwaitingAck?
         case TimeOut => h.pc.AwaitingAck?
         case AbortClose => h.pc.Aborting?
         case WriteFailure => h.pc.Failing?
         case WriteSuccess => h.pc.Replying?
         case SuccessLost => h.pc.Replying?
         case PushFirst => h.pc.SendingFirst? && h.kind.Plain? && w.client.running
         case FirstLost => h.pc.SendingFirst?
  }

  lemma HandlerHalfOk(w: View, id: Id, a: HandlerAct)
    requires ViewOk(w) && CanHandlerView(w, a)
    ensures HalfOk(HandlerView(w, id, a).client, MAX_REQUEST)
  {
  }

  /** Steps up to the verdict. */
  lemma EarlyHandlerOk(w: View, id: Id, a: HandlerAct)
    requires ViewOk(w) && CanHandlerView(w, a)
    requires a.Arrive? || a.RegisterSelf? || a.InsertAck? || a.PushOpen? || a.OpenLost? || a.TakeVerdict? || a.TimeOut?
    ensures ClientOk(HandlerView(w, id, a))
  {
  }

  /** Steps after the verdict. */
  lemma LateHandlerOk(w: View, id: Id, a: HandlerAct)
    requires ViewOk(w) && CanHandlerView(w, a)
    requires a.WriteSuccess? || a.SuccessLost? || a.PushFirst? || a.FirstLost?
    ensures ClientOk(HandlerView(w, id, a))
  {
  }

  /** Steps of a handler that gives up. */
  lemma LeavingHandlerOk(w: View, id: Id, a: HandlerAct)
    requires ViewOk(w) && CanHandlerView(w, a) && (a.AbortClose? || a.WriteFailure?)
    ensures ClientOk(HandlerView(w, id, a))
  {
    var w' := HandlerView(w, id, a);
    assert HeldIn(w.client) && w.client.chan.value.done == [] && w.client.relay.None?;
    assert w'.pending == w.pending && w'.slot == w.slot && w'.server == w.server;
    if a.AbortClose? { assert !w'.client.linked; }
    assert HandlerOk(w'.handler.value, w');
  }

  lemma HandlerViewOk(w: View, id: Id, a: HandlerAct)
    requires ViewOk(w) && CanHandlerView(w, a)
    ensures ViewOk(HandlerView(w, id, a))
  {
    HandlerHalfOk(w, id, a);
    var w' := HandlerView(w, id, a);
    assert w'.server == w.server && w'.opening == w.opening && w'.client.arrived == w.client.arrived;
    assert ServerOk(w');
    if a.AbortClose? || a.WriteFailure? {
      LeavingHandlerOk(w, id, a);
    } else if a.WriteSuccess? || a.SuccessLost? || a.PushFirst? || a.FirstLost? {
      LateHandlerOk(w, id, a);
    } else {
      EarlyHandlerOk(w, id, a);
    }
  }

  /** Steps that only move the handler, its ack slot or both. */
  predicate MovesOnly(a: HandlerAct) {
    a.Arrive? || a.InsertAck? || a.OpenLost? || a.TakeVerdict? || a.TimeOut? || a.SuccessLost? || a.FirstLost?
  }

  lemma MoveViews(s: Session, id: Id, a: HandlerAct, i: Id)
    requires CanHandler(s, id, a) && MovesOnly(a)
    ensures ViewOf(DoHandler(s, id, a), i) == if i == id then HandlerView(ViewOf(s, i), i, a) else ViewOf(s, i)
  {
    assert DoHandler(s, id, a).client == s.client && DoHandler(s, id, a).server == s.server;
  }

  lemma ReceiverViews(s: Session, id: Id, a: HandlerAct, i: Id)
    requires CanHandler(s, id, a) && (a.RegisterSelf? || a.AbortClose? || a.WriteFailure?)
    ensures ViewOf(DoHandler(s, id, a), i) == if i == id then HandlerView(ViewOf(s, i), i, a) else ViewOf(s, i)
  {
    var h := s.client.(recv := Unlink(s.client.recv, id, OwnerClosed));
    match a
    case AbortClose =>
      UnlinkViews(s.client, id, i);
      DropViews(h, id, i);
      assert DoHandler(s, id, a).client == if s.handlers[id].pc.reply then h else h.(recv := DropReceiver(h.recv, id));
    case WriteFailure => DropViews(s.client, id, i);
    case _ =>
  }

  lemma OpenViews(s: Session, id: Id, i: Id)
    requires CanHandler(s, id, PushOpen)
    ensures ViewOf(DoHandler(s, id, PushOpen), i) ==
            if i == id then HandlerView(ViewOf(s, i), i, PushOpen) else ViewOf(s, i)
  {
    Append(s.client.out.pushed, Open(id, s.handlers[id].dest), i);
  }

  /** The relay appears in the client's half and nowhere else. */
  lemma EnterViews(s: Session, id: Id, a: HandlerAct, i: Id)
    requires CanHandler(s, id, a) && (a.PushFirst? || a.WriteSuccess?)
    ensures ViewOf(DoHandler(s, id, a), i) == if i == id then HandlerView(ViewOf(s, i), i, a) else ViewOf(s, i)
  {
    var relay := Relay(Spawning, if a.PushFirst? then [s.handlers[id].kind.request] else []);
    SetRelayViews(s.client, id, relay, i);
    if a.PushFirst? { Append(s.client.out.pushed, Data(id, s.handlers[id].kind.request), i); }
  }

  lemma HandlerViews(s: Session, id: Id, a: HandlerAct, i: Id)
    requires CanHandler(s, id, a)
    ensures ViewOf(DoHandler(s, id, a), i) == if i == id then HandlerView(ViewOf(s, i), i, a) else ViewOf(s, i)
  {
    if MovesOnly(a) {
      MoveViews(s, id, a, i);
    } else if a.PushOpen? {
      OpenViews(s, id, i);
    } else if a.PushFirst? || a.WriteSuccess? {
      EnterViews(s, id, a, i);
    } else {
      ReceiverViews(s, id, a, i);
    }
  }

  lemma HandlerKeepsStream(s: Session, id: Id, a: HandlerAct, i: Id)
    requires Inv(s) && CanHandler(s, id, a)
    ensures StreamOk(DoHandler(s, id, a), i)
  {
    assert StreamOk(s, i);
    HandlerViews(s, id, a, i);
    if i == id {
      Cross(s, id);
      if StageOf(s.client.out.pushed, id) == Fresh { FreshIsSilent(s.client.out.pushed, id); }
      HandlerViewOk(ViewOf(s, id), id, a);
    }
  }

  lemma HandlerKeeps(s: Session, id: Id, a: HandlerAct)
    requires Inv(s) && CanHandler(s, id, a)
    ensures Inv(DoHandler(s, id, a))
  {
    HandlerKeepsFlow(s, id, a);
    HandlerKeepsRecv(s, id, a);
    forall i: Id ensures StreamOk(DoHandler(s, id, a), i) {
      HandlerKeepsStream(s, id, a, i);
    }
  }

  lemma ConnKeepsStream(s: Session, a: ConnAct, i: Id)
    requires StreamOk(s, i)
    ensures StreamOk(DoConn(s, a), i)
  {
    var s' := DoConn(s, a);
    WeakerOk(ViewOf(s, i), Client, HalfViewOf(s'.client, i));
    assert ViewOf(s', i) == SetView(ViewOf(s, i), Client, HalfViewOf(s'.client, i)).(pending := i in s'.pending);
  }

  lemma ConnKeeps(s: Session, a: ConnAct)
    requires Inv(s)
    ensures Inv(DoConn(s, a))
  {
    UnlinkAllOk(s.client.recv, s.server.out.delivered);
    forall i: Id ensures StreamOk(DoConn(s, a), i) {
      assert StreamOk(s, i);
      ConnKeepsStream(s, a, i);
    }
  }

  // ── Every step, every run ───────────────────────────────────────────────────

  lemma StepKeeps(s: Session, a: Action)
    requires Inv(s) && Can(s, a)
    ensures Inv(Do(s, a))
  {
    match a
    case HandlerStep(id, h) => HandlerKeeps(s, id, h);
    case RelayStep(side, id, r) => RelayKeeps(s, side, id, r);
    case TaskStep(side, id, t) => TaskKeeps(s, side, id, t);
    case WriterStep(side, w) => WriterKeeps(s, side, w);
    case ReaderStep(side, d) => ReaderKeeps(s, side, d);
    case OpeningStep(o) => OpeningKeeps(s, o);
    case ConnStep(c) => ConnKeeps(s, c);
  }

  lemma {:induction false} RunKeeps(s: Session, run: seq<Action>)
    requires Inv(s) && Runs(s, run)
    ensures Inv(After(s, run))
    decreases |run|
  {
    if run != [] {
      StepKeeps(s, run[0]);
      RunKeeps(Do(s, run[0]), run[1..]);
    }
  }

  lemma ReachableOk(s: Session)
    requires Reachable(s)
    ensures Inv(s)
  {
    var cfg, run :| Runs(Start(cfg), run) && s == After(Start(cfg), run);
    StartOk(cfg);
    RunKeeps(Start(cfg), run);
  }

  lemma {:induction false} AfterSnoc(s: Session, run: seq<Action>, a: Action)
    requires Runs(s, run) && Can(After(s, run), a)
    ensures Runs(s, run + [a]) && After(s, run + [a]) == Do(After(s, run), a)
    decreases |run|
  {
    if run == [] {
      assert [] + [a] == [a] && [a][1..] == [];
    } else {
      AfterSnoc(Do(s, run[0]), run[1..], a);
      assert (run + [a])[0] == run[0] && (run + [a])[1..] == run[1..] + [a];
    }
  }

  /** One more step of a reachable state. */
  lemma ReachableStep(s: Session, a: Action)
    requires Reachable(s) && Can(s, a)
    ensures Reachable(Do(s, a))
  {
    var cfg, run :| Runs(Start(cfg), run) && s == After(Start(cfg), run);
    AfterSnoc(Start(cfg), run, a);
  }
}
