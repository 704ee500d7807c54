/**
 The same session with bytes on the wire: writers encode, readers decode and
 dispatch on the result, errors and unexpected frames included.  It behaves
 exactly like the frame-level session of module Tunnel, and between two such
 processes the readers' catch-all arms are dead.
 */
module ByteTunnel {
  import opened Basics
  import opened Frames
  import opened Pipes
  import opened Tunnel
  import opened TunnelInvariant

  /** `core` is the session without its wires; `up` and `down` are the messages on them. */
  datatype Wired = Wired(core: Session, up: seq<Bytes>, down: seq<Bytes>)

  function StripHalf(h: Half): Half {
    h.(out := h.out.(wire := []))
  }

  function Strip(s: Session): Session {
    s.(client := StripHalf(s.client), server := StripHalf(s.server))
  }

  function EncodeAll(frames: seq<Frame>): (msgs: seq<Bytes>)
    ensures |msgs| == |frames| && forall i :: 0 <= i < |frames| ==> msgs[i] == Encode(frames[i])
  {
    seq(|frames|, i requires 0 <= i < |frames| => Encode(frames[i]))
  }

  /** The messages `side` has written. */
  function WireOf(w: Wired, side: Side): seq<Bytes> {
    if side.Client? then w.up else w.down
  }

  function SetWire(w: Wired, side: Side, msgs: seq<Bytes>): Wired {
    if side.Client? then w.(up := msgs) else w.(down := msgs)
  }

  ghost predicate CanBytes(w: Wired, a: Action) {
    match a
    case WriterStep(side, PutFrame) =>
      var p := HalfOf(w.core, side).out;
      p.writer.Running? && p.hand.Some? && |WireOf(w, side)| < w.core.cfg.wireCap
    case ReaderStep(side, TakeMessage) => AtNext(w.core, side) && WireOf(w, Peer(side)) != []
    case _ => Can(w.core, a)
  }

  /** The writer sends the encoding of the frame it holds. */
  function PutBytes(w: Wired, side: Side): Wired
    requires HalfOf(w.core, side).out.hand.Some?
  {
    var h := HalfOf(w.core, side);
    SetWire(w.(core := SetHalf(w.core, side, h.(out := h.out.(hand := None)))), side,
            WireOf(w, side) + [Encode(h.out.hand.value)])
  }

  /** The reader decodes the next message and dispatches on whatever came out. */
  function TakeBytes(w: Wired, side: Side): Wired
    requires WireOf(w, Peer(side)) != []
  {
    var m := Decode(WireOf(w, Peer(side))[0]);
    var p := HalfOf(w.core, Peer(side));
    var seen := p.out.delivered + if m.Ok? then [m.value] else [];
    var core := SetHalf(w.core, Peer(side), p.(out := p.out.(delivered := seen)));
    SetWire(w.(core := Dispatch(core, side, m)), Peer(side), WireOf(w, Peer(side))[1..])
  }

  ghost function DoBytes(w: Wired, a: Action): Wired
    requires CanBytes(w, a)
  {
    match a
    case WriterStep(side, PutFrame) => PutBytes(w, side)
    case ReaderStep(side, TakeMessage) => TakeBytes(w, side)
    case _ => w.(core := Do(w.core, a))
  }

  ghost predicate RunsBytes(w: Wired, run: seq<Action>)
    decreases |run|
  {
    run == [] || (CanBytes(w, run[0]) && RunsBytes(DoBytes(w, run[0]), run[1..]))
  }

  ghost function AfterBytes(w: Wired, run: seq<Action>): Wired
    requires RunsBytes(w, run)
    decreases |run|
  {
    if run == [] then w else AfterBytes(DoBytes(w, run[0]), run[1..])
  }

  /** The byte-level state that stands for a frame-level one. */
  function OnWire(s: Session): Wired {
    Wired(Strip(s), EncodeAll(s.client.out.wire), EncodeAll(s.server.out.wire))
  }

  predicate TouchesWire(a: Action) {
    (a.WriterStep? && a.w.PutFrame?) || (a.ReaderStep? && a.d.TakeMessage?)
  }

  // ── Steps that do not touch a wire ──────────────────────────────────────────

  lemma StripHandlerGuard(s: Session, id: Id, h: HandlerAct)
    ensures CanHandler(s, id, h) == CanHandler(Strip(s), id, h)
  {
  }

  lemma StripHandlerClient(s: Session, id: Id, h: HandlerAct)
    requires CanHandler(s, id, h) && CanHandler(Strip(s), id, h)
    ensures StripHalf(DoHandler(s, id, h).client) == DoHandler(Strip(s), id, h).client
    ensures DoHandler(s, id, h).client.out.wire == s.client.out.wire
  {
  }

  lemma StripHandlerRest(s: Session, id: Id, h: HandlerAct)
    requires CanHandler(s, id, h) && CanHandler(Strip(s), id, h)
    ensures var c := EMPTY_HALF;
            DoHandler(s, id, h).(client := c, server := c) == DoHandler(Strip(s), id, h).(client := c, server := c)
    ensures DoHandler(s, id, h).server == s.server && DoHandler(Strip(s), id, h).server == StripHalf(s.server)
  {
  }

  lemma StripHandler(s: Session, id: Id, h: HandlerAct)
    requires CanHandler(s, id, h) && CanHandler(Strip(s), id, h)
    ensures Strip(DoHandler(s, id, h)) == DoHandler(Strip(s), id, h)
    ensures DoHandler(s, id, h).client.out.wire == s.client.out.wire && DoHandler(s, id, h).server == s.server
  {
    StripHandlerClient(s, id, h);
    StripHandlerRest(s, id, h);
  }

  lemma StripRelay(s: Session, side: Side, id: Id, r: RelayAct)
    ensures CanRelay(HalfOf(s, side), id, r) == CanRelay(HalfOf(Strip(s), side), id, r)
    ensures CanRelay(HalfOf(s, side), id, r) ==>
              StripHalf(DoRelay(HalfOf(s, side), id, r)) == DoRelay(HalfOf(Strip(s), side), id, r)
              && DoRelay(HalfOf(s, side), id, r).out.wire == HalfOf(s, side).out.wire
  {
  }

  lemma StripWriter(s: Session, side: Side, w: WriterAct)
    requires !w.PutFrame?
    ensures CanWriter(s, side, w) == CanWriter(Strip(s), side, w)
    ensures CanWriter(s, side, w) ==>
              Strip(DoWriter(s, side, w)) == DoWriter(Strip(s), side, w)
              && DoWriter(s, side, w).client.out.wire == s.client.out.wire
              && DoWriter(s, side, w).server.out.wire == s.server.out.wire
  {
  }

  lemma StripReader(s: Session, side: Side, d: ReaderAct)
    requires !d.TakeMessage?
    ensures CanRead(s, side, d) == CanRead(Strip(s), side, d)
    ensures CanRead(s, side, d) ==>
              Strip(DoRead(s, side, d)) == DoRead(Strip(s), side, d)
              && DoRead(s, side, d).client.out.wire == s.client.out.wire
              && DoRead(s, side, d).server.out.wire == s.server.out.wire
  {
  }

  lemma StripOpening(s: Session, o: OpeningAct)
    ensures CanOpen(s, o) == CanOpen(Strip(s), o)
    ensures CanOpen(s, o) ==>
              Strip(DoOpen(s, o)) == DoOpen(Strip(s), o)
              && DoOpen(s, o).client.out.wire == s.client.out.wire
              && DoOpen(s, o).server.out.wire == s.server.out.wire
  {
  }

  lemma OffWireStep(s: Session, a: Action)
    requires !TouchesWire(a)
    ensures CanBytes(OnWire(s), a) <==> Can(s, a)
    ensures Can(s, a) ==> DoBytes(OnWire(s), a) == OnWire(Do(s, a))
  {
    match a
    case HandlerStep(id, h) =>
      StripHandlerGuard(s, id, h);
      if CanHandler(s, id, h) { StripHandler(s, id, h); }
    case RelayStep(side, id, r) => StripRelay(s, side, id, r);
    case TaskStep(side, id, t) =>
    case WriterStep(side, w) => StripWriter(s, side, w);
    case ReaderStep(side, d) => StripReader(s, side, d);
    case OpeningStep(o) => StripOpening(s, o);
    case ConnStep(c) =>
  }

  // ── Steps that do ───────────────────────────────────────────────────────────

  lemma PutStep(s: Session, side: Side)
    ensures CanBytes(OnWire(s), WriterStep(side, PutFrame)) <==> Can(s, WriterStep(side, PutFrame))
    ensures Can(s, WriterStep(side, PutFrame)) ==>
              DoBytes(OnWire(s), WriterStep(side, PutFrame)) == OnWire(Do(s, WriterStep(side, PutFrame)))
  {
    var p := HalfOf(s, side).out;
    if p.hand.Some? {
      assert EncodeAll(p.wire + [p.hand.value]) == EncodeAll(p.wire) + [Encode(p.hand.value)];
    }
  }

  lemma StripDispatch(s: Session, side: Side, f: Frame)
    ensures var m: Result<Frame, ()> := Ok(f); var n: Result<Frame, FrameError> := Ok(f);
            Strip(Dispatch(s, side, m)) == Dispatch(Strip(s), side, n)
            && Dispatch(s, side, m).client.out == s.client.out && Dispatch(s, side, m).server.out == s.server.out
  {
  }

  lemma TakeStep(s: Session, side: Side)
    ensures CanBytes(OnWire(s), ReaderStep(side, TakeMessage)) <==> Can(s, ReaderStep(side, TakeMessage))
    ensures Can(s, ReaderStep(side, TakeMessage)) ==>
              DoBytes(OnWire(s), ReaderStep(side, TakeMessage)) == OnWire(Do(s, ReaderStep(side, TakeMessage)))
  {
    var p := HalfOf(s, Peer(side)).out;
    if Can(s, ReaderStep(side, TakeMessage)) {
      DecodeEncodeFrame(p.wire[0]);
      assert EncodeAll(p.wire)[1..] == EncodeAll(p.wire[1..]);
      StripDispatch(PopWire(s, side), side, p.wire[0]);
    }
  }

  /** Byte level and frame level can do the same steps, with the same outcome. */
  lemma StepRefines(s: Session, a: Action)
    ensures CanBytes(OnWire(s), a) <==> Can(s, a)
    ensures Can(s, a) ==> DoBytes(OnWire(s), a) == OnWire(Do(s, a))
  {
    if a.WriterStep? && a.w.PutFrame? {
      PutStep(s, a.side);
    } else if a.ReaderStep? && a.d.TakeMessage? {
      TakeStep(s, a.side);
    } else {
      OffWireStep(s, a);
    }
  }

  /** So they have the same runs. */
  lemma {:induction false} RunsRefine(s: Session, run: seq<Action>)
    ensures RunsBytes(OnWire(s), run) <==> Runs(s, run)
    ensures Runs(s, run) ==> AfterBytes(OnWire(s), run) == OnWire(After(s, run))
    decreases |run|
  {
    if run != [] {
      StepRefines(s, run[0]);
      if Can(s, run[0]) { RunsRefine(Do(s, run[0]), run[1..]); }
    }
  }

  /** Every message on a wire decodes, and to a frame its reader has an arm for. */
  lemma NoCatchAll(cfg: Config, run: seq<Action>, side: Side, msg: Bytes)
    requires RunsBytes(OnWire(Start(cfg)), run)
    requires msg in WireOf(AfterBytes(OnWire(Start(cfg)), run), side)
    ensures Decode(msg).Ok? && Canonical(msg)
    ensures var f := Decode(msg).value;
            f.Data? || f.Close? || if side.Client? then f.Open? else f.OpenAck?
  {
    RunsRefine(Start(cfg), run);
    var s := After(Start(cfg), run);
    ReachableOk(s);
    var p := HalfOf(s, side).out;
    var i :| 0 <= i < |p.wire| && EncodeAll(p.wire)[i] == msg;
    var f := p.wire[i];
    DecodeEncodeFrame(f);
    ReencodeIffCanonical(msg);
    WireIsPushed(p, s.cfg.wireCap, f);
  }

  lemma WireIsPushed(p: Pipe, cap: nat, f: Frame)
    requires PipeOk(p, cap) && f in p.wire
    ensures f in p.pushed
  {
    assert f in p.delivered + p.wire;
    assert p.writer.Running? ==> p.delivered + InTransit(p) == (p.delivered + p.wire) + (Opt(p.hand) + p.queue);
  }
}
