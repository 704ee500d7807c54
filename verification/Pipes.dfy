/**
 One direction of the tunnel up to the peer's reader: the bounded frame channel,
 the writer loop, and the wire.  `pushed` and `delivered` record every frame ever
 put into the channel and every frame the peer's reader has taken.
 */
module Pipes {
  import opened Basics
  import opened Frames

  const FRAME_CAPACITY := 128

  /** Running: serving the channel.  Broken: left its loop.  Gone: has cleared its registry. */
  datatype Writer = Running | Broken | Gone

  datatype Pipe = Pipe(pushed: seq<Frame>, queue: seq<Frame>, hand: Option<Frame>, writer: Writer,
                       wire: seq<Frame>, delivered: seq<Frame>)

  const EMPTY_PIPE := Pipe([], [], None, Running, [], [])

  /** `frame_tx.send(f).await` can complete: there is room and the receiver lives. */
  predicate HasRoom(p: Pipe) {
    p.writer.Running? && |p.queue| < FRAME_CAPACITY
  }

  function Push(p: Pipe, f: Frame): Pipe {
    p.(pushed := p.pushed + [f], queue := p.queue + [f])
  }

  datatype WriterAct = TakeFrame | PutFrame | SendFails | SeeNoSender | Sweep

  /** One step of `while let Ok(frame) = frame_rx.recv().await { ws_sink.send(..) }; close_all()`. */
  predicate CanWrite(p: Pipe, wireCap: nat, a: WriterAct) {
    match a
    case TakeFrame => p.writer.Running? && p.hand.None? && p.queue != []
    case PutFrame => p.writer.Running? && p.hand.Some? && |p.wire| < wireCap
    case SendFails => p.writer.Running? && p.hand.Some?
    case SeeNoSender => p.writer.Running? && p.hand.None? && p.queue == []
    case Sweep => p.writer.Broken?
  }

  /** When the writer leaves its loop the channel's receiver is dropped with everything in it. */
  function DoWrite(p: Pipe, a: WriterAct): Pipe
    requires a.TakeFrame? ==> p.queue != []
    requires a.PutFrame? ==> p.hand.Some?
  {
    match a
    case TakeFrame => p.(hand := Some(p.queue[0]), queue := p.queue[1..])
    case PutFrame => p.(wire := p.wire + [p.hand.value], hand := None)
    case SendFails => p.(writer := Broken, hand := None, queue := [])
    case SeeNoSender => p.(writer := Broken)
    case Sweep => p.(writer := Gone)
  }

  function Deliver(p: Pipe): Pipe
    requires p.wire != []
  {
    p.(wire := p.wire[1..], delivered := p.delivered + [p.wire[0]])
  }

  /** Frames on their way, in the order in which the peer will see them. */
  function InTransit(p: Pipe): seq<Frame> {
    p.wire + Opt(p.hand) + p.queue
  }

  ghost predicate PipeOk(p: Pipe, wireCap: nat) {
    |p.queue| <= FRAME_CAPACITY
    && |p.wire| <= wireCap
    && (p.writer.Running? ==> p.pushed == p.delivered + InTransit(p))
    && (!p.writer.Running? ==> p.hand.None? && p.queue == [] && p.delivered + p.wire <= p.pushed)
  }

  lemma PushOk(p: Pipe, wireCap: nat, f: Frame)
    requires PipeOk(p, wireCap) && HasRoom(p)
    ensures PipeOk(Push(p, f), wireCap)
  {
    assert p.delivered + InTransit(p) + [f] == p.delivered + InTransit(Push(p, f));
  }

  lemma WriteOk(p: Pipe, wireCap: nat, a: WriterAct)
    requires PipeOk(p, wireCap) && CanWrite(p, wireCap, a)
    ensures PipeOk(DoWrite(p, a), wireCap)
  {
    var q := DoWrite(p, a);
    match a
    case TakeFrame => assert InTransit(q) == InTransit(p);
    case PutFrame => assert InTransit(q) == InTransit(p);
    case SendFails => assert p.pushed == (p.delivered + p.wire) + (Opt(p.hand) + p.queue);
    case SeeNoSender => assert p.pushed == p.delivered + p.wire;
    case Sweep =>
  }

  lemma DeliverOk(p: Pipe, wireCap: nat)
    requires PipeOk(p, wireCap) && p.wire != []
    ensures PipeOk(Deliver(p), wireCap)
    ensures Deliver(p).delivered <= p.pushed
  {
    var q := Deliver(p);
    assert p.delivered + p.wire == q.delivered + q.wire;
    assert p.writer.Running? ==> q.delivered + InTransit(q) == (q.delivered + q.wire) + (Opt(p.hand) + p.queue);
    assert p.writer.Running? ==> p.delivered + InTransit(p) == (p.delivered + p.wire) + (Opt(p.hand) + p.queue);
    PrefixTrans(q.delivered, q.delivered + q.wire, p.pushed);
  }

  /** The wire neither invents nor reorders: what was taken is a prefix of what was queued. */
  lemma DeliveredIsPrefix(p: Pipe, wireCap: nat)
    requires PipeOk(p, wireCap)
    ensures p.delivered <= p.pushed
  {
    if !p.writer.Running? { PrefixTrans(p.delivered, p.delivered + p.wire, p.pushed); }
  }
}
