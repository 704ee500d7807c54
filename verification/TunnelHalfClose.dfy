/**
 What a stream loses that is closed from this side first.  When a local socket ends, its
 relay sends CLOSE and takes the stream out of the registry, and every chunk that arrives
 later is dropped, although the write task lives on.  Its socket ends with exactly what
 had been accepted by then; whether that is all the peer's relay read is decided exactly.
 */
module TunnelHalfClose {
  import opened Basics
  import opened Frames
  import opened History
  import opened Streams
  import opened Pipes
  import opened Tunnel
  import opened TunnelDrain
  import opened TunnelEnds
  import opened TunnelInvariant
  import opened TunnelProgress
  import opened TunnelScripts

  /** This side's own relay removed the stream. */
  predicate Removed(h: Half, id: Id) {
    id in h.relays && id in h.recv.chans && h.recv.chans[id].link == OwnerClosed
  }

  /** The chunks a channel has got: written, or still to be written by its task. */
  function Kept(r: Recv, id: Id): seq<Bytes>
    requires id in r.chans
  {
    if r.chans[id].Receiving() then Got(r, id) else r.chans[id].done + r.chans[id].InHand()
  }

  /** The write task has ended, and not because the socket refused a chunk. */
  predicate PeaceAt(s: Session, side: Side, id: Id) {
    id in HalfOf(s, side).recv.chans
    && var c := HalfOf(s, side).recv.chans[id];
       c.task.Stopped? && !Failed(c)
  }

  // ── A removed stream gets nothing more ──────────────────────────────────────

  ghost predicate Frozen(h: Half, id: Id, all: seq<Bytes>) {
    Removed(h, id) && h.relays[id].pc.Ended? && id !in h.recv.reg
    && if Failed(h.recv.chans[id]) then Kept(h.recv, id) <= all else Kept(h.recv, id) == all
  }

  lemma SameFrozen(h: Half, h': Half, id: Id, all: seq<Bytes>)
    requires Frozen(h, id, all) && id in h'.relays && h'.relays[id] == h.relays[id]
    requires id in h'.recv.chans && h'.recv.chans[id] == h.recv.chans[id] && id !in h'.recv.reg
    requires ParkedFor(h'.recv, id) == ParkedFor(h.recv, id) || !h.recv.chans[id].Receiving()
    ensures Frozen(h', id, all)
  {
  }

  /** A relaying stream's handler has no steps left, and the others leave its channel alone. */
  lemma OtherHandler(s: Session, i: Id, a: HandlerAct, id: Id)
    requires CanHandler(s, i, a) && StreamOk(s, id) && id in s.client.relays && id in s.client.recv.chans
    ensures var h, h' := s.client, DoHandler(s, i, a).client;
            && id in h'.relays && h'.relays[id] == h.relays[id]
            && id in h'.recv.chans && h'.recv.chans[id] == h.recv.chans[id]
            && (id in h'.recv.reg <==> id in h.recv.reg) && h'.recv.parked == h.recv.parked
  {
    assert i != id;
  }

  lemma HandlerFrozen(s: Session, i: Id, a: HandlerAct, id: Id, all: seq<Bytes>)
    requires CanHandler(s, i, a) && StreamOk(s, id) && Frozen(s.client, id, all)
    ensures Frozen(DoHandler(s, i, a).client, id, all)
  {
    OtherHandler(s, i, a, id);
    SameFrozen(s.client, DoHandler(s, i, a).client, id, all);
  }

  lemma RelayFrozen(h: Half, i: Id, a: RelayAct, id: Id, all: seq<Bytes>)
    requires CanRelay(h, i, a) && Frozen(h, id, all)
    ensures Frozen(DoRelay(h, i, a), id, all)
  {
    assert i != id;
    SameFrozen(h, DoRelay(h, i, a), id, all);
  }

  /** The write task works off what it has and takes nothing else. */
  lemma TaskFrozen(h: Half, din: seq<Frame>, i: Id, a: TaskAct, id: Id, all: seq<Bytes>)
    requires CanTask(h.recv, i, a) && ChanOk(h.recv, din, id) && Frozen(h, id, all)
    ensures Frozen(h.(recv := DoTask(h.recv, i, a)), id, all)
  {
    var h' := h.(recv := DoTask(h.recv, i, a));
    if i == id {
      TaskMoves(h.recv.chans[id], a);
      var c, c' := h.recv.chans[id], h'.recv.chans[id];
      if c'.Receiving() {
        assert Got(h'.recv, id) == Got(h.recv, id);
      } else if a.SeeEnd? {
        assert Kept(h'.recv, id) == Got(h.recv, id);
      } else {
        PrefixTrans(c'.done + c'.InHand(), c.done + c.InHand() + c.queue, Got(h.recv, id));
      }
    } else {
      SameFrozen(h, h', id, all);
    }
  }

  lemma TakeFrozen(h: Half, f: Frame, id: Id, all: seq<Bytes>)
    requires h.recv.parked.None? && Frozen(h, id, all)
    ensures f.Data? ==> Frozen(h.(recv := Route(h.recv, f.id, f.bytes)), id, all)
    ensures f.Close? ==> Frozen(h.(recv := Unlink(h.recv, f.id, PeerClosed)), id, all)
  {
  }

  lemma AdmitFrozen(h: Half, id: Id, all: seq<Bytes>)
    requires CanAdmit(h.recv) && Frozen(h, id, all)
    ensures Frozen(h.(recv := Admit(h.recv)), id, all)
  {
    if h.recv.parked.value.id == id {
      assert Got(Admit(h.recv), id) == Got(h.recv, id);
    }
  }

  lemma SweepFrozen(h: Half, id: Id, all: seq<Bytes>)
    requires Frozen(h, id, all)
    ensures Frozen(h.(recv := UnlinkAll(h.recv)), id, all)
  {
    SameFrozen(h, h.(recv := UnlinkAll(h.recv)), id, all);
  }

  lemma ReaderFrozen(s: Session, side: Side, a: ReaderAct, id: Id, all: seq<Bytes>)
    requires CanRead(s, side, a) && Frozen(HalfOf(s, side), id, all)
    ensures Frozen(HalfOf(DoRead(s, side, a), side), id, all)
  {
    var h, h' := HalfOf(s, side), HalfOf(DoRead(s, side, a), side);
    if a.TakeMessage? {
      TakenHalf(s, side);
      TakeFrozen(h, HalfOf(s, Peer(side)).out.wire[0], id, all);
    } else if a.AdmitChunk? {
      AdmitFrozen(h, id, all);
    } else if a.SweepStreams? {
      SweepFrozen(h, id, all);
    } else {
      SameFrozen(h, h', id, all);
    }
  }

  lemma OpeningFrozen(s: Session, a: OpeningAct, id: Id, all: seq<Bytes>)
    requires CanOpen(s, a) && StreamOk(s, id) && Frozen(s.server, id, all)
    ensures Frozen(DoOpen(s, a).server, id, all)
  {
    assert s.opening.id != id;
    SameFrozen(s.server, DoOpen(s, a).server, id, all);
  }

  lemma WriterFrozen(s: Session, side: Side, w: WriterAct, id: Id, all: seq<Bytes>)
    requires CanWrite(HalfOf(s, side).out, s.cfg.wireCap, w) && Frozen(HalfOf(s, side), id, all)
    ensures Frozen(HalfOf(DoWriter(s, side, w), side), id, all)
  {
    SweepFrozen(HalfOf(s, side), id, all);
  }

  lemma TaskStepFrozen(s: Session, side: Side, i: Id, t: TaskAct, id: Id, all: seq<Bytes>)
    requires Inv(s) && CanTask(HalfOf(s, side).recv, i, t) && Frozen(HalfOf(s, side), id, all)
    ensures Frozen(HalfOf(Do(s, TaskStep(side, i, t)), side), id, all)
  {
    assert ChanOk(HalfOf(s, side).recv, HalfOf(s, Peer(side)).out.delivered, id);
    TaskFrozen(HalfOf(s, side), HalfOf(s, Peer(side)).out.delivered, i, t, id, all);
  }

  lemma HomeFrozen(s: Session, a: Action, id: Id, all: seq<Bytes>)
    requires Inv(s) && StreamOk(s, id) && Can(s, a) && Frozen(HalfOf(s, Home(a)), id, all)
    ensures Frozen(HalfOf(Do(s, a), Home(a)), id, all)
  {
    match a
    case HandlerStep(i, h) => HandlerFrozen(s, i, h, id, all);
    case RelayStep(side, i, r) => RelayFrozen(HalfOf(s, side), i, r, id, all);
    case TaskStep(side, i, t) => TaskStepFrozen(s, side, i, t, id, all);
    case WriterStep(side, w) => WriterFrozen(s, side, w, id, all);
    case ReaderStep(side, d) => ReaderFrozen(s, side, d, id, all);
    case OpeningStep(o) => OpeningFrozen(s, o, id, all);
    case ConnStep(c) => SweepFrozen(s.client, id, all);
  }

  /** Elsewhere a step leaves channels and relays alone. */
  lemma Abroad(s: Session, a: Action)
    requires Can(s, a)
    ensures var side := Peer(Home(a));
            HalfOf(Do(s, a), side).recv == HalfOf(s, side).recv
            && HalfOf(Do(s, a), side).relays == HalfOf(s, side).relays
  {
  }

  lemma StepFrozen(s: Session, a: Action, side: Side, id: Id, all: seq<Bytes>)
    requires Inv(s) && Can(s, a) && Frozen(HalfOf(s, side), id, all)
    ensures Frozen(HalfOf(Do(s, a), side), id, all)
  {
    if side == Home(a) {
      assert StreamOk(s, id);
      HomeFrozen(s, a, id, all);
    } else {
      Abroad(s, a);
      SameFrozen(HalfOf(s, side), HalfOf(Do(s, a), side), id, all);
    }
  }

  lemma {:induction false} RunFrozen(s: Session, run: seq<Action>, side: Side, id: Id, all: seq<Bytes>)
    requires Inv(s) && Runs(s, run) && Frozen(HalfOf(s, side), id, all)
    ensures Frozen(HalfOf(After(s, run), side), id, all)
    decreases |run|
  {
    if run != [] {
      StepFrozen(s, run[0], side, id, all);
      StepKeeps(s, run[0]);
      RunFrozen(Do(s, run[0]), run[1..], side, id, all);
    }
  }

  lemma RemovedIsFrozen(s: Session, side: Side, id: Id)
    requires Inv(s) && Removed(HalfOf(s, side), id)
    ensures Frozen(HalfOf(s, side), id, Kept(HalfOf(s, side).recv, id))
  {
    assert StreamOk(s, id) && ChanOk(HalfOf(s, side).recv, HalfOf(s, Peer(side)).out.delivered, id);
  }

  /** At the moment of its removal a stream has accepted all that had been read off the wire for it. */
  lemma RemovalKeeps(s: Session, side: Side, id: Id)
    requires Reachable(s) && CanRelay(HalfOf(s, side), id, UnlinkSelf)
    requires id in HalfOf(s, side).recv.reg && id in HalfOf(s, side).recv.chans
    requires !Failed(HalfOf(s, side).recv.chans[id])
    ensures var h := HalfOf(Do(s, RelayStep(side, id, UnlinkSelf)), side);
            Removed(h, id) && Kept(h.recv, id) == ChunksOf(HalfOf(s, Peer(side)).out.delivered, id)
  {
    ReachableOk(s);
    ReachableEnds(s);
    assert EndOf(s, side, id) && StreamOk(s, id);
    assert ChanOk(HalfOf(s, side).recv, HalfOf(s, Peer(side)).out.delivered, id);
  }

  /**
   Whatever happens after this side has removed a stream, its socket gets what the channel
   had got by then: all of it when the write task ends in peace, a prefix if it fails.
   */
  lemma RemovedGetsNoMore(s: Session, run: seq<Action>, side: Side, id: Id)
    requires Reachable(s) && Removed(HalfOf(s, side), id) && Runs(s, run)
    ensures var t, kept := After(s, run), Kept(HalfOf(s, side).recv, id);
            && Removed(HalfOf(t, side), id)
            && HalfOf(t, side).recv.chans[id].Written() <= Flat(kept)
            && (PeaceAt(t, side, id) ==> HalfOf(t, side).recv.chans[id].Written() == Flat(kept))
  {
    ReachableOk(s);
    var kept := Kept(HalfOf(s, side).recv, id);
    RemovedIsFrozen(s, side, id);
    RunFrozen(s, run, side, id, kept);
    RunKeeps(s, run);
    KeptIsWritten(After(s, run), side, id, kept);
  }

  lemma KeptIsWritten(t: Session, side: Side, id: Id, all: seq<Bytes>)
    requires Inv(t) && Frozen(HalfOf(t, side), id, all)
    ensures HalfOf(t, side).recv.chans[id].Written() <= Flat(all)
    ensures PeaceAt(t, side, id) ==> HalfOf(t, side).recv.chans[id].Written() == Flat(all)
  {
    var r := HalfOf(t, side).recv;
    var c := r.chans[id];
    assert ChanOk(r, HalfOf(t, Peer(side)).out.delivered, id);
    var whole := c.done + c.InHand();
    FlatConcat(c.done, c.InHand());
    if c.InHand() != [] { FlatOne(c.InHand()[0]); }
    assert c.Written() <= Flat(whole);
    FlatPrefix(whole, all);
  }

  // ── Whether that is everything ──────────────────────────────────────────────

  /** What the relay of a stream has produced. */
  function FedOf(h: Half, id: Id): seq<Bytes> {
    if id in h.relays then h.relays[id].fed else []
  }

  /** The socket has every byte the peer's relay read. */
  ghost predicate Whole(s: Session, side: Side, id: Id) {
    id in HalfOf(s, side).recv.chans
    && HalfOf(s, side).recv.chans[id].Written() == Flat(FedOf(HalfOf(s, Peer(side)), id))
  }

  /** The peer's relay produced no byte beyond `kept`. */
  predicate NothingBeyond(kept: seq<Bytes>, fed: seq<Bytes>) {
    forall k :: |kept| <= k < |fed| ==> fed[k] == []
  }

  lemma {:induction false} FlatEmpty(chunks: seq<Bytes>)
    ensures Flat(chunks) == [] <==> forall k :: 0 <= k < |chunks| ==> chunks[k] == []
  {
    if chunks != [] {
      FlatEmpty(chunks[1..]);
      assert forall k :: 1 <= k < |chunks| ==> chunks[k] == chunks[1..][k - 1];
    }
  }

  lemma BeyondIsFlat(kept: seq<Bytes>, fed: seq<Bytes>)
    requires kept <= fed
    ensures Flat(kept) == Flat(fed) <==> NothingBeyond(kept, fed)
  {
    var rest := fed[|kept|..];
    assert fed == kept + rest;
    FlatConcat(kept, rest);
    FlatEmpty(rest);
    assert forall k :: |kept| <= k < |fed| ==> fed[k] == rest[k - |kept|];
    assert forall k :: 0 <= k < |rest| ==> rest[k] == fed[k + |kept|];
  }

  lemma SentIsProduced(s: Session, side: Side, id: Id)
    requires Inv(s)
    ensures ChunksOf(HalfOf(s, side).out.delivered, id) <= ChunksOf(HalfOf(s, side).out.pushed, id)
            <= FedOf(HalfOf(s, side), id)
  {
    assert StreamOk(s, id);
    DeliveredIsPrefix(HalfOf(s, side).out, s.cfg.wireCap);
    StagePrefix(HalfOf(s, side).out.delivered, HalfOf(s, side).out.pushed, id);
  }

  lemma KeptIsFed(s: Session, side: Side, id: Id, all: seq<Bytes>)
    requires Inv(s) && Frozen(HalfOf(s, side), id, all) && PeaceAt(s, side, id)
    ensures all <= ChunksOf(HalfOf(s, Peer(side)).out.pushed, id) <= FedOf(HalfOf(s, Peer(side)), id)
  {
    var p := HalfOf(s, Peer(side)).out;
    assert ChanOk(HalfOf(s, side).recv, p.delivered, id);
    SentIsProduced(s, Peer(side), id);
    PrefixTrans(all, ChunksOf(p.delivered, id), ChunksOf(p.pushed, id));
  }

  lemma FrozenWhole(s: Session, side: Side, id: Id, all: seq<Bytes>)
    requires Inv(s) && Frozen(HalfOf(s, side), id, all) && PeaceAt(s, side, id)
    ensures Whole(s, side, id) <==> NothingBeyond(all, FedOf(HalfOf(s, Peer(side)), id))
  {
    KeptIsWritten(s, side, id, all);
    KeptIsFed(s, side, id, all);
    PrefixTrans(all, ChunksOf(HalfOf(s, Peer(side)).out.pushed, id), FedOf(HalfOf(s, Peer(side)), id));
    BeyondIsFlat(all, FedOf(HalfOf(s, Peer(side)), id));
  }

  /**
   A stream this side removed and whose write task has ended in peace is complete exactly
   when the peer's relay has produced nothing beyond what had been accepted here.
   */
  lemma CompleteIff(s: Session, side: Side, id: Id)
    requires Reachable(s) && Removed(HalfOf(s, side), id) && PeaceAt(s, side, id)
    ensures Whole(s, side, id) <==> NothingBeyond(Kept(HalfOf(s, side).recv, id), FedOf(HalfOf(s, Peer(side)), id))
  {
    ReachableOk(s);
    RemovedIsFrozen(s, side, id);
    FrozenWhole(s, side, id, Kept(HalfOf(s, side).recv, id));
  }

  // ── And whether it stays so ─────────────────────────────────────────────────

  /** Relay `id` of a process has read its last byte. */
  predicate ReadsNoMore(h: Half, id: Id) {
    id in h.relays && !MayRead(h.relays[id].pc)
  }

  lemma OpeningLeavesRelay(s: Session, a: OpeningAct, id: Id)
    requires CanOpen(s, a) && StreamOk(s, id) && id in s.server.relays
    ensures id in DoOpen(s, a).server.relays && DoOpen(s, a).server.relays[id] == s.server.relays[id]
  {
  }

  lemma RelayReads(h: Half, i: Id, a: RelayAct, id: Id)
    requires CanRelay(h, i, a) && ReadsNoMore(h, id)
    ensures ReadsNoMore(DoRelay(h, i, a), id) && DoRelay(h, i, a).relays[id].fed == h.relays[id].fed
  {
  }

  lemma ReaderReads(s: Session, side: Side, a: ReaderAct)
    requires CanRead(s, side, a)
    ensures HalfOf(DoRead(s, side, a), side).relays == HalfOf(s, side).relays
  {
    if a.TakeMessage? { TakenHalf(s, side); }
  }

  lemma HomeReads(s: Session, a: Action, id: Id)
    requires Can(s, a) && StreamOk(s, id) && ReadsNoMore(HalfOf(s, Home(a)), id)
    requires a.HandlerStep? ==> id in s.client.recv.chans
    ensures ReadsNoMore(HalfOf(Do(s, a), Home(a)), id)
    ensures HalfOf(Do(s, a), Home(a)).relays[id].fed == HalfOf(s, Home(a)).relays[id].fed
  {
    match a
    case HandlerStep(i, h) => OtherHandler(s, i, h, id);
    case RelayStep(side, i, r) => RelayReads(HalfOf(s, side), i, r, id);
    case ReaderStep(side, d) => ReaderReads(s, side, d);
    case OpeningStep(o) => OpeningLeavesRelay(s, o, id);
    case _ =>
  }

  lemma StepReads(s: Session, a: Action, side: Side, id: Id)
    requires Inv(s) && Can(s, a) && ReadsNoMore(HalfOf(s, side), id)
    ensures ReadsNoMore(HalfOf(Do(s, a), side), id)
    ensures HalfOf(Do(s, a), side).relays[id].fed == HalfOf(s, side).relays[id].fed
  {
    assert StreamOk(s, id);
    if side == Home(a) { HomeReads(s, a, id); } else { Abroad(s, a); }
  }

  lemma {:induction false} RunReads(s: Session, run: seq<Action>, side: Side, id: Id)
    requires Inv(s) && Runs(s, run) && ReadsNoMore(HalfOf(s, side), id)
    ensures id in HalfOf(After(s, run), side).relays
    ensures HalfOf(After(s, run), side).relays[id].fed == HalfOf(s, side).relays[id].fed
    decreases |run|
  {
    if run != [] {
      StepReads(s, run[0], side, id);
      StepKeeps(s, run[0]);
      RunReads(Do(s, run[0]), run[1..], side, id);
    }
  }

  /** A write task with something in its hand or its queue has a step that needs no failure. */
  lemma TaskTurn(c: Chan) returns (t: TaskAct)
    requires c.task.Ready? || c.task.Writing?
    requires c.task.Writing? ==> c.task.n < |c.task.data| || (c.task.n == 0 && c.task.data == [])
    requires c.task.Writing? || c.queue != []
    ensures CanChan(c, t) && !t.SeeEnd? && !Failed(ChanAfter(c, t))
  {
    t := if c.task.Writing? then WriteBytes(|c.task.data| - c.task.n) else TakeChunk;
  }

  /** The next step towards the end of a removed stream's write task, on this side alone. */
  lemma NextWrite(s: Session, side: Side, id: Id, all: seq<Bytes>) returns (a: Action)
    requires Inv(s) && Frozen(HalfOf(s, side), id, all) && HalfOf(s, side).recv.chans[id].Receiving()
    ensures Can(s, a) && !IsInput(a) && Home(a) == side
    ensures var h := HalfOf(Do(s, a), side); id in h.recv.chans && !Failed(h.recv.chans[id])
  {
    var r := HalfOf(s, side).recv;
    var c := r.chans[id];
    assert StreamOk(s, id) && ChanOk(r, HalfOf(s, Peer(side)).out.delivered, id);
    if c.task.Writing? || c.queue != [] {
      var t := TaskTurn(c);
      a := TaskStep(side, id, t);
    } else if ParkedFor(r, id) != [] {
      a := ReaderStep(side, AdmitChunk);
    } else {
      a := TaskStep(side, id, SeeEnd);
    }
  }

  /** A removed stream's write task can always be run to its end. */
  lemma {:induction false} WriteOut(s: Session, side: Side, id: Id, all: seq<Bytes>) returns (run: seq<Action>)
    requires Inv(s) && Frozen(HalfOf(s, side), id, all) && !Failed(HalfOf(s, side).recv.chans[id])
    ensures Runs(s, run) && PeaceAt(After(s, run), side, id)
    ensures HalfOf(After(s, run), Peer(side)).relays == HalfOf(s, Peer(side)).relays
    decreases Cost(s)
  {
    if !HalfOf(s, side).recv.chans[id].Receiving() {
      run := [];
    } else {
      var a := NextWrite(s, side, id, all);
      StepCosts(s, a);
      StepKeeps(s, a);
      StepFrozen(s, a, side, id, all);
      Abroad(s, a);
      var rest := WriteOut(Do(s, a), side, id, all);
      run := [a] + rest;
      assert run[1..] == rest;
    }
  }

  lemma ReadAct(s: Session, side: Side, id: Id)
    requires Feeds(s, side, id)
    ensures var a := RelayStep(side, id, ReadSocket([0]));
            Can(s, a) && id in HalfOf(Do(s, a), side).relays
            && HalfOf(Do(s, a), side).relays[id].fed == HalfOf(s, side).relays[id].fed + [[0]]
            && HalfOf(Do(s, a), Peer(side)) == HalfOf(s, Peer(side))
  {
  }

  /** One more byte for a relay that waits for its socket, or is about to. */
  lemma ReadMore(s: Session, run: seq<Action>, side: Side, id: Id) returns (more: seq<Action>)
    requires Runs(s, run) && id in HalfOf(After(s, run), side).relays
    requires var pc := HalfOf(After(s, run), side).relays[id].pc; pc.Spawning? || pc.Reading?
    ensures Runs(s, more)
    ensures var t, u := After(s, run), After(s, more);
            HalfOf(u, Peer(side)) == HalfOf(t, Peer(side)) && id in HalfOf(u, side).relays
            && HalfOf(u, side).relays[id].fed == HalfOf(t, side).relays[id].fed + [[0]]
  {
    more := run;
    if HalfOf(After(s, run), side).relays[id].pc.Spawning? {
      AfterSnoc(s, run, RelayStep(side, id, SpawnWriter));
      more := run + [RelayStep(side, id, SpawnWriter)];
    }
    ReadAct(After(s, more), side, id);
    AfterSnoc(s, more, RelayStep(side, id, ReadSocket([0])));
    more := more + [RelayStep(side, id, ReadSocket([0]))];
  }

  /** On every continuation in which the write task ends in peace, the socket has everything. */
  ghost predicate EndsWhole(s: Session, side: Side, id: Id) {
    forall run :: Runs(s, run) && PeaceAt(After(s, run), side, id) ==> Whole(After(s, run), side, id)
  }

  lemma NoMoreIsWhole(s: Session, side: Side, id: Id, all: seq<Bytes>)
    requires Inv(s) && Frozen(HalfOf(s, side), id, all)
    requires ReadsNoMore(HalfOf(s, Peer(side)), id) && NothingBeyond(all, FedOf(HalfOf(s, Peer(side)), id))
    ensures EndsWhole(s, side, id)
  {
    forall run | Runs(s, run) && PeaceAt(After(s, run), side, id) ensures Whole(After(s, run), side, id) {
      RunFrozen(s, run, side, id, all);
      RunReads(s, run, Peer(side), id);
      RunKeeps(s, run);
      FrozenWhole(After(s, run), side, id, all);
    }
  }

  lemma BeyondIsLost(s: Session, run: seq<Action>, side: Side, id: Id, all: seq<Bytes>)
    requires Inv(s) && Frozen(HalfOf(s, side), id, all) && Runs(s, run) && PeaceAt(After(s, run), side, id)
    requires !NothingBeyond(all, FedOf(HalfOf(After(s, run), Peer(side)), id))
    ensures !EndsWhole(s, side, id)
  {
    RunFrozen(s, run, side, id, all);
    RunKeeps(s, run);
    FrozenWhole(After(s, run), side, id, all);
  }

  /** If the peer's relay may still read, there is a continuation that loses a byte. */
  lemma ReadingIsLost(s: Session, side: Side, id: Id, all: seq<Bytes>)
    requires Inv(s) && Frozen(HalfOf(s, side), id, all) && !Failed(HalfOf(s, side).recv.chans[id])
    requires id in HalfOf(s, Peer(side)).relays && !ReadsNoMore(HalfOf(s, Peer(side)), id)
    ensures !EndsWhole(s, side, id)
  {
    var run := WriteOut(s, side, id, all);
    var t := After(s, run);
    RunFrozen(s, run, side, id, all);
    RunKeeps(s, run);
    KeptIsFed(t, side, id, all);
    if HalfOf(t, Peer(side)).relays[id].pc.Sending? {
      SendingIsBeyond(t, side, id, all);
      BeyondIsLost(s, run, side, id, all);
    } else {
      var more := ReadMore(s, run, Peer(side), id);
      var fed := HalfOf(After(s, more), Peer(side)).relays[id].fed;
      assert fed[|fed| - 1] == [0];
      BeyondIsLost(s, more, side, id, all);
    }
  }

  /** The chunk a relay is about to queue has not been accepted anywhere. */
  lemma SendingIsBeyond(s: Session, side: Side, id: Id, all: seq<Bytes>)
    requires Inv(s) && Frozen(HalfOf(s, side), id, all) && PeaceAt(s, side, id)
    requires id in HalfOf(s, Peer(side)).relays && HalfOf(s, Peer(side)).relays[id].pc.Sending?
    ensures !NothingBeyond(all, FedOf(HalfOf(s, Peer(side)), id))
  {
    assert StreamOk(s, id);
    KeptIsFed(s, side, id, all);
    var relay := HalfOf(s, Peer(side)).relays[id];
    assert relay.fed[|relay.fed| - 1] == relay.pc.chunk;
  }

  /**
   A stream this side removed is sure to end complete exactly when the peer's relay has
   read its last byte and has produced nothing that was not accepted here; as long as it
   may read on, some continuation loses a byte.
   */
  lemma CompleteForeverIff(s: Session, side: Side, id: Id)
    requires Reachable(s) && Removed(HalfOf(s, side), id) && !Failed(HalfOf(s, side).recv.chans[id])
    requires id in HalfOf(s, Peer(side)).relays
    ensures EndsWhole(s, side, id)
            <==> ReadsNoMore(HalfOf(s, Peer(side)), id)
                 && NothingBeyond(Kept(HalfOf(s, side).recv, id), FedOf(HalfOf(s, Peer(side)), id))
  {
    ReachableOk(s);
    var all := Kept(HalfOf(s, side).recv, id);
    RemovedIsFrozen(s, side, id);
    if !ReadsNoMore(HalfOf(s, Peer(side)), id) {
      ReadingIsLost(s, side, id, all);
    } else if NothingBeyond(all, FedOf(HalfOf(s, Peer(side)), id)) {
      NoMoreIsWhole(s, side, id, all);
    } else {
      var run := WriteOut(s, side, id, all);
      BeyondIsLost(s, run, side, id, all);
    }
  }

  // ── It happens ──────────────────────────────────────────────────────────────

  /** The local socket ends; the relay closes its stream and the write task ends. */
  lemma CloseLocal(s: Session, id: Id) returns (s': Session)
    requires Reachable(s) && Idle(s) && Feeds(s, Client, id) && id in s.client.recv.reg
    requires id in s.client.recv.chans && s.client.recv.chans[id] == Chan(Linked, [], Ready, [])
    ensures Reachable(s') && Alive(s') && s'.cfg == s.cfg && s'.server == s.server && s'.opening == s.opening
    ensures s'.client.recv.parked.None? && id !in s'.client.recv.reg
    ensures id in s'.client.recv.chans && s'.client.recv.chans[id] == Chan(OwnerClosed, [], Stopped(None, 0), [])
    ensures id in s'.client.relays
  {
    var s1 := Go(s, RelayStep(Client, id, ReadEnds));
    var s2 := Go(s1, RelayStep(Client, id, PushClose));
    var s3 := Go(s2, RelayStep(Client, id, UnlinkSelf));
    s' := Go(s3, TaskStep(Client, id, SeeEnd));
  }

  /** A frame for the removed stream arrives and changes nothing. */
  lemma TooLate(s: Session, id: Id, f: Frame) returns (s': Session)
    requires Reachable(s) && Alive(s) && s.client.recv.parked.None? && id !in s.client.recv.reg
    requires s.server.out.queue == [f] && s.server.out.hand.None? && s.server.out.wire == []
    requires f == Close(id) || (f.Data? && f.id == id)
    ensures Reachable(s') && Alive(s') && s'.cfg == s.cfg && s'.client == s.client && s'.opening == s.opening
    ensures Quiet(s'.server.out) && s'.server.out.delivered == s.server.out.delivered + [f]
    ensures s'.server.relays == s.server.relays
  {
    var s1 := Go(s, WriterStep(Server, TakeFrame));
    var s2 := Go(s1, WriterStep(Server, PutFrame));
    s' := Go(s2, ReaderStep(Client, TakeMessage));
  }

  /** The upstream socket ends. */
  lemma CloseUpstream(s: Session, id: Id) returns (s': Session)
    requires Reachable(s) && Alive(s) && Feeds(s, Server, id) && Quiet(s.server.out)
    ensures Reachable(s') && Alive(s') && s'.cfg == s.cfg && s'.client == s.client && s'.opening == s.opening
    ensures s'.server.out == Push(s.server.out, Close(id)) && id in s'.server.relays
    ensures s'.server.relays[id].fed == s.server.relays[id].fed
  {
    var s1 := Go(s, RelayStep(Server, id, ReadEnds));
    s' := Go(s1, RelayStep(Server, id, PushClose));
  }

  /**
   Stream `id` has been closed by both sides and its write task has ended without a
   failure; all that was sent has been read off the wire; its socket has nothing of it.
   */
  ghost predicate LostAll(s: Session, cfg: Config, id: Id) {
    Reachable(s) && s.cfg == cfg && Alive(s) && Removed(s.client, id) && PeaceAt(s, Client, id)
    && ChunksOf(s.server.out.delivered, id) == [[0]] && StageOf(s.server.out.delivered, id) == Closed
    && FedOf(s.server, id) == [[0]] && s.client.recv.chans[id].Written() == []
  }

  /** Up to a relaying CONNECT stream. */
  lemma Relaying(cfg: Config, id: Id, dest: string) returns (s: Session)
    requires cfg.wireCap > 0 && cfg.allowed(dest)
    ensures Reachable(s) && Idle(s) && s.cfg == cfg && Feeds(s, Client, id) && id in s.client.recv.reg
    ensures id in s.client.recv.chans && s.client.recv.chans[id] == Chan(Linked, [], Ready, [])
    ensures id in s.server.relays && s.server.relays[id] == Relay(Reading, [])
    ensures s.server.out.delivered == [OpenAck(id, true)]
  {
    assert Runs(Start(cfg), []) && Start(cfg) == After(Start(cfg), []);
    var s1 := OpenStream(Start(cfg), id, Connect, dest);
    var s2 := Go(s1, HandlerStep(id, WriteSuccess));
    s := Go(s2, RelayStep(Client, id, SpawnWriter));
  }

  lemma ThreeFrames(id: Id)
    ensures var frames := [OpenAck(id, true)] + [Data(id, [0])] + [Close(id)];
            ChunksOf(frames, id) == [[0]] && StageOf(frames, id) == Closed
  {
    assert [] + [OpenAck(id, true)] == [OpenAck(id, true)];
    Append([], OpenAck(id, true), id);
    Append([OpenAck(id, true)], Data(id, [0]), id);
    Append([OpenAck(id, true)] + [Data(id, [0])], Close(id), id);
  }

  /** The server reads, sends and closes after the client has closed. */
  lemma AnswerLate(s: Session, id: Id) returns (s': Session)
    requires Reachable(s) && Alive(s) && s.client.recv.parked.None? && id !in s.client.recv.reg
    requires id in s.server.relays && s.server.relays[id] == Relay(Reading, []) && Quiet(s.server.out)
    ensures Reachable(s') && Alive(s') && s'.cfg == s.cfg && s'.client == s.client && FedOf(s'.server, id) == [[0]]
    ensures s'.server.out.delivered == s.server.out.delivered + [Data(id, [0])] + [Close(id)]
  {
    var s1 := Feed(s, Server, id);
    var s2 := TooLate(s1, id, Data(id, [0]));
    var s3 := CloseUpstream(s2, id);
    s' := TooLate(s3, id, Close(id));
  }

  /**
   Half-closing loses data: a client that ends its side first may get nothing of an answer
   the server read, sent and closed, on any wire and for any allowed destination.
   */
  lemma HalfCloseLoses(cfg: Config, id: Id, dest: string)
    requires cfg.wireCap > 0 && cfg.allowed(dest)
    ensures exists s :: LostAll(s, cfg, id) && !Whole(s, Client, id)
  {
    var s0 := Relaying(cfg, id, dest);
    var s1 := CloseLocal(s0, id);
    var s := AnswerLate(s1, id);
    ThreeFrames(id);
    FlatOne([0]);
    assert LostAll(s, cfg, id);
  }
}
