/**
 The whole client over any number of reconnects: one keeper that publishes, takes and
 closes sessions, and handlers that keep using the session they took a snapshot of.
 */
module World {
  import opened Basics
  import opened Frames
  import opened History
  import opened HttpLimits
  import opened Tunnel
  import opened TunnelInvariant
  import opened Keeper

  /** A local connection that has been given its id. */
  datatype Arrival = Arrival(kind: Kind, dest: string)

  /**
   `sessions` are all sessions ever published, `closed` those on which `close` has
   been completed, `snap` what each handler found in the shared slot.
   */
  datatype World = World(cfg: Config, keeper: Keeper, sessions: seq<Session>, closed: set<nat>,
                         arrivals: map<Id, Arrival>, snap: map<Id, Option<nat>>, nextId: nat)

  datatype WorldAct =
    | Accept(kind: Kind, dest: string)
    | TakeSnapshot(id: Id)
    | KeeperMoves(o: Outcome)
    | InSession(j: nat, a: Action)

  function FirstWorld(cfg: Config): World {
    World(cfg, FIRST_KEEPER, [], {}, map[], map[], 1)
  }

  /** One of the session's two tasks has reported its end. */
  predicate Disconnected(s: Session) {
    s.client.out.writer.Gone? || s.client.reader.Finished?
  }

  ghost predicate CanWorld(w: World, a: WorldAct) {
    match a
    // `fetch_add` does not wrap: fewer than 2^32 - 1 connections are accepted
    case Accept(kind, _) => w.nextId < 0x1_0000_0000 && (kind.Plain? ==> |kind.request| <= MAX_REQUEST)
    case TakeSnapshot(id) => id in w.arrivals && id !in w.snap
    case KeeperMoves(o) =>
      w.keeper.pc.Watching? && !o.Shutdown? ==>
        w.keeper.shared.Some? && w.keeper.shared.value < |w.sessions| && Disconnected(w.sessions[w.keeper.shared.value])
    case InSession(j, a) =>
      j < |w.sessions| && !a.ConnStep? && !(a.HandlerStep? && a.h.Arrive?) && Can(w.sessions[j], a)
  }

  function SetSession(w: World, j: nat, s: Session): World
    requires j < |w.sessions|
  {
    w.(sessions := w.sessions[j := s])
  }

  /** The handler clones what the shared slot holds; an empty slot means it answers 502. */
  function Snapshot(w: World, id: Id): World
    requires id in w.arrivals
  {
    if w.keeper.shared.Some? && w.keeper.shared.value < |w.sessions|
       && CanHandler(w.sessions[w.keeper.shared.value], id, Arrive(w.arrivals[id].kind, w.arrivals[id].dest))
    then
      var j := w.keeper.shared.value;
      var s := DoHandler(w.sessions[j], id, Arrive(w.arrivals[id].kind, w.arrivals[id].dest));
      SetSession(w, j, s).(snap := w.snap[id := Some(j)])
    else w.(snap := w.snap[id := None])
  }

  /** The part of `MuxConn::close` the keeper is about to carry out, and on which session. */
  function CloseStep(pc: KeeperPc): Option<(nat, ConnAct)> {
    match pc
    case Clearing(j, _) => Some((j, ConnClear))
    case Sweeping(j, _) => Some((j, ConnSweep))
    case Releasing(j, _) => Some((j, ConnRelease))
    case _ => None
  }

  function KeeperSessions(w: World): seq<Session> {
    if w.keeper.pc.Publishing? then w.sessions + [Start(w.cfg)]
    else match CloseStep(w.keeper.pc)
      case None => w.sessions
      case Some((j, c)) => if j < |w.sessions| then w.sessions[j := DoConn(w.sessions[j], c)] else w.sessions
  }

  /** The keeper's step, with what it does to the session it closes or publishes. */
  function KeeperEffect(w: World, o: Outcome): World {
    w.(keeper := Next(w.keeper, o), sessions := KeeperSessions(w),
       closed := w.closed + if w.keeper.pc.Releasing? then {w.keeper.pc.session} else {})
  }

  ghost function DoWorld(w: World, a: WorldAct): World
    requires CanWorld(w, a)
  {
    match a
    case Accept(kind, dest) => w.(arrivals := w.arrivals[w.nextId := Arrival(kind, dest)], nextId := w.nextId + 1)
    case TakeSnapshot(id) => Snapshot(w, id)
    case KeeperMoves(o) => KeeperEffect(w, o)
    case InSession(j, a) => SetSession(w, j, Do(w.sessions[j], a))
  }

  ghost predicate WorldRuns(w: World, run: seq<WorldAct>)
    decreases |run|
  {
    run == [] || (CanWorld(w, run[0]) && WorldRuns(DoWorld(w, run[0]), run[1..]))
  }

  ghost function WorldAfter(w: World, run: seq<WorldAct>): World
    requires WorldRuns(w, run)
    decreases |run|
  {
    if run == [] then w else WorldAfter(DoWorld(w, run[0]), run[1..])
  }

  // ── What every reachable world satisfies ────────────────────────────────────

  /** The keeper is closing session `j`. */
  predicate Closing(k: Keeper, j: nat) {
    match k.pc
    case Clearing(session, _) => session == j
    case Sweeping(session, _) => session == j
    case Releasing(session, _) => session == j
    case _ => false
  }

  /** Every session is the published one, the one being closed, or closed. */
  ghost predicate LifeOk(w: World) {
    PublishOk(w.keeper) && BackoffOk(w.keeper) && |w.sessions| == w.keeper.made
    && forall j: nat :: j < |w.sessions| ==> Accounted(w.keeper, w.closed, j)
  }

  /** Session `j` is accounted for in one of these ways. */
  predicate Accounted(k: Keeper, closed: set<nat>, j: nat) {
    k.shared == Some(j) || Closing(k, j) || j in closed
  }

  /** The handler is that of connection `id`, with its kind and destination. */
  predicate Serves(arrivals: map<Id, Arrival>, id: Id, h: Handler) {
    id in arrivals && arrivals[id] == Arrival(h.kind, h.dest)
  }

  /** A handler lives in the session it took, and in no other. */
  ghost predicate SnapOk(w: World) {
    (forall j: nat, id: Id :: j < |w.sessions| && id in w.sessions[j].handlers ==>
       id in w.snap && w.snap[id] == Some(j) && Serves(w.arrivals, id, w.sessions[j].handlers[id]))
    && (forall id :: id in w.snap ==> id in w.arrivals)
    && (forall id :: id in w.arrivals ==> 0 < id < w.nextId && (w.arrivals[id].kind.Plain? ==>
                                                                 |w.arrivals[id].kind.request| <= MAX_REQUEST))
    && w.nextId > 0
  }

  ghost predicate SessionsOk(w: World) {
    forall j: nat :: j < |w.sessions| ==> Reachable(w.sessions[j])
  }

  ghost predicate WorldOk(w: World) {
    LifeOk(w) && SnapOk(w) && SessionsOk(w)
  }

  lemma FreshReachable(cfg: Config)
    ensures Reachable(Start(cfg))
  {
    assert Runs(Start(cfg), []) && Start(cfg) == After(Start(cfg), []);
  }

  lemma ConnReachable(s: Session, c: ConnAct)
    requires Reachable(s)
    ensures Reachable(DoConn(s, c)) && DoConn(s, c).handlers == s.handlers
  {
    ReachableStep(s, ConnStep(c));
  }

  lemma KeeperSession(w: World, j: nat)
    requires SessionsOk(w) && j < |KeeperSessions(w)|
    ensures var s' := KeeperSessions(w)[j];
            Reachable(s') && s'.handlers == if j < |w.sessions| then w.sessions[j].handlers else map[]
  {
    if j >= |w.sessions| {
      FreshReachable(w.cfg);
    } else if CloseStep(w.keeper.pc).Some? {
      ConnReachable(w.sessions[j], CloseStep(w.keeper.pc).value.1);
    }
  }

  lemma KeeperAccounts(w: World, o: Outcome, j: nat)
    requires PublishOk(w.keeper) && |w.sessions| == w.keeper.made
    requires j < |w.sessions| ==> Accounted(w.keeper, w.closed, j)
    ensures |KeeperSessions(w)| == Next(w.keeper, o).made
    ensures j < |KeeperSessions(w)| ==> Accounted(Next(w.keeper, o), KeeperEffect(w, o).closed, j)
  {
  }

  lemma KeeperLife(w: World, o: Outcome)
    requires LifeOk(w)
    ensures LifeOk(KeeperEffect(w, o))
  {
    PublishStep(w.keeper, o);
    BackoffStep(w.keeper, o);
    forall j: nat
      ensures |KeeperSessions(w)| == Next(w.keeper, o).made
      ensures j < |KeeperSessions(w)| ==> Accounted(Next(w.keeper, o), KeeperEffect(w, o).closed, j)
    {
      KeeperAccounts(w, o, j);
    }
  }

  /** No new handlers, and none for another connection. */
  predicate SameHandlers(before: map<Id, Handler>, after: map<Id, Handler>) {
    forall id :: id in after ==> id in before && after[id].kind == before[id].kind && after[id].dest == before[id].dest
  }

  /** Only the handler tables matter for the snapshots. */
  lemma SnapFrame(w: World, w': World)
    requires SnapOk(w) && w'.snap == w.snap && w'.arrivals == w.arrivals && w'.nextId == w.nextId
    requires forall j: nat :: j < |w'.sessions| ==>
               SameHandlers(if j < |w.sessions| then w.sessions[j].handlers else map[], w'.sessions[j].handlers)
    ensures SnapOk(w')
  {
    forall j: nat, id: Id | j < |w'.sessions| && id in w'.sessions[j].handlers
      ensures id in w'.snap && w'.snap[id] == Some(j) && Serves(w'.arrivals, id, w'.sessions[j].handlers[id])
    {
      assert SameHandlers(if j < |w.sessions| then w.sessions[j].handlers else map[], w'.sessions[j].handlers);
      assert j < |w.sessions| && id in w.sessions[j].handlers;
    }
  }

  lemma KeeperKeeps(w: World, o: Outcome)
    requires WorldOk(w)
    ensures WorldOk(KeeperEffect(w, o))
  {
    KeeperLife(w, o);
    var w' := KeeperEffect(w, o);
    forall j: nat | j < |w'.sessions|
      ensures Reachable(w'.sessions[j])
      ensures w'.sessions[j].handlers == if j < |w.sessions| then w.sessions[j].handlers else map[]
    {
      KeeperSession(w, j);
    }
    SnapFrame(w, w');
  }

  /** Steps inside a session neither add nor replace handlers. */
  lemma HandlersStay(s: Session, a: Action)
    requires Can(s, a) && !a.ConnStep? && !(a.HandlerStep? && a.h.Arrive?)
    ensures SameHandlers(s.handlers, Do(s, a).handlers)
  {
    match a
    case HandlerStep(id, h) => HandlerStays(s, id, h);
    case _ =>
  }

  lemma HandlerStays(s: Session, id: Id, h: HandlerAct)
    requires CanHandler(s, id, h) && !h.Arrive?
    ensures SameHandlers(s.handlers, DoHandler(s, id, h).handlers)
  {
  }

  lemma SessionKeeps(w: World, j: nat, a: Action)
    requires WorldOk(w) && CanWorld(w, InSession(j, a))
    ensures WorldOk(DoWorld(w, InSession(j, a)))
  {
    ReachableStep(w.sessions[j], a);
    HandlersStay(w.sessions[j], a);
    SnapFrame(w, DoWorld(w, InSession(j, a)));
  }

  /** The snapshot of a published session is one in which the newcomer can arrive. */
  lemma NewcomerFits(w: World, id: Id)
    requires LifeOk(w) && SnapOk(w) && id in w.arrivals && id !in w.snap && w.keeper.shared.Some?
    ensures w.keeper.shared.value < |w.sessions|
    ensures CanHandler(w.sessions[w.keeper.shared.value], id, Arrive(w.arrivals[id].kind, w.arrivals[id].dest))
    ensures forall i: nat :: i < |w.sessions| ==> id !in w.sessions[i].handlers
  {
  }

  lemma NewcomerSnap(w: World, id: Id, j: nat)
    requires SnapOk(w) && id in w.arrivals && id !in w.snap && j < |w.sessions|
    requires CanHandler(w.sessions[j], id, Arrive(w.arrivals[id].kind, w.arrivals[id].dest))
    requires forall i: nat :: i < |w.sessions| ==> id !in w.sessions[i].handlers
    ensures var s := DoHandler(w.sessions[j], id, Arrive(w.arrivals[id].kind, w.arrivals[id].dest));
            SnapOk(SetSession(w, j, s).(snap := w.snap[id := Some(j)]))
  {
  }

  lemma SnapshotKeeps(w: World, id: Id)
    requires WorldOk(w) && CanWorld(w, TakeSnapshot(id))
    ensures WorldOk(Snapshot(w, id))
    ensures Snapshot(w, id).snap[id] == w.keeper.shared
    ensures w.keeper.shared.Some? ==>
              var j, a := w.keeper.shared.value, w.arrivals[id];
              j < |w.sessions| && id in Snapshot(w, id).sessions[j].handlers
              && Snapshot(w, id).sessions[j].handlers[id] == Handler(a.kind, a.dest, HandlerPc.Snapshot, NoReply)
  {
    if w.keeper.shared.Some? {
      var j := w.keeper.shared.value;
      NewcomerFits(w, id);
      ReachableStep(w.sessions[j], HandlerStep(id, Arrive(w.arrivals[id].kind, w.arrivals[id].dest)));
      NewcomerSnap(w, id, j);
    }
  }

  lemma AcceptKeeps(w: World, kind: Kind, dest: string)
    requires WorldOk(w) && CanWorld(w, Accept(kind, dest))
    ensures WorldOk(DoWorld(w, Accept(kind, dest)))
  {
    var w' := DoWorld(w, Accept(kind, dest));
    forall j: nat, id: Id | j < |w'.sessions| && id in w'.sessions[j].handlers
      ensures id in w'.snap && w'.snap[id] == Some(j) && Serves(w'.arrivals, id, w'.sessions[j].handlers[id])
    {
      HandlerOfArrival(w, j, id);
      assert w.snap[id] == Some(j) && id < w.nextId;
    }
  }

  lemma WorldStep(w: World, a: WorldAct)
    requires WorldOk(w) && CanWorld(w, a)
    ensures WorldOk(DoWorld(w, a))
  {
    match a
    case Accept(kind, dest) => AcceptKeeps(w, kind, dest);
    case TakeSnapshot(id) => SnapshotKeeps(w, id);
    case KeeperMoves(o) => KeeperKeeps(w, o);
    case InSession(j, a) => SessionKeeps(w, j, a);
  }

  lemma {:induction false} WorldRunOk(w: World, run: seq<WorldAct>)
    requires WorldOk(w) && WorldRuns(w, run)
    ensures WorldOk(WorldAfter(w, run))
    decreases |run|
  {
    if run != [] {
      WorldStep(w, run[0]);
      WorldRunOk(DoWorld(w, run[0]), run[1..]);
    }
  }

  /** Without a shutdown the keeper leaves only a session one of whose two tasks has ended. */
  lemma OnlyDeadIsTaken(w: World, o: Outcome)
    requires WorldOk(w) && CanWorld(w, KeeperMoves(o)) && w.keeper.pc.Watching? && !o.Shutdown?
    ensures w.keeper.shared == Some(|w.sessions| - 1)
    ensures var s := w.sessions[|w.sessions| - 1]; s.client.out.writer.Gone? || s.client.reader.Finished?
  {
  }

  /** Keeper steps on a session act on that session, and only as `MuxConn::close` does. */
  lemma ClosingActs(w: World, o: Outcome)
    requires WorldOk(w)
    ensures var k, w' := w.keeper.pc, KeeperEffect(w, o);
            && (k.Clearing? ==> k.session < |w'.sessions| && w'.sessions[k.session].pending == {})
            && (k.Sweeping? ==> k.session < |w'.sessions| && w'.sessions[k.session].client.recv.reg == {})
            && (k.Releasing? ==> k.session < |w'.sessions| && !w'.sessions[k.session].held && k.session in w'.closed)
            && (k.Publishing? ==> w'.sessions == w.sessions + [Start(w.cfg)])
  {
  }

  /** The keeper holds on to no session it has closed. */
  ghost predicate ReleasedOk(w: World) {
    forall j: nat :: j in w.closed ==> j < |w.sessions| && !w.sessions[j].held
  }

  lemma HeldStays(s: Session, a: Action)
    requires Can(s, a) && !a.ConnStep?
    ensures Do(s, a).held == s.held
  {
    match a
    case HandlerStep(id, h) => HandlerHeld(s, id, h);
    case _ =>
  }

  lemma HandlerHeld(s: Session, id: Id, h: HandlerAct)
    requires CanHandler(s, id, h)
    ensures DoHandler(s, id, h).held == s.held
  {
  }

  lemma KeeperReleases(w: World, o: Outcome)
    requires WorldOk(w) && ReleasedOk(w)
    ensures ReleasedOk(KeeperEffect(w, o))
  {
    ClosingActs(w, o);
  }

  lemma SnapshotReleases(w: World, id: Id)
    requires WorldOk(w) && ReleasedOk(w) && id in w.arrivals
    ensures ReleasedOk(Snapshot(w, id))
  {
  }

  lemma {:induction false} ReleasedRun(w: World, run: seq<WorldAct>)
    requires WorldOk(w) && ReleasedOk(w) && WorldRuns(w, run)
    ensures ReleasedOk(WorldAfter(w, run))
    decreases |run|
  {
    if run != [] {
      match run[0] {
        case Accept(_, _) =>
        case TakeSnapshot(id) => SnapshotReleases(w, id);
        case KeeperMoves(o) => KeeperReleases(w, o);
        case InSession(j, a) => HeldStays(w.sessions[j], a);
      }
      WorldStep(w, run[0]);
      ReleasedRun(DoWorld(w, run[0]), run[1..]);
    }
  }

  /** The ids given out are 1, 2, 3 and so on, without a gap. */
  ghost predicate Numbered(w: World) {
    w.nextId > 0 && forall id: Id :: id in w.arrivals <==> 0 < id < w.nextId
  }

  lemma ArrivalStep(w: World, a: WorldAct)
    requires CanWorld(w, a) && Numbered(w)
    ensures var w' := DoWorld(w, a);
            && Numbered(w')
            && forall id :: id in w.arrivals ==> id in w'.arrivals && w'.arrivals[id] == w.arrivals[id]
  {
  }

  lemma {:induction false} ArrivalsStay(w: World, run: seq<WorldAct>)
    requires WorldRuns(w, run) && Numbered(w)
    ensures Numbered(WorldAfter(w, run))
    ensures forall id :: id in w.arrivals ==>
              id in WorldAfter(w, run).arrivals && WorldAfter(w, run).arrivals[id] == w.arrivals[id]
    decreases |run|
  {
    if run != [] {
      ArrivalStep(w, run[0]);
      ArrivalsStay(DoWorld(w, run[0]), run[1..]);
    }
  }

  // ── Promises over any number of reconnects ──────────────────────────────────

  /**
   Whenever a session is published, it is the last one made, all earlier ones have
   been taken and closed, and the keeper is watching it or about to take it; in every
   other phase, and after the keeper has returned, nothing is published.
   */
  lemma OnePublishedSession(cfg: Config, run: seq<WorldAct>)
    requires WorldRuns(FirstWorld(cfg), run)
    ensures var w := WorldAfter(FirstWorld(cfg), run);
            (w.keeper.shared.Some? <==> w.keeper.pc.Watching? || w.keeper.pc.Taking?)
            && (w.keeper.shared.Some? ==>
                 w.keeper.shared == Some(|w.sessions| - 1)
                 && forall j: nat :: j < |w.sessions| - 1 ==> j in w.closed)
            && (w.keeper.pc.Publishing? || w.keeper.pc.Returned? ==>
                 forall j: nat :: j < |w.sessions| ==> j in w.closed)
  {
    FirstBackoff();
    WorldRunOk(FirstWorld(cfg), run);
    var w := WorldAfter(FirstWorld(cfg), run);
    forall j: nat | j < |w.sessions|
      ensures Closing(w.keeper, j) || w.keeper.shared == Some(j) || j in w.closed
    {
      assert Accounted(w.keeper, w.closed, j);
    }
  }

  /** Every session of a world behaves like a session of module Tunnel. */
  lemma SessionsAreReachable(cfg: Config, run: seq<WorldAct>, j: nat)
    requires WorldRuns(FirstWorld(cfg), run) && j < |WorldAfter(FirstWorld(cfg), run).sessions|
    ensures Reachable(WorldAfter(FirstWorld(cfg), run).sessions[j])
  {
    FirstBackoff();
    WorldRunOk(FirstWorld(cfg), run);
  }

  lemma FramesHaveHandlers(s: Session, f: Frame)
    requires Reachable(s) && (f in s.client.out.pushed || f in s.server.out.pushed)
    ensures !f.Hello? && f.id in s.handlers
  {
    ReachableOk(s);
    assert StreamOk(s, f.id);
    Cross(s, f.id);
    if f in s.client.out.pushed {
      FrameStage(s.client.out.pushed, f);
    } else {
      FrameStage(s.server.out.pushed, f);
    }
  }

  lemma {:induction false} FrameStage(frames: seq<Frame>, f: Frame)
    requires f in frames && !f.Hello?
    ensures StageOf(frames, f.id) != Fresh
  {
    assert frames == Init(frames) + [Last(frames)];
    if f in Init(frames) { FrameStage(Init(frames), f); }
  }

  /** Stream `id` has left a trace in the session: an ack slot or a frame in either direction. */
  ghost predicate Traced(s: Session, id: Id) {
    id in s.slots
    || (exists f :: f in s.client.out.pushed && !f.Hello? && f.id == id)
    || (exists f :: f in s.server.out.pushed && !f.Hello? && f.id == id)
  }

  lemma TracedHasHandler(s: Session, id: Id)
    requires Reachable(s) && Traced(s, id)
    ensures id in s.handlers
  {
    ReachableOk(s);
    assert StreamOk(s, id);
    if f :| f in s.client.out.pushed && !f.Hello? && f.id == id {
      FramesHaveHandlers(s, f);
    } else if f :| f in s.server.out.pushed && !f.Hello? && f.id == id {
      FramesHaveHandlers(s, f);
    }
  }

  /** A handler's frames and verdict only ever involve the session it took a snapshot of. */
  lemma OnlyOwnSession(cfg: Config, run: seq<WorldAct>, j: nat, id: Id)
    requires WorldRuns(FirstWorld(cfg), run)
    requires j < |WorldAfter(FirstWorld(cfg), run).sessions|
    requires Traced(WorldAfter(FirstWorld(cfg), run).sessions[j], id)
    ensures var w := WorldAfter(FirstWorld(cfg), run);
            id in w.snap && w.snap[id] == Some(j) && id > 0
  {
    FirstBackoff();
    WorldRunOk(FirstWorld(cfg), run);
    TracedHasHandler(WorldAfter(FirstWorld(cfg), run).sessions[j], id);
  }

  /**
   Connections get the ids 1, 2, 3 and so on, and whichever session the handler of one ends up
   in, it is there with the kind and destination that were accepted.
   */
  lemma AcceptedIsServed(cfg: Config, before: seq<WorldAct>, kind: Kind, dest: string, after: seq<WorldAct>, j: nat)
    requires WorldRuns(FirstWorld(cfg), before) && CanWorld(WorldAfter(FirstWorld(cfg), before), Accept(kind, dest))
    requires WorldRuns(DoWorld(WorldAfter(FirstWorld(cfg), before), Accept(kind, dest)), after)
    requires j < |WorldAfter(DoWorld(WorldAfter(FirstWorld(cfg), before), Accept(kind, dest)), after).sessions|
    ensures var w := WorldAfter(FirstWorld(cfg), before);
            var id := w.nextId;
            var s := WorldAfter(DoWorld(w, Accept(kind, dest)), after).sessions[j];
            && (forall k: Id :: k in w.arrivals <==> 0 < k < id)
            && (id in s.handlers ==> s.handlers[id].kind == kind && s.handlers[id].dest == dest)
  {
    FirstBackoff();
    WorldRunOk(FirstWorld(cfg), before);
    var w := WorldAfter(FirstWorld(cfg), before);
    var w1 := DoWorld(w, Accept(kind, dest));
    WorldStep(w, Accept(kind, dest));
    WorldRunOk(w1, after);
    ArrivalsStay(FirstWorld(cfg), before);
    ArrivalStep(w, Accept(kind, dest));
    ArrivalsStay(w1, after);
    var t := WorldAfter(w1, after);
    assert w1.arrivals[w.nextId] == Arrival(kind, dest) && t.arrivals[w.nextId] == Arrival(kind, dest);
    HandlerOfArrival(t, j, w.nextId);
  }

  lemma HandlerOfArrival(w: World, j: nat, id: Id)
    requires SnapOk(w) && j < |w.sessions|
    ensures id in w.sessions[j].handlers ==> Serves(w.arrivals, id, w.sessions[j].handlers[id])
  {
    if id in w.sessions[j].handlers { assert w.snap[id] == Some(j); }
  }

  /** Every session the keeper is done with has been released by it. */
  lemma ClosedIsReleased(cfg: Config, run: seq<WorldAct>, j: nat)
    requires WorldRuns(FirstWorld(cfg), run) && j in WorldAfter(FirstWorld(cfg), run).closed
    ensures j < |WorldAfter(FirstWorld(cfg), run).sessions| && !WorldAfter(FirstWorld(cfg), run).sessions[j].held
  {
    FirstBackoff();
    ReleasedRun(FirstWorld(cfg), run);
  }
}
