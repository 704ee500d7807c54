/** Where the server connects to: only what the client's handlers asked for, and only what it allows. */
module TunnelDestinations {
  import opened Frames
  import opened Tunnel
  import opened TunnelInvariant

  /** Stream `id` has a handler whose destination the server allows. */
  predicate Permitted(s: Session, id: Id) {
    id in s.handlers && s.cfg.allowed(s.handlers[id].dest)
  }

  /** Every OPEN queued carries its own handler's destination. */
  ghost predicate OpensOk(s: Session) {
    forall f :: f in s.client.out.pushed && f.Open? ==> f.id in s.handlers && s.handlers[f.id].dest == f.dest
  }

  predicate OpeningOk(s: Session) {
    match s.opening
    case Nothing => true
    case Deciding(id, dest) => id in s.handlers && s.handlers[id].dest == dest
    case Connected(id) => Permitted(s, id)
    case ConnectFailed(id) => id in s.handlers
    case Acking(id, ok) => ok ==> Permitted(s, id)
  }

  ghost predicate DestsOk(s: Session) {
    OpensOk(s) && OpeningOk(s) && forall id :: id in s.server.recv.chans ==> Permitted(s, id)
  }

  /** Handlers stay, with their destinations, and the server registers nothing new. */
  ghost predicate Stays(s: Session, s': Session) {
    && (forall dest :: s'.cfg.allowed(dest) == s.cfg.allowed(dest))
    && (forall id :: id in s.handlers ==> id in s'.handlers && s'.handlers[id].dest == s.handlers[id].dest)
    && s'.server.recv.chans.Keys <= s.server.recv.chans.Keys
  }

  lemma StaysOk(s: Session, s': Session)
    requires DestsOk(s) && Stays(s, s') && s'.opening == s.opening
    requires forall f :: f in s'.client.out.pushed && f.Open? && f !in s.client.out.pushed ==>
               f.id in s'.handlers && s'.handlers[f.id].dest == f.dest
    ensures DestsOk(s')
  {
    forall id | id in s'.server.recv.chans ensures Permitted(s', id) {
      assert id in s.server.recv.chans.Keys && Permitted(s, id);
    }
  }

  lemma HandlerDests(s: Session, id: Id, a: HandlerAct)
    requires DestsOk(s) && CanHandler(s, id, a)
    ensures DestsOk(DoHandler(s, id, a))
  {
    var s' := DoHandler(s, id, a);
    assert a.PushOpen? || a.PushFirst? || s'.client.out.pushed == s.client.out.pushed;
    StaysOk(s, s');
  }

  lemma RelayStays(s: Session, side: Side, id: Id, a: RelayAct)
    requires CanRelay(HalfOf(s, side), id, a)
    ensures Stays(s, SetHalf(s, side, DoRelay(HalfOf(s, side), id, a)))
  {
  }

  lemma RelayDests(s: Session, side: Side, id: Id, a: RelayAct)
    requires Inv(s) && DestsOk(s) && CanRelay(HalfOf(s, side), id, a)
    ensures DestsOk(Do(s, RelayStep(side, id, a)))
  {
    RelayFlow(HalfOf(s, side), s.cfg.wireCap, HalfOf(s, Peer(side)).out.delivered, id, a);
    RelayStays(s, side, id, a);
    StaysOk(s, Do(s, RelayStep(side, id, a)));
  }

  lemma TakeOpenDests(s: Session)
    requires Inv(s) && DestsOk(s) && CanRead(s, Server, TakeMessage) && s.client.out.wire[0].Open?
    ensures DestsOk(DoRead(s, Server, TakeMessage))
  {
    NextFrame(s, Client, 0);
    var s' := DoRead(s, Server, TakeMessage);
    assert s'.server.recv == s.server.recv && s'.handlers == s.handlers;
    assert forall id :: id in s'.server.recv.chans ==> Permitted(s, id);
  }

  /** Any other frame opens nothing. */
  lemma TakeStays(s: Session, side: Side)
    requires CanRead(s, side, TakeMessage) && !(side.Server? && s.client.out.wire[0].Open?)
    ensures var s' := DoRead(s, side, TakeMessage);
            Stays(s, s') && s'.opening == s.opening && s'.client.out.pushed == s.client.out.pushed
  {
  }

  /** Nor does any other step of a reader. */
  lemma ReaderStays(s: Session, side: Side, a: ReaderAct)
    requires CanRead(s, side, a) && !(a.TakeMessage? && side.Server? && s.client.out.wire[0].Open?)
    ensures var s' := DoRead(s, side, a);
            Stays(s, s') && s'.opening == s.opening && s'.client.out.pushed == s.client.out.pushed
  {
    if a.TakeMessage? { TakeStays(s, side); }
  }

  lemma ReaderDests(s: Session, side: Side, a: ReaderAct)
    requires Inv(s) && DestsOk(s) && CanRead(s, side, a)
    ensures DestsOk(DoRead(s, side, a))
  {
    if a.TakeMessage? && side.Server? && s.client.out.wire[0].Open? {
      TakeOpenDests(s);
    } else {
      ReaderStays(s, side, a);
      StaysOk(s, DoRead(s, side, a));
    }
  }

  /** A stream is registered only after the filter and the connect have let it pass. */
  lemma OpeningDests(s: Session, a: OpeningAct)
    requires DestsOk(s) && CanOpen(s, a)
    ensures DestsOk(DoOpen(s, a))
  {
    var s' := DoOpen(s, a);
    assert s'.client == s.client && s'.handlers == s.handlers;
    forall id | id in s'.server.recv.chans ensures Permitted(s', id) {
      assert id in s.server.recv.chans ==> Permitted(s, id);
    }
  }

  lemma OtherDests(s: Session, a: Action)
    requires DestsOk(s) && Can(s, a) && (a.TaskStep? || a.WriterStep? || a.ConnStep?)
    ensures DestsOk(Do(s, a))
  {
    StaysOk(s, Do(s, a));
  }

  lemma StepDests(s: Session, a: Action)
    requires Inv(s) && DestsOk(s) && Can(s, a)
    ensures DestsOk(Do(s, a)) && Do(s, a).cfg == s.cfg
  {
    match a
    case HandlerStep(id, h) => HandlerDests(s, id, h);
    case RelayStep(side, id, r) => RelayDests(s, side, id, r);
    case ReaderStep(side, d) => ReaderDests(s, side, d);
    case OpeningStep(o) => OpeningDests(s, o);
    case _ => OtherDests(s, a);
  }

  lemma {:induction false} RunDests(s: Session, run: seq<Action>)
    requires Inv(s) && DestsOk(s) && Runs(s, run)
    ensures DestsOk(After(s, run))
    decreases |run|
  {
    if run != [] {
      StepDests(s, run[0]);
      StepKeeps(s, run[0]);
      RunDests(Do(s, run[0]), run[1..]);
    }
  }

  /**
   Every stream the server has ever registered, and so every upstream socket it relays
   to, is for the destination that stream's own handler asked for, and the filter allows it.
   */
  lemma OnlyPermitted(s: Session, id: Id)
    requires Reachable(s) && (id in s.server.recv.chans || id in s.server.relays)
    ensures Permitted(s, id)
  {
    var cfg, run :| Runs(Start(cfg), run) && s == After(Start(cfg), run);
    StartOk(cfg);
    RunDests(Start(cfg), run);
    RunKeeps(Start(cfg), run);
    assert StreamOk(s, id);
  }
}
