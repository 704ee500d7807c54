/**
 A run that jams a session with a plain HTTP stream, for every wire, request and
 destination.  Streams A (plain) and B (CONNECT) are opened.  A's upstream talks before
 A's request is queued, so the client's reader parks on a channel whose write task does
 not exist yet and the way down fills up.  A third OPEN then holds the server's reader
 with an acknowledgement it cannot queue, and B's local data fills the way up.
 */
module TunnelJam {
  import opened Basics
  import opened Frames
  import opened Streams
  import opened HttpLimits
  import opened Tunnel
  import opened TunnelDestinations
  import opened TunnelInvariant
  import opened TunnelProgress
  import opened TunnelSafety
  import opened TunnelScripts

  const A: Id := 1
  const B: Id := 2
  const C: Id := 3

  // ── The jam ─────────────────────────────────────────────────────────────────

  /** Stream A stands before its request with its receiver unread; B relays; A's upstream can talk. */
  ghost predicate Base(s: Session, cfg: Config, h: Handler) {
    s.cfg == cfg && Alive(s) && s.server.recv.parked.None?
    && A in s.handlers && s.handlers[A] == h && h.pc.SendingFirst? && C !in s.handlers
    && A in s.client.recv.reg && A in s.client.recv.chans && s.client.recv.chans[A].task.Held?
    && Feeds(s, Server, A) && Feeds(s, Client, B)
  }

  /** B is opened and relays, then A is opened up to its verdict. */
  lemma Prepare(cfg: Config, request: Bytes, dest: string) returns (s: Session)
    requires cfg.wireCap > 0 && |request| <= MAX_REQUEST && cfg.allowed(dest)
    ensures Reachable(s) && Idle(s) && Base(s, cfg, Handler(Plain(request), dest, SendingFirst, NoReply))
    ensures s.client.recv.chans[A].queue == []
  {
    assert Runs(Start(cfg), []) && Start(cfg) == After(Start(cfg), []);
    var s1 := OpenStream(Start(cfg), B, Connect, dest);
    var s2 := Go(s1, HandlerStep(B, WriteSuccess));
    var s3 := Go(s2, RelayStep(Client, B, SpawnWriter));
    s := OpenStream(s3, A, Plain(request), dest);
  }

  /** A chunk from upstream crosses the wire and the client's reader holds it. */
  lemma CrossDown(s: Session, cfg: Config, h: Handler) returns (s': Session)
    requires Reachable(s) && Idle(s) && Base(s, cfg, h)
    ensures Reachable(s') && Base(s', cfg, h) && s'.client.recv.parked == Some(Parked(A, [0]))
    ensures Quiet(s'.server.out) && s'.client.out == s.client.out && s'.opening == s.opening
    ensures s'.client.recv.chans == s.client.recv.chans
  {
    var s1 := Feed(s, Server, A);
    var s2 := Ship(s1, Server, A);
    s' := Go(s2, ReaderStep(Client, TakeMessage));
  }

  /** Nobody reads A's channel, so it fills up. */
  lemma {:induction false} Fill(s: Session, cfg: Config, h: Handler) returns (s': Session)
    requires Reachable(s) && Idle(s) && Base(s, cfg, h) && |s.client.recv.chans[A].queue| <= CHANNEL_CAPACITY
    ensures Reachable(s') && Idle(s') && Base(s', cfg, h) && |s'.client.recv.chans[A].queue| == CHANNEL_CAPACITY
    decreases CHANNEL_CAPACITY - |s.client.recv.chans[A].queue|
  {
    if |s.client.recv.chans[A].queue| == CHANNEL_CAPACITY {
      s' := s;
    } else {
      var s1 := CrossDown(s, cfg, h);
      var s2 := Go(s1, ReaderStep(Client, AdmitChunk));
      s' := Fill(s2, cfg, h);
    }
  }

  /** The client's reader is parked on A's full channel, and the way down is full. */
  ghost predicate Blocked(s: Session, cfg: Config, h: Handler) {
    Base(s, cfg, h) && PipeFull(s.server.out, cfg.wireCap) && s.client.recv.parked.Some?
    && s.client.recv.parked.value.id == A && |s.client.recv.chans[A].queue| == CHANNEL_CAPACITY
  }

  lemma BlockDown(cfg: Config, request: Bytes, dest: string) returns (s: Session)
    requires cfg.wireCap > 0 && |request| <= MAX_REQUEST && cfg.allowed(dest)
    ensures Reachable(s) && Blocked(s, cfg, Handler(Plain(request), dest, SendingFirst, NoReply))
    ensures s.opening.Nothing? && Quiet(s.client.out)
  {
    var h := Handler(Plain(request), dest, SendingFirst, NoReply);
    var s0 := Prepare(cfg, request, dest);
    var s1 := Fill(s0, cfg, h);
    var s2 := CrossDown(s1, cfg, h);
    s := FillPipe(s2, Server, A);
  }

  /** A third OPEN reaches the server; its connect fails and the answer finds no room. */
  lemma HoldServer(s: Session, cfg: Config, h: Handler) returns (s': Session)
    requires Reachable(s) && Blocked(s, cfg, h) && cfg.allowed(h.dest) && s.opening.Nothing? && Quiet(s.client.out)
    ensures Reachable(s') && Alive(s') && s'.cfg == cfg && Feeds(s', Client, B) && Quiet(s'.client.out)
    ensures A in s'.handlers && s'.handlers[A] == h && s'.opening.Acking? && s'.server.out == s.server.out
    ensures s'.client.recv.parked == s.client.recv.parked
    ensures A in s'.client.recv.chans && s'.client.recv.chans[A] == s.client.recv.chans[A]
  {
    var c := Handler(Connect, h.dest, AwaitingAck, NoReply);
    var s1 := Ask(s, C, Connect, h.dest);
    var s2 := Hear(s1, s, C, c);
    var s3 := Go(s2, OpeningStep(ConnectErr));
    s' := Go(s3, OpeningStep(UnlinkFailed));
  }

  /** Session `s` is jammed on a plain stream with this request and destination. */
  ghost predicate JammedOn(s: Session, cfg: Config, request: Bytes, dest: string) {
    Reachable(s) && s.cfg == cfg && Alive(s) && Jammed(s)
    && var h := s.handlers[s.client.recv.parked.value.id];
       h.kind == Plain(request) && h.dest == dest
  }

  /**
   A session with a plain stream need not drain: whatever the wire holds, whatever the
   request, for every destination the server allows, a jam on that stream is reachable.
   */
  lemma PlainStreamCanJam(cfg: Config, request: Bytes, dest: string)
    requires cfg.wireCap > 0 && |request| <= MAX_REQUEST && cfg.allowed(dest)
    ensures exists s :: JammedOn(s, cfg, request, dest)
  {
    var h := Handler(Plain(request), dest, SendingFirst, NoReply);
    var s0 := BlockDown(cfg, request, dest);
    var s1 := HoldServer(s0, cfg, h);
    var s2 := FillPipe(s1, Client, B);
    assert JammedOn(s2, cfg, request, dest);
  }

  lemma JamNeeds(s: Session, cfg: Config, request: Bytes, dest: string)
    requires JammedOn(s, cfg, request, dest)
    ensures cfg.wireCap > 0 && |request| <= MAX_REQUEST && cfg.allowed(dest)
  {
    var id := s.client.recv.parked.value.id;
    AcceptedNeedsVerdict(s, id);
    VerdictIsSound(s, id);
    OnlyPermitted(s, id);
    ReachableOk(s);
    assert StreamOk(s, id);
  }

  /** And only then: nothing but the header limits and the filter keeps a plain stream on a live wire from jamming. */
  lemma JamCondition(cfg: Config, request: Bytes, dest: string)
    ensures (exists s :: JammedOn(s, cfg, request, dest))
            <==> cfg.wireCap > 0 && |request| <= MAX_REQUEST && cfg.allowed(dest)
  {
    if cfg.wireCap > 0 && |request| <= MAX_REQUEST && cfg.allowed(dest) { PlainStreamCanJam(cfg, request, dest); }
    if s :| JammedOn(s, cfg, request, dest) { JamNeeds(s, cfg, request, dest); }
  }
}
