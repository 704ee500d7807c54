/**
 The reconnect keeper (`run_mux_keeper`, client/src/lib.rs:975): gets a token, connects,
 publishes a session, waits for it to die, takes and closes it, starts over, with
 exponential back-off.
 */
module Keeper {
  import opened Basics

  const RECONNECT_INITIAL_MS := 500
  const RECONNECT_MAX_MS := 30_000

  /** How an awaited operation ends: as hoped, not as hoped, or with the shutdown signal. */
  datatype Outcome = Good | Bad | Shutdown

  datatype KeeperPc =
    | Requesting                       // obtain_token
    | Sleeping                         // back-off after a failed token or connect
    | Connecting
    | SendingHello
    | Publishing
    | Watching                         // waits for a disconnect or shutdown
    | Taking(stop: bool)               // about to take the published session
    | Clearing(session: nat, stop: bool)
    | Sweeping(session: nat, stop: bool)
    | Releasing(session: nat, stop: bool)
    | Returned

  /**
   `shared` is the published session, `made` how many were ever published, `waits`
   the back-off delays begun since the start or the last token.
   */
  datatype Keeper = Keeper(pc: KeeperPc, backoff: nat, shared: Option<nat>, made: nat, waits: seq<nat>)

  const FIRST_KEEPER := Keeper(Requesting, RECONNECT_INITIAL_MS, None, 0, [])

  /** `(backoff * 2).min(max_backoff)`. */
  function Doubled(backoff: nat): nat {
    if backoff * 2 < RECONNECT_MAX_MS then backoff * 2 else RECONNECT_MAX_MS
  }

  function Sleep(k: Keeper): Keeper {
    k.(pc := Sleeping, waits := k.waits + [k.backoff])
  }

  /** One step; steps that await nothing ignore the outcome. */
  function Next(k: Keeper, o: Outcome): Keeper {
    match k.pc
    case Requesting => if o.Good? then k.(pc := Connecting, backoff := RECONNECT_INITIAL_MS, waits := []) else Sleep(k)
    case Sleeping => if o.Shutdown? then k.(pc := Returned) else k.(pc := Requesting, backoff := Doubled(k.backoff))
    case Connecting => if o.Good? then k.(pc := SendingHello) else Sleep(k)
    case SendingHello => if o.Good? then k.(pc := Publishing, backoff := RECONNECT_INITIAL_MS) else k.(pc := Requesting)
    case Publishing => k.(pc := Watching, shared := Some(k.made), made := k.made + 1)
    case Watching => k.(pc := Taking(o.Shutdown?))
    case Taking(stop) =>
      if k.shared.Some? then k.(pc := Clearing(k.shared.value, stop), shared := None) else Leave(k, stop)
    case Clearing(session, stop) => k.(pc := Sweeping(session, stop))
    case Sweeping(session, stop) => k.(pc := Releasing(session, stop))
    case Releasing(_, stop) => Leave(k, stop)
    case Returned => k
  }

  function Leave(k: Keeper, stop: bool): Keeper {
    k.(pc := if stop then Returned else Requesting)
  }

  function Steps(k: Keeper, outcomes: seq<Outcome>): Keeper
    decreases |outcomes|
  {
    if outcomes == [] then k else Steps(Next(k, outcomes[0]), outcomes[1..])
  }

  // ── Back-off ────────────────────────────────────────────────────────────────

  function Pow2(k: nat): nat {
    if k == 0 then 1 else 2 * Pow2(k - 1)
  }

  /** The `k`-th delay, counted from 0. */
  function Delay(k: nat): nat {
    if RECONNECT_INITIAL_MS * Pow2(k) < RECONNECT_MAX_MS then RECONNECT_INITIAL_MS * Pow2(k) else RECONNECT_MAX_MS
  }

  /** What the back-off amounts to at each phase. */
  ghost predicate BackoffOk(k: Keeper) {
    (forall i :: 0 <= i < |k.waits| ==> k.waits[i] == Delay(i))
    && (k.pc.Requesting? ==> k.backoff == Delay(|k.waits|))
    && (k.pc.Sleeping? ==> k.waits != [] && k.backoff == Delay(|k.waits| - 1))
    && (!k.pc.Requesting? && !k.pc.Sleeping? && !k.pc.Returned? ==> k.waits == [] && k.backoff == RECONNECT_INITIAL_MS)
  }

  lemma DelayDoubles(k: nat)
    ensures Doubled(Delay(k)) == Delay(k + 1) && Delay(0) == RECONNECT_INITIAL_MS
  {
  }

  lemma BackoffStep(k: Keeper, o: Outcome)
    requires BackoffOk(k)
    ensures BackoffOk(Next(k, o))
  {
    if k.pc.Sleeping? { DelayDoubles(|k.waits| - 1); }
    DelayDoubles(0);
  }

  /** The k-th wait since the start or the last token is min(500 * 2^k, 30000) ms, on every run. */
  lemma {:induction false} BackoffClosedForm(k: Keeper, outcomes: seq<Outcome>)
    requires BackoffOk(k)
    ensures BackoffOk(Steps(k, outcomes))
    ensures forall i :: 0 <= i < |Steps(k, outcomes).waits| ==>
              Steps(k, outcomes).waits[i] == if 500 * Pow2(i) < 30000 then 500 * Pow2(i) else 30000
    decreases |outcomes|
  {
    if outcomes != [] {
      BackoffStep(k, outcomes[0]);
      BackoffClosedForm(Next(k, outcomes[0]), outcomes[1..]);
    }
  }

  lemma FirstBackoff()
    ensures BackoffOk(FIRST_KEEPER)
  {
    DelayDoubles(0);
  }

  /**
   A token starts the back-off afresh, so it never grows over failed connects: each is
   followed by the first delay, and a failed HELLO by none.
   */
  lemma TokenResetsBackoff(outcomes: seq<Outcome>, o: Outcome)
    requires !o.Good?
    ensures var k := Steps(FIRST_KEEPER, outcomes);
            (k.pc.Connecting? ==> Next(k, o).waits == [RECONNECT_INITIAL_MS])
            && (k.pc.SendingHello? ==> Next(k, o).pc.Requesting? && Next(k, o).waits == [])
  {
    FirstBackoff();
    BackoffClosedForm(FIRST_KEEPER, outcomes);
  }

  // ── Publication ─────────────────────────────────────────────────────────────

  /** A session is published exactly while the keeper watches it or is about to take it. */
  predicate PublishOk(k: Keeper) {
    match k.pc
    case Watching => k.made > 0 && k.shared == Some(k.made - 1)
    case Taking(_) => k.made > 0 && k.shared == Some(k.made - 1)
    case Clearing(session, _) => k.shared.None? && k.made == session + 1
    case Sweeping(session, _) => k.shared.None? && k.made == session + 1
    case Releasing(session, _) => k.shared.None? && k.made == session + 1
    case _ => k.shared.None?
  }

  lemma PublishStep(k: Keeper, o: Outcome)
    requires PublishOk(k)
    ensures PublishOk(Next(k, o))
    // a published session leaves only by being taken, and another is published only after that
    ensures k.shared.Some? ==> Next(k, o).shared == k.shared || (k.pc.Taking? && Next(k, o).shared.None?)
    ensures Next(k, o).made != k.made ==> k.shared.None?
  {
  }

  lemma {:induction false} PublishedOnlyWhileWatched(k: Keeper, outcomes: seq<Outcome>)
    requires PublishOk(k)
    ensures PublishOk(Steps(k, outcomes))
    ensures Steps(k, outcomes).shared.Some? ==> Steps(k, outcomes).pc.Watching? || Steps(k, outcomes).pc.Taking?
    decreases |outcomes|
  {
    if outcomes != [] {
      PublishStep(k, outcomes[0]);
      PublishedOnlyWhileWatched(Next(k, outcomes[0]), outcomes[1..]);
    }
  }

  // ── The loop itself ─────────────────────────────────────────────────────────

  /** Steps that await nothing run to the next await or to the return. */
  predicate Awaits(k: Keeper) {
    match k.pc
    case Publishing => false
    case Taking(_) => false
    case Clearing(_, _) => false
    case Sweeping(_, _) => false
    case Releasing(_, _) => false
    case _ => true
  }

  function Rank(k: Keeper): nat {
    match k.pc
    case Taking(_) => 4
    case Clearing(_, _) => 3
    case Sweeping(_, _) => 2
    case Releasing(_, _) => 1
    case Publishing => 1
    case _ => 0
  }

  function Settle(k: Keeper): Keeper
    decreases Rank(k)
  {
    if Awaits(k) then k else Settle(Next(k, Good))
  }

  /** The keeper answers the awaits of a run one after the other. */
  function Play(k: Keeper, outcomes: seq<Outcome>): Keeper
    decreases |outcomes|
  {
    if outcomes == [] then k else Play(Settle(Next(k, outcomes[0])), outcomes[1..])
  }

  lemma {:induction false} PlaySnoc(k: Keeper, outcomes: seq<Outcome>, o: Outcome)
    ensures Play(k, outcomes + [o]) == Settle(Next(Play(k, outcomes), o))
    decreases |outcomes|
  {
    if outcomes == [] {
      assert [] + [o] == [o];
    } else {
      assert (outcomes + [o])[1..] == outcomes[1..] + [o];
      PlaySnoc(Settle(Next(k, outcomes[0])), outcomes[1..], o);
    }
  }

  lemma {:induction false} ReturnedStays(k: Keeper, outcomes: seq<Outcome>)
    requires k.pc.Returned?
    ensures Play(k, outcomes) == k
    decreases |outcomes|
  {
    if outcomes != [] { ReturnedStays(k, outcomes[1..]); }
  }

  lemma {:induction false} PlayConcat(k: Keeper, a: seq<Outcome>, b: seq<Outcome>)
    ensures Play(k, a + b) == Play(Play(k, a), b)
    decreases |a|
  {
    if a == [] {
      assert [] + b == b;
    } else {
      assert (a + b)[1..] == a[1..] + b;
      PlayConcat(Settle(Next(k, a[0])), a[1..], b);
    }
  }

  /** Taking, closing and leaving, in one go. */
  lemma SettleTake(k: Keeper, o: Outcome)
    requires k.pc.Watching?
    ensures Settle(Next(k, o)) == k.(pc := if o.Shutdown? then Returned else Requesting, shared := None)
  {
    var k1 := Next(k, o);
    var k2 := Next(k1, Good);
    if k2.pc.Clearing? {
      var k3 := Next(k2, Good);
      var k4 := Next(k3, Good);
      var k5 := Next(k4, Good);
      assert Settle(k4) == Settle(k5) == k5;
      assert Settle(k2) == Settle(k3) == Settle(k4);
    }
    assert Settle(k1) == Settle(k2);
  }

  lemma SettlePublish(k: Keeper)
    requires k.pc.SendingHello?
    ensures Settle(Next(k, Good)) ==
            k.(pc := Watching, backoff := RECONNECT_INITIAL_MS, shared := Some(k.made), made := k.made + 1)
  {
    var k1 := Next(k, Good);
    assert Settle(k1) == Settle(Next(k1, Good));
  }

  /**
   The keeper's task as a loop over its awaits; `outcomes` says how each of them
   ends, and the loop is left waiting where they run out.
   */
  class MuxKeeper {
    var backoff: nat
    var shared: Option<nat>
    var made: nat
    var pc: KeeperPc
    ghost var waits: seq<nat>

    constructor ()
      ensures State() == FIRST_KEEPER
    {
      backoff, shared, made, pc, waits := RECONNECT_INITIAL_MS, None, 0, Requesting, [];
    }

    ghost function State(): Keeper
      reads this
    {
      Keeper(pc, backoff, shared, made, waits)
    }

    /** A failed token or connect: the delay begins. */
    method BeginSleep()
      modifies this
      ensures State() == Sleep(old(State()))
    {
      waits, pc := waits + [backoff], Sleeping;
    }

    /** `task::sleep(backoff)` against the shutdown signal, then doubling. */
    method EndSleep(o: Outcome) returns (stop: bool)
      requires pc.Sleeping?
      modifies this
      ensures State() == Next(old(State()), o) && stop == pc.Returned?
    {
      stop := o.Shutdown?;
      if stop {
        pc := Returned;
      } else {
        backoff := if backoff * 2 < RECONNECT_MAX_MS then backoff * 2 else RECONNECT_MAX_MS;
        pc := Requesting;
      }
    }

    /** The session is published. */
    method Publish()
      requires pc.SendingHello?
      modifies this
      ensures State() == Settle(Next(old(State()), Good)) && pc.Watching?
    {
      SettlePublish(State());
      backoff := RECONNECT_INITIAL_MS;
      shared, made := Some(made), made + 1;
      pc := Watching;
    }

    /** `shared.lock().take()` and, if a session was there, `close()` on it. */
    method TakeAndClose(o: Outcome) returns (closed: Option<nat>)
      requires pc.Watching?
      modifies this
      ensures State() == Settle(Next(old(State()), o)) && closed == old(shared)
      ensures pc == if o.Shutdown? then Returned else Requesting
    {
      SettleTake(State(), o);
      closed := shared;
      shared := None;
      pc := if o.Shutdown? then Returned else Requesting;
    }

    /** The token loop: on return there is a token, or the outcomes have run out, or the keeper is told to stop. */
    method ObtainToken(outcomes: seq<Outcome>, start: nat) returns (i: nat, stop: bool)
      requires start <= |outcomes| && pc.Requesting? && State() == Play(FIRST_KEEPER, outcomes[..start])
      modifies this
      ensures start <= i <= |outcomes| && State() == Play(FIRST_KEEPER, outcomes[..i])
      ensures stop <==> pc.Returned?
      ensures !stop ==> pc.Connecting? || i == |outcomes|
    {
      i, stop := start, false;
      while !stop && i < |outcomes|
        invariant start <= i <= |outcomes| && State() == Play(FIRST_KEEPER, outcomes[..i])
        invariant if stop then pc.Returned? else pc.Requesting? || (pc.Sleeping? && i == |outcomes|)
        decreases |outcomes| - i, !stop
      {
        PlayNext(outcomes, i);
        var o := outcomes[i];
        i := i + 1;
        if o.Good? {
          backoff, pc, waits := RECONNECT_INITIAL_MS, Connecting, [];
          return;
        }
        BeginSleep();
        i, stop := FinishSleep(outcomes, i);
      }
    }

    method FinishSleep(outcomes: seq<Outcome>, start: nat) returns (i: nat, stop: bool)
      requires start <= |outcomes| && pc.Sleeping? && State() == Play(FIRST_KEEPER, outcomes[..start])
      modifies this
      ensures start <= i <= |outcomes| && State() == Play(FIRST_KEEPER, outcomes[..i])
      ensures if stop then pc.Returned? else pc.Requesting? || (pc.Sleeping? && i == |outcomes|)
    {
      i, stop := start, false;
      if i < |outcomes| {
        PlayNext(outcomes, i);
        stop := EndSleep(outcomes[i]);
        i := i + 1;
      }
    }

    /** Connect, HELLO and, if both succeed, publication. */
    method Establish(outcomes: seq<Outcome>, start: nat) returns (i: nat, stop: bool)
      requires start < |outcomes| && pc.Connecting? && State() == Play(FIRST_KEEPER, outcomes[..start])
      modifies this
      ensures start < i <= |outcomes| && State() == Play(FIRST_KEEPER, outcomes[..i])
      ensures stop <==> pc.Returned?
      ensures !stop ==> pc.Watching? || pc.Requesting? || i == |outcomes|
    {
      PlayNext(outcomes, start);
      var connected := outcomes[start];
      i, stop := start + 1, false;
      if !connected.Good? {
        BeginSleep();
        i, stop := FinishSleep(outcomes, i);
        return;
      }
      pc := SendingHello;
      if i < |outcomes| {
        PlayNext(outcomes, i);
        var sent := outcomes[i];
        i := i + 1;
        if sent.Good? { Publish(); } else { pc := Requesting; }
      }
    }

    /** `run_mux_keeper`. */
    method Run(outcomes: seq<Outcome>)
      requires State() == FIRST_KEEPER
      modifies this
      ensures State() == Play(FIRST_KEEPER, outcomes)
      ensures Outage(outcomes) ==>
                pc.Requesting? && shared == None && |waits| == |outcomes| / 2
                && forall i :: 0 <= i < |waits| ==> waits[i] == DelayInNumbers(i)
    {
      FirstBackoff();
      if Outage(outcomes) { OutagePlays(FIRST_KEEPER, outcomes); }
      var i: nat, stop := 0, false;
      assert outcomes[..0] == [];
      while !stop && i < |outcomes|
        invariant 0 <= i <= |outcomes| && State() == Play(FIRST_KEEPER, outcomes[..i])
        invariant if stop then pc.Returned? else pc.Requesting? || i == |outcomes|
        decreases |outcomes| - i, !stop
      {
        i, stop := ObtainToken(outcomes, i);
        if stop || i == |outcomes| { continue; }
        i, stop := Establish(outcomes, i);
        if stop || i == |outcomes| || pc.Requesting? { continue; }
        PlayNext(outcomes, i);
        var closed := TakeAndClose(outcomes[i]);
        stop := outcomes[i].Shutdown?;
        i := i + 1;
      }
      assert outcomes[..|outcomes|] == outcomes;
      if stop { PlayOver(outcomes, i); }
    }
  }

  lemma PlayNext(outcomes: seq<Outcome>, i: nat)
    requires i < |outcomes|
    ensures Play(FIRST_KEEPER, outcomes[..i + 1]) == Settle(Next(Play(FIRST_KEEPER, outcomes[..i]), outcomes[i]))
  {
    assert outcomes[..i + 1] == outcomes[..i] + [outcomes[i]];
    PlaySnoc(FIRST_KEEPER, outcomes[..i], outcomes[i]);
  }

  /** After the return nothing changes. */
  lemma PlayOver(outcomes: seq<Outcome>, i: nat)
    requires i <= |outcomes| && Play(FIRST_KEEPER, outcomes[..i]).pc.Returned?
    ensures Play(FIRST_KEEPER, outcomes) == Play(FIRST_KEEPER, outcomes[..i])
  {
    assert outcomes == outcomes[..i] + outcomes[i..];
    PlayConcat(FIRST_KEEPER, outcomes[..i], outcomes[i..]);
    ReturnedStays(Play(FIRST_KEEPER, outcomes[..i]), outcomes[i..]);
  }

  /** What the loop plays are steps of the state machine, so every run of it keeps the above. */
  lemma {:induction false} SettleOk(k: Keeper)
    requires BackoffOk(k) && PublishOk(k)
    ensures BackoffOk(Settle(k)) && PublishOk(Settle(k)) && Awaits(Settle(k))
    decreases Rank(k)
  {
    if !Awaits(k) {
      BackoffStep(k, Good);
      PublishStep(k, Good);
      SettleOk(Next(k, Good));
    }
  }

  lemma {:induction false} PlayOk(k: Keeper, outcomes: seq<Outcome>)
    requires BackoffOk(k) && PublishOk(k) && Awaits(k)
    ensures var last := Play(k, outcomes);
            BackoffOk(last) && PublishOk(last) && (last.shared.Some? <==> last.pc.Watching?)
    decreases |outcomes|
  {
    if outcomes != [] {
      BackoffStep(k, outcomes[0]);
      PublishStep(k, outcomes[0]);
      SettleOk(Next(k, outcomes[0]));
      PlayOk(Settle(Next(k, outcomes[0])), outcomes[1..]);
    }
  }

  // ── What the loop does, outcome by outcome ──────────────────────────────────

  /** The delays in milliseconds; k counts from 0. */
  function DelayInNumbers(k: nat): nat {
    if k == 0 then 500
    else if k == 1 then 1000
    else if k == 2 then 2000
    else if k == 3 then 4000
    else if k == 4 then 8000
    else if k == 5 then 16000
    else 30000
  }

  lemma {:induction false} DelayTable(k: nat)
    ensures Delay(k) == DelayInNumbers(k)
    ensures k >= 6 ==> Pow2(k) >= 64
  {
    assert Pow2(1) == 2 && Pow2(2) == 4 && Pow2(3) == 8 && Pow2(4) == 16 && Pow2(5) == 32 && Pow2(6) == 64;
    if k > 6 { DelayTable(k - 1); }
  }

  /** An outage: every token request fails and every wait is slept out. */
  predicate Outage(outcomes: seq<Outcome>) {
    |outcomes| % 2 == 0
    && forall i :: 0 <= i < |outcomes| ==> if i % 2 == 0 then !outcomes[i].Good? else !outcomes[i].Shutdown?
  }

  /** One request that fails. */
  lemma RequestFails(k: Keeper, o: Outcome)
    requires k.pc.Requesting? && BackoffOk(k) && !o.Good?
    ensures var t := Play(k, [o]);
            && t.pc.Sleeping? && t.waits == k.waits + [DelayInNumbers(|k.waits|)]
            && t.shared == k.shared && t.made == k.made
    ensures Play(k, [o, Shutdown]).pc.Returned? && Play(k, [o, Shutdown]).shared == k.shared
    ensures forall p: Outcome :: !p.Shutdown? ==>
              Play(k, [o, p]).pc.Requesting? && Play(k, [o, p]).waits == Play(k, [o]).waits
              && Play(k, [o, p]).shared == k.shared && Play(k, [o, p]).made == k.made
  {
    DelayTable(|k.waits|);
    PlaySnoc(k, [], o);
    assert [] + [o] == [o];
    forall p: Outcome ensures Play(k, [o, p]) == Settle(Next(Play(k, [o]), p)) {
      assert [o] + [p] == [o, p];
      PlaySnoc(k, [o], p);
    }
  }

  /** A token after which connect and HELLO go as `connect` and `hello` say, up to publication. */
  lemma TokenThen(k: Keeper, connect: Outcome, hello: Outcome)
    requires k.pc.Requesting?
    ensures Play(k, [Good]).pc.Connecting? && Play(k, [Good]).waits == []
    ensures !connect.Good? ==>
              Play(k, [Good, connect]).pc.Sleeping? && Play(k, [Good, connect]).waits == [500]
    ensures connect.Good? && !hello.Good? ==>
              Play(k, [Good, connect, hello]).pc.Requesting? && Play(k, [Good, connect, hello]).waits == []
              && Play(k, [Good, connect, hello]).shared == k.shared
    ensures connect.Good? && hello.Good? ==>
              Play(k, [Good, connect, hello]).pc.Watching?
              && Play(k, [Good, connect, hello]).shared == Some(k.made)
              && Play(k, [Good, connect, hello]).made == k.made + 1
  {
    assert [] + [Good] == [Good] && [Good] + [connect] == [Good, connect];
    assert [Good, connect] + [hello] == [Good, connect, hello];
    PlaySnoc(k, [], Good);
    PlaySnoc(k, [Good], connect);
    PlaySnoc(k, [Good, connect], hello);
    if connect.Good? && hello.Good? { SettlePublish(Play(k, [Good, connect])); }
  }

  /** The end of a published session. */
  lemma DisconnectThen(k: Keeper, o: Outcome)
    requires k.pc.Watching?
    ensures var t := Play(k, [o]);
            t.shared == None && t.made == k.made && (if o.Shutdown? then t.pc.Returned? else t.pc.Requesting?)
  {
    assert [] + [o] == [o];
    PlaySnoc(k, [], o);
    SettleTake(k, o);
  }

  /** An outage of n failures leaves exactly the first n delays, and the keeper requesting again. */
  lemma {:induction false} OutagePlays(k: Keeper, outcomes: seq<Outcome>)
    requires k.pc.Requesting? && BackoffOk(k) && PublishOk(k) && Outage(outcomes)
    ensures var t := Play(k, outcomes);
            t.pc.Requesting? && t.shared == k.shared && t.made == k.made && BackoffOk(t) && PublishOk(t)
            && |t.waits| == |k.waits| + |outcomes| / 2
            && forall i :: 0 <= i < |t.waits| ==> t.waits[i] == DelayInNumbers(i)
    decreases |outcomes|
  {
    PlayOk(k, outcomes);
    forall i: nat ensures Delay(i) == DelayInNumbers(i) { DelayTable(i); }
    if outcomes != [] {
      var init, o, p := outcomes[..|outcomes| - 2], outcomes[|outcomes| - 2], outcomes[|outcomes| - 1];
      assert Outage(init);
      OutagePlays(k, init);
      assert outcomes == init + [o, p];
      PlayConcat(k, init, [o, p]);
      RequestFails(Play(k, init), o);
    }
  }

  /** How many delays are due: the failed requests and connects since the start or the last token. */
  function Failures(outcomes: seq<Outcome>): nat
    decreases |outcomes|
  {
    if outcomes == [] then 0
    else
      var init, o := outcomes[..|outcomes| - 1], outcomes[|outcomes| - 1];
      match Play(FIRST_KEEPER, init).pc
      case Requesting => if o.Good? then 0 else Failures(init) + 1
      case Connecting => if o.Good? then Failures(init) else Failures(init) + 1
      case _ => Failures(init)
  }

  /** Every failed request and every failed connect begins one wait, and nothing else does, on every run. */
  lemma {:induction false} WaitsAreFailures(outcomes: seq<Outcome>)
    ensures |Play(FIRST_KEEPER, outcomes).waits| == Failures(outcomes)
    decreases |outcomes|
  {
    if outcomes != [] {
      var init, o := outcomes[..|outcomes| - 1], outcomes[|outcomes| - 1];
      var k := Play(FIRST_KEEPER, init);
      WaitsAreFailures(init);
      assert outcomes == init + [o];
      PlaySnoc(FIRST_KEEPER, init, o);
      FirstBackoff();
      PlayAwaits(FIRST_KEEPER, init);
      if k.pc.SendingHello? && o.Good? { SettlePublish(k); }
      if k.pc.Watching? { SettleTake(k, o); }
    }
  }

  lemma {:induction false} PlayAwaits(k: Keeper, outcomes: seq<Outcome>)
    requires BackoffOk(k) && PublishOk(k) && Awaits(k)
    ensures Awaits(Play(k, outcomes))
    decreases |outcomes|
  {
    if outcomes != [] {
      BackoffStep(k, outcomes[0]);
      PublishStep(k, outcomes[0]);
      SettleOk(Next(k, outcomes[0]));
      PlayAwaits(Settle(Next(k, outcomes[0])), outcomes[1..]);
    }
  }
}
