/**
 Session tokens (server/src/lib.rs): `/control` connections put fresh tokens into one
 shared set, `/mux` connections take the token out that their HELLO names.  Any number
 of connections of both kinds run at the same time.
 */
module Tokens {
  import opened Basics
  import opened Frames

  /** A UUID; only that fresh ones are fresh matters. */
  type Token = nat

  /** How tokens are written in messages: what is printed parses back. */
  datatype Format = Format(text: Token -> string, parse: string -> Option<Token>)

  ghost predicate FormatOk(f: Format) {
    forall t: Token :: f.parse(f.text(t)) == Some(t)
  }

  // ── The HELLO gate ──────────────────────────────────────────────────────────

  datatype Message = Binary(bytes: Bytes) | Ping | Other

  /** The token named by the first message that is not a ping, if that is a HELLO with a token. */
  function Gate(f: Format, messages: seq<Message>): Option<Token> {
    if messages == [] then None
    else match messages[0]
      case Ping => Gate(f, messages[1..])
      case Binary(bytes) =>
        (match Decode(bytes)
         case Ok(Hello(text)) => f.parse(text)
         case _ => None)
      case Other => None
  }

  /** The gate's loop over the incoming messages. */
  method HelloGate(f: Format, messages: seq<Message>) returns (token: Option<Token>, read: nat)
    ensures token == Gate(f, messages) && read <= |messages|
    ensures forall i :: 0 <= i < read - 1 ==> messages[i].Ping?
  {
    read := 0;
    while read < |messages|
      invariant 0 <= read <= |messages|
      invariant Gate(f, messages) == Gate(f, messages[read..])
      invariant forall i :: 0 <= i < read ==> messages[i].Ping?
    {
      var m := messages[read];
      assert messages[read..][1..] == messages[read + 1..];
      read := read + 1;
      match m {
        case Ping =>
        case Binary(bytes) =>
          match Decode(bytes) {
            case Ok(Hello(text)) => token := f.parse(text); return;
            case _ => token := None; return;
          }
        case Other => token := None; return;
      }
    }
    token := None;
  }

  /** Whatever pings come first, a client's HELLO gets its token to the store. */
  lemma {:induction false} HelloPasses(f: Format, pings: nat, t: Token, rest: seq<Message>)
    requires FormatOk(f)
    ensures Gate(f, seq(pings, _ => Ping) + [Binary(Encode(Hello(f.text(t))))] + rest) == Some(t)
    decreases pings
  {
    var hello := [Binary(Encode(Hello(f.text(t))))];
    var messages := seq(pings, _ => Ping) + hello + rest;
    if pings == 0 {
      assert messages[0] == hello[0];
      DecodeEncodeFrame(Hello(f.text(t)));
    } else {
      HelloPasses(f, pings - 1, t, rest);
      assert messages[0] == Ping && messages[1..] == seq(pings - 1, _ => Ping) + hello + rest;
    }
  }

  /** A token gets through exactly as a HELLO that names it, with nothing but pings before. */
  lemma {:induction false} GateIff(f: Format, messages: seq<Message>, t: Token)
    ensures Gate(f, messages) == Some(t) <==>
            exists i, text ::
              0 <= i < |messages| && (forall k :: 0 <= k < i ==> messages[k].Ping?)
              && messages[i].Binary? && Decode(messages[i].bytes) == Ok(Hello(text)) && f.parse(text) == Some(t)
  {
    if messages != [] && messages[0].Ping? {
      var rest := messages[1..];
      GateIff(f, rest, t);
      if Gate(f, rest) == Some(t) {
        var i, text :|
          0 <= i < |rest| && (forall k :: 0 <= k < i ==> rest[k].Ping?)
          && rest[i].Binary? && Decode(rest[i].bytes) == Ok(Hello(text)) && f.parse(text) == Some(t);
        assert messages[i + 1] == rest[i];
        assert forall k :: 0 <= k < i + 1 ==> messages[k].Ping? by {
          assert forall k :: 1 <= k < i + 1 ==> messages[k] == rest[k - 1];
        }
      }
      if i, text :| 0 <= i < |messages| && (forall k :: 0 <= k < i ==> messages[k].Ping?)
                    && messages[i].Binary? && Decode(messages[i].bytes) == Ok(Hello(text)) && f.parse(text) == Some(t) {
        assert messages[i] == rest[i - 1];
        assert forall k :: 0 <= k < i - 1 ==> rest[k] == messages[k + 1];
      }
    } else if messages != [] && messages[0].Binary? && Decode(messages[0].bytes).Ok?
              && Decode(messages[0].bytes).value.Hello? {
      assert Decode(messages[0].bytes) == Ok(Hello(Decode(messages[0].bytes).value.token));
    }
  }

  // ── Concurrent connections ──────────────────────────────────────────────────

  /** A connection past its checks: `/control` with a new token, `/mux` with the token of its HELLO. */
  datatype Conn =
    | Drawn(t: Token)       // /control: drawn, not yet in the store
    | Inserted(t: Token)    // /control: in the store, answer not yet sent
    | Told(t: Token)        // /control: the client knows the token
    | Presented(t: Token)   // /mux: HELLO read
    | Started(t: Token)     // /mux: the session runs
    | Refused               // /mux: unknown or used token

  /** `issued` are all tokens ever inserted, `spent` the tokens of the sessions started, in order. */
  datatype Service = Service(stored: set<Token>, issued: set<Token>, spent: seq<Token>, conns: map<nat, Conn>)

  const FIRST_SERVICE := Service({}, {}, [], map[])

  datatype ServiceAct =
    | Draw(c: nat, t: Token)
    | Insert(c: nat)
    | Tell(c: nat)
    | Present(c: nat, t: Token)
    | Consume(c: nat)

  /** UUIDs are assumed fresh: no connection has drawn `t` before. */
  ghost predicate FreshToken(s: Service, t: Token) {
    t !in s.issued && forall c :: c in s.conns ==> s.conns[c] != Drawn(t)
  }

  ghost predicate CanServe(s: Service, a: ServiceAct) {
    match a
    case Draw(c, t) => c !in s.conns && FreshToken(s, t)
    case Insert(c) => c in s.conns && s.conns[c].Drawn?
    case Tell(c) => c in s.conns && s.conns[c].Inserted?
    case Present(c, t) => c !in s.conns
    case Consume(c) => c in s.conns && s.conns[c].Presented?
  }

  ghost function Serve(s: Service, a: ServiceAct): Service
    requires CanServe(s, a)
  {
    match a
    case Draw(c, t) => s.(conns := s.conns[c := Drawn(t)])
    case Insert(c) =>
      var t := s.conns[c].t;
      s.(stored := s.stored + {t}, issued := s.issued + {t}, conns := s.conns[c := Inserted(t)])
    case Tell(c) => s.(conns := s.conns[c := Told(s.conns[c].t)])
    case Present(c, t) => s.(conns := s.conns[c := Presented(t)])
    case Consume(c) =>
      var t := s.conns[c].t;
      if t in s.stored
      then s.(stored := s.stored - {t}, spent := s.spent + [t], conns := s.conns[c := Started(t)])
      else s.(conns := s.conns[c := Refused])
  }

  /**
   `Arc<Mutex<HashSet<Uuid>>>` with the history of its use; each method is one critical
   section, carried out by the connection that holds the lock.
   */
  class TokenStore {
    var tokens: set<Token>
    ghost var issued: set<Token>
    ghost var spent: seq<Token>
    ghost var conns: map<nat, Conn>

    ghost function Value(): Service
      reads this
    {
      Service(tokens, issued, spent, conns)
    }

    constructor ()
      ensures Value() == FIRST_SERVICE
    {
      tokens, issued, spent, conns := {}, {}, [], map[];
    }

    /** `/control`: the drawn token enters the set. */
    method Insert(ghost c: nat, t: Token)
      requires c in conns && conns[c] == Drawn(t)
      modifies this
      ensures Value() == Serve(old(Value()), ServiceAct.Insert(c))
      ensures old(ServiceOk(Value())) ==> ServiceOk(Value())
    {
      if ServiceOk(Value()) { OtherOk(Value(), ServiceAct.Insert(c)); }
      tokens := tokens + {t};
      issued, conns := issued + {t}, conns[c := Inserted(t)];
    }

    /** `/mux`: the token of the HELLO is looked up and taken out. */
    method Remove(ghost c: nat, t: Token) returns (present: bool)
      requires c in conns && conns[c] == Presented(t)
      modifies this
      ensures Value() == Serve(old(Value()), Consume(c)) && (present <==> RunsOn(Value(), c, t))
      ensures old(ServiceOk(Value())) ==> ServiceOk(Value()) && (present <==> t in old(issued) && t !in old(spent))
    {
      if ServiceOk(Value()) { ConsumeOk(Value(), c); }
      present := t in tokens;
      tokens := tokens - {t};
      if present {
        spent, conns := spent + [t], conns[c := Started(t)];
      } else {
        conns := conns[c := Refused];
      }
    }
  }

  ghost predicate Serves(s: Service, run: seq<ServiceAct>)
    decreases |run|
  {
    run == [] || (CanServe(s, run[0]) && Serves(Serve(s, run[0]), run[1..]))
  }

  ghost function Served(s: Service, run: seq<ServiceAct>): Service
    requires Serves(s, run)
    decreases |run|
  {
    if run == [] then s else Served(Serve(s, run[0]), run[1..])
  }

  function Elements(s: seq<Token>): set<Token> {
    set t | t in s
  }

  /** Connection `c` runs a session on token `t`. */
  predicate RunsOn(s: Service, c: nat, t: Token) {
    c in s.conns && s.conns[c] == Started(t)
  }

  ghost predicate ServiceOk(s: Service) {
    s.issued == s.stored + Elements(s.spent)
    && s.stored !! Elements(s.spent)
    && (forall i, j :: 0 <= i < j < |s.spent| ==> s.spent[i] != s.spent[j])
    && (forall c, d :: c in s.conns && d in s.conns && c != d && s.conns[c].Drawn? ==> s.conns[d] != s.conns[c])
    && (forall c :: c in s.conns && s.conns[c].Drawn? ==> s.conns[c].t !in s.issued)
    && (forall c :: c in s.conns && s.conns[c].Told? ==> s.conns[c].t in s.issued)
    && (forall c :: c in s.conns && s.conns[c].Inserted? ==> s.conns[c].t in s.issued)
    && (forall c :: c in s.conns && s.conns[c].Started? ==> s.conns[c].t in s.spent)
    && (forall t :: t in s.spent ==> exists c :: RunsOn(s, c, t))
    && (forall c, d, t :: RunsOn(s, c, t) && RunsOn(s, d, t) ==> c == d)
  }

  lemma ConsumeOk(s: Service, c: nat)
    requires ServiceOk(s) && CanServe(s, Consume(c))
    ensures ServiceOk(Serve(s, Consume(c)))
  {
    var t, s' := s.conns[c].t, Serve(s, Consume(c));
    if t in s.stored {
      assert Elements(s'.spent) == Elements(s.spent) + {t};
      assert RunsOn(s', c, t);
    }
    forall u | u in s'.spent ensures exists d :: RunsOn(s', d, u) {
      if u in s.spent {
        var d :| RunsOn(s, d, u);
        assert RunsOn(s', d, u);
      }
    }
    forall d, u | RunsOn(s', d, u) && d != c ensures RunsOn(s, d, u) {}
  }

  lemma OtherOk(s: Service, a: ServiceAct)
    requires ServiceOk(s) && CanServe(s, a) && !a.Consume?
    ensures ServiceOk(Serve(s, a))
  {
    var s' := Serve(s, a);
    assert s'.spent == s.spent;
    forall c, t ensures RunsOn(s', c, t) <==> RunsOn(s, c, t) {}
  }

  lemma {:induction false} ServedOk(s: Service, run: seq<ServiceAct>)
    requires ServiceOk(s) && Serves(s, run)
    ensures ServiceOk(Served(s, run))
    decreases |run|
  {
    if run != [] {
      if run[0].Consume? { ConsumeOk(s, run[0].c); } else { OtherOk(s, run[0]); }
      ServedOk(Serve(s, run[0]), run[1..]);
    }
  }

  /**
   Under every interleaving the issued tokens are the disjoint union of those stored
   and those spent, every spent token runs exactly one session, and no session runs
   on anything else.
   */
  lemma TokenConservation(run: seq<ServiceAct>)
    requires Serves(FIRST_SERVICE, run)
    ensures var s := Served(FIRST_SERVICE, run);
            s.issued == s.stored + Elements(s.spent) && s.stored !! Elements(s.spent)
            && (forall t :: t in s.spent <==> exists c :: RunsOn(s, c, t))
            && (forall c, d, t :: RunsOn(s, c, t) && RunsOn(s, d, t) ==> c == d)
  {
    ServedOk(FIRST_SERVICE, run);
    var s := Served(FIRST_SERVICE, run);
    forall c, t | RunsOn(s, c, t) ensures t in s.spent {}
  }

  /** A token the client was told and that nobody has spent is admitted; any other HELLO is refused. */
  lemma UnspentIsAdmitted(run: seq<ServiceAct>, c: nat)
    requires Serves(FIRST_SERVICE, run) && CanServe(Served(FIRST_SERVICE, run), Consume(c))
    ensures var s := Served(FIRST_SERVICE, run);
            var t := s.conns[c].t;
            Serve(s, Consume(c)).conns[c] ==
              if t in s.issued && t !in s.spent then Started(t) else Refused
  {
    ServedOk(FIRST_SERVICE, run);
  }

  // ── One connection among the others ─────────────────────────────────────────

  /** No step of connection `c`. */
  predicate Without(run: seq<ServiceAct>, c: nat) {
    forall i :: 0 <= i < |run| ==> run[i].c != c
  }

  lemma {:induction false} OthersLeave(s: Service, run: seq<ServiceAct>, c: nat)
    requires Serves(s, run) && Without(run, c) && c in s.conns
    ensures c in Served(s, run).conns && Served(s, run).conns[c] == s.conns[c]
    decreases |run|
  {
    if run != [] {
      assert run[0].c != c;
      OthersLeave(Serve(s, run[0]), run[1..], c);
    }
  }

  /** The token a `/mux` connection presents is the one that is looked up, however many others come in between. */
  lemma PresentedIsConsumed(s: Service, c: nat, t: Token, run: seq<ServiceAct>)
    requires ServiceOk(s) && CanServe(s, Present(c, t)) && Serves(Serve(s, Present(c, t)), run) && Without(run, c)
    ensures var u := Served(Serve(s, Present(c, t)), run);
            CanServe(u, Consume(c))
            && Serve(u, Consume(c)).conns[c] == (if t in u.issued && t !in u.spent then Started(t) else Refused)
            && Serve(u, Consume(c)).spent == u.spent + (if t in u.issued && t !in u.spent then [t] else [])
            && t !in Serve(u, Consume(c)).stored
  {
    OtherOk(s, Present(c, t));
    ServedOk(Serve(s, Present(c, t)), run);
    OthersLeave(Serve(s, Present(c, t)), run, c);
  }

  /** The token a `/control` connection draws is the one that is stored and the one its client is told. */
  lemma DrawnIsTold(s: Service, c: nat, t: Token, run: seq<ServiceAct>, more: seq<ServiceAct>)
    requires CanServe(s, Draw(c, t)) && Serves(Serve(s, Draw(c, t)), run) && Without(run, c) && Without(more, c)
    requires var u := Served(Serve(s, Draw(c, t)), run);
             CanServe(u, Insert(c)) && Serves(Serve(u, Insert(c)), more)
    ensures var u := Served(Serve(s, Draw(c, t)), run);
            var v := Served(Serve(u, Insert(c)), more);
            t in Serve(u, Insert(c)).stored && CanServe(v, Tell(c)) && Serve(v, Tell(c)).conns[c] == Told(t)
  {
    OthersLeave(Serve(s, Draw(c, t)), run, c);
    var u := Served(Serve(s, Draw(c, t)), run);
    OthersLeave(Serve(u, Insert(c)), more, c);
  }
}
