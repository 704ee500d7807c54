/**
 The SOCKS5 handshake (sections 3 to 6 of RFC 1928) as the client reads it
 (`parse_socks5_request`, client/src/lib.rs:511), and `split_host_port`, which
 takes its result apart again for routing.
 */
module Socks5 {
  import opened Basics
  import opened Utf8
  import opened Numbers
  import opened HostNames

  const VERSION: byte := 0x05
  const NO_AUTH: byte := 0x00
  const NO_ACCEPTABLE: byte := 0xFF
  const CMD_CONNECT: byte := 0x01
  const ATYP_IPV4: byte := 0x01
  const ATYP_DOMAIN: byte := 0x03
  const ATYP_IPV6: byte := 0x04
  const REP_CMD_NOT_SUPPORTED: byte := 0x07
  const REP_ATYP_NOT_SUPPORTED: byte := 0x08

  /** VER REP RSV ATYP=IPv4 BND=0.0.0.0:0. */
  function SocksReply(rep: byte): Bytes {
    [VERSION, rep, 0x00, ATYP_IPV4, 0, 0, 0, 0, 0, 0]
  }

  // ── What a handshake is ─────────────────────────────────────────────────────

  datatype Address =
    | V4(bytes: Bytes)
    | V6(bytes: Bytes)
    | Domain(bytes: Bytes)

  /** A greeting and a CONNECT request; `rsv` is the reserved byte, which is not looked at. */
  datatype Handshake = Handshake(methods: Bytes, rsv: byte, address: Address, port: nat)

  predicate AddressOk(a: Address) {
    match a
    case V4(bytes) => |bytes| == 4
    case V6(bytes) => |bytes| == 16
    case Domain(bytes) => |bytes| <= 255 && FromBytes(bytes).Some?
  }

  predicate WellFormed(h: Handshake) {
    |h.methods| <= 255 && NO_AUTH in h.methods && h.port < 0x1_0000
    && AddressOk(h.address)
  }

  function AddressBytes(a: Address): Bytes
    requires |a.bytes| <= 255
  {
    match a
    case V4(bytes) => [ATYP_IPV4] + bytes
    case V6(bytes) => [ATYP_IPV6] + bytes
    case Domain(bytes) => [ATYP_DOMAIN, |bytes|] + bytes
  }

  function PortBytes(port: nat): Bytes
    requires port < 0x1_0000
  {
    [port / 256, port % 256]
  }

  /** The bytes of a handshake. */
  function HandshakeBytes(h: Handshake): Bytes
    requires WellFormed(h)
  {
    [VERSION, |h.methods|] + h.methods + [VERSION, CMD_CONNECT, h.rsv] + AddressBytes(h.address) + PortBytes(h.port)
  }

  /** `Ipv6Addr::to_string` is opaque here: some printer that writes no brackets. */
  type Printer = Bytes -> string

  function Dotted(b: Bytes): string
    requires |b| == 4
  {
    Decimal(b[0]) + "." + Decimal(b[1]) + "." + Decimal(b[2]) + "." + Decimal(b[3])
  }

  /** The host as routing sees it. */
  function BareHost(a: Address, print6: Printer): string
    requires a.V4? ==> |a.bytes| == 4
    requires a.Domain? ==> FromBytes(a.bytes).Some?
  {
    match a
    case V4(bytes) => Dotted(bytes)
    case V6(bytes) => print6(bytes)
    case Domain(bytes) => FromBytes(bytes).value
  }

  /** The `host:port` string of an address; IPv6 addresses in brackets. */
  function HostPort(a: Address, port: nat, print6: Printer): string
    requires AddressOk(a)
  {
    var bare := BareHost(a, print6);
    (if a.V6? then "[" + bare + "]" else bare) + ":" + Decimal(port)
  }

  function Target(h: Handshake, print6: Printer): string
    requires WellFormed(h)
  {
    HostPort(h.address, h.port, print6)
  }

  /** Four decimal labels, one for each byte, in order. */
  predicate Quad(host: string, bytes: Bytes)
    requires |bytes| == 4
  {
    var labels := Labels(host);
    |labels| == 4
    && forall k :: 0 <= k < 4 ==> labels[k] != [] && AllDigits(labels[k]) && Value(labels[k]) == bytes[k]
  }

  /** What a target string must say, at its last colon: the port behind it, the address before it. */
  ghost predicate Says(target: string, h: Handshake, print6: Printer)
    requires WellFormed(h)
  {
    match RSplit(target)
    case None => false
    case Some((host, port)) =>
      port != [] && AllDigits(port) && Value(port) == h.port
      && match h.address
         case V4(bytes) => Quad(host, bytes)
         case V6(bytes) => host == "[" + print6(bytes) + "]"
         case Domain(bytes) => ToBytes(host) == bytes
  }

  /** A printed byte is one label. */
  lemma DecimalLabel(n: nat)
    ensures Labels(Decimal(n)) == [Decimal(n)] && AllDigits(Decimal(n)) && Value(Decimal(n)) == n
  {
    NoDot(Decimal(n));
    ValueOfDecimal(n);
  }

  lemma FourLabels(a: string, b: string, c: string, d: string)
    requires Labels(a) == [a] && Labels(b) == [b] && Labels(c) == [c] && Labels(d) == [d]
    ensures Labels(a + "." + b + "." + c + "." + d) == [a, b, c, d]
  {
    LabelsConcat(a, b);
    LabelsConcat(a + "." + b, c);
    LabelsConcat(a + "." + b + "." + c, d);
  }

  lemma DottedIsQuad(b: Bytes)
    requires |b| == 4
    ensures Quad(Dotted(b), b)
  {
    forall k | 0 <= k < 4
      ensures Labels(Decimal(b[k])) == [Decimal(b[k])] && AllDigits(Decimal(b[k])) && Value(Decimal(b[k])) == b[k]
    {
      DecimalLabel(b[k]);
    }
    FourLabels(Decimal(b[0]), Decimal(b[1]), Decimal(b[2]), Decimal(b[3]));
  }

  lemma TargetSays(h: Handshake, print6: Printer)
    requires WellFormed(h)
    ensures Says(Target(h, print6), h, print6)
  {
    var bare, port := BareHost(h.address, print6), Decimal(h.port);
    var host := if h.address.V6? then "[" + bare + "]" else bare;
    assert ':' !in port by {
      assert forall i :: 0 <= i < |port| ==> IsDigit(port[i]);
    }
    assert Target(h, print6) == host + [':'] + port;
    RSplitAt(host, port);
    ValueOfDecimal(h.port);
    match h.address
    case V4(bytes) => DottedIsQuad(bytes);
    case V6(bytes) =>
    case Domain(bytes) => EncodeDecode(bytes);
  }

  // ── What the parser makes of its input ──────────────────────────────────────

  /** Where the request starts, once the greeting is complete. */
  function RequestAt(input: Bytes): nat
    requires |input| >= 2
  {
    var n: int := input[1];
    2 + n
  }

  /** A complete greeting that offers NO_AUTH. */
  predicate Offers(input: Bytes) {
    |input| >= 2 && input[0] == VERSION && RequestAt(input) <= |input| && NO_AUTH in input[2..RequestAt(input)]
  }

  /** The four fixed bytes of the request have arrived, with the right version. */
  predicate Requests(input: Bytes) {
    Offers(input) && RequestAt(input) + 4 <= |input| && input[RequestAt(input)] == VERSION
  }

  /** The address field at `at`, and where it ends. */
  function AddressAt(input: Bytes, at: nat, atyp: byte): Option<(Address, nat)> {
    if atyp == ATYP_IPV4 then
      if at + 4 <= |input| then Some((V4(input[at..at + 4]), at + 4)) else None
    else if atyp == ATYP_IPV6 then
      if at + 16 <= |input| then Some((V6(input[at..at + 16]), at + 16)) else None
    else if atyp == ATYP_DOMAIN then
      if at >= |input| then None
      else
        var n: int := input[at];
        if at + 1 + n <= |input| && FromBytes(input[at + 1..at + 1 + n]).Some?
        then Some((Domain(input[at + 1..at + 1 + n]), at + 1 + n))
        else None
    else None
  }

  /** The handshake at the start of `input` and its length. */
  function Parse(input: Bytes): Option<(Handshake, nat)> {
    if !Requests(input) then None
    else
      var p := RequestAt(input);
      if input[p + 1] != CMD_CONNECT then None
      else match AddressAt(input, p + 4, input[p + 3])
        case None => None
        case Some((address, end)) =>
          if end + 2 > |input| then None
          else
            var hi: int, lo: int := input[end], input[end + 1];
            Some((Handshake(input[2..p], input[p + 2], address, hi * 256 + lo), end + 2))
  }

  /** What the client writes back while parsing; the reply to a good request is left to the caller. */
  function Answer(input: Bytes): Bytes {
    if |input| < 2 || input[0] != VERSION || RequestAt(input) > |input| then []
    else if !Offers(input) then [VERSION, NO_ACCEPTABLE]
    else [VERSION, NO_AUTH] + Refusal(input)
  }

  /** The reply to a request that is not served. */
  function Refusal(input: Bytes): Bytes {
    if !Requests(input) then []
    else if input[RequestAt(input) + 1] != CMD_CONNECT then SocksReply(REP_CMD_NOT_SUPPORTED)
    else if input[RequestAt(input) + 3] !in {ATYP_IPV4, ATYP_IPV6, ATYP_DOMAIN} then SocksReply(REP_ATYP_NOT_SUPPORTED)
    else []
  }

  // ── The parser ──────────────────────────────────────────────────────────────

  /** What a peer that breaks after `n` bytes gets of `data`. */
  function Upto(data: Bytes, n: nat): Bytes {
    if |data| <= n then data else data[..n]
  }

  /**
   The local connection: what arrives on it, how much has been read, what has reached
   the peer, which takes `accepts` bytes in all and then breaks.
   */
  class Connection {
    const input: Bytes
    const accepts: nat
    var read: nat
    var sent: Bytes

    constructor (input: Bytes, accepts: nat)
      ensures this.input == input && this.accepts == accepts && read == 0 && sent == []
    {
      this.input, this.accepts := input, accepts;
      read, sent := 0, [];
    }

    /** `read_exact`: at the end of input whatever is left has been read, and it fails. */
    method ReadExact(n: nat) returns (b: Option<Bytes>)
      requires read <= |input|
      modifies this`read
      ensures read == if old(read) + n <= |input| then old(read) + n else |input|
      ensures b == if old(read) + n <= |input| then Some(input[old(read)..old(read) + n]) else None
    {
      if read + n <= |input| {
        b := Some(input[read..read + n]);
        read := read + n;
      } else {
        b := None;
        read := |input|;
      }
    }

    /** `write_all`; it fails when the peer breaks, perhaps half-way. */
    method WriteAll(data: Bytes) returns (ok: bool)
      requires |sent| <= accepts
      modifies this`sent
      ensures ok == (|old(sent)| + |data| <= accepts)
      ensures sent == Upto(old(sent) + data, accepts)
    {
      ok := |sent| + |data| <= accepts;
      sent := sent + if ok then data else data[..accepts - |sent|];
    }

    /** Method negotiation: true when NO_AUTH was offered and the answer could be written. */
    method Negotiate() returns (ok: bool)
      requires read == 0 && sent == []
      modifies this`read, this`sent
      ensures read <= |input| && read <= 257
      ensures ok <==> Offers(input) && accepts >= 2
      ensures ok ==> read == RequestAt(input) && sent == [VERSION, NO_AUTH]
      ensures !ok ==> sent == Upto(Answer(input), accepts)
    {
      ok := false;
      var hdr := ReadExact(2);
      if hdr.None? || hdr.value[0] != VERSION { return; }
      assert hdr.value == input[..2];
      var n: int := hdr.value[1];
      var methods := ReadExact(n);
      if methods.None? { return; }
      if NO_AUTH in methods.value {
        ok := WriteAll([VERSION, NO_AUTH]);
      } else {
        var _ := WriteAll([VERSION, NO_ACCEPTABLE]);
      }
    }

    /** The address field of a request. */
    method ReadAddress(atyp: byte) returns (address: Option<Address>)
      requires read <= |input| && atyp in {ATYP_IPV4, ATYP_IPV6, ATYP_DOMAIN}
      modifies this`read
      ensures read <= |input| && read <= old(read) + 256
      ensures match AddressAt(input, old(read), atyp)
              case None => address == None
              case Some((a, end)) => address == Some(a) && read == end
    {
      address := None;
      if atyp == ATYP_IPV4 {
        var b := ReadExact(4);
        if b.Some? { address := Some(V4(b.value)); }
      } else if atyp == ATYP_IPV6 {
        var b := ReadExact(16);
        if b.Some? { address := Some(V6(b.value)); }
      } else {
        ghost var at := read;
        var len := ReadExact(1);
        if len.None? { return; }
        assert len.value[0] == input[at];
        var n: int := len.value[0];
        var b := ReadExact(n);
        if b.None? || FromBytes(b.value).None? { return; }
        address := Some(Domain(b.value));
      }
    }

    /** The request behind the greeting. */
    method ReadRequest(print6: Printer) returns (target: Option<string>)
      requires accepts >= 2 && Offers(input) && read == RequestAt(input) && sent == [VERSION, NO_AUTH]
      modifies this`read, this`sent
      ensures read <= |input| && read <= old(read) + 262
      ensures target.Some? <==> Parse(input).Some?
      ensures target.Some? ==>
                var (h, used) := Parse(input).value;
                WellFormed(h) && target.value == Target(h, print6) && read == used
      ensures sent == Upto([VERSION, NO_AUTH] + Refusal(input), accepts)
    {
      target := None;
      ghost var p := read;
      var req := ReadExact(4); // VER CMD RSV ATYP
      if req.None? { return; }
      assert req.value[0] == input[p] && req.value[1] == input[p + 1] && req.value[3] == input[p + 3];
      if req.value[0] != VERSION { return; }
      if req.value[1] != CMD_CONNECT {
        var _ := WriteAll(SocksReply(REP_CMD_NOT_SUPPORTED));
        return;
      }
      var atyp := req.value[3];
      if atyp !in {ATYP_IPV4, ATYP_IPV6, ATYP_DOMAIN} {
        var _ := WriteAll(SocksReply(REP_ATYP_NOT_SUPPORTED));
        return;
      }
      var address := ReadAddress(atyp);
      if address.None? { return; }
      ghost var end := read;
      var port := ReadExact(2);
      if port.None? { return; }
      assert port.value[0] == input[end] && port.value[1] == input[end + 1];
      var hi: int, lo: int := port.value[0], port.value[1];
      ParsedIs(input, address.value, end);
      target := Some(HostPort(address.value, hi * 256 + lo, print6));
    }

    /** `parse_socks5_request`. */
    method ParseRequest(print6: Printer) returns (target: Option<string>)
      requires read == 0 && sent == []
      modifies this`read, this`sent
      ensures read <= |input| && read <= 519
      ensures target.Some? <==> accepts >= 2 && Parse(input).Some?
      ensures target.Some? ==>
                var (h, used) := Parse(input).value;
                WellFormed(h) && target.value == Target(h, print6) && read == used
      ensures sent == Upto(Answer(input), accepts)
      ensures forall h: Handshake, payload: Bytes ::
                WellFormed(h) && input == HandshakeBytes(h) + payload && accepts >= 2 ==>
                  target.Some? && Says(target.value, h, print6) && read == |HandshakeBytes(h)|
    {
      target := None;
      var ok := Negotiate();
      if ok { target := ReadRequest(print6); }
      forall h: Handshake, payload: Bytes | WellFormed(h) && input == HandshakeBytes(h) + payload
        ensures Parse(input) == Some((h, |HandshakeBytes(h)|)) && Says(Target(h, print6), h, print6)
      {
        AcceptsHandshake(h, payload);
        TargetSays(h, print6);
      }
    }
  }

  /** A request whose address and port have arrived. */
  lemma ParsedIs(input: Bytes, address: Address, end: nat)
    requires Requests(input) && input[RequestAt(input) + 1] == CMD_CONNECT
    requires AddressAt(input, RequestAt(input) + 4, input[RequestAt(input) + 3]) == Some((address, end))
    requires end + 2 <= |input|
    ensures var hi: int, lo: int := input[end], input[end + 1];
            var h := Handshake(input[2..RequestAt(input)], input[RequestAt(input) + 2], address, hi * 256 + lo);
            Parse(input) == Some((h, end + 2)) && WellFormed(h) && AddressOk(address)
  {
  }

  lemma ParsedIsWellFormed(input: Bytes)
    requires Parse(input).Some?
    ensures WellFormed(Parse(input).value.0)
  {
  }

  // ── Against the definition of a handshake ───────────────────────────────────

  lemma Slice(x: Bytes, y: Bytes, z: Bytes)
    ensures (x + y + z)[|x|..|x| + |y|] == y
    ensures forall i :: 0 <= i < |y| ==> (x + y + z)[|x| + i] == y[i]
  {
  }

  lemma FieldAt(before: Bytes, tag: Bytes, bytes: Bytes, after: Bytes)
    ensures var all := before + (tag + bytes) + after;
            var at := |before| + |tag|;
            |all| >= at + |bytes| && all[at..at + |bytes|] == bytes
            && forall i :: 0 <= i < |tag| ==> all[|before| + i] == tag[i]
  {
    Slice(before + tag, bytes, after);
    assert before + (tag + bytes) + after == before + tag + bytes + after;
  }

  lemma FoundAddress(all: Bytes, at: nat, bytes: Bytes)
    requires at + |bytes| <= |all| && all[at..at + |bytes|] == bytes
    ensures |bytes| == 4 ==> AddressAt(all, at, ATYP_IPV4) == Some((V4(bytes), at + 4))
    ensures |bytes| == 16 ==> AddressAt(all, at, ATYP_IPV6) == Some((V6(bytes), at + 16))
  {
  }

  lemma FoundDomain(all: Bytes, at: nat, bytes: Bytes)
    requires at + 1 + |bytes| <= |all| && all[at] == |bytes| && all[at + 1..at + 1 + |bytes|] == bytes
    requires FromBytes(bytes).Some?
    ensures AddressAt(all, at, ATYP_DOMAIN) == Some((Domain(bytes), at + 1 + |bytes|))
  {
  }

  /** The address field `field`, found behind `before`. */
  ghost predicate FoundIn(a: Address, field: Bytes, before: Bytes, after: Bytes) {
    field != []
    && var all := before + field + after;
       all[|before|] == field[0] && AddressAt(all, |before| + 1, field[0]) == Some((a, |before| + |field|))
  }

  /** Where the bytes of a field lie that starts with `tag`. */
  lemma FieldIn(field: Bytes, tag: Bytes, bytes: Bytes, before: Bytes, after: Bytes)
    requires field == tag + bytes
    ensures var all := before + field + after;
            var at := |before| + |tag|;
            |all| >= at + |bytes| && all[at..at + |bytes|] == bytes && at + |bytes| == |before| + |field|
            && forall i :: 0 <= i < |tag| ==> all[|before| + i] == tag[i] == field[i]
  {
    FieldAt(before, tag, bytes, after);
  }

  lemma FixedParts(bytes: Bytes, field: Bytes, before: Bytes, after: Bytes)
    ensures |bytes| == 4 && field == [ATYP_IPV4] + bytes ==> FoundIn(V4(bytes), field, before, after)
    ensures |bytes| == 16 && field == [ATYP_IPV6] + bytes ==> FoundIn(V6(bytes), field, before, after)
  {
    var all := before + field + after;
    if field != [] && field == [field[0]] + bytes {
      FieldIn(field, [field[0]], bytes, before, after);
      assert all[|before| + 0] == field[0];
      FoundAddress(all, |before| + 1, bytes);
    }
  }

  /** Length and text of a domain stand where they belong. */
  predicate DomainIn(all: Bytes, at: nat, field: Bytes, bytes: Bytes) {
    && |field| == 2 + |bytes| && at + |field| <= |all|
    && all[at] == field[0] == ATYP_DOMAIN && all[at + 1] == |bytes|
    && all[at + 2..at + 2 + |bytes|] == bytes
  }

  lemma DomainSpot(bytes: Bytes, field: Bytes, before: Bytes, after: Bytes)
    requires |bytes| <= 255 && field == [ATYP_DOMAIN, |bytes|] + bytes
    ensures DomainIn(before + field + after, |before|, field, bytes)
  {
    FieldIn(field, [ATYP_DOMAIN, |bytes|], bytes, before, after);
    var all := before + field + after;
    assert all[|before| + 0] == field[0] && all[|before| + 1] == field[1];
  }

  lemma DomainFound(all: Bytes, at: nat, field: Bytes, bytes: Bytes)
    requires DomainIn(all, at, field, bytes) && FromBytes(bytes).Some?
    ensures AddressAt(all, at + 1, field[0]) == Some((Domain(bytes), at + |field|))
  {
    FoundDomain(all, at + 1, bytes);
  }

  lemma DomainParts(bytes: Bytes, field: Bytes, before: Bytes, after: Bytes)
    requires DomainIn(before + field + after, |before|, field, bytes) && FromBytes(bytes).Some?
    ensures FoundIn(Domain(bytes), field, before, after)
  {
    DomainFound(before + field + after, |before|, field, bytes);
  }

  lemma AddressParts(a: Address, before: Bytes, after: Bytes)
    requires AddressOk(a)
    ensures FoundIn(a, AddressBytes(a), before, after)
  {
    var field := AddressBytes(a);
    if a.Domain? {
      DomainSpot(a.bytes, field, before, after);
      DomainParts(a.bytes, field, before, after);
    } else {
      FixedParts(a.bytes, field, before, after);
    }
  }

  /** Everything but the address. */
  ghost predicate FrameAt(h: Handshake, all: Bytes, front: nat, end: nat) {
    && 5 <= front == 5 + |h.methods| < end && end + 2 <= |all|
    && all[0] == VERSION && all[1] == |h.methods| && all[2..front - 3] == h.methods
    && all[front - 3] == VERSION && all[front - 2] == CMD_CONNECT && all[front - 1] == h.rsv
    && all[end] == h.port / 256 && all[end + 1] == h.port % 256
  }

  /** The pieces of a handshake, found where they belong. */
  ghost predicate PiecesAt(h: Handshake, all: Bytes, front: nat, end: nat) {
    FrameAt(h, all, front, end) && AddressAt(all, front + 1, all[front]) == Some((h.address, end))
  }

  lemma AcceptsParts(h: Handshake, all: Bytes, front: nat, end: nat)
    requires WellFormed(h) && PiecesAt(h, all, front, end)
    ensures Parse(all) == Some((h, end + 2))
  {
  }

  lemma Layout(head: Bytes, methods: Bytes, fixed: Bytes, address: Bytes, port: Bytes, payload: Bytes)
    requires |head| == 2 && |fixed| == 3 && |port| == 2
    ensures var all := head + methods + fixed + address + port + payload;
            var p := 2 + |methods|;
            var end := p + 3 + |address|;
            && all[0] == head[0] && all[1] == head[1] && all[2..p] == methods
            && all[p] == fixed[0] && all[p + 1] == fixed[1] && all[p + 2] == fixed[2]
            && all[end] == port[0] && all[end + 1] == port[1]
            && all == (head + methods + fixed) + address + (port + payload)
  {
  }

  lemma FrameLayout(h: Handshake, address: Bytes, payload: Bytes)
    requires |h.methods| <= 255 && h.port < 0x1_0000 && address != []
    ensures var head: Bytes, fixed: Bytes := [VERSION, |h.methods|], [VERSION, CMD_CONNECT, h.rsv];
            var all := head + h.methods + fixed + address + PortBytes(h.port) + payload;
            FrameAt(h, all, 5 + |h.methods|, 5 + |h.methods| + |address|)
            && all == (head + h.methods + fixed) + address + (PortBytes(h.port) + payload)
  {
    Layout([VERSION, |h.methods|], h.methods, [VERSION, CMD_CONNECT, h.rsv], address, PortBytes(h.port), payload);
  }

  lemma HandshakeLayout(h: Handshake, payload: Bytes)
    requires WellFormed(h)
    ensures PiecesAt(h, HandshakeBytes(h) + payload, 5 + |h.methods|, |HandshakeBytes(h)| - 2)
  {
    FrameLayout(h, AddressBytes(h.address), payload);
    var front: Bytes := [VERSION, |h.methods|] + h.methods + [VERSION, CMD_CONNECT, h.rsv];
    AddressParts(h.address, front, PortBytes(h.port) + payload);
  }

  lemma AcceptsBytes(h: Handshake, b: Bytes, payload: Bytes)
    requires WellFormed(h) && |b| >= 2 && PiecesAt(h, b + payload, 5 + |h.methods|, |b| - 2)
    ensures Parse(b + payload) == Some((h, |b|))
  {
    AcceptsParts(h, b + payload, 5 + |h.methods|, |b| - 2);
  }

  /** Every well-formed handshake is accepted, and the payload behind it is left alone. */
  lemma AcceptsHandshake(h: Handshake, payload: Bytes)
    requires WellFormed(h)
    ensures Parse(HandshakeBytes(h) + payload) == Some((h, |HandshakeBytes(h)|))
  {
    HandshakeLayout(h, payload);
    AcceptsBytes(h, HandshakeBytes(h), payload);
  }

  lemma AddressUnparts(input: Bytes, at: nat, atyp: byte)
    requires AddressAt(input, at + 1, atyp).Some? && at < |input| && input[at] == atyp
    ensures var (a, end) := AddressAt(input, at + 1, atyp).value;
            |a.bytes| <= 255 && at <= end <= |input| && AddressBytes(a) == input[at..end]
  {
    var (a, end) := AddressAt(input, at + 1, atyp).value;
    if a.Domain? {
      assert input[at..end] == [input[at], input[at + 1]] + input[at + 2..end];
    } else {
      assert input[at..end] == [input[at]] + input[at + 1..end];
    }
  }

  lemma Cut(b: Bytes, p: nat, end: nat)
    requires 2 <= p && p + 3 <= end && end + 2 <= |b|
    ensures b[..end + 2] == [b[0], b[1]] + b[2..p] + [b[p], b[p + 1], b[p + 2]] + b[p + 3..end] + [b[end], b[end + 1]]
  {
  }

  /** Nothing else is accepted: what was consumed is the handshake's own bytes. */
  lemma OnlyHandshakes(input: Bytes)
    requires Parse(input).Some?
    ensures var (h, used) := Parse(input).value;
            WellFormed(h) && used <= |input| && used <= 519 && HandshakeBytes(h) == input[..used]
  {
    ParsedIsWellFormed(input);
    var p := RequestAt(input);
    var (h, used) := Parse(input).value;
    AddressUnparts(input, p + 3, input[p + 3]);
    Cut(input, p, used - 2);
  }

  // ── In numbers ──────────────────────────────────────────────────────────────

  /** The bytes of a handshake as RFC 1928, sections 3 to 5, lays them out. */
  lemma HandshakeLayoutInNumbers(h: Handshake)
    requires WellFormed(h)
    ensures var b, n, a := HandshakeBytes(h), |h.methods|, h.address;
            && |b| == n + 8 + |a.bytes| + (if a.Domain? then 1 else 0)
            && b[0] == 5 && b[1] == n && b[2..2 + n] == h.methods && 0 in h.methods
            && b[2 + n] == 5 && b[3 + n] == 1 && b[4 + n] == h.rsv
            && b[5 + n] == (match a case V4(_) => 1 case Domain(_) => 3 case V6(_) => 4)
            && (a.Domain? ==> b[6 + n] == |a.bytes|)
            && b[|b| - 2 - |a.bytes|..|b| - 2] == a.bytes
            && PortAt(b, |b| - 2) == h.port
  {
    var b, n, a := HandshakeBytes(h), |h.methods|, h.address;
    var field := AddressBytes(a);
    FrameLayout(h, field, []);
    var front: Bytes := [VERSION, n] + h.methods + [VERSION, CMD_CONNECT, h.rsv];
    assert b + [] == b;
    var tag := field[..|field| - |a.bytes|];
    assert field == tag + a.bytes;
    FieldIn(field, tag, a.bytes, front, PortBytes(h.port));
    assert b == front + field + PortBytes(h.port);
    assert b[|front| + 0] == tag[0];
    if a.Domain? { assert b[|front| + 1] == tag[1]; }
  }

  /** Two bytes, the more significant one first. */
  function PortAt(b: Bytes, at: nat): int
    requires at + 2 <= |b|
  {
    var hi: int, lo: int := b[at], b[at + 1];
    hi * 256 + lo
  }

  /** The answers of RFC 1928, sections 3 and 6, byte by byte. */
  lemma AnswerInNumbers(input: Bytes)
    ensures Answer(input) ==
            if |input| < 2 || input[0] != 5 || |input| < RequestAt(input) then []
            else
              var p := RequestAt(input);
              if 0 !in input[2..p] then [5, 255]
              else if |input| < p + 4 || input[p] != 5 then [5, 0]
              else if input[p + 1] != 1 then [5, 0, 5, 7, 0, 1, 0, 0, 0, 0, 0, 0]
              else if input[p + 3] !in {1, 3, 4} then [5, 0, 5, 8, 0, 1, 0, 0, 0, 0, 0, 0]
              else [5, 0]
    ensures |input| >= 2 ==> RequestAt(input) == 2 + input[1] as int
  {
  }

  // ── Taking host:port apart ──────────────────────────────────────────────────

  predicate IsBracket(c: char) {
    c == '[' || c == ']'
  }

  /** `trim_matches(|c| c == '[' || c == ']')`. */
  function TrimStart(s: string): string {
    if s != [] && IsBracket(s[0]) then TrimStart(s[1..]) else s
  }

  function TrimEnd(s: string): string {
    if s != [] && IsBracket(s[|s| - 1]) then TrimEnd(s[..|s| - 1]) else s
  }

  function Trim(s: string): string {
    TrimEnd(TrimStart(s))
  }

  /** `split_host_port`. */
  function SplitHostPort(s: string): (string, nat) {
    match RSplit(s)
    case None => (s, 80)
    case Some((h, p)) => (Trim(h), ParseUnsigned(p, 65535).GetOr(80))
  }

  predicate NoEdgeBrackets(s: string) {
    s != [] ==> !IsBracket(s[0]) && !IsBracket(s[|s| - 1])
  }

  lemma {:induction false} TrimStartShape(s: string)
    ensures |TrimStart(s)| <= |s| && (|TrimStart(s)| == |s| <==> TrimStart(s) == s)
    ensures TrimStart(s) == s <==> s == [] || !IsBracket(s[0])
  {
    if s != [] && IsBracket(s[0]) { TrimStartShape(s[1..]); }
  }

  lemma {:induction false} TrimEndShape(s: string)
    ensures |TrimEnd(s)| <= |s| && (|TrimEnd(s)| == |s| <==> TrimEnd(s) == s)
    ensures TrimEnd(s) == s <==> s == [] || !IsBracket(s[|s| - 1])
  {
    if s != [] && IsBracket(s[|s| - 1]) { TrimEndShape(s[..|s| - 1]); }
  }

  /** Trimming changes nothing exactly when there is no bracket at either edge. */
  lemma TrimKeeps(s: string)
    ensures Trim(s) == s <==> NoEdgeBrackets(s)
  {
    TrimStartShape(s);
    TrimEndShape(TrimStart(s));
  }

  lemma TrimBracketed(s: string)
    requires NoEdgeBrackets(s) && s != []
    ensures Trim("[" + s + "]") == s
  {
    var b := "[" + s + "]";
    assert b[1..] == s + "]" && TrimStart(b) == TrimStart(s + "]") == s + "]";
    assert (s + "]")[..|s|] == s;
    TrimEndShape(s);
    assert TrimEnd(s + "]") == TrimEnd(s);
  }

  predicate AllBrackets(s: string) {
    forall i :: 0 <= i < |s| ==> IsBracket(s[i])
  }

  lemma {:induction false} TrimStartMeans(s: string)
    ensures exists a: string :: AllBrackets(a) && s == a + TrimStart(s)
    ensures TrimStart(s) != [] ==> !IsBracket(TrimStart(s)[0])
  {
    if s != [] && IsBracket(s[0]) {
      TrimStartMeans(s[1..]);
      var a: string :| AllBrackets(a) && s[1..] == a + TrimStart(s[1..]);
      assert AllBrackets([s[0]] + a) && s == ([s[0]] + a) + TrimStart(s);
    } else {
      assert AllBrackets([]) && s == [] + TrimStart(s);
    }
  }

  lemma {:induction false} TrimEndMeans(s: string)
    ensures exists b: string :: AllBrackets(b) && s == TrimEnd(s) + b
    ensures TrimEnd(s) != [] ==> !IsBracket(TrimEnd(s)[|TrimEnd(s)| - 1])
  {
    if s != [] && IsBracket(s[|s| - 1]) {
      var init := s[..|s| - 1];
      TrimEndMeans(init);
      var b: string :| AllBrackets(b) && init == TrimEnd(init) + b;
      assert AllBrackets(b + [s[|s| - 1]]) && s == TrimEnd(s) + (b + [s[|s| - 1]]);
    } else {
      assert AllBrackets([]) && s == TrimEnd(s) + [];
    }
  }

  /** What is left after trimming has no bracket at its edges, and only brackets were taken from them. */
  lemma TrimMeans(s: string)
    ensures NoEdgeBrackets(Trim(s))
    ensures exists a: string, b: string :: AllBrackets(a) && AllBrackets(b) && s == a + Trim(s) + b
  {
    TrimStartMeans(s);
    TrimEndMeans(TrimStart(s));
    var a: string :| AllBrackets(a) && s == a + TrimStart(s);
    var b: string :| AllBrackets(b) && TrimStart(s) == Trim(s) + b;
    assert s == a + Trim(s) + b;
  }

  /** Any string: cut at its last colon, port 80 without one or when what follows is no port. */
  lemma SplitMeans(s: string, h: string, p: string)
    ensures ':' !in s ==> SplitHostPort(s) == (s, 80)
    ensures ':' !in p && s == h + [':'] + p ==>
              SplitHostPort(s) == (Trim(h), match ParseUnsigned(p, 65535) case Some(n) => n case None => 80)
  {
    if ':' !in s { NoColon(s); }
    if ':' !in p && s == h + [':'] + p { RSplitAt(h, p); }
  }

  /**
   Routing sees exactly the host and port of the handshake when the bare host has no
   bracket at its edges; a printed IPv6 address never has one, a dotted IPv4 address
   starts and ends with a digit, so only domains can fail, and then the host is changed.
   */
  lemma SplitGivesBack(h: Handshake, print6: Printer)
    requires WellFormed(h)
    requires h.address.V6? ==> NoEdgeBrackets(print6(h.address.bytes)) && print6(h.address.bytes) != []
    ensures SplitHostPort(Target(h, print6)).1 == h.port
    ensures SplitHostPort(Target(h, print6)).0 == BareHost(h.address, print6)
            <==> (h.address.Domain? ==> NoEdgeBrackets(FromBytes(h.address.bytes).value))
  {
    var bare, port := BareHost(h.address, print6), Decimal(h.port);
    var host := if h.address.V6? then "[" + bare + "]" else bare;
    assert ':' !in port by {
      assert forall i :: 0 <= i < |port| ==> IsDigit(port[i]);
    }
    assert Target(h, print6) == host + [':'] + port;
    RSplitAt(host, port);
    ParseDecimal(h.port, 65535);
    if h.address.V6? { TrimBracketed(bare); } else { TrimKeeps(bare); }
    if h.address.V4? { DottedEdges(h.address.bytes); }
  }

  lemma DottedEdges(b: Bytes)
    requires |b| == 4
    ensures NoEdgeBrackets(Dotted(b))
  {
    var s := Dotted(b);
    var first, last := Decimal(b[0]), Decimal(b[3]);
    assert s[0] == first[0] && s[|s| - 1] == last[|last| - 1];
  }
}
