/**
 The HTTP request header loop (`parse_request_header`, client/src/lib.rs:814):
 a loop over lines, against a description of what a request is that has no loop.
 */
module HttpHeader {
  import opened Basics
  import opened Utf8
  import opened HttpLimits
  import opened HttpFields

  const CR: byte := 13
  const LF: byte := 10
  const CRLF: Bytes := [CR, LF]

  datatype Request = Request(host: string, headers: string, body: Bytes)

  // ── Lines ───────────────────────────────────────────────────────────────────

  /** Length of the first line of `b`, its LF included; all of `b` when there is none. */
  function LineLength(b: Bytes): (n: nat)
    ensures n <= |b| && (n == 0 <==> b == [])
    ensures forall i :: 0 <= i < n - 1 ==> b[i] != LF
    ensures n < |b| ==> b[n - 1] == LF
  {
    if b == [] then 0 else if b[0] == LF then 1 else 1 + LineLength(b[1..])
  }

  /** The lines of the header: up to and with the first CRLF-only line, or to the end of input. */
  function Head(b: Bytes): seq<Bytes>
    decreases |b|
  {
    if b == [] then []
    else
      var n := LineLength(b);
      if b[..n] == CRLF then [CRLF] else [b[..n]] + Head(b[n..])
  }

  /** A CRLF-only line ends at `e`. */
  predicate BlankEndsAt(b: Bytes, e: nat) {
    2 <= e <= |b| && b[e - 2] == CR && b[e - 1] == LF && (e == 2 || b[e - 3] == LF)
  }

  predicate Ended(lines: seq<Bytes>) {
    lines != [] && lines[|lines| - 1] == CRLF
  }

  /**
   When a request is returned at all; `broken` says that the read after the last
   byte of `input` fails instead of reporting the end of input.
   */
  predicate Served(input: Bytes, broken: bool) {
    var lines := Head(input);
    && LinesOk(lines)
    && |Flat(lines)| <= MAX_HEADER_BYTES
    && (broken ==> Ended(lines))
    && |Flat(lines)| + LastLength(lines) <= |input|
  }

  /** The limits, in numbers. */
  lemma ServedInNumbers(input: Bytes, broken: bool)
    ensures Served(input, broken) <==>
            var lines := Head(input);
            && (forall i :: 0 <= i < |lines| ==>
                  && FromBytes(lines[i]).Some?
                  && (Names(lines[i], "content-length:") ==> LengthOf(Text(lines[i])) <= 67108864))
            && |Flat(lines)| <= 65536
            && (broken ==> lines != [] && lines[|lines| - 1] == [13, 10])
            && |Flat(lines)| + LastLength(lines) <= |input|
  {
    var lines := Head(input);
    forall i | 0 <= i < |lines|
      ensures LineOk(lines[i]) <==>
              FromBytes(lines[i]).Some? && (Names(lines[i], "content-length:") ==> LengthOf(Text(lines[i])) <= 67108864)
    {
    }
  }

  // ── The reader ──────────────────────────────────────────────────────────────

  /** `read_line` at the start of `rest`: the line, empty at the end of input, or an error. */
  function ReadLine(rest: Bytes, broken: bool): Option<string> {
    if broken && LF !in rest then None else FromBytes(rest[..LineLength(rest)])
  }

  lemma CrlfText()
    ensures ToBytes("\r\n") == CRLF && FromBytes(CRLF) == Some("\r\n")
  {
    assert "\r\n"[1..] == "\n" && "\n"[1..] == "";
    assert ToBytes("\n") == [LF];
    DecodeEncode("\r\n");
  }

  lemma BlankLine(line: string)
    ensures line == "\r\n" <==> ToBytes(line) == CRLF
  {
    CrlfText();
    DecodeEncode(line);
  }

  lemma EmptyRead(rest: Bytes)
    requires FromBytes(rest[..LineLength(rest)]) == Some([])
    ensures rest == []
  {
    EncodeDecode(rest[..LineLength(rest)]);
  }

  /** A failed read means that the request is not served. */
  lemma ReadFails(input: Bytes, broken: bool, lines: seq<Bytes>, rest: Bytes)
    requires Head(input) == lines + Head(rest) && !Ended(lines)
    requires ReadLine(rest, broken) == None
    ensures !Served(input, broken)
  {
    if broken && LF !in rest {
      if rest != [] {
        assert LineLength(rest) == |rest|;
        assert rest[..|rest|] == rest && Head(rest[|rest|..]) == [];
        assert Head(rest) == [rest] && rest != CRLF;
      }
    } else {
      assert Head(rest)[0] == rest[..LineLength(rest)];
      assert Head(input)[|lines|] == Head(rest)[0];
    }
  }

  lemma HeadStep(rest: Bytes)
    requires rest != []
    ensures var l := rest[..LineLength(rest)];
            Head(rest) == [l] + if l == CRLF then [] else Head(rest[|l|..])
  {
  }

  lemma Regroup(all: seq<Bytes>, lines: seq<Bytes>, l: Bytes, more: seq<Bytes>)
    requires all == lines + ([l] + more)
    ensures all == lines + [l] + more
    ensures Flat(lines + [l]) == Flat(lines) + l
    ensures |Flat(all)| >= |Flat(lines)| + |l|
  {
    FlatConcat(lines, [l]);
    FlatOne(l);
    FlatPrefix(lines + [l], all);
  }

  lemma MemberOk(all: seq<Bytes>, lines: seq<Bytes>, l: Bytes, more: seq<Bytes>)
    requires all == lines + [l] + more
    ensures LinesOk(all) ==> LineOk(l)
  {
    assert all[|lines|] == l;
  }

  /** What reading one more line does to the line list. */
  lemma NextLine(all: seq<Bytes>, lines: seq<Bytes>, l: Bytes, rest: Bytes)
    requires rest != [] && l == rest[..LineLength(rest)] && all == lines + Head(rest)
    ensures all == lines + [l] + (if l == CRLF then [] else Head(rest[|l|..]))
    ensures Flat(lines + [l]) == Flat(lines) + l
    ensures |Flat(all)| >= |Flat(lines)| + |l|
    ensures LinesOk(all) ==> LineOk(l)
  {
    var more := if l == CRLF then [] else Head(rest[|l|..]);
    HeadStep(rest);
    Regroup(all, lines, l, more);
    MemberOk(all, lines, l, more);
  }

  lemma LastOfMore(lines: seq<Bytes>, l: Bytes)
    ensures LastLength(lines + [l]) == if IsField(Text(l), CONTENT_LENGTH) then LengthOf(Text(l)) else LastLength(lines)
    ensures LastHost(lines + [l]) == if IsField(Text(l), HOST) then HostOf(Text(l)) else LastHost(lines)
  {
    assert (lines + [l])[..|lines|] == lines;
  }

  /** What has been read: `lines`, and the loop's variables say the same. */
  ghost predicate HasRead(input: Bytes, lines: seq<Bytes>, rest: Bytes, headers: string, host: string, length: nat) {
    && input == Flat(lines) + rest
    && Flat(lines) == ToBytes(headers) && |Flat(lines)| <= MAX_HEADER_BYTES
    && LinesOk(lines)
    && host == LastHost(lines)
    && length == LastLength(lines) <= MAX_CONTENT_LENGTH
  }

  /** One more line, as far as the bytes go. */
  lemma TakeLine(input: Bytes, lines: seq<Bytes>, rest: Bytes, headers: string, line: string, l: Bytes)
    requires input == Flat(lines) + rest && Flat(lines) == ToBytes(headers)
    requires Head(input) == lines + Head(rest) && rest != [] && l == rest[..LineLength(rest)] && l == ToBytes(line)
    ensures 0 < |l| <= |rest|
    ensures Head(input) == lines + [l] + (if l == CRLF then [] else Head(rest[|l|..]))
    ensures |Flat(Head(input))| >= |ToBytes(headers)| + |l|
    ensures Flat(lines + [l]) == Flat(lines) + l == ToBytes(headers + line)
    ensures LinesOk(Head(input)) ==> LineOk(l)
  {
    NextLine(Head(input), lines, l, rest);
    ToBytesConcat(headers, line);
  }

  lemma OneMoreOk(lines: seq<Bytes>, l: Bytes)
    requires LinesOk(lines) && LineOk(l)
    ensures LinesOk(lines + [l])
  {
    forall i | 0 <= i < |lines + [l]|
      ensures LineOk((lines + [l])[i])
    {
      if i < |lines| { assert (lines + [l])[i] == lines[i]; }
    }
  }

  lemma Shift(input: Bytes, done: Bytes, rest: Bytes, l: Bytes)
    requires input == done + rest && |l| <= |rest| && l == rest[..|l|]
    ensures input == done + l + rest[|l|..]
  {
  }

  /** One more line, as far as the loop's variables go. */
  lemma ReadOne(input: Bytes, lines: seq<Bytes>, rest: Bytes, headers: string, host: string, length: nat,
                l: Bytes, line: string)
    requires HasRead(input, lines, rest, headers, host, length)
    requires |l| <= |rest| && l == rest[..|l|] && FromBytes(l) == Some(line) && LineOk(l)
    requires Flat(lines + [l]) == Flat(lines) + l == ToBytes(headers + line)
    requires |Flat(lines)| + |l| <= MAX_HEADER_BYTES
    ensures HasRead(input, lines + [l], rest[|l|..], headers + line,
                    if IsField(line, HOST) then HostOf(line) else host,
                    if IsField(line, CONTENT_LENGTH) then LengthOf(line) else length)
  {
    Shift(input, Flat(lines), rest, l);
    OneMoreOk(lines, l);
    LastOfMore(lines, l);
  }

  /** One turn of the loop: a reason to refuse, or one line more. */
  lemma Turn(input: Bytes, lines: seq<Bytes>, rest: Bytes, headers: string, host: string, length: nat, line: string)
    requires HasRead(input, lines, rest, headers, host, length)
    requires Head(input) == lines + Head(rest)
    requires line != [] && FromBytes(rest[..LineLength(rest)]) == Some(line)
    ensures var l := ToBytes(line);
            var length' := if IsField(line, CONTENT_LENGTH) then LengthOf(line) else length;
            && 0 < |l| <= |rest|
            && Head(input) == lines + [l] + (if l == CRLF then [] else Head(rest[|l|..]))
            && |Flat(Head(input))| >= |ToBytes(headers)| + |l|
            && (length' > MAX_CONTENT_LENGTH ==> !LinesOk(Head(input)))
            && (|ToBytes(headers)| + |l| <= MAX_HEADER_BYTES && length' <= MAX_CONTENT_LENGTH ==>
                  HasRead(input, lines + [l], rest[|l|..], headers + line,
                          if IsField(line, HOST) then HostOf(line) else host, length'))
  {
    var l := rest[..LineLength(rest)];
    EncodeDecode(l);
    assert rest != [];
    TakeLine(input, lines, rest, headers, line, l);
    var length' := if IsField(line, CONTENT_LENGTH) then LengthOf(line) else length;
    assert LineOk(l) <==> length' <= MAX_CONTENT_LENGTH;
    if |ToBytes(headers)| + |l| <= MAX_HEADER_BYTES && length' <= MAX_CONTENT_LENGTH {
      ReadOne(input, lines, rest, headers, host, length, l, line);
    }
  }

  /** The whole header has been read; what is left is the body. */
  lemma Finish(input: Bytes, broken: bool, lines: seq<Bytes>, rest: Bytes, headers: string, host: string, length: nat)
    requires HasRead(input, lines, rest, headers, host, length)
    requires Head(input) == lines && (broken ==> Ended(lines))
    ensures Served(input, broken) <==> length <= |rest|
    ensures length <= |rest| ==> Flat(lines) + rest[..length] <= input
  {
  }

  /** `parse_request_header`. */
  method ParseRequestHeader(input: Bytes, broken: bool) returns (r: Option<Request>)
    ensures r.Some? <==> Served(input, broken)
    ensures r.Some? ==>
              var lines := Head(input);
              && ToBytes(r.value.headers) == Flat(lines) && |Flat(lines)| <= MAX_HEADER_BYTES
              && Flat(lines) + r.value.body <= input
              && |r.value.body| == LastLength(lines) <= MAX_CONTENT_LENGTH
              && r.value.host == LastHost(lines)
              && HostSays(lines, r.value.host) && LengthSays(lines, |r.value.body|)
              && |Flat(lines)| <= 65536 && |r.value.body| <= 67108864
  {
    var headers: string := "";
    var host: string := "";
    var contentLength: nat := 0;
    var rest := input; // what the reader has not handed out yet
    ghost var lines: seq<Bytes> := [];
    while true
      invariant HasRead(input, lines, rest, headers, host, contentLength)
      invariant Head(input) == lines + Head(rest) && !Ended(lines)
      decreases |rest|
    {
      var read := ReadLine(rest, broken);
      if read.None? {
        ReadFails(input, broken, lines, rest);
        return None;
      }
      var line := read.value;
      if line == [] {
        EmptyRead(rest);
        break;
      }
      Turn(input, lines, rest, headers, host, contentLength, line);
      if |ToBytes(headers)| + |ToBytes(line)| > MAX_HEADER_BYTES { return None; }
      headers := headers + line;
      rest := rest[|ToBytes(line)|..];
      lines := lines + [ToBytes(line)];

      if IsField(line, HOST) { host := HostOf(line); }
      if IsField(line, CONTENT_LENGTH) {
        contentLength := LengthOf(line);
        if contentLength > MAX_CONTENT_LENGTH { return None; }
      }
      BlankLine(line);
      if line == "\r\n" { break; }
    }
    Finish(input, broken, lines, rest, headers, host, contentLength);
    var body: Bytes := [];
    if contentLength > 0 {
      if contentLength > |rest| { return None; }
      body := rest[..contentLength];
    }
    assert body == rest[..contentLength];
    LastHostSays(lines);
    LastLengthSays(lines);
    r := Some(Request(host, headers, body));
  }

  // ── What the description means ──────────────────────────────────────────────

  lemma BlankInLine(b: Bytes, n: nat, e: nat)
    requires n == LineLength(b) && e <= n
    ensures BlankEndsAt(b, e) <==> e == n && b[..n] == CRLF
  {
    if b[..n] == CRLF {
      assert b[0] == b[..n][0] && b[1] == b[..n][1];
    }
  }

  lemma BlankAfterLine(b: Bytes, n: nat, e: nat)
    requires n == LineLength(b) && n < e <= |b|
    ensures BlankEndsAt(b, e) <==> BlankEndsAt(b[n..], e - n)
  {
    assert b[n - 1] == LF;
    assert b[n..][e - n - 1] == b[e - 1];
    if e - n >= 2 { assert b[n..][e - n - 2] == b[e - 2]; }
    if e - n >= 3 { assert b[n..][e - n - 3] == b[e - 3]; }
  }

  /** `e` is where the first blank line ends, or the end of input when there is none. */
  ghost predicate StopsAt(b: Bytes, e: nat, blank: bool) {
    && e <= |b|
    && (forall k: nat :: k < e ==> !BlankEndsAt(b, k))
    && (blank <==> BlankEndsAt(b, e))
    && (blank || e == |b|)
  }

  lemma StopsLater(b: Bytes, n: nat, e: nat, blank: bool)
    requires b != [] && n == LineLength(b) && b[..n] != CRLF && StopsAt(b[n..], e, blank)
    ensures StopsAt(b, n + e, blank)
  {
    forall k: nat | k <= n + e
      ensures BlankEndsAt(b, k) <==> k > n && BlankEndsAt(b[n..], k - n)
    {
      if k <= n { BlankInLine(b, n, k); } else { BlankAfterLine(b, n, k); }
    }
  }

  lemma StopsNow(b: Bytes, n: nat)
    requires b != [] && n == LineLength(b) && b[..n] == CRLF
    ensures StopsAt(b, n, true)
  {
    forall k: nat | k <= n ensures BlankEndsAt(b, k) <==> k == n { BlankInLine(b, n, k); }
  }

  lemma MoreBehind(l: Bytes, more: seq<Bytes>, b: Bytes, n: nat)
    requires n <= |b| && l == b[..n] && l != CRLF && Flat(more) <= b[n..]
    ensures Ended([l] + more) <==> Ended(more)
    ensures |Flat([l] + more)| == n + |Flat(more)| && Flat([l] + more) <= b
  {
    assert ([l] + more)[1..] == more;
  }

  lemma StopsBehind(b: Bytes, n: nat, lines: seq<Bytes>, more: seq<Bytes>)
    requires b != [] && n == LineLength(b) && b[..n] != CRLF && lines == [b[..n]] + more
    requires Flat(more) <= b[n..] && StopsAt(b[n..], |Flat(more)|, Ended(more))
    ensures Flat(lines) <= b && StopsAt(b, |Flat(lines)|, Ended(lines))
  {
    StopsLater(b, n, |Flat(more)|, Ended(more));
    MoreBehind(b[..n], more, b, n);
    assert |Flat(lines)| == n + |Flat(more)| && Ended(lines) == Ended(more);
  }

  /**
   The header is a prefix of the input; it ends with the first CRLF-only line, or with
   the input when there is none.
   */
  lemma {:induction false} HeaderStops(input: Bytes)
    ensures Flat(Head(input)) <= input && StopsAt(input, |Flat(Head(input))|, Ended(Head(input)))
    decreases |input|
  {
    if input != [] {
      var n := LineLength(input);
      HeadStep(input);
      if input[..n] == CRLF {
        FlatOne(CRLF);
        StopsNow(input, n);
      } else {
        HeaderStops(input[n..]);
        StopsBehind(input, n, Head(input), Head(input[n..]));
      }
    }
  }

  /** A line as it stands in a header: ended by its only LF. */
  predicate IsLine(l: Bytes) {
    l != [] && l[|l| - 1] == LF && forall i :: 0 <= i < |l| - 1 ==> l[i] != LF
  }

  lemma {:induction false} LineLengthOf(l: Bytes, rest: Bytes)
    requires IsLine(l)
    ensures LineLength(l + rest) == |l|
  {
    if |l| > 1 {
      assert (l + rest)[0] == l[0] != LF;
      assert (l + rest)[1..] == l[1..] + rest;
      LineLengthOf(l[1..], rest);
    } else {
      assert (l + rest)[0] == l[0];
    }
  }

  /** Header lines are read back one by one, whatever follows the blank line. */
  lemma {:induction false} LinesReadBack(lines: seq<Bytes>, rest: Bytes)
    requires forall i :: 0 <= i < |lines| ==> IsLine(lines[i]) && lines[i] != CRLF
    ensures Head(Flat(lines) + CRLF + rest) == lines + [CRLF]
  {
    var b := Flat(lines) + CRLF + rest;
    if lines == [] {
      assert b == CRLF + rest;
      LineLengthOf(CRLF, rest);
      HeadStep(b);
      assert b[..2] == CRLF;
    } else {
      var l, more := lines[0], Flat(lines[1..]) + CRLF + rest;
      assert b == l + more;
      LineLengthOf(l, more);
      HeadStep(b);
      assert b[..|l|] == l && b[|l|..] == more;
      LinesReadBack(lines[1..], rest);
    }
  }

  /** The first DATA frame of a plain HTTP stream stays within the limit the tunnel relies on. */
  lemma RequestFits(input: Bytes, broken: bool)
    requires Served(input, broken)
    ensures |Flat(Head(input))| + LastLength(Head(input)) <= MAX_REQUEST
  {
    LengthBound(Head(input));
  }
}
