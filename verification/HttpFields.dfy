module HttpLimits {
  const MAX_HEADER_BYTES := 64 * 1024
  const MAX_CONTENT_LENGTH := 64 * 1024 * 1024

  /** Longest first DATA frame of a plain HTTP stream: headers and body together. */
  const MAX_REQUEST := MAX_HEADER_BYTES + MAX_CONTENT_LENGTH
}

/**
 Header fields of an HTTP request (client/src/lib.rs:830-854): which lines are Host and
 Content-Length lines, and what host and body length a list of lines gives.
 */
module HttpFields {
  import opened Basics
  import opened Utf8
  import opened Numbers
  import opened HttpLimits
  import opened HostNames

  /** The largest `usize` of a 64-bit build. */
  const USIZE_MAX: nat := 0xFFFF_FFFF_FFFF_FFFF

  // ── Fields ──────────────────────────────────────────────────────────────────

  function Lower(c: char): char {
    if 'A' <= c <= 'Z' then (c as int + 32) as char else c
  }

  /** `line.to_ascii_lowercase().starts_with(name)`. */
  predicate IsField(line: string, name: string) {
    |name| <= |line| && forall i :: 0 <= i < |name| ==> Lower(line[i]) == name[i]
  }

  /** The characters with the Unicode property White_Space. */
  predicate IsSpace(c: char) {
    || 9 <= c as int <= 13
    || c as int in {0x20, 0x85, 0xA0, 0x1680, 0x2028, 0x2029, 0x202F, 0x205F, 0x3000}
    || 0x2000 <= c as int <= 0x200A
  }

  /** The same as a table, code point by code point. */
  lemma SpaceTable(c: char)
    ensures IsSpace(c) <==>
            c as int in {9, 10, 11, 12, 13, 32, 133, 160, 5760, 8192, 8193, 8194, 8195, 8196, 8197, 8198,
                         8199, 8200, 8201, 8202, 8232, 8233, 8239, 8287, 12288}
  {
  }

  function SkipSpace(s: string): (r: string)
    ensures r == [] || !IsSpace(r[0])
    ensures |r| <= |s| && r == s[|s| - |r|..]
    ensures forall i :: 0 <= i < |s| - |r| ==> IsSpace(s[i])
  {
    if s != [] && IsSpace(s[0]) then SkipSpace(s[1..]) else s
  }

  function DropSpace(s: string): (r: string)
    ensures r == [] || !IsSpace(r[|r| - 1])
    ensures r <= s
    ensures forall i :: |r| <= i < |s| ==> IsSpace(s[i])
  {
    if s != [] && IsSpace(s[|s| - 1]) then DropSpace(s[..|s| - 1]) else s
  }

  /** `trim_end_matches(suffix)`. */
  function TrimEndMatches(s: string, suffix: string): string
    requires suffix != []
    decreases |s|
  {
    if |suffix| <= |s| && s[|s| - |suffix|..] == suffix then TrimEndMatches(s[..|s| - |suffix|], suffix) else s
  }

  /** The value of a field whose name takes up `n` characters. */
  function FieldValue(line: string, n: nat): string
    requires n <= |line|
  {
    TrimEndMatches(TrimEndMatches(DropSpace(SkipSpace(line[n..])), "\r\n"), "\n")
  }

  lemma NothingToTrim(s: string, suffix: string)
    requires s == [] || !IsSpace(s[|s| - 1])
    requires suffix != [] && IsSpace(suffix[|suffix| - 1])
    ensures TrimEndMatches(s, suffix) == s
  {
    if |suffix| <= |s| {
      assert s[|s| - |suffix|..][|suffix| - 1] == s[|s| - 1];
    }
  }

  /** The two `trim_end_matches` calls never find anything: `trim` has taken the line ending already. */
  lemma TrimIsEnough(line: string, n: nat)
    requires n <= |line|
    ensures FieldValue(line, n) == DropSpace(SkipSpace(line[n..]))
  {
    var t := DropSpace(SkipSpace(line[n..]));
    NothingToTrim(t, "\r\n");
    NothingToTrim(t, "\n");
  }

  const HOST := "host:"
  const CONTENT_LENGTH := "content-length:"

  /** A line that names no port means port 80. */
  function HostOf(line: string): string
    requires IsField(line, HOST)
  {
    var host := FieldValue(line, |HOST|);
    if ':' in host then host else host + ":80"
  }

  function LengthOf(line: string): nat
    requires IsField(line, CONTENT_LENGTH)
  {
    ParseUnsigned(FieldValue(line, |CONTENT_LENGTH|), USIZE_MAX).GetOr(0)
  }

  function Text(line: Bytes): string {
    FromBytes(line).GetOr([])
  }

  /** The value of the last Content-Length line; 0 without one. */
  function LastLength(lines: seq<Bytes>): nat {
    if lines == [] then 0
    else
      var line := Text(lines[|lines| - 1]);
      if IsField(line, CONTENT_LENGTH) then LengthOf(line) else LastLength(lines[..|lines| - 1])
  }

  /** The value of the last Host line; empty without one. */
  function LastHost(lines: seq<Bytes>): string {
    if lines == [] then []
    else
      var line := Text(lines[|lines| - 1]);
      if IsField(line, HOST) then HostOf(line) else LastHost(lines[..|lines| - 1])
  }

  /** A line that does not end the request: text, and no oversized Content-Length. */
  predicate LineOk(line: Bytes) {
    FromBytes(line).Some? && (IsField(Text(line), CONTENT_LENGTH) ==> LengthOf(Text(line)) <= MAX_CONTENT_LENGTH)
  }

  predicate LinesOk(lines: seq<Bytes>) {
    forall i :: 0 <= i < |lines| ==> LineOk(lines[i])
  }

  // ── What the fields say ─────────────────────────────────────────────────────

  predicate Names(line: Bytes, name: string) {
    IsField(Text(line), name)
  }

  /** Of several Content-Length lines the last one counts; the same for Host. */
  lemma {:induction false} LastOneCounts(lines: seq<Bytes>, k: nat)
    requires k < |lines|
    ensures Names(lines[k], CONTENT_LENGTH) && (forall i :: k < i < |lines| ==> !Names(lines[i], CONTENT_LENGTH)) ==>
              LastLength(lines) == LengthOf(Text(lines[k]))
    ensures Names(lines[k], HOST) && (forall i :: k < i < |lines| ==> !Names(lines[i], HOST)) ==>
              LastHost(lines) == HostOf(Text(lines[k]))
  {
    if k < |lines| - 1 {
      var init := lines[..|lines| - 1];
      assert forall i :: 0 <= i < |init| ==> init[i] == lines[i];
      LastOneCounts(init, k);
    }
  }

  /** With no Content-Length line there is no body, with no Host line no host. */
  lemma {:induction false} NoneCounts(lines: seq<Bytes>)
    ensures (forall i :: 0 <= i < |lines| ==> !Names(lines[i], CONTENT_LENGTH)) ==> LastLength(lines) == 0
    ensures (forall i :: 0 <= i < |lines| ==> !Names(lines[i], HOST)) ==> LastHost(lines) == []
  {
    if lines != [] {
      var init := lines[..|lines| - 1];
      assert forall i :: 0 <= i < |init| ==> init[i] == lines[i];
      NoneCounts(init);
    }
  }

  lemma TextLine(line: string)
    ensures FromBytes(ToBytes(line)).Some? && Text(ToBytes(line)) == line
  {
    DecodeEncode(line);
  }

  /** A field name in any letter case. */
  predicate Spells(name: string, lower: string) {
    |name| == |lower|
    && forall i :: 0 <= i < |name| ==>
         name[i] == lower[i] || ('A' <= name[i] <= 'Z' && name[i] as int + ('a' as int - 'A' as int) == lower[i] as int)
  }

  /** A line is a field of that name exactly when it starts with the name, in any letter case. */
  lemma NamesMeans(line: Bytes, lower: string)
    requires forall i :: 0 <= i < |lower| ==> !('A' <= lower[i] <= 'Z')
    ensures Names(line, lower) <==> exists name, rest :: Text(line) == name + rest && Spells(name, lower)
  {
    var text := Text(line);
    if Names(line, lower) {
      assert text == text[..|lower|] + text[|lower|..];
      assert Spells(text[..|lower|], lower);
    }
  }

  predicate AllSpace(s: string) {
    forall i :: 0 <= i < |s| ==> IsSpace(s[i])
  }

  predicate Trimmed(s: string) {
    s != [] ==> !IsSpace(s[0]) && !IsSpace(s[|s| - 1])
  }

  /** A field line: name, white space, value, white space. */
  function FieldLine(name: string, pre: string, value: string, post: string): string {
    name + (pre + (value + post))
  }

  predicate IsFieldLine(line: Bytes, lower: string, name: string, pre: string, value: string, post: string) {
    line == ToBytes(FieldLine(name, pre, value, post))
    && Spells(name, lower) && AllSpace(pre) && Trimmed(value) && AllSpace(post)
  }

  lemma {:induction false} SkipsPre(pre: string, s: string)
    requires AllSpace(pre) && s != [] && !IsSpace(s[0])
    ensures SkipSpace(pre + s) == s
  {
    if pre == [] {
      assert pre + s == s;
    } else {
      assert (pre + s)[1..] == pre[1..] + s;
      SkipsPre(pre[1..], s);
    }
  }

  lemma {:induction false} DropsPost(s: string, post: string)
    requires AllSpace(post) && s != [] && !IsSpace(s[|s| - 1])
    ensures DropSpace(s + post) == s
  {
    if post == [] {
      assert s + post == s;
    } else {
      var init := post[..|post| - 1];
      assert (s + post)[..|s + post| - 1] == s + init;
      DropsPost(s, init);
    }
  }

  lemma {:induction false} SkipsAll(s: string)
    requires AllSpace(s)
    ensures SkipSpace(s) == []
  {
    if s != [] { SkipsAll(s[1..]); }
  }

  lemma TrimsTo(pre: string, value: string, post: string)
    requires AllSpace(pre) && Trimmed(value) && AllSpace(post)
    ensures DropSpace(SkipSpace(pre + (value + post))) == value
  {
    if value == [] {
      SkipsAll(pre + (value + post));
    } else {
      assert (value + post)[0] == value[0];
      SkipsPre(pre, value + post);
      DropsPost(value, post);
    }
  }

  lemma IsFieldName(lower: string, name: string, rest: string)
    requires Spells(name, lower) && forall i :: 0 <= i < |lower| ==> !('A' <= lower[i] <= 'Z')
    ensures IsField(name + rest, lower) && (name + rest)[|lower|..] == rest
  {
  }

  lemma FieldIs(lower: string, name: string, pre: string, value: string, post: string)
    requires Spells(name, lower) && forall i :: 0 <= i < |lower| ==> !('A' <= lower[i] <= 'Z')
    requires AllSpace(pre) && Trimmed(value) && AllSpace(post)
    ensures var line := FieldLine(name, pre, value, post);
            IsField(line, lower) && FieldValue(line, |lower|) == value
  {
    IsFieldName(lower, name, pre + (value + post));
    TrimIsEnough(FieldLine(name, pre, value, post), |lower|);
    TrimsTo(pre, value, post);
  }

  /** The host a request must have: the value of its last Host line, with port 80 if it names none. */
  ghost predicate HostSays(lines: seq<Bytes>, r: string) {
    forall k: nat, name, pre, host, post ::
      k < |lines| && IsFieldLine(lines[k], "host:", name, pre, host, post)
      && (forall i :: k < i < |lines| ==> !Names(lines[i], "host:")) ==>
        if ':' in host then r == host else RSplit(r) == Some((host, "80"))
  }

  lemma Port80(host: string)
    ensures RSplit(host + ":80") == Some((host, "80"))
  {
    assert host + [':'] + "80" == host + ":80";
    RSplitAt(host, "80");
  }

  lemma LastHostSays(lines: seq<Bytes>)
    ensures HostSays(lines, LastHost(lines))
  {
    forall k: nat, name, pre, host, post |
      k < |lines| && IsFieldLine(lines[k], "host:", name, pre, host, post)
      && (forall i :: k < i < |lines| ==> !Names(lines[i], "host:"))
      ensures if ':' in host then LastHost(lines) == host else RSplit(LastHost(lines)) == Some((host, "80"))
    {
      TextLine(FieldLine(name, pre, host, post));
      FieldIs("host:", name, pre, host, post);
      LastOneCounts(lines, k);
      Port80(host);
    }
  }

  /**
   The body length a request must have: the number in its last Content-Length line if that
   is a 64-bit one, else 0.
   */
  ghost predicate LengthSays(lines: seq<Bytes>, length: nat) {
    forall k: nat, name, pre, value, post ::
      k < |lines| && IsFieldLine(lines[k], "content-length:", name, pre, value, post)
      && (forall i :: k < i < |lines| ==> !Names(lines[i], "content-length:")) ==>
        length == match ParseUnsigned(value, 0xFFFF_FFFF_FFFF_FFFF) case Some(n) => n case None => 0
  }

  lemma LastLengthSays(lines: seq<Bytes>)
    ensures LengthSays(lines, LastLength(lines))
  {
    forall k: nat, name, pre, value, post |
      k < |lines| && IsFieldLine(lines[k], "content-length:", name, pre, value, post)
      && (forall i :: k < i < |lines| ==> !Names(lines[i], "content-length:"))
      ensures LastLength(lines) ==
              match ParseUnsigned(value, 0xFFFF_FFFF_FFFF_FFFF) case Some(n) => n case None => 0
    {
      TextLine(FieldLine(name, pre, value, post));
      FieldIs("content-length:", name, pre, value, post);
      LastOneCounts(lines, k);
    }
  }

  /**
   A decimal Content-Length means what it says up to the largest `usize`; beyond that it
   does not parse and counts as 0. So an oversized length is refused only within `usize`.
   */
  lemma DecimalLength(n: nat, line: string)
    requires line == "Content-Length: " + Decimal(n) + "\r\n"
    ensures IsField(line, CONTENT_LENGTH)
    ensures LengthOf(line) == if n <= USIZE_MAX then n else 0
    ensures LineOk(ToBytes(line)) <==> n <= MAX_CONTENT_LENGTH || n > USIZE_MAX
  {
    assert line == FieldLine("Content-Length:", " ", Decimal(n), "\r\n");
    FieldIs(CONTENT_LENGTH, "Content-Length:", " ", Decimal(n), "\r\n");
    ParseDecimal(n, USIZE_MAX);
    TextLine(line);
  }

  lemma {:induction false} LengthBound(lines: seq<Bytes>)
    requires LinesOk(lines)
    ensures LastLength(lines) <= MAX_CONTENT_LENGTH
  {
    if lines != [] {
      assert LineOk(lines[|lines| - 1]);
      LengthBound(lines[..|lines| - 1]);
    }
  }
}
