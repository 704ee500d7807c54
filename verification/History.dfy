/**
 What the frames one side has queued say about a single stream: the stage its
 conversation has reached, the chunks of data sent, and the order of OPENs and
 acknowledgements.  All are defined by recursion on the last frame, because
 histories grow at the end.
 */
module History {
  import opened Basics
  import opened Frames

  function Init<T>(s: seq<T>): seq<T>
    requires s != []
  {
    s[..|s| - 1]
  }

  function Last<T>(s: seq<T>): T
    requires s != []
  {
    s[|s| - 1]
  }

  /** Stage of one stream in one direction; Bad once the grammar has been broken. */
  datatype Stage = Fresh | Refused | Live | Closed | Bad

  function Advance(stage: Stage, f: Frame, id: Id): Stage {
    if f.Hello? || f.id != id then stage
    else match (stage, f)
      case (Fresh, Open(_, _)) => Live
      case (Fresh, OpenAck(_, ok)) => if ok then Live else Refused
      case (Live, Data(_, _)) => Live
      case (Live, Close(_)) => Closed
      case _ => Bad
  }

  function StageOf(frames: seq<Frame>, id: Id): Stage {
    if frames == [] then Fresh else Advance(StageOf(Init(frames), id), Last(frames), id)
  }

  function ChunkIn(f: Frame, id: Id): seq<Bytes> {
    if f.Data? && f.id == id then [f.bytes] else []
  }

  /** The payloads of the DATA frames of stream `id`, in order. */
  function ChunksOf(frames: seq<Frame>, id: Id): seq<Bytes> {
    if frames == [] then [] else ChunksOf(Init(frames), id) + ChunkIn(Last(frames), id)
  }

  function OpenIds(frames: seq<Frame>): seq<Id> {
    if frames == [] then [] else OpenIds(Init(frames)) + if Last(frames).Open? then [Last(frames).id] else []
  }

  function AckIds(frames: seq<Frame>): seq<Id> {
    if frames == [] then [] else AckIds(Init(frames)) + if Last(frames).OpenAck? then [Last(frames).id] else []
  }

  lemma Snoc<T>(s: seq<T>, x: T)
    ensures s + [x] != [] && Init(s + [x]) == s && Last(s + [x]) == x
  {
  }

  /** One more frame at the end. */
  lemma Append(frames: seq<Frame>, f: Frame, id: Id)
    ensures StageOf(frames + [f], id) == Advance(StageOf(frames, id), f, id)
    ensures ChunksOf(frames + [f], id) == ChunksOf(frames, id) + ChunkIn(f, id)
  {
    Snoc(frames, f);
  }

  lemma AppendIds(frames: seq<Frame>, f: Frame)
    ensures OpenIds(frames + [f]) == OpenIds(frames) + if f.Open? then [f.id] else []
    ensures AckIds(frames + [f]) == AckIds(frames) + if f.OpenAck? then [f.id] else []
  {
    Snoc(frames, f);
  }

  lemma {:induction false} ChunksConcat(a: seq<Frame>, b: seq<Frame>, id: Id)
    ensures ChunksOf(a + b, id) == ChunksOf(a, id) + ChunksOf(b, id)
  {
    if b == [] {
      assert a + b == a;
    } else {
      var x := ChunkIn(Last(b), id);
      calc {
        ChunksOf(a + b, id);
        { assert a + b == (a + Init(b)) + [Last(b)]; Append(a + Init(b), Last(b), id); }
        ChunksOf(a + Init(b), id) + x;
        { ChunksConcat(a, Init(b), id); }
        (ChunksOf(a, id) + ChunksOf(Init(b), id)) + x;
        ChunksOf(a, id) + (ChunksOf(Init(b), id) + x);
        { assert b == Init(b) + [Last(b)]; Append(Init(b), Last(b), id); }
        ChunksOf(a, id) + ChunksOf(b, id);
      }
    }
  }

  lemma {:induction false} IdsConcat(a: seq<Frame>, b: seq<Frame>)
    ensures OpenIds(a + b) == OpenIds(a) + OpenIds(b)
    ensures AckIds(a + b) == AckIds(a) + AckIds(b)
  {
    if b == [] {
      assert a + b == a;
    } else {
      IdsConcat(a, Init(b));
      assert a + b == (a + Init(b)) + [Last(b)];
      AppendIds(a + Init(b), Last(b));
    }
  }

  /** A conversation in stage `x` may later be in stage `y`. */
  predicate Reaches(x: Stage, y: Stage) {
    x == y || x == Fresh || (x == Live && y == Closed)
  }

  /** What a prefix of a well-formed history can say. */
  lemma {:induction false} StagePrefix(a: seq<Frame>, b: seq<Frame>, id: Id)
    requires a <= b
    ensures StageOf(b, id) != Bad ==> StageOf(a, id) != Bad && Reaches(StageOf(a, id), StageOf(b, id))
    ensures ChunksOf(a, id) <= ChunksOf(b, id)
    decreases |b|
  {
    if |a| < |b| {
      assert b == Init(b) + [Last(b)];
      Append(Init(b), Last(b), id);
      StagePrefix(a, Init(b), id);
    } else {
      assert a == b;
    }
  }

  lemma IdsPrefix(a: seq<Frame>, b: seq<Frame>)
    requires a <= b
    ensures OpenIds(a) <= OpenIds(b)
    ensures AckIds(a) <= AckIds(b)
  {
    assert b == a + b[|a|..];
    IdsConcat(a, b[|a|..]);
  }

  lemma {:induction false} FreshIsSilent(frames: seq<Frame>, id: Id)
    requires StageOf(frames, id) == Fresh
    ensures ChunksOf(frames, id) == []
    ensures forall ok :: OpenAck(id, ok) !in frames
  {
    if frames != [] {
      FreshIsSilent(Init(frames), id);
      assert frames == Init(frames) + [Last(frames)];
    }
  }
}
