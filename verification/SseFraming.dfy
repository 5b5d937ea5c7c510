/**
 Framing of a server-sent event stream (WHATWG HTML Living Standard, section 9.2.5): bytes arrive
 in arbitrary chunks, line ends are normalised to LF, and a blank line ends a block. The three
 protocol decoders share this loop and differ in how they interpret a block, so a decoder here is
 a record of functions over its own state.
 */
module SseFraming {
  import opened Wrappers

  newtype byte = x: int | 0 <= x < 256

  type Bytes = seq<byte>

  const CR: byte := 13
  const LF: byte := 10

  // Line ends.

  /** The byte that the line end or byte at the front becomes, and how many bytes it was. */
  function Lead(b: Bytes): byte
    requires b != []
  {
    if b[0] == CR then LF else b[0]
  }

  function Width(b: Bytes): nat
    requires b != []
  {
    if b[0] == CR && |b| > 1 && b[1] == LF then 2 else 1
  }

  function NormalizeLines(b: Bytes): Bytes {
    if b == [] then [] else [Lead(b)] + NormalizeLines(b[Width(b)..])
  }

  /** The boundary between `a` and `b` falls inside a CR LF pair. */
  predicate SplitsPair(a: Bytes, b: Bytes) { a != [] && b != [] && a[|a| - 1] == CR && b[0] == LF }

  /** Normalising in two parts is normalising the whole, exactly when no CR LF pair is cut. */
  lemma {:induction false} NormalizeConcat(a: Bytes, b: Bytes)
    ensures |NormalizeLines(a)| + |NormalizeLines(b)| == |NormalizeLines(a + b)| + if SplitsPair(a, b) then 1 else 0
    ensures NormalizeLines(a + b) == NormalizeLines(a) + NormalizeLines(b) <==> !SplitsPair(a, b)
    decreases |a|
  {
    if a == [] {
      assert a + b == b;
    } else if a == [CR] {
      assert (a + b)[1..] == b && NormalizeLines(a) == [LF];
      if SplitsPair(a, b) {
        assert (a + b)[2..] == b[1..] && NormalizeLines(b) == [LF] + NormalizeLines(b[1..]);
      }
    } else {
      var rest := a[Width(a)..];
      assert (a + b)[Width(a)..] == rest + b;
      NormalizeConcat(rest, b);
      assert NormalizeLines(a + b) == [Lead(a)] + NormalizeLines(rest + b);
    }
  }

  lemma {:induction false} NormalizeHasNoCr(b: Bytes)
    ensures CR !in NormalizeLines(b)
    decreases |b|
  {
    if b != [] {
      NormalizeHasNoCr(b[Width(b)..]);
    }
  }

  lemma {:induction false} NormalizeIsIdentity(b: Bytes)
    requires CR !in b
    ensures NormalizeLines(b) == b
  {
    if b != [] {
      NormalizeIsIdentity(b[1..]);
    }
  }

  /** The copying normaliser of the Responses and Chat decoders. */
  method NormalizeCopying(buffer: Bytes) returns (normalized: Bytes)
    ensures normalized == NormalizeLines(buffer)
  {
    if CR !in buffer {
      NormalizeIsIdentity(buffer);
      return buffer;
    }
    normalized := [];
    var index := 0;
    while index < |buffer|
      invariant 0 <= index <= |buffer|
      invariant normalized + NormalizeLines(buffer[index..]) == NormalizeLines(buffer)
    {
      ghost var rest := buffer[index..];
      assert normalized + ([Lead(rest)] + NormalizeLines(rest[Width(rest)..]))
          == normalized + [Lead(rest)] + NormalizeLines(rest[Width(rest)..]);
      assert rest[Width(rest)..] == buffer[index + Width(rest)..];
      if buffer[index] == CR {
        normalized := normalized + [LF];
        if index + 1 < |buffer| && buffer[index + 1] == LF {
          index := index + 1;
        }
      } else {
        normalized := normalized + [buffer[index]];
      }
      index := index + 1;
    }
    assert normalized + NormalizeLines(buffer[index..]) == normalized;
  }

  /** The in-place normaliser of the Anthropic decoder: two indices over one buffer. */
  method NormalizeInPlace(buffer: array<byte>) returns (write: nat)
    modifies buffer
    ensures write <= buffer.Length && buffer[..write] == NormalizeLines(old(buffer[..]))
  {
    var read := 0;
    write := 0;
    while read < buffer.Length
      invariant write <= read <= buffer.Length
      invariant buffer[..write] + NormalizeLines(buffer[read..]) == NormalizeLines(old(buffer[..]))
    {
      ghost var done, rest := buffer[..write], buffer[read..];
      assert done + ([Lead(rest)] + NormalizeLines(rest[Width(rest)..]))
          == done + [Lead(rest)] + NormalizeLines(rest[Width(rest)..]);
      if buffer[read] == CR {
        var pair := read + 1 < buffer.Length && buffer[read + 1] == LF;
        buffer[write] := LF;
        read := read + if pair then 2 else 1;
      } else {
        buffer[write] := buffer[read];
        read := read + 1;
      }
      write := write + 1;
      assert buffer[..write] == done + [Lead(rest)];
      assert buffer[read..] == rest[Width(rest)..];
    }
    assert buffer[..write] + NormalizeLines(buffer[read..]) == buffer[..write];
  }

  // Blocks.

  /** The first position where a blank line starts. */
  function FindBlank(b: Bytes): (at: Option<nat>)
    ensures at.Some? ==> at.value + 2 <= |b| && b[at.value] == LF && b[at.value + 1] == LF
  {
    if |b| < 2 then None
    else if b[0] == LF && b[1] == LF then Some(0)
    else
      match FindBlank(b[1..])
      case None => None
      case Some(at) => Some(at + 1)
  }

  datatype Framed = Framed(blocks: seq<Bytes>, rest: Bytes)

  /** Cuts complete blocks off the front until no blank line is left. */
  function Split(b: Bytes): Framed
    decreases |b|
  {
    match FindBlank(b)
    case None => Framed([], b)
    case Some(at) =>
      var tail := Split(b[at + 2..]);
      Framed([b[..at + 2]] + tail.blocks, tail.rest)
  }

  lemma {:induction false} FindBlankInPrefix(a: Bytes, b: Bytes)
    requires FindBlank(a).Some?
    ensures FindBlank(a + b) == FindBlank(a)
  {
    if !(a[0] == LF && a[1] == LF) {
      assert (a + b)[1..] == a[1..] + b;
      FindBlankInPrefix(a[1..], b);
    }
  }

  /** One block in front of the framing of what follows it. */
  function Before(block: Bytes, framed: Framed): Framed { Framed([block] + framed.blocks, framed.rest) }

  lemma SplitStep(b: Bytes, at: nat)
    requires FindBlank(b) == Some(at)
    ensures Split(b) == Before(b[..at + 2], Split(b[at + 2..]))
  {
  }

  lemma SplitStepConcat(a: Bytes, b: Bytes, at: nat)
    requires FindBlank(a) == Some(at)
    ensures Split(a + b) == Before(a[..at + 2], Split(a[at + 2..] + b))
  {
    hide Split;
    FindBlankInPrefix(a, b);
    SplitStep(a + b, at);
    CutFirst(a, b, at + 2);
    hide FindBlank, Before;
  }

  lemma CutFirst(a: Bytes, b: Bytes, k: nat)
    requires k <= |a|
    ensures (a + b)[k..] == a[k..] + b && (a + b)[..k] == a[..k]
  {
  }

  /** The framing of a stream whose first part was already framed. */
  function Continue(first: Framed, second: Framed): Framed { Framed(first.blocks + second.blocks, second.rest) }

  lemma ContinueBefore(block: Bytes, first: Framed, second: Framed)
    ensures Continue(Before(block, first), second) == Before(block, Continue(first, second))
  {
  }

  /** Draining early and draining late cut the same blocks. */
  lemma {:induction false} SplitIsConfluent(a: Bytes, b: Bytes)
    ensures Split(a + b) == Continue(Split(a), Split(Split(a).rest + b))
    decreases |a|
  {
    if FindBlank(a).None? {
      assert Split(a) == Framed([], a) && [] + Split(a + b).blocks == Split(a + b).blocks;
    } else {
      var at := FindBlank(a).value;
      SplitStep(a, at);
      SplitStepConcat(a, b, at);
      SplitIsConfluent(a[at + 2..], b);
      ContinueBefore(a[..at + 2], Split(a[at + 2..]), Split(Split(a).rest + b));
    }
  }

  function Joined(parts: seq<Bytes>): Bytes { if parts == [] then [] else parts[0] + Joined(parts[1..]) }

  lemma JoinedBefore(block: Bytes, framed: Framed)
    ensures Joined(Before(block, framed).blocks) + framed.rest == block + (Joined(framed.blocks) + framed.rest)
  {
    assert Before(block, framed).blocks[1..] == framed.blocks;
  }

  /** Blocks and remainder put together again are the stream that was cut. */
  lemma {:induction false} SplitKeepsBytes(b: Bytes)
    ensures Joined(Split(b).blocks) + Split(b).rest == b
    ensures FindBlank(Split(b).rest).None?
    decreases |b|
  {
    if FindBlank(b).None? {
      assert Split(b) == Framed([], b);
    } else {
      var at := FindBlank(b).value;
      SplitStep(b, at);
      SplitKeepsBytes(b[at + 2..]);
      JoinedBefore(b[..at + 2], Split(b[at + 2..]));
    }
  }

  // Decoders.

  /**
   One decoder: how a block changes its state and which events it yields, what closing the stream
   does, and the bound on buffered bytes.
   */
  datatype Decoder<!S, !E, !F> = Decoder(
    parse: (S, Bytes) -> Result<(S, seq<E>), F>,
    close: S -> Result<(S, seq<E>), F>,
    limit: nat,
    overflow: F)

  datatype Stream<S> = Stream(buffer: Bytes, state: S)

  /** A result whose events come after `events`. */
  function After<S, E, F>(events: seq<E>, r: Result<(S, seq<E>), F>): Result<(S, seq<E>), F> {
    match r
    case Err(e) => Err(e)
    case Ok(t) => Ok((t.0, events + t.1))
  }

  lemma AfterTwice<S, E, F>(a: seq<E>, b: seq<E>, r: Result<(S, seq<E>), F>)
    ensures After(a, After(b, r)) == After(a + b, r)
  {
    if r.Ok? {
      assert a + (b + r.value.1) == a + b + r.value.1;
    }
  }

  lemma AfterNothing<S, E, F>(r: Result<(S, seq<E>), F>)
    ensures After([], r) == r
  {
    if r.Ok? {
      assert [] + r.value.1 == r.value.1;
    }
  }

  function Feed<S, E, F>(d: Decoder<S, E, F>, state: S, blocks: seq<Bytes>): Result<(S, seq<E>), F> {
    if blocks == [] then Ok((state, [])) else
    match d.parse(state, blocks[0])
    case Err(e) => Err(e)
    case Ok(head) => After(head.1, Feed(d, head.0, blocks[1..]))
  }

  function Push<S, E, F>(d: Decoder<S, E, F>, s: Stream<S>, data: Bytes): Result<(Stream<S>, seq<E>), F> {
    if |s.buffer| + |data| > d.limit then Err(d.overflow) else
    var framed := Split(NormalizeLines(s.buffer + data));
    match Feed(d, s.state, framed.blocks)
    case Err(e) => Err(e)
    case Ok(fed) => Ok((Stream(framed.rest, fed.0), fed.1))
  }

  /** Flushes the unterminated last block, if any, and closes the stream. */
  function Finish<S, E, F>(d: Decoder<S, E, F>, s: Stream<S>): Result<(S, seq<E>), F> {
    match Feed(d, s.state, if s.buffer == [] then [] else [s.buffer])
    case Err(e) => Err(e)
    case Ok(fed) => After(fed.1, d.close(fed.0))
  }

  /** Every chunk pushed, then the stream finished: final state and all events, or the failure. */
  function Decode<S, E, F>(d: Decoder<S, E, F>, s: Stream<S>, chunks: seq<Bytes>): Result<(S, seq<E>), F>
    decreases |chunks|
  {
    if chunks == [] then Finish(d, s) else
    match Push(d, s, chunks[0])
    case Err(e) => Err(e)
    case Ok(head) => After(head.1, Decode(d, head.0, chunks[1..]))
  }

  /** The blocks of a framed stream, then its remainder. */
  function DecodeFramed<S, E, F>(d: Decoder<S, E, F>, state: S, framed: Framed): Result<(S, seq<E>), F> {
    match Feed(d, state, framed.blocks)
    case Err(e) => Err(e)
    case Ok(head) => After(head.1, Finish(d, Stream(framed.rest, head.0)))
  }

  lemma {:induction false} FeedConcat<S, E, F>(d: Decoder<S, E, F>, state: S, a: seq<Bytes>, framed: Framed)
    ensures DecodeFramed(d, state, Framed(a + framed.blocks, framed.rest)) ==
      match Feed(d, state, a)
      case Err(e) => Err(e)
      case Ok(head) => After(head.1, DecodeFramed(d, head.0, framed))
    decreases |a|
  {
    var blocks := a + framed.blocks;
    if a == [] {
      assert blocks == framed.blocks;
      AfterNothing(DecodeFramed(d, state, framed));
    } else {
      assert blocks[1..] == a[1..] + framed.blocks && blocks[0] == a[0];
      var first := d.parse(state, a[0]);
      if first.Ok? {
        var next, events := first.value.0, first.value.1;
        FeedConcat(d, next, a[1..], framed);
        DecodeFramedStep(d, state, blocks, framed.rest);
        var rest := Feed(d, next, a[1..]);
        if rest.Ok? {
          AfterTwice(events, rest.value.1, DecodeFramed(d, rest.value.0, framed));
        }
      }
    }
  }

  lemma DecodeFramedStep<S, E, F>(d: Decoder<S, E, F>, state: S, blocks: seq<Bytes>, rest: Bytes)
    requires blocks != [] && d.parse(state, blocks[0]).Ok?
    ensures var first := d.parse(state, blocks[0]).value;
            DecodeFramed(d, state, Framed(blocks, rest))
                == After(first.1, DecodeFramed(d, first.0, Framed(blocks[1..], rest)))
  {
    var first := d.parse(state, blocks[0]).value;
    var fed := Feed(d, first.0, blocks[1..]);
    if fed.Ok? {
      AfterTwice(first.1, fed.value.1, Finish(d, Stream(rest, fed.value.0)));
    }
  }

  /** No chunk boundary falls inside a CR LF pair. */
  predicate KeepsPairs(chunks: seq<Bytes>) {
    chunks == [] || (!SplitsPair(chunks[0], Joined(chunks[1..])) && KeepsPairs(chunks[1..]))
  }

  /** The chunks after separate normalisation, joined: what the decoder really frames. */
  function NormalizedChunks(chunks: seq<Bytes>): Bytes {
    if chunks == [] then [] else NormalizeLines(chunks[0]) + NormalizedChunks(chunks[1..])
  }

  /** The buffer bound is respected at every push. */
  predicate Fits(limit: nat, buffer: Bytes, chunks: seq<Bytes>)
    decreases |chunks|
  {
    chunks == [] ||
    (|buffer| + |chunks[0]| <= limit && Fits(limit, Split(buffer + NormalizeLines(chunks[0])).rest, chunks[1..]))
  }

  /** Chunk-wise normalisation is normalisation of the whole stream exactly when no pair is cut. */
  lemma {:induction false} NormalizedChunksIff(chunks: seq<Bytes>)
    ensures |NormalizedChunks(chunks)| >= |NormalizeLines(Joined(chunks))|
    ensures |NormalizedChunks(chunks)| == |NormalizeLines(Joined(chunks))| <==> KeepsPairs(chunks)
    ensures NormalizedChunks(chunks) == NormalizeLines(Joined(chunks)) <==> KeepsPairs(chunks)
  {
    if chunks != [] {
      NormalizedChunksIff(chunks[1..]);
      NormalizeConcat(chunks[0], Joined(chunks[1..]));
    }
  }

  lemma DecodeRemainder<S, E, F>(d: Decoder<S, E, F>, s: Stream<S>)
    requires FindBlank(s.buffer).None?
    ensures DecodeFramed(d, s.state, Split(s.buffer)) == Finish(d, s)
  {
    AfterNothing(Finish(d, s));
  }

  /** The first push frames the buffer with its chunk normalised, and keeps the buffer's shape. */
  lemma DecodePush<S, E, F>(d: Decoder<S, E, F>, s: Stream<S>, chunks: seq<Bytes>, framed: Framed)
    requires chunks != [] && CR !in s.buffer && Fits(d.limit, s.buffer, chunks)
    requires framed == Split(s.buffer + NormalizeLines(chunks[0]))
    ensures Decode(d, s, chunks) ==
              match Feed(d, s.state, framed.blocks)
              case Err(e) => Err(e)
              case Ok(fed) => After(fed.1, Decode(d, Stream(framed.rest, fed.0), chunks[1..]))
    ensures CR !in framed.rest && FindBlank(framed.rest).None? && Fits(d.limit, framed.rest, chunks[1..])
  {
    PushFrames(s.buffer, chunks[0]);
  }

  lemma SplitThreeParts(buffer: Bytes, first: Bytes, later: Bytes)
    ensures var framed := Split(buffer + first);
            Split(buffer + (first + later)) == Continue(framed, Split(framed.rest + later))
  {
    assert buffer + (first + later) == buffer + first + later;
    SplitIsConfluent(buffer + first, later);
  }

  /** The in-bounds run of any chunking is the run of its normalised bytes cut at once. */
  lemma {:induction false} DecodeIsWhole<S, E, F>(d: Decoder<S, E, F>, s: Stream<S>, chunks: seq<Bytes>)
    requires CR !in s.buffer && FindBlank(s.buffer).None? && Fits(d.limit, s.buffer, chunks)
    ensures Decode(d, s, chunks) == DecodeFramed(d, s.state, Split(s.buffer + NormalizedChunks(chunks)))
    decreases |chunks|, 1
  {
    if chunks == [] {
      assert s.buffer + NormalizedChunks(chunks) == s.buffer;
      DecodeRemainder(d, s);
    } else {
      var framed := Split(s.buffer + NormalizeLines(chunks[0]));
      DecodePush(d, s, chunks, framed);
      SplitThreeParts(s.buffer, NormalizeLines(chunks[0]), NormalizedChunks(chunks[1..]));
      DecodeLater(d, s.state, framed, chunks[1..]);
    }
  }

  lemma {:induction false} DecodeLater<S, E, F>(d: Decoder<S, E, F>, state: S, framed: Framed, chunks: seq<Bytes>)
    requires CR !in framed.rest && FindBlank(framed.rest).None? && Fits(d.limit, framed.rest, chunks)
    ensures DecodeFramed(d, state, Continue(framed, Split(framed.rest + NormalizedChunks(chunks)))) ==
              match Feed(d, state, framed.blocks)
              case Err(e) => Err(e)
              case Ok(fed) => After(fed.1, Decode(d, Stream(framed.rest, fed.0), chunks))
    decreases |chunks|, 2
  {
    FeedConcat(d, state, framed.blocks, Split(framed.rest + NormalizedChunks(chunks)));
    var fed := Feed(d, state, framed.blocks);
    if fed.Ok? {
      DecodeIsWhole(d, Stream(framed.rest, fed.value.0), chunks);
    }
  }

  /** Renormalising the buffer changes nothing, and what stays buffered is normalised and has no blank line. */
  lemma PushFrames(buffer: Bytes, data: Bytes)
    requires CR !in buffer
    ensures NormalizeLines(buffer + data) == buffer + NormalizeLines(data)
    ensures var rest := Split(buffer + NormalizeLines(data)).rest; CR !in rest && FindBlank(rest).None?
  {
    NormalizeIsIdentity(buffer);
    NormalizeConcat(buffer, data);
    NormalizeHasNoCr(data);
    var framed := Split(buffer + NormalizeLines(data));
    SplitKeepsBytes(buffer + NormalizeLines(data));
    forall x | x in framed.rest ensures x in buffer + NormalizeLines(data) {
      assert x in Joined(framed.blocks) + framed.rest;
    }
  }

  /**
   Chunking invariance: two chunkings of the same bytes that cut no CR LF pair and stay within the
   buffer bound give the same events and final state, or the same failure.
   */
  lemma {:induction false} ChunkingInvariance<S, E, F>(d: Decoder<S, E, F>, state: S, xs: seq<Bytes>, ys: seq<Bytes>)
    requires Joined(xs) == Joined(ys) && KeepsPairs(xs) && KeepsPairs(ys)
    requires Fits(d.limit, [], xs) && Fits(d.limit, [], ys)
    ensures Decode(d, Stream([], state), xs) == Decode(d, Stream([], state), ys)
  {
    DecodeIsWhole(d, Stream([], state), xs);
    DecodeIsWhole(d, Stream([], state), ys);
    NormalizedChunksIff(xs);
    NormalizedChunksIff(ys);
    assert [] + NormalizedChunks(xs) == NormalizedChunks(xs) && [] + NormalizedChunks(ys) == NormalizedChunks(ys);
  }

  /**
   The pair hypothesis is exact: the blocks a chunking is framed into are those of the whole stream
   if and only if no chunk boundary falls inside a CR LF pair.
   */
  lemma {:induction false} FramesAgreeIffPairsAreKept(chunks: seq<Bytes>)
    ensures Split(NormalizedChunks(chunks)) == Split(NormalizeLines(Joined(chunks))) <==> KeepsPairs(chunks)
  {
    NormalizedChunksIff(chunks);
    SplitKeepsBytes(NormalizedChunks(chunks));
    SplitKeepsBytes(NormalizeLines(Joined(chunks)));
  }

  /** A cut pair ends a block that the unbroken stream does not end. */
  lemma CutPairEndsABlock()
    ensures Split(NormalizedChunks([[CR, LF]])).blocks == []
    ensures Split(NormalizedChunks([[CR], [LF]])).blocks == [[LF, LF]]
  {
    assert NormalizeLines([CR, LF]) == [LF] + NormalizeLines([CR, LF][2..]);
    assert NormalizeLines([CR]) == [LF] + NormalizeLines([CR][1..])
        && NormalizeLines([LF]) == [LF] + NormalizeLines([LF][1..]);
    assert NormalizedChunks([[CR, LF]]) == [LF] + NormalizedChunks([[CR, LF]][1..]);
    assert [[CR], [LF]][1..] == [[LF]] && NormalizedChunks([[LF]]) == [LF] + NormalizedChunks([[LF]][1..]);
    assert NormalizedChunks([[CR], [LF]]) == [LF] + [LF] == [LF, LF];
    assert FindBlank([LF, LF]) == Some(0) && [LF, LF][2..] == [] && [LF, LF][..2] == [LF, LF];
    SplitStep([LF, LF], 0);
    assert Split([LF, LF][2..]).blocks == [];
    assert Split([LF, LF]).blocks == [[LF, LF]];
  }

  lemma {:induction false} SplitRestIsShort(b: Bytes)
    ensures |Split(b).rest| <= |b|
    decreases |b|
  {
    match FindBlank(b)
    case None =>
    case Some(at) => SplitRestIsShort(b[at + 2..]);
  }

  lemma {:induction false} NormalizeIsShort(b: Bytes)
    ensures |NormalizeLines(b)| <= |b|
    decreases |b|
  {
    if b != [] {
      NormalizeIsShort(b[Width(b)..]);
    }
  }

  /** A stream no longer than the bound fits however it is cut. */
  lemma {:induction false} ShortStreamsFit(limit: nat, buffer: Bytes, chunks: seq<Bytes>)
    requires |buffer| + |Joined(chunks)| <= limit
    ensures Fits(limit, buffer, chunks)
    decreases |chunks|
  {
    if chunks != [] {
      NormalizeIsShort(chunks[0]);
      SplitRestIsShort(buffer + NormalizeLines(chunks[0]));
      ShortStreamsFit(limit, Split(buffer + NormalizeLines(chunks[0])).rest, chunks[1..]);
    }
  }

  /** What a caller can check: a stream no longer than the bound decodes alike in all chunkings that cut no pair. */
  lemma ShortStreamsDecodeAlike<S, E, F>(d: Decoder<S, E, F>, state: S, xs: seq<Bytes>, ys: seq<Bytes>)
    requires Joined(xs) == Joined(ys) && |Joined(xs)| <= d.limit && KeepsPairs(xs) && KeepsPairs(ys)
    ensures Decode(d, Stream([], state), xs) == Decode(d, Stream([], state), ys)
  {
    ShortStreamsFit(d.limit, [], xs);
    ShortStreamsFit(d.limit, [], ys);
    ChunkingInvariance(d, state, xs, ys);
  }

  // What holds of every block holds of every decoded stream.

  /** `rel(s, t, events)`: the decoder may go from `s` to `t` while yielding `events`. */
  ghost predicate Composes<S(!new), E(!new)>(rel: (S, S, seq<E>) -> bool) {
    && (forall s :: rel(s, s, []))
    && (forall s, t, u, a, b :: rel(s, t, a) && rel(t, u, b) ==> rel(s, u, a + b))
  }

  ghost predicate Steps<S(!new), E, F>(d: Decoder<S, E, F>, rel: (S, S, seq<E>) -> bool) {
    && (forall s, block :: d.parse(s, block).Ok? ==> rel(s, d.parse(s, block).value.0, d.parse(s, block).value.1))
    && (forall s :: d.close(s).Ok? ==> rel(s, d.close(s).value.0, d.close(s).value.1))
  }

  lemma {:induction false} FeedSteps<S(!new), E(!new), F>(d: Decoder<S, E, F>, rel: (S, S, seq<E>) -> bool, state: S,
      blocks: seq<Bytes>)
    requires Composes(rel) && Steps(d, rel) && Feed(d, state, blocks).Ok?
    ensures rel(state, Feed(d, state, blocks).value.0, Feed(d, state, blocks).value.1)
  {
    if blocks != [] {
      FeedSteps(d, rel, d.parse(state, blocks[0]).value.0, blocks[1..]);
    }
  }

  lemma {:induction false} DecodeSteps<S(!new), E(!new), F>(d: Decoder<S, E, F>, rel: (S, S, seq<E>) -> bool,
      s: Stream<S>, chunks: seq<Bytes>)
    requires Composes(rel) && Steps(d, rel) && Decode(d, s, chunks).Ok?
    ensures rel(s.state, Decode(d, s, chunks).value.0, Decode(d, s, chunks).value.1)
    decreases |chunks|
  {
    if chunks == [] {
      FeedSteps(d, rel, s.state, if s.buffer == [] then [] else [s.buffer]);
    } else {
      FeedSteps(d, rel, s.state, Split(NormalizeLines(s.buffer + chunks[0])).blocks);
      DecodeSteps(d, rel, Push(d, s, chunks[0]).value.0, chunks[1..]);
    }
  }

  lemma FeedOne<S, E, F>(d: Decoder<S, E, F>, state: S, block: Bytes)
    ensures Feed(d, state, [block]) == d.parse(state, block)
  {
    assert [block][1..] == [];
    if d.parse(state, block).Ok? {
      assert d.parse(state, block).value.1 + [] == d.parse(state, block).value.1;
    }
  }

  // What a decoded stream was fed.

  /** The blocks a chunking is framed into, the last of them unended. */
  function RawBlocks(chunks: seq<Bytes>): seq<Bytes> {
    var framed := Split(NormalizedChunks(chunks));
    framed.blocks + if framed.rest == [] then [] else [framed.rest]
  }

  function ReadAll<T>(read: Bytes -> T, blocks: seq<Bytes>): seq<T> {
    if blocks == [] then [] else [read(blocks[0])] + ReadAll(read, blocks[1..])
  }

  function BlocksOf<T>(read: Bytes -> T, chunks: seq<Bytes>): seq<T> { ReadAll(read, RawBlocks(chunks)) }

  lemma {:induction false} DecodedFits<S, E, F>(d: Decoder<S, E, F>, s: Stream<S>, chunks: seq<Bytes>)
    requires CR !in s.buffer && FindBlank(s.buffer).None? && Decode(d, s, chunks).Ok?
    ensures Fits(d.limit, s.buffer, chunks)
    decreases |chunks|
  {
    if chunks != [] {
      PushKeepsBuffer(d, s, chunks[0]);
      DecodedFits(d, Push(d, s, chunks[0]).value.0, chunks[1..]);
    }
  }

  lemma PushKeepsBuffer<S, E, F>(d: Decoder<S, E, F>, s: Stream<S>, chunk: Bytes)
    requires CR !in s.buffer && FindBlank(s.buffer).None? && Push(d, s, chunk).Ok?
    ensures |s.buffer| + |chunk| <= d.limit
    ensures var next := Push(d, s, chunk).value.0.buffer;
            next == Split(s.buffer + NormalizeLines(chunk)).rest && CR !in next && FindBlank(next).None?
  {
    PushFrames(s.buffer, chunk);
    hide Split, NormalizeLines, FindBlank;
  }

  lemma {:induction false} FeedBoth<S, E, F>(d: Decoder<S, E, F>, s: S, x: seq<Bytes>, y: seq<Bytes>)
    ensures var first := Feed(d, s, x);
            && (Feed(d, s, x + y).Ok? <==> first.Ok? && Feed(d, first.value.0, y).Ok?)
            && (Feed(d, s, x + y).Ok? ==> Feed(d, s, x + y) == After(first.value.1, Feed(d, first.value.0, y)))
    decreases |x|
  {
    if x == [] {
      assert x + y == y;
      AfterNothing(Feed(d, s, y));
    } else {
      assert (x + y)[0] == x[0] && (x + y)[1..] == x[1..] + y;
      var head := d.parse(s, x[0]);
      if head.Ok? {
        FeedBoth(d, head.value.0, x[1..], y);
        var rest := Feed(d, head.value.0, x[1..]);
        if rest.Ok? {
          AfterTwice(head.value.1, rest.value.1, Feed(d, rest.value.0, y));
        }
      }
    }
  }

  /**
   A chunking decodes exactly when it stays within the bound, every block of its framing is accepted and the
   stream may be closed then; and the outcome is that of feeding all those blocks, and closing.
   */
  lemma DecodesIff<S, E, F>(d: Decoder<S, E, F>, state: S, chunks: seq<Bytes>)
    ensures var fed := Feed(d, state, RawBlocks(chunks)); var decoded := Decode(d, Stream([], state), chunks);
            && (decoded.Ok? <==> Fits(d.limit, [], chunks) && fed.Ok? && d.close(fed.value.0).Ok?)
            && (decoded.Ok? ==> decoded == After(fed.value.1, d.close(fed.value.0)))
  {
    assert FindBlank([]).None?;
    if Decode(d, Stream([], state), chunks).Ok? {
      DecodedFits(d, Stream([], state), chunks);
    }
    if Fits(d.limit, [], chunks) {
      DecodeIsWhole(d, Stream([], state), chunks);
      assert [] + NormalizedChunks(chunks) == NormalizedChunks(chunks);
      FramedFeeds(d, state, Split(NormalizedChunks(chunks)));
      hide Split, NormalizedChunks, Fits, Feed, DecodeFramed;
    }
  }

  lemma FramedFeeds<S, E, F>(d: Decoder<S, E, F>, state: S, framed: Framed)
    ensures var fed := Feed(d, state, framed.blocks + if framed.rest == [] then [] else [framed.rest]);
            && (DecodeFramed(d, state, framed).Ok? <==> fed.Ok? && d.close(fed.value.0).Ok?)
            && (DecodeFramed(d, state, framed).Ok? ==>
                  DecodeFramed(d, state, framed) == After(fed.value.1, d.close(fed.value.0)))
  {
    var tail: seq<Bytes> := if framed.rest == [] then [] else [framed.rest];
    FeedBoth(d, state, framed.blocks, tail);
    var first := Feed(d, state, framed.blocks);
    if first.Ok? {
      var second := Feed(d, first.value.0, tail);
      if second.Ok? {
        AfterTwice(first.value.1, second.value.1, d.close(second.value.0));
      }
    }
    hide Feed;
  }

  /**
   The decoder as it runs: a byte buffer filled by each chunk and drained block by block. The Anthropic
   decoder normalises its buffer in place, the other two copy it.
   */
  class SseStream<S, E, F> {
    const decoder: Decoder<S, E, F>
    const inPlace: bool
    var buffer: Bytes
    var state: S

    constructor (decoder: Decoder<S, E, F>, state: S, inPlace: bool)
      ensures this.decoder == decoder && buffer == [] && this.state == state && this.inPlace == inPlace
    {
      this.decoder, this.inPlace, buffer, this.state := decoder, inPlace, [], state;
    }

    method NormalizeBuffer()
      modifies this`buffer
      ensures buffer == NormalizeLines(old(buffer))
    {
      if inPlace {
        var bytes := new byte[|buffer|](i requires 0 <= i < |buffer| reads this => buffer[i]);
        assert bytes[..] == buffer;
        var length := NormalizeInPlace(bytes);
        buffer := bytes[..length];
      } else {
        buffer := NormalizeCopying(buffer);
      }
    }

    /** After an error the source drops the decoder, so only the error is specified then. */
    method PushChunk(data: Bytes) returns (r: Result<seq<E>, F>)
      modifies this
      ensures match Push(decoder, old(Stream(buffer, state)), data)
              case Err(e) => r == Err(e)
              case Ok(next) => r == Ok(next.1) && Stream(buffer, state) == next.0
    {
      if |buffer| + |data| > decoder.limit {
        return Err(decoder.overflow);
      }
      buffer := buffer + data;
      NormalizeBuffer();
      ghost var whole, start := buffer, state;
      var events: seq<E> := [];
      AfterNothing(Feed(decoder, state, Split(buffer).blocks));
      while FindBlank(buffer).Some?
        invariant Split(buffer).rest == Split(whole).rest
        invariant Feed(decoder, start, Split(whole).blocks) == After(events, Feed(decoder, state, Split(buffer).blocks))
        decreases |buffer|
      {
        var at := FindBlank(buffer).value;
        SplitStep(buffer, at);
        ghost var tail := Split(buffer[at + 2..]);
        assert Split(buffer).blocks[1..] == tail.blocks;
        var block := buffer[..at + 2];
        buffer := buffer[at + 2..];
        var parsed := decoder.parse(state, block);
        if parsed.Err? {
          return Err(parsed.error);
        }
        AfterTwice(events, parsed.value.1, Feed(decoder, parsed.value.0, tail.blocks));
        state := parsed.value.0;
        events := events + parsed.value.1;
      }
      assert events + [] == events;
      return Ok(events);
    }

    method FinishStream() returns (r: Result<seq<E>, F>)
      modifies this
      ensures match Finish(decoder, old(Stream(buffer, state)))
              case Err(e) => r == Err(e)
              case Ok(next) => r == Ok(next.1) && buffer == [] && state == next.0
    {
      var events: seq<E> := [];
      if buffer != [] {
        var block := buffer;
        buffer := [];
        FeedOne(decoder, state, block);
        var parsed := decoder.parse(state, block);
        if parsed.Err? {
          return Err(parsed.error);
        }
        state, events := parsed.value.0, parsed.value.1;
      }
      var closed := decoder.close(state);
      if closed.Err? {
        return Err(closed.error);
      }
      state := closed.value.0;
      return Ok(events + closed.value.1);
    }
  }
}
