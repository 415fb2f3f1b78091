/** Embedding a generation's chunks in bounded provider batches. */
module Embedding {
  import opened Prelude

  type Vector = seq<real>

  datatype ChunkForEmbedding = ChunkForEmbedding(id: Uuid, text: string)

  datatype ChunkEmbedding = ChunkEmbedding(chunkId: Uuid, values: Vector)

  datatype EmbeddingError = ProviderFailed | VectorCountMismatch

  /** One provider call: the vectors for a batch of texts, or an error. */
  type Provider = seq<string> -> Result<seq<Vector>, EmbeddingError>

  function Texts(batch: seq<ChunkForEmbedding>): (texts: seq<string>)
    ensures |texts| == |batch| && forall i :: 0 <= i < |batch| ==> texts[i] == batch[i].text
  {
    seq(|batch|, i requires 0 <= i < |batch| => batch[i].text)
  }

  function Zip(batch: seq<ChunkForEmbedding>, vectors: seq<Vector>): (paired: seq<ChunkEmbedding>)
    requires |batch| == |vectors|
    ensures |paired| == |batch| && forall i :: 0 <= i < |batch| ==> paired[i] == ChunkEmbedding(batch[i].id, vectors[i])
  {
    seq(|batch|, i requires 0 <= i < |batch| => ChunkEmbedding(batch[i].id, vectors[i]))
  }

  function BatchEnd(chunks: seq<ChunkForEmbedding>, offset: nat, batchSize: nat): (end: nat)
    requires offset < |chunks| && batchSize > 0
    ensures offset < end <= |chunks| && (end == offset + batchSize || (end == |chunks| && end < offset + batchSize))
  {
    if offset + batchSize < |chunks| then offset + batchSize else |chunks|
  }

  /** The embeddings of the chunks from `offset` on: all of them, or the first error. */
  function EmbedFrom(chunks: seq<ChunkForEmbedding>, offset: nat, batchSize: nat,
                     provider: Provider): Result<seq<ChunkEmbedding>, EmbeddingError>
    requires batchSize > 0 && offset <= |chunks|
    decreases |chunks| - offset
  {
    if offset == |chunks| then Ok([])
    else
      var end := BatchEnd(chunks, offset, batchSize);
      var batch := chunks[offset..end];
      match provider(Texts(batch))
      case Err(e) => Err(e)
      case Ok(vectors) =>
        if |vectors| != |batch| then Err(VectorCountMismatch)
        else Prefixed(Zip(batch, vectors), EmbedFrom(chunks, end, batchSize, provider))
  }

  function Prefixed(done: seq<ChunkEmbedding>,
                    rest: Result<seq<ChunkEmbedding>, EmbeddingError>): Result<seq<ChunkEmbedding>, EmbeddingError> {
    match rest
    case Ok(more) => Ok(done + more)
    case Err(e) => Err(e)
  }

  lemma PrefixedTwice(a: seq<ChunkEmbedding>, b: seq<ChunkEmbedding>, rest: Result<seq<ChunkEmbedding>, EmbeddingError>)
    ensures Prefixed(a, Prefixed(b, rest)) == Prefixed(a + b, rest)
    ensures Prefixed([], rest) == rest
  {
    if rest.Ok? {
      assert a + (b + rest.value) == (a + b) + rest.value;
      assert [] + rest.value == rest.value;
    }
  }

  method EmbedChunks(chunks: seq<ChunkForEmbedding>, batchSize: nat, provider: Provider)
    returns (r: Result<seq<ChunkEmbedding>, EmbeddingError>)
    requires batchSize > 0
    ensures r == EmbedFrom(chunks, 0, batchSize, provider)
  {
    var result := [];
    var offset := 0;
    PrefixedTwice([], [], EmbedFrom(chunks, 0, batchSize, provider));
    while offset < |chunks|
      invariant 0 <= offset <= |chunks|
      invariant EmbedFrom(chunks, 0, batchSize, provider) == Prefixed(result, EmbedFrom(chunks, offset, batchSize, provider))
    {
      var end := BatchEnd(chunks, offset, batchSize);
      var batch := chunks[offset..end];
      match provider(Texts(batch)) {
        case Err(e) => return Err(e);
        case Ok(vectors) =>
          if |vectors| != |batch| {
            return Err(VectorCountMismatch);
          }
          var paired := Zip(batch, vectors);
          PrefixedTwice(result, paired, EmbedFrom(chunks, end, batchSize, provider));
          result := result + paired;
      }
      offset := end;
    }
    assert result + [] == result;
    return Ok(result);
  }

  /** The embedder gives every text its own vector, whatever else is in the batch. */
  ghost predicate Pointwise(provider: Provider, embed: string -> Vector) {
    forall texts: seq<string> ::
      provider(texts).Ok? && |provider(texts).value| == |texts|
      && forall i :: 0 <= i < |texts| ==> provider(texts).value[i] == embed(texts[i])
  }

  /** `r` gives each of `chunks` its own vector, in order. */
  ghost predicate EachItsOwn(r: seq<ChunkEmbedding>, chunks: seq<ChunkForEmbedding>, embed: string -> Vector) {
    |r| == |chunks| && forall i :: 0 <= i < |r| ==> r[i] == ChunkEmbedding(chunks[i].id, embed(chunks[i].text))
  }

  lemma EachItsOwnJoins(a: seq<ChunkEmbedding>, b: seq<ChunkEmbedding>, chunks: seq<ChunkForEmbedding>, n: nat,
                        embed: string -> Vector)
    requires n <= |chunks| && EachItsOwn(a, chunks[..n], embed) && EachItsOwn(b, chunks[n..], embed)
    ensures EachItsOwn(a + b, chunks, embed)
  {
  }

  lemma BatchIsPointwise(batch: seq<ChunkForEmbedding>, provider: Provider, embed: string -> Vector)
    requires Pointwise(provider, embed)
    ensures var r := provider(Texts(batch)); r.Ok? && |r.value| == |batch| && EachItsOwn(Zip(batch, r.value), batch, embed)
  {
  }

  /** Batching is invisible: whatever the batch size, every chunk gets the vector of its own text. */
  lemma {:induction false} BatchingIsInvisible(chunks: seq<ChunkForEmbedding>, offset: nat, batchSize: nat,
                                               provider: Provider, embed: string -> Vector)
    requires batchSize > 0 && offset <= |chunks| && Pointwise(provider, embed)
    ensures var r := EmbedFrom(chunks, offset, batchSize, provider); r.Ok? && EachItsOwn(r.value, chunks[offset..], embed)
    decreases |chunks| - offset
  {
    if offset < |chunks| {
      var end := BatchEnd(chunks, offset, batchSize);
      var batch := chunks[offset..end];
      BatchingIsInvisible(chunks, end, batchSize, provider, embed);
      BatchIsPointwise(batch, provider, embed);
      var rest := EmbedFrom(chunks, end, batchSize, provider).value;
      assert EmbedFrom(chunks, offset, batchSize, provider) == Ok(Zip(batch, provider(Texts(batch)).value) + rest);
      hide EmbedFrom, EachItsOwn, Pointwise, Texts, Zip;
      assert chunks[offset..][..end - offset] == batch && chunks[offset..][end - offset..] == chunks[end..];
      EachItsOwnJoins(Zip(batch, provider(Texts(batch)).value), rest, chunks[offset..], end - offset, embed);
    }
  }

  /** Partial success is impossible with any provider: embeddings come one per chunk, in order. */
  lemma {:induction false} AllOrNothing(chunks: seq<ChunkForEmbedding>, offset: nat, batchSize: nat, provider: Provider)
    requires batchSize > 0 && offset <= |chunks|
    ensures var r := EmbedFrom(chunks, offset, batchSize, provider);
            r.Ok? ==> |r.value| == |chunks| - offset && forall i :: 0 <= i < |r.value| ==>
                r.value[i].chunkId == chunks[offset + i].id
    decreases |chunks| - offset
  {
    if offset < |chunks| {
      AllOrNothing(chunks, BatchEnd(chunks, offset, batchSize), batchSize, provider);
    }
  }

  // ---------------------------------------------------------------- which batches are sent

  /** Consecutive slices of `batchSize` chunks; the last one may be shorter. */
  function Slices(chunks: seq<ChunkForEmbedding>, batchSize: nat): (slices: seq<seq<ChunkForEmbedding>>)
    requires batchSize > 0
  {
    if |chunks| <= batchSize then (if chunks == [] then [] else [chunks])
    else [chunks[..batchSize]] + Slices(chunks[batchSize..], batchSize)
  }

  function Concat(slices: seq<seq<ChunkForEmbedding>>): seq<ChunkForEmbedding> {
    if slices == [] then [] else slices[0] + Concat(slices[1..])
  }

  /** The slices make up the chunks, and all but the last hold exactly `batchSize` of them. */
  lemma {:induction false} SlicesAreFull(chunks: seq<ChunkForEmbedding>, batchSize: nat)
    requires batchSize > 0
    ensures var slices := Slices(chunks, batchSize);
            && Concat(slices) == chunks
            && forall i :: 0 <= i < |slices| ==>
                 0 < |slices[i]| <= batchSize && (i < |slices| - 1 ==> |slices[i]| == batchSize)
  {
    if |chunks| > batchSize {
      SlicesAreFull(chunks[batchSize..], batchSize);
      assert chunks == chunks[..batchSize] + chunks[batchSize..];
      assert Slices(chunks, batchSize)[1..] == Slices(chunks[batchSize..], batchSize);
    } else if chunks != [] {
      assert [chunks][1..] == [];
    }
  }

  /** The provider answers the slice with one vector for each of its texts. */
  predicate Answered(slice: seq<ChunkForEmbedding>, provider: Provider) {
    var reply := provider(Texts(slice));
    reply.Ok? && |reply.value| == |slice|
  }

  predicate AllAnswered(slices: seq<seq<ChunkForEmbedding>>, provider: Provider) {
    forall i :: 0 <= i < |slices| ==> Answered(slices[i], provider)
  }

  /** The replies for the slices, one after the other. */
  function Replies(slices: seq<seq<ChunkForEmbedding>>, provider: Provider): seq<ChunkEmbedding>
    requires AllAnswered(slices, provider)
  {
    if slices == [] then []
    else Zip(slices[0], provider(Texts(slices[0])).value) + Replies(slices[1..], provider)
  }

  lemma AnsweredStep(slice: seq<ChunkForEmbedding>, rest: seq<seq<ChunkForEmbedding>>, provider: Provider)
    ensures AllAnswered([slice] + rest, provider) <==> Answered(slice, provider) && AllAnswered(rest, provider)
    ensures AllAnswered([slice] + rest, provider) ==>
              Replies([slice] + rest, provider) == Zip(slice, provider(Texts(slice)).value) + Replies(rest, provider)
  {
    hide Answered;
    var slices := [slice] + rest;
    assert slices[0] == slice && slices[1..] == rest;
    if AllAnswered(slices, provider) {
      assert forall i :: 0 <= i < |rest| ==> rest[i] == slices[i + 1];
    }
  }

  lemma FirstSlice(chunks: seq<ChunkForEmbedding>, offset: nat, batchSize: nat)
    requires batchSize > 0 && offset < |chunks|
    ensures var end := BatchEnd(chunks, offset, batchSize);
            Slices(chunks[offset..], batchSize) == [chunks[offset..end]] + Slices(chunks[end..], batchSize)
  {
    var end := BatchEnd(chunks, offset, batchSize);
    var left := chunks[offset..];
    if |left| > batchSize {
      assert left[..batchSize] == chunks[offset..end] && left[batchSize..] == chunks[end..];
    } else {
      assert left == chunks[offset..end] && chunks[end..] == [];
      assert [left] + [] == [left];
    }
  }

  lemma EmbedStep(chunks: seq<ChunkForEmbedding>, offset: nat, batchSize: nat, provider: Provider)
    requires batchSize > 0 && offset < |chunks|
    ensures var end := BatchEnd(chunks, offset, batchSize);
            var batch, r := chunks[offset..end], EmbedFrom(chunks, offset, batchSize, provider);
            && (r.Ok? <==> Answered(batch, provider) && EmbedFrom(chunks, end, batchSize, provider).Ok?)
            && (r.Ok? ==>
                  r.value == Zip(batch, provider(Texts(batch)).value) + EmbedFrom(chunks, end, batchSize, provider).value)
  {
  }

  /** Embedding succeeds exactly when the provider answers every consecutive slice of `batchSize` chunks, and
      then it gives the replies for the slices, one after the other. */
  lemma {:induction false} EmbedsSliceBySlice(chunks: seq<ChunkForEmbedding>, offset: nat, batchSize: nat, provider: Provider)
    requires batchSize > 0 && offset <= |chunks|
    ensures var r, slices := EmbedFrom(chunks, offset, batchSize, provider), Slices(chunks[offset..], batchSize);
            && (r.Ok? <==> AllAnswered(slices, provider))
            && (r.Ok? ==> r.value == Replies(slices, provider))
    decreases |chunks| - offset
  {
    if offset < |chunks| {
      var end := BatchEnd(chunks, offset, batchSize);
      EmbedsSliceBySlice(chunks, end, batchSize, provider);
      FirstSlice(chunks, offset, batchSize);
      EmbedStep(chunks, offset, batchSize, provider);
      AnsweredStep(chunks[offset..end], Slices(chunks[end..], batchSize), provider);
    }
  }
}
