/** Consuming the backend's streamed answer: the chunks are shown and accumulated in
    arrival order, and the reply is their verbatim concatenation. Chunk boundaries carry
    no meaning. */
module Streaming {
  import opened ChatTypes

  /** The reply a sequence of chunks spells out. */
  function Concat(chunks: seq<string>): string {
    if chunks == [] then [] else chunks[0] + Concat(chunks[1..])
  }

  /** Splitting a stream anywhere and concatenating the two halves gives the same reply:
      the reply does not depend on where the chunk boundaries fall. */
  lemma {:induction false} ConcatSplit(a: seq<string>, b: seq<string>)
    ensures Concat(a + b) == Concat(a) + Concat(b)
  {
    if a == [] {
      assert a + b == b;
    } else {
      assert (a + b)[1..] == a[1..] + b;
      ConcatSplit(a[1..], b);
    }
  }

  /** Chunk i appears verbatim in the reply, right after the text of the chunks before it. */
  lemma ConcatChunkAt(chunks: seq<string>, i: nat)
    requires i < |chunks|
    ensures |Concat(chunks[..i])| + |chunks[i]| <= |Concat(chunks)|
    ensures Concat(chunks)[|Concat(chunks[..i])|..|Concat(chunks[..i])| + |chunks[i]|] == chunks[i]
  {
    assert chunks == chunks[..i] + [chunks[i]] + chunks[i + 1..];
    ConcatSplit(chunks[..i] + [chunks[i]], chunks[i + 1..]);
    ConcatSplit(chunks[..i], [chunks[i]]);
    assert Concat([chunks[i]]) == chunks[i] by {
      assert [chunks[i]][1..] == [];
    }
  }

  /** Reads the stream to its end, accumulating the chunks in arrival order. Returns the
      whole reply when the stream ends normally, and None when it raises part-way (the
      chunks already shown are then not returned to the caller). */
  method WriteStream(chunks: seq<string>, interrupted: bool) returns (answer: Option<string>)
    ensures answer.Some? <==> !interrupted
    ensures answer.Some? ==> answer.value == Concat(chunks)
  {
    var text := "";
    var i := 0;
    while i < |chunks|
      invariant 0 <= i <= |chunks|
      invariant text == Concat(chunks[..i])
    {
      assert chunks[..i + 1] == chunks[..i] + [chunks[i]];
      ConcatSplit(chunks[..i], [chunks[i]]);
      assert Concat([chunks[i]]) == chunks[i] by {
        assert [chunks[i]][1..] == [];
      }
      text := text + chunks[i];
      i := i + 1;
    }
    assert chunks[..i] == chunks;
    if interrupted {
      answer := None;
    } else {
      answer := Some(text);
    }
  }
}
