/**
 Incremental consumers.  A consumer that, fed one more chunk, is where it would be after
 the whole input does not depend on how the input was cut.
 */
module Chunks {
  import opened Bytes

  function FeedAll<P>(feed: (P, seq<byte>) -> P, p: P, chunks: seq<seq<byte>>): P
    decreases |chunks|
  {
    if chunks == [] then p else FeedAll(feed, feed(p, chunks[0]), chunks[1..])
  }

  /** `whole` gives the consumer's state after a byte string that came in one piece. */
  ghost predicate Continues<P(!new)>(feed: (P, seq<byte>) -> P, whole: seq<byte> -> P) {
    forall a: seq<byte>, chunk: seq<byte> :: feed(whole(a), chunk) == whole(a + chunk)
  }

  lemma {:induction false} ChunksDoNotMatter<P(!new)>(
    feed: (P, seq<byte>) -> P, whole: seq<byte> -> P, a: seq<byte>, chunks: seq<seq<byte>>)
    requires Continues(feed, whole)
    ensures FeedAll(feed, whole(a), chunks) == whole(a + Flatten(chunks))
    decreases |chunks|
  {
    if chunks == [] {
      assert a + Flatten(chunks) == a;
    } else {
      ChunksDoNotMatter(feed, whole, a + chunks[0], chunks[1..]);
      assert a + Flatten(chunks) == a + chunks[0] + Flatten(chunks[1..]);
    }
  }
}
