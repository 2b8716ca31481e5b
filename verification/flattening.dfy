/** Flattening of the per-chunk results
    (`[character for chunk in results for character in chunk]`). */
module Flattening {

  /** The sum of the chunk sizes. */
  function TotalSize<T>(chunks: seq<seq<T>>): nat {
    if |chunks| == 0 then 0 else |chunks[0]| + TotalSize(chunks[1..])
  }

  /** Reference definition: the chunks concatenated in order. Its length is
      the sum of the chunk lengths. */
  function Flatten<T>(chunks: seq<seq<T>>): (r: seq<T>)
    ensures |r| == TotalSize(chunks)
  {
    if |chunks| == 0 then [] else chunks[0] + Flatten(chunks[1..])
  }

  /** The nested comprehension as written: visit each chunk in order and
      append each of its elements in order. */
  method FlattenChunks<T>(chunks: seq<seq<T>>) returns (characters: seq<T>)
    ensures characters == Flatten(chunks)
    ensures |characters| == TotalSize(chunks)
  {
    characters := [];
    for i := 0 to |chunks|
      invariant characters == Flatten(chunks[..i])
    {
      var chunk := chunks[i];
      for j := 0 to |chunk|
        invariant characters == Flatten(chunks[..i]) + chunk[..j]
      {
        characters := characters + [chunk[j]];
      }
      assert chunk[..|chunk|] == chunk;
      assert chunks[..i + 1] == chunks[..i] + [chunk];
      FlattenAppend(chunks[..i], [chunk]);
      assert Flatten([chunk]) == chunk + Flatten([]);
    }
    assert chunks[..|chunks|] == chunks;
  }

  /** Flattening distributes over concatenation of chunk lists. */
  lemma {:induction false} FlattenAppend<T>(a: seq<seq<T>>, b: seq<seq<T>>)
    ensures Flatten(a + b) == Flatten(a) + Flatten(b)
  {
    if |a| == 0 {
      assert a + b == b;
    } else {
      assert (a + b)[1..] == a[1..] + b;
      FlattenAppend(a[1..], b);
    }
  }

  /** An empty chunk (a failed fetch) contributes nothing. */
  lemma EmptyChunkContributesNothing<T>(a: seq<seq<T>>, b: seq<seq<T>>)
    ensures Flatten(a + [[]] + b) == Flatten(a + b)
  {
    FlattenAppend(a + [[]], b);
    FlattenAppend(a, [[]]);
    FlattenAppend(a, b);
    var none: seq<seq<T>> := [[]];
    assert Flatten(none) == [];
  }

  /** Order is kept: element `j` of chunk `i` sits right after everything
      the earlier chunks contributed. */
  lemma {:induction false} FlattenPosition<T>(chunks: seq<seq<T>>, i: int, j: int)
    requires 0 <= i < |chunks| && 0 <= j < |chunks[i]|
    ensures TotalSize(chunks[..i]) + j < |Flatten(chunks)|
    ensures Flatten(chunks)[TotalSize(chunks[..i]) + j] == chunks[i][j]
  {
    if i == 0 {
      assert chunks[..0] == [];
    } else {
      assert chunks[1..][..i - 1] == chunks[..i][1..];
      FlattenPosition(chunks[1..], i - 1, j);
    }
  }

  /** Nothing is lost or invented: an element is in the flattened list
      exactly when it is in some chunk. */
  lemma {:induction false} FlattenMembership<T>(chunks: seq<seq<T>>, x: T)
    ensures x in Flatten(chunks) <==> exists i :: 0 <= i < |chunks| && x in chunks[i]
  {
    if |chunks| > 0 {
      FlattenMembership(chunks[1..], x);
      if exists i :: 0 <= i < |chunks[1..]| && x in chunks[1..][i] {
        var i :| 0 <= i < |chunks[1..]| && x in chunks[1..][i];
        assert x in chunks[i + 1];
      }
      if exists i :: 0 <= i < |chunks| && x in chunks[i] {
        var i :| 0 <= i < |chunks| && x in chunks[i];
        if i > 0 {
          assert x in chunks[1..][i - 1];
        }
      }
    }
  }

  /** When no chunk holds more than `limit` elements, the flattened list
      holds at most `|chunks| * limit`. */
  lemma {:induction false} FlattenBound<T>(chunks: seq<seq<T>>, limit: nat)
    requires forall i :: 0 <= i < |chunks| ==> |chunks[i]| <= limit
    ensures |Flatten(chunks)| <= |chunks| * limit
  {
    if |chunks| > 0 {
      FlattenBound(chunks[1..], limit);
      assert |chunks| * limit == (|chunks| - 1) * limit + limit;
    }
  }

  /** Chunks that are all empty, as when every chunk request fails,
      flatten to nothing. */
  lemma {:induction false} AllEmptySize<T>(chunks: seq<seq<T>>)
    requires forall i :: 0 <= i < |chunks| ==> chunks[i] == []
    ensures TotalSize(chunks) == 0
  {
    if |chunks| > 0 {
      AllEmptySize(chunks[1..]);
    }
  }
}
