/** The buffer/flush rule of the ingestion loop of src/scripts/init_db.py,
    stated on values: each document's chunks are appended to a buffer, and the
    whole buffer is sent as one batch as soon as it holds at least BatchSize
    chunks; whatever is left after the last document is sent once more. */
module Batching {

  const BatchSize: nat := 32

  /** All pieces, one after the other. */
  function Concat<T>(pieces: seq<seq<T>>): seq<T>
  {
    if pieces == [] then [] else Concat(pieces[..|pieces| - 1]) + pieces[|pieces| - 1]
  }

  lemma {:induction false} ConcatAppend<T>(a: seq<seq<T>>, b: seq<seq<T>>)
    ensures Concat(a + b) == Concat(a) + Concat(b)
    decreases |b|
  {
    if b == [] {
      assert a + b == a;
    } else {
      var last := b[|b| - 1];
      var front := b[..|b| - 1];
      assert a + b == (a + front) + [last];
      assert (a + b)[..|a + b| - 1] == a + front;
      ConcatAppend(a, front);
    }
  }

  /** The batches sent so far and the chunks still buffered. */
  datatype Buffered<T> = Buffered(flushed: seq<seq<T>>, buffer: seq<T>)

  /** One document: extend the buffer, send it whole once it is big enough. */
  function Step<T>(s: Buffered<T>, chunks: seq<T>): Buffered<T>
  {
    var extended := s.buffer + chunks;
    if |extended| >= BatchSize then Buffered(s.flushed + [extended], []) else Buffered(s.flushed, extended)
  }

  /** The state after the given documents' chunk lists, starting empty. */
  function Fill<T>(lists: seq<seq<T>>): Buffered<T>
  {
    if lists == [] then Buffered([], []) else Step(Fill(lists[..|lists| - 1]), lists[|lists| - 1])
  }

  /** Every batch the loop and the final flush send, in order. */
  function Batches<T>(lists: seq<seq<T>>): seq<seq<T>>
  {
    var s := Fill(lists);
    s.flushed + (if s.buffer == [] then [] else [s.buffer])
  }

  function Sizes<T>(batches: seq<seq<T>>): (sizes: seq<nat>)
    ensures |sizes| == |batches|
    ensures forall i :: 0 <= i < |batches| ==> sizes[i] == |batches[i]|
  {
    seq(|batches|, i requires 0 <= i < |batches| => |batches[i]|)
  }

  /** Nothing is lost, duplicated or reordered: what was sent, followed by the
      buffer, is every chunk in document order. */
  lemma {:induction false} FillKeepsChunks<T>(lists: seq<seq<T>>)
    ensures Concat(Fill(lists).flushed) + Fill(lists).buffer == Concat(lists)
  {
    if lists != [] {
      var front := lists[..|lists| - 1];
      var last := lists[|lists| - 1];
      FillKeepsChunks(front);
      var s := Fill(front);
      var extended := s.buffer + last;
      if |extended| >= BatchSize {
        ConcatAppend(s.flushed, [extended]);
        assert Concat([extended]) == extended by {
          assert [extended][..0] == [];
        }
      }
    }
  }

  /** Between documents the buffer stays below BatchSize, and every batch sent
      inside the loop holds at least BatchSize chunks. */
  lemma {:induction false} FillBounds<T>(lists: seq<seq<T>>)
    ensures |Fill(lists).buffer| < BatchSize
    ensures forall i :: 0 <= i < |Fill(lists).flushed| ==> |Fill(lists).flushed[i]| >= BatchSize
  {
    if lists != [] {
      FillBounds(lists[..|lists| - 1]);
    }
  }

  /** Each chunk is sent exactly once, in load order. */
  lemma BatchesKeepChunks<T>(lists: seq<seq<T>>)
    ensures Concat(Batches(lists)) == Concat(lists)
  {
    var s := Fill(lists);
    FillKeepsChunks(lists);
    if s.buffer != [] {
      ConcatAppend(s.flushed, [s.buffer]);
      assert Concat([s.buffer]) == s.buffer by {
        assert [s.buffer][..0] == [];
      }
    } else {
      assert s.flushed + [] == s.flushed;
    }
  }

  /** Sizes of the batches: all but a final remainder hold at least BatchSize
      chunks; a final remainder holds between 1 and BatchSize - 1 chunks and is
      sent exactly when the buffer is non-empty after the last document. */
  lemma BatchesSizes<T>(lists: seq<seq<T>>)
    ensures var s := Fill(lists);
      && (s.buffer == [] ==> Batches(lists) == s.flushed)
      && (s.buffer != [] ==> Batches(lists) == s.flushed + [s.buffer] && 1 <= |s.buffer| < BatchSize)
      && forall i :: 0 <= i < |s.flushed| ==> |Batches(lists)[i]| >= BatchSize
  {
    FillBounds(lists);
    var s := Fill(lists);
    if s.buffer == [] {
      assert s.flushed + [] == s.flushed;
    }
  }

  /** No chunk at all means no batch at all, and conversely. */
  lemma NoChunksNoBatches<T>(lists: seq<seq<T>>)
    ensures Batches(lists) == [] <==> Concat(lists) == []
  {
    BatchesKeepChunks(lists);
    FillBounds(lists);
    var b := Batches(lists);
    if b != [] {
      var s := Fill(lists);
      if |s.flushed| > 0 {
        assert |b[0]| >= BatchSize;
        assert b == [b[0]] + b[1..];
        ConcatAppend([b[0]], b[1..]);
        assert Concat([b[0]]) == b[0] by {
          assert [b[0]][..0] == [];
        }
      } else {
        assert b == [s.buffer];
        assert Concat([s.buffer]) == s.buffer by {
          assert [s.buffer][..0] == [];
        }
      }
    }
  }

  /** The expected batch sizes for `n` chunks: full batches, then the remainder if any. */
  function Uniform(n: nat): (sizes: seq<nat>)
  {
    Repeat(BatchSize, n / BatchSize) + (if n % BatchSize == 0 then [] else [n % BatchSize])
  }

  function Repeat(x: nat, count: nat): (r: seq<nat>)
    ensures |r| == count
    ensures forall i :: 0 <= i < count ==> r[i] == x
  {
    if count == 0 then [] else Repeat(x, count - 1) + [x]
  }

  predicate AllSingletons<T>(lists: seq<seq<T>>)
  {
    forall i :: 0 <= i < |lists| ==> |lists[i]| == 1
  }

  /** With one chunk per document the loop fills exactly n / BatchSize batches
      of BatchSize and keeps n % BatchSize chunks. */
  lemma {:induction false} FillSingletons<T>(lists: seq<seq<T>>)
    requires AllSingletons(lists)
    ensures Sizes(Fill(lists).flushed) == Repeat(BatchSize, |lists| / BatchSize)
    ensures |Fill(lists).buffer| == |lists| % BatchSize
  {
    if lists != [] {
      var front := lists[..|lists| - 1];
      assert AllSingletons(front) by {
        forall i | 0 <= i < |front|
          ensures |front[i]| == 1
        {
          assert front[i] == lists[i];
        }
      }
      FillSingletons(front);
      var s := Fill(front);
      var n := |front|;
      assert |lists[|lists| - 1]| == 1;
      if |s.buffer| + 1 >= BatchSize {
        assert (n + 1) / BatchSize == n / BatchSize + 1;
        assert (n + 1) % BatchSize == 0;
        assert Sizes(s.flushed + [s.buffer + lists[|lists| - 1]]) == Sizes(s.flushed) + [BatchSize];
      } else {
        assert (n + 1) / BatchSize == n / BatchSize;
        assert (n + 1) % BatchSize == n % BatchSize + 1;
      }
    }
  }

  /** With one chunk per document, n chunks go out as n / BatchSize full
      batches and one remainder batch when BatchSize does not divide n. */
  lemma SingletonBatches<T>(lists: seq<seq<T>>)
    requires AllSingletons(lists)
    ensures Sizes(Batches(lists)) == Uniform(|lists|)
  {
    FillSingletons(lists);
    var s := Fill(lists);
    if s.buffer == [] {
      assert Batches(lists) == s.flushed;
    } else {
      assert Sizes(s.flushed + [s.buffer]) == Sizes(s.flushed) + [|s.buffer|];
    }
  }

  /** One hundred single-chunk documents go out as 32, 32, 32 and 4. */
  lemma HundredSingletons<T>(lists: seq<seq<T>>)
    requires AllSingletons(lists) && |lists| == 100
    ensures Sizes(Batches(lists)) == [32, 32, 32, 4]
  {
    SingletonBatches(lists);
    assert Repeat(32, 3) == [32, 32, 32] by {
      assert Repeat(32, 1) == [32];
      assert Repeat(32, 2) == [32, 32];
    }
  }
}
