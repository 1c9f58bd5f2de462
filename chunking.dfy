/**
  The chunker: `CollectionType.chunk(withDistance:)` splits an ordered collection into
  consecutive arrays of `distance` elements, the last one possibly shorter.

  The source keeps a cursor `index` that starts at `startIndex`; every pull of its generator
  returns the elements between the cursor and the cursor advanced by `distance` (stopping at
  `endIndex`), or nothing once the cursor has reached `endIndex`, and then moves the cursor to
  that same stop. `Array(generator)` pulls until nothing comes. Here the collection is a
  `seq<T>` indexed from 0, and the generator and its draining loop are one `while` loop.
*/
module Chunking {
  import opened Wrappers

  /** Concatenation of all chunks in order. */
  function Flatten<T>(chunks: seq<seq<T>>): seq<T>
  {
    if chunks == [] then [] else chunks[0] + Flatten(chunks[1..])
  }

  function Min(a: int, b: int): int
  {
    if a <= b then a else b
  }

  /** The number of chunks of `distance` elements needed for `n` elements: n / distance
      rounded up. */
  function CeilDiv(n: nat, distance: int): nat
    requires distance > 0
  {
    (n + distance - 1) / distance
  }

  /** `i.advancedBy(n, limit: limit)` on a random-access integer index: the index moved by
      `n`, except that it stops at `limit` when `limit` lies within `n` steps in the
      direction of travel (or when the index already is `limit`). */
  function Advance(i: int, n: int, limit: int): (r: int)
    ensures i <= limit && n >= 0 ==> r == Min(i + n, limit)
    ensures i < limit && n < 0 ==> r == i + n
    ensures i == limit ==> r == limit
  {
    var d := limit - i;
    if d == 0 || (d > 0 && d <= n) || (d < 0 && d >= n) then limit else i + n
  }

  /** The reference chunking: the first `distance` elements (or all of them, when fewer
      remain), followed by the chunking of the rest. */
  function Chunks<T>(s: seq<T>, distance: int): seq<seq<T>>
    requires distance > 0
    decreases |s|
  {
    if |s| == 0 then []
    else
      var m := Min(distance, |s|);
      [s[..m]] + Chunks(s[m..], distance)
  }

  /** `chunks` is a chunking of `s` into pieces of `distance`: read in order, the chunks give
      back `s`; no chunk is empty or longer than `distance`; only the last may be shorter. */
  ghost predicate IsChunkingOf<T>(chunks: seq<seq<T>>, s: seq<T>, distance: int)
  {
    && Flatten(chunks) == s
    && (forall k :: 0 <= k < |chunks| ==> 1 <= |chunks[k]| <= distance)
    && (forall k :: 0 <= k < |chunks| - 1 ==> |chunks[k]| == distance)
  }

  /** `chunk(withDistance:)` for a positive distance. The cursor `index` never passes the
      end, the loop stops after one step per chunk, and the chunks are those of `Chunks`. */
  method Chunk<T>(s: seq<T>, distance: int) returns (chunks: seq<seq<T>>)
    requires distance > 0
    ensures chunks == Chunks(s, distance)
    ensures IsChunkingOf(chunks, s, distance)
    ensures |chunks| == CeilDiv(|s|, distance)
    ensures |s| > 0 ==> |chunks[|chunks| - 1]| == 1 + (|s| - 1) % distance
  {
    var index := 0;
    chunks := [];
    while index != |s|
      invariant 0 <= index <= |s|
      invariant chunks + Chunks(s[index..], distance) == Chunks(s, distance)
      decreases |s| - index
    {
      var stop := Advance(index, distance, |s|);
      ghost var rest := s[index..];
      assert rest[..stop - index] == s[index..stop];
      assert rest[stop - index..] == s[stop..];
      assert Chunks(rest, distance) == [s[index..stop]] + Chunks(s[stop..], distance);
      chunks := chunks + [s[index..stop]];
      index := stop;
    }
    assert s[index..] == [];
    ChunksIsChunking(s, distance);
    ChunksCount(s, distance);
    ChunksLastLength(s, distance);
  }

  /** Coverage: reading the chunks in order gives back the input exactly. */
  lemma {:induction false} ChunksFlatten<T>(s: seq<T>, distance: int)
    requires distance > 0
    ensures Flatten(Chunks(s, distance)) == s
    decreases |s|
  {
    if |s| > 0 {
      var m := Min(distance, |s|);
      ChunksFlatten(s[m..], distance);
      assert s[..m] + s[m..] == s;
    }
  }

  /** No chunk is empty or longer than `distance`, and every chunk but the last holds exactly
      `distance` elements. */
  lemma {:induction false} ChunksSizes<T>(s: seq<T>, distance: int)
    requires distance > 0
    ensures forall k :: 0 <= k < |Chunks(s, distance)| ==> 1 <= |Chunks(s, distance)[k]| <= distance
    ensures forall k :: 0 <= k < |Chunks(s, distance)| - 1 ==> |Chunks(s, distance)[k]| == distance
    decreases |s|
  {
    if |s| > 0 {
      var m := Min(distance, |s|);
      var r := Chunks(s, distance);
      var tail := Chunks(s[m..], distance);
      ChunksSizes(s[m..], distance);
      assert r == [s[..m]] + tail;
      forall k | 0 <= k < |r|
        ensures 1 <= |r[k]| <= distance
        ensures k < |r| - 1 ==> |r[k]| == distance
      {
        if k > 0 {
          assert r[k] == tail[k - 1];
        } else if |r| > 1 {
          assert |tail| > 0;
          assert m == distance;
        }
      }
    }
  }

  /** `Chunks` is a chunking of its input. */
  lemma ChunksIsChunking<T>(s: seq<T>, distance: int)
    requires distance > 0
    ensures IsChunkingOf(Chunks(s, distance), s, distance)
  {
    ChunksFlatten(s, distance);
    ChunksSizes(s, distance);
  }

  lemma {:induction false} MulAtLeast(d: int, k: int)
    requires d > 0 && k >= 1
    ensures d * k >= d
    decreases k
  {
    if k > 1 {
      MulAtLeast(d, k - 1);
      assert d * k == d * (k - 1) + d;
    }
  }

  /** Euclidean division has one quotient: n == d * q + r with 0 <= r < d fixes n / d. */
  lemma DivUnique(n: int, d: int, q: int, r: int)
    requires d > 0 && 0 <= r < d && n == d * q + r
    ensures n / d == q && n % d == r
  {
    var q2, r2 := n / d, n % d;
    assert n == d * q2 + r2 && 0 <= r2 < d;
    if q2 > q {
      MulAtLeast(d, q2 - q);
    } else if q2 < q {
      MulAtLeast(d, q - q2);
    }
  }

  lemma DivStep(x: int, d: int)
    requires x >= 0 && d > 0
    ensures (x + d) / d == x / d + 1
    ensures (x + d) % d == x % d
  {
    var q, r := x / d, x % d;
    assert x + d == d * (q + 1) + r;
    DivUnique(x + d, d, q + 1, r);
  }

  lemma DivBelow(x: int, d: int)
    requires 0 <= x < d
    ensures x / d == 0 && x % d == x
  {
  }

  /** Termination count: there are ceil(|s| / distance) chunks, one per pull of the
      generator that does not return nil. */
  lemma {:induction false} ChunksCount<T>(s: seq<T>, distance: int)
    requires distance > 0
    ensures |Chunks(s, distance)| == CeilDiv(|s|, distance)
    decreases |s|
  {
    if |s| == 0 {
      DivBelow(distance - 1, distance);
    } else if |s| <= distance {
      assert s[|s|..] == [];
      DivBelow(|s| - 1, distance);
      DivStep(|s| - 1, distance);
    } else {
      ChunksCount(s[distance..], distance);
      DivStep(|s| - 1, distance);
    }
  }

  /** The last chunk holds 1 + (|s| - 1) mod distance elements. */
  lemma {:induction false} ChunksLastLength<T>(s: seq<T>, distance: int)
    requires distance > 0
    ensures |s| > 0 ==> |Chunks(s, distance)| > 0
    ensures |s| > 0 ==> |Chunks(s, distance)[|Chunks(s, distance)| - 1]| == 1 + (|s| - 1) % distance
    decreases |s|
  {
    if |s| > 0 {
      if |s| <= distance {
        assert s[|s|..] == [];
        DivBelow(|s| - 1, distance);
      } else {
        var tail := s[distance..];
        ChunksLastLength(tail, distance);
        DivStep(|tail| - 1, distance);
      }
    }
  }

  /** Index-wise description: chunk k is the slice from k * distance to (k + 1) * distance,
      cut off at the end of `s`. */
  lemma MulPred(k: int, d: int)
    ensures (k - 1) * d + d == k * d
  {
  }

  lemma SliceOfSuffix<T>(s: seq<T>, m: nat, lo: nat, hi: nat)
    requires m <= |s| && lo <= hi <= |s| - m
    ensures s[m..][lo..hi] == s[m + lo .. m + hi]
  {
  }

  lemma {:induction false} ChunkAt<T>(s: seq<T>, distance: int, k: nat)
    requires distance > 0
    requires k < |Chunks(s, distance)|
    ensures k * distance < |s|
    ensures Chunks(s, distance)[k] == s[k * distance .. Min(k * distance + distance, |s|)]
    decreases |s|
  {
    if k > 0 {
      var m := Min(distance, |s|);
      var tail := s[m..];
      assert Chunks(s, distance) == [s[..m]] + Chunks(tail, distance);
      assert tail != [] && m == distance;
      ChunkAt(tail, distance, k - 1);
      var lo := (k - 1) * distance;
      MulPred(k, distance);
      SliceOfSuffix(s, distance, lo, Min(lo + distance, |tail|));
    }
  }

  lemma FlattenNonEmpty<T>(chunks: seq<seq<T>>)
    requires |chunks| > 0
    ensures |Flatten(chunks)| >= |chunks[0]|
  {
  }

  /** Uniqueness: a chunking of `s` into pieces of `distance` is `Chunks(s, distance)`, so
      the properties of `IsChunkingOf` determine the result completely. */
  lemma {:induction false} ChunkingUnique<T>(chunks: seq<seq<T>>, s: seq<T>, distance: int)
    requires distance > 0
    requires IsChunkingOf(chunks, s, distance)
    ensures chunks == Chunks(s, distance)
    decreases |chunks|
  {
    if chunks != [] {
      var c, rest := chunks[0], chunks[1..];
      assert s == c + Flatten(rest);
      if rest == [] {
        assert s == c;
        assert s[|s|..] == [];
      } else {
        assert |c| == distance;
        assert |rest[0]| >= 1 by { assert rest[0] == chunks[1]; }
        FlattenNonEmpty(rest);
        assert s[..distance] == c;
        assert s[distance..] == Flatten(rest);
        assert forall k :: 0 <= k < |rest| ==> rest[k] == chunks[k + 1];
        ChunkingUnique(rest, s[distance..], distance);
      }
    }
  }

  /** What the source does for every distance, positive or not. An empty collection yields
      no chunks whatever the distance, since the first pull already finds the cursor at the
      end. With distance 0 the cursor never moves, so the generator yields empty arrays
      forever and `Array(generator)` never returns. With a negative distance the cursor
      would move backwards, and slicing a range whose end lies below its start traps. */
  datatype ChunkOutcome<T> = Chunked(chunks: seq<seq<T>>) | NeverEnds | RangeTrap

  function ChunkOutcomeOf<T>(s: seq<T>, distance: int): (o: ChunkOutcome<T>)
    ensures o.Chunked? <==> |s| == 0 || distance > 0
    ensures o.NeverEnds? <==> |s| > 0 && distance == 0
    ensures o.Chunked? && distance > 0 ==> IsChunkingOf(o.chunks, s, distance)
    ensures o.Chunked? && |s| == 0 ==> o.chunks == []
  {
    if |s| == 0 then Chunked([])
    else if distance > 0 then
      ChunksIsChunking(s, distance);
      Chunked(Chunks(s, distance))
    else if distance == 0 then NeverEnds
    else RangeTrap
  }

  /** The first pull with distance 0 on a non-empty collection: the slice it returns is
      empty and the cursor stays at the start, so every later pull is the same one. */
  lemma ZeroDistanceStalls<T>(s: seq<T>)
    requires |s| > 0
    ensures Advance(0, 0, |s|) == 0
    ensures s[0..Advance(0, 0, |s|)] == []
    ensures ChunkOutcomeOf(s, 0) == NeverEnds
  {
  }

  /** A negative distance on a non-empty collection moves the cursor below the start, so the
      first pull slices a range whose end lies below its start, which traps. */
  lemma NegativeDistanceTraps<T>(s: seq<T>, distance: int)
    requires |s| > 0 && distance < 0
    ensures Advance(0, distance, |s|) < 0
    ensures ChunkOutcomeOf(s, distance) == RangeTrap
  {
  }

  datatype ChunkError = InvalidArgument

  /** The chunker with its precondition checked: a distance below 1 is rejected up front
      instead of looping or trapping. */
  function CheckedChunk<T>(s: seq<T>, distance: int): (r: Result<seq<seq<T>>, ChunkError>)
    ensures r.Failure? <==> distance <= 0
    ensures r.Success? ==> IsChunkingOf(r.value, s, distance)
    ensures r.Success? ==> |r.value| == CeilDiv(|s|, distance)
  {
    if distance <= 0 then Failure(InvalidArgument)
    else
      ChunksIsChunking(s, distance);
      ChunksCount(s, distance);
      Success(Chunks(s, distance))
  }

  /** Seven letters in chunks of three. */
  lemma SevenLettersByThree()
    ensures Chunks("ABCDEFG", 3) == ["ABC", "DEF", "G"]
  {
    var s := "ABCDEFG";
    assert s[..3] == "ABC" && s[3..] == "DEFG";
    assert s[3..][..3] == "DEF" && s[3..][3..] == "G";
    assert "G"[..1] == "G" && "G"[1..] == [];
  }
}
