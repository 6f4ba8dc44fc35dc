/** PHP's `array_chunk($list, $size)` on a list, as used by both notify
    handlers to split the recipients into batches. */
module ArrayChunk {

  /** Consecutive slices of at most `size` elements; the last may be shorter. */
  function Chunk<T>(s: seq<T>, size: nat): (r: seq<seq<T>>)
    requires size > 0
    decreases |s|
    ensures r == [] <==> s == []
    ensures forall b :: b in r ==> 0 < |b| <= size
  {
    if s == [] then []
    else if |s| <= size then [s]
    else [s[..size]] + Chunk(s[size..], size)
  }

  /** Concatenation of a list of lists, in order. */
  function Flatten<T>(bs: seq<seq<T>>): seq<T> {
    if bs == [] then [] else bs[0] + Flatten(bs[1..])
  }

  /** End of chunk `i`: (i+1)*size, cut at the end of the list. */
  function ChunkEnd(n: nat, size: nat, i: nat): nat {
    if (i + 1) * size <= n then (i + 1) * size else n
  }

  lemma MulStep(i: nat, size: nat)
    requires i > 0
    ensures (i - 1) * size + size == i * size
    ensures i * size + size == (i + 1) * size
  {
  }

  lemma SliceShift<T>(s: seq<T>, k: nat, lo: nat, hi: nat)
    requires k <= |s| && lo <= hi <= |s| - k
    ensures s[k..][lo..hi] == s[lo + k .. hi + k]
  {
  }

  /** Chunk i holds exactly the elements at positions i*size up to
      (i+1)*size, cut at the end of the list. */
  lemma {:induction false} ChunkAt<T>(s: seq<T>, size: nat, i: nat)
    requires size > 0
    requires i < |Chunk(s, size)|
    ensures i * size < |s|
    ensures Chunk(s, size)[i] == s[i * size .. ChunkEnd(|s|, size, i)]
    decreases |s|
  {
    if |s| <= size {
      assert i == 0;
    } else if i > 0 {
      var rest := s[size..];
      assert Chunk(s, size)[i] == Chunk(rest, size)[i - 1];
      ChunkAt(rest, size, i - 1);
      MulStep(i, size);
      var lo, hi := (i - 1) * size, ChunkEnd(|rest|, size, i - 1);
      assert hi + size == ChunkEnd(|s|, size, i);
      SliceShift(s, size, lo, hi);
    }
  }

  /** The number of chunks is ceil(|s| / size): the least count whose
      capacity covers the list. */
  lemma {:induction false} ChunkCount<T>(s: seq<T>, size: nat)
    requires size > 0
    ensures |Chunk(s, size)| * size >= |s|
    ensures s != [] ==> (|Chunk(s, size)| - 1) * size < |s|
    decreases |s|
  {
    if |s| > size {
      var k := |Chunk(s[size..], size)|;
      ChunkCount(s[size..], size);
      assert |Chunk(s, size)| == k + 1;
      assert (k + 1) * size == k * size + size;
    }
  }

  /** Every chunk but the last is full; the last holds 1 to size elements. */
  lemma {:induction false} ChunkSizes<T>(s: seq<T>, size: nat)
    requires size > 0
    ensures forall i :: 0 <= i < |Chunk(s, size)| - 1 ==> |Chunk(s, size)[i]| == size
    ensures s != [] ==> 0 < |Chunk(s, size)[|Chunk(s, size)| - 1]| <= size
    decreases |s|
  {
    if |s| > size {
      ChunkSizes(s[size..], size);
      var r := Chunk(s, size);
      assert r == [s[..size]] + Chunk(s[size..], size);
      forall i | 0 <= i < |r| - 1
        ensures |r[i]| == size
      {
        if i > 0 {
          assert r[i] == Chunk(s[size..], size)[i - 1];
        }
      }
    }
  }

  /** Concatenating the chunks in order gives the list back. */
  lemma {:induction false} FlattenChunk<T>(s: seq<T>, size: nat)
    requires size > 0
    ensures Flatten(Chunk(s, size)) == s
    decreases |s|
  {
    if s == [] {
    } else if |s| <= size {
      assert Flatten([s]) == s + Flatten([s][1..]);
    } else {
      FlattenChunk(s[size..], size);
      var r := Chunk(s, size);
      assert r[0] == s[..size] && r[1..] == Chunk(s[size..], size);
      assert s == s[..size] + s[size..];
    }
  }
}
