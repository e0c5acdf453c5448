/** Splitting a result list into consecutive groups, as `for (i = 0; i < n; i += size) slice(i, i + size)`. */
module Chunking {
  import opened Common

  /** The concatenation of a list of groups. */
  function Flatten<T>(gs: seq<seq<T>>): seq<T> {
    if gs == [] then [] else gs[0] + Flatten(gs[1..])
  }

  /** The slices `s[i..i+size]`, `s[i+size..i+2*size]`, ... (the last one clipped to `|s|`). */
  function SlicesFrom<T>(s: seq<T>, i: nat, size: nat): (gs: seq<seq<T>>)
    requires size > 0
    requires i <= |s|
    ensures Flatten(gs) == s[i..]
    ensures forall k :: 0 <= k < |gs| ==> 0 < |gs[k]| <= size
    ensures forall k :: 0 <= k < |gs| - 1 ==> |gs[k]| == size
    ensures |gs| * size < |s| - i + size && |s| - i <= |gs| * size
    decreases |s| - i
  {
    if i == |s| then []
    else
      var j := Min(i + size, |s|);
      var rest := SlicesFrom(s, j, size);
      assert s[i..] == s[i..j] + s[j..];
      assert (|rest| + 1) * size == |rest| * size + size;
      [s[i..j]] + rest
  }

  /** The groups of at most `size` consecutive elements, in order. */
  function Chunks<T>(s: seq<T>, size: nat): seq<seq<T>>
    requires size > 0
  {
    SlicesFrom(s, 0, size)
  }

  /** Every element lands in exactly one group, and group boundaries keep order. */
  lemma ChunksPartition<T>(s: seq<T>, size: nat)
    requires size > 0
    ensures Flatten(Chunks(s, size)) == s
    ensures forall k :: 0 <= k < |Chunks(s, size)| ==> 0 < |Chunks(s, size)[k]| <= size
    ensures |s| == 0 <==> Chunks(s, size) == []
  {
    assert s[0..] == s;
  }
}
