/** The helpers of `trezor.utils` that the Tron layout relies on. */
module Utils {

  /** Concatenation of a sequence of sequences, in order. */
  function Flatten<T>(parts: seq<seq<T>>): seq<T>
  {
    if parts == [] then [] else parts[0] + Flatten(parts[1..])
  }

  /** `chunks(items, size)`: the consecutive slices of `items` of length `size`,
      the last one possibly shorter, and no slice at all for an empty input. */
  function Chunks<T>(items: seq<T>, size: nat): (r: seq<seq<T>>)
    requires size > 0
    ensures Flatten(r) == items
    ensures forall i :: 0 <= i < |r| ==> 0 < |r[i]| <= size
    ensures forall i :: 0 <= i < |r| - 1 ==> |r[i]| == size
    decreases |items|
  {
    if |items| <= size then
      (if items == [] then [] else [items])
    else
      var rest := Chunks(items[size..], size);
      assert ([items[..size]] + rest)[1..] == rest;
      [items[..size]] + rest
  }

  /** There are `ceil(|items| / size)` chunks: `size` times their number
      covers `items`, and one fewer would not. */
  lemma {:induction false} ChunkCount<T>(items: seq<T>, size: nat)
    requires size > 0
    ensures (|Chunks(items, size)| - 1) * size < |items| <= |Chunks(items, size)| * size
            || (items == [] && Chunks(items, size) == [])
    decreases |items|
  {
    if |items| > size {
      var n := |Chunks(items[size..], size)|;
      ChunkCount(items[size..], size);
      assert |Chunks(items, size)| == n + 1;
      assert (n + 1) * size == n * size + size;
    }
  }
}
