/** The `for i in range(0, len(items), size): batch = items[i:i + size]` idiom
    that the summarizer, the indexer and the translator share. */
module Batching {
  import Text

  /** The batches of at most `k` consecutive items, in order. */
  function Chunks<T>(s: seq<T>, k: nat): seq<seq<T>>
    requires k > 0
    decreases |s|
  {
    if |s| == 0 then []
    else if |s| <= k then [s]
    else [s[..k]] + Chunks(s[k..], k)
  }

  function Flatten<T>(ss: seq<seq<T>>): seq<T>
    decreases |ss|
  {
    if ss == [] then [] else ss[0] + Flatten(ss[1..])
  }

  /** Every item lands in exactly one batch, in its original order; every batch
      is non-empty, none is larger than `k` and all but the last are full. */
  lemma {:induction false} ChunksCover<T>(s: seq<T>, k: nat)
    requires k > 0
    ensures Flatten(Chunks(s, k)) == s
    ensures forall b :: 0 <= b < |Chunks(s, k)| ==> 0 < |Chunks(s, k)[b]| <= k
    ensures forall b :: 0 <= b < |Chunks(s, k)| - 1 ==> |Chunks(s, k)[b]| == k
    decreases |s|
  {
    if |s| > k {
      ChunksCover(s[k..], k);
      var rest := Chunks(s[k..], k);
      assert Chunks(s, k) == [s[..k]] + rest;
      assert ([s[..k]] + rest)[1..] == rest;
      assert s == s[..k] + s[k..];
    }
  }

  /** The batch that starts at item `i` is the first batch of what is left,
      so a loop that takes `items[i:i + k]` and moves `i` on by `k` visits the
      batches of `Chunks` in order. */
  lemma ChunksStep<T>(s: seq<T>, k: nat, i: nat)
    requires k > 0 && i < |s|
    ensures Chunks(s[i..], k) == [s[i..Text.Min(i + k, |s|)]] + Chunks(s[Text.Min(i + k, |s|)..], k)
  {
    if |s| - i > k {
      assert Text.Min(i + k, |s|) == i + k;
      assert s[i..][..k] == s[i..i + k];
      assert s[i..][k..] == s[i + k..];
      assert Chunks(s[i..], k) == [s[i..][..k]] + Chunks(s[i..][k..], k);
    } else {
      assert Text.Min(i + k, |s|) == |s|;
      assert s[|s|..] == [];
      assert Chunks(s[|s|..], k) == [];
      assert Chunks(s[i..], k) == [s[i..]];
      assert s[i..|s|] == s[i..];
    }
  }

  /** The loop's view: when the batches still to visit, from `b` on, are the
      batches of what is left from item `i`, then batch `b` is the slice the
      loop takes and the batches after it are the batches of what is left
      once `i` has moved past it. */
  lemma ChunksAdvance<T>(bs: seq<seq<T>>, s: seq<T>, k: nat, b: nat, i: nat)
    requires k > 0 && i < |s| && b <= |bs|
    requires bs[b..] == Chunks(s[i..], k)
    ensures b < |bs| && bs[b] == s[i..Text.Min(i + k, |s|)]
    ensures bs[b + 1..] == Chunks(s[Text.Min(i + k, |s|)..], k)
  {
    ChunksStep(s, k, i);
    assert bs[b..][1..] == bs[b + 1..];
  }
}
