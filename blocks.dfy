/** A sequence built block by block, each block pushed after the earlier
    ones (`documents.push(...block)`), and where each block's elements land. */
module Blocks {

  /** The blocks concatenated in order. */
  function Flatten<T>(blocks: seq<seq<T>>): seq<T>
  {
    if blocks == [] then [] else Flatten(blocks[..|blocks| - 1]) + blocks[|blocks| - 1]
  }

  /** The number of elements in the blocks before block `i`. */
  function Offset<T>(blocks: seq<seq<T>>, i: nat): nat
    requires i <= |blocks|
  {
    if i == 0 then 0 else Offset(blocks, i - 1) + |blocks[i - 1]|
  }

  /** Pushing one more block. */
  lemma FlattenPush<T>(blocks: seq<seq<T>>, i: nat)
    requires i < |blocks|
    ensures Flatten(blocks[..i + 1]) == Flatten(blocks[..i]) + blocks[i]
  {
    assert blocks[..i + 1][..i] == blocks[..i];
  }

  /** Offsets depend only on the blocks before. */
  lemma {:induction false} OffsetPrefix<T>(blocks: seq<seq<T>>, n: nat, i: nat)
    requires i <= n <= |blocks|
    ensures Offset(blocks[..n], i) == Offset(blocks, i)
  {
    if i > 0 {
      OffsetPrefix(blocks, n, i - 1);
    }
  }

  /** The concatenation holds as many elements as all blocks together. */
  lemma {:induction false} FlattenLength<T>(blocks: seq<seq<T>>)
    ensures |Flatten(blocks)| == Offset(blocks, |blocks|)
  {
    if blocks != [] {
      var n := |blocks| - 1;
      FlattenLength(blocks[..n]);
      OffsetPrefix(blocks, n, n);
    }
  }

  /** Element `k` of block `i` sits at the offset of block `i` plus `k`. */
  lemma {:induction false} FlattenPosition<T>(blocks: seq<seq<T>>, i: nat, k: nat)
    requires i < |blocks| && k < |blocks[i]|
    ensures Offset(blocks, i) + k < |Flatten(blocks)|
    ensures Flatten(blocks)[Offset(blocks, i) + k] == blocks[i][k]
  {
    var n := |blocks| - 1;
    var front := blocks[..n];
    FlattenLength(front);
    OffsetPrefix(blocks, n, n);
    if i < n {
      FlattenPosition(front, i, k);
      OffsetPrefix(blocks, n, i);
      assert front[i] == blocks[i];
    }
  }

  /** Every element comes from some block: each position falls between the
      offset of one block and the end of that block. */
  lemma {:induction false} FlattenOrigin<T>(blocks: seq<seq<T>>, p: nat)
    requires p < |Flatten(blocks)|
    ensures exists i :: 0 <= i < |blocks| && Offset(blocks, i) <= p < Offset(blocks, i) + |blocks[i]|
  {
    var n := |blocks| - 1;
    var front := blocks[..n];
    FlattenLength(front);
    OffsetPrefix(blocks, n, n);
    if p >= |Flatten(front)| {
      assert Offset(blocks, n) <= p < Offset(blocks, n) + |blocks[n]|;
    } else {
      FlattenOrigin(front, p);
      var i :| 0 <= i < |front| && Offset(front, i) <= p < Offset(front, i) + |front[i]|;
      OffsetPrefix(blocks, n, i);
      assert front[i] == blocks[i];
    }
  }

  /** Blocks of the same sizes have the same offsets. */
  lemma {:induction false} OffsetsAgree<T, U>(a: seq<seq<T>>, b: seq<seq<U>>, i: nat)
    requires |a| == |b| && i <= |a|
    requires forall j :: 0 <= j < |a| ==> |a[j]| == |b[j]|
    ensures Offset(a, i) == Offset(b, i)
  {
    if i > 0 {
      OffsetsAgree(a, b, i - 1);
    }
  }
}
