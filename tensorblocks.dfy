/**
  The index window of `create_tensors_from_csv`: one block of at most
  `blockNum` samples starting at `startIdx`.  Loading a matrix from its path
  is not modelled, so the block holds the paths visited; the feature vectors
  and labels are copied, the labels converted to floats.  Stacking an empty
  list raises, which is the `None` result.
*/
module TensorBlocks {
  import opened Common

  datatype Block<P, F> = Block(paths: seq<P>, features: seq<F>, targets: seq<real>)

  /** One past the last index visited: `min(start_idx + block_num, len(x_paths))`. */
  function WindowEnd(startIdx: int, blockNum: int, n: nat): int {
    MinInt(startIdx + blockNum, n)
  }

  /** The indices `range(startIdx, WindowEnd(...))`, in order. */
  function WindowIndices(startIdx: int, blockNum: int, n: nat): (ix: seq<int>)
    ensures |ix| == if WindowEnd(startIdx, blockNum, n) > startIdx then WindowEnd(startIdx, blockNum, n) - startIdx else 0
    ensures forall k :: 0 <= k < |ix| ==> ix[k] == startIdx + k
  {
    var hi := WindowEnd(startIdx, blockNum, n);
    if hi <= startIdx then [] else seq(hi - startIdx, k requires 0 <= k < hi - startIdx => startIdx + k)
  }

  /** Every visited index is inside `x_paths`, and there are at most `blockNum` of them. */
  lemma WindowInBounds(startIdx: int, blockNum: int, n: nat)
    requires startIdx >= 0
    ensures forall k :: 0 <= k < |WindowIndices(startIdx, blockNum, n)| ==> 0 <= WindowIndices(startIdx, blockNum, n)[k] < n
    ensures blockNum >= 0 ==> |WindowIndices(startIdx, blockNum, n)| <= blockNum
    ensures |WindowIndices(startIdx, blockNum, n)| == 0 <==> blockNum <= 0 || startIdx >= n
  {
  }

  /** Two consecutive blocks visit exactly the indices of one block twice as long. */
  lemma ConsecutiveBlocksTile(startIdx: nat, blockNum: nat, n: nat)
    ensures WindowIndices(startIdx, blockNum, n) + WindowIndices(startIdx + blockNum, blockNum, n)
            == WindowIndices(startIdx, 2 * blockNum, n)
  {
  }

  /** `create_tensors_from_csv`.  Every visited index must be valid for all
      three lists; `x_paths` fixes the window. */
  method CreateTensorsFromCsv<P, F>(xPaths: seq<P>, xFeatures: seq<F>, labels: seq<int>, startIdx: int, blockNum: int)
    returns (r: Option<Block<P, F>>)
    requires startIdx >= 0
    requires WindowEnd(startIdx, blockNum, |xPaths|) <= |xFeatures|
    requires WindowEnd(startIdx, blockNum, |xPaths|) <= |labels|
    ensures r.None? <==> |WindowIndices(startIdx, blockNum, |xPaths|)| == 0
    ensures r.Some? ==>
              var ix := WindowIndices(startIdx, blockNum, |xPaths|);
              && |r.value.paths| == |r.value.features| == |r.value.targets| == |ix|
              && (forall k :: 0 <= k < |ix| ==> r.value.paths[k] == xPaths[ix[k]])
              && (forall k :: 0 <= k < |ix| ==> r.value.features[k] == xFeatures[ix[k]])
              && (forall k :: 0 <= k < |ix| ==> r.value.targets[k] == labels[ix[k]] as real)
  {
    var paths: seq<P> := [];
    var vectors: seq<F> := [];
    var y: seq<int> := [];
    var hi := MinInt(startIdx + blockNum, |xPaths|);
    var i := startIdx;
    while i < hi
      invariant startIdx <= i && (i == startIdx || i <= hi)
      invariant |paths| == |vectors| == |y| == i - startIdx
      invariant forall k :: 0 <= k < i - startIdx ==> paths[k] == xPaths[startIdx + k]
      invariant forall k :: 0 <= k < i - startIdx ==> vectors[k] == xFeatures[startIdx + k]
      invariant forall k :: 0 <= k < i - startIdx ==> y[k] == labels[startIdx + k]
    {
      paths := paths + [xPaths[i]];
      vectors := vectors + [xFeatures[i]];
      y := y + [labels[i]];
      i := i + 1;
    }
    if |paths| == 0 {
      // torch.stack([]) raises
      return None;
    }
    var targets := seq(|y|, k requires 0 <= k < |y| => y[k] as real);
    r := Some(Block(paths, vectors, targets));
  }
}
