/**
 Feeding block hashes to the Merkle builder: missing blocks become zero hashes, so that leaf i is block
 start + i.  The builder is only its log of pushes and the leaves they add up to.
 */
module LeafFeed {
  import opened Options

  const MAX_UINT64: nat := 0xFFFF_FFFF_FFFF_FFFF

  type Hash = int

  const ZERO_HASH: Hash := 0

  datatype Block = Block(number: nat, hash: Hash)

  datatype Push = Push(height: nat, hashes: seq<Hash>)

  function Leaves(pushes: seq<Push>): seq<Hash> {
    if pushes == [] then [] else Leaves(pushes[..|pushes| - 1]) + pushes[|pushes| - 1].hashes
  }

  /** Every push begins right after the leaves already pushed. */
  predicate Aligned(start: nat, pushes: seq<Push>) {
    pushes == [] ||
    var n := |pushes| - 1;
    Aligned(start, pushes[..n]) && pushes[n].height == start + |Leaves(pushes[..n])|
  }

  function Zeros(n: nat): (r: seq<Hash>)
    ensures |r| == n && forall k :: 0 <= k < n ==> r[k] == ZERO_HASH
  {
    seq(n, _ => ZERO_HASH)
  }

  /** All blocks of the iterator's batches, in order. */
  function Stream(batches: seq<seq<Block>>): seq<Block> {
    if batches == [] then [] else Stream(batches[..|batches| - 1]) + batches[|batches| - 1]
  }

  /** Ascending block numbers, none below start. */
  ghost predicate Ascending(start: nat, blocks: seq<Block>) {
    (forall k :: 0 <= k < |blocks| ==> start <= blocks[k].number) &&
    (forall i, j :: 0 <= i < j < |blocks| ==> blocks[i].number < blocks[j].number)
  }

  /** What an iterator over start..last yields: ascending blocks of that range. */
  ghost predicate WithinRange(start: nat, last: nat, blocks: seq<Block>) {
    Ascending(start, blocks) && forall k :: 0 <= k < |blocks| ==> blocks[k].number <= last
  }

  /** The hash stored for a block, or zero if the stream does not have it. */
  function HashAt(blocks: seq<Block>, number: nat): Hash {
    if blocks == [] then ZERO_HASH
    else if blocks[|blocks| - 1].number == number then blocks[|blocks| - 1].hash
    else HashAt(blocks[..|blocks| - 1], number)
  }

  /** Leaf vector for start..last, from the block-to-hash map alone. */
  function Vector(start: nat, count: nat, blocks: seq<Block>): (r: seq<Hash>)
    ensures |r| == count && forall k :: 0 <= k < count ==> r[k] == HashAt(blocks, start + k)
  {
    seq(count, k requires 0 <= k < count => HashAt(blocks, start + k))
  }

  // ----- the loop -----

  /** Pushes for one block: padding for a gap before it, then the block itself. */
  function BlockPushes(expected: nat, block: Block): seq<Push> {
    (if block.number > expected then [Push(expected, Zeros(block.number - expected))] else []) +
    [Push(block.number, [block.hash])]
  }

  function NextExpected(start: nat, blocks: seq<Block>): nat {
    if blocks == [] then start else blocks[|blocks| - 1].number + 1
  }

  function Feed(start: nat, blocks: seq<Block>): seq<Push> {
    if blocks == [] then []
    else
      var n := |blocks| - 1;
      Feed(start, blocks[..n]) + BlockPushes(NextExpected(start, blocks[..n]), blocks[n])
  }

  function Trailing(expected: nat, end: nat): seq<Push> {
    if expected <= end then [Push(expected, Zeros(end - expected + 1))] else []
  }

  /** RangeError: the range is reversed; Failed: the builder's creation, the iterator, a push or the finalization reports an error. */
  datatype Result = RangeError | Failed | Built(total: nat, pushes: seq<Push>)

  /** All pushes of a complete build. */
  function AllPushes(start: nat, last: nat, batches: seq<seq<Block>>): seq<Push> {
    Feed(start, Stream(batches)) + Trailing(NextExpected(start, Stream(batches)), last)
  }

  /** The n-th of some operations fails. */
  predicate FailsBefore(fails: Option<nat>, n: nat) {
    fails.Some? && fails.value < n
  }

  /**
   Both tree builders: the end is the latest block when it is given as the maximum.  readFails and pushFails number
   the first iterator read and the first push that report an error; the read after the last batch returns nothing.
   */
  method GenerateLeaves(start: nat, end: nat, latest: nat, batches: seq<seq<Block>>, readFails: Option<nat>, pushFails: Option<nat>,
                        createFails: bool, finalizeFails: bool)
    returns (r: Result)
    requires start <= MAX_UINT64 && end <= MAX_UINT64 && latest <= MAX_UINT64
    ensures r.RangeError? <==> end != MAX_UINT64 && end < start
    ensures var last := if end == 0xFFFF_FFFF_FFFF_FFFF then latest else end;
            !r.RangeError? ==>
              (r.Failed? <==> createFails || FailsBefore(readFails, |batches| + 1) ||
                              FailsBefore(pushFails, |AllPushes(start, last, batches)|) || finalizeFails) &&
              (r.Built? ==> r.pushes == AllPushes(start, last, batches))
    ensures var last := if end == 0xFFFF_FFFF_FFFF_FFFF then latest else end;
            r.Built? && start <= last && (start > 0 || last < MAX_UINT64) ==> r.total == last - start + 1
    ensures var last := if end == 0xFFFF_FFFF_FFFF_FFFF then latest else end;
            r.Built? && start <= last && WithinRange(start, last, Stream(batches)) ==>
              Leaves(r.pushes) == Vector(start, last - start + 1, Stream(batches)) && Aligned(start, r.pushes)
  {
    var last := end;
    if end == MAX_UINT64 {
      last := latest;
    } else if end < start {
      return RangeError;
    }
    var total := (last - start + 1) % (MAX_UINT64 + 1);
    if createFails {
      return Failed;
    }
    var pushes, expected, ok := FeedAll(start, batches, readFails, pushFails);
    if !ok {
      return Failed;
    }
    if expected <= last {
      if pushFails == Some(|pushes|) {
        return Failed;
      }
      pushes := pushes + [Push(expected, Zeros(last - expected + 1))];
    }
    if finalizeFails {
      return Failed;
    }
    assert pushes == AllPushes(start, last, batches);
    BuildIsVector(start, last, batches);
    r := Built(total, pushes);
  }

  /** The leaves of a complete build over a stream inside the range. */
  lemma BuildIsVector(start: nat, last: nat, batches: seq<seq<Block>>)
    ensures start <= last && WithinRange(start, last, Stream(batches)) ==>
              Leaves(AllPushes(start, last, batches)) == Vector(start, last - start + 1, Stream(batches)) &&
              Aligned(start, AllPushes(start, last, batches))
  {
    if start <= last && WithinRange(start, last, Stream(batches)) {
      LeavesAreVector(start, last, Stream(batches));
    }
  }

  /** The loop over batches. */
  method FeedAll(start: nat, batches: seq<seq<Block>>, readFails: Option<nat>, pushFails: Option<nat>)
    returns (pushes: seq<Push>, expected: nat, ok: bool)
    ensures ok <==> !FailsBefore(readFails, |batches| + 1) && !FailsBefore(pushFails, |Feed(start, Stream(batches))|)
    ensures ok ==> pushes == Feed(start, Stream(batches)) && expected == NextExpected(start, Stream(batches))
  {
    pushes, expected := [], start;
    for i := 0 to |batches|
      invariant pushes == Feed(start, Stream(batches[..i])) && expected == NextExpected(start, Stream(batches[..i]))
      invariant !FailsBefore(readFails, i) && !FailsBefore(pushFails, |pushes|)
    {
      if readFails == Some(i) {
        return pushes, expected, false;
      }
      pushes, expected, ok := FeedBatch(start, Stream(batches[..i]), batches[i], pushes, expected, pushFails);
      assert batches[..i + 1][..i] == batches[..i];
      if !ok {
        StreamLonger(start, batches, i + 1);
        return;
      }
    }
    assert batches[..|batches|] == batches;
    ok := readFails != Some(|batches|);
  }

  /** The inner loop over one batch; `before` is what earlier batches held. */
  method FeedBatch(start: nat, ghost before: seq<Block>, batch: seq<Block>, pushes0: seq<Push>, expected0: nat, pushFails: Option<nat>)
    returns (pushes: seq<Push>, expected: nat, ok: bool)
    requires pushes0 == Feed(start, before) && expected0 == NextExpected(start, before) && !FailsBefore(pushFails, |pushes0|)
    ensures ok <==> !FailsBefore(pushFails, |Feed(start, before + batch)|)
    ensures ok ==> pushes == Feed(start, before + batch) && expected == NextExpected(start, before + batch)
  {
    pushes, expected := pushes0, expected0;
    assert before + batch[..0] == before;
    for k := 0 to |batch|
      invariant pushes == Feed(start, before + batch[..k]) && expected == NextExpected(start, before + batch[..k])
      invariant !FailsBefore(pushFails, |pushes|)
    {
      ghost var fed := before + batch[..k];
      assert before + batch[..k + 1] == fed + [batch[k]];
      assert (fed + [batch[k]])[..|fed|] == fed;
      pushes, expected, ok := PushBlock(pushes, expected, batch[k], pushFails);
      if !ok {
        FeedLonger(start, fed + [batch[k]], batch[k + 1..]);
        assert fed + [batch[k]] + batch[k + 1..] == before + batch;
        return;
      }
    }
    assert batch[..|batch|] == batch;
    ok := true;
  }

  /** Padding for a gap before the block, then the block; stops at a push that fails. */
  method PushBlock(pushes0: seq<Push>, expected0: nat, block: Block, pushFails: Option<nat>)
    returns (pushes: seq<Push>, expected: nat, ok: bool)
    requires !FailsBefore(pushFails, |pushes0|)
    ensures ok <==> !FailsBefore(pushFails, |pushes0 + BlockPushes(expected0, block)|)
    ensures ok ==> pushes == pushes0 + BlockPushes(expected0, block) && expected == block.number + 1
  {
    pushes, expected := pushes0, expected0;
    if block.number > expected {
      var gap := block.number - expected;
      if pushFails == Some(|pushes|) {
        return pushes, expected, false;
      }
      pushes := pushes + [Push(expected, Zeros(gap))];
      expected := expected + gap;
    }
    if pushFails == Some(|pushes|) {
      return pushes, expected, false;
    }
    pushes := pushes + [Push(block.number, [block.hash])];
    return pushes, block.number + 1, true;
  }

  lemma {:induction false} FeedLonger(start: nat, xs: seq<Block>, ys: seq<Block>)
    ensures |Feed(start, xs)| <= |Feed(start, xs + ys)|
  {
    if ys == [] {
      assert xs + ys == xs;
    } else {
      assert (xs + ys)[..|xs + ys| - 1] == xs + ys[..|ys| - 1];
      FeedLonger(start, xs, ys[..|ys| - 1]);
    }
  }

  lemma {:induction false} StreamLonger(start: nat, batches: seq<seq<Block>>, i: nat)
    requires i <= |batches|
    ensures |Feed(start, Stream(batches[..i]))| <= |Feed(start, Stream(batches))|
    decreases |batches|
  {
    if i == |batches| {
      assert batches[..i] == batches;
    } else {
      var front := batches[..|batches| - 1];
      assert front[..i] == batches[..i];
      StreamLonger(start, front, i);
      FeedLonger(start, Stream(front), batches[|batches| - 1]);
    }
  }

  // ----- what the leaves are -----

  lemma {:induction false} LeavesConcat(xs: seq<Push>, ys: seq<Push>)
    ensures Leaves(xs + ys) == Leaves(xs) + Leaves(ys)
  {
    if ys == [] {
      assert xs + ys == xs;
    } else {
      var n := |ys| - 1;
      assert (xs + ys)[..|xs + ys| - 1] == xs + ys[..n];
      LeavesConcat(xs, ys[..n]);
    }
  }

  lemma {:induction false} AlignedConcat(start: nat, xs: seq<Push>, ys: seq<Push>)
    ensures Aligned(start, xs + ys) <==> Aligned(start, xs) && Aligned(start + |Leaves(xs)|, ys)
  {
    if ys == [] {
      assert xs + ys == xs;
    } else {
      var n := |ys| - 1;
      assert (xs + ys)[..|xs + ys| - 1] == xs + ys[..n] && (xs + ys)[|xs + ys| - 1] == ys[n];
      AlignedConcat(start, xs, ys[..n]);
      LeavesConcat(xs, ys[..n]);
    }
  }

  lemma OneLeaves(p: Push)
    ensures Leaves([p]) == p.hashes
  {
    assert [p][..0] == [];
  }

  lemma BlockPushLeaves(expected: nat, block: Block)
    ensures var ps := BlockPushes(expected, block);
            Leaves(ps) == (if block.number > expected then Zeros(block.number - expected) else []) + [block.hash] &&
            (Aligned(expected, ps) <==> expected <= block.number)
  {
    var last := [Push(block.number, [block.hash])];
    OneLeaves(last[0]);
    assert last[..0] == [];
    if block.number > expected {
      var pad := [Push(expected, Zeros(block.number - expected))];
      OneLeaves(pad[0]);
      LeavesConcat(pad, last);
      AlignedConcat(expected, pad, last);
      assert pad[..0] == [];
    } else {
      assert [] + last == last;
      if Aligned(expected, last) {
        assert last[0].height == expected;
      }
    }
  }

  lemma {:induction false} HashAtAbove(blocks: seq<Block>, number: nat)
    requires forall k :: 0 <= k < |blocks| ==> blocks[k].number != number
    ensures HashAt(blocks, number) == ZERO_HASH
  {
    if blocks != [] {
      HashAtAbove(blocks[..|blocks| - 1], number);
    }
  }

  /** The leaves of one block: zeros for the gap before it, then its hash. */
  function Segment(expected: nat, block: Block): seq<Hash>
    requires expected <= block.number
  {
    Zeros(block.number - expected) + [block.hash]
  }

  lemma SegmentPushed(expected: nat, block: Block)
    requires expected <= block.number
    ensures Leaves(BlockPushes(expected, block)) == Segment(expected, block) && Aligned(expected, BlockPushes(expected, block))
  {
    BlockPushLeaves(expected, block);
    assert block.number == expected ==> Zeros(0) == [];
  }

  /** One more block extends the vector by its segment. */
  lemma VectorGrows(start: nat, blocks: seq<Block>)
    requires Ascending(start, blocks) && blocks != []
    ensures var init, block := blocks[..|blocks| - 1], blocks[|blocks| - 1];
            var e := NextExpected(start, init);
            start <= e <= block.number &&
            Vector(start, block.number + 1 - start, blocks) == Vector(start, e - start, init) + Segment(e, block)
  {
    var init, block := blocks[..|blocks| - 1], blocks[|blocks| - 1];
    var e := NextExpected(start, init);
    assert forall k :: 0 <= k < |init| ==> blocks[k] == init[k];
    var v, w := Vector(start, block.number + 1 - start, blocks), Vector(start, e - start, init) + Segment(e, block);
    assert |v| == |w|;
    forall k | 0 <= k < |v| ensures v[k] == w[k] {
      if e <= start + k < block.number {
        HashAtAbove(init, start + k);
      }
    }
  }

  /** One more block adds its segment to the leaves, aligned if the leaves before reach up to it. */
  lemma FeedGrows(start: nat, blocks: seq<Block>)
    requires blocks != [] && NextExpected(start, blocks[..|blocks| - 1]) <= blocks[|blocks| - 1].number
    ensures var init, block := blocks[..|blocks| - 1], blocks[|blocks| - 1];
            var e := NextExpected(start, init);
            Leaves(Feed(start, blocks)) == Leaves(Feed(start, init)) + Segment(e, block) &&
            (Aligned(start, Feed(start, init)) && start + |Leaves(Feed(start, init))| == e ==> Aligned(start, Feed(start, blocks)))
  {
    var init, block := blocks[..|blocks| - 1], blocks[|blocks| - 1];
    var e := NextExpected(start, init);
    SegmentPushed(e, block);
    LeavesConcat(Feed(start, init), BlockPushes(e, block));
    AlignedConcat(start, Feed(start, init), BlockPushes(e, block));
  }

  lemma AscendingPrefix(start: nat, blocks: seq<Block>)
    requires Ascending(start, blocks) && blocks != []
    ensures Ascending(start, blocks[..|blocks| - 1])
  {
  }

  /** Fed leaves are the vector up to the last block fed, and every push is aligned. */
  lemma {:induction false} FeedIsVector(start: nat, blocks: seq<Block>)
    requires Ascending(start, blocks)
    ensures start <= NextExpected(start, blocks)
    ensures Leaves(Feed(start, blocks)) == Vector(start, NextExpected(start, blocks) - start, blocks)
    ensures Aligned(start, Feed(start, blocks))
  {
    if blocks != [] {
      AscendingPrefix(start, blocks);
      FeedIsVector(start, blocks[..|blocks| - 1]);
      VectorGrows(start, blocks);
      FeedGrows(start, blocks);
    }
  }

  /**
   For an ascending stream inside [start, last], batched in any way, the leaf vector is hash-or-zero for
   start..last, of the expected length, and every push begins where the previous ones ended.
   */
  lemma LeavesAreVector(start: nat, last: nat, blocks: seq<Block>)
    requires start <= last && Ascending(start, blocks) && forall k :: 0 <= k < |blocks| ==> blocks[k].number <= last
    ensures var pushes := Feed(start, blocks) + Trailing(NextExpected(start, blocks), last);
            Leaves(pushes) == Vector(start, last - start + 1, blocks) && Aligned(start, pushes)
  {
    FeedIsVector(start, blocks);
    var e := NextExpected(start, blocks);
    if e <= last {
      var tail := [Push(e, Zeros(last - e + 1))];
      OneLeaves(tail[0]);
      LeavesConcat(Feed(start, blocks), tail);
      OneAligned(e, tail[0]);
      AlignedConcat(start, Feed(start, blocks), tail);
      VectorPadded(start, blocks, last);
    } else {
      assert e == last + 1;
      assert Feed(start, blocks) + [] == Feed(start, blocks);
    }
  }

  lemma OneAligned(start: nat, p: Push)
    requires p.height == start
    ensures Aligned(start, [p])
  {
    assert [p][..0] == [];
  }

  lemma VectorPadded(start: nat, blocks: seq<Block>, last: nat)
    requires Ascending(start, blocks) && start <= NextExpected(start, blocks) <= last
    ensures var e := NextExpected(start, blocks);
            Vector(start, last - start + 1, blocks) == Vector(start, e - start, blocks) + Zeros(last - e + 1)
  {
    var e := NextExpected(start, blocks);
    forall b | e <= b <= last ensures HashAt(blocks, b) == ZERO_HASH {
      HashAtAbove(blocks, b);
    }
    var v, w := Vector(start, last - start + 1, blocks), Vector(start, e - start, blocks) + Zeros(last - e + 1);
    forall k | 0 <= k < |v| ensures v[k] == w[k] {
      if start + k >= e {
        assert HashAt(blocks, start + k) == ZERO_HASH;
      }
    }
  }

  /** The leaves depend on the block-to-hash map only, not on how the stream carries it. */
  lemma LeavesDependOnMap(start: nat, last: nat, xs: seq<Block>, ys: seq<Block>)
    requires start <= last && Ascending(start, xs) && Ascending(start, ys)
    requires forall k :: 0 <= k < |xs| ==> xs[k].number <= last
    requires forall k :: 0 <= k < |ys| ==> ys[k].number <= last
    requires forall b :: start <= b <= last ==> HashAt(xs, b) == HashAt(ys, b)
    ensures Leaves(Feed(start, xs) + Trailing(NextExpected(start, xs), last)) ==
            Leaves(Feed(start, ys) + Trailing(NextExpected(start, ys), last))
  {
    LeavesAreVector(start, last, xs);
    LeavesAreVector(start, last, ys);
  }

  lemma AscendingSnoc(start: nat, init: seq<Block>, block: Block)
    ensures Ascending(start, init + [block]) <==> Ascending(start, init) && NextExpected(start, init) <= block.number
  {
    var blocks := init + [block];
    assert forall k :: 0 <= k < |init| ==> blocks[k] == init[k];
    assert blocks[|init|] == block;
  }

  /** Pushes are aligned exactly when the stream ascends from start: a repeated or older block misplaces its push. */
  lemma {:induction false} AlignedIffAscending(start: nat, blocks: seq<Block>)
    ensures Aligned(start, Feed(start, blocks)) <==> Ascending(start, blocks)
  {
    if blocks != [] {
      var n := |blocks| - 1;
      var init, block := blocks[..n], blocks[n];
      assert blocks == init + [block];
      AlignedIffAscending(start, init);
      AscendingSnoc(start, init, block);
      var e := NextExpected(start, init);
      BlockPushLeaves(e, block);
      AlignedConcat(start, Feed(start, init), BlockPushes(e, block));
      if Ascending(start, init) {
        FeedIsVector(start, init);
      }
    }
  }
}
