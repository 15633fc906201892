/** HeaderSync's batch builder in 64-bit arithmetic: whole ranges are packed, none is cut. */
module HeaderBatches {
  import opened Tags

  const MAX_HEADERS_PER_REQUEST: nat := 1500

  // ----- the builder -----

  /** The size the program computes for a range, in 64 bits. */
  function SizeOf(r: Range): nat {
    Wrap(r.end - r.start + 1)
  }

  /** The builder's variables: finished batches, the batch being filled and its counted size. */
  datatype Fill = Fill(batches: seq<Tag>, current: Tag, count: nat)

  const START := Fill([], EMPTY, 0)

  function Flushed(f: Fill): Fill {
    Fill(f.batches + [f.current], EMPTY, 0)
  }

  function WithRange(f: Fill, r: Range): Fill {
    f.(current := f.current.(ranges := f.current.ranges + [r]), count := Wrap(f.count + SizeOf(r)))
  }

  function WithBlock(f: Fill, b: nat): Fill {
    f.(current := f.current.(blocks := f.current.blocks + [b]), count := f.count + 1)
  }

  /** A range that would overflow the current batch opens a new one. */
  function Room(f: Fill, r: Range): Fill {
    if f.count > 0 && Wrap(f.count + SizeOf(r)) > MAX_HEADERS_PER_REQUEST then Flushed(f) else f
  }

  /** A batch that reaches the limit is closed. */
  function RangeStep(f: Fill, r: Range): Fill {
    var added := WithRange(Room(f, r), r);
    if added.count >= MAX_HEADERS_PER_REQUEST then Flushed(added) else added
  }

  function RangeSteps(ranges: seq<Range>): Fill {
    if ranges == [] then START else RangeStep(RangeSteps(ranges[..|ranges| - 1]), ranges[|ranges| - 1])
  }

  function BlockStep(f: Fill, b: nat): Fill {
    WithBlock(if f.count > 0 && f.count + 1 > MAX_HEADERS_PER_REQUEST then Flushed(f) else f, b)
  }

  function BlockSteps(f: Fill, blocks: seq<nat>): Fill {
    if blocks == [] then f else BlockStep(BlockSteps(f, blocks[..|blocks| - 1]), blocks[|blocks| - 1])
  }

  function Filled(sorted: Tag): Fill {
    BlockSteps(RangeSteps(sorted.ranges), sorted.blocks)
  }

  /** The last batch is kept if its counted size is not zero. */
  function Build(sorted: Tag): seq<Tag> {
    var f := Filled(sorted);
    if f.count > 0 then f.batches + [f.current] else f.batches
  }

  method PackRange(f0: Fill, r: Range) returns (f: Fill)
    ensures f == RangeStep(f0, r)
  {
    f := f0;
    var size := SizeOf(r);
    if f.count > 0 && Wrap(f.count + size) > MAX_HEADERS_PER_REQUEST {
      f := Flushed(f);
    }
    f := f.(current := f.current.(ranges := f.current.ranges + [r]), count := Wrap(f.count + size));
    if f.count >= MAX_HEADERS_PER_REQUEST {
      f := Flushed(f);
    }
  }

  method BuildBatches(tag: Tag, sorted: Tag) returns (batches: seq<Tag>)
    requires SortedCopy(tag, sorted)
    ensures batches == Build(sorted)
    ensures Ordered(sorted.ranges) ==> (Partitions(batches, sorted) <==> NoOverflow(sorted.ranges))
    ensures Partitions(batches, sorted) ==> multiset(Flat(batches)) == multiset(Blocks(tag))
  {
    var f := START;
    for i := 0 to |sorted.ranges|
      invariant f == RangeSteps(sorted.ranges[..i])
    {
      f := PackRange(f, sorted.ranges[i]);
      assert sorted.ranges[..i + 1][..i] == sorted.ranges[..i];
    }
    assert sorted.ranges[..|sorted.ranges|] == sorted.ranges;
    ghost var packed := f;
    for i := 0 to |sorted.blocks|
      invariant f == BlockSteps(packed, sorted.blocks[..i])
    {
      if f.count > 0 && f.count + 1 > MAX_HEADERS_PER_REQUEST {
        f := Flushed(f);
      }
      f := f.(current := f.current.(blocks := f.current.blocks + [sorted.blocks[i]]), count := f.count + 1);
      assert sorted.blocks[..i + 1][..i] == sorted.blocks[..i];
    }
    assert sorted.blocks[..|sorted.blocks|] == sorted.blocks;
    batches := f.batches;
    if f.count > 0 {
      batches := batches + [f.current];
    }
    if Ordered(sorted.ranges) {
      BuildPartitionsIff(sorted);
    }
    SortedCopyDenotes(tag, sorted);
  }

  // ----- nothing is reordered, and what can be lost -----

  /** All that was taken in so far: the finished batches, then the current one. */
  ghost function Held(f: Fill): seq<nat> {
    Flat(f.batches) + Blocks(f.current)
  }

  lemma FlushHolds(f: Fill)
    ensures Held(Flushed(f)) == Held(f)
  {
    FlatPush(f.batches, f.current);
    EmptyTag();
    assert Flat(f.batches + [f.current]) + [] == Held(f);
  }

  lemma RangeHolds(f: Fill, r: Range)
    requires f.current.blocks == []
    ensures Held(WithRange(f, r)) == Held(f) + Span(r.start, r.end + 1)
  {
    AddRange(f.current, r);
    Assoc(Flat(f.batches), Blocks(f.current), Span(r.start, r.end + 1));
  }

  lemma BlockHolds(f: Fill, b: nat)
    ensures Held(WithBlock(f, b)) == Held(f) + [b]
  {
    AddBlock(f.current, b);
    Assoc(Flat(f.batches), Blocks(f.current), [b]);
  }

  lemma RoomHolds(f: Fill, r: Range)
    requires f.current.blocks == []
    ensures Held(Room(f, r)) == Held(f) && Room(f, r).current.blocks == []
  {
    FlushHolds(f);
  }

  lemma RangeStepHolds(f: Fill, r: Range)
    requires f.current.blocks == []
    ensures Held(RangeStep(f, r)) == Held(f) + Span(r.start, r.end + 1)
    ensures RangeStep(f, r).current.blocks == [] && RangeStep(f, r).count < MAX_HEADERS_PER_REQUEST
  {
    RoomHolds(f, r);
    RangeHolds(Room(f, r), r);
    FlushHolds(WithRange(Room(f, r), r));
  }

  lemma {:induction false} RangeStepsHold(ranges: seq<Range>)
    ensures Held(RangeSteps(ranges)) == RangeBlocks(ranges)
    ensures RangeSteps(ranges).current.blocks == [] && RangeSteps(ranges).count < MAX_HEADERS_PER_REQUEST
  {
    if ranges == [] {
      EmptyTag();
    } else {
      RangeStepsHold(ranges[..|ranges| - 1]);
      RangeStepHolds(RangeSteps(ranges[..|ranges| - 1]), ranges[|ranges| - 1]);
    }
  }

  lemma BlockStepHolds(f: Fill, b: nat)
    ensures Held(BlockStep(f, b)) == Held(f) + [b]
  {
    FlushHolds(f);
    BlockHolds(f, b);
    BlockHolds(Flushed(f), b);
  }

  lemma {:induction false} BlockStepsHold(f: Fill, blocks: seq<nat>)
    ensures Held(BlockSteps(f, blocks)) == Held(f) + blocks
  {
    if blocks == [] {
      assert Held(f) + [] == Held(f);
    } else {
      var n := |blocks| - 1;
      BlockStepsHold(f, blocks[..n]);
      BlockStepHolds(BlockSteps(f, blocks[..n]), blocks[n]);
      Assoc(Held(f), blocks[..n], [blocks[n]]);
      assert blocks[..n] + [blocks[n]] == blocks;
    }
  }

  /** What the last check drops: the current batch, if its counted size is zero. */
  ghost function Lost(sorted: Tag): seq<nat> {
    if Filled(sorted).count == 0 then Blocks(Filled(sorted).current) else []
  }

  /** For every tag, the batches followed by what is lost are the sorted tag's blocks in order. */
  lemma BuildHolds(sorted: Tag)
    ensures Flat(Build(sorted)) + Lost(sorted) == Blocks(sorted)
  {
    var f := Filled(sorted);
    RangeStepsHold(sorted.ranges);
    BlockStepsHold(RangeSteps(sorted.ranges), sorted.blocks);
    if f.count > 0 {
      FlatPush(f.batches, f.current);
      assert Flat(Build(sorted)) + [] == Flat(Build(sorted));
    }
  }

  // ----- the promise -----

  ghost function Size(t: Tag): nat {
    |Blocks(t)|
  }

  function RangeSize(r: Range): nat {
    if r.start <= r.end then r.end - r.start + 1 else 0
  }

  /** The size of the item a batch starts with. */
  ghost function FirstSize(t: Tag): nat {
    if t.ranges != [] then RangeSize(t.ranges[0]) else 1
  }

  /** Not empty, and within the limit unless it is a single range that is itself larger. */
  ghost predicate Within(t: Tag) {
    0 < Size(t) && (Size(t) <= 1500 || (|t.ranges| == 1 && t.blocks == []))
  }

  ghost predicate RangesFrom(t: Tag, sorted: Tag) {
    forall i :: 0 <= i < |t.ranges| ==> t.ranges[i] in sorted.ranges
  }

  /** A batch is closed only when the item that starts the next one would overflow it. */
  ghost predicate Tight(batches: seq<Tag>, first: nat) {
    batches == [] || Size(batches[|batches| - 1]) + first > 1500
  }

  ghost predicate Good(batches: seq<Tag>, sorted: Tag) {
    batches == [] ||
    var front, last := batches[..|batches| - 1], batches[|batches| - 1];
    Within(last) && RangesFrom(last, sorted) && Tight(front, FirstSize(last)) && Good(front, sorted)
  }

  /** What the builder promises: exactly the tag's blocks, in batches within the limit that could not be fuller. */
  ghost predicate Partitions(batches: seq<Tag>, sorted: Tag) {
    Good(batches, sorted) && Flat(batches) == Blocks(sorted)
  }

  predicate Ordered(ranges: seq<Range>) {
    forall i :: 0 <= i < |ranges| ==> ranges[i].start <= ranges[i].end
  }

  /** The fill after one more item of the given size, counted without a bound. */
  function NextCount(count: nat, size: nat): nat {
    var room := if count > 0 && count + size > MAX_HEADERS_PER_REQUEST then 0 else count;
    if room + size >= MAX_HEADERS_PER_REQUEST then 0 else room + size
  }

  function ExactCount(ranges: seq<Range>): nat {
    if ranges == [] then 0 else NextCount(ExactCount(ranges[..|ranges| - 1]), RangeSize(ranges[|ranges| - 1]))
  }

  /** At no range does the fill plus the range's size reach 2 to the 64. */
  predicate NoOverflow(ranges: seq<Range>) {
    ranges == [] ||
    var n := |ranges| - 1;
    NoOverflow(ranges[..n]) && ExactCount(ranges[..n]) + RangeSize(ranges[n]) < UINT64
  }

  // ----- without an overflow the promise holds -----

  /** Between two items: what is packed so far, and that an item of size first or more may open the next batch. */
  ghost predicate Packing(f: Fill, sorted: Tag, first: nat) {
    Good(f.batches, sorted) && RangesFrom(f.current, sorted) &&
    f.count == Size(f.current) && (f.count == 0 <==> f.current == EMPTY) && (f.count == 0 || Within(f.current)) &&
    Tight(f.batches, if f.current == EMPTY then first else FirstSize(f.current))
  }

  lemma FlushKeeps(f: Fill, sorted: Tag, first: nat, next: nat)
    requires Packing(f, sorted, first) && f.count > 0 && f.count + next > MAX_HEADERS_PER_REQUEST
    ensures Packing(Flushed(f), sorted, next)
  {
    EmptyTag();
    assert (f.batches + [f.current])[..|f.batches|] == f.batches;
  }

  lemma RangeExtends(f: Fill, sorted: Tag, r: Range)
    requires Packing(f, sorted, RangeSize(r)) && f.current.blocks == [] && r.start <= r.end && r in sorted.ranges
    requires f.count + RangeSize(r) < UINT64 && (f.count == 0 || f.count + RangeSize(r) <= MAX_HEADERS_PER_REQUEST)
    ensures Packing(WithRange(f, r), sorted, 1)
  {
    AddRange(f.current, r);
  }

  lemma BlockExtends(f: Fill, sorted: Tag, b: nat)
    requires Packing(f, sorted, 1) && f.count < MAX_HEADERS_PER_REQUEST
    ensures Packing(WithBlock(f, b), sorted, 1)
  {
    AddBlock(f.current, b);
  }

  lemma RangeStepCounts(f: Fill, r: Range)
    requires r.start <= r.end && f.count + RangeSize(r) < UINT64
    ensures RangeStep(f, r).count == NextCount(f.count, RangeSize(r))
  {
  }

  lemma RoomPacks(f: Fill, sorted: Tag, r: Range)
    requires Packing(f, sorted, 1) && r.start <= r.end && f.count + RangeSize(r) < UINT64
    ensures var g := Room(f, r);
            Packing(g, sorted, RangeSize(r)) && g.count <= f.count &&
            (g.count == 0 || g.count + RangeSize(r) <= MAX_HEADERS_PER_REQUEST)
  {
    if f.count > 0 && f.count + RangeSize(r) > MAX_HEADERS_PER_REQUEST {
      FlushKeeps(f, sorted, 1, RangeSize(r));
    }
  }

  lemma RangeStepPacks(f: Fill, sorted: Tag, r: Range)
    requires Packing(f, sorted, 1) && f.current.blocks == [] && r.start <= r.end && r in sorted.ranges
    requires f.count + RangeSize(r) < UINT64
    ensures Packing(RangeStep(f, r), sorted, 1)
  {
    RoomPacks(f, sorted, r);
    RangeExtends(Room(f, r), sorted, r);
    var added := WithRange(Room(f, r), r);
    if added.count >= MAX_HEADERS_PER_REQUEST {
      FlushKeeps(added, sorted, 1, 1);
    }
  }

  lemma {:induction false} RangeStepsPack(sorted: Tag, n: nat)
    requires n <= |sorted.ranges| && Ordered(sorted.ranges) && NoOverflow(sorted.ranges[..n])
    ensures var f := RangeSteps(sorted.ranges[..n]);
            Packing(f, sorted, 1) && f.current.blocks == [] && f.count == ExactCount(sorted.ranges[..n]) < MAX_HEADERS_PER_REQUEST
  {
    if n == 0 {
      EmptyTag();
    } else {
      var front := sorted.ranges[..n - 1];
      assert sorted.ranges[..n][..n - 1] == front;
      RangeStepsPack(sorted, n - 1);
      RangeStepPacks(RangeSteps(front), sorted, sorted.ranges[n - 1]);
      RangeStepCounts(RangeSteps(front), sorted.ranges[n - 1]);
      RangeStepsHold(sorted.ranges[..n]);
    }
  }

  lemma {:induction false} BlockStepsPack(f: Fill, sorted: Tag, blocks: seq<nat>)
    requires Packing(f, sorted, 1) && f.count <= MAX_HEADERS_PER_REQUEST
    ensures Packing(BlockSteps(f, blocks), sorted, 1) && BlockSteps(f, blocks).count <= MAX_HEADERS_PER_REQUEST
  {
    if blocks != [] {
      var n := |blocks| - 1;
      BlockStepsPack(f, sorted, blocks[..n]);
      BlockStepPacks(BlockSteps(f, blocks[..n]), sorted, blocks[n]);
    }
  }

  lemma BlockStepPacks(f: Fill, sorted: Tag, b: nat)
    requires Packing(f, sorted, 1) && f.count <= MAX_HEADERS_PER_REQUEST
    ensures Packing(BlockStep(f, b), sorted, 1) && BlockStep(f, b).count <= MAX_HEADERS_PER_REQUEST
  {
    if f.count > 0 && f.count + 1 > MAX_HEADERS_PER_REQUEST {
      FlushKeeps(f, sorted, 1, 1);
      BlockExtends(Flushed(f), sorted, b);
    } else {
      BlockExtends(f, sorted, b);
    }
  }

  lemma FinalPacks(f: Fill, sorted: Tag)
    requires Packing(f, sorted, 1)
    ensures Good(if f.count > 0 then f.batches + [f.current] else f.batches, sorted)
  {
    if f.count > 0 {
      assert (f.batches + [f.current])[..|f.batches|] == f.batches;
    }
  }

  lemma BuildPartitions(sorted: Tag)
    requires Ordered(sorted.ranges) && NoOverflow(sorted.ranges)
    ensures Partitions(Build(sorted), sorted)
  {
    var n := |sorted.ranges|;
    assert sorted.ranges[..n] == sorted.ranges;
    RangeStepsPack(sorted, n);
    BlockStepsPack(RangeSteps(sorted.ranges), sorted, sorted.blocks);
    FinalPacks(Filled(sorted), sorted);
    BuildHolds(sorted);
    EmptyTag();
    assert Flat(Build(sorted)) + [] == Flat(Build(sorted));
  }

  // ----- with an overflow it does not -----

  ghost predicate SomeBad(batches: seq<Tag>) {
    exists i :: 0 <= i < |batches| && !Within(batches[i])
  }

  /** Oversize with more than one item, or counted as zero: it will break the limit or be lost. */
  ghost predicate BadCurrent(f: Fill) {
    Size(f.current) > MAX_HEADERS_PER_REQUEST && f.current.ranges != [] &&
    (|f.current.ranges| + |f.current.blocks| >= 2 || f.count == 0)
  }

  ghost predicate Broken(f: Fill) {
    SomeBad(f.batches) || BadCurrent(f)
  }

  lemma FlushBreaks(f: Fill)
    requires SomeBad(f.batches) || !Within(f.current)
    ensures SomeBad(Flushed(f).batches)
  {
    var batches := f.batches + [f.current];
    if SomeBad(f.batches) {
      var i :| 0 <= i < |f.batches| && !Within(f.batches[i]);
      assert !Within(batches[i]);
    } else {
      assert !Within(batches[|f.batches|]);
    }
  }

  lemma RoomBreaks(f: Fill, r: Range)
    requires Broken(f)
    ensures Broken(Room(f, r))
  {
    if f.count > 0 && Wrap(f.count + SizeOf(r)) > MAX_HEADERS_PER_REQUEST {
      FlushBreaks(f);
    }
  }

  lemma RangeStepBreaks(f: Fill, r: Range)
    requires Broken(f) && f.current.blocks == []
    ensures Broken(RangeStep(f, r))
  {
    RoomBreaks(f, r);
    AddRange(Room(f, r).current, r);
    var added := WithRange(Room(f, r), r);
    if added.count >= MAX_HEADERS_PER_REQUEST {
      FlushBreaks(added);
    }
  }

  lemma BlockStepBreaks(f: Fill, b: nat)
    requires Broken(f)
    ensures Broken(BlockStep(f, b))
  {
    AddBlock(f.current, b);
    if f.count > 0 && f.count + 1 > MAX_HEADERS_PER_REQUEST {
      FlushBreaks(f);
    }
  }

  lemma {:induction false} BlockStepsBreak(f: Fill, blocks: seq<nat>)
    requires Broken(f)
    ensures Broken(BlockSteps(f, blocks))
  {
    if blocks != [] {
      BlockStepsBreak(f, blocks[..|blocks| - 1]);
      BlockStepBreaks(BlockSteps(f, blocks[..|blocks| - 1]), blocks[|blocks| - 1]);
    }
  }

  lemma OverflowCount(count: nat, r: Range)
    requires count < MAX_HEADERS_PER_REQUEST && r.start <= r.end && count + RangeSize(r) >= UINT64
    ensures Wrap(count + SizeOf(r)) <= count
  {
    var size := RangeSize(r);
    assert SizeOf(r) == if size == UINT64 then 0 else size;
    assert size < UINT64 ==> Wrap(count + size) == count + size - UINT64;
  }

  /** The range whose size overflows the count is taken into the current batch unnoticed. */
  lemma OverflowBreaks(f: Fill, sorted: Tag, r: Range)
    requires Packing(f, sorted, 1) && f.current.blocks == [] && f.count < MAX_HEADERS_PER_REQUEST
    requires r.start <= r.end && f.count + RangeSize(r) >= UINT64
    ensures Broken(RangeStep(f, r))
  {
    OverflowCount(f.count, r);
    AddRange(f.current, r);
    assert f.count > 0 ==> f.current.ranges != [];
    assert RangeStep(f, r) == WithRange(f, r);
  }

  lemma {:induction false} RangeStepsBreak(sorted: Tag, n: nat)
    requires n <= |sorted.ranges| && Ordered(sorted.ranges) && !NoOverflow(sorted.ranges[..n])
    ensures Broken(RangeSteps(sorted.ranges[..n]))
  {
    var front, r := sorted.ranges[..n - 1], sorted.ranges[n - 1];
    assert sorted.ranges[..n][..n - 1] == front;
    RangeStepsHold(front);
    if NoOverflow(front) {
      RangeStepsPack(sorted, n - 1);
      OverflowBreaks(RangeSteps(front), sorted, r);
    } else {
      RangeStepsBreak(sorted, n - 1);
      RangeStepBreaks(RangeSteps(front), r);
    }
  }

  lemma {:induction false} GoodAt(batches: seq<Tag>, sorted: Tag, i: nat)
    requires Good(batches, sorted) && i < |batches|
    ensures Within(batches[i]) && RangesFrom(batches[i], sorted)
    ensures i + 1 < |batches| ==> Size(batches[i]) + FirstSize(batches[i + 1]) > MAX_HEADERS_PER_REQUEST
  {
    var n := |batches| - 1;
    if i < n {
      GoodAt(batches[..n], sorted, i);
    }
  }

  /** A broken fill ends in a batch over the limit or in lost blocks. */
  lemma BrokenEnds(sorted: Tag)
    requires Broken(Filled(sorted))
    ensures !Partitions(Build(sorted), sorted)
  {
    var f := Filled(sorted);
    BuildHolds(sorted);
    if f.count > 0 {
      FlushBreaks(f);
      NotGood(Build(sorted), sorted);
    } else if SomeBad(f.batches) {
      NotGood(f.batches, sorted);
    } else {
      assert |Flat(Build(sorted))| < |Blocks(sorted)|;
    }
  }

  lemma NotGood(batches: seq<Tag>, sorted: Tag)
    requires SomeBad(batches)
    ensures !Good(batches, sorted)
  {
    if Good(batches, sorted) {
      var i :| 0 <= i < |batches| && !Within(batches[i]);
      GoodAt(batches, sorted, i);
    }
  }

  /**
   For every tag of proper ranges the builder keeps its promise exactly when no fill plus range size reaches
   2 to the 64 on the way: whenever one does, a batch exceeds the limit or blocks are lost.
   */
  lemma BuildPartitionsIff(sorted: Tag)
    requires Ordered(sorted.ranges)
    ensures Partitions(Build(sorted), sorted) <==> NoOverflow(sorted.ranges)
  {
    var n := |sorted.ranges|;
    assert sorted.ranges[..n] == sorted.ranges;
    if NoOverflow(sorted.ranges) {
      BuildPartitions(sorted);
    } else {
      RangeStepsBreak(sorted, n);
      BlockStepsBreak(RangeSteps(sorted.ranges), sorted.blocks);
      BrokenEnds(sorted);
    }
  }

  /** A tag of one range, whatever its ends, keeps its blocks exactly when it is not the range of all block numbers. */
  lemma OneRangeKeptIff(r: Range)
    ensures Flat(Build(Tag([r], []))) == Blocks(Tag([r], [])) <==> r != Range(0, MAX_UINT64)
  {
    var sorted := Tag([r], []);
    SingleRange(r);
    if r == Range(0, MAX_UINT64) {
      WholeSpaceIsDropped();
    } else if r.start <= r.end {
      ShortEnough(r);
      BuildPartitions(sorted);
    } else {
      BuildHolds(sorted);
      assert |Flat(Build(sorted))| == 0;
    }
  }

  lemma ShortEnough(r: Range)
    requires RangeSize(r) < UINT64
    ensures NoOverflow([r])
  {
    assert [r][..0] == [];
  }

  /** The range of all block numbers goes through the builder without leaving a batch. */
  lemma WholeSpaceIsDropped()
    ensures Build(Tag([Range(0, MAX_UINT64)], [])) == [] && Size(Tag([Range(0, MAX_UINT64)], [])) == UINT64
  {
    var r := Range(0, MAX_UINT64);
    assert [r][..0] == [];
    assert RangeSteps([r]) == RangeStep(START, r);
    SingleRange(r);
  }

  lemma ReversedSteps()
    ensures var r1, r2, r3 := Range(1, 1000), Range(1500, 1000), Range(1501, 2400);
            var f1, f2 := Fill([], Tag([r1], []), 1000), Fill([], Tag([r1, r2], []), 501);
            RangeStep(START, r1) == f1 && RangeStep(f1, r2) == f2 &&
            RangeStep(f2, r3) == Fill([], Tag([r1, r2, r3], []), 1401)
  {
    assert SizeOf(Range(1500, 1000)) == UINT64 - 499;
  }

  lemma ThreeSteps(r1: Range, r2: Range, r3: Range)
    ensures RangeSteps([r1, r2, r3]) == RangeStep(RangeStep(RangeStep(START, r1), r2), r3)
  {
    assert [r1, r2, r3][..2] == [r1, r2] && [r1, r2][..1] == [r1] && [r1][..0] == [];
    assert RangeSteps([r1]) == RangeStep(START, r1);
    assert RangeSteps([r1, r2]) == RangeStep(RangeSteps([r1]), r2);
  }

  lemma ThreeSizes(r1: Range, r2: Range, r3: Range)
    ensures Size(Tag([r1, r2, r3], [])) == RangeSize(r1) + RangeSize(r2) + RangeSize(r3)
  {
    assert [r1, r2, r3][..2] == [r1, r2] && [r1, r2][..1] == [r1] && [r1][..0] == [];
    assert |RangeBlocks([r1])| == RangeSize(r1);
    assert |RangeBlocks([r1, r2])| == RangeSize(r1) + RangeSize(r2);
  }

  /** A reversed range stands for no block but is counted backwards: three ranges of 1900 blocks end up in one batch. */
  lemma ReversedRangeBreaksLimit()
    ensures var tag := Tag([Range(1, 1000), Range(1500, 1000), Range(1501, 2400)], []);
            Build(tag) == [tag] && Size(tag) == 1900
  {
    var r1, r2, r3 := Range(1, 1000), Range(1500, 1000), Range(1501, 2400);
    ReversedSteps();
    ThreeSteps(r1, r2, r3);
    ThreeSizes(r1, r2, r3);
  }

  lemma SingleRange(r: Range)
    ensures Size(Tag([r], [])) == RangeSize(r)
  {
    assert [r][..0] == [];
    assert RangeBlocks([r]) == [] + Span(r.start, r.end + 1);
  }

  /** A batch over the limit is a single range of the tag that is itself over the limit. */
  lemma OversizeIsOneRange(batches: seq<Tag>, sorted: Tag, i: nat)
    requires Good(batches, sorted) && i < |batches| && Size(batches[i]) > MAX_HEADERS_PER_REQUEST
    ensures |batches[i].ranges| == 1 && batches[i].blocks == []
    ensures batches[i].ranges[0] in sorted.ranges && RangeSize(batches[i].ranges[0]) == Size(batches[i])
  {
    GoodAt(batches, sorted, i);
    var r := batches[i].ranges[0];
    assert batches[i] == Tag([r], []);
    SingleRange(r);
  }

  lemma {:induction false} ExactCountBelow(ranges: seq<Range>)
    ensures ExactCount(ranges) < MAX_HEADERS_PER_REQUEST
  {
  }

  /** Ranges that leave room for a batch in 64 bits never overflow. */
  lemma {:induction false} ShortRangesFit(ranges: seq<Range>, n: nat)
    requires n <= |ranges| && forall i :: 0 <= i < |ranges| ==> RangeSize(ranges[i]) <= UINT64 - MAX_HEADERS_PER_REQUEST
    ensures NoOverflow(ranges[..n]) && (n == |ranges| ==> NoOverflow(ranges))
  {
    assert n == |ranges| ==> ranges[..n] == ranges;
    if n > 0 {
      ShortRangesFit(ranges, n - 1);
      assert ranges[..n][..n - 1] == ranges[..n - 1];
      ExactCountBelow(ranges[..n - 1]);
    }
  }

  // ----- reversed ranges -----

  /** After each addition the counted size is the true one. */
  predicate CountedRight(ranges: seq<Range>) {
    ranges == [] ||
    var n := |ranges| - 1;
    var f := RangeSteps(ranges[..n]);
    CountedRight(ranges[..n]) && Room(f, ranges[n]).count + RangeSize(ranges[n]) == WithRange(Room(f, ranges[n]), ranges[n]).count
  }

  /** Proper, or empty with its end just before its start. */
  predicate NotReversed(r: Range) {
    r.start <= r.end + 1
  }

  lemma AddsRightIff(f: Fill, r: Range)
    requires f.count < MAX_HEADERS_PER_REQUEST
    ensures Room(f, r).count + RangeSize(r) == WithRange(Room(f, r), r).count <==> NotReversed(r) && f.count + RangeSize(r) < UINT64
    ensures NotReversed(r) && f.count + RangeSize(r) < UINT64 ==> RangeStep(f, r).count == NextCount(f.count, RangeSize(r))
  {
    if r.start <= r.end && f.count + RangeSize(r) >= UINT64 {
      OverflowCount(f.count, r);
    } else if !NotReversed(r) {
      var gap := r.start - r.end - 1;
      assert SizeOf(r) == UINT64 - gap;
      assert 0 < gap < UINT64 && Room(f, r).count < UINT64;
      WrapShift(Room(f, r).count, gap);
    }
  }

  lemma WrapShift(x: nat, gap: nat)
    requires x < UINT64 && 0 < gap < UINT64
    ensures Wrap(x + (UINT64 - gap)) != x
  {
  }

  lemma CountBelow(ranges: seq<Range>)
    ensures RangeSteps(ranges).count < MAX_HEADERS_PER_REQUEST
  {
    RangeStepsHold(ranges);
  }

  predicate NoneReversed(ranges: seq<Range>) {
    forall i :: 0 <= i < |ranges| ==> NotReversed(ranges[i])
  }

  lemma NoneReversedLast(ranges: seq<Range>)
    requires ranges != []
    ensures NoneReversed(ranges) <==> NoneReversed(ranges[..|ranges| - 1]) && NotReversed(ranges[|ranges| - 1])
  {
    var front := ranges[..|ranges| - 1];
    if NoneReversed(ranges) {
      forall i | 0 <= i < |front| ensures NotReversed(front[i]) {
        assert NotReversed(ranges[i]);
      }
    }
    if NoneReversed(front) && NotReversed(ranges[|ranges| - 1]) {
      forall i | 0 <= i < |ranges| ensures NotReversed(ranges[i]) {
        assert i < |front| ==> ranges[i] == front[i];
      }
    }
  }

  /** For every list of ranges: the sizes are counted right exactly if no range is reversed and no count overflows. */
  lemma {:induction false} CountedRightIff(ranges: seq<Range>)
    ensures CountedRight(ranges) <==> NoneReversed(ranges) && NoOverflow(ranges)
    ensures CountedRight(ranges) ==> RangeSteps(ranges).count == ExactCount(ranges)
  {
    if ranges != [] {
      var n := |ranges| - 1;
      CountedRightIff(ranges[..n]);
      CountBelow(ranges[..n]);
      AddsRightIff(RangeSteps(ranges[..n]), ranges[n]);
      NoneReversedLast(ranges);
    }
  }

  /** Within the limit, or all its blocks are those of its last range. */
  ghost predicate Kept(t: Tag) {
    Size(t) <= MAX_HEADERS_PER_REQUEST || (t.blocks == [] && t.ranges != [] && RangeSize(t.ranges[|t.ranges| - 1]) == Size(t))
  }

  ghost predicate AllKept(batches: seq<Tag>) {
    forall i :: 0 <= i < |batches| ==> Kept(batches[i])
  }

  /** Counted right so far, with every batch keeping the limit. */
  ghost predicate Right(f: Fill) {
    f.count == Size(f.current) && AllKept(f.batches) && Kept(f.current)
  }

  lemma FlushRight(f: Fill)
    requires Right(f)
    ensures Right(Flushed(f))
  {
    EmptyTag();
  }

  lemma RangeStepRight(f: Fill, r: Range)
    requires Right(f) && f.current.blocks == [] && f.count < MAX_HEADERS_PER_REQUEST && NotReversed(r) && f.count + RangeSize(r) < UINT64
    ensures Right(RangeStep(f, r))
  {
    FlushRight(f);
    AddsRightIff(f, r);
    var room := Room(f, r);
    AddRange(room.current, r);
    var added := WithRange(room, r);
    assert Right(added);
    FlushRight(added);
  }

  lemma {:induction false} RangeStepsRight(ranges: seq<Range>)
    requires CountedRight(ranges)
    ensures Right(RangeSteps(ranges))
  {
    if ranges == [] {
      EmptyTag();
    } else {
      var n := |ranges| - 1;
      CountedRightIff(ranges);
      CountedRightIff(ranges[..n]);
      RangeStepsRight(ranges[..n]);
      RangeStepsHold(ranges[..n]);
      RangeStepRight(RangeSteps(ranges[..n]), ranges[n]);
    }
  }

  lemma {:induction false} BlockStepsRight(f: Fill, blocks: seq<nat>)
    requires Right(f) && f.count <= MAX_HEADERS_PER_REQUEST
    ensures Right(BlockSteps(f, blocks)) && BlockSteps(f, blocks).count <= MAX_HEADERS_PER_REQUEST
  {
    if blocks != [] {
      var n := |blocks| - 1;
      BlockStepsRight(f, blocks[..n]);
      BlockStepRight(BlockSteps(f, blocks[..n]), blocks[n]);
    }
  }

  lemma BlockStepRight(f: Fill, b: nat)
    requires Right(f) && f.count <= MAX_HEADERS_PER_REQUEST
    ensures Right(BlockStep(f, b)) && BlockStep(f, b).count <= MAX_HEADERS_PER_REQUEST
  {
    FlushRight(f);
    var room := if f.count > 0 && f.count + 1 > MAX_HEADERS_PER_REQUEST then Flushed(f) else f;
    AddBlock(room.current, b);
  }

  /** Any tag without reversed ranges and overflow keeps all its blocks, and no batch exceeds the limit by more than one range. */
  lemma CountedRightKeeps(sorted: Tag)
    requires CountedRight(sorted.ranges)
    ensures Flat(Build(sorted)) == Blocks(sorted) && AllKept(Build(sorted))
  {
    RangeStepsRight(sorted.ranges);
    RangeStepsHold(sorted.ranges);
    BlockStepsRight(RangeSteps(sorted.ranges), sorted.blocks);
    BuildHolds(sorted);
    assert Lost(sorted) == [];
    assert Flat(Build(sorted)) + [] == Flat(Build(sorted));
  }
}
