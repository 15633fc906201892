/** Tags of block ranges and single blocks, and the lists of blocks they stand for. */
module Tags {
  import opened Sums

  /** Block numbers are 64 bits wide. */
  const UINT64: nat := 0x1_0000_0000_0000_0000
  const MAX_UINT64: nat := UINT64 - 1

  function Wrap(x: int): (r: nat)
    ensures r < UINT64 && (0 <= x < UINT64 ==> r == x)
  {
    x % UINT64
  }

  type BlockNumber = x: nat | x < UINT64

  datatype Range = Range(start: BlockNumber, end: BlockNumber)

  datatype Tag = Tag(ranges: seq<Range>, blocks: seq<nat>)

  const EMPTY := Tag([], [])

  /** The blocks from start up to, not including, stop. */
  ghost function Span(start: nat, stop: nat): (s: seq<nat>)
    ensures start <= stop ==> |s| == stop - start
  {
    if start <= stop then seq(stop - start, i requires 0 <= i => start + i) else []
  }

  lemma Assoc(a: seq<nat>, b: seq<nat>, c: seq<nat>)
    ensures a + b + c == a + (b + c)
  {
  }

  lemma PrefixStep(done: seq<nat>, blocks: seq<nat>, i: nat)
    requires i < |blocks|
    ensures done + blocks[..i] + [blocks[i]] == done + blocks[..i + 1]
  {
  }

  lemma PrefixEnds(done: seq<nat>, blocks: seq<nat>)
    ensures done + blocks[..0] == done && done + blocks[..|blocks|] == done + blocks
  {
    assert blocks[..|blocks|] == blocks;
  }

  lemma CountConcat(a: seq<nat>, b: seq<nat>, x: nat)
    ensures multiset(a + b)[x] == multiset(a)[x] + multiset(b)[x]
  {
  }

  /** A span goes on where its first part stops. */
  lemma SpanSplit(done: seq<nat>, start: nat, mid: nat, stop: nat)
    requires start <= mid <= stop
    ensures done + Span(start, mid) + Span(mid, stop) == done + Span(start, stop)
  {
    assert Span(start, mid) + Span(mid, stop) == Span(start, stop);
    Assoc(done, Span(start, mid), Span(mid, stop));
  }

  ghost function RangeBlocks(rs: seq<Range>): seq<nat> {
    if rs == [] then [] else RangeBlocks(rs[..|rs| - 1]) + Span(rs[|rs| - 1].start, rs[|rs| - 1].end + 1)
  }

  /** All blocks of a tag: its ranges in turn, then its single blocks. */
  ghost function Blocks(t: Tag): seq<nat> {
    RangeBlocks(t.ranges) + t.blocks
  }

  ghost function Flat(ts: seq<Tag>): seq<nat> {
    if ts == [] then [] else Flat(ts[..|ts| - 1]) + Blocks(ts[|ts| - 1])
  }

  lemma FlatPush(ts: seq<Tag>, t: Tag)
    ensures Flat(ts + [t]) == Flat(ts) + Blocks(t)
  {
    assert (ts + [t])[..|ts|] == ts;
  }

  lemma AddRange(t: Tag, r: Range)
    requires t.blocks == []
    ensures Blocks(t.(ranges := t.ranges + [r])) == Blocks(t) + Span(r.start, r.end + 1)
  {
    assert (t.ranges + [r])[..|t.ranges|] == t.ranges;
  }

  lemma AddBlock(t: Tag, b: nat)
    ensures Blocks(t.(blocks := t.blocks + [b])) == Blocks(t) + [b]
  {
  }

  lemma EmptyTag()
    ensures Blocks(EMPTY) == []
  {
  }

  /** A sorted copy: the same ranges and blocks, ranges by start and blocks ascending. */
  ghost predicate SortedCopy(t: Tag, s: Tag) {
    multiset(t.ranges) == multiset(s.ranges) && multiset(t.blocks) == multiset(s.blocks) &&
    (forall i, j :: 0 <= i < j < |s.ranges| ==> s.ranges[i].start <= s.ranges[j].start) &&
    (forall i, j :: 0 <= i < j < |s.blocks| ==> s.blocks[i] <= s.blocks[j])
  }

  // ----- a sorted copy stands for the same blocks -----

  ghost function Hits(b: nat, r: Range): nat {
    multiset(Span(r.start, r.end + 1))[b]
  }

  ghost function HitsOf(b: nat): Range -> int {
    (r: Range) => Hits(b, r)
  }

  /** How often a block occurs in a list of ranges. */
  lemma {:induction false} RangeBlocksCount(rs: seq<Range>, b: nat)
    ensures multiset(RangeBlocks(rs))[b] == SumBy(rs, HitsOf(b))
  {
    if rs != [] {
      var n := |rs| - 1;
      RangeBlocksCount(rs[..n], b);
      CountConcat(RangeBlocks(rs[..n]), Span(rs[n].start, rs[n].end + 1), b);
      SumByLast(rs, HitsOf(b));
    }
  }

  /** Sorting a tag does not change the blocks it stands for. */
  lemma SortedCopyDenotes(t: Tag, s: Tag)
    requires SortedCopy(t, s)
    ensures multiset(Blocks(t)) == multiset(Blocks(s))
  {
    forall b ensures multiset(RangeBlocks(t.ranges))[b] == multiset(RangeBlocks(s.ranges))[b] {
      RangeBlocksCount(t.ranges, b);
      RangeBlocksCount(s.ranges, b);
      SumByPermuted(t.ranges, s.ranges, HitsOf(b));
    }
    assert multiset(RangeBlocks(t.ranges)) == multiset(RangeBlocks(s.ranges));
  }
}

/** DataSync's batch builder: ranges are cut so that every batch but the last is full. */
module DataBatches {
  import opened Tags

  const MAX_DATA_PER_REQUEST: nat := 30

  // ----- the inner loop in 64-bit arithmetic -----

  datatype Cursor = Cursor(start: nat, count: nat)

  /** One pass of the inner loop over a range that ends at end: where the range goes on, and the new fill. */
  function Pass(end: BlockNumber, c: Cursor): (c': Cursor)
    requires c.start < UINT64 && c.count < MAX_DATA_PER_REQUEST
    ensures c'.start < UINT64 && c'.count < MAX_DATA_PER_REQUEST
  {
    var capacity := MAX_DATA_PER_REQUEST - c.count;
    var pieces := Wrap(end - c.start + 1);
    if pieces <= capacity then
      Cursor(Wrap(end + 1), if c.count + pieces == MAX_DATA_PER_REQUEST then 0 else c.count + pieces)
    else Cursor(Wrap(c.start + capacity), 0)
  }

  function Passes(end: BlockNumber, c: Cursor, n: nat): (c': Cursor)
    requires c.start < UINT64 && c.count < MAX_DATA_PER_REQUEST
    ensures c'.start < UINT64 && c'.count < MAX_DATA_PER_REQUEST
    decreases n
  {
    if n == 0 then c else Passes(end, Pass(end, c), n - 1)
  }

  /** A range whose cutting ends: one that is empty or stops short of the largest number. */
  predicate Ends(r: Range) {
    r.start > r.end || r.end < MAX_UINT64
  }

  /** The inner loop leaves a range after some number of passes iff the range does not reach the largest number. */
  lemma InnerLoopEndsIff(r: Range, count: nat)
    requires count < MAX_DATA_PER_REQUEST
    ensures Ends(r) <==> exists n :: Passes(r.end, Cursor(r.start, count), n).start > r.end
  {
    if r.start > r.end {
      assert Passes(r.end, Cursor(r.start, count), 0).start > r.end;
    } else if r.end < MAX_UINT64 {
      var n := InnerLoopEnds(r.end, Cursor(r.start, count));
    }
  }

  lemma {:induction false} InnerLoopEnds(end: BlockNumber, c: Cursor) returns (n: nat)
    requires c.start <= end < MAX_UINT64 && c.count < MAX_DATA_PER_REQUEST
    ensures Passes(end, c, n).start > end
    decreases end - c.start
  {
    var c' := Pass(end, c);
    if c'.start > end {
      n := 1;
      assert Passes(end, c', 0) == c';
    } else {
      var m := InnerLoopEnds(end, c');
      n := m + 1;
    }
  }

  // ----- the builder -----

  ghost predicate AllFull(batches: seq<Tag>) {
    batches == [] || (|Blocks(batches[|batches| - 1])| == MAX_DATA_PER_REQUEST && AllFull(batches[..|batches| - 1]))
  }

  lemma {:induction false} AllFullAt(batches: seq<Tag>, i: nat)
    requires AllFull(batches) && i < |batches|
    ensures |Blocks(batches[i])| == MAX_DATA_PER_REQUEST
  {
    if i < |batches| - 1 {
      AllFullAt(batches[..|batches| - 1], i);
    }
  }

  /** The builder's variables: finished batches, the batch being filled and its number of blocks. */
  datatype Fill = Fill(batches: seq<Tag>, current: Tag, count: nat)

  /** Full batches plus the batch being filled hold exactly the blocks done so far, in order. */
  ghost predicate Packed(f: Fill, done: seq<nat>) {
    AllFull(f.batches) && f.count == |Blocks(f.current)| && Flat(f.batches) + Blocks(f.current) == done
  }

  function Flushed(f: Fill): Fill {
    Fill(f.batches + [f.current], EMPTY, 0)
  }

  function WithRange(f: Fill, start: nat, stop: nat): Fill
    requires start < stop <= UINT64
  {
    f.(current := f.current.(ranges := f.current.ranges + [Range(start, stop - 1)]), count := f.count + stop - start)
  }

  function WithBlock(f: Fill, b: nat): Fill {
    f.(current := f.current.(blocks := f.current.blocks + [b]), count := f.count + 1)
  }

  lemma FlushKeeps(f: Fill, done: seq<nat>)
    requires Packed(f, done) && f.count == MAX_DATA_PER_REQUEST
    ensures Packed(Flushed(f), done)
  {
    FlatPush(f.batches, f.current);
    EmptyTag();
    assert (f.batches + [f.current])[..|f.batches|] == f.batches;
    assert Flat(f.batches + [f.current]) + [] == done;
  }

  /** The current batch takes the blocks from start up to stop of a range that began at first. */
  lemma RangeExtends(f: Fill, done: seq<nat>, first: nat, start: nat, stop: nat)
    requires Packed(f, done + Span(first, start)) && f.current.blocks == [] && first <= start < stop <= UINT64
    ensures Packed(WithRange(f, start, stop), done + Span(first, stop))
  {
    AddRange(f.current, Range(start, stop - 1));
    Assoc(Flat(f.batches), Blocks(f.current), Span(start, stop));
    SpanSplit(done, first, start, stop);
  }

  lemma BlockExtends(f: Fill, done: seq<nat>, b: nat)
    requires Packed(f, done)
    ensures Packed(WithBlock(f, b), done + [b])
  {
    AddBlock(f.current, b);
    Assoc(Flat(f.batches), Blocks(f.current), [b]);
  }

  /** The rest of the range fits into the current batch, which is closed if that fills it. */
  method TakeRest(f0: Fill, start: nat, end: nat, ghost first: nat, ghost done: seq<nat>) returns (f: Fill)
    requires first <= start <= end < MAX_UINT64 && f0.current.blocks == [] && f0.count + (end - start + 1) <= MAX_DATA_PER_REQUEST
    requires Packed(f0, done + Span(first, start))
    ensures Packed(f, done + Span(first, end + 1)) && f.current.blocks == [] && f.count < MAX_DATA_PER_REQUEST
  {
    RangeExtends(f0, done, first, start, end + 1);
    f := WithRange(f0, start, end + 1);
    if f.count == MAX_DATA_PER_REQUEST {
      FlushKeeps(f, done + Span(first, end + 1));
      f := Flushed(f);
    }
  }

  /** The current batch takes as much of the range as it still holds and is closed. */
  method TakeChunk(f0: Fill, start: nat, chunkEnd: nat, ghost first: nat, ghost done: seq<nat>) returns (f: Fill)
    requires first <= start <= chunkEnd < MAX_UINT64 && f0.current.blocks == []
    requires f0.count + (chunkEnd - start + 1) == MAX_DATA_PER_REQUEST
    requires Packed(f0, done + Span(first, start))
    ensures Packed(f, done + Span(first, chunkEnd + 1)) && f.current.blocks == [] && f.count == 0
  {
    RangeExtends(f0, done, first, start, chunkEnd + 1);
    f := WithRange(f0, start, chunkEnd + 1);
    FlushKeeps(f, done + Span(first, chunkEnd + 1));
    f := Flushed(f);
  }

  /** The inner loop: cuts one range into the current and as many new batches as it needs. */
  method PackRange(f0: Fill, r: Range, ghost done: seq<nat>) returns (f: Fill)
    requires Ends(r) && Packed(f0, done) && f0.current.blocks == [] && f0.count < MAX_DATA_PER_REQUEST
    ensures Packed(f, done + Span(r.start, r.end + 1)) && f.current.blocks == [] && f.count < MAX_DATA_PER_REQUEST
  {
    f := f0;
    var start: nat, end: nat := r.start, r.end;
    assert done + Span(r.start, start) == done;
    while start <= end
      invariant r.start <= start && start <= if r.start <= end then end + 1 else r.start
      invariant Packed(f, done + Span(r.start, start))
      invariant f.current.blocks == [] && f.count < MAX_DATA_PER_REQUEST
      decreases end + 1 - start
    {
      var capacity := MAX_DATA_PER_REQUEST - f.count;
      var pieces := Wrap(end - start + 1);
      if pieces <= capacity {
        f := TakeRest(f, start, end, r.start, done);
        start := Wrap(end + 1);
      } else {
        var chunkEnd := start + capacity - 1;
        f := TakeChunk(f, start, chunkEnd, r.start, done);
        start := Wrap(chunkEnd + 1);
      }
    }
    assert Span(r.start, start) == Span(r.start, end + 1);
  }

  /** The loop over ranges. */
  method PackRanges(ranges: seq<Range>) returns (f: Fill)
    requires forall i :: 0 <= i < |ranges| ==> Ends(ranges[i])
    ensures Packed(f, RangeBlocks(ranges)) && f.current.blocks == [] && f.count < MAX_DATA_PER_REQUEST
  {
    f := Fill([], EMPTY, 0);
    EmptyTag();
    for i := 0 to |ranges|
      invariant Packed(f, RangeBlocks(ranges[..i])) && f.current.blocks == [] && f.count < MAX_DATA_PER_REQUEST
    {
      f := PackRange(f, ranges[i], RangeBlocks(ranges[..i]));
      assert ranges[..i + 1][..i] == ranges[..i];
    }
    assert ranges[..|ranges|] == ranges;
  }

  /** One single block; a full batch is closed first. */
  method PackBlock(f0: Fill, b: nat, ghost done: seq<nat>) returns (f: Fill)
    requires Packed(f0, done) && f0.count <= MAX_DATA_PER_REQUEST
    ensures Packed(f, done + [b]) && f.count <= MAX_DATA_PER_REQUEST
  {
    f := f0;
    if f.count > 0 && f.count + 1 > MAX_DATA_PER_REQUEST {
      FlushKeeps(f, done);
      f := Flushed(f);
    }
    BlockExtends(f, done, b);
    f := WithBlock(f, b);
  }

  /** The loop over single blocks. */
  method PackBlocks(f0: Fill, blocks: seq<nat>, ghost done: seq<nat>) returns (f: Fill)
    requires Packed(f0, done) && f0.count < MAX_DATA_PER_REQUEST
    ensures Packed(f, done + blocks) && f.count <= MAX_DATA_PER_REQUEST
  {
    f := f0;
    PrefixEnds(done, blocks);
    for i := 0 to |blocks|
      invariant Packed(f, done + blocks[..i]) && f.count <= MAX_DATA_PER_REQUEST
    {
      f := PackBlock(f, blocks[i], done + blocks[..i]);
      PrefixStep(done, blocks, i);
    }
  }

  /** The simple form: the list of blocks cut into pieces of the full size, the last one possibly shorter. */
  ghost predicate CutEvenly(batches: seq<Tag>, all: seq<nat>) {
    Flat(batches) == all &&
    (batches != [] ==>
      AllFull(batches[..|batches| - 1]) && 1 <= |Blocks(batches[|batches| - 1])| <= MAX_DATA_PER_REQUEST)
  }

  lemma FinalFlush(f: Fill, done: seq<nat>)
    requires Packed(f, done) && f.count <= MAX_DATA_PER_REQUEST
    ensures CutEvenly(if f.count > 0 then f.batches + [f.current] else f.batches, done)
  {
    if f.count > 0 {
      FlatPush(f.batches, f.current);
      assert (f.batches + [f.current])[..|f.batches|] == f.batches;
    } else {
      assert Blocks(f.current) == [];
      assert Flat(f.batches) + [] == Flat(f.batches);
    }
  }

  /**
   The batches are an even cut of the sorted tag's list of blocks, and together hold every block of the tag as
   often as the tag does.
   */
  method BuildDataBatches(tag: Tag, sorted: Tag) returns (batches: seq<Tag>)
    requires SortedCopy(tag, sorted) && forall i :: 0 <= i < |sorted.ranges| ==> Ends(sorted.ranges[i])
    ensures CutEvenly(batches, Blocks(sorted))
    ensures multiset(Flat(batches)) == multiset(Blocks(tag))
  {
    var f := PackRanges(sorted.ranges);
    f := PackBlocks(f, sorted.blocks, RangeBlocks(sorted.ranges));
    FinalFlush(f, Blocks(sorted));
    batches := f.batches;
    if f.count > 0 {
      batches := batches + [f.current];
    }
    SortedCopyDenotes(tag, sorted);
  }

  // ----- what an even cut means -----

  lemma {:induction false} FlatFull(batches: seq<Tag>)
    requires AllFull(batches)
    ensures |Flat(batches)| == |batches| * MAX_DATA_PER_REQUEST
  {
    if batches != [] {
      FlatFull(batches[..|batches| - 1]);
    }
  }

  /** The number of batches is the ceiling quotient. */
  lemma BatchCount(batches: seq<Tag>, all: seq<nat>)
    requires CutEvenly(batches, all)
    ensures |batches| == (|all| + 29) / 30
  {
    if batches != [] {
      FlatFull(batches[..|batches| - 1]);
    }
  }

  lemma {:induction false} AllFullPrefix(batches: seq<Tag>, k: nat)
    requires AllFull(batches) && k <= |batches|
    ensures AllFull(batches[..k])
    decreases |batches|
  {
    if k == |batches| {
      assert batches[..k] == batches;
    } else {
      var front := batches[..|batches| - 1];
      assert front[..k] == batches[..k];
      AllFullPrefix(front, k);
    }
  }

  lemma {:induction false} FlatPrefix(batches: seq<Tag>, k: nat)
    requires k <= |batches|
    ensures Flat(batches[..k]) <= Flat(batches)
    decreases |batches|
  {
    if k == |batches| {
      assert batches[..k] == batches;
    } else {
      var front := batches[..|batches| - 1];
      assert front[..k] == batches[..k];
      FlatPrefix(front, k);
    }
  }

  lemma FlatUpTo(batches: seq<Tag>, k: nat)
    requires k < |batches|
    ensures Flat(batches[..k + 1]) == Flat(batches[..k]) + Blocks(batches[k])
  {
    assert batches[..k + 1][..k] == batches[..k];
  }

  lemma BatchPosition(batches: seq<Tag>, all: seq<nat>, k: nat)
    requires CutEvenly(batches, all) && k < |batches|
    ensures |Flat(batches[..k])| == k * MAX_DATA_PER_REQUEST
    ensures 1 <= |Blocks(batches[k])| <= MAX_DATA_PER_REQUEST && (k < |batches| - 1 ==> |Blocks(batches[k])| == MAX_DATA_PER_REQUEST)
  {
    var front := batches[..|batches| - 1];
    AllFullPrefix(front, k);
    assert front[..k] == batches[..k];
    FlatFull(batches[..k]);
    if k < |front| {
      AllFullAt(front, k);
    }
  }

  /** Batch k holds the blocks at positions 30k to 30k+29 of the sorted list: the builder is a plain chunking. */
  lemma BatchContents(batches: seq<Tag>, all: seq<nat>, k: nat)
    requires CutEvenly(batches, all) && k < |batches|
    ensures var from, size := k * 30, |Blocks(batches[k])|;
            1 <= size <= 30 && from + size <= |all| && Blocks(batches[k]) == all[from..from + size] &&
            (if k < |batches| - 1 then size == 30 else from + size == |all|)
  {
    BatchPosition(batches, all, k);
    FlatUpTo(batches, k);
    FlatPrefix(batches, k + 1);
    if k == |batches| - 1 {
      assert batches[..k + 1] == batches;
    }
  }
}
