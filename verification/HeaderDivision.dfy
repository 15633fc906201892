/** HeaderSync's division of a range into pieces, in 64-bit arithmetic. */
module HeaderDivision {
  import opened Tags
  import opened HeaderBatches

  // ----- the loop of DivideTags, pass by pass -----

  /** The loop index after k passes, in 64 bits. */
  function IndexAfter(start: nat, k: nat): BlockNumber {
    Wrap(At(start, k))
  }

  /** The piece that a pass at index i appends; its end is computed in 64 bits before it is cut to the range. */
  function PieceAt(i: BlockNumber, end: BlockNumber): Range {
    var chunkEnd := Wrap(i + MAX_HEADERS_PER_REQUEST - 1);
    Range(i, if chunkEnd > end then end else chunkEnd)
  }

  /** The pieces of the first n passes. */
  function Pieces(start: BlockNumber, end: BlockNumber, n: nat): seq<Range> {
    if n == 0 then [] else Pieces(start, end, n - 1) + [PieceAt(IndexAfter(start, n - 1), end)]
  }

  /** The loop leaves after exactly n passes. */
  ghost predicate LeavesAfter(start: BlockNumber, end: BlockNumber, n: nat) {
    IndexAfter(start, n) > end && forall k :: 0 <= k < n ==> IndexAfter(start, k) <= end
  }

  /** The blocks of the first n pieces. */
  ghost function Covered(start: BlockNumber, end: BlockNumber, n: nat): seq<nat> {
    RangeBlocks(Pieces(start, end, n))
  }

  ghost function PieceBlocks(i: BlockNumber, end: BlockNumber): seq<nat> {
    Span(i, PieceAt(i, end).end + 1)
  }

  /** The index after k passes if nothing wraps. */
  function At(start: nat, k: nat): nat {
    start + k * MAX_HEADERS_PER_REQUEST
  }

  function ChunksOf(start: nat, end: nat): nat {
    if start <= end then (end - start) / MAX_HEADERS_PER_REQUEST + 1 else 0
  }

  /** The index that leaves the range is still a 64-bit number. */
  predicate NoWrap(start: nat, end: nat) {
    At(start, ChunksOf(start, end)) < UINT64
  }

  lemma AtNext(start: nat, k: nat)
    ensures At(start, k + 1) == At(start, k) + MAX_HEADERS_PER_REQUEST
  {
  }

  lemma ChunkCount(start: nat, end: nat, k: nat)
    ensures At(start, k) <= end <==> k < ChunksOf(start, end)
  {
  }

  lemma WrapOnce(x: nat)
    requires UINT64 <= x < 2 * UINT64
    ensures Wrap(x) == x - UINT64
  {
  }

  /** Up to the last piece the index is the one without wrapping. */
  lemma PlainIndex(start: BlockNumber, end: BlockNumber, k: nat)
    requires k < ChunksOf(start, end)
    ensures IndexAfter(start, k) == At(start, k) <= end
  {
    ChunkCount(start, end, k);
  }

  /** The index after the last piece: past the range, or past 64 bits and then within the range again. */
  lemma LeavingIndex(start: BlockNumber, end: BlockNumber)
    ensures NoWrap(start, end) ==> IndexAfter(start, ChunksOf(start, end)) == At(start, ChunksOf(start, end)) > end
    ensures !NoWrap(start, end) ==> start <= end && UINT64 <= At(start, ChunksOf(start, end)) < UINT64 + MAX_HEADERS_PER_REQUEST
    ensures !NoWrap(start, end) ==> IndexAfter(start, ChunksOf(start, end)) == At(start, ChunksOf(start, end)) - UINT64 <= end
  {
    var n := ChunksOf(start, end);
    ChunkCount(start, end, n);
    if !NoWrap(start, end) {
      AtNext(start, n - 1);
      PlainIndex(start, end, n - 1);
      WrapOnce(At(start, n));
    }
  }

  /** The loop stops at the end of the range exactly when its index does not wrap. */
  lemma DivideStopsIff(start: BlockNumber, end: BlockNumber)
    ensures LeavesAfter(start, end, ChunksOf(start, end)) <==> NoWrap(start, end)
  {
    LeavingIndex(start, end);
    forall k | 0 <= k < ChunksOf(start, end) ensures IndexAfter(start, k) <= end {
      PlainIndex(start, end, k);
    }
  }

  // ----- what the pieces hold -----

  lemma Join(a: nat, b: nat, c: nat)
    requires a <= b <= c
    ensures Span(a, b) + Span(b, c) == Span(a, c)
  {
  }

  lemma PrefixGrows(a: seq<nat>, b: seq<nat>, more: seq<nat>)
    requires a <= b
    ensures a <= b + more
  {
  }

  lemma {:induction false} PiecesCount(start: BlockNumber, end: BlockNumber, n: nat)
    ensures |Pieces(start, end, n)| == n
  {
    if n > 0 {
      PiecesCount(start, end, n - 1);
    }
  }

  lemma RangePush(ranges: seq<Range>, r: Range)
    ensures RangeBlocks(ranges + [r]) == RangeBlocks(ranges) + Span(r.start, r.end + 1)
  {
    assert (ranges + [r])[..|ranges|] == ranges;
  }

  lemma NextPiece(start: BlockNumber, end: BlockNumber, n: nat)
    ensures Covered(start, end, n + 1) == Covered(start, end, n) + PieceBlocks(IndexAfter(start, n), end)
  {
    RangePush(Pieces(start, end, n), PieceAt(IndexAfter(start, n), end));
  }

  lemma {:induction false} PiecesGrow(start: BlockNumber, end: BlockNumber, m: nat, n: nat)
    requires m <= n
    ensures Covered(start, end, m) <= Covered(start, end, n)
    decreases n
  {
    if m < n {
      PiecesGrow(start, end, m, n - 1);
      NextPiece(start, end, n - 1);
      PrefixGrows(Covered(start, end, m), Covered(start, end, n - 1), PieceBlocks(IndexAfter(start, n - 1), end));
    }
  }

  /** A piece whose end fits in 64 bits. */
  lemma PlainPiece(i: BlockNumber, end: BlockNumber)
    requires i <= end && i + MAX_HEADERS_PER_REQUEST <= UINT64
    ensures PieceAt(i, end).end == if i + MAX_HEADERS_PER_REQUEST <= end + 1 then i + MAX_HEADERS_PER_REQUEST - 1 else end
  {
  }

  lemma PieceContinues(start: nat, i: BlockNumber, end: BlockNumber)
    requires start <= i <= end && i + MAX_HEADERS_PER_REQUEST <= UINT64
    ensures Span(start, i) + PieceBlocks(i, end) ==
            Span(start, if i + MAX_HEADERS_PER_REQUEST <= end + 1 then i + MAX_HEADERS_PER_REQUEST else end + 1)
  {
    PlainPiece(i, end);
    Join(start, i, PieceAt(i, end).end + 1);
  }

  /** A piece whose end does not fit ends below its start. */
  lemma PieceReversed(i: BlockNumber, end: BlockNumber)
    requires i <= end && i + MAX_HEADERS_PER_REQUEST > UINT64
    ensures PieceAt(i, end).end < i && PieceBlocks(i, end) == []
  {
    WrapOnce(i + MAX_HEADERS_PER_REQUEST - 1);
  }

  /** Before the last piece nothing wraps. */
  lemma {:induction false} PiecesCover(start: BlockNumber, end: BlockNumber, n: nat)
    requires n < ChunksOf(start, end)
    ensures Covered(start, end, n) == Span(start, At(start, n))
  {
    if n > 0 {
      var i := At(start, n - 1);
      PiecesCover(start, end, n - 1);
      PlainIndex(start, end, n - 1);
      PlainIndex(start, end, n);
      AtNext(start, n - 1);
      NextPiece(start, end, n - 1);
      PieceContinues(start, i, end);
    }
  }

  /** A last piece whose end fits in 64 bits completes the range. */
  lemma LastPieceFits(start: BlockNumber, end: BlockNumber)
    requires start <= end && At(start, ChunksOf(start, end)) <= UINT64
    ensures Covered(start, end, ChunksOf(start, end)) == Span(start, end + 1)
  {
    var n := ChunksOf(start, end);
    BeforeLast(start, end);
    ChunkCount(start, end, n);
    PieceContinues(start, At(start, n - 1), end);
  }

  /** Any other last piece is reversed, and its blocks are lost. */
  lemma LastPieceReversed(start: BlockNumber, end: BlockNumber)
    requires start <= end && At(start, ChunksOf(start, end)) > UINT64
    ensures Covered(start, end, ChunksOf(start, end)) == Span(start, At(start, ChunksOf(start, end) - 1))
  {
    BeforeLast(start, end);
    PieceReversed(At(start, ChunksOf(start, end) - 1), end);
    Unit(Span(start, At(start, ChunksOf(start, end) - 1)));
  }

  lemma BeforeLast(start: BlockNumber, end: BlockNumber)
    requires start <= end
    ensures var n := ChunksOf(start, end);
            var i := At(start, n - 1);
            start <= i <= end && At(start, n) == i + MAX_HEADERS_PER_REQUEST &&
            Covered(start, end, n) == Span(start, i) + PieceBlocks(i, end)
  {
    var n := ChunksOf(start, end);
    PiecesCover(start, end, n - 1);
    PlainIndex(start, end, n - 1);
    NextPiece(start, end, n - 1);
    AtNext(start, n - 1);
  }

  lemma Unit(xs: seq<nat>)
    ensures xs + [] == xs
  {
  }

  /** If the index wraps, the pieces up to the one at which the loop starts over are no prefix of the range. */
  lemma WrappedPieces(start: BlockNumber, end: BlockNumber)
    requires !NoWrap(start, end)
    ensures !(Covered(start, end, ChunksOf(start, end) + 1) <= Span(start, end + 1))
  {
    var n := ChunksOf(start, end);
    var j := IndexAfter(start, n);
    LeavingIndex(start, end);
    if j == 0 {
      LastPieceFits(start, end);
    } else {
      LastPieceReversed(start, end);
    }
    NextPiece(start, end, n);
    PlainPiece(j, end);
    PlainIndex(start, end, n - 1);
    AtNext(start, n - 1);
    NoPrefix(start, if j == 0 then end + 1 else At(start, n - 1), end + 1, PieceBlocks(j, end));
  }

  lemma NoPrefix(start: nat, mid: nat, stop: nat, next: seq<nat>)
    requires start <= mid <= stop && next != [] && next[0] != mid
    ensures !(Span(start, mid) + next <= Span(start, stop))
  {
    assert (Span(start, mid) + next)[mid - start] == next[0];
    assert mid < stop ==> Span(start, stop)[mid - start] == mid;
  }

  /** The loop leaves with exactly the range's blocks, after whatever number of passes, iff its index does not wrap. */
  lemma DivideExactIff(start: BlockNumber, end: BlockNumber)
    ensures (exists n :: LeavesAfter(start, end, n) && Covered(start, end, n) == Span(start, end + 1)) <==> NoWrap(start, end)
  {
    DivideStopsIff(start, end);
    if NoWrap(start, end) {
      PlainDivision(start, end);
    } else {
      forall n | LeavesAfter(start, end, n) ensures Covered(start, end, n) != Span(start, end + 1) {
        WrappedDivision(start, end, n);
      }
    }
  }

  lemma PlainDivision(start: BlockNumber, end: BlockNumber)
    requires NoWrap(start, end)
    ensures Covered(start, end, ChunksOf(start, end)) == Span(start, end + 1)
  {
    if start <= end {
      LastPieceFits(start, end);
    }
  }

  lemma WrappedDivision(start: BlockNumber, end: BlockNumber, n: nat)
    requires !NoWrap(start, end) && LeavesAfter(start, end, n)
    ensures Covered(start, end, n) != Span(start, end + 1)
  {
    LeavesPastWrap(start, end, n);
    PiecesGrow(start, end, ChunksOf(start, end) + 1, n);
    WrappedPieces(start, end);
  }

  lemma LeavesPastWrap(start: BlockNumber, end: BlockNumber, n: nat)
    requires !NoWrap(start, end) && LeavesAfter(start, end, n)
    ensures n > ChunksOf(start, end)
  {
    if n < ChunksOf(start, end) {
      PlainIndex(start, end, n);
    } else {
      LeavingIndex(start, end);
    }
  }

  // ----- the division and its batches -----

  /** The k-th piece: it starts k full pieces after start and is at most one full piece long. */
  ghost predicate IsChunk(r: Range, start: nat, k: nat) {
    r.start == At(start, k) && 1 <= RangeSize(r) <= MAX_HEADERS_PER_REQUEST
  }

  lemma {:induction false} PiecesAreChunks(start: BlockNumber, end: BlockNumber, n: nat)
    requires NoWrap(start, end) && n <= ChunksOf(start, end)
    ensures |Pieces(start, end, n)| == n && forall k :: 0 <= k < n ==> IsChunk(Pieces(start, end, n)[k], start, k)
  {
    if n > 0 {
      PiecesAreChunks(start, end, n - 1);
      PlainIndex(start, end, n - 1);
      AtNext(start, n - 1);
      LeavingIndex(start, end);
      AtUpTo(start, n, ChunksOf(start, end));
      PlainPiece(At(start, n - 1), end);
    }
  }

  lemma AtUpTo(start: nat, k: nat, n: nat)
    requires k <= n
    ensures At(start, k) <= At(start, n)
  {
  }

  /** Cuts a range into consecutive pieces of 1500 blocks, the last one possibly shorter. */
  method DivideTags(start: BlockNumber, end: BlockNumber) returns (tag: Tag)
    requires NoWrap(start, end)
    ensures tag == Tag(Pieces(start, end, ChunksOf(start, end)), []) && Blocks(tag) == Span(start, end + 1)
    ensures |tag.ranges| == ChunksOf(start, end)
    ensures forall k :: 0 <= k < |tag.ranges| ==> tag.ranges[k].start == start + k * 1500 && 1 <= RangeSize(tag.ranges[k]) <= 1500
  {
    var ranges: seq<Range> := [];
    var i := start;
    ghost var n := 0;
    LeavingIndex(start, end);
    while i <= end
      invariant n <= ChunksOf(start, end) && i == IndexAfter(start, n) == At(start, n) && ranges == Pieces(start, end, n)
      decreases ChunksOf(start, end) - n
    {
      ChunkCount(start, end, n);
      var chunkEnd := Wrap(i + MAX_HEADERS_PER_REQUEST - 1);
      if chunkEnd > end {
        chunkEnd := end;
      }
      ranges := ranges + [Range(i, chunkEnd)];
      AtNext(start, n);
      AtUpTo(start, n + 1, ChunksOf(start, end));
      i := Wrap(i + MAX_HEADERS_PER_REQUEST);
      n := n + 1;
    }
    ChunkCount(start, end, n);
    tag := Tag(ranges, []);
    DivisionIsExact(start, end);
  }

  lemma DivisionIsExact(start: BlockNumber, end: BlockNumber)
    requires NoWrap(start, end)
    ensures var ranges := Pieces(start, end, ChunksOf(start, end));
            Blocks(Tag(ranges, [])) == Span(start, end + 1) && |ranges| == ChunksOf(start, end) &&
            forall k :: 0 <= k < |ranges| ==> IsChunk(ranges[k], start, k)
  {
    PiecesAreChunks(start, end, ChunksOf(start, end));
    PlainDivision(start, end);
    Unit(RangeBlocks(Pieces(start, end, ChunksOf(start, end))));
  }

  /** The pieces stand in order already: sorting them changes nothing. */
  lemma ChunksAreSorted(ranges: seq<Range>, start: nat)
    requires forall k :: 0 <= k < |ranges| ==> IsChunk(ranges[k], start, k)
    ensures SortedCopy(Tag(ranges, []), Tag(ranges, []))
  {
    forall i, j | 0 <= i < j < |ranges| ensures ranges[i].start <= ranges[j].start {
      AtUpTo(start, i, j);
    }
  }

  /** Batches built from a divided range never exceed the limit. */
  method HeaderRequests(start: BlockNumber, end: BlockNumber) returns (batches: seq<Tag>)
    requires NoWrap(start, end)
    ensures Flat(batches) == Span(start, end + 1)
    ensures forall i :: 0 <= i < |batches| ==> 0 < Size(batches[i]) <= 1500
  {
    var tag := DivideTags(start, end);
    ChunksAreSorted(tag.ranges, start);
    batches := BuildBatches(tag, tag);
    ChunksFit(tag.ranges, start);
    BuildPartitions(tag);
    forall i | 0 <= i < |batches| ensures 0 < Size(batches[i]) <= MAX_HEADERS_PER_REQUEST {
      GoodAt(batches, tag, i);
      if Size(batches[i]) > MAX_HEADERS_PER_REQUEST {
        OversizeIsOneRange(batches, tag, i);
      }
    }
  }

  lemma ChunksFit(ranges: seq<Range>, start: nat)
    requires forall k :: 0 <= k < |ranges| ==> IsChunk(ranges[k], start, k)
    ensures Ordered(ranges) && NoOverflow(ranges)
    ensures forall k :: 0 <= k < |ranges| ==> RangeSize(ranges[k]) <= MAX_HEADERS_PER_REQUEST
  {
    forall k | 0 <= k < |ranges| ensures 1 <= RangeSize(ranges[k]) <= MAX_HEADERS_PER_REQUEST {
      assert IsChunk(ranges[k], start, k);
    }
    ShortRangesFit(ranges, |ranges|);
  }
}
