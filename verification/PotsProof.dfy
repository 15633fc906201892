/** The live index is what a replay rebuilds, and paged and ranged reads return what was written. */
module PotsProof {
  import opened Options
  import opened WalSpec
  import opened WalProof
  import opened PotsIndex

  // ----- the live index -----

  /** The events the log has numbered so far, with every block of the window durable and indexed. */
  ghost predicate Live(p: Pots, events: seq<Record>) {
    Refines(p.log, events) && p.log.base == 0 && p.index == IndexOf(Numbered(events)) &&
    Silent(events, p.log.flushed)
  }

  /** No block of the window from position n on. */
  ghost predicate Silent(events: seq<Record>, n: nat) {
    forall k :: n <= k < |events| ==> !events[k].PotsBlock?
  }

  lemma SilentPush(events: seq<Record>, n: nat, n': nat, r: Record)
    requires Silent(events, n) && n <= n' && !r.PotsBlock?
    ensures Silent(events + [r], n')
  {
  }

  lemma IndexPush(events: seq<Record>, r: Record)
    ensures IndexOf(Numbered(events + [r])) == NoteEntry(IndexOf(Numbered(events)), Entry(r, |events| + 1))
  {
    assert Numbered(events + [r])[..|events|] == Numbered(events);
  }

  /** Appending an event to the log may flush, and never drops the front of the log. */
  lemma WriteEventLive(log: Wal<Record>, events: seq<Record>, r: Record)
    requires Refines(log, events) && log.base == 0
    ensures var w := WriteEvent(log, Some(r), IO_OK);
            w.ok && Refines(w.wal, events + [r]) && w.wal.base == 0 && w.wal.flushed >= log.flushed
  {
    AppendRefines(log, events, r);
    var added := log.(current := log.current + 1, buffer := log.buffer + [Entry(r, log.current + 1)]);
    if |added.buffer| >= added.batch {
      FlushRefines(added, events + [r]);
      FlushHealthy(added);
    }
  }

  lemma FlushLive(log: Wal<Record>, events: seq<Record>)
    requires Refines(log, events) && log.base == 0
    ensures var f := Flush(log, IO_OK); f.ok && Refines(f.wal, events) && f.wal.base == 0 && f.wal.flushed == |events|
  {
    FlushRefines(log, events);
    FlushHealthy(log);
  }

  lemma WriteLive(p: Pots, events: seq<Record>, b: Block)
    requires Live(p, events)
    ensures var r := WriteOne(p, Given(b), IO_OK, IO_OK); r.ok && Live(r.pots, events + [PotsBlock(b)])
  {
    WriteEventLive(p.log, events, PotsBlock(b));
    FlushLive(WriteEvent(p.log, Some(PotsBlock(b)), IO_OK).wal, events + [PotsBlock(b)]);
    IndexPush(events, PotsBlock(b));
  }

  /** The records a batch adds: one per block that is not nil. */
  function RecordsOf(inputs: seq<Input>): seq<Record>
    decreases |inputs|
  {
    if inputs == [] then []
    else if inputs[0].Given? then [PotsBlock(inputs[0].block)] + RecordsOf(inputs[1..])
    else RecordsOf(inputs[1..])
  }

  predicate Marshalable(inputs: seq<Input>) {
    forall i :: 0 <= i < |inputs| ==> !inputs[i].Unmarshalable?
  }

  /** What the batch will index are exactly its records, under the numbers the log gave them. */
  lemma {:induction false} AppendBlocksLive(log: Wal<Record>, events: seq<Record>, inputs: seq<Input>, ix: Index, total: seq<Record>)
    requires Refines(log, events) && log.base == 0 && Marshalable(inputs) && ix == IndexOf(Numbered(events))
    requires total == events + RecordsOf(inputs)
    ensures AppendedLive(AppendBlocks(log, inputs, IO_OK), total, ix)
    decreases |inputs|
  {
    if inputs == [] {
      assert total == events;
    } else if inputs[0].Nil? {
      AppendBlocksLive(log, events, inputs[1..], ix, total);
    } else {
      var r := PotsBlock(inputs[0].block);
      WriteEventLive(log, events, r);
      IndexPush(events, r);
      AppendFirst(log, events, inputs, ix);
      AppendBlocksLive(WriteEvent(log, Some(r), IO_OK).wal, events + [r], inputs[1..], Note(ix, r.block.number, |events| + 1), total);
    }
  }

  /** The first block of a batch and the rest of it. */
  lemma AppendFirst(log: Wal<Record>, events: seq<Record>, inputs: seq<Input>, ix: Index)
    requires inputs != [] && inputs[0].Given? && WriteEvent(log, Some(PotsBlock(inputs[0].block)), IO_OK).ok
    ensures var r := PotsBlock(inputs[0].block);
            var a := AppendBlocks(log, inputs, IO_OK);
            var rest := AppendBlocks(WriteEvent(log, Some(r), IO_OK).wal, inputs[1..], IO_OK);
            a.log == rest.log && a.ok == rest.ok &&
            NoteAll(ix, a.committed) == NoteAll(Note(ix, r.block.number, log.current + 1), rest.committed) &&
            events + [r] + RecordsOf(inputs[1..]) == events + RecordsOf(inputs)
  {
    var r := PotsBlock(inputs[0].block);
    var rest := AppendBlocks(WriteEvent(log, Some(r), IO_OK).wal, inputs[1..], IO_OK);
    NoteAllFront(ix, Committed(r.block.number, log.current + 1), rest.committed);
  }

  ghost predicate AppendedLive(a: Appended, events: seq<Record>, ix: Index) {
    a.ok && Refines(a.log, events) && a.log.base == 0 && NoteAll(ix, a.committed) == IndexOf(Numbered(events))
  }

  lemma {:induction false} NoteAllFront(ix: Index, c: Committed, cs: seq<Committed>)
    ensures NoteAll(ix, [c] + cs) == NoteAll(Note(ix, c.number, c.lsn), cs)
  {
    if cs == [] {
      assert [c] + cs == [c] && [c][..0] == [];
    } else {
      var n := |cs| - 1;
      assert ([c] + cs)[..|cs|] == [c] + cs[..n];
      NoteAllFront(ix, c, cs[..n]);
    }
  }

  lemma BatchLive(p: Pots, events: seq<Record>, inputs: seq<Input>)
    requires Live(p, events) && Marshalable(inputs)
    ensures var r := WriteMany(p, inputs, IO_OK, IO_OK); r.ok && Live(r.pots, events + RecordsOf(inputs))
  {
    if inputs == [] {
      assert events + [] == events;
    } else {
      AppendBlocksLive(p.log, events, inputs, p.index, events + RecordsOf(inputs));
      FlushLive(AppendBlocks(p.log, inputs, IO_OK).log, events + RecordsOf(inputs));
    }
  }

  /** Events of other types written to the same log. */
  lemma ForeignLive(p: Pots, events: seq<Record>)
    requires Live(p, events)
    ensures Live(p.(log := WriteEvent(p.log, Some(Foreign), IO_OK).wal), events + [Foreign])
  {
    WriteEventLive(p.log, events, Foreign);
    IndexPush(events, Foreign);
    SilentPush(events, p.log.flushed, WriteEvent(p.log, Some(Foreign), IO_OK).wal.flushed, Foreign);
  }

  // ----- any history -----

  datatype Op = WriteOp(block: Block) | BatchOp(inputs: seq<Input>) | ForeignOp

  function StepOf(p: Pots, op: Op): Pots {
    match op
    case WriteOp(b) => WriteOne(p, Given(b), IO_OK, IO_OK).pots
    case BatchOp(inputs) => WriteMany(p, inputs, IO_OK, IO_OK).pots
    case ForeignOp => p.(log := WriteEvent(p.log, Some(Foreign), IO_OK).wal)
  }

  function AddedBy(op: Op): seq<Record> {
    match op
    case WriteOp(b) => [PotsBlock(b)]
    case BatchOp(inputs) => RecordsOf(inputs)
    case ForeignOp => [Foreign]
  }

  function After(batch: nat, ops: seq<Op>): Pots {
    if ops == [] then Pots(Empty(batch), EMPTY_INDEX) else StepOf(After(batch, ops[..|ops| - 1]), ops[|ops| - 1])
  }

  function EventsAfter(ops: seq<Op>): seq<Record> {
    if ops == [] then [] else EventsAfter(ops[..|ops| - 1]) + AddedBy(ops[|ops| - 1])
  }

  lemma StepLive(p: Pots, events: seq<Record>, op: Op)
    requires Live(p, events) && (op.BatchOp? ==> Marshalable(op.inputs))
    ensures Live(StepOf(p, op), events + AddedBy(op))
  {
    match op
    case WriteOp(b) => WriteLive(p, events, b);
    case BatchOp(inputs) => BatchLive(p, events, inputs);
    case ForeignOp => ForeignLive(p, events);
  }

  lemma {:induction false} HistoryLive(batch: nat, ops: seq<Op>)
    requires forall i :: 0 <= i < |ops| && ops[i].BatchOp? ==> Marshalable(ops[i].inputs)
    ensures Live(After(batch, ops), EventsAfter(ops))
  {
    if ops == [] {
      assert Numbered<Record>([])[0..] == [];
      assert Numbered<Record>([]) == [];
    } else {
      var n := |ops| - 1;
      HistoryLive(batch, ops[..n]);
      StepLive(After(batch, ops[..n]), EventsAfter(ops[..n]), ops[n]);
    }
  }

  // ----- rebuilding -----

  /** Entries that are not blocks of the window leave no trace in the index. */
  lemma {:induction false} TailIsSilent(events: seq<Record>, n: nat)
    requires n <= |events| && Silent(events, n)
    ensures IndexOf(Numbered(events)[..n]) == IndexOf(Numbered(events))
    decreases |events|
  {
    if n == |events| {
      assert Numbered(events)[..n] == Numbered(events);
    } else {
      var front := events[..|events| - 1];
      TailIsSilent(front, n);
      assert Numbered(events)[..|front|] == Numbered(front);
      assert Numbered(events)[..n] == Numbered(front)[..n];
    }
  }

  /** After any successful history, before or after a restart, replaying the log rebuilds the live index. */
  lemma RebuildIsLive(batch: nat, ops: seq<Op>)
    requires forall i :: 0 <= i < |ops| && ops[i].BatchOp? ==> Marshalable(ops[i].inputs)
    ensures var p := After(batch, ops); IndexOf(p.log.disk) == p.index && IndexOf(Reopen(p.log).disk) == p.index
  {
    HistoryLive(batch, ops);
    var p, events := After(batch, ops), EventsAfter(ops);
    assert p.log.disk == (p.log.disk + p.log.buffer)[..|p.log.disk|];
    assert Numbered(events)[0..] == Numbered(events);
    TailIsSilent(events, p.log.flushed);
  }

  // ----- paging -----

  /** The blocks of the window in the order they were written. */
  function Written(events: seq<Record>): seq<Block> {
    if events == [] then []
    else
      var n := |events| - 1;
      Written(events[..n]) + if events[n].PotsBlock? then [events[n].block] else []
  }

  /** The k-th sequence number of the index is the k-th block's. */
  ghost predicate Points(order: seq<nat>, events: seq<Record>, blocks: seq<Block>) {
    |order| == |blocks| &&
    forall k :: 0 <= k < |order| ==> 1 <= order[k] <= |events| && events[order[k] - 1] == PotsBlock(blocks[k])
  }

  lemma PointsPush(order: seq<nat>, events: seq<Record>, blocks: seq<Block>, r: Record)
    requires Points(order, events, blocks)
    ensures Points(order, events + [r], blocks)
    ensures r.PotsBlock? ==> Points(order + [|events| + 1], events + [r], blocks + [r.block])
  {
  }

  lemma {:induction false} OrderPoints(events: seq<Record>)
    ensures Points(IndexOf(Numbered(events)).order, events, Written(events))
  {
    if events == [] {
      assert Numbered(events) == [];
    } else {
      var n := |events| - 1;
      var front, r := events[..n], events[n];
      OrderPoints(front);
      IndexPush(front, r);
      PointsPush(IndexOf(Numbered(front)).order, front, Written(front), r);
      assert events == front + [r];
    }
  }

  /** Sequence numbers that point to blocks are read as those blocks. */
  lemma {:induction false} ReadPointed(log: Wal<Record>, events: seq<Record>, lsns: seq<nat>, blocks: seq<Block>)
    requires Refines(log, events) && log.base == 0 && Points(lsns, events, blocks)
    ensures ReadAt(log, lsns) == Some(blocks)
  {
    if lsns != [] {
      var n := |lsns| - 1;
      ReadPointed(log, events, lsns[..n], blocks[..n]);
      GetEventAgrees(log, events, lsns[n]);
      assert blocks == blocks[..n] + [blocks[n]];
    }
  }

  /** A page holds the blocks at its positions of the write order; with limit 0 it is empty everywhere. */
  lemma PageIsSlice(p: Pots, events: seq<Record>, offset: nat, limit: nat)
    requires Live(p, events)
    ensures var all := Written(events);
            ReadPage(p, offset, limit) == Some(if offset >= |all| then [] else all[offset..Min(offset + limit, |all|)])
  {
    OrderPoints(events);
    var all, order := Written(events), p.index.order;
    if offset < |all| {
      var end := Min(offset + limit, |all|);
      ReadPointed(p.log, events, order[offset..end], all[offset..end]);
    }
  }

  /** The page at an offset; nothing if it cannot be read. */
  ghost function PageAt(p: Pots, offset: nat, limit: nat): seq<Block> {
    match ReadPage(p, offset, limit) case Some(page) => page case None => []
  }

  /** Consecutive pages, read until the offset reaches the number of blocks. */
  ghost function Pages(p: Pots, offset: nat, limit: nat): seq<Block>
    requires limit > 0
    decreases |p.index.order| - offset
  {
    if offset >= |p.index.order| then [] else PageAt(p, offset, limit) + Pages(p, offset + limit, limit)
  }

  lemma SliceOn(all: seq<Block>, offset: nat, end: nat)
    requires offset <= end <= |all|
    ensures all[offset..end] + all[end..] == all[offset..]
  {
  }

  lemma {:induction false} PagesFrom(p: Pots, all: seq<Block>, offset: nat, limit: nat)
    requires limit > 0 && offset <= |all| == |p.index.order|
    requires forall o :: 0 <= o < |all| ==> PageAt(p, o, limit) == all[o..Min(o + limit, |all|)]
    ensures Pages(p, offset, limit) == all[offset..]
    decreases |all| - offset
  {
    if offset < |all| {
      if offset + limit <= |all| {
        PagesFrom(p, all, offset + limit, limit);
        SliceOn(all, offset, offset + limit);
      } else {
        SliceOn(all, offset, |all|);
      }
    }
  }

  /** Paging with any positive limit returns every written block once, in write order. */
  lemma PagesReturnAll(p: Pots, events: seq<Record>, limit: nat)
    requires Live(p, events) && limit > 0
    ensures Pages(p, 0, limit) == Written(events)
  {
    OrderPoints(events);
    var all := Written(events);
    forall o | 0 <= o < |all| ensures PageAt(p, o, limit) == all[o..Min(o + limit, |all|)] {
      PageIsSlice(p, events, o, limit);
    }
    PagesFrom(p, all, 0, limit);
  }

  // ----- reading a range of block numbers -----

  /** The last event that wrote block number bn, by sequence number. */
  function LastWrite(events: seq<Record>, bn: nat): Option<nat> {
    if events == [] then None
    else
      var n := |events| - 1;
      if events[n].PotsBlock? && events[n].block.number == bn then Some(n + 1) else LastWrite(events[..n], bn)
  }

  lemma {:induction false} LastWriteIs(events: seq<Record>, bn: nat)
    ensures var l := LastWrite(events, bn);
            l.Some? ==> 1 <= l.value <= |events| && events[l.value - 1].PotsBlock? && events[l.value - 1].block.number == bn
    ensures forall k :: (match LastWrite(events, bn) case Some(l) => l case None => 0) <= k < |events| ==>
              !(events[k].PotsBlock? && events[k].block.number == bn)
  {
    if events != [] {
      LastWriteIs(events[..|events| - 1], bn);
    }
  }

  lemma {:induction false} IndexLooksUp(events: seq<Record>, bn: nat)
    ensures var ix := IndexOf(Numbered(events)).blocks;
            LastWrite(events, bn) == if bn in ix then Some(ix[bn]) else None
  {
    if events == [] {
      assert Numbered(events) == [];
    } else {
      var n := |events| - 1;
      IndexLooksUp(events[..n], bn);
      assert events == events[..n] + [events[n]];
      IndexPush(events[..n], events[n]);
    }
  }

  /** The latest version of every written block numbered from start up to, not including, stop, ascending. */
  ghost function LatestIn(events: seq<Record>, start: nat, stop: nat): seq<Block>
    decreases stop
  {
    if stop <= start then []
    else
      LastWriteIs(events, stop - 1);
      LatestIn(events, start, stop - 1) +
      match LastWrite(events, stop - 1) case Some(l) => [events[l - 1].block] case None => []
  }

  lemma {:induction false} RangePoints(events: seq<Record>, start: nat, stop: nat)
    ensures Points(LsnsIn(IndexOf(Numbered(events)).blocks, start, stop), events, LatestIn(events, start, stop))
    decreases stop
  {
    if stop > start {
      RangePoints(events, start, stop - 1);
      IndexLooksUp(events, stop - 1);
      LastWriteIs(events, stop - 1);
    }
  }

  /** A range read returns exactly the latest versions of the written blocks in the range, in block order. */
  lemma RangeReadsLatest(p: Pots, events: seq<Record>, start: nat, end: nat)
    requires Live(p, events)
    ensures ReadRange(p, start, end) == Some(LatestIn(events, start, end + 1))
  {
    RangePoints(events, start, end + 1);
    ReadPointed(p.log, events, LsnsIn(p.index.blocks, start, end + 1), LatestIn(events, start, end + 1));
  }

  /** The highest block number is that of a written block, and none is higher. */
  lemma {:induction false} LatestIsHighest(events: seq<Record>)
    ensures var latest := IndexOf(Numbered(events)).latest;
            (forall k :: 0 <= k < |events| && events[k].PotsBlock? ==> events[k].block.number <= latest) &&
            (latest == 0 || exists k :: 0 <= k < |events| && events[k].PotsBlock? && events[k].block.number == latest)
  {
    if events == [] {
      assert Numbered(events) == [];
    } else {
      var n := |events| - 1;
      LatestIsHighest(events[..n]);
      assert events == events[..n] + [events[n]];
      IndexPush(events[..n], events[n]);
      var before := IndexOf(Numbered(events[..n])).latest;
      if before != 0 {
        var k :| 0 <= k < n && events[..n][k].PotsBlock? && events[..n][k].block.number == before;
        assert events[k].PotsBlock? && events[k].block.number == before;
      }
    }
  }
}
