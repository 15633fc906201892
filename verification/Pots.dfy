/**
 The block log of the PoTS window: blocks go through the write-ahead log, and an in-memory index of them must
 be what a replay of the log would rebuild.
 */
module PotsIndex {
  import opened Options
  import opened WalSpec
  import opened WalProof

  datatype Block = Block(number: nat, body: nat)

  /** What the log can hold: a block of the window, one that no longer decodes, or an event of another type. */
  datatype Record = PotsBlock(block: Block) | Damaged | Foreign

  /** Block number to sequence number, sequence numbers in write order, and the highest block number. */
  datatype Index = Index(blocks: map<nat, nat>, order: seq<nat>, latest: nat)

  const EMPTY_INDEX := Index(map[], [], 0)

  function Note(ix: Index, number: nat, lsn: nat): Index {
    Index(ix.blocks[number := lsn], ix.order + [lsn], Max(ix.latest, number))
  }

  function NoteEntry(ix: Index, e: Entry<Record>): Index {
    if e.data.PotsBlock? then Note(ix, e.data.block.number, e.lsn) else ix
  }

  /** What replaying a list of log entries builds. */
  function IndexOf(es: seq<Entry<Record>>): Index {
    if es == [] then EMPTY_INDEX else NoteEntry(IndexOf(es[..|es| - 1]), es[|es| - 1])
  }

  datatype Pots = Pots(log: Wal<Record>, index: Index)

  datatype Result = Result(pots: Pots, ok: bool)

  /** A block handed to a writer; it may be nil or fail to marshal. */
  datatype Input = Nil | Unmarshalable | Given(block: Block)

  function WriteOne(p: Pots, input: Input, io: Io, flushIo: Io): Result {
    if !input.Given? then Result(p, false)
    else
      var r := WriteEvent(p.log, Some(PotsBlock(input.block)), io);
      if !r.ok then Result(Pots(r.wal, p.index), false)
      else
        var f := Flush(r.wal, flushIo);
        if !f.ok then Result(Pots(f.wal, p.index), false)
        else Result(Pots(f.wal, Note(p.index, input.block.number, p.log.current + 1)), true)
  }

  /** A block that reached the log, to be indexed once the batch is flushed. */
  datatype Committed = Committed(number: nat, lsn: nat)

  datatype Appended = Appended(log: Wal<Record>, committed: seq<Committed>, ok: bool)

  /** The batch's blocks appended one by one; nil blocks are skipped, the first failure stops. */
  function AppendBlocks(log: Wal<Record>, inputs: seq<Input>, io: Io): Appended
    decreases |inputs|
  {
    if inputs == [] then Appended(log, [], true)
    else if inputs[0].Nil? then AppendBlocks(log, inputs[1..], io)
    else if inputs[0].Unmarshalable? then Appended(log, [], false)
    else
      var r := WriteEvent(log, Some(PotsBlock(inputs[0].block)), io);
      if !r.ok then Appended(r.wal, [], false)
      else
        var rest := AppendBlocks(r.wal, inputs[1..], io);
        rest.(committed := [Committed(inputs[0].block.number, log.current + 1)] + rest.committed)
  }

  function NoteAll(ix: Index, cs: seq<Committed>): Index {
    if cs == [] then ix else Note(NoteAll(ix, cs[..|cs| - 1]), cs[|cs| - 1].number, cs[|cs| - 1].lsn)
  }

  function WriteMany(p: Pots, inputs: seq<Input>, io: Io, flushIo: Io): Result {
    if inputs == [] then Result(p, true)
    else
      var a := AppendBlocks(p.log, inputs, io);
      if !a.ok then Result(Pots(a.log, p.index), false)
      else
        var f := Flush(a.log, flushIo);
        if !f.ok then Result(Pots(f.wal, p.index), false)
        else Result(Pots(f.wal, NoteAll(p.index, a.committed)), true)
  }

  // ----- reads -----

  /** The blocks at the given sequence numbers; None if one cannot be read or decoded. */
  function ReadAt(log: Wal<Record>, lsns: seq<nat>): Option<seq<Block>> {
    if lsns == [] then Some([])
    else
      var rest := ReadAt(log, lsns[..|lsns| - 1]);
      var e := GetEvent(log, lsns[|lsns| - 1]);
      if rest.None? || e.None? || !e.value.data.PotsBlock? then None else Some(rest.value + [e.value.data.block])
  }

  function Min(a: nat, b: nat): nat {
    if a < b then a else b
  }

  function ReadPage(p: Pots, offset: nat, limit: nat): Option<seq<Block>> {
    if offset >= |p.index.order| then Some([])
    else ReadAt(p.log, p.index.order[offset..Min(offset + limit, |p.index.order|)])
  }

  /** Sequence numbers of the indexed blocks from start up to, not including, stop. */
  function LsnsIn(blocks: map<nat, nat>, start: nat, stop: nat): seq<nat>
    decreases stop
  {
    if stop <= start then []
    else LsnsIn(blocks, start, stop - 1) + if stop - 1 in blocks then [blocks[stop - 1]] else []
  }

  function ReadRange(p: Pots, start: nat, end: nat): Option<seq<Block>> {
    ReadAt(p.log, LsnsIn(p.index.blocks, start, end + 1))
  }
}

/** The wrapper as the program keeps it. */
module PotsClass {
  import opened Options
  import opened WalSpec
  import opened WalClass
  import opened PotsIndex
  import opened Tags

  class PoTSWAL {
    const wal: WAL<Record>
    var blockIndex: map<nat, nat>
    var lsnOrder: seq<nat>
    var latestBlock: nat

    ghost function View(): Pots
      reads this, wal
    {
      Pots(wal.View(), Index(blockIndex, lsnOrder, latestBlock))
    }

    /** Opens the wrapper over a log and rebuilds the index from it. */
    constructor (wal: WAL<Record>)
      ensures this.wal == wal && View() == Pots(wal.View(), IndexOf(wal.disk))
    {
      this.wal := wal;
      blockIndex, lsnOrder, latestBlock := map[], [], 0;
      new;
      RebuildIndex();
    }

    method RebuildIndex()
      requires View().index == EMPTY_INDEX
      modifies this
      ensures View() == Pots(old(wal.View()), IndexOf(wal.disk))
    {
      if wal.base + |wal.disk| == 0 {
        return;
      }
      var entries := wal.ReplayEvents();
      for i := 0 to |entries.value|
        invariant View().index == IndexOf(entries.value[..i])
      {
        assert entries.value[..i + 1][..i] == entries.value[..i];
        var e := entries.value[i];
        if e.data.PotsBlock? {
          NoteBlock(e.data.block.number, e.lsn);
        }
      }
      assert entries.value[..|entries.value|] == entries.value;
    }

    method NoteBlock(number: nat, lsn: nat)
      modifies this
      ensures View() == Pots(old(wal.View()), Note(old(View()).index, number, lsn))
    {
      blockIndex := blockIndex[number := lsn];
      lsnOrder := lsnOrder + [lsn];
      if number > latestBlock {
        latestBlock := number;
      }
    }

    method Write(input: Input, io: Io, flushIo: Io) returns (ok: bool)
      modifies this, wal
      ensures Result(View(), ok) == WriteOne(old(View()), input, io, flushIo)
    {
      if !input.Given? {
        return false;
      }
      var lsn := wal.WriteEventToLog(Some(PotsBlock(input.block)), io);
      if lsn.None? {
        return false;
      }
      var flushed := wal.FlushBuffer(flushIo);
      if !flushed {
        return false;
      }
      NoteBlock(input.block.number, lsn.value);
      return true;
    }

    /** The loop of WriteBatch that appends to the log. */
    method AppendAll(inputs: seq<Input>, io: Io) returns (committed: seq<Committed>, ok: bool)
      modifies wal
      ensures var a := AppendBlocks(old(wal.View()), inputs, io);
              wal.View() == a.log && ok == a.ok && (ok ==> committed == a.committed)
    {
      committed := [];
      ghost var start := wal.View();
      for k := 0 to |inputs|
        invariant var all, rest := AppendBlocks(start, inputs, io), AppendBlocks(wal.View(), inputs[k..], io);
                  all == rest.(committed := committed + rest.committed)
      {
        assert inputs[k..][1..] == inputs[k + 1..];
        if inputs[k].Nil? {
          continue;
        }
        if inputs[k].Unmarshalable? {
          return committed, false;
        }
        var lsn := wal.WriteEventToLog(Some(PotsBlock(inputs[k].block)), io);
        if lsn.None? {
          return committed, false;
        }
        committed := committed + [Committed(inputs[k].block.number, lsn.value)];
      }
      return committed, true;
    }

    method WriteBatch(inputs: seq<Input>, io: Io, flushIo: Io) returns (ok: bool)
      modifies this, wal
      ensures Result(View(), ok) == WriteMany(old(View()), inputs, io, flushIo)
    {
      if |inputs| == 0 {
        return true;
      }
      var committed, appended := AppendAll(inputs, io);
      if !appended {
        return false;
      }
      var flushed := wal.FlushBuffer(flushIo);
      if !flushed {
        return false;
      }
      ghost var log := wal.View();
      for i := 0 to |committed|
        invariant View() == Pots(log, NoteAll(old(View()).index, committed[..i]))
      {
        assert committed[..i + 1][..i] == committed[..i];
        NoteBlock(committed[i].number, committed[i].lsn);
      }
      assert committed[..|committed|] == committed;
      return true;
    }

    method ReadByLSNs(lsns: seq<nat>) returns (blocks: Option<seq<Block>>)
      ensures blocks == ReadAt(wal.View(), lsns)
    {
      var read := [];
      for i := 0 to |lsns|
        invariant ReadAt(wal.View(), lsns[..i]) == Some(read)
      {
        assert lsns[..i + 1][..i] == lsns[..i];
        var entry := wal.FindEvent(lsns[i]);
        if entry.None? || !entry.value.data.PotsBlock? {
          ReadStops(wal.View(), lsns, i + 1);
          return None;
        }
        read := read + [entry.value.data.block];
      }
      assert lsns[..|lsns|] == lsns;
      return Some(read);
    }

    method Read(offset: nat, limit: nat) returns (blocks: Option<seq<Block>>)
      ensures blocks == ReadPage(View(), offset, limit)
    {
      if offset >= |lsnOrder| {
        return Some([]);
      }
      var end := offset + limit;
      if end > |lsnOrder| {
        end := |lsnOrder|;
      }
      blocks := ReadByLSNs(lsnOrder[offset..end]);
    }

    method ReadByRange(start: BlockNumber, end: BlockNumber) returns (blocks: Option<seq<Block>>)
      requires end < MAX_UINT64
      ensures blocks == ReadRange(View(), start, end)
    {
      var lsns := [];
      var bn: nat := start;
      while bn <= end
        invariant start <= bn && bn <= if start <= end then end + 1 else start
        invariant lsns == LsnsIn(blockIndex, start, bn)
        decreases end + 1 - bn
      {
        if bn in blockIndex {
          lsns := lsns + [blockIndex[bn]];
        }
        bn := Wrap(bn + 1);
      }
      blocks := ReadByLSNs(lsns);
    }
  }

  /** The block number that ReadByRange looks at after n passes. */
  function ScanAfter(start: BlockNumber, n: nat): nat {
    Wrap(start + n)
  }

  /** The scan over 64-bit block numbers ends iff the range does not reach the largest one. */
  lemma RangeScanEndsIff(start: BlockNumber, end: BlockNumber)
    ensures end < MAX_UINT64 <==> exists n :: ScanAfter(start, n) > end
  {
    if end < MAX_UINT64 {
      var n: nat := if start <= end then end + 1 - start else 0;
      assert ScanAfter(start, n) > end;
    }
  }

  /** Once one read fails the whole read fails. */
  lemma {:induction false} ReadStops(log: Wal<Record>, lsns: seq<nat>, i: nat)
    requires i <= |lsns| && ReadAt(log, lsns[..i]).None?
    ensures ReadAt(log, lsns).None?
    decreases |lsns|
  {
    if i == |lsns| {
      assert lsns[..i] == lsns;
    } else {
      assert lsns[..|lsns| - 1][..i] == lsns[..i];
      ReadStops(log, lsns[..|lsns| - 1], i);
    }
  }
}
