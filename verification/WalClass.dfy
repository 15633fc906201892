/** The log as the program keeps it: fields changed in place, each method proved against WalSpec. */
module WalClass {
  import opened Options
  import opened WalSpec

  class WAL<D(==)> {
    var base: nat                   // the disk log: index of its front minus one, and its entries
    var disk: seq<Entry<D>>
    var buffer: seq<Entry<D>>
    var currentLSN: nat
    var lastFlushedLSN: nat
    var meta: Meta                  // lsn_metadata.json
    var markers: seq<nat>           // checkpoint directory, sorted by name
    const batchSize: nat

    ghost function View(): Wal<D>
      reads this
    {
      Wal(base, disk, buffer, currentLSN, lastFlushedLSN, meta, markers, batchSize)
    }

    constructor (batchSize: int, defaultBatchSize: nat)
      ensures View() == Empty(if batchSize <= 0 then defaultBatchSize else batchSize)
    {
      base, disk, buffer := 0, [], [];
      currentLSN, lastFlushedLSN := 0, 0;
      meta := Meta(0, 0);
      markers := [];
      this.batchSize := if batchSize <= 0 then defaultBatchSize else batchSize;
    }

    method NextLSN() returns (lsn: nat)
      modifies this`currentLSN
      ensures currentLSN == lsn == old(currentLSN) + 1
    {
      currentLSN := currentLSN + 1;
      lsn := currentLSN;
    }

    method FlushBuffer(io: Io) returns (ok: bool)
      modifies this
      ensures View() == Flush(old(View()), io).wal && ok == Flush(old(View()), io).ok
    {
      if |buffer| == 0 {
        return true;
      }
      ghost var start := View();
      for k := 0 to |buffer|
        invariant buffer == start.buffer && View() == start.(disk := disk, flushed := lastFlushedLSN)
        invariant WriteFrom(View(), k, io) == WriteFrom(start, 0, io)
      {
        var entry := buffer[k];
        if io.failAt == Some(k) || entry.lsn != base + |disk| + 1 {
          return false;
        }
        disk := disk + [entry];
        if entry.lsn > lastFlushedLSN {
          lastFlushedLSN := entry.lsn;
        }
      }
      buffer := [];
      if io.saveFails {
        return false;
      }
      meta := Meta(currentLSN, lastFlushedLSN);
      return true;
    }

    /** Returns the event's sequence number, or None on an error. */
    method WriteEventToLog(event: Option<D>, io: Io) returns (lsn: Option<nat>)
      modifies this
      ensures View() == WriteEvent(old(View()), event, io).wal
      ensures lsn == if WriteEvent(old(View()), event, io).ok then Some(old(currentLSN) + 1) else None
    {
      var number := NextLSN();
      if event.None? {
        return None;
      }
      buffer := buffer + [Entry(event.value, number)];
      if |buffer| >= batchSize {
        var ok := FlushBuffer(io);
        if !ok {
          return None;
        }
      }
      return Some(number);
    }

    /** The async buffer's write of one coalesced node. */
    method WriteNodeToLog(entries: seq<D>, ios: seq<Io>)
      modifies this
      ensures View() == WriteNode(old(View()), entries, ios)
    {
      ghost var start := View();
      for k := 0 to |entries|
        invariant View() == AppendAll(start, entries, ios, k)
      {
        var lsn := NextLSN();
        buffer := buffer + [Entry(entries[k], lsn)];
        if |buffer| >= batchSize {
          var _ := FlushBuffer(IoAt(ios, k));
        }
      }
      var _ := FlushBuffer(IoAt(ios, |entries|));
    }

    method TruncateBeforeUnlocked(lsn: nat) returns (ok: bool)
      modifies this`base, this`disk
      ensures View() == TruncateBefore(old(View()), lsn).wal && ok == TruncateBefore(old(View()), lsn).ok
    {
      if lsn == 0 {
        return true;
      }
      var firstIndex := if base + |disk| == 0 then 0 else base + 1;
      if lsn <= firstIndex {
        return true;
      }
      if lsn > base + |disk| || lsn <= base {
        return false;
      }
      disk := disk[lsn - 1 - base..];
      base := lsn - 1;
      return true;
    }

    method CreateCheckpointMarker(io: Io) returns (lsn: Option<nat>)
      modifies this
      ensures View() == CreateCheckpoint(old(View()), io).wal
      ensures lsn == if CreateCheckpoint(old(View()), io).ok then Some(lastFlushedLSN) else None
    {
      var ok := FlushBuffer(io);
      if !ok || io.marker.WriteFails? {
        return None;
      }
      markers := InsertMarker(markers, lastFlushedLSN);
      if io.marker.ListFails? {
        return None;
      }
      if |markers| > MAX_SNAPSHOT_LIMIT {
        var oldest := markers[0];
        ok := TruncateBeforeUnlocked(oldest);
        if !ok || io.marker.RemoveFails? {
          return None;
        }
        markers := markers[1..];
      }
      return Some(lastFlushedLSN);
    }

    method FindEvent(lsn: nat) returns (entry: Option<Entry<D>>)
      ensures entry == GetEvent(View(), lsn)
    {
      for i := 0 to |buffer|
        invariant Buffered(buffer[i..], lsn) == Buffered(buffer, lsn)
      {
        assert buffer[i..][1..] == buffer[i + 1..];
        if buffer[i].lsn == lsn {
          return Some(buffer[i]);
        }
      }
      if base < lsn <= base + |disk| {
        return Some(disk[lsn - 1 - base]);
      }
      return None;
    }

    /** The entries handed to the replay handler, in order; None if a read fails. */
    method ReplayEvents() returns (handled: Option<seq<Entry<D>>>)
      ensures handled == Replay(View())
    {
      var first := if base + |disk| == 0 then 0 else base + 1;
      var last := base + |disk|;
      var entries := [];
      var index := first;
      while index <= last
        invariant first <= index <= last + 1
        invariant first == 0 ==> index == 0
        invariant first > 0 ==> entries == disk[..index - 1 - base]
      {
        if !(base < index <= last) {
          return None;
        }
        entries := entries + [disk[index - 1 - base]];
        index := index + 1;
      }
      assert entries == disk[..|disk|] == disk;
      return Some(entries);
    }
  }
}
