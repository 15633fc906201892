/**
 The write-ahead log as a value: what each operation does to the disk log, the in-memory buffer, the
 sequence counters, the checkpoint markers and the saved metadata, including every failure.
 */
module WalSpec {
  import opened Options

  const MAX_SNAPSHOT_LIMIT := 10

  datatype Entry<D> = Entry(data: D, lsn: nat)

  datatype Meta = Meta(current: nat, flushed: nat)

  /** The disk log holds indices base+1..base+|disk|; markers is the sorted checkpoint directory. */
  datatype Wal<D> = Wal(base: nat, disk: seq<Entry<D>>, buffer: seq<Entry<D>>, current: nat, flushed: nat,
                        meta: Meta, markers: seq<nat>, batch: nat) {
    function Last(): nat {
      base + |disk|
    }

    function FirstIndex(): nat {
      if Last() == 0 then 0 else base + 1
    }
  }

  /** What fails around the checkpoint markers: writing the file, reading the directory, removing the oldest file. */
  datatype MarkerFault = NoFault | WriteFails | ListFails | RemoveFails

  /** Which write of a flush fails, if any, whether saving the metadata fails, and what fails around the markers. */
  datatype Io = Io(failAt: Option<nat>, saveFails: bool, marker: MarkerFault)

  const IO_OK := Io(None, false, NoFault)

  function Empty<D>(batch: nat): Wal<D> {
    Wal(0, [], [], 0, 0, Meta(0, 0), [], batch)
  }

  function Max(a: nat, b: nat): nat {
    if a < b then b else a
  }

  /** Log.Write accepts only the next index. */
  predicate Writable<D>(w: Wal<D>, e: Entry<D>) {
    e.lsn == w.Last() + 1
  }

  function LogWrite<D>(w: Wal<D>, e: Entry<D>): Wal<D>
    requires Writable(w, e)
  {
    w.(disk := w.disk + [e], flushed := Max(w.flushed, e.lsn))
  }

  datatype Outcome<D> = Outcome(wal: Wal<D>, ok: bool)

  /** Write the entries from position k on; stops at the first failing or out-of-order write. */
  function WriteFrom<D>(w: Wal<D>, k: nat, io: Io): Outcome<D>
    requires k <= |w.buffer|
    decreases |w.buffer| - k
  {
    if k == |w.buffer| then Outcome(w, true)
    else if io.failAt == Some(k) || !Writable(w, w.buffer[k]) then Outcome(w, false)
    else WriteFrom(LogWrite(w, w.buffer[k]), k + 1, io)
  }

  function Flush<D>(w: Wal<D>, io: Io): Outcome<D> {
    if w.buffer == [] then Outcome(w, true)
    else
      var r := WriteFrom(w, 0, io);
      if !r.ok then r
      else
        var cleared := r.wal.(buffer := []);
        if io.saveFails then Outcome(cleared, false)
        else Outcome(cleared.(meta := Meta(cleared.current, cleared.flushed)), true)
  }

  /** A sequence number is taken before serialization can fail; None is an event that does not serialize. */
  function WriteEvent<D>(w: Wal<D>, event: Option<D>, io: Io): Outcome<D> {
    var taken := w.(current := w.current + 1);
    if event.None? then Outcome(taken, false)
    else
      var added := taken.(buffer := w.buffer + [Entry(event.value, taken.current)]);
      if |added.buffer| >= added.batch then Flush(added, io) else Outcome(added, true)
  }

  /** The outcome of the k-th of several flushes; those beyond the list work. */
  function IoAt(ios: seq<Io>, k: nat): Io {
    if k < |ios| then ios[k] else IO_OK
  }

  /** The first n entries of a coalesced node, appended one by one; a flush they trigger may fail, which is only logged. */
  function AppendAll<D>(w: Wal<D>, ds: seq<D>, ios: seq<Io>, n: nat): Wal<D>
    requires n <= |ds|
  {
    if n == 0 then w else WriteEvent(AppendAll(w, ds, ios, n - 1), Some(ds[n - 1]), IoAt(ios, n - 1)).wal
  }

  /** One coalesced node of the async buffer: its entries, then a flush; every flush has its own outcome. */
  function WriteNode<D>(w: Wal<D>, ds: seq<D>, ios: seq<Io>): Wal<D> {
    Flush(AppendAll(w, ds, ios, |ds|), IoAt(ios, |ds|)).wal
  }

  function InsertMarker(markers: seq<nat>, lsn: nat): seq<nat> {
    if markers == [] then [lsn]
    else if lsn < markers[0] then [lsn] + markers
    else if lsn == markers[0] then markers
    else [markers[0]] + InsertMarker(markers[1..], lsn)
  }

  /** Drop entries below lsn; TruncateFront rejects an index beyond the log. */
  function TruncateBefore<D>(w: Wal<D>, lsn: nat): Outcome<D> {
    if lsn == 0 || lsn <= w.FirstIndex() then Outcome(w, true)
    else if lsn > w.Last() || lsn <= w.base then Outcome(w, false)
    else Outcome(w.(base := lsn - 1, disk := w.disk[lsn - 1 - w.base..]), true)
  }

  function CreateCheckpoint<D>(w: Wal<D>, io: Io): Outcome<D> {
    var r := Flush(w, io);
    if !r.ok || io.marker.WriteFails? then Outcome(r.wal, false)
    else
      var marked := r.wal.(markers := InsertMarker(r.wal.markers, r.wal.flushed));
      if io.marker.ListFails? then Outcome(marked, false)
      else if |marked.markers| <= MAX_SNAPSHOT_LIMIT then Outcome(marked, true)
      else
        var t := TruncateBefore(marked, marked.markers[0]);
        if !t.ok || io.marker.RemoveFails? then Outcome(t.wal, false)
        else Outcome(t.wal.(markers := t.wal.markers[1..]), true)
  }

  function Buffered<D>(buffer: seq<Entry<D>>, lsn: nat): Option<Entry<D>> {
    if buffer == [] then None
    else if buffer[0].lsn == lsn then Some(buffer[0])
    else Buffered(buffer[1..], lsn)
  }

  /** The buffer first, then the disk log. */
  function GetEvent<D>(w: Wal<D>, lsn: nat): Option<Entry<D>> {
    if Buffered(w.buffer, lsn).Some? then Buffered(w.buffer, lsn)
    else if w.base < lsn <= w.Last() then Some(w.disk[lsn - 1 - w.base])
    else None
  }

  /** Replay reads indices FirstIndex..LastIndex; on an empty log that is index 0, which cannot be read. */
  function Replay<D>(w: Wal<D>): Option<seq<Entry<D>>> {
    if w.Last() == 0 then None else Some(w.disk)
  }

  /** Process restart: the buffer is lost, counters come from the saved metadata. */
  function Reopen<D>(w: Wal<D>): Wal<D> {
    w.(buffer := [], current := w.meta.current, flushed := w.meta.flushed)
  }
}
