/** The log refines a plain numbered list of events, and exactly when it stops doing so. */
module WalProof {
  import opened Options
  import opened WalSpec

  // ----- contiguity -----

  predicate Contiguous<D>(es: seq<Entry<D>>, from: nat) {
    forall k :: 0 <= k < |es| ==> es[k].lsn == from + k
  }

  /** The buffer continues the disk log without a gap and the counter continues the buffer. */
  predicate Healthy<D>(w: Wal<D>) {
    Contiguous(w.buffer, w.Last() + 1) && w.current == w.Last() + |w.buffer| && w.flushed == w.Last()
  }

  /** How many entries at the front of es continue the log at index from. */
  function Run<D>(es: seq<Entry<D>>, from: nat): (n: nat)
    ensures n <= |es|
  {
    if es == [] || es[0].lsn != from then 0 else 1 + Run(es[1..], from + 1)
  }

  lemma {:induction false} RunIsAll<D>(es: seq<Entry<D>>, from: nat)
    ensures Run(es, from) == |es| <==> Contiguous(es, from)
  {
    if es != [] {
      RunIsAll(es[1..], from + 1);
      if Contiguous(es[1..], from + 1) && es[0].lsn == from {
        forall k | 0 <= k < |es| ensures es[k].lsn == from + k {
          if k > 0 {
            assert es[k] == es[1..][k - 1];
          }
        }
      }
    }
  }

  /** How many entries a flush writes. */
  function Gain<D>(w: Wal<D>, k: nat, io: Io): int
    requires k <= |w.buffer|
  {
    WriteFrom(w, k, io).wal.Last() - w.Last()
  }

  /** A flush moves a front part of the buffer to the disk log and changes nothing else. */
  lemma {:induction false} WriteFromWrites<D>(w: Wal<D>, k: nat, io: Io)
    requires k <= |w.buffer|
    ensures var r, n := WriteFrom(w, k, io), Gain(w, k, io);
            0 <= n <= |w.buffer| - k && r.wal.disk == w.disk + w.buffer[k..k + n] &&
            r.wal == w.(disk := r.wal.disk, flushed := r.wal.flushed) && (r.ok ==> n == |w.buffer| - k) &&
            r.wal.flushed == if n > 0 then Max(w.flushed, r.wal.Last()) else w.flushed
    decreases |w.buffer| - k
  {
    if k < |w.buffer| {
      if io.failAt != Some(k) && Writable(w, w.buffer[k]) {
        WriteFromWrites(LogWrite(w, w.buffer[k]), k + 1, io);
        var n := Gain(w, k, io);
        assert w.buffer[k..k + n] == [w.buffer[k]] + w.buffer[k + 1..k + n];
      } else {
        assert w.disk + w.buffer[k..k] == w.disk;
      }
    }
  }

  /** That part is contiguous; with working I/O it is the longest contiguous one, and the flush succeeds iff it is all. */
  lemma {:induction false} GainIsRun<D>(w: Wal<D>, k: nat, io: Io)
    requires k <= |w.buffer|
    ensures Gain(w, k, io) <= Run(w.buffer[k..], w.Last() + 1)
    ensures io.failAt.None? ==> Gain(w, k, io) == Run(w.buffer[k..], w.Last() + 1)
    ensures io.failAt.None? ==> (WriteFrom(w, k, io).ok <==> Gain(w, k, io) == |w.buffer| - k)
    decreases |w.buffer| - k
  {
    if k < |w.buffer| {
      assert w.buffer[k..][1..] == w.buffer[k + 1..];
      if io.failAt != Some(k) && Writable(w, w.buffer[k]) {
        GainIsRun(LogWrite(w, w.buffer[k]), k + 1, io);
      }
    }
  }

  /** With working I/O a flush succeeds exactly when the buffer continues the disk log. */
  lemma FlushSucceedsIff<D>(w: Wal<D>)
    ensures Flush(w, IO_OK).ok <==> Contiguous(w.buffer, w.Last() + 1)
  {
    GainIsRun(w, 0, IO_OK);
    assert w.buffer[0..] == w.buffer;
    RunIsAll(w.buffer, w.Last() + 1);
  }

  // ----- healthy runs -----

  lemma FlushHealthy<D>(w: Wal<D>)
    requires Healthy(w)
    ensures var r := Flush(w, IO_OK);
            r.ok && Healthy(r.wal) && r.wal.disk == w.disk + w.buffer && r.wal.buffer == [] && r.wal.current == w.current &&
            r.wal.base == w.base && r.wal.markers == w.markers && r.wal.batch == w.batch &&
            r.wal.meta == (if w.buffer == [] then w.meta else Meta(w.current, w.current))
  {
    FlushSucceedsIff(w);
    WriteFromWrites(w, 0, IO_OK);
    assert w.buffer[0..] == w.buffer && w.buffer[0..|w.buffer|] == w.buffer;
    if w.buffer == [] {
      assert w.disk + w.buffer == w.disk;
    }
  }

  function Numbered<D>(events: seq<D>): (r: seq<Entry<D>>)
    ensures |r| == |events| && forall k :: 0 <= k < |events| ==> r[k] == Entry(events[k], k + 1)
  {
    seq(|events|, k requires 0 <= k < |events| => Entry(events[k], k + 1))
  }

  ghost predicate Sorted(ms: seq<nat>) {
    forall i, j :: 0 <= i < j < |ms| ==> ms[i] < ms[j]
  }

  /** Markers never point below the disk log's front, except the marker of an empty log. */
  ghost predicate MarkersOk<D>(w: Wal<D>) {
    Sorted(w.markers) && |w.markers| <= MAX_SNAPSHOT_LIMIT &&
    forall k :: 0 <= k < |w.markers| ==> w.markers[k] <= w.Last() && (w.markers[k] == 0 || w.markers[k] > w.base)
  }

  /** The log is the numbered list of events from base on: disk up to flushed, buffer after it. */
  ghost predicate Refines<D>(w: Wal<D>, events: seq<D>) {
    Healthy(w) && MarkersOk(w) && w.current == |events| && w.base <= |events| &&
    w.disk + w.buffer == Numbered(events)[w.base..] && (w.base > 0 ==> w.disk != []) &&
    w.meta == Meta(w.flushed, w.flushed)
  }

  lemma FlushRefines<D>(w: Wal<D>, events: seq<D>)
    requires Refines(w, events)
    ensures Flush(w, IO_OK).ok && Refines(Flush(w, IO_OK).wal, events)
    ensures Flush(w, IO_OK).wal.buffer == [] && Flush(w, IO_OK).wal.flushed == |events|
  {
    FlushHealthy(w);
    var r := Flush(w, IO_OK);
    assert r.wal.disk + [] == r.wal.disk;
    if w.buffer == [] {
      assert w.disk + w.buffer == w.disk;
    }
  }

  lemma AppendRefines<D>(w: Wal<D>, events: seq<D>, d: D)
    requires Refines(w, events)
    ensures Refines(w.(current := w.current + 1, buffer := w.buffer + [Entry(d, w.current + 1)]), events + [d])
  {
    var w' := w.(current := w.current + 1, buffer := w.buffer + [Entry(d, w.current + 1)]);
    assert Numbered(events + [d]) == Numbered(events) + [Entry(d, |events| + 1)];
    assert w'.disk + w'.buffer == (w.disk + w.buffer) + [Entry(d, |events| + 1)];
  }

  lemma WriteRefines<D>(w: Wal<D>, events: seq<D>, d: D)
    requires Refines(w, events)
    ensures WriteEvent(w, Some(d), IO_OK).ok && Refines(WriteEvent(w, Some(d), IO_OK).wal, events + [d])
  {
    AppendRefines(w, events, d);
    FlushRefines(w.(current := w.current + 1, buffer := w.buffer + [Entry(d, w.current + 1)]), events + [d]);
  }

  lemma {:induction false} AppendAllRefines<D>(w: Wal<D>, events: seq<D>, ds: seq<D>, n: nat)
    requires Refines(w, events) && n <= |ds|
    ensures Refines(AppendAll(w, ds, [], n), events + ds[..n])
  {
    if n == 0 {
      assert events + ds[..0] == events;
    } else {
      AppendAllRefines(w, events, ds, n - 1);
      WriteRefines(AppendAll(w, ds, [], n - 1), events + ds[..n - 1], ds[n - 1]);
      assert events + ds[..n - 1] + [ds[n - 1]] == events + ds[..n];
    }
  }

  lemma NodeRefines<D>(w: Wal<D>, events: seq<D>, ds: seq<D>)
    requires Refines(w, events)
    ensures Refines(WriteNode(w, ds, []), events + ds) && WriteNode(w, ds, []).flushed == |events + ds|
  {
    AppendAllRefines(w, events, ds, |ds|);
    assert ds[..|ds|] == ds;
    FlushRefines(AppendAll(w, ds, [], |ds|), events + ds);
  }

  lemma {:induction false} InsertMarkerMembers(ms: seq<nat>, lsn: nat, m: nat)
    ensures m in InsertMarker(ms, lsn) <==> m in ms || m == lsn
    ensures |ms| <= |InsertMarker(ms, lsn)| <= |ms| + 1
  {
    if ms != [] {
      InsertMarkerMembers(ms[1..], lsn, m);
      assert ms == [ms[0]] + ms[1..];
    }
  }

  lemma {:induction false} InsertMarkerSorted(ms: seq<nat>, lsn: nat)
    requires Sorted(ms)
    ensures Sorted(InsertMarker(ms, lsn))
  {
    if ms != [] && ms[0] < lsn {
      var rest := InsertMarker(ms[1..], lsn);
      InsertMarkerSorted(ms[1..], lsn);
      forall i | 0 <= i < |rest| ensures ms[0] < rest[i] {
        InsertMarkerMembers(ms[1..], lsn, rest[i]);
        assert rest[i] in rest;
      }
    }
  }

  /** The new marker stands at the end of the flushed log. */
  lemma MarkerAdded<D>(w: Wal<D>)
    requires MarkersOk(w) && w.flushed == w.Last() && (w.flushed > w.base || w.flushed == 0)
    ensures var ms := InsertMarker(w.markers, w.flushed);
            Sorted(ms) && w.flushed in ms && |ms| <= MAX_SNAPSHOT_LIMIT + 1 &&
            forall k :: 0 <= k < |ms| ==> ms[k] <= w.Last() && (ms[k] == 0 || ms[k] > w.base)
  {
    var ms := InsertMarker(w.markers, w.flushed);
    InsertMarkerSorted(w.markers, w.flushed);
    InsertMarkerMembers(w.markers, w.flushed, w.flushed);
    forall k | 0 <= k < |ms| ensures ms[k] <= w.Last() && (ms[k] == 0 || ms[k] > w.base) {
      InsertMarkerMembers(w.markers, w.flushed, ms[k]);
      assert ms[k] in ms;
    }
  }

  lemma CheckpointRefines<D>(w: Wal<D>, events: seq<D>)
    requires Refines(w, events)
    ensures var r := CreateCheckpoint(w, IO_OK);
            r.ok && Refines(r.wal, events) && r.wal.flushed == |events| && r.wal.buffer == [] && |events| in r.wal.markers
  {
    FlushRefines(w, events);
    MarkedRefines(Flush(w, IO_OK).wal, events);
  }

  /** The rest of a checkpoint, after its flush. */
  lemma MarkedRefines<D>(f: Wal<D>, events: seq<D>)
    requires Refines(f, events) && f.buffer == [] && f.flushed == |events|
    ensures var marked := f.(markers := InsertMarker(f.markers, f.flushed));
            if |marked.markers| <= MAX_SNAPSHOT_LIMIT then Refines(marked, events) && |events| in marked.markers
            else
              var t := TruncateBefore(marked, marked.markers[0]);
              t.ok && t.wal.markers == marked.markers && Refines(t.wal.(markers := t.wal.markers[1..]), events) &&
              |events| in t.wal.markers[1..] && t.wal.flushed == |events| && t.wal.buffer == []
  {
    assert f.disk + f.buffer == f.disk;
    MarkerAdded(f);
    var marked := f.(markers := InsertMarker(f.markers, f.flushed));
    if |marked.markers| > MAX_SNAPSHOT_LIMIT {
      RotateRefines(marked, events);
    }
  }

  /** Rotation drops the oldest marker and the entries below it. */
  lemma RotateRefines<D>(w: Wal<D>, events: seq<D>)
    requires Healthy(w) && w.buffer == [] && w.current == |events| && w.base <= |events| && w.disk == Numbered(events)[w.base..]
    requires (w.base > 0 ==> w.disk != []) && w.meta == Meta(w.flushed, w.flushed) && w.flushed in w.markers
    requires Sorted(w.markers) && |w.markers| == MAX_SNAPSHOT_LIMIT + 1
    requires forall k :: 0 <= k < |w.markers| ==> w.markers[k] <= w.Last() && (w.markers[k] == 0 || w.markers[k] > w.base)
    ensures var t := TruncateBefore(w, w.markers[0]);
            t.ok && Refines(t.wal.(markers := w.markers[1..]), events) && w.flushed in w.markers[1..]
  {
    var oldest := w.markers[0];
    var t := TruncateBefore(w, oldest);
    assert w.markers[1] > oldest;
    assert w.flushed in w.markers[1..] by {
      var k :| 0 <= k < |w.markers| && w.markers[k] == w.flushed;
      assert k > 0;
      assert w.markers[1..][k - 1] == w.flushed;
    }
    assert t.ok && t.wal.Last() == w.Last();
    var r := t.wal.(markers := w.markers[1..]);
    assert r.disk + r.buffer == r.disk;
    assert r.disk == Numbered(events)[r.base..];
    forall k | 0 <= k < |r.markers| ensures r.markers[k] <= r.Last() && (r.markers[k] == 0 || r.markers[k] > r.base) {
      assert r.markers[k] == w.markers[k + 1] > oldest;
    }
  }

  datatype Op<D> = WriteOp(data: D) | FlushOp | NodeOp(ds: seq<D>) | CheckpointOp

  function Step<D>(w: Wal<D>, op: Op<D>): Wal<D> {
    match op
    case WriteOp(d) => WriteEvent(w, Some(d), IO_OK).wal
    case FlushOp => Flush(w, IO_OK).wal
    case NodeOp(ds) => WriteNode(w, ds, [])
    case CheckpointOp => CreateCheckpoint(w, IO_OK).wal
  }

  function EventsOf<D>(op: Op<D>): seq<D> {
    match op
    case WriteOp(d) => [d]
    case NodeOp(ds) => ds
    case _ => []
  }

  function RunAll<D>(batch: nat, ops: seq<Op<D>>): Wal<D> {
    if ops == [] then Empty(batch) else Step(RunAll(batch, ops[..|ops| - 1]), ops[|ops| - 1])
  }

  function Events<D>(ops: seq<Op<D>>): seq<D> {
    if ops == [] then [] else Events(ops[..|ops| - 1]) + EventsOf(ops[|ops| - 1])
  }

  lemma StepRefines<D>(w: Wal<D>, events: seq<D>, op: Op<D>)
    requires Refines(w, events)
    ensures Refines(Step(w, op), events + EventsOf(op))
  {
    match op
    case WriteOp(d) => WriteRefines(w, events, d);
    case FlushOp =>
      FlushRefines(w, events);
      assert events + [] == events;
    case NodeOp(ds) => NodeRefines(w, events, ds);
    case CheckpointOp =>
      CheckpointRefines(w, events);
      assert events + [] == events;
  }

  /** Every run of writes, flushes, async drains and checkpoints leaves the numbered list of its events. */
  lemma {:induction false} RunRefines<D>(batch: nat, ops: seq<Op<D>>)
    ensures Refines(RunAll(batch, ops), Events(ops))
  {
    if ops == [] {
      assert Numbered<D>([])[0..] == [];
    } else {
      var n := |ops| - 1;
      RunRefines(batch, ops[..n]);
      StepRefines(RunAll(batch, ops[..n]), Events(ops[..n]), ops[n]);
    }
  }

  // ----- reads agree with the numbered list -----

  lemma {:induction false} BufferedAt<D>(buffer: seq<Entry<D>>, from: nat, lsn: nat)
    requires Contiguous(buffer, from)
    ensures Buffered(buffer, lsn) == if from <= lsn < from + |buffer| then Some(buffer[lsn - from]) else None
  {
    if buffer != [] {
      assert Contiguous(buffer[1..], from + 1);
      BufferedAt(buffer[1..], from + 1, lsn);
    }
  }

  /** A lookup by sequence number finds the event with that number, unless a checkpoint truncated it. */
  lemma GetEventAgrees<D>(w: Wal<D>, events: seq<D>, lsn: nat)
    requires Refines(w, events)
    ensures GetEvent(w, lsn) == if w.base < lsn <= |events| then Some(Entry(events[lsn - 1], lsn)) else None
  {
    BufferedAt(w.buffer, w.Last() + 1, lsn);
    var all := w.disk + w.buffer;
    if w.base < lsn <= |events| {
      assert all[lsn - 1 - w.base] == Numbered(events)[lsn - 1];
    }
  }

  /** A number within the log becomes its first entry. */
  lemma TruncatesTo<D>(w: Wal<D>, lsn: nat)
    requires lsn <= w.Last() && (lsn == 0 || lsn > w.base)
    ensures var r := TruncateBefore(w, lsn);
            r.ok && r.wal.markers == w.markers && r.wal.flushed == w.flushed &&
            r.wal.base == if lsn > w.base + 1 then lsn - 1 else w.base
  {
  }

  /**
   What a checkpoint does to markers and front.  Its marker is the number of events so far; up to the limit all markers
   stay and nothing is dropped.  Beyond it the oldest marker goes and the log begins with the entry it pointed to.
   */
  lemma CheckpointRotates<D>(w: Wal<D>, events: seq<D>)
    requires Refines(w, events)
    ensures var r := CreateCheckpoint(w, IO_OK);
            var all := if |events| in w.markers then w.markers else w.markers + [|events|];
            r.ok && r.wal.flushed == |events| &&
            if |all| <= 10 then r.wal.markers == all && r.wal.base == w.base
            else r.wal.markers == all[1..] && r.wal.base == if all[0] > w.base + 1 then all[0] - 1 else w.base
  {
    FlushRefines(w, events);
    assert Flush(w, IO_OK).wal.markers == w.markers && Flush(w, IO_OK).wal.base == w.base by {
      FlushHealthy(w);
    }
    MarkedRotates(Flush(w, IO_OK).wal, events);
  }

  lemma MarkedRotates<D>(f: Wal<D>, events: seq<D>)
    requires Refines(f, events) && f.buffer == [] && f.flushed == |events|
    ensures var all := if |events| in f.markers then f.markers else f.markers + [|events|];
            InsertMarker(f.markers, |events|) == all && |all| <= 11 &&
            (|all| == 11 ==>
               var t := TruncateBefore(f.(markers := all), all[0]);
               t.ok && t.wal.markers == all && t.wal.flushed == |events| &&
               t.wal.base == if all[0] > f.base + 1 then all[0] - 1 else f.base)
  {
    assert f.disk + f.buffer == f.disk;
    InsertLast(f.markers, |events|);
    MarkerAdded(f);
    var marked := f.(markers := InsertMarker(f.markers, f.flushed));
    if |marked.markers| > 10 {
      TruncatesTo(marked, marked.markers[0]);
    }
  }

  /** So an entry can be found after a checkpoint exactly if it could before and no rotation dropped it. */
  lemma RotationDropsIff<D>(w: Wal<D>, events: seq<D>, lsn: nat)
    requires Refines(w, events) && |w.markers| == 10 && |events| !in w.markers && w.base < lsn <= |events|
    ensures GetEvent(CreateCheckpoint(w, IO_OK).wal, lsn).None? <==> lsn < w.markers[0]
  {
    CheckpointRefines(w, events);
    CheckpointRotates(w, events);
    GetEventAgrees(CreateCheckpoint(w, IO_OK).wal, events, lsn);
  }

  /** A marker at or above all others goes to the end, unless it is there already. */
  lemma {:induction false} InsertLast(ms: seq<nat>, lsn: nat)
    requires Sorted(ms) && forall k :: 0 <= k < |ms| ==> ms[k] <= lsn
    ensures InsertMarker(ms, lsn) == if lsn in ms then ms else ms + [lsn]
  {
    if ms != [] {
      if ms[0] == lsn {
        assert lsn in ms;
      } else {
        InsertLast(ms[1..], lsn);
        assert ms == [ms[0]] + ms[1..];
      }
    }
  }

  /** An event only joins the buffer until that holds a full batch; a write that succeeds leaves less than one. */
  lemma WriteBuffersUntilFull<D>(w: Wal<D>, d: D, io: Io)
    requires w.batch > 0
    ensures var r := WriteEvent(w, Some(d), io);
            (r.ok ==> |r.wal.buffer| < w.batch) &&
            (|w.buffer| + 1 < w.batch ==>
               r.ok && r.wal.disk == w.disk && r.wal.buffer == w.buffer + [Entry(d, w.current + 1)])
  {
    var added := w.(current := w.current + 1, buffer := w.buffer + [Entry(d, w.current + 1)]);
    WriteFromWrites(added, 0, io);
  }

  /** Replay yields the durable events in order; on a log that never held anything it fails. */
  lemma ReplayAgrees<D>(w: Wal<D>, events: seq<D>)
    requires Refines(w, events)
    ensures Replay(w) == if w.flushed == 0 then None else Some(Numbered(events)[w.base..w.flushed])
  {
    var all := w.disk + w.buffer;
    assert w.disk == all[..|w.disk|];
    assert Numbered(events)[w.base..][..|w.disk|] == Numbered(events)[w.base..w.flushed];
  }

  /** No entry at or after a surviving nonzero marker is lost. */
  lemma MarkedEntriesSurvive<D>(w: Wal<D>, events: seq<D>, m: nat, lsn: nat)
    requires Refines(w, events) && m in w.markers && m != 0 && m <= lsn <= |events|
    ensures GetEvent(w, lsn) == Some(Entry(events[lsn - 1], lsn))
  {
    GetEventAgrees(w, events, lsn);
  }

  // ----- crashes -----

  lemma {:induction false} NumberedPrefix<D>(events: seq<D>, n: nat)
    requires n <= |events|
    ensures Numbered(events[..n]) == Numbered(events)[..n]
  {
  }

  /** A crash between operations loses exactly the unflushed events. */
  lemma ReopenRefines<D>(w: Wal<D>, events: seq<D>)
    requires Refines(w, events)
    ensures Refines(Reopen(w), events[..w.flushed])
  {
    NumberedPrefix(events, w.flushed);
    var all, r := w.disk + w.buffer, Reopen(w);
    assert r.disk + r.buffer == r.disk == all[..|w.disk|];
    assert Numbered(events)[w.base..][..|w.disk|] == Numbered(events)[..w.flushed][w.base..];
  }

  /** The counter and the buffer continue the disk log. */
  predicate Fit<D>(w: Wal<D>) {
    Contiguous(w.buffer, w.Last() + 1) && w.current == w.Last() + |w.buffer|
  }

  /** With working I/O, writing d and flushing succeeds: the log takes the next event. */
  predicate Accepts<D>(w: Wal<D>, d: D) {
    Flush(WriteEvent(w, Some(d), IO_OK).wal, IO_OK).ok
  }

  /** A second flush after a failed one fails too. */
  lemma FlushAgainFails<D>(w: Wal<D>)
    requires !Flush(w, IO_OK).ok
    ensures !Flush(Flush(w, IO_OK).wal, IO_OK).ok
  {
    var r := Flush(w, IO_OK).wal;
    FlushSucceedsIff(w);
    FlushSucceedsIff(r);
    WriteFromWrites(w, 0, IO_OK);
    GainIsRun(w, 0, IO_OK);
    assert w.buffer[0..] == w.buffer && r.buffer == w.buffer;
    if Gain(w, 0, IO_OK) > 0 {
      assert w.buffer[0].lsn == w.Last() + 1;
    }
  }

  /** Being fit is being able to take the next event. */
  lemma AcceptsIffFit<D>(w: Wal<D>, d: D)
    ensures Accepts(w, d) <==> Fit(w)
  {
    var e := Entry(d, w.current + 1);
    var added := w.(current := w.current + 1, buffer := w.buffer + [e]);
    assert Fit(w) <==> Contiguous(added.buffer, w.Last() + 1) by {
      assert forall k :: 0 <= k < |w.buffer| ==> added.buffer[k] == w.buffer[k];
      assert added.buffer[|w.buffer|] == e;
    }
    FlushSucceedsIff(added);
    if !Flush(added, IO_OK).ok {
      FlushAgainFails(added);
    }
  }

  /** A reopened log takes the next event exactly when the saved counter is the log's last index. */
  lemma ReopenFitIff<D>(w: Wal<D>, d: D)
    ensures Accepts(Reopen(w), d) <==> w.meta.current == w.Last()
  {
    AcceptsIffFit(Reopen(w), d);
  }

  /** A crash after some writes of a flush but before the metadata is saved leaves a log that refuses the next event. */
  lemma CrashBeforeSave<D>(w: Wal<D>, events: seq<D>, io: Io, d: D)
    requires Refines(w, events) && !Flush(w, io).ok && Flush(w, io).wal.Last() > w.Last()
    ensures !Accepts(Reopen(Flush(w, io).wal), d)
  {
    WriteFromWrites(w, 0, io);
    AcceptsIffFit(Reopen(Flush(w, io).wal), d);
  }

  // ----- after a fault -----

  /** Sequence numbers in use never exceed the counter. */
  predicate Sane<D>(w: Wal<D>) {
    w.Last() <= w.current && forall k :: 0 <= k < |w.buffer| ==> w.buffer[k].lsn <= w.current
  }

  /** The highest index the disk log can still reach with the entries it has. */
  function Frontier<D>(w: Wal<D>): nat {
    w.Last() + Run(w.buffer, w.Last() + 1)
  }

  lemma {:induction false} RunLast<D>(es: seq<Entry<D>>, from: nat)
    ensures Run(es, from) > 0 ==> es[Run(es, from) - 1].lsn == from + Run(es, from) - 1
  {
    if es != [] && es[0].lsn == from {
      RunLast(es[1..], from + 1);
    }
  }

  lemma FrontierWithinCounter<D>(w: Wal<D>)
    requires Sane(w)
    ensures Frontier(w) <= w.current
  {
    RunLast(w.buffer, w.Last() + 1);
  }

  lemma {:induction false} RunAppend<D>(es: seq<Entry<D>>, from: nat, e: Entry<D>)
    requires Run(es, from) < |es| || e.lsn != from + |es|
    ensures Run(es + [e], from) == Run(es, from)
  {
    if es == [] {
      assert es + [e] == [e];
    } else if es[0].lsn == from {
      assert (es + [e])[1..] == es[1..] + [e];
      RunAppend(es[1..], from + 1, e);
    }
  }

  /** w' can reach no further than w could, and is no fitter. */
  ghost predicate NoBetter<D>(w: Wal<D>, w': Wal<D>) {
    Sane(w') && !Fit(w') && Frontier(w') <= Frontier(w)
  }

  lemma FlushNoBetter<D>(w: Wal<D>, io: Io)
    requires Sane(w) && !Fit(w)
    ensures NoBetter(w, Flush(w, io).wal)
  {
    FrontierWithinCounter(w);
    if w.buffer != [] {
      WriteFromWrites(w, 0, io);
      GainIsRun(w, 0, io);
      assert w.buffer[0..] == w.buffer;
      RunIsAll(w.buffer, w.Last() + 1);
      if Gain(w, 0, io) > 0 {
        assert w.buffer[0].lsn == w.Last() + 1;
      }
    }
  }

  lemma AppendNoBetter<D>(w: Wal<D>, d: D)
    requires Sane(w) && !Fit(w)
    ensures NoBetter(w, w.(current := w.current + 1, buffer := w.buffer + [Entry(d, w.current + 1)]))
  {
    RunIsAll(w.buffer, w.Last() + 1);
    var e := Entry(d, w.current + 1);
    var added := w.(current := w.current + 1, buffer := w.buffer + [e]);
    assert forall k :: 0 <= k < |w.buffer| ==> added.buffer[k] == w.buffer[k];
    assert added.buffer[|w.buffer|] == e;
    RunAppend(w.buffer, w.Last() + 1, e);
  }

  lemma WriteNoBetter<D>(w: Wal<D>, event: Option<D>, io: Io)
    requires Sane(w) && !Fit(w)
    ensures NoBetter(w, WriteEvent(w, event, io).wal)
  {
    if event.None? {
      assert w.buffer != [] ==> w.buffer[|w.buffer| - 1].lsn <= w.current;
    } else {
      AppendNoBetter(w, event.value);
      FlushNoBetter(w.(current := w.current + 1, buffer := w.buffer + [Entry(event.value, w.current + 1)]), io);
    }
  }

  lemma {:induction false} AppendAllNoBetter<D>(w: Wal<D>, ds: seq<D>, ios: seq<Io>, n: nat)
    requires Sane(w) && !Fit(w) && n <= |ds|
    ensures NoBetter(w, AppendAll(w, ds, ios, n))
  {
    if n > 0 {
      AppendAllNoBetter(w, ds, ios, n - 1);
      WriteNoBetter(AppendAll(w, ds, ios, n - 1), Some(ds[n - 1]), IoAt(ios, n - 1));
    }
  }

  lemma CheckpointNoBetter<D>(w: Wal<D>, io: Io)
    requires Sane(w) && !Fit(w)
    ensures NoBetter(w, CreateCheckpoint(w, io).wal)
  {
    FlushNoBetter(w, io);
  }

  /** Any operation with any faults of any of its flushes. */
  datatype FaultyOp<D> =
    | FaultyWrite(event: Option<D>, io: Io) | FaultyFlush(io: Io) | FaultyNode(ds: seq<D>, ios: seq<Io>) | FaultyCheckpoint(io: Io)

  function FaultyStep<D>(w: Wal<D>, op: FaultyOp<D>): Wal<D> {
    match op
    case FaultyWrite(event, io) => WriteEvent(w, event, io).wal
    case FaultyFlush(io) => Flush(w, io).wal
    case FaultyNode(ds, ios) => WriteNode(w, ds, ios)
    case FaultyCheckpoint(io) => CreateCheckpoint(w, io).wal
  }

  function FaultyRun<D>(w: Wal<D>, ops: seq<FaultyOp<D>>): Wal<D>
    decreases |ops|
  {
    if ops == [] then w else FaultyRun(FaultyStep(w, ops[0]), ops[1..])
  }

  lemma FaultyStepNoBetter<D>(w: Wal<D>, op: FaultyOp<D>)
    requires Sane(w) && !Fit(w)
    ensures NoBetter(w, FaultyStep(w, op))
  {
    match op
    case FaultyWrite(event, io) => WriteNoBetter(w, event, io);
    case FaultyFlush(io) => FlushNoBetter(w, io);
    case FaultyNode(ds, ios) =>
      AppendAllNoBetter(w, ds, ios, |ds|);
      FlushNoBetter(AppendAll(w, ds, ios, |ds|), IoAt(ios, |ds|));
    case FaultyCheckpoint(io) => CheckpointNoBetter(w, io);
  }

  /** Once counter, buffer and disk log have come apart, no later operation repairs them. */
  lemma {:induction false} FaultStays<D>(w: Wal<D>, ops: seq<FaultyOp<D>>)
    requires Sane(w) && !Fit(w)
    ensures NoBetter(w, FaultyRun(w, ops))
    decreases |ops|
  {
    FrontierWithinCounter(w);
    if ops != [] {
      FaultyStepNoBetter(w, ops[0]);
      FaultStays(FaultyStep(w, ops[0]), ops[1..]);
    }
  }

  /**
   Once a log whose numbers stay within the counter refuses an event, it refuses every event after any further
   operations and failures, and nothing numbered above the present counter ever reaches the disk.
   */
  lemma FaultIsPermanent<D>(w: Wal<D>, d: D, ops: seq<FaultyOp<D>>, d': D)
    requires Sane(w) && !Accepts(w, d)
    ensures !Accepts(FaultyRun(w, ops), d') && FaultyRun(w, ops).Last() <= w.current
  {
    AcceptsIffFit(w, d);
    FaultStays(w, ops);
    AcceptsIffFit(FaultyRun(w, ops), d');
    FrontierWithinCounter(w);
  }

  /** An event that does not serialize is such a fault: the log took every event before and takes none afterwards. */
  lemma SerializationFailureUnfits<D>(w: Wal<D>, d: D, io: Io, ops: seq<FaultyOp<D>>, d': D)
    requires Accepts(w, d)
    ensures !Accepts(FaultyRun(WriteEvent(w, None, io).wal, ops), d')
  {
    var taken := WriteEvent(w, None, io).wal;
    AcceptsIffFit(w, d);
    AcceptsIffFit(taken, d);
    FaultIsPermanent(taken, d, ops, d');
  }

  /** A flush leaves a log that takes events such a log exactly when it wrote nothing or everything. */
  lemma FlushFitIff<D>(w: Wal<D>, d: D, io: Io)
    requires Accepts(w, d)
    ensures Accepts(Flush(w, io).wal, d) <==>
            w.buffer == [] || io.failAt.None? || io.failAt.value == 0 || io.failAt.value >= |w.buffer|
  {
    AcceptsIffFit(w, d);
    AcceptsIffFit(Flush(w, io).wal, d);
    FitWrites(w, 0, io);
  }

  lemma {:induction false} FitWrites<D>(w: Wal<D>, k: nat, io: Io)
    requires k <= |w.buffer| && Contiguous(w.buffer[k..], w.Last() + 1)
    ensures var r := WriteFrom(w, k, io);
            r.wal.buffer == w.buffer && r.wal.current == w.current &&
            (r.ok <==> io.failAt.None? || io.failAt.value < k || io.failAt.value >= |w.buffer|) &&
            r.wal.Last() == w.Last() + (if r.ok then |w.buffer| - k else io.failAt.value - k)
    decreases |w.buffer| - k
  {
    if k < |w.buffer| && io.failAt != Some(k) {
      assert w.buffer[k..][0] == w.buffer[k];
      var w' := LogWrite(w, w.buffer[k]);
      assert w'.buffer[k + 1..] == w.buffer[k..][1..];
      FitWrites(w', k + 1, io);
    }
  }
}
