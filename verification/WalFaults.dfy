/** The write-ahead log under any failures: no event that was given a number is lost while the process lives. */
module WalFaults {
  import opened Options
  import opened WalSpec
  import opened WalProof

  /**
   taken lists what each sequence number was taken for: an event, or nothing if the event did not serialize.
   An entry is right if its number was taken for its event.
   */
  ghost predicate EntryOk<D>(e: Entry<D>, taken: seq<Option<D>>) {
    1 <= e.lsn <= |taken| && taken[e.lsn - 1] == Some(e.data)
  }

  ghost predicate EntriesOk<D>(es: seq<Entry<D>>, taken: seq<Option<D>>) {
    forall k :: 0 <= k < |es| ==> EntryOk(es[k], taken)
  }

  predicate Ascending<D>(es: seq<Entry<D>>) {
    forall i, j :: 0 <= i < j < |es| ==> es[i].lsn < es[j].lsn
  }

  ghost predicate Holds<D>(es: seq<Entry<D>>, n: nat) {
    exists k :: 0 <= k < |es| && es[k].lsn == n
  }

  /** Every event numbered above n is among es. */
  ghost predicate HoldsAbove<D>(es: seq<Entry<D>>, n: nat, taken: seq<Option<D>>) {
    forall k :: n <= k < |taken| && taken[k].Some? ==> Holds(es, k + 1)
  }

  /** Disk log and buffer hold right entries only, and together every event above the truncation point. */
  ghost predicate Tracks<D>(w: Wal<D>, taken: seq<Option<D>>) {
    w.current == |taken| && w.flushed == w.Last() <= |taken| &&
    Contiguous(w.disk, w.base + 1) && EntriesOk(w.disk, taken) &&
    Ascending(w.buffer) && EntriesOk(w.buffer, taken) && HoldsAbove(w.buffer, w.Last(), taken)
  }

  /** No event is numbered above n. */
  ghost predicate NoneAbove<D>(n: nat, taken: seq<Option<D>>) {
    forall k :: n <= k < |taken| ==> taken[k].None?
  }

  lemma {:induction false} RunContinues<D>(es: seq<Entry<D>>, from: nat, k: nat)
    requires k < Run(es, from)
    ensures es[k].lsn == from + k
  {
    if k > 0 {
      RunContinues(es[1..], from + 1, k - 1);
    }
  }

  /** Writing a front part of the buffer that continues the disk log. */
  lemma FrontWritten<D>(w: Wal<D>, taken: seq<Option<D>>, n: nat)
    requires Tracks(w, taken) && n <= Run(w.buffer, w.Last() + 1)
    ensures var disk := w.disk + w.buffer[..n];
            Contiguous(disk, w.base + 1) && EntriesOk(disk, taken) && w.Last() + n <= |taken|
    ensures forall k :: 0 <= k < n ==> w.buffer[k].lsn == w.Last() + 1 + k
  {
    forall k | 0 <= k < n ensures w.buffer[k].lsn == w.Last() + 1 + k {
      RunContinues(w.buffer, w.Last() + 1, k);
    }
    if n > 0 {
      assert EntryOk(w.buffer[n - 1], taken);
    }
  }

  lemma HoldsNothing<D>(n: nat, taken: seq<Option<D>>)
    ensures HoldsAbove([], n, taken) <==> NoneAbove(n, taken)
  {
    forall k ensures !Holds<D>([], k) {
    }
  }

  /** A buffer whose entries all are at most n holds nothing above n. */
  lemma HeldBelow<D>(es: seq<Entry<D>>, n: nat, taken: seq<Option<D>>)
    requires HoldsAbove(es, n, taken) && forall k :: 0 <= k < |es| ==> es[k].lsn <= n
    ensures NoneAbove(n, taken)
  {
  }

  lemma HoldsHigher<D>(es: seq<Entry<D>>, n: nat, m: nat, taken: seq<Option<D>>)
    requires HoldsAbove(es, n, taken) && n <= m
    ensures HoldsAbove(es, m, taken)
  {
  }

  /** A flush, wherever it fails, loses nothing; one that succeeds leaves no event above the disk log. */
  lemma FlushTracks<D>(w: Wal<D>, taken: seq<Option<D>>, io: Io)
    requires Tracks(w, taken)
    ensures var r := Flush(w, io); Tracks(r.wal, taken) && r.wal.Last() >= w.Last() && (r.ok ==> NoneAbove(r.wal.Last(), taken))
  {
    if w.buffer == [] {
      HoldsNothing(w.Last(), taken);
    } else {
      var r, n := WriteFrom(w, 0, io), Gain(w, 0, io);
      WriteFromWrites(w, 0, io);
      GainIsRun(w, 0, io);
      assert w.buffer[0..] == w.buffer && w.buffer[0..n] == w.buffer[..n];
      FrontWritten(w, taken, n);
      HoldsHigher(w.buffer, w.Last(), r.wal.Last(), taken);
      if r.ok {
        HeldBelow(w.buffer, r.wal.Last(), taken);
        HoldsNothing(r.wal.Last(), taken);
      }
    }
  }

  lemma NumberTaken<D>(w: Wal<D>, taken: seq<Option<D>>, event: Option<D>)
    requires Tracks(w, taken)
    ensures var w' := w.(current := w.current + 1,
                         buffer := w.buffer + if event.Some? then [Entry(event.value, w.current + 1)] else []);
            Tracks(w', taken + [event])
  {
    var es := w.buffer + if event.Some? then [Entry(event.value, w.current + 1)] else [];
    forall k | 0 <= k < |es| ensures EntryOk(es[k], taken + [event]) {
      assert k < |w.buffer| ==> EntryOk(w.buffer[k], taken);
    }
    forall k | 0 <= k < |w.disk| ensures EntryOk(w.disk[k], taken + [event]) {
      assert EntryOk(w.disk[k], taken);
    }
    forall k | w.Last() <= k < |taken + [event]| && (taken + [event])[k].Some? ensures Holds(es, k + 1) {
      if k < |taken| {
        var i :| 0 <= i < |w.buffer| && w.buffer[i].lsn == k + 1;
        assert es[i].lsn == k + 1;
      } else {
        assert es[|w.buffer|].lsn == k + 1;
      }
    }
  }

  lemma WriteTracks<D>(w: Wal<D>, taken: seq<Option<D>>, event: Option<D>, io: Io)
    requires Tracks(w, taken)
    ensures Tracks(WriteEvent(w, event, io).wal, taken + [event]) && WriteEvent(w, event, io).wal.Last() >= w.Last()
  {
    NumberTaken(w, taken, event);
    if event.Some? {
      FlushTracks(w.(current := w.current + 1, buffer := w.buffer + [Entry(event.value, w.current + 1)]), taken + [event], io);
    } else {
      assert w.buffer + [] == w.buffer;
    }
  }

  function Somes<D>(ds: seq<D>): (r: seq<Option<D>>)
    ensures |r| == |ds| && forall k :: 0 <= k < |ds| ==> r[k] == Some(ds[k])
  {
    seq(|ds|, k requires 0 <= k < |ds| => Some(ds[k]))
  }

  lemma OneMore<T>(front: seq<T>, xs: seq<T>, n: nat)
    requires 0 < n <= |xs|
    ensures front + xs[..n - 1] + [xs[n - 1]] == front + xs[..n]
  {
  }

  lemma Assoc<T>(a: seq<T>, b: seq<T>, c: seq<T>)
    ensures a + b + c == a + (b + c)
  {
  }

  lemma {:induction false} AppendAllTracks<D>(w: Wal<D>, taken: seq<Option<D>>, ds: seq<D>, ios: seq<Io>, n: nat)
    requires Tracks(w, taken) && n <= |ds|
    ensures Tracks(AppendAll(w, ds, ios, n), taken + Somes(ds)[..n]) && AppendAll(w, ds, ios, n).Last() >= w.Last()
  {
    if n == 0 {
      assert taken + Somes(ds)[..0] == taken;
    } else {
      AppendAllTracks(w, taken, ds, ios, n - 1);
      WriteTracks(AppendAll(w, ds, ios, n - 1), taken + Somes(ds)[..n - 1], Some(ds[n - 1]), IoAt(ios, n - 1));
      OneMore(taken, Somes(ds), n);
    }
  }

  lemma NodeTracks<D>(w: Wal<D>, taken: seq<Option<D>>, ds: seq<D>, ios: seq<Io>)
    requires Tracks(w, taken)
    ensures Tracks(WriteNode(w, ds, ios), taken + Somes(ds)) && WriteNode(w, ds, ios).Last() >= w.Last()
  {
    AppendAllTracks(w, taken, ds, ios, |ds|);
    assert Somes(ds)[..|ds|] == Somes(ds);
    FlushTracks(AppendAll(w, ds, ios, |ds|), taken + Somes(ds), IoAt(ios, |ds|));
  }

  /** The number at which a checkpoint leaves its marker file: none if its flush or the write of the file fails. */
  function MarkerMade<D>(w: Wal<D>, io: Io): Option<nat> {
    if Flush(w, io).ok && !io.marker.WriteFails? then Some(Flush(w, io).wal.flushed) else None
  }

  lemma TruncateTracks<D>(w: Wal<D>, taken: seq<Option<D>>, lsn: nat)
    requires Tracks(w, taken)
    ensures Tracks(TruncateBefore(w, lsn).wal, taken) && TruncateBefore(w, lsn).wal.Last() == w.Last()
  {
    var t := TruncateBefore(w, lsn).wal;
    forall k | 0 <= k < |t.disk| ensures t.disk[k].lsn == t.base + 1 + k && EntryOk(t.disk[k], taken) {
      assert t.disk[k] == w.disk[k + (t.base - w.base)] && EntryOk(w.disk[k + (t.base - w.base)], taken);
    }
  }

  /** A checkpoint, whatever fails, loses nothing, and a marker it makes stands on the disk above every event so far. */
  lemma CheckpointTracks<D>(w: Wal<D>, taken: seq<Option<D>>, io: Io)
    requires Tracks(w, taken)
    ensures var c := CreateCheckpoint(w, io).wal; Tracks(c, taken) && c.Last() >= w.Last()
    ensures var m, c := MarkerMade(w, io), CreateCheckpoint(w, io).wal; m.Some? ==> m.value <= c.Last() && NoneAbove(m.value, taken)
  {
    FlushTracks(w, taken, io);
    var f := Flush(w, io).wal;
    var marked := f.(markers := InsertMarker(f.markers, f.flushed));
    if |marked.markers| > 0 {
      TruncateTracks(marked, taken, marked.markers[0]);
    }
  }

  // ----- whole runs -----

  function TakenFor<D>(op: FaultyOp<D>): seq<Option<D>> {
    match op
    case FaultyWrite(event, _) => [event]
    case FaultyNode(ds, _) => Somes(ds)
    case _ => []
  }

  function TakenForAll<D>(ops: seq<FaultyOp<D>>): seq<Option<D>> {
    if ops == [] then [] else TakenFor(ops[0]) + TakenForAll(ops[1..])
  }

  lemma StepTracks<D>(w: Wal<D>, taken: seq<Option<D>>, op: FaultyOp<D>)
    requires Tracks(w, taken)
    ensures Tracks(FaultyStep(w, op), taken + TakenFor(op)) && FaultyStep(w, op).Last() >= w.Last()
  {
    match op
    case FaultyWrite(event, io) => WriteTracks(w, taken, event, io);
    case FaultyNode(ds, ios) => NodeTracks(w, taken, ds, ios);
    case FaultyFlush(io) =>
      FlushTracks(w, taken, io);
      assert taken + [] == taken;
    case FaultyCheckpoint(io) =>
      CheckpointTracks(w, taken, io);
      assert taken + [] == taken;
  }

  lemma {:induction false} RunTracks<D>(w: Wal<D>, taken: seq<Option<D>>, ops: seq<FaultyOp<D>>)
    requires Tracks(w, taken)
    ensures Tracks(FaultyRun(w, ops), taken + TakenForAll(ops))
    decreases |ops|
  {
    if ops == [] {
      assert taken + [] == taken;
    } else {
      StepTracks(w, taken, ops[0]);
      RunTracks(FaultyStep(w, ops[0]), taken + TakenFor(ops[0]), ops[1..]);
      Assoc(taken, TakenFor(ops[0]), TakenForAll(ops[1..]));
    }
  }

  lemma {:induction false} BufferedFinds<D>(es: seq<Entry<D>>, taken: seq<Option<D>>, n: nat)
    requires EntriesOk(es, taken) && 0 < n <= |taken|
    ensures Holds(es, n) ==> taken[n - 1].Some? && Buffered(es, n) == Some(Entry(taken[n - 1].value, n))
    ensures !Holds(es, n) ==> Buffered(es, n) == None
  {
    if es != [] {
      BufferedFinds(es[1..], taken, n);
      assert EntryOk(es[0], taken);
      if es[0].lsn == n {
        assert Holds(es, n);
      } else if Holds(es, n) {
        var k :| 0 <= k < |es| && es[k].lsn == n;
        assert es[1..][k - 1].lsn == n;
      } else {
        forall k | 0 <= k < |es[1..]| ensures es[1..][k].lsn != n {
          assert es[k + 1].lsn != n;
        }
      }
    }
  }

  /** A lookup above the truncation point finds the event its number was taken for, and nothing if there was none. */
  lemma LookupFinds<D>(w: Wal<D>, taken: seq<Option<D>>, n: nat)
    requires Tracks(w, taken) && w.base < n <= |taken|
    ensures GetEvent(w, n) == if taken[n - 1].Some? then Some(Entry(taken[n - 1].value, n)) else None
  {
    BufferedFinds(w.buffer, taken, n);
    if n <= w.Last() {
      assert EntryOk(w.disk[n - 1 - w.base], taken) && w.disk[n - 1 - w.base].lsn == n;
    } else if taken[n - 1].Some? {
      assert Holds(w.buffer, n - 1 + 1);
    }
  }

  /**
   After any operations with any failures every number above the truncation point still finds what it was taken for:
   an event that was appended is never lost while the process lives, even if no flush succeeds any more.
   */
  lemma NothingIsLost<D>(batch: nat, ops: seq<FaultyOp<D>>, n: nat)
    requires var w := FaultyRun<D>(Empty(batch), ops); w.base < n <= |TakenForAll(ops)|
    ensures var w, taken := FaultyRun<D>(Empty(batch), ops), TakenForAll(ops);
            GetEvent(w, n) == if taken[n - 1].Some? then Some(Entry(taken[n - 1].value, n)) else None
  {
    RunTracks<D>(Empty(batch), [], ops);
    assert [] + TakenForAll(ops) == TakenForAll(ops);
    LookupFinds(FaultyRun(Empty(batch), ops), TakenForAll(ops), n);
  }
}
