/**
 The PoTS index under failures: a call that fails after it appended a block leaves the block in the log and out of
 the index, and that is the only way the two come apart.
 */
module PotsFaults {
  import opened Options
  import opened WalSpec
  import opened WalProof
  import opened PotsIndex
  import opened PotsProof

  /** The buffered entries that the disk log does not hold yet. */
  function Unwritten(buffer: seq<Entry<Record>>, last: nat): seq<Entry<Record>> {
    if buffer == [] then []
    else (if buffer[0].lsn > last then [buffer[0]] else []) + Unwritten(buffer[1..], last)
  }

  /** Every entry the log will have handed to a replay once its buffer is written out. */
  function Logged(log: Wal<Record>): seq<Entry<Record>> {
    log.disk + Unwritten(log.buffer, log.Last())
  }

  /** The live index is what a replay of log and buffer rebuilds. */
  ghost predicate Agrees(p: Pots) {
    p.index == IndexOf(Logged(p.log))
  }

  /** Disk log and buffer are a prefix and a suffix of the numbered events that leave no gap, under any I/O failures. */
  ghost predicate Track(log: Wal<Record>, events: seq<Record>) {
    log.base == 0 && log.current == |events| &&
    |log.disk| <= |events| && |log.buffer| <= |events| && |events| - |log.buffer| <= |log.disk| &&
    log.disk == Numbered(events)[..|log.disk|] && log.buffer == Numbered(events)[|events| - |log.buffer|..]
  }

  lemma {:induction false} UnwrittenSuffix(events: seq<Record>, m: nat, last: nat)
    requires m <= last <= |events|
    ensures Unwritten(Numbered(events)[m..], last) == Numbered(events)[last..]
    decreases |events| - m
  {
    var es := Numbered(events);
    if m < |events| {
      assert es[m..][1..] == es[m + 1..];
      if m < last {
        UnwrittenSuffix(events, m + 1, last);
      } else {
        UnwrittenAbove(events, m, last);
      }
    }
  }

  lemma {:induction false} UnwrittenAbove(events: seq<Record>, m: nat, last: nat)
    requires last <= m <= |events|
    ensures Unwritten(Numbered(events)[m..], last) == Numbered(events)[m..]
    decreases |events| - m
  {
    var es := Numbered(events);
    if m < |events| {
      assert es[m..][1..] == es[m + 1..];
      UnwrittenAbove(events, m + 1, last);
      assert es[m..] == [es[m]] + es[m + 1..];
    }
  }

  lemma CutAt(es: seq<Entry<Record>>, k: nat)
    requires k <= |es|
    ensures es[..k] + es[k..] == es
  {
  }

  lemma TrackLogged(log: Wal<Record>, events: seq<Record>)
    requires Track(log, events)
    ensures Logged(log) == Numbered(events)
  {
    UnwrittenSuffix(events, |events| - |log.buffer|, |log.disk|);
    CutAt(Numbered(events), |log.disk|);
  }

  /** A live log is tracked, and its index agrees. */
  lemma LiveTracks(p: Pots, events: seq<Record>)
    requires Live(p, events)
    ensures Track(p.log, events) && Agrees(p)
  {
    var all := p.log.disk + p.log.buffer;
    assert all == Numbered(events)[0..] == Numbered(events);
    assert p.log.disk == all[..|p.log.disk|] && p.log.buffer == all[|p.log.disk|..];
    TrackLogged(p.log, events);
  }

  /** A flush, however it fails, keeps the log tracked. */
  lemma FlushTracks(log: Wal<Record>, events: seq<Record>, io: Io)
    requires Track(log, events)
    ensures Track(Flush(log, io).wal, events)
  {
    if log.buffer != [] {
      var r, n, m := WriteFrom(log, 0, io).wal, Gain(log, 0, io), |events| - |log.buffer|;
      WriteFromWrites(log, 0, io);
      GainIsRun(log, 0, io);
      assert log.buffer[0..] == log.buffer && log.buffer[0].lsn == m + 1;
      if n > 0 {
        assert m == |log.disk|;
        assert Numbered(events)[..m] + Numbered(events)[m..][..n] == Numbered(events)[..m + n];
      } else {
        assert log.buffer[0..0] == [] && log.disk + [] == log.disk;
      }
    }
  }

  lemma AppendTracks(log: Wal<Record>, events: seq<Record>, r: Record)
    requires Track(log, events)
    ensures Track(log.(current := log.current + 1, buffer := log.buffer + [Entry(r, log.current + 1)]), events + [r])
  {
    assert Numbered(events + [r]) == Numbered(events) + [Entry(r, |events| + 1)];
  }

  lemma WriteTracks(log: Wal<Record>, events: seq<Record>, r: Record, io: Io)
    requires Track(log, events)
    ensures Track(WriteEvent(log, Some(r), io).wal, events + [r])
  {
    AppendTracks(log, events, r);
    FlushTracks(log.(current := log.current + 1, buffer := log.buffer + [Entry(r, log.current + 1)]), events + [r], io);
  }

  // ----- one call -----

  /** The records a single write appends: the block, unless there is none to append. */
  function AddedByWrite(input: Input): seq<Record> {
    if input.Given? then [PotsBlock(input.block)] else []
  }

  lemma WriteOneTracks(p: Pots, events: seq<Record>, input: Input, io: Io, flushIo: Io)
    requires Track(p.log, events)
    ensures var r := WriteOne(p, input, io, flushIo);
            Track(r.pots.log, events + AddedByWrite(input)) && (r.ok ==> input.Given?) &&
            r.pots.index == if r.ok then Note(p.index, input.block.number, |events| + 1) else p.index
  {
    if input.Given? {
      var rec := PotsBlock(input.block);
      WriteTracks(p.log, events, rec, io);
      FlushTracks(WriteEvent(p.log, Some(rec), io).wal, events + [rec], flushIo);
    } else {
      assert events + [] == events;
    }
  }

  /** The records a batch appends before it ends or stops. */
  function AddedByBatch(log: Wal<Record>, inputs: seq<Input>, io: Io): seq<Record>
    decreases |inputs|
  {
    if inputs == [] || inputs[0].Unmarshalable? then []
    else if inputs[0].Nil? then AddedByBatch(log, inputs[1..], io)
    else
      var r := WriteEvent(log, Some(PotsBlock(inputs[0].block)), io);
      [PotsBlock(inputs[0].block)] + if r.ok then AddedByBatch(r.wal, inputs[1..], io) else []
  }

  /** No block comes before the end of the batch or the first block that fails to marshal. */
  predicate StartsBlockless(inputs: seq<Input>) {
    inputs == [] || inputs[0].Unmarshalable? || (inputs[0].Nil? && StartsBlockless(inputs[1..]))
  }

  lemma {:induction false} AddedNothingIff(log: Wal<Record>, inputs: seq<Input>, io: Io)
    ensures AddedByBatch(log, inputs, io) == [] <==> StartsBlockless(inputs)
    decreases |inputs|
  {
    if inputs != [] && inputs[0].Nil? {
      AddedNothingIff(log, inputs[1..], io);
    }
  }

  /** Where the log is after a batch's appends. */
  lemma {:induction false} AppendBlocksTracks(log: Wal<Record>, events: seq<Record>, inputs: seq<Input>, io: Io, total: seq<Record>)
    requires Track(log, events) && total == events + AddedByBatch(log, inputs, io)
    ensures Track(AppendBlocks(log, inputs, io).log, total)
    decreases |inputs|
  {
    if inputs == [] || inputs[0].Unmarshalable? {
      assert total == events;
    } else if inputs[0].Nil? {
      AppendBlocksTracks(log, events, inputs[1..], io, total);
    } else {
      var rec := PotsBlock(inputs[0].block);
      var w := WriteEvent(log, Some(rec), io);
      WriteTracks(log, events, rec, io);
      if w.ok {
        assert total == events + [rec] + AddedByBatch(w.wal, inputs[1..], io);
        AppendBlocksTracks(w.wal, events + [rec], inputs[1..], io, total);
      } else {
        assert total == events + [rec];
      }
    }
  }

  lemma WriteEventCounts(log: Wal<Record>, r: Record, io: Io)
    ensures WriteEvent(log, Some(r), io).wal.current == log.current + 1
  {
    var added := log.(current := log.current + 1, buffer := log.buffer + [Entry(r, log.current + 1)]);
    WriteFromWrites(added, 0, io);
  }

  /** The first block of a batch that is appended in full. */
  lemma FirstCommit(log: Wal<Record>, inputs: seq<Input>, io: Io, ix: Index)
    requires inputs != [] && inputs[0].Given? && AppendBlocks(log, inputs, io).ok
    ensures var w := WriteEvent(log, Some(PotsBlock(inputs[0].block)), io);
            w.ok && w.wal.current == log.current + 1 && AppendBlocks(w.wal, inputs[1..], io).ok &&
            AddedByBatch(log, inputs, io) == [PotsBlock(inputs[0].block)] + AddedByBatch(w.wal, inputs[1..], io) &&
            NoteAll(ix, AppendBlocks(log, inputs, io).committed) ==
              NoteAll(Note(ix, inputs[0].block.number, log.current + 1), AppendBlocks(w.wal, inputs[1..], io).committed)
  {
    var rec := PotsBlock(inputs[0].block);
    WriteEventCounts(log, rec, io);
    NoteAllFront(ix, Committed(rec.block.number, log.current + 1),
                 AppendBlocks(WriteEvent(log, Some(rec), io).wal, inputs[1..], io).committed);
  }

  /** A batch that was appended in full lists one commit per record, with the numbers the log gave them. */
  lemma {:induction false} CommitsAreAdded(log: Wal<Record>, events: seq<Record>, inputs: seq<Input>, io: Io, ix: Index, total: seq<Record>)
    requires log.current == |events| && ix == IndexOf(Numbered(events)) && AppendBlocks(log, inputs, io).ok
    requires total == events + AddedByBatch(log, inputs, io)
    ensures NoteAll(ix, AppendBlocks(log, inputs, io).committed) == IndexOf(Numbered(total))
    decreases |inputs|
  {
    if inputs == [] {
      assert total == events;
    } else if inputs[0].Nil? {
      CommitsAreAdded(log, events, inputs[1..], io, ix, total);
    } else {
      var rec := PotsBlock(inputs[0].block);
      FirstCommit(log, inputs, io, ix);
      NotedFirst(events, rec, ix);
      AddFirst(events, rec, AddedByBatch(WriteEvent(log, Some(rec), io).wal, inputs[1..], io));
      CommitsAreAdded(WriteEvent(log, Some(rec), io).wal, events + [rec], inputs[1..], io,
                      Note(ix, rec.block.number, |events| + 1), total);
    }
  }

  lemma NotedFirst(events: seq<Record>, rec: Record, ix: Index)
    requires ix == IndexOf(Numbered(events)) && rec.PotsBlock?
    ensures Note(ix, rec.block.number, |events| + 1) == IndexOf(Numbered(events + [rec]))
  {
    IndexPush(events, rec);
  }

  lemma AddFirst(events: seq<Record>, rec: Record, more: seq<Record>)
    ensures events + ([rec] + more) == (events + [rec]) + more
  {
  }

  lemma {:induction false} CommitsCounted(log: Wal<Record>, inputs: seq<Input>, io: Io)
    requires AppendBlocks(log, inputs, io).ok
    ensures |AppendBlocks(log, inputs, io).committed| == |AddedByBatch(log, inputs, io)|
    decreases |inputs|
  {
    if inputs != [] && inputs[0].Nil? {
      CommitsCounted(log, inputs[1..], io);
    } else if inputs != [] {
      CommitsCounted(WriteEvent(log, Some(PotsBlock(inputs[0].block)), io).wal, inputs[1..], io);
    }
  }

  lemma {:induction false} NoteAllLength(ix: Index, cs: seq<Committed>)
    ensures |NoteAll(ix, cs).order| == |ix.order| + |cs|
  {
    if cs != [] {
      NoteAllLength(ix, cs[..|cs| - 1]);
    }
  }

  // ----- how many blocks the index misses -----

  lemma {:induction false} WrittenMore(events: seq<Record>, more: seq<Record>)
    ensures |Written(events + more)| == |Written(events)| + |Written(more)|
  {
    if more == [] {
      assert events + more == events;
    } else {
      var n := |more| - 1;
      assert (events + more)[..|events| + n] == events + more[..n];
      WrittenMore(events, more[..n]);
    }
  }

  /** A replay finds `missed` blocks more than the live index holds; with none missed the two agree. */
  ghost predicate Misses(p: Pots, events: seq<Record>, missed: nat) {
    Track(p.log, events) && |Written(events)| == |p.index.order| + missed &&
    (missed == 0 ==> p.index == IndexOf(Numbered(events)))
  }

  lemma AgreesIffNoneMissed(p: Pots, events: seq<Record>, missed: nat)
    requires Misses(p, events, missed)
    ensures Agrees(p) <==> missed == 0
  {
    TrackLogged(p.log, events);
    OrderPoints(events);
  }

  /** Any call with any failures. */
  datatype Call =
    | TryWrite(input: Input, io: Io, flushIo: Io) | TryBatch(inputs: seq<Input>, io: Io, flushIo: Io) | TryForeign(io: Io)

  function Try(p: Pots, call: Call): Result {
    match call
    case TryWrite(input, io, flushIo) => WriteOne(p, input, io, flushIo)
    case TryBatch(inputs, io, flushIo) => WriteMany(p, inputs, io, flushIo)
    case TryForeign(io) =>
      var w := WriteEvent(p.log, Some(Foreign), io);
      Result(p.(log := w.wal), w.ok)
  }

  /** The call reports success, or had no block to append. */
  predicate Clean(p: Pots, call: Call) {
    Try(p, call).ok ||
    match call
    case TryWrite(input, _, _) => !input.Given?
    case TryBatch(inputs, _, _) => StartsBlockless(inputs)
    case TryForeign(_) => true
  }

  function AddedByCall(p: Pots, call: Call): seq<Record> {
    match call
    case TryWrite(input, _, _) => AddedByWrite(input)
    case TryBatch(inputs, io, _) => AddedByBatch(p.log, inputs, io)
    case TryForeign(_) => [Foreign]
  }

  function NewlyMissed(p: Pots, call: Call): nat {
    if Clean(p, call) then 0 else |Written(AddedByCall(p, call))|
  }

  lemma OneWritten(r: Record)
    ensures |Written([r])| == if r.PotsBlock? then 1 else 0
  {
    assert [r][..0] == [];
  }

  lemma TryWriteMisses(p: Pots, events: seq<Record>, missed: nat, input: Input, io: Io, flushIo: Io)
    requires Misses(p, events, missed)
    ensures var call := TryWrite(input, io, flushIo);
            Misses(Try(p, call).pots, events + AddedByCall(p, call), missed + NewlyMissed(p, call))
  {
    WriteOneTracks(p, events, input, io, flushIo);
    WrittenMore(events, AddedByWrite(input));
    if input.Given? {
      OneWritten(PotsBlock(input.block));
      IndexPush(events, PotsBlock(input.block));
    } else {
      assert events + [] == events;
    }
  }

  lemma {:induction false} AddedAreBlocks(log: Wal<Record>, inputs: seq<Input>, io: Io)
    ensures |Written(AddedByBatch(log, inputs, io))| == |AddedByBatch(log, inputs, io)|
    decreases |inputs|
  {
    if inputs != [] && inputs[0].Nil? {
      AddedAreBlocks(log, inputs[1..], io);
    } else if inputs != [] && inputs[0].Given? {
      var rec := PotsBlock(inputs[0].block);
      var w := WriteEvent(log, Some(rec), io);
      var rest := if w.ok then AddedByBatch(w.wal, inputs[1..], io) else [];
      if w.ok {
        AddedAreBlocks(w.wal, inputs[1..], io);
      }
      WrittenMore([rec], rest);
      OneWritten(rec);
    }
  }

  lemma TryBatchMisses(p: Pots, events: seq<Record>, missed: nat, inputs: seq<Input>, io: Io, flushIo: Io)
    requires Misses(p, events, missed)
    ensures var call := TryBatch(inputs, io, flushIo);
            Misses(Try(p, call).pots, events + AddedByCall(p, call), missed + NewlyMissed(p, call))
  {
    var added := AddedByBatch(p.log, inputs, io);
    AddedNothingIff(p.log, inputs, io);
    AddedAreBlocks(p.log, inputs, io);
    WrittenMore(events, added);
    if inputs == [] {
      assert events + [] == events;
    } else {
      var a := AppendBlocks(p.log, inputs, io);
      AppendBlocksTracks(p.log, events, inputs, io, events + added);
      FlushTracks(a.log, events + added, flushIo);
      if a.ok {
        CommitsCounted(p.log, inputs, io);
        NoteAllLength(p.index, a.committed);
        if missed == 0 {
          CommitsAreAdded(p.log, events, inputs, io, p.index, events + added);
        }
      }
      if added == [] {
        assert events + added == events;
      }
    }
  }

  lemma TryForeignMisses(p: Pots, events: seq<Record>, missed: nat, io: Io)
    requires Misses(p, events, missed)
    ensures Misses(Try(p, TryForeign(io)).pots, events + [Foreign], missed)
  {
    WriteTracks(p.log, events, Foreign, io);
    WrittenMore(events, [Foreign]);
    OneWritten(Foreign);
    IndexPush(events, Foreign);
  }

  lemma TryMisses(p: Pots, events: seq<Record>, missed: nat, call: Call)
    requires Misses(p, events, missed)
    ensures Misses(Try(p, call).pots, events + AddedByCall(p, call), missed + NewlyMissed(p, call))
  {
    match call
    case TryWrite(input, io, flushIo) => TryWriteMisses(p, events, missed, input, io, flushIo);
    case TryBatch(inputs, io, flushIo) => TryBatchMisses(p, events, missed, inputs, io, flushIo);
    case TryForeign(io) => TryForeignMisses(p, events, missed, io);
  }

  /** An unclean call leaves at least one block out of the index. */
  lemma NewlyMissedIff(p: Pots, call: Call)
    ensures NewlyMissed(p, call) == 0 <==> Clean(p, call)
  {
    match call
    case TryWrite(input, io, flushIo) =>
      if input.Given? {
        OneWritten(PotsBlock(input.block));
      }
    case TryBatch(inputs, io, flushIo) =>
      AddedNothingIff(p.log, inputs, io);
      AddedAreBlocks(p.log, inputs, io);
    case TryForeign(io) =>
  }

  /**
   From any live state, after one call under any I/O failures, a replay of log and buffer rebuilds the live index
   exactly when the call reported success or had no block to append.
   */
  lemma CallAgreesIff(p: Pots, events: seq<Record>, call: Call)
    requires Live(p, events)
    ensures Agrees(Try(p, call).pots) <==> Clean(p, call)
  {
    LiveTracks(p, events);
    OrderPoints(events);
    TryMisses(p, events, 0, call);
    NewlyMissedIff(p, call);
    AgreesIffNoneMissed(Try(p, call).pots, events + AddedByCall(p, call), NewlyMissed(p, call));
  }

  // ----- any history of calls -----

  function AfterCalls(batch: nat, calls: seq<Call>): Pots {
    if calls == [] then Pots(Empty(batch), EMPTY_INDEX)
    else Try(AfterCalls(batch, calls[..|calls| - 1]), calls[|calls| - 1]).pots
  }

  /** Every call of the history reported success or had no block to append. */
  predicate AllClean(batch: nat, calls: seq<Call>) {
    calls == [] ||
    var n := |calls| - 1;
    AllClean(batch, calls[..n]) && Clean(AfterCalls(batch, calls[..n]), calls[n])
  }

  function EventsOfCalls(batch: nat, calls: seq<Call>): seq<Record> {
    if calls == [] then []
    else
      var n := |calls| - 1;
      EventsOfCalls(batch, calls[..n]) + AddedByCall(AfterCalls(batch, calls[..n]), calls[n])
  }

  /** Blocks that calls appended before they failed. */
  function MissedBy(batch: nat, calls: seq<Call>): nat {
    if calls == [] then 0
    else
      var n := |calls| - 1;
      MissedBy(batch, calls[..n]) + NewlyMissed(AfterCalls(batch, calls[..n]), calls[n])
  }

  lemma {:induction false} HistoryMisses(batch: nat, calls: seq<Call>)
    ensures Misses(AfterCalls(batch, calls), EventsOfCalls(batch, calls), MissedBy(batch, calls))
  {
    if calls == [] {
      NothingMissed(batch);
    } else {
      var n := |calls| - 1;
      var p, events, missed := AfterCalls(batch, calls[..n]), EventsOfCalls(batch, calls[..n]), MissedBy(batch, calls[..n]);
      HistoryMisses(batch, calls[..n]);
      TryMisses(p, events, missed, calls[n]);
      SameMisses(Try(p, calls[n]).pots, events + AddedByCall(p, calls[n]), missed + NewlyMissed(p, calls[n]),
                 AfterCalls(batch, calls), EventsOfCalls(batch, calls), MissedBy(batch, calls));
    }
  }

  lemma SameMisses(p: Pots, events: seq<Record>, missed: nat, p': Pots, events': seq<Record>, missed': nat)
    requires Misses(p, events, missed) && p == p' && events == events' && missed == missed'
    ensures Misses(p', events', missed')
  {
  }

  lemma NothingMissed(batch: nat)
    ensures Misses(Pots(Empty(batch), EMPTY_INDEX), [], 0)
  {
    HistoryLive(batch, []);
    LiveTracks(After(batch, []), []);
  }

  lemma {:induction false} MissedNoneIff(batch: nat, calls: seq<Call>)
    ensures MissedBy(batch, calls) == 0 <==> AllClean(batch, calls)
  {
    if calls != [] {
      var n := |calls| - 1;
      MissedNoneIff(batch, calls[..n]);
      NewlyMissedIff(AfterCalls(batch, calls[..n]), calls[n]);
    }
  }

  /**
   After any history of writes, batches and foreign events under any I/O failures, a replay of log and buffer
   rebuilds the live index exactly when no call failed after it had appended a block; otherwise it finds just the
   blocks of such calls in addition.
   */
  lemma HistoryAgreesIff(batch: nat, calls: seq<Call>)
    ensures var p := AfterCalls(batch, calls);
            (Agrees(p) <==> AllClean(batch, calls)) &&
            |IndexOf(Logged(p.log)).order| == |p.index.order| + MissedBy(batch, calls)
  {
    var p, events := AfterCalls(batch, calls), EventsOfCalls(batch, calls);
    HistoryMisses(batch, calls);
    MissedNoneIff(batch, calls);
    AgreesIffNoneMissed(p, events, MissedBy(batch, calls));
    TrackLogged(p.log, events);
    OrderPoints(events);
  }

  /**
   How that looks on disk: from any live state with an empty buffer, a block whose first write fails stays in the
   buffer, the next write makes it durable, and a replay finds both although the live index has only the second.
   */
  lemma FailedFlushDiverges(p: Pots, events: seq<Record>, b1: Block, b2: Block, io: Io)
    requires Live(p, events) && p.log.buffer == [] && io.failAt == Some(0)
    ensures var failed := WriteOne(p, Given(b1), io, io);
            var next := WriteOne(failed.pots, Given(b2), IO_OK, IO_OK);
            var n := |events|;
            !failed.ok && next.ok && next.pots.index.order == p.index.order + [n + 2] &&
            IndexOf(next.pots.log.disk).order == p.index.order + [n + 1, n + 2]
  {
    var r1, r2 := PotsBlock(b1), PotsBlock(b2);
    FirstWriteFails(p, events, b1, io);
    var log := WriteOne(p, Given(b1), io, io).pots.log;
    NextWriteIsDurable(log, events + [r1], r2);
    IndexPush(events, r1);
    IndexPush(events + [r1], r2);
  }

  lemma FirstWriteFails(p: Pots, events: seq<Record>, b: Block, io: Io)
    requires Live(p, events) && p.log.buffer == [] && io.failAt == Some(0)
    ensures var r := WriteOne(p, Given(b), io, io);
            !r.ok && r.pots.index == p.index && Refines(r.pots.log, events + [PotsBlock(b)]) && r.pots.log.base == 0
  {
    var log := p.log.(current := p.log.current + 1, buffer := p.log.buffer + [Entry(PotsBlock(b), p.log.current + 1)]);
    AppendRefines(p.log, events, PotsBlock(b));
    assert WriteOne(p, Given(b), io, io) == Result(Pots(log, p.index), false);
  }

  lemma NextWriteIsDurable(log: Wal<Record>, events: seq<Record>, r: Record)
    requires Refines(log, events) && log.base == 0
    ensures var w := WriteEvent(log, Some(r), IO_OK);
            w.ok && Flush(w.wal, IO_OK).ok && Flush(w.wal, IO_OK).wal.disk == Numbered(events + [r])
  {
    WriteEventLive(log, events, r);
    var w := WriteEvent(log, Some(r), IO_OK).wal;
    FlushLive(w, events + [r]);
    FlushRefines(w, events + [r]);
    var disk := Flush(w, IO_OK).wal.disk;
    assert disk + [] == disk;
    assert Numbered(events + [r])[0..] == Numbered(events + [r]);
  }

  // ----- concurrent writers -----

  /**
   Each call above is one step.  The index has a lock of its own, taken only after the flush: if two writers whose
   events got the numbers n + 1 and n + 2 reach it in the opposite order, the live index is never what a replay
   builds, and for two versions of one block it points to the older one.  So calls have to follow one another.
   */
  lemma SwappedWritersDiverge(p: Pots, events: seq<Record>, b1: Block, b2: Block)
    requires Live(p, events)
    ensures var n := |events|;
            var replayed := IndexOf(Numbered(events + [PotsBlock(b1)] + [PotsBlock(b2)]));
            var inOrder := Note(Note(p.index, b1.number, n + 1), b2.number, n + 2);
            var swapped := Note(Note(p.index, b2.number, n + 2), b1.number, n + 1);
            replayed == inOrder && swapped != replayed &&
            (b1.number == b2.number ==> replayed.blocks[b1.number] == n + 2 && swapped.blocks[b1.number] == n + 1)
  {
    var n := |events|;
    IndexPush(events, PotsBlock(b1));
    IndexPush(events + [PotsBlock(b1)], PotsBlock(b2));
    var swapped := Note(Note(p.index, b2.number, n + 2), b1.number, n + 1);
    assert swapped.order[|p.index.order|] == n + 2;
    assert Note(Note(p.index, b1.number, n + 1), b2.number, n + 2).order[|p.index.order|] == n + 1;
  }
}
