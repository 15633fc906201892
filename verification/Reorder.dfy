/** Longest runs of consecutive indices, the shape that every reorder stage emits. */
module Runs {

  /** The first index from next on that is not good; last + 1 if all up to last are. */
  function RunEnd(good: set<nat>, next: nat, last: int): (end: nat)
    requires next <= last + 1
    ensures next <= end <= last + 1 && forall i :: next <= i < end ==> i in good
    ensures end <= last ==> end !in good
    decreases last + 1 - next
  {
    if next <= last && next in good then RunEnd(good, next + 1, last) else next
  }

  lemma RunEndIs(good: set<nat>, next: nat, last: int, end: nat)
    requires next <= end <= last + 1 && (forall i :: next <= i < end ==> i in good) && (end <= last ==> end !in good)
    ensures RunEnd(good, next, last) == end
  {
    var r := RunEnd(good, next, last);
    assert r < end ==> r in good;
    assert end < r ==> end in good;
  }

  /** More good indices never shorten the run. */
  lemma RunEndMonotone(good: set<nat>, more: set<nat>, next: nat, last: int)
    requires good <= more && next <= last + 1
    ensures RunEnd(good, next, last) <= RunEnd(more, next, last)
  {
    var r := RunEnd(more, next, last);
    assert r < RunEnd(good, next, last) ==> r in good;
  }
}

/**
 DataSync's collector: batch results arrive in any completion order, are written strictly in batch order, and
 each write goes to the log before the database.
 */
module DataReorder {
  import opened Runs

  datatype Fetch = Failed | Got(blocks: seq<nat>, accounts: set<nat>)

  /** What goes wrong while a batch is written; a failed checkpoint only draws a warning. */
  datatype Fault = NoFault | LogFault | FlushFault | StoreFault | CheckpointFault

  datatype Batch = Batch(fetch: Fetch, fault: Fault)

  datatype Effect = Logged(id: nat, blocks: seq<nat>) | Flushed(id: nat) | Stored(id: nat, blocks: seq<nat>) | Checkpointed(id: nat)

  function Blocks(b: Batch): seq<nat> {
    if b.fetch.Got? then b.fetch.blocks else []
  }

  predicate WriteFails(b: Batch, wal: bool) {
    Blocks(b) != [] && (b.fault.StoreFault? || (wal && (b.fault.LogFault? || b.fault.FlushFault?)))
  }

  /** What writing a batch leaves behind, complete or cut off by its fault. */
  function WriteTrace(b: Batch, id: nat, wal: bool): seq<Effect> {
    if Blocks(b) == [] || (wal && b.fault.LogFault?) then []
    else if wal && b.fault.FlushFault? then [Logged(id, Blocks(b))]
    else
      (if wal then [Logged(id, Blocks(b)), Flushed(id)] else []) +
      (if b.fault.StoreFault? then [] else [Stored(id, Blocks(b))] + if wal && !b.fault.CheckpointFault? then [Checkpointed(id)] else [])
  }

  /** What writing each batch leaves behind. */
  ghost function Plan(batches: seq<Batch>, wal: bool): (p: seq<seq<Effect>>)
    ensures |p| == |batches|
  {
    seq(|batches|, i requires 0 <= i < |batches| => WriteTrace(batches[i], i + 1, wal))
  }

  /** Exactly batches 1 to k were written, or attempted, in this order. */
  ghost predicate WritesAre(batches: seq<Batch>, wal: bool, k: nat, writes: seq<seq<Effect>>) {
    k <= |batches| && writes == Plan(batches, wal)[..k]
  }

  lemma WroteNext(batches: seq<Batch>, wal: bool, k: nat, writes: seq<seq<Effect>>)
    requires k < |batches| && WritesAre(batches, wal, k, writes)
    ensures WritesAre(batches, wal, k + 1, writes + [WriteTrace(batches[k], k + 1, wal)])
  {
    assert Plan(batches, wal)[..k + 1] == Plan(batches, wal)[..k] + [Plan(batches, wal)[k]];
  }

  function AccountsUpTo(batches: seq<Batch>, k: nat): set<nat>
    requires k <= |batches|
  {
    if k == 0 then {}
    else AccountsUpTo(batches, k - 1) + if batches[k - 1].fetch.Got? then batches[k - 1].fetch.accounts else {}
  }

  /** A completion order: every batch number once. */
  predicate Completion(batches: seq<Batch>, order: seq<nat>) {
    (forall i :: 0 <= i < |order| ==> 1 <= order[i] <= |batches|) &&
    (forall i, j :: 0 <= i < j < |order| ==> order[i] != order[j]) &&
    (forall id :: 1 <= id <= |batches| ==> id in order)
  }

  predicate FetchFailed(batches: seq<Batch>, id: nat) {
    1 <= id <= |batches| && batches[id - 1].fetch.Failed?
  }

  predicate Works(batches: seq<Batch>, id: nat, wal: bool) {
    1 <= id <= |batches| && !WriteFails(batches[id - 1], wal)
  }

  /** Arrivals before the first failed fetch, looking from arrival i on. */
  function CutFrom(batches: seq<Batch>, order: seq<nat>, i: nat): (c: nat)
    requires i <= |order|
    ensures i <= c <= |order| && forall k :: i <= k < c ==> !FetchFailed(batches, order[k])
    ensures c < |order| ==> FetchFailed(batches, order[c])
    decreases |order| - i
  {
    if i == |order| || FetchFailed(batches, order[i]) then i else CutFrom(batches, order, i + 1)
  }

  function Cut(batches: seq<Batch>, order: seq<nat>): (c: nat)
    ensures c <= |order|
  {
    CutFrom(batches, order, 0)
  }

  /** The first j arrivals. */
  function Seen(order: seq<nat>, j: nat): (s: set<nat>)
    requires j <= |order|
    ensures forall i :: 0 <= i < j ==> order[i] in s
    ensures forall id :: id in s ==> exists i :: 0 <= i < j && order[i] == id
  {
    set i | 0 <= i < j :: order[i]
  }

  lemma SeenNext(order: seq<nat>, j: nat)
    requires j < |order|
    ensures Seen(order, j + 1) == Seen(order, j) + {order[j]}
  {
  }

  /** Batches that arrive before the first failed fetch and can be written. */
  ghost function Writable(batches: seq<Batch>, order: seq<nat>, wal: bool): set<nat> {
    set id | id in Seen(order, Cut(batches, order)) && Works(batches, id, wal)
  }

  /** Blocks in the database after a trace. */
  function StoredBlocks(trace: seq<Effect>): seq<nat> {
    if trace == [] then [] else (if trace[0].Stored? then trace[0].blocks else []) + StoredBlocks(trace[1..])
  }

  // ----- the program -----

  /** Write-ahead: the record, its flush, the database write, then a checkpoint whose failure is only logged. */
  method ProcessAndWriteBatch(b: Batch, id: nat, wal: bool, tags0: set<nat>)
    returns (trace: seq<Effect>, tags: set<nat>, ok: bool)
    ensures trace == WriteTrace(b, id, wal) && ok == !WriteFails(b, wal)
    ensures tags == tags0 + if b.fetch.Got? then b.fetch.accounts else {}
    ensures b.fetch.Failed? || b.fetch.blocks == [] ==> trace == [] && ok
    ensures b.fetch.Got? && b.fetch.blocks != [] && ok ==> StoredBlocks(trace) == b.fetch.blocks
    ensures b.fetch.Got? && b.fetch.blocks != [] && b.fault.NoFault? ==>
              trace == if wal then [Logged(id, b.fetch.blocks), Flushed(id), Stored(id, b.fetch.blocks), Checkpointed(id)]
                       else [Stored(id, b.fetch.blocks)]
    ensures !ok ==> StoredBlocks(trace) == [] && (b.fault.StoreFault? || (wal && (b.fault.LogFault? || b.fault.FlushFault?)))
  {
    StoredByWrite(b, id, wal);
    trace, tags := [], tags0;
    if b.fetch.Got? {
      tags := tags + b.fetch.accounts;
    }
    var blocks := Blocks(b);
    if |blocks| == 0 {
      return trace, tags, true;
    }
    if wal {
      if b.fault.LogFault? {
        return trace, tags, false;
      }
      trace := trace + [Logged(id, blocks)];
      if b.fault.FlushFault? {
        return trace, tags, false;
      }
      trace := trace + [Flushed(id)];
    }
    if b.fault.StoreFault? {
      return trace, tags, false;
    }
    trace := trace + [Stored(id, blocks)];
    if wal && !b.fault.CheckpointFault? {
      trace := trace + [Checkpointed(id)];
    }
    return trace, tags, true;
  }

  /** Written so far: every batch before expected. */
  ghost predicate WrittenTo(batches: seq<Batch>, wal: bool, expected: nat, writes: seq<seq<Effect>>, tags: set<nat>) {
    1 <= expected && WritesAre(batches, wal, expected - 1, writes) && tags == AccountsUpTo(batches, expected - 1)
  }

  ghost predicate IsBatch(batches: seq<Batch>, id: nat, b: Batch) {
    1 <= id <= |batches| && batches[id - 1] == b
  }

  /** Of the arrivals in seen, all before expected were written and exactly the others are held. */
  ghost predicate Holds(batches: seq<Batch>, seen: set<nat>, wal: bool, expected: nat, held: map<nat, Batch>) {
    (forall id :: 1 <= id < expected ==> id in seen && Works(batches, id, wal)) &&
    (forall id :: id in held <==> id in seen && id >= expected) &&
    (forall id :: id in held ==> IsBatch(batches, id, held[id]))
  }

  lemma ReleasedNext(batches: seq<Batch>, seen: set<nat>, wal: bool, expected: nat, held: map<nat, Batch>)
    requires Holds(batches, seen, wal, expected, held) && expected in held && Works(batches, expected, wal)
    ensures Holds(batches, seen, wal, expected + 1, held - {expected})
  {
  }

  /** All batches below id were seen and written; id was seen and its write failed. */
  ghost predicate StoppedAt(batches: seq<Batch>, seen: set<nat>, wal: bool, id: nat, writes: seq<seq<Effect>>) {
    1 <= id && (forall i :: 1 <= i < id ==> i in seen && Works(batches, i, wal)) &&
    id in seen && !Works(batches, id, wal) && WritesAre(batches, wal, id, writes)
  }

  /** Writes the expected batch b and then held batches as long as the next one is there. */
  method WriteFrom(ghost batches: seq<Batch>, ghost seen: set<nat>, wal: bool, b: Batch, expected0: nat,
                   held0: map<nat, Batch>, writes0: seq<seq<Effect>>, tags0: set<nat>)
    returns (expected: nat, held: map<nat, Batch>, writes: seq<seq<Effect>>, tags: set<nat>, ok: bool)
    requires WrittenTo(batches, wal, expected0, writes0, tags0)
    requires expected0 !in held0 && Holds(batches, seen, wal, expected0, held0[expected0 := b])
    ensures ok ==> WrittenTo(batches, wal, expected, writes, tags) && Holds(batches, seen, wal, expected, held) && expected !in held
    ensures !ok ==> StoppedAt(batches, seen, wal, expected, writes)
  {
    ghost var all := held0[expected0 := b];
    expected, held, writes, ok := expected0, held0, writes0, false;
    assert IsBatch(batches, expected, all[expected]);
    var trace, tags', written := ProcessAndWriteBatch(b, expected, wal, tags0);
    WroteNext(batches, wal, expected - 1, writes);
    writes, tags := writes + [trace], tags';
    if !written {
      return;
    }
    ReleasedNext(batches, seen, wal, expected, all);
    assert all - {expected} == held;
    expected := expected + 1;
    expected, held, writes, tags, ok := Drain(batches, seen, wal, expected, held, writes, tags);
  }

  /** Writes held batches as long as the next one is there. */
  method Drain(ghost batches: seq<Batch>, ghost seen: set<nat>, wal: bool, expected0: nat, held0: map<nat, Batch>,
               writes0: seq<seq<Effect>>, tags0: set<nat>)
    returns (expected: nat, held: map<nat, Batch>, writes: seq<seq<Effect>>, tags: set<nat>, ok: bool)
    requires WrittenTo(batches, wal, expected0, writes0, tags0) && Holds(batches, seen, wal, expected0, held0)
    ensures ok ==> WrittenTo(batches, wal, expected, writes, tags) && Holds(batches, seen, wal, expected, held) && expected !in held
    ensures !ok ==> StoppedAt(batches, seen, wal, expected, writes)
  {
    expected, held, writes, tags := expected0, held0, writes0, tags0;
    while expected in held
      invariant WrittenTo(batches, wal, expected, writes, tags) && Holds(batches, seen, wal, expected, held)
      decreases |batches| + 1 - expected
    {
      assert IsBatch(batches, expected, held[expected]);
      WroteNext(batches, wal, expected - 1, writes);
      var trace, tags', written := ProcessAndWriteBatch(held[expected], expected, wal, tags);
      if !written {
        return expected, held, writes + [trace], tags', false;
      }
      ReleasedNext(batches, seen, wal, expected, held);
      expected, held, writes, tags := expected + 1, held - {expected}, writes + [trace], tags';
    }
    ok := true;
  }

  /** How many batches a run writes: the longest run of writable batches from the first. */
  ghost function Written(batches: seq<Batch>, order: seq<nat>, wal: bool): (k: nat)
    ensures k <= |batches|
  {
    RunEnd(Writable(batches, order, wal), 1, |batches|) - 1
  }

  /** What it leaves behind: those writes, and the failed write of the next batch if that batch arrived. */
  ghost function Writes(batches: seq<Batch>, order: seq<nat>, wal: bool): seq<seq<Effect>> {
    var k := Written(batches, order, wal);
    if k < |batches| && k + 1 in Seen(order, Cut(batches, order)) then Plan(batches, wal)[..k + 1]
    else Plan(batches, wal)[..k]
  }

  /** One arrival that was fetched: written with its held successors if it is the expected one, held otherwise. */
  method Arrive(ghost batches: seq<Batch>, ghost order: seq<nat>, ghost j: nat, wal: bool, id: nat, b: Batch, expected0: nat,
                held0: map<nat, Batch>, writes0: seq<seq<Effect>>, tags0: set<nat>)
    returns (expected: nat, held: map<nat, Batch>, writes: seq<seq<Effect>>, tags: set<nat>, ok: bool)
    requires Completion(batches, order) && j < |order| && id == order[j] && b == batches[id - 1]
    requires WrittenTo(batches, wal, expected0, writes0, tags0)
    requires Holds(batches, Seen(order, j), wal, expected0, held0) && expected0 !in held0
    ensures ok ==> WrittenTo(batches, wal, expected, writes, tags)
    ensures ok ==> Holds(batches, Seen(order, j + 1), wal, expected, held) && expected !in held
    ensures !ok ==> StoppedAt(batches, Seen(order, j + 1), wal, expected, writes)
  {
    SeenNext(order, j);
    NewArrival(batches, order, wal, j, expected0, held0);
    if id == expected0 {
      expected, held, writes, tags, ok := WriteFrom(batches, Seen(order, j + 1), wal, b, expected0, held0, writes0, tags0);
    } else {
      expected, held, writes, tags, ok := expected0, held0[id := b], writes0, tags0, true;
    }
  }

  /**
   The collector writes exactly batches 1 to k in order, k being the longest run of batches that arrive before
   the first failed fetch and can be written; it succeeds, with all tags, exactly when that is every batch.
   */
  method ProcessDataQueue(batches: seq<Batch>, order: seq<nat>, wal: bool)
    returns (written: nat, writes: seq<seq<Effect>>, tags: set<nat>, ok: bool)
    requires Completion(batches, order)
    ensures written == Written(batches, order, wal) && writes == Writes(batches, order, wal)
    ensures ok <==> written == |batches|
    ensures ok ==> tags == AccountsUpTo(batches, |batches|)
  {
    var expected: nat := 1;
    var held: map<nat, Batch> := map[];
    writes, tags := [], {};
    for j := 0 to |order|
      invariant forall i :: 0 <= i < j ==> !FetchFailed(batches, order[i])
      invariant WrittenTo(batches, wal, expected, writes, tags)
      invariant Holds(batches, Seen(order, j), wal, expected, held) && expected !in held
    {
      var id := order[j];
      if batches[id - 1].fetch.Failed? {
        FetchEnds(batches, order, wal, j, expected, held, writes);
        return expected - 1, writes, tags, false;
      }
      expected, held, writes, tags, ok := Arrive(batches, order, j, wal, id, batches[id - 1], expected, held, writes, tags);
      if !ok {
        StopEnds(batches, order, wal, j + 1, expected, writes);
        return expected - 1, writes, tags, false;
      }
    }
    AllArrived(batches, order, wal, expected, held, writes);
    return expected - 1, writes, tags, true;
  }

  /** The collector stopped at a failed fetch. */
  lemma FetchEnds(batches: seq<Batch>, order: seq<nat>, wal: bool, j: nat, expected: nat, held: map<nat, Batch>, writes: seq<seq<Effect>>)
    requires Completion(batches, order) && j < |order| && FetchFailed(batches, order[j])
    requires forall i :: 0 <= i < j ==> !FetchFailed(batches, order[i])
    requires 1 <= expected && WritesAre(batches, wal, expected - 1, writes)
    requires Holds(batches, Seen(order, j), wal, expected, held) && expected !in held
    ensures Written(batches, order, wal) == expected - 1 && Writes(batches, order, wal) == writes && expected <= |batches|
  {
    CutIs(batches, order, j);
    RunEnds(batches, order, wal, expected, writes);
    NotAll(batches, order, j, expected);
  }

  /** Every batch arrived, so none is missing. */
  lemma AllArrived(batches: seq<Batch>, order: seq<nat>, wal: bool, expected: nat, held: map<nat, Batch>, writes: seq<seq<Effect>>)
    requires Completion(batches, order) && forall i :: 0 <= i < |order| ==> !FetchFailed(batches, order[i])
    requires 1 <= expected && WritesAre(batches, wal, expected - 1, writes)
    requires Holds(batches, Seen(order, |order|), wal, expected, held) && expected !in held
    ensures Written(batches, order, wal) == expected - 1 && Writes(batches, order, wal) == writes && expected == |batches| + 1
  {
    CutIs(batches, order, |order|);
    RunEnds(batches, order, wal, expected, writes);
    assert expected <= |batches| ==> expected in order;
  }

  /** A batch that arrives is new, not yet written, and can be put with the held ones. */
  lemma NewArrival(batches: seq<Batch>, order: seq<nat>, wal: bool, j: nat, expected: nat, held: map<nat, Batch>)
    requires Completion(batches, order) && j < |order|
    requires Holds(batches, Seen(order, j), wal, expected, held)
    ensures order[j] >= expected && order[j] !in held
    ensures Holds(batches, Seen(order, j) + {order[j]}, wal, expected, held[order[j] := batches[order[j] - 1]])
  {
    assert order[j] !in Seen(order, j);
    assert IsBatch(batches, order[j], batches[order[j] - 1]);
  }

  /** Stopping at a failed fetch leaves batches unwritten. */
  lemma NotAll(batches: seq<Batch>, order: seq<nat>, j: nat, expected: nat)
    requires Completion(batches, order) && j < |order|
    requires forall id :: 1 <= id < expected ==> id in Seen(order, j)
    ensures expected <= |batches|
  {
    assert order[j] !in Seen(order, j);
  }

  lemma {:induction false} CutIs(batches: seq<Batch>, order: seq<nat>, j: nat)
    requires j <= |order| && (forall i :: 0 <= i < j ==> !FetchFailed(batches, order[i]))
    requires j < |order| ==> FetchFailed(batches, order[j])
    ensures Cut(batches, order) == j
  {
  }

  /** The collector ran out of arrivals with batch `expected` still missing. */
  lemma RunEnds(batches: seq<Batch>, order: seq<nat>, wal: bool, expected: nat, writes: seq<seq<Effect>>)
    requires 1 <= expected && WritesAre(batches, wal, expected - 1, writes) && expected !in Seen(order, Cut(batches, order))
    requires forall id :: 1 <= id < expected ==> id in Seen(order, Cut(batches, order)) && Works(batches, id, wal)
    ensures Written(batches, order, wal) == expected - 1 && Writes(batches, order, wal) == writes
  {
    RunEndIs(Writable(batches, order, wal), 1, |batches|, expected);
  }

  /** The collector stopped at the failing write of batch id. */
  lemma StopEnds(batches: seq<Batch>, order: seq<nat>, wal: bool, j: nat, id: nat, writes: seq<seq<Effect>>)
    requires j <= |order| && StoppedAt(batches, Seen(order, j), wal, id, writes)
    requires forall i :: 0 <= i < j ==> !FetchFailed(batches, order[i])
    ensures Written(batches, order, wal) == id - 1 && Writes(batches, order, wal) == writes
  {
    assert j <= Cut(batches, order);
    assert Seen(order, j) <= Seen(order, Cut(batches, order));
    RunEndIs(Writable(batches, order, wal), 1, |batches|, id);
  }

  // ----- completion order does not show -----

  lemma AllSeen(batches: seq<Batch>, order: seq<nat>, id: nat)
    requires Completion(batches, order) && forall i :: 0 <= i < |order| ==> !FetchFailed(batches, order[i])
    ensures id in Seen(order, Cut(batches, order)) <==> 1 <= id <= |batches|
  {
    CutIs(batches, order, |order|);
    if 1 <= id <= |batches| {
      assert id in order;
    }
  }

  /** Without a failed fetch, every completion order gives the same writes. */
  lemma OrderDoesNotShow(batches: seq<Batch>, order: seq<nat>, order': seq<nat>, wal: bool)
    requires Completion(batches, order) && Completion(batches, order')
    requires forall id :: 1 <= id <= |batches| ==> !FetchFailed(batches, id)
    ensures Writes(batches, order, wal) == Writes(batches, order', wal)
  {
    forall id: nat ensures id in Seen(order, Cut(batches, order)) <==> 1 <= id <= |batches| {
      AllSeen(batches, order, id);
    }
    forall id: nat ensures id in Seen(order', Cut(batches, order')) <==> 1 <= id <= |batches| {
      AllSeen(batches, order', id);
    }
    assert Writable(batches, order, wal) == Writable(batches, order', wal);
  }

  /** With a failed fetch, any order writes a prefix of what an undisturbed run of the same batches writes. */
  lemma FailureOnlyShortens(batches: seq<Batch>, order: seq<nat>, wal: bool)
    ensures Written(batches, order, wal) <= RunEnd(set id | 1 <= id <= |batches| && Works(batches, id, wal), 1, |batches|) - 1
    ensures Writes(batches, order, wal) <= Plan(batches, wal)
  {
    RunEndMonotone(Writable(batches, order, wal), set id | 1 <= id <= |batches| && Works(batches, id, wal), 1, |batches|);
  }

  /** The writes as one sequence of effects. */
  function Flatten(writes: seq<seq<Effect>>): seq<Effect> {
    if writes == [] then [] else Flatten(writes[..|writes| - 1]) + writes[|writes| - 1]
  }

  // ----- write-ahead -----

  /**
   With a log, every database write comes right after the flush of the very record that holds its blocks, and
   every checkpoint right after the database write it stands for: at no point is there a stored block that the
   flushed log does not hold, or a checkpoint over a block that is not stored.
   */
  ghost predicate WriteAhead(trace: seq<Effect>) {
    forall p :: 0 <= p < |trace| ==> FollowsRecord(trace, p)
  }

  ghost predicate FollowsRecord(trace: seq<Effect>, p: nat)
    requires p < |trace|
  {
    (trace[p].Stored? ==> p >= 2 && trace[p - 1] == Flushed(trace[p].id) && trace[p - 2] == Logged(trace[p].id, trace[p].blocks)) &&
    (trace[p].Checkpointed? ==> p >= 1 && trace[p - 1].Stored? && trace[p - 1].id == trace[p].id)
  }

  lemma WriteKeepsAhead(trace: seq<Effect>, b: Batch, id: nat)
    requires WriteAhead(trace)
    ensures WriteAhead(trace + WriteTrace(b, id, true))
  {
    var w := WriteTrace(b, id, true);
    forall p | 0 <= p < |trace + w| ensures FollowsRecord(trace + w, p) {
      if p < |trace| {
        assert FollowsRecord(trace, p);
      }
    }
  }

  lemma {:induction false} WritesAreAhead(batches: seq<Batch>, k: nat, writes: seq<seq<Effect>>)
    requires WritesAre(batches, true, k, writes)
    ensures WriteAhead(Flatten(writes))
  {
    if k > 0 {
      assert writes[..k - 1] == Plan(batches, true)[..k - 1];
      WritesAreAhead(batches, k - 1, writes[..k - 1]);
      WriteKeepsAhead(Flatten(writes[..k - 1]), batches[k - 1], k);
    }
  }

  /** Every run with a log, failed or not, is write-ahead throughout. */
  lemma RunsAreWriteAhead(batches: seq<Batch>, order: seq<nat>)
    ensures WriteAhead(Flatten(Writes(batches, order, true)))
  {
    var writes := Writes(batches, order, true);
    WritesAreAhead(batches, |writes|, writes);
  }

  // ----- what the database holds -----

  function BlocksUpTo(batches: seq<Batch>, k: nat): seq<nat>
    requires k <= |batches|
  {
    if k == 0 then []
    else BlocksUpTo(batches, k - 1) + if batches[k - 1].fetch.Got? then batches[k - 1].fetch.blocks else []
  }

  lemma {:induction false} StoredConcat(s: seq<Effect>, t: seq<Effect>)
    ensures StoredBlocks(s + t) == StoredBlocks(s) + StoredBlocks(t)
  {
    if s == [] {
      assert s + t == t;
    } else {
      assert (s + t)[1..] == s[1..] + t;
      StoredConcat(s[1..], t);
    }
  }

  /** A write stores the batch's blocks if it succeeds and nothing if it fails. */
  lemma StoredByWrite(b: Batch, id: nat, wal: bool)
    ensures StoredBlocks(WriteTrace(b, id, wal)) == if WriteFails(b, wal) then [] else Blocks(b)
  {
    var before := if wal then [Logged(id, Blocks(b)), Flushed(id)] else [];
    var after := if wal && !b.fault.CheckpointFault? then [Checkpointed(id)] else [];
    if wal {
      assert before[1..] == [Flushed(id)];
      assert StoredBlocks([Flushed(id)]) == [];
    }
    assert StoredBlocks(before) == [];
    assert StoredBlocks(after) == [];
    assert StoredBlocks([Stored(id, Blocks(b))]) == Blocks(b);
    StoredConcat([Stored(id, Blocks(b))], after);
    StoredConcat(before, [Stored(id, Blocks(b))] + after);
    assert StoredBlocks([Logged(id, Blocks(b))]) == [];
    assert before + [] == before;
  }

  lemma StoredStep(batches: seq<Batch>, k: nat, wal: bool, writes: seq<seq<Effect>>)
    requires WritesAre(batches, wal, k + 1, writes)
    ensures WritesAre(batches, wal, k, writes[..k])
    ensures StoredBlocks(Flatten(writes)) ==
            StoredBlocks(Flatten(writes[..k])) + if Works(batches, k + 1, wal) then Blocks(batches[k]) else []
  {
    assert writes[..k] == Plan(batches, wal)[..k];
    assert writes[k] == WriteTrace(batches[k], k + 1, wal);
    StoredConcat(Flatten(writes[..k]), writes[k]);
    StoredByWrite(batches[k], k + 1, wal);
  }

  lemma {:induction false} StoredUpTo(batches: seq<Batch>, k: nat, wal: bool, writes: seq<seq<Effect>>)
    requires WritesAre(batches, wal, k, writes) && forall id :: 1 <= id <= k ==> Works(batches, id, wal)
    ensures StoredBlocks(Flatten(writes)) == BlocksUpTo(batches, k)
  {
    if k > 0 {
      StoredStep(batches, k - 1, wal, writes);
      StoredUpTo(batches, k - 1, wal, writes[..k - 1]);
      assert Works(batches, k, wal);
    }
  }

  /** After any run the database holds exactly the blocks of batches 1 to k, in batch order, each once. */
  lemma RunsStorePrefix(batches: seq<Batch>, order: seq<nat>, wal: bool)
    ensures StoredBlocks(Flatten(Writes(batches, order, wal))) == BlocksUpTo(batches, Written(batches, order, wal))
  {
    var k, writes := Written(batches, order, wal), Writes(batches, order, wal);
    var good := Writable(batches, order, wal);
    forall id | 1 <= id <= k ensures Works(batches, id, wal) {
      assert id in good;
    }
    assert k < |batches| ==> k + 1 !in good;
    if |writes| == k {
      StoredUpTo(batches, k, wal, writes);
    } else {
      StoredStep(batches, k, wal, writes);
      StoredUpTo(batches, k, wal, writes[..k]);
    }
  }
}

/**
 AccountSync's chunk pipeline: encode workers finish in any order, the reorder stage sends chunks in index
 order, and a worker marks the chunk it takes to be the last.
 */
module ChunkReorder {
  import opened Options
  import opened Sums
  import opened Runs

  const MAX_ACCOUNT_NONCES: nat := 100000
  const UINT32: nat := 0x1_0000_0000

  datatype Chunk = Chunk(index: nat, nonces: seq<nat>, totalKeys: nat, isLast: bool)

  /** An encode result; a worker may also drop its result when the context is cancelled. */
  datatype Arrival = Arrival(index: nat, failed: bool)

  /** What happens around the reorder stage; sends is the number of sends before one is abandoned by cancellation. */
  datatype Pipeline = Pipeline(total: Option<nat>, batches: seq<seq<nat>>, arrivals: seq<Arrival>, sends: Option<nat>,
                               emptyFails: bool, producerOk: bool) {
    /** Iterator batches are never empty, chunk numbers are 32 bits wide, and each is encoded at most once. */
    predicate Valid() {
      |batches| <= UINT32 &&
      (forall i :: 0 <= i < |batches| ==> batches[i] != []) &&
      (forall i :: 0 <= i < |arrivals| ==> arrivals[i].index < |batches|) &&
      (forall i, j :: 0 <= i < j < |arrivals| ==> arrivals[i].index != arrivals[j].index)
    }
  }

  /** The announced number of chunks, and the index the workers compare with, both in 32 bits. */
  function NumBatches(total: nat): nat {
    (total + MAX_ACCOUNT_NONCES - 1) / MAX_ACCOUNT_NONCES % UINT32
  }

  function FinalIndex(total: nat): nat {
    (NumBatches(total) + UINT32 - 1) % UINT32
  }

  /** The final chunk is the one in which the announced total falls. */
  lemma FinalIndexIs(total: nat, i: nat)
    requires 0 < total <= 100000 * UINT32 && i < UINT32
    ensures i == FinalIndex(total) <==> i * 100000 < total <= (i + 1) * 100000
  {
    var n := (total + MAX_ACCOUNT_NONCES - 1) / MAX_ACCOUNT_NONCES;
    assert (n - 1) * 100000 < total <= n * 100000;
    assert 1 <= n <= UINT32;
    if n < UINT32 {
      assert NumBatches(total) == n;
      assert FinalIndex(total) == n - 1;
    }
  }

  function MakeChunk(batches: seq<seq<nat>>, total: nat, i: nat): Chunk
    requires i < |batches|
  {
    Chunk(i, batches[i], total, i == FinalIndex(total))
  }

  ghost function AllChunks(batches: seq<seq<nat>>, total: nat): (cs: seq<Chunk>)
    ensures |cs| == |batches|
  {
    seq(|batches|, i requires 0 <= i < |batches| => MakeChunk(batches, total, i))
  }

  /** Results before the first failed one, looking from result i on. */
  function CutFrom(arrivals: seq<Arrival>, i: nat): (c: nat)
    requires i <= |arrivals|
    ensures i <= c <= |arrivals| && forall k :: i <= k < c ==> !arrivals[k].failed
    ensures c < |arrivals| ==> arrivals[c].failed
    decreases |arrivals| - i
  {
    if i == |arrivals| || arrivals[i].failed then i else CutFrom(arrivals, i + 1)
  }

  function Seen(arrivals: seq<Arrival>, j: nat): set<nat>
    requires j <= |arrivals|
  {
    set i | 0 <= i < j :: arrivals[i].index
  }

  /** The chunks the reorder stage can send: the longest run of encoded ones from index 0. */
  ghost function Ready(p: Pipeline): (k: nat)
    ensures k <= |p.batches|
  {
    RunEnd(Seen(p.arrivals, CutFrom(p.arrivals, 0)), 0, |p.batches| - 1)
  }

  ghost function Sent(p: Pipeline): (k: nat)
    ensures k <= |p.batches|
  {
    if p.sends.Some? && p.sends.value < Ready(p) then p.sends.value else Ready(p)
  }

  /** The nonces of chunks, in the order they are sent. */
  function SentNonces(cs: seq<Chunk>): seq<nat> {
    if cs == [] then [] else cs[0].nonces + SentNonces(cs[1..])
  }

  /** The nonces of the iterator's batches, in iterator order. */
  function Joined(batches: seq<seq<nat>>): seq<nat> {
    if batches == [] then [] else batches[0] + Joined(batches[1..])
  }

  lemma {:induction false} NoncesJoin(cs: seq<Chunk>, batches: seq<seq<nat>>)
    requires |cs| == |batches| && forall i :: 0 <= i < |cs| ==> cs[i].nonces == batches[i]
    ensures SentNonces(cs) == Joined(batches)
  {
    if cs != [] {
      NoncesJoin(cs[1..], batches[1..]);
    }
  }

  // ----- the program -----

  /** Of the results seen, those below next were sent and exactly the others are pending. */
  ghost predicate Pending(batches: seq<seq<nat>>, total: nat, seen: set<nat>, next: nat, pending: map<nat, Chunk>) {
    (forall i :: 0 <= i < next ==> i in seen) &&
    (forall i :: i in pending <==> i in seen && i >= next) &&
    (forall i :: i in pending ==> i < |batches| && pending[i] == MakeChunk(batches, total, i))
  }

  ghost predicate SentTo(batches: seq<seq<nat>>, total: nat, sends: Option<nat>, next: nat, out: seq<Chunk>) {
    next <= |batches| && out == AllChunks(batches, total)[..next] && (sends.Some? ==> next <= sends.value)
  }

  /** Sends pending chunks as long as the next one is there; stops if a send is abandoned. */
  method SendReady(ghost batches: seq<seq<nat>>, ghost total: nat, ghost seen: set<nat>, sends: Option<nat>, next0: nat,
                   pending0: map<nat, Chunk>, out0: seq<Chunk>)
    returns (next: nat, pending: map<nat, Chunk>, out: seq<Chunk>, ok: bool)
    requires SentTo(batches, total, sends, next0, out0) && Pending(batches, total, seen, next0, pending0)
    ensures SentTo(batches, total, sends, next, out) && (forall i :: 0 <= i < next ==> i in seen)
    ensures ok ==> Pending(batches, total, seen, next, pending) && next !in pending
    ensures !ok ==> sends == Some(next) && next in seen && next < |batches|
  {
    next, pending, out := next0, pending0, out0;
    while next in pending
      invariant SentTo(batches, total, sends, next, out) && Pending(batches, total, seen, next, pending)
      decreases |batches| - next
    {
      var req := pending[next];
      if sends == Some(next) {
        return next, pending, out, false;
      }
      assert AllChunks(batches, total)[..next + 1] == AllChunks(batches, total)[..next] + [MakeChunk(batches, total, next)];
      next, pending, out := next + 1, pending - {next}, out + [req];
    }
    ok := true;
  }

  /**
   Sends exactly the first Sent(p) chunks, in index order.  It reports success when nothing failed among the
   results it saw, no send was abandoned and the producer ended well.
   */
  method BuildChunks(p: Pipeline) returns (out: seq<Chunk>, ok: bool)
    requires p.Valid()
    ensures p.total == None ==> out == [] && !ok
    ensures p.total == Some(0) ==>
              (ok <==> !p.emptyFails && p.sends != Some(0)) && out == if ok then [Chunk(0, [], 0, true)] else []
    ensures p.total.Some? && p.total.value > 0 ==> out == AllChunks(p.batches, p.total.value)[..Sent(p)]
    ensures p.total.Some? && p.total.value > 0 ==> |out| == Sent(p) && forall i :: 0 <= i < Sent(p) ==>
              out[i].index == i && out[i].nonces == p.batches[i] && out[i].totalKeys == p.total.value
    ensures p.total.Some? && 0 < p.total.value <= 100000 * UINT32 ==> forall i :: 0 <= i < |out| ==>
              (out[i].isLast <==> i * 100000 < p.total.value <= (i + 1) * 100000)
    ensures p.total.Some? && p.total.value > 0 && Sent(p) == |p.batches| ==> SentNonces(out) == Joined(p.batches)
    ensures p.total.Some? && p.total.value > 0 ==>
              (ok <==> CutFrom(p.arrivals, 0) == |p.arrivals| && Sent(p) == Ready(p) && p.producerOk)
  {
    if p.total.None? {
      return [], false;
    }
    var total := p.total.value;
    if total == 0 {
      if p.emptyFails || p.sends == Some(0) {
        return [], false;
      }
      return [Chunk(0, [], 0, true)], true;
    }
    out, ok := Reorder(p, total);
    if total <= 100000 * UINT32 {
      forall i | 0 <= i < |out| ensures out[i].isLast <==> i * 100000 < total <= (i + 1) * 100000 {
        FinalIndexIs(total, i);
      }
    }
    if Sent(p) == |p.batches| {
      NoncesJoin(out, p.batches);
    }
  }

  method Reorder(p: Pipeline, total: nat) returns (out: seq<Chunk>, ok: bool)
    requires p.Valid()
    ensures out == AllChunks(p.batches, total)[..Sent(p)]
    ensures ok <==> CutFrom(p.arrivals, 0) == |p.arrivals| && Sent(p) == Ready(p) && p.producerOk
  {
    var pending: map<nat, Chunk> := map[];
    var next: nat := 0;
    out := [];
    for j := 0 to |p.arrivals|
      invariant forall i :: 0 <= i < j ==> !p.arrivals[i].failed
      invariant SentTo(p.batches, total, p.sends, next, out)
      invariant Pending(p.batches, total, Seen(p.arrivals, j), next, pending) && next !in pending
    {
      var r := p.arrivals[j];
      if r.failed {
        RunStops(p, j, next);
        return out, false;
      }
      Arrived(p, total, j, next, pending);
      next, pending, out, ok := SendReady(p.batches, total, Seen(p.arrivals, j + 1), p.sends, next,
                                          pending[r.index := MakeChunk(p.batches, total, r.index)], out);
      if !ok {
        SendStops(p, j + 1, next);
        return out, false;
      }
    }
    RunStops(p, |p.arrivals|, next);
    ok := p.producerOk;
  }

  lemma Arrived(p: Pipeline, total: nat, j: nat, next: nat, pending: map<nat, Chunk>)
    requires p.Valid() && j < |p.arrivals| && Pending(p.batches, total, Seen(p.arrivals, j), next, pending)
    ensures var i := p.arrivals[j].index;
            Pending(p.batches, total, Seen(p.arrivals, j + 1), next, pending[i := MakeChunk(p.batches, total, i)])
  {
    var i := p.arrivals[j].index;
    assert Seen(p.arrivals, j + 1) == Seen(p.arrivals, j) + {i};
    assert i !in Seen(p.arrivals, j);
  }

  /** The stage saw everything up to the first failed result and chunk next is missing. */
  lemma RunStops(p: Pipeline, j: nat, next: nat)
    requires j <= |p.arrivals| && (forall i :: 0 <= i < j ==> !p.arrivals[i].failed) && (j < |p.arrivals| ==> p.arrivals[j].failed)
    requires next <= |p.batches| && (forall i :: 0 <= i < next ==> i in Seen(p.arrivals, j)) && next !in Seen(p.arrivals, j)
    requires p.sends.Some? ==> next <= p.sends.value
    ensures CutFrom(p.arrivals, 0) == j && Ready(p) == next && Sent(p) == next
  {
    assert CutFrom(p.arrivals, 0) == j;
    RunEndIs(Seen(p.arrivals, j), 0, |p.batches| - 1, next);
  }

  /** The send of chunk next was abandoned although it was ready. */
  lemma SendStops(p: Pipeline, j: nat, next: nat)
    requires j <= |p.arrivals| && forall i :: 0 <= i < j ==> !p.arrivals[i].failed
    requires forall i :: 0 <= i <= next ==> i in Seen(p.arrivals, j)
    requires p.sends == Some(next) && next < |p.batches|
    ensures Sent(p) == next < Ready(p)
  {
    var c := CutFrom(p.arrivals, 0);
    assert j <= c;
    assert Seen(p.arrivals, j) <= Seen(p.arrivals, c);
  }

  // ----- what reaches the server -----

  /** Success hides a missing chunk exactly when a worker dropped a result: all chunks are sent iff all arrived. */
  lemma SuccessIsCompleteIff(p: Pipeline)
    requires p.Valid() && CutFrom(p.arrivals, 0) == |p.arrivals| && Sent(p) == Ready(p)
    ensures Sent(p) == |p.batches| <==> forall i :: 0 <= i < |p.batches| ==> i in Seen(p.arrivals, |p.arrivals|)
  {
  }

  /** All chunks but the k-th are encoded; nothing fails and nothing else is abandoned. */
  function AllBut(batches: seq<seq<nat>>, total: nat, k: nat): Pipeline
    requires 0 < |batches|
  {
    Pipeline(Some(total), batches, seq(|batches| - 1, i requires 0 <= i => Arrival(if i < k then i else i + 1, false)), None, false, true)
  }

  /**
   For every full set of at least two batches and every chunk k: if the worker drops the result of chunk k on
   cancellation, only the chunks before k are sent and no error is reported.
   */
  lemma DroppedChunkGoesUnreported(batches: seq<seq<nat>>, total: nat, k: nat)
    requires FullBatches(batches, total) && 2 <= |batches| <= UINT32 && k < |batches|
    ensures var p := AllBut(batches, total, k);
            p.Valid() && CutFrom(p.arrivals, 0) == |p.arrivals| && p.producerOk && Sent(p) == Ready(p) == k < |batches|
  {
    var p := AllBut(batches, total, k);
    var n := |p.arrivals|;
    forall i | 0 <= i < k ensures i in Seen(p.arrivals, n) {
      assert p.arrivals[i].index == i;
    }
    assert k !in Seen(p.arrivals, n);
    RunStops(p, n, k);
  }

  predicate MarksLastOnly(cs: seq<Chunk>) {
    forall i :: 0 <= i < |cs| ==> (cs[i].isLast <==> i == |cs| - 1)
  }

  /** Exactly the last chunk is marked iff the iterator produced as many batches as announced. */
  lemma MarksLastIff(batches: seq<seq<nat>>, total: nat)
    requires 0 < |batches| <= UINT32
    ensures MarksLastOnly(AllChunks(batches, total)) <==> |batches| - 1 == FinalIndex(total)
  {
    var cs, n := AllChunks(batches, total), |batches| - 1;
    assert cs[n] == MakeChunk(batches, total, n);
    assert forall i :: 0 <= i <= n ==> cs[i] == MakeChunk(batches, total, i);
  }

  function Size(batch: seq<nat>): int {
    |batch|
  }

  /** What a full iterator gives: every account once, in batches of the full size except the last. */
  predicate FullBatches(batches: seq<seq<nat>>, total: nat) {
    SumBy(batches, Size) == total && batches != [] &&
    (forall i :: 0 <= i < |batches| - 1 ==> |batches[i]| == MAX_ACCOUNT_NONCES) &&
    1 <= |batches[|batches| - 1]| <= MAX_ACCOUNT_NONCES
  }

  lemma FullBatchesCount(batches: seq<seq<nat>>, total: nat)
    requires FullBatches(batches, total)
    ensures (total + MAX_ACCOUNT_NONCES - 1) / MAX_ACCOUNT_NONCES == |batches|
  {
    var n := |batches| - 1;
    assert batches == batches[..n] + [batches[n]];
    SumByPush(batches[..n], batches[n], Size);
    SumByConstant(batches[..n], Size, MAX_ACCOUNT_NONCES);
  }

  /** With full iterator batches the last chunk, and only it, is marked. */
  lemma FullBatchesMarkLast(batches: seq<seq<nat>>, total: nat)
    requires FullBatches(batches, total) && |batches| <= UINT32
    ensures MarksLastOnly(AllChunks(batches, total))
  {
    FullBatchesCount(batches, total);
    MarksLastIff(batches, total);
  }
}
