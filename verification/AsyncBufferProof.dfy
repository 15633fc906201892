/** Accepted pushes reach the log once, in order, and checkpoints come after what was accepted before them. */
module AsyncBufferProof {
  import opened Options
  import Sums
  import opened WalSpec
  import WalProof
  import WalFaults
  import opened AsyncBuffer

  // ----- what a stack stands for -----

  function NodeItems(n: Node): seq<Item> {
    if n.Data? then Payloads(n.entries) else [Mark]
  }

  function Expand(stack: seq<Node>): seq<Item> {
    if stack == [] then [] else Expand(stack[..|stack| - 1]) + NodeItems(stack[|stack| - 1])
  }

  lemma {:induction false} ExpandConcat(xs: seq<Node>, ys: seq<Node>)
    ensures Expand(xs + ys) == Expand(xs) + Expand(ys)
  {
    if ys == [] {
      assert xs + ys == xs;
    } else {
      var init, last := ys[..|ys| - 1], ys[|ys| - 1];
      assert (xs + ys)[..|xs + ys| - 1] == xs + init && (xs + ys)[|xs + ys| - 1] == last;
      ExpandConcat(xs, init);
      var a, b, c := Expand(xs), Expand(init), NodeItems(last);
      assert (a + b) + c == a + (b + c);
    }
  }

  lemma ExpandOne(n: Node)
    ensures Expand([n]) == NodeItems(n)
  {
    assert [n][..0] == [];
    assert Expand([]) + NodeItems(n) == NodeItems(n);
  }

  lemma ExpandHead(stack: seq<Node>)
    requires stack != []
    ensures Expand(stack) == NodeItems(stack[0]) + Expand(stack[1..])
  {
    assert stack == [stack[0]] + stack[1..];
    ExpandConcat([stack[0]], stack[1..]);
    ExpandOne(stack[0]);
  }

  /** Merging into the top node stands for one more payload at the end. */
  lemma PushedDataExpands(stack: seq<Node>, v: nat)
    ensures Expand(PushedData(stack, v)) == Expand(stack) + [Payload(v)]
  {
    var n := |stack| - 1;
    if |stack| > 0 && stack[n].Data? {
      var top := Data(stack[n].entries + [v]);
      assert (stack[..n] + [top])[..n] == stack[..n];
      assert NodeItems(top) == NodeItems(stack[n]) + [Payload(v)];
    } else {
      ExpandConcat(stack, [Data([v])]);
      ExpandOne(Data([v]));
      assert NodeItems(Data([v])) == [Payload(v)];
    }
  }

  lemma PushedMarkExpands(stack: seq<Node>)
    requires !TopIsCheckpoint(stack)
    ensures Expand(PushedCheckpoint(stack)) == Expand(stack) + [Mark]
  {
    ExpandConcat(stack, [Checkpoint]);
    ExpandOne(Checkpoint);
  }

  lemma {:induction false} WrittenConcat(xs: seq<Item>, ys: seq<Item>)
    ensures Written(xs + ys) == Written(xs) + Written(ys)
  {
    if ys == [] {
      assert xs + ys == xs;
    } else {
      assert (xs + ys)[..|xs + ys| - 1] == xs + ys[..|ys| - 1];
      WrittenConcat(xs, ys[..|ys| - 1]);
    }
  }

  lemma {:induction false} WrittenPayloads(vs: seq<nat>)
    ensures Written(Payloads(vs)) == vs
  {
    if vs != [] {
      assert Payloads(vs)[..|vs| - 1] == Payloads(vs[..|vs| - 1]);
      WrittenPayloads(vs[..|vs| - 1]);
    }
  }

  // ----- what the log holds from one buffer -----

  predicate IsFrom(r: Option<Record>, b: nat) {
    r.Some? && r.value.source == Some(b)
  }

  function From(taken: seq<Option<Record>>, b: nat): seq<nat> {
    if taken == [] then []
    else From(taken[..|taken| - 1], b) + (if IsFrom(taken[|taken| - 1], b) then [taken[|taken| - 1].value.value] else [])
  }

  lemma {:induction false} FromConcat(xs: seq<Option<Record>>, ys: seq<Option<Record>>, b: nat)
    ensures From(xs + ys, b) == From(xs, b) + From(ys, b)
  {
    if ys == [] {
      assert xs + ys == xs;
    } else {
      assert (xs + ys)[..|xs + ys| - 1] == xs + ys[..|ys| - 1];
      FromConcat(xs, ys[..|ys| - 1], b);
    }
  }

  lemma {:induction false} FromRecords(source: Option<nat>, vs: seq<nat>, b: nat)
    ensures From(WalFaults.Somes(Records(source, vs)), b) == if source == Some(b) then vs else []
  {
    if vs != [] {
      var all, n := WalFaults.Somes(Records(source, vs)), |vs| - 1;
      assert all[..n] == WalFaults.Somes(Records(source, vs[..n]));
      FromRecords(source, vs[..n], b);
    }
  }

  // ----- invariant -----

  /** For each checkpoint item, how many payloads come before it. */
  function MarkPositions(items: seq<Item>): seq<nat> {
    if items == [] then []
    else MarkPositions(items[..|items| - 1]) +
         (if items[|items| - 1].Mark? then [|Written(items[..|items| - 1])|] else [])
  }

  predicate BufOk(buf: Buf, b: nat, taken: seq<Option<Record>>) {
    buf.accepted == buf.processed + Expand(buf.snapshot) + Expand(buf.stack) &&
    Written(buf.processed) == From(taken, b) &&
    (buf.phase.Resting? || buf.phase.Stopped? ==> buf.snapshot == []) &&
    (buf.closed <==> buf.phase.Closing? || buf.phase.Draining? || buf.phase.Stopped?) &&
    (buf.closed ==> buf.stack == []) && Coalesced(buf.stack) && Coalesced(buf.snapshot)
  }

  /** If the marker was made, the payloads of its buffer numbered up to it are those the buffer wrote before it. */
  predicate MarkCovers(c: Created, b: nat, taken: seq<Option<Record>>) {
    c.lsn.Some? ==> c.lsn.value <= |taken| && |From(taken[..c.lsn.value], b)| == c.before
  }

  /** The checkpoints asked of the log for this buffer are those accepted. */
  predicate MarksOk(buf: Buf, b: nat, taken: seq<Option<Record>>) {
    |buf.marks| == |MarkPositions(buf.processed)| &&
    forall k :: 0 <= k < |buf.marks| ==> buf.marks[k].before == MarkPositions(buf.processed)[k] && MarkCovers(buf.marks[k], b, taken)
  }

  /** Every marker that was made points into the disk log. */
  predicate OnDisk(buf: Buf, last: nat) {
    forall k :: 0 <= k < |buf.marks| ==> buf.marks[k].lsn.None? || buf.marks[k].lsn.value <= last
  }

  predicate KnownSource(r: Option<Record>, n: nat) {
    r.Some? && r.value.source.Some? ==> r.value.source.value < n
  }

  ghost predicate Inv(s: System) {
    WalFaults.Tracks(s.wal, s.taken) &&
    (forall b :: 0 <= b < |s.bufs| ==>
      BufOk(s.bufs[b], b, s.taken) && MarksOk(s.bufs[b], b, s.taken) && OnDisk(s.bufs[b], s.wal.Last())) &&
    (forall k :: 0 <= k < |s.taken| ==> KnownSource(s.taken[k], |s.bufs|))
  }

  lemma {:induction false} FromAbsent(taken: seq<Option<Record>>, b: nat)
    requires forall k :: 0 <= k < |taken| ==> !IsFrom(taken[k], b)
    ensures From(taken, b) == []
  {
    if taken != [] {
      FromAbsent(taken[..|taken| - 1], b);
    }
  }

  lemma MarkCoversMore(c: Created, b: nat, taken: seq<Option<Record>>, more: seq<Option<Record>>)
    requires MarkCovers(c, b, taken)
    ensures MarkCovers(c, b, taken + more)
  {
    assert c.lsn.Some? ==> (taken + more)[..c.lsn.value] == taken[..c.lsn.value];
  }

  /** Records of other origins change nothing for a buffer. */
  lemma {:induction false} OthersWrite(buf: Buf, b: nat, taken: seq<Option<Record>>, more: seq<Option<Record>>)
    requires BufOk(buf, b, taken) && MarksOk(buf, b, taken) && From(more, b) == []
    ensures BufOk(buf, b, taken + more) && MarksOk(buf, b, taken + more)
  {
    FromConcat(taken, more, b);
    forall k | 0 <= k < |buf.marks| ensures MarkCovers(buf.marks[k], b, taken + more) {
      MarkCoversMore(buf.marks[k], b, taken, more);
    }
  }

  lemma MarkPositionsPayloads(items: seq<Item>, vs: seq<nat>)
    ensures MarkPositions(items + Payloads(vs)) == MarkPositions(items)
    decreases |vs|
  {
    if vs == [] {
      assert items + Payloads(vs) == items;
    } else {
      var all := items + Payloads(vs);
      assert all[..|all| - 1] == items + Payloads(vs[..|vs| - 1]);
      MarkPositionsPayloads(items, vs[..|vs| - 1]);
    }
  }

  /** Earlier checkpoints stay valid while records are appended and items without checkpoints are processed. */
  lemma MarksStay(buf: Buf, b: nat, taken: seq<Option<Record>>, processed: seq<Item>, more: seq<Option<Record>>)
    requires MarksOk(buf, b, taken) && MarkPositions(processed) == MarkPositions(buf.processed)
    ensures MarksOk(buf.(processed := processed), b, taken + more)
  {
    forall k | 0 <= k < |buf.marks| ensures MarkCovers(buf.marks[k], b, taken + more) {
      MarkCoversMore(buf.marks[k], b, taken, more);
    }
  }

  lemma HeadMoves(buf: Buf)
    requires buf.snapshot != [] && buf.accepted == buf.processed + Expand(buf.snapshot) + Expand(buf.stack)
    ensures buf.accepted == (buf.processed + NodeItems(buf.snapshot[0])) + Expand(buf.snapshot[1..]) + Expand(buf.stack)
  {
    ExpandHead(buf.snapshot);
    var a, n, r, t := buf.processed, NodeItems(buf.snapshot[0]), Expand(buf.snapshot[1..]), Expand(buf.stack);
    assert a + (n + r) + t == (a + n) + r + t;
  }

  /** The buffer after its goroutine wrote the first node of the snapshot. */
  lemma WroteData(buf: Buf, b: nat, taken: seq<Option<Record>>)
    requires BufOk(buf, b, taken) && MarksOk(buf, b, taken) && buf.snapshot != [] && buf.snapshot[0].Data?
    requires buf.phase.Writing? || buf.phase.Draining?
    ensures var vs := buf.snapshot[0].entries;
            var buf' := buf.(snapshot := buf.snapshot[1..], processed := buf.processed + Payloads(vs));
            var more := WalFaults.Somes(Records(Some(b), vs));
            BufOk(buf', b, taken + more) && MarksOk(buf', b, taken + more)
  {
    var vs := buf.snapshot[0].entries;
    var more := WalFaults.Somes(Records(Some(b), vs));
    HeadMoves(buf);
    WrittenConcat(buf.processed, Payloads(vs));
    WrittenPayloads(vs);
    FromConcat(taken, more, b);
    FromRecords(Some(b), vs, b);
    MarkPositionsPayloads(buf.processed, vs);
    MarksStay(buf, b, taken, buf.processed + Payloads(vs), more);
  }

  lemma SnocMark(items: seq<Item>)
    ensures Written(items + [Mark]) == Written(items)
    ensures MarkPositions(items + [Mark]) == MarkPositions(items) + [|Written(items)|]
  {
    assert (items + [Mark])[..|items|] == items;
  }

  /** A checkpoint's marker stands above every record so far. */
  lemma MarkMade(b: nat, taken: seq<Option<Record>>, lsn: nat)
    requires lsn <= |taken| && WalFaults.NoneAbove(lsn, taken)
    ensures From(taken[..lsn], b) == From(taken, b)
  {
    assert taken[..lsn] + taken[lsn..] == taken;
    FromConcat(taken[..lsn], taken[lsn..], b);
    FromAbsent(taken[lsn..], b);
  }

  lemma WroteMark(buf: Buf, b: nat, taken: seq<Option<Record>>, lsn: Option<nat>)
    requires BufOk(buf, b, taken) && MarksOk(buf, b, taken) && buf.snapshot != [] && buf.snapshot[0].Checkpoint?
    requires buf.phase.Writing? || buf.phase.Draining?
    requires lsn.Some? ==> lsn.value <= |taken| && WalFaults.NoneAbove(lsn.value, taken)
    ensures var buf' := buf.(snapshot := buf.snapshot[1..], processed := buf.processed + [Mark],
                             marks := buf.marks + [Created(|Written(buf.processed)|, lsn)]);
            BufOk(buf', b, taken) && MarksOk(buf', b, taken)
  {
    HeadMoves(buf);
    SnocMark(buf.processed);
    if lsn.Some? {
      MarkMade(b, taken, lsn.value);
    }
    assert MarkCovers(Created(|Written(buf.processed)|, lsn), b, taken);
  }

  lemma PushesKeepCoalesced(stack: seq<Node>)
    requires Coalesced(stack)
    ensures Coalesced(PushedCheckpoint(stack)) && forall v :: Coalesced(PushedData(stack, v))
  {
  }

  lemma SplitGrows(accepted: seq<Item>, processed: seq<Item>, snapshot: seq<Item>, stack: seq<Item>, item: Item)
    requires accepted == processed + snapshot + stack
    ensures accepted + [item] == processed + snapshot + (stack + [item])
  {
  }

  lemma AcceptKeeps(buf: Buf, b: nat, taken: seq<Option<Record>>, item: Item)
    requires BufOk(buf, b, taken) && MarksOk(buf, b, taken) && !buf.closed
    ensures BufOk(Accept(buf, item), b, taken) && MarksOk(Accept(buf, item), b, taken)
  {
    PushesKeepCoalesced(buf.stack);
    SplitGrows(buf.accepted, buf.processed, Expand(buf.snapshot), Expand(buf.stack), item);
    if item.Payload? {
      PushedDataExpands(buf.stack, item.value);
    } else if !TopIsCheckpoint(buf.stack) {
      PushedMarkExpands(buf.stack);
    }
    assert Accept(buf, item).marks == buf.marks && Accept(buf, item).processed == buf.processed;
  }

  /** Taking the stack as the snapshot. */
  lemma SwapKeeps(buf: Buf, b: nat, taken: seq<Option<Record>>, phase: Phase, closed: bool)
    requires BufOk(buf, b, taken) && MarksOk(buf, b, taken) && buf.phase.Resting?
    requires (phase == Writing && !closed) || (phase == Closing && closed)
    ensures var buf' := buf.(phase := phase, closed := closed, snapshot := buf.stack, stack := []);
            BufOk(buf', b, taken) && MarksOk(buf', b, taken)
  {
    assert buf.processed + Expand([]) + Expand(buf.stack) == buf.processed + Expand(buf.stack) + Expand([]);
  }

  /** The log takes records that are none of buffer b's. */
  lemma OtherBuf(s: System, b: nat, more: seq<Option<Record>>, last: nat)
    requires Inv(s) && b < |s.bufs| && From(more, b) == [] && s.wal.Last() <= last
    ensures BufOk(s.bufs[b], b, s.taken + more) && MarksOk(s.bufs[b], b, s.taken + more) && OnDisk(s.bufs[b], last)
  {
    OthersWrite(s.bufs[b], b, s.taken, more);
  }

  lemma KnownMore(taken: seq<Option<Record>>, more: seq<Option<Record>>, n: nat)
    requires forall k :: 0 <= k < |taken| ==> KnownSource(taken[k], n)
    requires forall k :: 0 <= k < |more| ==> KnownSource(more[k], n)
    ensures forall k :: 0 <= k < |taken + more| ==> KnownSource((taken + more)[k], n)
  {
  }

  lemma DataKeepsInv(s: System, b: nat, ios: seq<Io>)
    requires Inv(s) && Enabled(s, WriteNext(b, ios)) && s.bufs[b].snapshot[0].Data?
    ensures Inv(WriteHead(s, b, ios))
  {
    var buf, t := s.bufs[b], WriteHead(s, b, ios);
    var vs := buf.snapshot[0].entries;
    var more := WalFaults.Somes(Records(Some(b), vs));
    WalFaults.NodeTracks(s.wal, s.taken, Records(Some(b), vs), ios);
    WroteData(buf, b, s.taken);
    KnownMore(s.taken, more, |s.bufs|);
    forall k | 0 <= k < |t.bufs| ensures BufOk(t.bufs[k], k, t.taken) && MarksOk(t.bufs[k], k, t.taken) && OnDisk(t.bufs[k], t.wal.Last()) {
      if k != b {
        FromRecords(Some(b), vs, k);
        OtherBuf(s, k, more, t.wal.Last());
      }
    }
  }

  lemma MarkKeepsInv(s: System, b: nat, ios: seq<Io>)
    requires Inv(s) && Enabled(s, WriteNext(b, ios)) && s.bufs[b].snapshot[0].Checkpoint?
    ensures Inv(WriteHead(s, b, ios))
  {
    WalFaults.CheckpointTracks(s.wal, s.taken, IoAt(ios, 0));
    WroteMark(s.bufs[b], b, s.taken, WalFaults.MarkerMade(s.wal, IoAt(ios, 0)));
  }

  lemma DirectKeepsInv(s: System, op: WalProof.FaultyOp<nat>)
    requires Inv(s)
    ensures Inv(Next(s, Direct(op)))
  {
    var t, more := Next(s, Direct(op)), WalFaults.TakenFor(DirectOp(op));
    WalFaults.StepTracks(s.wal, s.taken, DirectOp(op));
    assert forall k :: 0 <= k < |more| ==> more[k].None? || more[k].value.source == None;
    KnownMore(s.taken, more, |s.bufs|);
    forall k | 0 <= k < |t.bufs| ensures BufOk(t.bufs[k], k, t.taken) && MarksOk(t.bufs[k], k, t.taken) && OnDisk(t.bufs[k], t.wal.Last()) {
      FromAbsent(more, k);
      OtherBuf(s, k, more, t.wal.Last());
    }
  }

  /** One buffer changes, the log does not. */
  lemma BufChanges(s: System, t: System, b: nat, buf: Buf)
    requires Inv(s) && b < |s.bufs| && t.wal == s.wal && t.taken == s.taken && t.bufs == s.bufs[b := buf]
    requires BufOk(buf, b, s.taken) && MarksOk(buf, b, s.taken) && buf.marks == s.bufs[b].marks
    ensures Inv(t)
  {
  }

  lemma CreateKeepsInv(s: System, item: Item)
    requires Inv(s) && Enabled(s, Create(item))
    ensures Inv(Next(s, Create(item)))
  {
    FromAbsent(s.taken, |s.bufs|);
    assert BufOk(NEW_BUF, |s.bufs|, s.taken) && MarksOk(NEW_BUF, |s.bufs|, s.taken);
  }

  lemma StepKeepsInv(s: System, step: Step)
    requires Inv(s) && Enabled(s, step)
    ensures Inv(Next(s, step))
  {
    var t := Next(s, step);
    match step
    case Push(b, item) =>
      AcceptKeeps(s.bufs[b], b, s.taken, item);
      BufChanges(s, t, b, t.bufs[b]);
    case Create(item) => CreateKeepsInv(s, item);
    case CreatorPush(i) =>
      var b := s.creators[i].b;
      if !s.bufs[b].closed {
        AcceptKeeps(s.bufs[b], b, s.taken, s.creators[i].item);
      }
      BufChanges(s, t, b, t.bufs[b]);
    case Swap(b) =>
      SwapKeeps(s.bufs[b], b, s.taken, Writing, false);
      BufChanges(s, t, b, t.bufs[b]);
    case Close(b) =>
      SwapKeeps(s.bufs[b], b, s.taken, Closing, true);
      BufChanges(s, t, b, t.bufs[b]);
    case ClearSlot(b) => BufChanges(s, t, b, t.bufs[b]);
    case WriteNext(b, ios) =>
      if s.bufs[b].snapshot[0].Data? {
        DataKeepsInv(s, b, ios);
      } else {
        MarkKeepsInv(s, b, ios);
      }
    case Finish(b) => BufChanges(s, t, b, t.bufs[b]);
    case Direct(op) => DirectKeepsInv(s, op);
  }

  lemma {:induction false} RunKeepsInv(s: System, steps: seq<Step>, t: System)
    requires Inv(s) && Run(s, steps, t)
    ensures Inv(t)
    decreases |steps|
  {
    if steps != [] {
      StepKeepsInv(s, steps[0]);
      RunKeepsInv(Next(s, steps[0]), steps[1..], t);
    }
  }

  lemma ReachableInv(batch: nat, s: System)
    requires Reachable(batch, s)
    ensures Inv(s)
  {
    var steps :| Run(Init(batch), steps, s);
    RunKeepsInv(Init(batch), steps, s);
  }

  // ----- theorems -----

  /**
   At any moment, whatever has failed, the log has taken a prefix of what buffer b accepted, in push order, each once;
   when b has stopped it has taken all of it.
   */
  lemma WrittenOnceInOrder(batch: nat, s: System, b: nat)
    requires Reachable(batch, s) && b < |s.bufs|
    ensures From(s.taken, b) <= Written(s.bufs[b].accepted)
    ensures s.bufs[b].phase.Stopped? ==> From(s.taken, b) == Written(s.bufs[b].accepted)
  {
    ReachableInv(batch, s);
    WrittenPart(s.bufs[b], b, s.taken);
  }

  lemma WrittenPart(buf: Buf, b: nat, taken: seq<Option<Record>>)
    requires BufOk(buf, b, taken)
    ensures From(taken, b) <= Written(buf.accepted)
    ensures buf.phase.Stopped? ==> From(taken, b) == Written(buf.accepted)
  {
    var rest := Expand(buf.snapshot) + Expand(buf.stack);
    WrittenConcat(buf.processed, rest);
    assert buf.accepted == buf.processed + rest;
    assert buf.phase.Stopped? ==> rest == [];
  }

  /** What the log took under number k + 1 is found there unless truncated, even if no flush ever succeeded. */
  lemma RecordsAreNumbered(batch: nat, s: System, k: nat)
    requires Reachable(batch, s) && k < |s.taken|
    ensures s.wal.base <= k ==> GetEvent(s.wal, k + 1) == if s.taken[k].Some? then Some(Entry(s.taken[k].value, k + 1)) else None
  {
    ReachableInv(batch, s);
    if s.wal.base <= k {
      WalFaults.LookupFinds(s.wal, s.taken, k + 1);
    }
  }

  /**
   The k-th checkpoint asked for buffer b either left no marker, or its marker stands at a sequence number at or above
   those of exactly the payloads that b accepted before asking for it, and all of them are on the disk.
   */
  lemma CheckpointsFollowPayloads(batch: nat, s: System, b: nat, k: nat)
    requires Reachable(batch, s) && b < |s.bufs| && k < |s.bufs[b].marks|
    ensures var c := s.bufs[b].marks[k];
            k < |MarkPositions(s.bufs[b].accepted)| && c.before == MarkPositions(s.bufs[b].accepted)[k] &&
            (c.lsn.Some? ==> c.lsn.value <= s.wal.Last() <= |s.taken| && |From(s.taken[..c.lsn.value], b)| == c.before)
  {
    ReachableInv(batch, s);
    MarkFollows(s.bufs[b], b, s.taken, k);
    assert OnDisk(s.bufs[b], s.wal.Last()) && MarkCovers(s.bufs[b].marks[k], b, s.taken);
  }

  lemma MarkFollows(buf: Buf, b: nat, taken: seq<Option<Record>>, k: nat)
    requires BufOk(buf, b, taken) && MarksOk(buf, b, taken) && k < |buf.marks|
    ensures k < |MarkPositions(buf.accepted)| && buf.marks[k].before == MarkPositions(buf.accepted)[k]
  {
    var rest := Expand(buf.snapshot) + Expand(buf.stack);
    MarkPositionsPrefix(buf.processed, rest);
    assert buf.accepted == buf.processed + rest;
  }

  lemma {:induction false} MarkPositionsPrefix(xs: seq<Item>, ys: seq<Item>)
    ensures MarkPositions(xs) <= MarkPositions(xs + ys)
  {
    if ys == [] {
      assert xs + ys == xs;
    } else {
      assert (xs + ys)[..|xs + ys| - 1] == xs + ys[..|ys| - 1];
      MarkPositionsPrefix(xs, ys[..|ys| - 1]);
    }
  }

  /** The log is asked for a checkpoint at most once per accepted request, and for all of them once the buffer has stopped. */
  lemma CheckpointsMadeOnce(batch: nat, s: System, b: nat)
    requires Reachable(batch, s) && b < |s.bufs|
    ensures |s.bufs[b].marks| <= |MarkPositions(s.bufs[b].accepted)|
    ensures s.bufs[b].phase.Stopped? ==> |s.bufs[b].marks| == |MarkPositions(s.bufs[b].accepted)|
  {
    ReachableInv(batch, s);
    MarksMade(s.bufs[b], b, s.taken);
  }

  lemma MarksMade(buf: Buf, b: nat, taken: seq<Option<Record>>)
    requires BufOk(buf, b, taken) && MarksOk(buf, b, taken)
    ensures |buf.marks| <= |MarkPositions(buf.accepted)|
    ensures buf.phase.Stopped? ==> |buf.marks| == |MarkPositions(buf.accepted)|
  {
    var rest := Expand(buf.snapshot) + Expand(buf.stack);
    assert buf.accepted == buf.processed + rest;
    MarkPositionsPrefix(buf.processed, rest);
    if buf.phase.Stopped? {
      assert rest == [];
      assert buf.processed + rest == buf.processed;
    }
  }

  /** A collapsed checkpoint push asks for nothing new: the last accepted push already is a checkpoint. */
  lemma CollapsedMarkIsCovered(batch: nat, s: System, b: nat)
    requires Reachable(batch, s) && b < |s.bufs| && TopIsCheckpoint(s.bufs[b].stack)
    ensures var items := s.bufs[b].accepted; items != [] && items[|items| - 1] == Mark
  {
    ReachableInv(batch, s);
    assert BufOk(s.bufs[b], b, s.taken);
  }

  /** Coalescing is complete: no two neighbours in a stack or in a snapshot under way could have shared a node. */
  lemma StacksAreCoalesced(batch: nat, s: System, b: nat)
    requires Reachable(batch, s) && b < |s.bufs|
    ensures Coalesced(s.bufs[b].stack) && Coalesced(s.bufs[b].snapshot)
  {
    ReachableInv(batch, s);
    assert BufOk(s.bufs[b], b, s.taken);
  }

  // ----- the slot -----

  predicate BufSlotOk(slot: Option<nat>, b: nat, buf: Buf) {
    (slot == Some(b) <==> buf.phase.Resting? || buf.phase.Writing? || buf.phase.Closing?) &&
    (buf.closed <==> buf.phase.Closing? || buf.phase.Draining? || buf.phase.Stopped?)
  }

  predicate SlotHolds(slot: Option<nat>, bufs: seq<Buf>) {
    (slot.Some? ==> slot.value < |bufs|) && forall b :: 0 <= b < |bufs| ==> BufSlotOk(slot, b, bufs[b])
  }

  /** The buffer that callers find in the slot is exactly the one that has not begun to drain. */
  predicate SlotOk(s: System) {
    SlotHolds(s.slot, s.bufs)
  }

  /** A step of one buffer changes the slot only by leaving it. */
  lemma OneBufKeepsSlot(slot: Option<nat>, bufs: seq<Buf>, b: nat, slot': Option<nat>, buf: Buf)
    requires SlotHolds(slot, bufs) && b < |bufs| && BufSlotOk(slot', b, buf)
    requires slot' == slot || (slot == Some(b) && slot' == None)
    ensures SlotHolds(slot', bufs[b := buf])
  {
    forall k | 0 <= k < |bufs| && k != b ensures BufSlotOk(slot', k, bufs[k]) {
      assert BufSlotOk(slot, k, bufs[k]);
    }
  }

  lemma NewBufKeepsSlot(bufs: seq<Buf>)
    requires SlotHolds(None, bufs)
    ensures SlotHolds(Some(|bufs|), bufs + [NEW_BUF])
  {
    forall k | 0 <= k < |bufs| ensures BufSlotOk(Some(|bufs|), k, bufs[k]) {
      assert BufSlotOk(None, k, bufs[k]);
    }
  }

  /** The buffer at which a step happens, if it is that of one buffer. */
  function BufOf(s: System, step: Step): Option<nat> {
    match step
    case Push(b, _) => Some(b)
    case CreatorPush(i) => if i < |s.creators| then Some(s.creators[i].b) else None
    case Swap(b) => Some(b)
    case Close(b) => Some(b)
    case ClearSlot(b) => Some(b)
    case Finish(b) => Some(b)
    case WriteNext(b, _) => Some(b)
    case _ => None
  }

  lemma BufStepSlot(s: System, step: Step)
    requires Enabled(s, step) && SlotOk(s) && BufOf(s, step).Some?
    ensures var t, b := Next(s, step), BufOf(s, step).value;
            b < |s.bufs| && b < |t.bufs| && t.bufs == s.bufs[b := t.bufs[b]] && BufSlotOk(t.slot, b, t.bufs[b]) &&
            (t.slot == s.slot || (s.slot == Some(b) && t.slot == None))
  {
    assert BufSlotOk(s.slot, BufOf(s, step).value, s.bufs[BufOf(s, step).value]);
    match step
    case WriteNext(b, ios) => assert Next(s, step) == WriteHead(s, b, ios);
    case _ =>
  }

  lemma StepKeepsSlot(s: System, step: Step)
    requires Enabled(s, step) && SlotOk(s)
    ensures SlotOk(Next(s, step))
  {
    if BufOf(s, step).Some? {
      BufStepSlot(s, step);
      var t, b := Next(s, step), BufOf(s, step).value;
      OneBufKeepsSlot(s.slot, s.bufs, b, t.slot, t.bufs[b]);
    } else if step.Create? {
      NewBufKeepsSlot(s.bufs);
    }
  }

  lemma {:induction false} RunKeepsSlot(s: System, steps: seq<Step>, t: System)
    requires Run(s, steps, t) && SlotOk(s)
    ensures SlotOk(t)
    decreases |steps|
  {
    if steps != [] {
      StepKeepsSlot(s, steps[0]);
      RunKeepsSlot(Next(s, steps[0]), steps[1..], t);
    }
  }

  /** However many buffers drain at once, at most one takes pushes, and callers find it in the slot. */
  lemma OneOpenBuffer(batch: nat, s: System, b: nat)
    requires Reachable(batch, s) && b < |s.bufs| && !s.bufs[b].closed
    ensures s.slot == Some(b) && forall k :: 0 <= k < |s.bufs| && k != b ==> s.bufs[k].closed
  {
    var steps :| Run(Init(batch), steps, s);
    RunKeepsSlot(Init(batch), steps, s);
  }

  // ----- no push is dropped silently, except by a creator -----

  function Times(x: Item, xs: seq<Item>): nat {
    multiset(xs)[x]
  }

  /** How often a buffer took x: its accepted items, and for a checkpoint the requests that collapsed. */
  function TakenBy(x: Item): Buf -> int {
    (buf: Buf) => Taken(x, buf)
  }

  function Taken(x: Item, buf: Buf): nat {
    Times(x, buf.accepted) + if x.Mark? then buf.collapsed else 0
  }

  /** Every call that returned, for an event or a checkpoint, was taken by a buffer or lost by a creator. */
  predicate Accounted(s: System, x: Item) {
    Times(x, s.returned) == Sums.SumBy(s.bufs, TakenBy(x)) + Times(x, s.lost)
  }

  lemma TimesPush(x: Item, xs: seq<Item>, y: Item)
    ensures Times(x, xs + [y]) == Times(x, xs) + (if x == y then 1 else 0)
  {
  }

  lemma AcceptCounts(buf: Buf, y: Item, x: Item)
    ensures Taken(x, Accept(buf, y)) == Taken(x, buf) + (if x == y then 1 else 0)
  {
    TimesPush(x, buf.accepted, y);
  }

  lemma OneBufAccounted(s: System, t: System, b: nat, x: Item)
    requires Accounted(s, x) && b < |s.bufs| && |t.bufs| == |s.bufs| && t.bufs == s.bufs[b := t.bufs[b]]
    requires Times(x, t.returned) - Times(x, s.returned) ==
             Taken(x, t.bufs[b]) - Taken(x, s.bufs[b]) + Times(x, t.lost) - Times(x, s.lost)
    ensures Accounted(t, x)
  {
    Sums.SumByUpdate(s.bufs, b, t.bufs[b], TakenBy(x));
  }

  lemma CreatorAccounted(s: System, i: nat, x: Item)
    requires Enabled(s, CreatorPush(i)) && Accounted(s, x)
    ensures Accounted(Next(s, CreatorPush(i)), x)
  {
    var b, y, t := s.creators[i].b, s.creators[i].item, Next(s, CreatorPush(i));
    TimesPush(x, s.returned, y);
    assert t.returned == s.returned + [y];
    if s.bufs[b].closed {
      TimesPush(x, s.lost, y);
      assert t.bufs == s.bufs && t.lost == s.lost + [y];
    } else {
      AcceptCounts(s.bufs[b], y, x);
      assert t.lost == s.lost;
      OneBufAccounted(s, t, b, x);
    }
  }

  lemma PushAccounted(s: System, b: nat, y: Item, x: Item)
    requires Enabled(s, Push(b, y)) && Accounted(s, x)
    ensures Accounted(Next(s, Push(b, y)), x)
  {
    AcceptCounts(s.bufs[b], y, x);
    TimesPush(x, s.returned, y);
    OneBufAccounted(s, Next(s, Push(b, y)), b, x);
  }

  /** Steps of a buffer's own goroutine take nothing. */
  lemma DrainAccounted(s: System, step: Step, x: Item)
    requires Enabled(s, step) && Accounted(s, x)
    requires step.Swap? || step.Close? || step.ClearSlot? || step.WriteNext? || step.Finish?
    ensures Accounted(Next(s, step), x)
  {
    OneBufAccounted(s, Next(s, step), step.b, x);
  }

  lemma StepKeepsAccounted(s: System, step: Step, x: Item)
    requires Enabled(s, step) && Accounted(s, x)
    ensures Accounted(Next(s, step), x)
  {
    match step
    case Push(b, y) => PushAccounted(s, b, y, x);
    case Create(_) => Sums.SumByPush(s.bufs, NEW_BUF, TakenBy(x));
    case CreatorPush(i) => CreatorAccounted(s, i, x);
    case Direct(_) =>
    case _ => DrainAccounted(s, step, x);
  }

  lemma {:induction false} RunKeepsAccounted(s: System, steps: seq<Step>, t: System, x: Item)
    requires Run(s, steps, t) && Accounted(s, x)
    ensures Accounted(t, x)
    decreases |steps|
  {
    if steps != [] {
      StepKeepsAccounted(s, steps[0], x);
      RunKeepsAccounted(Next(s, steps[0]), steps[1..], t, x);
    }
  }

  /**
   In every reachable state the calls that returned, counted per event and for checkpoints, are exactly the pushes
   the buffers took plus the first pushes that creators lost.
   */
  lemma ReturnedIsAcceptedOrLost(batch: nat, s: System, x: Item)
    requires Reachable(batch, s)
    ensures Times(x, s.returned) == Sums.SumBy(s.bufs, TakenBy(x)) + Times(x, s.lost)
  {
    var steps :| Run(Init(batch), steps, s);
    RunKeepsAccounted(Init(batch), steps, s, x);
  }

  /**
   The creator of a buffer ignores its first push's result: if the buffer closed in between, its event or its
   checkpoint request is gone.
   */
  lemma CreatorPushCanBeLost(batch: nat, x: Item) returns (s: System)
    ensures Reachable(batch, s) && s.returned == [x] && s.lost == [x] && s.creators == [] && s.taken == [] && s.slot.None?
    ensures forall b :: 0 <= b < |s.bufs| ==> s.bufs[b].phase.Stopped? && s.bufs[b].accepted == [] && s.bufs[b].marks == []
  {
    var s0 := Init(batch);
    assert Run(s0, [], s0);
    var s1 := Then(batch, s0, Create(x));
    var s2 := Then(batch, s1, Close(0));
    var s3 := Then(batch, s2, ClearSlot(0));
    var s4 := Then(batch, s3, Finish(0));
    assert s4.bufs == [NEW_BUF.(closed := true, phase := Stopped)] && s4.creators == [Creator(0, x)];
    s := Then(batch, s4, CreatorPush(0));
  }

  lemma Then(batch: nat, s: System, step: Step) returns (t: System)
    requires Reachable(batch, s) && Enabled(s, step)
    ensures Reachable(batch, t) && t == Next(s, step)
  {
    t := Next(s, step);
    var steps :| Run(Init(batch), steps, s);
    RunOn(Init(batch), steps, s, step);
  }

  lemma {:induction false} RunOn(s: System, steps: seq<Step>, m: System, step: Step)
    requires Run(s, steps, m) && Enabled(m, step)
    ensures Run(s, steps + [step], Next(m, step))
    decreases |steps|
  {
    if steps == [] {
      assert [] + [step] == [step] && [step][1..] == [];
    } else {
      assert (steps + [step])[1..] == steps[1..] + [step];
      RunOn(Next(s, steps[0]), steps[1..], m, step);
    }
  }
}
