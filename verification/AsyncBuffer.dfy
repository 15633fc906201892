/**
 Asynchronous log buffers: coalescing stacks that are swapped out and written by their own goroutine.

 The machine has any number of buffers, direct writers beside them, and one step per mutex region or atomic
 operation.  Every flush, metadata save and marker operation may fail, in drains and direct calls alike.  `accepted`, `collapsed`, `processed`, `marks`, `taken`, `returned` and
 `lost` are history.
 */
module AsyncBuffer {
  import opened Options
  import opened WalSpec
  import WalProof
  import WalFaults

  datatype Node = Data(entries: seq<nat>) | Checkpoint

  /** An accepted push: a payload, or a checkpoint request. */
  datatype Item = Payload(value: nat) | Mark

  /** A log record's origin: an async buffer, or a direct write. */
  datatype Record = Record(source: Option<nat>, value: nat)

  // ----- the stack under the buffer's mutex -----

  /** Adjacent data pushes share a node. */
  function PushedData(stack: seq<Node>, v: nat): seq<Node> {
    if |stack| > 0 && stack[|stack| - 1].Data? then stack[..|stack| - 1] + [Data(stack[|stack| - 1].entries + [v])]
    else stack + [Data([v])]
  }

  /** No two data nodes and no two checkpoints are neighbours. */
  predicate Coalesced(stack: seq<Node>) {
    forall i :: 0 <= i < |stack| - 1 ==> (stack[i].Data? <==> stack[i + 1].Checkpoint?)
  }

  predicate TopIsCheckpoint(stack: seq<Node>) {
    |stack| > 0 && stack[|stack| - 1].Checkpoint?
  }

  /** Consecutive checkpoints collapse. */
  function PushedCheckpoint(stack: seq<Node>): seq<Node> {
    if TopIsCheckpoint(stack) then stack else stack + [Checkpoint]
  }

  class Stack {
    var stack: seq<Node>
    var closed: bool

    constructor ()
      ensures stack == [] && !closed
    {
      stack, closed := [], false;
    }

    method PushData(v: nat) returns (accepted: bool)
      modifies this`stack
      ensures accepted == !closed && stack == if closed then old(stack) else PushedData(old(stack), v)
      ensures Coalesced(old(stack)) ==> Coalesced(stack)
    {
      if closed {
        return false;
      }
      var n := |stack|;
      if n > 0 && stack[n - 1].Data? {
        stack := stack[n - 1 := Data(stack[n - 1].entries + [v])];
      } else {
        stack := stack + [Data([v])];
      }
      return true;
    }

    method PushCheckpoint() returns (accepted: bool)
      modifies this`stack
      ensures accepted == !closed && stack == if closed then old(stack) else PushedCheckpoint(old(stack))
      ensures Coalesced(old(stack)) ==> Coalesced(stack)
    {
      if closed {
        return false;
      }
      if |stack| > 0 && stack[|stack| - 1].Checkpoint? {
        return true;
      }
      stack := stack + [Checkpoint];
      return true;
    }

    /** flushAndReport up to the write: take the stack, leave an empty one. */
    method Swap() returns (snapshot: seq<Node>)
      modifies this`stack
      ensures snapshot == old(stack) && stack == []
    {
      snapshot := stack;
      stack := [];
    }

    /** closeAndDrain up to the write. */
    method Close() returns (snapshot: seq<Node>)
      modifies this
      ensures closed && snapshot == old(stack) && stack == []
    {
      closed := true;
      snapshot := stack;
      stack := [];
    }
  }

  // ----- the machine -----

  datatype Phase = Resting | Writing | Closing | Draining | Stopped

  /** A checkpoint: how many payloads of this buffer were written before it, and its number, if its marker was made. */
  datatype Created = Created(before: nat, lsn: Option<nat>)

  /** collapsed counts the checkpoint requests that found a checkpoint on top and added nothing. */
  datatype Buf = Buf(stack: seq<Node>, closed: bool, phase: Phase, snapshot: seq<Node>,
                     accepted: seq<Item>, collapsed: nat, processed: seq<Item>, marks: seq<Created>)

  /** A caller that installed buffer b and has its first push, of item, still to make. */
  datatype Creator = Creator(b: nat, item: Item)

  /** taken lists what each sequence number was taken for: a record, or nothing if a direct event did not serialize. */
  datatype System = System(wal: Wal<Record>, taken: seq<Option<Record>>, slot: Option<nat>, bufs: seq<Buf>,
                           creators: seq<Creator>, returned: seq<Item>, lost: seq<Item>)

  datatype Step =
    | Push(b: nat, item: Item)       // AddToBufferWAL or AddCheckpointToBuffer found buffer b
    | Create(item: Item)             // one of them installed a new buffer
    | CreatorPush(i: nat)            // ... and now the i-th such caller makes its first push, ignoring the result
    | Swap(b: nat) | Close(b: nat) | ClearSlot(b: nat) | Finish(b: nat)
    | WriteNext(b: nat, ios: seq<Io>)      // one node of the snapshot, with an outcome for each flush
    | Direct(op: WalProof.FaultyOp<nat>)   // some other caller writes, flushes or checkpoints

  function Init(batch: nat): System {
    System(Empty(batch), [], None, [], [], [], [])
  }

  const NEW_BUF := Buf([], false, Resting, [], [], 0, [], [])

  predicate Enabled(s: System, step: Step) {
    match step
    case Push(b, _) => b < |s.bufs| && !s.bufs[b].closed
    case Create(_) => s.slot.None?
    case CreatorPush(i) => i < |s.creators| && s.creators[i].b < |s.bufs|
    case Swap(b) => b < |s.bufs| && s.bufs[b].phase.Resting? && s.bufs[b].stack != []
    case Close(b) => b < |s.bufs| && s.bufs[b].phase.Resting?
    case ClearSlot(b) => b < |s.bufs| && s.bufs[b].phase.Closing?
    case WriteNext(b, _) => b < |s.bufs| && (s.bufs[b].phase.Writing? || s.bufs[b].phase.Draining?) && s.bufs[b].snapshot != []
    case Finish(b) => b < |s.bufs| && (s.bufs[b].phase.Writing? || s.bufs[b].phase.Draining?) && s.bufs[b].snapshot == []
    case Direct(_) => true
  }

  function Accept(buf: Buf, item: Item): Buf {
    match item
    case Payload(v) => buf.(stack := PushedData(buf.stack, v), accepted := buf.accepted + [item])
    case Mark =>
      if TopIsCheckpoint(buf.stack) then buf.(collapsed := buf.collapsed + 1)
      else buf.(stack := PushedCheckpoint(buf.stack), accepted := buf.accepted + [item])
  }

  function Records(source: Option<nat>, vs: seq<nat>): (r: seq<Record>)
    ensures |r| == |vs| && forall k :: 0 <= k < |vs| ==> r[k] == Record(source, vs[k])
  {
    seq(|vs|, k requires 0 <= k < |vs| => Record(source, vs[k]))
  }

  function Payloads(vs: seq<nat>): (r: seq<Item>)
    ensures |r| == |vs| && forall k :: 0 <= k < |vs| ==> r[k] == Payload(vs[k])
  {
    seq(|vs|, k requires 0 <= k < |vs| => Payload(vs[k]))
  }

  function DirectOp(op: WalProof.FaultyOp<nat>): WalProof.FaultyOp<Record> {
    match op
    case FaultyWrite(event, io) => WalProof.FaultyWrite(if event.Some? then Some(Record(None, event.value)) else None, io)
    case FaultyFlush(io) => WalProof.FaultyFlush(io)
    case FaultyNode(vs, ios) => WalProof.FaultyNode(Records(None, vs), ios)
    case FaultyCheckpoint(io) => WalProof.FaultyCheckpoint(io)
  }

  function Written(items: seq<Item>): seq<nat> {
    if items == [] then []
    else Written(items[..|items| - 1]) + (if items[|items| - 1].Payload? then [items[|items| - 1].value] else [])
  }

  /** A failure is only logged: the drain goes on with the next node. */
  function WriteHead(s: System, b: nat, ios: seq<Io>): System
    requires Enabled(s, WriteNext(b, ios))
  {
    var buf := s.bufs[b];
    match buf.snapshot[0]
    case Data(vs) =>
      s.(wal := WriteNode(s.wal, Records(Some(b), vs), ios),
         taken := s.taken + WalFaults.Somes(Records(Some(b), vs)),
         bufs := s.bufs[b := buf.(snapshot := buf.snapshot[1..], processed := buf.processed + Payloads(vs))])
    case Checkpoint =>
      s.(wal := CreateCheckpoint(s.wal, IoAt(ios, 0)).wal,
         bufs := s.bufs[b := buf.(snapshot := buf.snapshot[1..], processed := buf.processed + [Mark],
                                  marks := buf.marks + [Created(|Written(buf.processed)|,
                                                                WalFaults.MarkerMade(s.wal, IoAt(ios, 0)))])])
  }

  function Next(s: System, step: Step): System
    requires Enabled(s, step)
  {
    match step
    case Push(b, item) => s.(bufs := s.bufs[b := Accept(s.bufs[b], item)], returned := s.returned + [item])
    case Create(item) =>
      s.(slot := Some(|s.bufs|), bufs := s.bufs + [NEW_BUF], creators := s.creators + [Creator(|s.bufs|, item)])
    case CreatorPush(i) =>
      var Creator(b, item) := s.creators[i];
      var rest := s.(creators := s.creators[..i] + s.creators[i + 1..], returned := s.returned + [item]);
      if s.bufs[b].closed then rest.(lost := s.lost + [item])
      else rest.(bufs := s.bufs[b := Accept(s.bufs[b], item)])
    case Swap(b) => s.(bufs := s.bufs[b := s.bufs[b].(phase := Writing, snapshot := s.bufs[b].stack, stack := [])])
    case Close(b) =>
      s.(bufs := s.bufs[b := s.bufs[b].(phase := Closing, closed := true, snapshot := s.bufs[b].stack, stack := [])])
    case ClearSlot(b) =>
      s.(slot := if s.slot == Some(b) then None else s.slot, bufs := s.bufs[b := s.bufs[b].(phase := Draining)])
    case WriteNext(b, ios) => WriteHead(s, b, ios)
    case Finish(b) =>
      s.(bufs := s.bufs[b := s.bufs[b].(phase := if s.bufs[b].phase.Writing? then Resting else Stopped)])
    case Direct(op) =>
      s.(wal := WalProof.FaultyStep(s.wal, DirectOp(op)), taken := s.taken + WalFaults.TakenFor(DirectOp(op)))
  }

  predicate Run(s: System, steps: seq<Step>, t: System)
    decreases |steps|
  {
    if steps == [] then s == t else Enabled(s, steps[0]) && Run(Next(s, steps[0]), steps[1..], t)
  }

  ghost predicate Reachable(batch: nat, s: System) {
    exists steps :: Run(Init(batch), steps, s)
  }
}
