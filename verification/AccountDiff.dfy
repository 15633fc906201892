/**
 The account diff stage and the dispatcher it feeds, as one step machine.

 Parents take iterator batches, find the nonces the client does not hold, and hand them to the dispatcher
 page by page; the full-sync path is a single parent that takes everything.  CloseInput is called once all
 parents have returned.  Dispatcher steps interleave freely with parent steps.
 */
module AccountDiff {
  import opened Options
  import opened Dispatcher

  const NONCE_PAGE_SIZE := 3000
  const NUM_DIFF_CHILDREN := 10
  const CHILD_WINDOW := 1000
  const PARENT_MEMORY_WINDOW := 10000   // accounts per iterator batch

  // ----- children -----

  /** The nonces of ns that the client's tree does not contain, in order. */
  function Absent(client: set<Nonce>, ns: seq<Nonce>): seq<Nonce> {
    if ns == [] then []
    else (if ns[0] in client then [] else [ns[0]]) + Absent(client, ns[1..])
  }

  function Min(a: nat, b: nat): nat {
    if a < b then a else b
  }

  /** What child i and its successors find; a child whose window starts beyond the batch is not started. */
  function ChildOutputs(client: set<Nonce>, batch: seq<Nonce>, i: nat): seq<seq<Nonce>>
    decreases NUM_DIFF_CHILDREN - i
  {
    if i >= Min(NUM_DIFF_CHILDREN, |batch|) || i * CHILD_WINDOW >= |batch| then []
    else
      [Absent(client, batch[i * CHILD_WINDOW..Min((i + 1) * CHILD_WINDOW, |batch|)])] + ChildOutputs(client, batch, i + 1)
  }

  function Concat(parts: seq<seq<Nonce>>): seq<Nonce> {
    if parts == [] then [] else parts[0] + Concat(parts[1..])
  }

  /** Children append their finds to the shared result in whatever order they finish. */
  ghost predicate ChildrenMayReturn(client: set<Nonce>, batch: seq<Nonce>, result: seq<Nonce>) {
    exists order: seq<seq<Nonce>> ::
      multiset(order) == multiset(ChildOutputs(client, batch, 0)) && result == Concat(order)
  }

  /** The accounts of a batch that some child looks at. */
  function Served(batch: seq<Nonce>): seq<Nonce> {
    batch[..Min(|batch|, NUM_DIFF_CHILDREN * CHILD_WINDOW)]
  }

  // ----- the joint machine -----

  /** The iterator's batches, the client's set, and which path is taken. */
  datatype Setup = Setup(dc: Config, full: bool, client: set<Nonce>, batches: seq<seq<Nonce>>) {
    predicate Valid() {
      dc.Valid() && (full ==> dc.producers == 1) && (dc.producers == 0 ==> batches == [])
    }
  }

  datatype Phase =
    | AtGate | Gating | Pulling | Flushing
    | AwaitFlush | AwaitFinal | AwaitBail
    | Finished(ok: bool)

  datatype Parent = Parent(phase: Phase, local: seq<Nonce>)

  datatype Joint = Joint(
    d: State,
    iter: seq<seq<Nonce>>,     // batches not yet read from the iterator
    work: seq<seq<Nonce>>,     // batches in workChan
    workClosed: bool,
    iterFailed: bool,
    feedStopped: bool,         // the feeding goroutine saw the cancelled context
    parents: seq<Parent>,
    abandoned: multiset<Nonce>)

  function JointInit(u: Setup): Joint {
    Joint(Init(u.dc), u.batches, [], false, false, false, seq(u.dc.producers, _ => Parent(AtGate, [])), multiset{})
  }

  datatype ParentAct =
    | StartGate | StopEarly | EndGate
    | Pull(result: seq<Nonce>) | PullEnd | PullCancelled | PullFail
    | Flush | EndFlush | EndFinal | EndBail

  datatype JointStep =
    | Inner(step: Step)        // a dispatcher step that is not the start of a call
    | CloseAll                 // CloseInput, after all parents returned
    | Feed | FeedEnd(failed: bool) | FeedStop
    | Do(p: nat, act: ParentAct)

  /** What a parent does: its new phase and leftover, the call it starts, and what it drops on an error return. */
  datatype Outcome = Outcome(phase: Phase, local: seq<Nonce>, call: Option<ProducerAct>, drop: seq<Nonce>)

  predicate AllFinished(j: Joint) {
    forall p :: 0 <= p < |j.parents| ==> j.parents[p].phase.Finished?
  }

  predicate StartsCall(step: Step) {
    (step.Produce? && (step.pa.Gate? || step.pa.Enqueue?)) || (step.Close? && step.ca.Store?)
  }

  ghost predicate ParentEnabled(u: Setup, j: Joint, p: nat, a: ParentAct) {
    p < |j.parents| && p < |j.d.producers| && j.d.producers[p].Idle? &&
    var phase := j.parents[p].phase;
    match a
    case StartGate => phase.AtGate?
    case StopEarly => phase.AtGate? && u.full && j.d.cancelled
    case EndGate => phase.Gating?
    case Pull(result) =>
      phase.Pulling? &&
      if u.full then j.iter != [] && result == j.iter[0]
      else j.work != [] && ChildrenMayReturn(u.client, j.work[0], result)
    case PullEnd => phase.Pulling? && if u.full then j.iter == [] else j.work == [] && j.workClosed
    case PullCancelled => phase.Pulling? && !u.full && j.d.cancelled
    case PullFail => phase.Pulling? && u.full
    case Flush => phase.Flushing?
    case EndFlush => phase.AwaitFlush?
    case EndFinal => phase.AwaitFinal?
    case EndBail => phase.AwaitBail?
  }

  /** A parent that gives up flushes its leftover first on the diff path, and drops it on the full-sync path. */
  function GiveUp(u: Setup, local: seq<Nonce>): Outcome {
    if u.full || local == [] then Outcome(Finished(false), [], None, local)
    else Outcome(AwaitBail, [], Some(Enqueue(local)), [])
  }

  function ParentOutcome(u: Setup, at: Producer, parent: Parent, a: ParentAct): (o: Outcome)
    requires at.Idle?
    ensures o.call.Some? ==> o.call.value.Gate? || o.call.value.Enqueue?
  {
    var local := parent.local;
    match a
    case StartGate => Outcome(Gating, local, Some(Gate), [])
    case StopEarly => Outcome(Finished(false), [], None, local)
    case EndGate => if at.ok then Outcome(Pulling, local, None, []) else GiveUp(u, local)
    case Pull(result) => Outcome(Flushing, local + result, None, [])
    case PullEnd =>
      if local == [] then Outcome(Finished(true), [], None, []) else Outcome(AwaitFinal, [], Some(Enqueue(local)), [])
    case PullCancelled => GiveUp(u, local)
    case PullFail => Outcome(Finished(false), [], None, local)
    case Flush =>
      if |local| >= NONCE_PAGE_SIZE then
        Outcome(AwaitFlush, local[NONCE_PAGE_SIZE..], Some(Enqueue(local[..NONCE_PAGE_SIZE])), [])
      else Outcome(AtGate, local, None, [])
    case EndFlush => if at.ok then Outcome(Flushing, local, None, []) else Outcome(Finished(false), [], None, local)
    case EndFinal => Outcome(Finished(at.ok), [], None, local)
    case EndBail => Outcome(Finished(false), [], None, local)
  }

  function ParentNext(u: Setup, j: Joint, p: nat, a: ParentAct): Joint
    requires p < |j.parents| && p < |j.d.producers| && j.d.producers[p].Idle?
    requires a.Pull? ==> if u.full then j.iter != [] else j.work != []
  {
    var o := ParentOutcome(u, j.d.producers[p], j.parents[p], a);
    j.(d := if o.call.Some? then ProducerNext(u.dc, j.d, p, o.call.value) else j.d,
       parents := j.parents[p := Parent(o.phase, o.local)],
       abandoned := j.abandoned + multiset(o.drop),
       iter := if a.Pull? && u.full then j.iter[1..] else j.iter,
       work := if a.Pull? && !u.full then j.work[1..] else j.work,
       iterFailed := j.iterFailed || a.PullFail?)
  }

  ghost predicate JointEnabled(u: Setup, j: Joint, step: JointStep) {
    match step
    case Inner(ds) => !StartsCall(ds) && Enabled(u.dc, j.d, ds)
    case CloseAll => AllFinished(j) && CloserEnabled(j.d, Store)
    case Feed => !u.full && !j.workClosed && j.iter != [] && |j.work| < u.dc.producers
    case FeedEnd(failed) => !u.full && !j.workClosed && (failed || j.iter == [])
    case FeedStop => !u.full && !j.workClosed && j.d.cancelled
    case Do(p, a) => ParentEnabled(u, j, p, a)
  }

  ghost function JointNext(u: Setup, j: Joint, step: JointStep): Joint
    requires JointEnabled(u, j, step)
  {
    match step
    case Inner(ds) => j.(d := Next(u.dc, j.d, ds))
    case CloseAll => j.(d := CloserNext(j.d, Store))
    case Feed => j.(iter := j.iter[1..], work := j.work + [j.iter[0]])
    case FeedEnd(failed) => j.(workClosed := true, iterFailed := j.iterFailed || failed)
    case FeedStop => j.(workClosed := true, feedStopped := true)
    case Do(p, a) => ParentNext(u, j, p, a)
  }

  ghost predicate JointRun(u: Setup, j: Joint, steps: seq<JointStep>, t: Joint)
    decreases |steps|
  {
    if steps == [] then j == t
    else JointEnabled(u, j, steps[0]) && JointRun(u, JointNext(u, j, steps[0]), steps[1..], t)
  }

  ghost predicate JointReachable(u: Setup, t: Joint) {
    exists steps :: JointRun(u, JointInit(u), steps, t)
  }
}
