/** What diff parents do with batches and nonces, in which order, and what when the session is cancelled. */
module AccountDiffParents {
  import opened Options
  import opened Dispatcher
  import opened DispatcherGate
  import opened DispatcherWorkers
  import opened AccountDiff
  import opened AccountDiffProof
  import opened AccountDiffSession

  // ----- leftovers are flushed, not dropped -----

  /** A parent's enqueue is under way or has succeeded. */
  predicate Unrefused(parent: Parent, at: Producer) {
    parent.phase.AwaitFlush? || parent.phase.AwaitFinal? || parent.phase.AwaitBail? ==>
      at.Checked? || at.Counted? || at.Crediting? || at == Idle(true)
  }

  ghost predicate KeptUnrefused(u: Setup, j: Joint) {
    |j.parents| == |j.d.producers| &&
    (!u.full && j.d.refused == [] ==>
       j.abandoned == multiset{} && forall p :: 0 <= p < |j.parents| ==> Unrefused(j.parents[p], j.d.producers[p]))
  }

  lemma InnerKeepsUnrefused(c: Config, s: State, step: Step, p: nat, parent: Parent)
    requires Enabled(c, s, step) && !StartsCall(step) && p < |s.producers| && Unrefused(parent, s.producers[p])
    requires Next(c, s, step).refused == []
    ensures s.refused == [] && |Next(c, s, step).producers| == |s.producers| && Unrefused(parent, Next(c, s, step).producers[p])
  {
    match step
    case Work(i, a) => assert Next(c, s, step) == WorkerNext(c, s, i, a);
    case Produce(q, a) =>
      assert Next(c, s, step) == ProducerNext(c, s, q, a);
    case _ =>
  }

  lemma InnerRefusedStays(c: Config, s: State, step: Step)
    requires Enabled(c, s, step) && Next(c, s, step).refused == []
    ensures s.refused == []
  {
    match step
    case Work(i, a) => assert Next(c, s, step) == WorkerNext(c, s, i, a);
    case Produce(q, a) => assert Next(c, s, step) == ProducerNext(c, s, q, a);
    case _ =>
  }

  lemma InnerKeepsKept(u: Setup, j: Joint, ds: Step)
    requires JointEnabled(u, j, Inner(ds)) && KeptUnrefused(u, j)
    ensures KeptUnrefused(u, JointNext(u, j, Inner(ds)))
  {
    var t := JointNext(u, j, Inner(ds));
    InnerKeepsIdle(u.dc, j.d, ds);
    if !u.full && t.d.refused == [] {
      InnerRefusedStays(u.dc, j.d, ds);
      forall p | 0 <= p < |t.parents| ensures Unrefused(t.parents[p], t.d.producers[p]) {
        InnerKeepsUnrefused(u.dc, j.d, ds, p, j.parents[p]);
      }
    }
  }

  /** On the diff path only a refused enqueue makes a parent drop anything. */
  lemma OutcomeKeeps(u: Setup, j: Joint, p: nat, a: ParentAct)
    requires !u.full && ParentEnabled(u, j, p, a) && ParentOk(j.parents[p], j.d.producers[p]) && Unrefused(j.parents[p], j.d.producers[p])
    ensures var o := ParentOutcome(u, j.d.producers[p], j.parents[p], a);
            o.drop == [] &&
            (o.phase.AwaitFlush? || o.phase.AwaitFinal? || o.phase.AwaitBail? ==>
               o.call.Some? && o.call.value.Enqueue? && o.call.value.nonces != [])
  {
  }

  lemma ParentKeepsKept(u: Setup, j: Joint, p: nat, a: ParentAct)
    requires ParentEnabled(u, j, p, a) && Phased(u, j) && KeptUnrefused(u, j)
    ensures KeptUnrefused(u, ParentNext(u, j, p, a))
  {
    var t, o := ParentNext(u, j, p, a), ParentOutcome(u, j.d.producers[p], j.parents[p], a);
    ParentShape(u, j, p, a);
    if !u.full && t.d.refused == [] {
      OpenWhileActing(u, j, p, a);
      assert ParentOk(j.parents[p], j.d.producers[p]);
      OutcomeKeeps(u, j, p, a);
      if o.phase.AwaitFlush? || o.phase.AwaitFinal? || o.phase.AwaitBail? {
        assert t.d.producers[p] == Checked(o.call.value.nonces);
      }
    }
  }

  lemma StepKeepsKept(u: Setup, j: Joint, step: JointStep)
    requires JointEnabled(u, j, step) && Phased(u, j) && KeptUnrefused(u, j)
    ensures KeptUnrefused(u, JointNext(u, j, step))
  {
    match step
    case Inner(ds) => InnerKeepsKept(u, j, ds);
    case Do(p, a) => ParentKeepsKept(u, j, p, a);
    case _ =>
  }

  lemma {:induction false} RunKeepsKept(u: Setup, j: Joint, steps: seq<JointStep>, t: Joint)
    requires JointRun(u, j, steps, t) && Phased(u, j) && KeptUnrefused(u, j)
    ensures KeptUnrefused(u, t)
    decreases |steps|
  {
    if steps != [] {
      StepKeepsPhased(u, j, steps[0]);
      StepKeepsKept(u, j, steps[0]);
      RunKeepsKept(u, JointNext(u, j, steps[0]), steps[1..], t);
    }
  }

  /**
   On the diff path a parent that gives up flushes its leftover first: nothing it has found is lost, cancelled or
   not, unless the dispatcher refused an enqueue.
   */
  lemma LeftoversAreFlushed(u: Setup, t: Joint)
    requires !u.full && JointReachable(u, t) && t.d.refused == []
    ensures t.abandoned == multiset{}
  {
    var steps :| JointRun(u, JointInit(u), steps, t);
    RunKeepsKept(u, JointInit(u), steps, t);
  }

  // ----- the order of nonces -----

  /** What parent p has read off the iterator or got from its children in these steps. */
  ghost function ReadBy(steps: seq<JointStep>, p: nat): seq<Nonce> {
    if steps == [] then [] else ReadIn(steps[0], p) + ReadBy(steps[1..], p)
  }

  function ReadIn(step: JointStep, p: nat): seq<Nonce> {
    if step.Do? && step.p == p && step.act.Pull? then step.act.result else []
  }

  /** The nonces of an enqueue. */
  function Offered(call: Option<ProducerAct>): seq<Nonce> {
    if call.Some? && call.value.Enqueue? then call.value.nonces else []
  }

  /** The nonces of parent p's enqueues in these steps, in order. */
  ghost function HandedOver(u: Setup, j: Joint, steps: seq<JointStep>, t: Joint, p: nat): seq<Nonce>
    requires JointRun(u, j, steps, t)
    decreases |steps|
  {
    if steps == [] then [] else HandedIn(u, j, steps[0], p) + HandedOver(u, JointNext(u, j, steps[0]), steps[1..], t, p)
  }

  ghost function HandedIn(u: Setup, j: Joint, step: JointStep, p: nat): seq<Nonce>
    requires JointEnabled(u, j, step)
  {
    if step.Do? && step.p == p then Offered(ParentOutcome(u, j.d.producers[p], j.parents[p], step.act).call) else []
  }

  /** An action splits what the parent holds and reads into its enqueue, its leftover and what it drops. */
  lemma OutcomeSplits(u: Setup, at: Producer, parent: Parent, a: ParentAct)
    requires at.Idle?
    ensures var o := ParentOutcome(u, at, parent, a);
            parent.local + (if a.Pull? then a.result else []) == Offered(o.call) + o.local + o.drop &&
            (o.drop != [] ==> o.phase.Finished?)
  {
    var o := ParentOutcome(u, at, parent, a);
    if a.Pull? || (a.Flush? && o.call.Some?) {
      assert Offered(o.call) + o.local == parent.local + if a.Pull? then a.result else [];
    }
  }

  /** Only its own actions change a parent. */
  lemma ParentAfter(u: Setup, j: Joint, step: JointStep, p: nat)
    requires JointEnabled(u, j, step) && p < |j.parents|
    ensures p < |JointNext(u, j, step).parents|
    ensures JointNext(u, j, step).parents[p] ==
            if step.Do? && step.p == p then
              var o := ParentOutcome(u, j.d.producers[p], j.parents[p], step.act); Parent(o.phase, o.local)
            else j.parents[p]
  {
    match step
    case Do(q, a) => assert JointNext(u, j, step) == ParentNext(u, j, q, a);
    case _ =>
  }

  lemma {:induction false} FinishedReadsNothing(u: Setup, j: Joint, steps: seq<JointStep>, t: Joint, p: nat)
    requires JointRun(u, j, steps, t) && p < |j.parents| && j.parents[p].phase.Finished?
    ensures ReadBy(steps, p) == [] && p < |t.parents| && t.parents[p].phase.Finished?
    decreases |steps|
  {
    if steps != [] {
      FinishedReadsNothing(u, JointNext(u, j, steps[0]), steps[1..], t, p);
    }
  }

  lemma OrderJoins(had: seq<Nonce>, read: seq<Nonce>, first: seq<Nonce>, local: seq<Nonce>, drop: seq<Nonce>,
                   rest: seq<Nonce>, left: seq<Nonce>, later: seq<Nonce>)
    requires had + read == first + local + drop && rest + left <= local + later && (drop != [] ==> later == [])
    ensures first + rest + left <= had + (read + later)
    ensures drop == [] && rest + left == local + later ==> first + rest + left == had + (read + later)
  {
    var all := had + (read + later);
    assert all == had + read + later == first + (local + drop + later);
    assert rest + left <= local + drop + later;
    assert first + rest + left == first + (rest + left);
    assert forall k :: 0 <= k < |rest + left| ==> all[|first| + k] == (rest + left)[k];
  }

  /**
   A parent hands over its nonces in the order in which it got them: its enqueues and what it still holds are a
   prefix of what it had and read, and all of it while it has not returned.
   */
  lemma {:induction false} NoncesKeepOrder(u: Setup, j: Joint, steps: seq<JointStep>, t: Joint, p: nat)
    requires JointRun(u, j, steps, t) && p < |j.parents|
    ensures p < |t.parents|
    ensures HandedOver(u, j, steps, t, p) + t.parents[p].local <= j.parents[p].local + ReadBy(steps, p)
    ensures !t.parents[p].phase.Finished? ==>
              HandedOver(u, j, steps, t, p) + t.parents[p].local == j.parents[p].local + ReadBy(steps, p)
    decreases |steps|
  {
    if steps != [] {
      var n, rest := JointNext(u, j, steps[0]), steps[1..];
      ParentAfter(u, j, steps[0], p);
      NoncesKeepOrder(u, n, rest, t, p);
      var later, handed := ReadBy(rest, p), HandedOver(u, n, rest, t, p);
      if steps[0].Do? && steps[0].p == p {
        if n.parents[p].phase.Finished? {
          FinishedReadsNothing(u, n, rest, t, p);
        }
        OutcomeSplits(u, j.d.producers[p], j.parents[p], steps[0].act);
        var o := ParentOutcome(u, j.d.producers[p], j.parents[p], steps[0].act);
        OrderJoins(j.parents[p].local, ReadIn(steps[0], p), Offered(o.call), o.local, o.drop, handed, t.parents[p].local, later);
      } else {
        assert ReadBy(steps, p) == later && HandedOver(u, j, steps, t, p) == handed;
      }
    }
  }

  /** What is queued and what is unread are the last batches of the iterator, in its order. */
  predicate LatestBatches(u: Setup, j: Joint) {
    var rest := j.work + j.iter;
    |rest| <= |u.batches| && rest == u.batches[|u.batches| - |rest|..]
  }

  /** A read takes the first of the batches left; no other step changes them. */
  lemma BatchesAfter(u: Setup, j: Joint, step: JointStep)
    requires JointEnabled(u, j, step) && (u.full ==> j.work == [])
    ensures var t, rest := JointNext(u, j, step), j.work + j.iter;
            t.work + t.iter == (if step.Do? && step.act.Pull? then rest[1..] else rest) && (u.full ==> t.work == [])
  {
    match step
    case Inner(_) =>
    case Feed =>
    case Do(p, a) => PullTakesFirst(u, j, p, a);
    case _ =>
  }

  lemma ParentQueues(u: Setup, j: Joint, p: nat, a: ParentAct)
    requires ParentEnabled(u, j, p, a)
    ensures var t := ParentNext(u, j, p, a);
            t.work == (if a.Pull? && !u.full then j.work[1..] else j.work) &&
            t.iter == if a.Pull? && u.full then j.iter[1..] else j.iter
  {
  }

  lemma FirstOfBoth(work: seq<seq<Nonce>>, iter: seq<seq<Nonce>>)
    requires work != []
    ensures work[1..] + iter == (work + iter)[1..]
  {
  }

  lemma PullTakesFirst(u: Setup, j: Joint, p: nat, a: ParentAct)
    requires ParentEnabled(u, j, p, a) && (u.full ==> j.work == [])
    ensures var t, rest := ParentNext(u, j, p, a), j.work + j.iter;
            t.work + t.iter == (if a.Pull? then rest[1..] else rest) && (u.full ==> t.work == [])
  {
    ParentQueues(u, j, p, a);
    if a.Pull? && !u.full {
      FirstOfBoth(j.work, j.iter);
    } else if a.Pull? {
      assert [] + j.iter == j.iter;
    }
  }

  lemma StepKeepsBatches(u: Setup, j: Joint, step: JointStep)
    requires JointEnabled(u, j, step) && LatestBatches(u, j) && (u.full ==> j.work == [])
    ensures LatestBatches(u, JointNext(u, j, step)) && (u.full ==> JointNext(u, j, step).work == [])
  {
    BatchesAfter(u, j, step);
  }

  lemma {:induction false} RunKeepsBatches(u: Setup, j: Joint, steps: seq<JointStep>, t: Joint)
    requires JointRun(u, j, steps, t) && LatestBatches(u, j) && (u.full ==> j.work == [])
    ensures LatestBatches(u, t)
    decreases |steps|
  {
    if steps != [] {
      StepKeepsBatches(u, j, steps[0]);
      RunKeepsBatches(u, JointNext(u, j, steps[0]), steps[1..], t);
    }
  }

  /** Parents take the batches in the order in which the iterator produced them. */
  lemma BatchesInOrder(u: Setup, t: Joint)
    requires JointReachable(u, t)
    ensures var left := |t.work| + |t.iter|;
            left <= |u.batches| && t.work + t.iter == u.batches[|u.batches| - left..]
  {
    var steps :| JointRun(u, JointInit(u), steps, t);
    assert [] + u.batches == u.batches[0..];
    RunKeepsBatches(u, JointInit(u), steps, t);
  }

  // ----- a cancelled waiter gives up -----

  /** The parent waits at a gate that will refuse it, or has given up. */
  predicate GivesUp(parent: Parent, at: Producer) {
    (parent.phase.Gating? && GateRefuses(at)) || parent.phase.AwaitBail? || parent.phase == Finished(false)
  }

  lemma InnerKeepsGivingUp(u: Setup, j: Joint, ds: Step, p: nat)
    requires JointEnabled(u, j, Inner(ds)) && j.d.cancelled && p < |j.parents| && p < |j.d.producers|
    requires GivesUp(j.parents[p], j.d.producers[p])
    ensures var n := Next(u.dc, j.d, ds); n.cancelled && p < |n.producers| && GivesUp(j.parents[p], n.producers[p])
  {
    var n := Next(u.dc, j.d, ds);
    CancelledStays(u.dc, j.d, ds);
    if GateRefuses(j.d.producers[p]) {
      assert Run(u.dc, n, [], n) && [ds][1..] == [];
      assert Run(u.dc, j.d, [ds], n);
      CancelledGateRefuses(u.dc, j.d, [ds], n, p);
    } else {
      InnerKeepsIdle(u.dc, j.d, ds);
    }
  }

  lemma ParentKeepsGivingUp(u: Setup, j: Joint, q: nat, a: ParentAct, p: nat)
    requires ParentEnabled(u, j, q, a) && j.d.cancelled && p < |j.parents| && p < |j.d.producers|
    requires GivesUp(j.parents[p], j.d.producers[p])
    ensures var t := ParentNext(u, j, q, a);
            t.d.cancelled && p < |t.parents| && p < |t.d.producers| && GivesUp(t.parents[p], t.d.producers[p])
  {
    var o := ParentOutcome(u, j.d.producers[q], j.parents[q], a);
    if o.call.Some? {
      assert Enabled(u.dc, j.d, Produce(q, o.call.value));
      CancelledStays(u.dc, j.d, Produce(q, o.call.value));
    }
  }

  lemma StepKeepsGivingUp(u: Setup, j: Joint, step: JointStep, p: nat)
    requires JointEnabled(u, j, step) && j.d.cancelled && p < |j.parents| && p < |j.d.producers|
    requires GivesUp(j.parents[p], j.d.producers[p])
    ensures var t := JointNext(u, j, step);
            t.d.cancelled && p < |t.parents| && p < |t.d.producers| && GivesUp(t.parents[p], t.d.producers[p])
  {
    match step
    case Inner(ds) => InnerKeepsGivingUp(u, j, ds, p);
    case Do(q, a) => ParentKeepsGivingUp(u, j, q, a, p);
    case _ =>
  }

  /** A parent that waits at the gate when the session is cancelled takes no further batch and reports no success. */
  lemma CancelledParentGivesUp(u: Setup, j: Joint, steps: seq<JointStep>, t: Joint, p: nat)
    requires JointRun(u, j, steps, t) && j.d.cancelled && p < |j.parents| && p < |j.d.producers|
    requires j.parents[p].phase.Gating? && InGate(j.d.producers[p])
    ensures p < |t.parents| && !t.parents[p].phase.Pulling? && !t.parents[p].phase.Flushing? && t.parents[p].phase != Finished(true)
  {
    GivingUpStays(u, j, steps, t, p);
  }

  lemma {:induction false} GivingUpStays(u: Setup, j: Joint, steps: seq<JointStep>, t: Joint, p: nat)
    requires JointRun(u, j, steps, t) && j.d.cancelled && p < |j.parents| && p < |j.d.producers|
    requires GivesUp(j.parents[p], j.d.producers[p])
    ensures p < |t.parents| && p < |t.d.producers| && GivesUp(t.parents[p], t.d.producers[p])
    decreases |steps|
  {
    if steps != [] {
      StepKeepsGivingUp(u, j, steps[0], p);
      GivingUpStays(u, JointNext(u, j, steps[0]), steps[1..], t, p);
    }
  }

  // ----- memory -----

  lemma {:induction false} QueueStaysShort(u: Setup, j: Joint, steps: seq<JointStep>, t: Joint)
    requires JointRun(u, j, steps, t) && |j.work| <= u.dc.producers
    ensures |t.work| <= u.dc.producers
    decreases |steps|
  {
    if steps != [] {
      QueueStaysShort(u, JointNext(u, j, steps[0]), steps[1..], t);
    }
  }

  /** At no time are more batches queued than there are parents. */
  lemma QueueIsBounded(u: Setup, t: Joint)
    requires JointReachable(u, t)
    ensures |t.work| <= u.dc.producers
  {
    var steps :| JointRun(u, JointInit(u), steps, t);
    QueueStaysShort(u, JointInit(u), steps, t);
  }
}
