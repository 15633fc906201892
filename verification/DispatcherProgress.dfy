/** Bounded work and absence of deadlock in the dispatcher. */
module DispatcherProgress {
  import opened Options
  import opened Sums
  import opened Dispatcher
  import opened DispatcherSafety
  import DispatcherGate
  import DispatcherTheorems

  /** Remaining attempts, at fourteen worker steps each, which is more than one attempt takes. */
  function PageWeight(c: Config, p: Page): int {
    14 * (c.maxRetries + 1 - p.attempts)
  }

  function Weight(c: Config): Page -> int {
    (p: Page) => PageWeight(c, p)
  }

  function RankOf(c: Config, w: Worker): int {
    match w.at
    case Selecting => 1
    case Exited => 0
    case Holding(p) => PageWeight(c, p) + if w.stream then 12 else 13
    case Signalling(p) => PageWeight(c, p) + 11
    case Numbering(p) => PageWeight(c, p) + 10
    case Fetching(p) => PageWeight(c, p) + 9
    case Sending(p) => PageWeight(c, p) + 8
    case Failing(p) => PageWeight(c, p) + 7
    case Requeueing(p) => PageWeight(c, p) + 6
    case Restoring(_) => 2
    case Burying(_) => 5
    case Finalising => 4
    case CheckingClosed => 3
    case CheckingInflight => 2
  }

  function Rank(c: Config): Worker -> int {
    (w: Worker) => RankOf(c, w)
  }

  /** Remaining attempts of all live pages, plus what each worker still has to do on its current one. */
  function Potential(c: Config, s: State): int {
    SumBy(s.chan, Weight(c)) + SumBy(s.workers, Rank(c))
  }

  lemma ChannelWeight(c: Config, s: State, i: nat, a: WorkerAct)
    requires WorkerEnabled(c, s, i, a)
    ensures var e := WorkerEffect(c, s, i, a);
            SumBy(e.put, Weight(c)) == (if a.Requeue? then PageWeight(c, s.workers[i].at.page) else 0) &&
            Taken(s, e, Weight(c)) == (if a.Receive? then PageWeight(c, s.chan[0]) else 0)
  {
    if a.Requeue? {
      SingleSum(s.workers[i].at.page, Weight(c));
    }
  }

  lemma WorkerRank(c: Config, s: State, i: nat, a: WorkerAct)
    requires WorkerEnabled(c, s, i, a) && AttemptsAt(c, s.workers[i])
    ensures RankOf(c, WorkerMoves(c, s, i, a)) + (if a.Requeue? then PageWeight(c, s.workers[i].at.page) else 0) <
            RankOf(c, s.workers[i]) + (if a.Receive? then PageWeight(c, s.chan[0]) else 0)
  {
  }

  /** Every step of every worker uses up some of the remaining work. */
  lemma WorkerStepDecreases(c: Config, s: State, i: nat, a: WorkerAct)
    requires WorkerEnabled(c, s, i, a) && AttemptsBounded(c, s)
    ensures Potential(c, WorkerNext(c, s, i, a)) < Potential(c, s)
  {
    WorkerRank(c, s, i, a);
    ChannelWeight(c, s, i, a);
    WorkersAfter(c, s, i, a, Rank(c));
    ChanAfter(s, WorkerEffect(c, s, i, a), Weight(c));
  }

  lemma ProducerStepAdds(c: Config, s: State, p: nat, a: ProducerAct)
    requires ProducerEnabled(c, s, p, a)
    ensures Potential(c, ProducerNext(c, s, p, a)) ==
            Potential(c, s) + PageBudget(c) * (|ProducerNext(c, s, p, a).admitted| - |s.admitted|)
  {
    var e := ProducerEffect(c, s, p, a);
    ChanAfter(s, e, Weight(c));
    assert |ProducerNext(c, s, p, a).admitted| == |s.admitted| + |e.admit|;
    if a.SendPage? {
      SingleSum(NewPage(s.producers[p].nonces), Weight(c));
      assert PageBudget(c) * 1 == PageWeight(c, NewPage(s.producers[p].nonces));
    } else {
      assert e.put == e.admit == [] && PageBudget(c) * 0 == 0;
    }
  }

  function PageBudget(c: Config): nat {
    14 * (c.maxRetries + 1)
  }

  function WorkSteps(steps: seq<Step>): nat {
    if steps == [] then 0 else (if steps[0].Work? then 1 else 0) + WorkSteps(steps[1..])
  }

  lemma PotentialNonNegative(c: Config, s: State)
    requires AttemptsBounded(c, s)
    ensures Potential(c, s) >= 0
  {
    SumByNonNegative(s.chan, Weight(c));
    SumByNonNegative(s.workers, Rank(c));
  }

  lemma StepBudget(c: Config, s: State, step: Step)
    requires Enabled(c, s, step) && AttemptsBounded(c, s)
    ensures var s' := Next(c, s, step);
            |s'.admitted| >= |s.admitted| &&
            (if step.Work? then 1 else 0) + Potential(c, s') <= Potential(c, s) + PageBudget(c) * (|s'.admitted| - |s.admitted|)
  {
    match step
    case Work(i, a) =>
      WorkerStepDecreases(c, s, i, a);
      assert WorkerEffect(c, s, i, a).admit == [];
      assert Next(c, s, step) == WorkerNext(c, s, i, a);
    case Produce(p, a) =>
      ProducerStepAdds(c, s, p, a);
      assert Next(c, s, step) == ProducerNext(c, s, p, a);
    case _ =>
      assert PageBudget(c) * 0 == 0;
  }

  lemma {:induction false} RunBudget(c: Config, s: State, steps: seq<Step>, t: State)
    requires Run(c, s, steps, t) && AttemptsBounded(c, s)
    ensures |t.admitted| >= |s.admitted| && AttemptsBounded(c, t)
    ensures WorkSteps(steps) + Potential(c, t) <= Potential(c, s) + PageBudget(c) * (|t.admitted| - |s.admitted|)
    decreases |steps|
  {
    if steps != [] {
      var n := Next(c, s, steps[0]);
      StepKeepsAttempts(c, s, steps[0]);
      StepBudget(c, s, steps[0]);
      RunBudget(c, n, steps[1..], t);
      Distribute(PageBudget(c), |s.admitted|, |n.admitted|, |t.admitted|);
    }
  }

  lemma Distribute(k: int, x: int, y: int, z: int)
    ensures k * (y - x) + k * (z - y) == k * (z - x)
  {
  }

  lemma InitPotential(c: Config)
    ensures Potential(c, Init(c)) == c.workers && AttemptsBounded(c, Init(c)) && Init(c).admitted == []
  {
    SumByConstant(Init(c).workers, Rank(c), 1);
  }

  lemma WorkIsBoundedFrom(c: Config, s: State, steps: seq<Step>, t: State)
    requires Run(c, s, steps, t) && AttemptsBounded(c, s) && s.admitted == []
    ensures WorkSteps(steps) <= Potential(c, s) + PageBudget(c) * |t.admitted|
  {
    RunBudget(c, s, steps, t);
    PotentialNonNegative(c, t);
    assert |t.admitted| - |s.admitted| == |t.admitted|;
  }

  /** In any run whatsoever the workers take at most one step each plus a fixed number per admitted page. */
  lemma WorkIsBounded(c: Config, steps: seq<Step>, t: State)
    requires Run(c, Init(c), steps, t)
    ensures WorkSteps(steps) <= c.workers + PageBudget(c) * |t.admitted|
  {
    InitPotential(c);
    WorkIsBoundedFrom(c, Init(c), steps, t);
  }

  // ----- deadlock -----

  predicate AllRequeueing(s: State) {
    forall i :: 0 <= i < |s.workers| ==> s.workers[i].at.Requeueing?
  }

  /** All workers can be blocked re-queuing on a full channel only when at least cap + workers pages are in flight. */
  lemma StuckNeedsOverload(c: Config, s: State)
    requires Reachable(c, s) && AllRequeueing(s) && |s.chan| >= c.cap
    ensures s.inflight >= c.cap + c.workers
  {
    ReachableInv(c, s);
    SumByConstant(s.workers, Charge(), 1);
    ChargesNonNegative(s);
  }

  /** A worker re-queues only if the configuration allows retries. */
  lemma StuckNeedsRetries(c: Config, s: State)
    requires c.Valid() && Reachable(c, s) && AllRequeueing(s)
    ensures c.maxRetries > 0
  {
    ReachableInv(c, s);
    assert AttemptsAt(c, s.workers[0]);
  }

  /** A worker leaves its loop only after `done` or cancellation. */
  predicate ExitOk(s: State) {
    forall i :: 0 <= i < |s.workers| && s.workers[i].at.Exited? ==> s.done || s.cancelled
  }

  lemma StepKeepsExit(c: Config, s: State, step: Step)
    requires Enabled(c, s, step) && ExitOk(s)
    ensures ExitOk(Next(c, s, step))
  {
    match step
    case Work(i, a) =>
      assert WorkerMoves(c, s, i, a).at.Exited? ==> s.done || s.cancelled;
      assert Next(c, s, step) == WorkerNext(c, s, i, a);
    case Produce(p, a) =>
      assert Next(c, s, step) == ProducerNext(c, s, p, a);
    case _ =>
  }

  lemma {:induction false} RunKeepsExit(c: Config, s: State, steps: seq<Step>, t: State)
    requires Run(c, s, steps, t) && ExitOk(s)
    ensures ExitOk(t)
    decreases |steps|
  {
    if steps != [] {
      StepKeepsExit(c, s, steps[0]);
      RunKeepsExit(c, Next(c, s, steps[0]), steps[1..], t);
    }
  }

  ghost predicate CanWork(c: Config, s: State) {
    exists i, a :: WorkerEnabled(c, s, i, a)
  }

  lemma HolderCanWork(c: Config, s: State, i: nat)
    requires i < |s.workers| && s.lock.None?
    requires !s.workers[i].at.Selecting? && !s.workers[i].at.Exited? && (s.workers[i].at.Requeueing? ==> |s.chan| < c.cap)
    ensures CanWork(c, s)
  {
    var a := match s.workers[i].at
      case Holding(_) => if s.workers[i].stream then Subtract else Open(true)
      case Signalling(_) => Signal
      case Numbering(_) => Number
      case Fetching(_) => Fetch(true)
      case Sending(_) => Send(true)
      case Failing(_) => Decide
      case Requeueing(_) => Requeue
      case Restoring(_) => Restore
      case Burying(_) => Bury
      case Finalising => Finalise
      case CheckingClosed => LoadClosed
      case CheckingInflight => LoadInflight
      case _ => Leave;
    assert WorkerEnabled(c, s, i, a);
  }

  /** Someone is about to close `done`, or some page is unfinished. */
  lemma WorkRemains(c: Config, s: State)
    requires Reachable(c, s) && s.inputClosed && s.closer.Resting? && !s.done
    requires forall k :: 0 <= k < |s.producers| ==> s.producers[k].Idle?
    ensures s.chan != [] || exists i :: 0 <= i < |s.workers| && (Trying()(s.workers[i]) > 0 || Charge()(s.workers[i]) > 0)
  {
    ReachableInv(c, s);
    ChargesNonNegative(s);
    SumByConstant(s.producers, PCharge(), 0);
    SumByConstant(s.producers, PTrying(), 0);
    if s.inflight == 0 {
      var i := SumByWitness(s.workers, Trying());
    } else if s.chan == [] {
      var i := SumByWitness(s.workers, Charge());
    }
  }

  /** Input closed, every caller gone, no cancellation, and fewer than cap + workers pages in flight. */
  predicate Draining(c: Config, s: State) {
    s.inputClosed && s.closer.Resting? && !s.cancelled && s.inflight < c.cap + c.workers &&
    forall k :: 0 <= k < |s.producers| ==> s.producers[k].Idle?
  }

  /** Then some worker can always move until `done` is closed. */
  lemma ClosedDispatcherMoves(c: Config, s: State)
    requires c.Valid() && Reachable(c, s) && Draining(c, s) && !s.done
    ensures CanWork(c, s)
  {
    var steps :| Run(c, Init(c), steps, s);
    RunKeepsExit(c, Init(c), steps, s);
    DispatcherGate.IdleLeavesLockFree(c, s);
    WorkRemains(c, s);
    if s.chan == [] {
      var i :| 0 <= i < |s.workers| && (Trying()(s.workers[i]) > 0 || Charge()(s.workers[i]) > 0);
      HolderCanWork(c, s, i);
    } else if !AllRequeueing(s) {
      var i :| 0 <= i < |s.workers| && !s.workers[i].at.Requeueing?;
      if s.workers[i].at.Selecting? {
        assert WorkerEnabled(c, s, i, Receive);
      } else {
        HolderCanWork(c, s, i);
      }
    } else {
      if |s.chan| >= c.cap {
        StuckNeedsOverload(c, s);
      }
      assert |s.workers| == c.workers by { ReachableInv(c, s); }
      HolderCanWork(c, s, 0);
    }
  }

  lemma WorkKeepsDraining(c: Config, s: State, i: nat, a: WorkerAct)
    requires WorkerEnabled(c, s, i, a) && Draining(c, s)
    ensures Draining(c, WorkerNext(c, s, i, a))
  {
    assert WorkerEffect(c, s, i, a).addInflight <= 0;
  }

  predicate WorkOnly(steps: seq<Step>) {
    forall k :: 0 <= k < |steps| ==> steps[k].Work?
  }

  lemma {:induction false} WorkRunKeepsDraining(c: Config, s: State, steps: seq<Step>, t: State)
    requires Run(c, s, steps, t) && WorkOnly(steps) && Draining(c, s) && Reachable(c, s)
    ensures Draining(c, t) && Reachable(c, t)
    decreases |steps|
  {
    if steps != [] {
      var i, a := steps[0].i, steps[0].wa;
      WorkKeepsDraining(c, s, i, a);
      ReachableStep(c, s, steps[0]);
      assert Next(c, s, steps[0]) == WorkerNext(c, s, i, a);
      WorkRunKeepsDraining(c, Next(c, s, steps[0]), steps[1..], t);
    }
  }

  /**
   Draining ends in `done`: from such a state every run of worker steps is bounded by the remaining work, and one
   that cannot be continued has closed `done` and, after a clean close, has left every worker's loop.
   */
  lemma DrainEndsInDone(c: Config, s: State, steps: seq<Step>, t: State)
    requires c.Valid() && Reachable(c, s) && Draining(c, s) && Run(c, s, steps, t) && WorkOnly(steps)
    ensures |steps| <= Potential(c, s)
    ensures !CanWork(c, t) ==> t.done && (t.cleanClose ==> forall i :: 0 <= i < |t.workers| ==> t.workers[i].at.Exited?)
  {
    ReachableInv(c, s);
    WorkUsesUp(c, s, steps, t);
    PotentialNonNegative(c, t);
    WorkRunKeepsDraining(c, s, steps, t);
    if !t.done {
      ClosedDispatcherMoves(c, t);
    } else if t.cleanClose && !CanWork(c, t) {
      AllExited(c, t);
    }
  }

  lemma AllExited(c: Config, t: State)
    requires c.Valid() && Reachable(c, t) && Draining(c, t) && t.done && t.cleanClose && !CanWork(c, t)
    ensures forall i :: 0 <= i < |t.workers| ==> t.workers[i].at.Exited?
  {
    DispatcherGate.IdleLeavesLockFree(c, t);
    DispatcherTheorems.DoneIsComplete(c, t);
    forall i | 0 <= i < |t.workers| ensures t.workers[i].at.Exited? {
      if t.workers[i].at.Selecting? {
        assert WorkerEnabled(c, t, i, Leave);
      } else if !t.workers[i].at.Exited? {
        HolderCanWork(c, t, i);
      }
    }
  }

  lemma {:induction false} WorkUsesUp(c: Config, s: State, steps: seq<Step>, t: State)
    requires AttemptsBounded(c, s) && Run(c, s, steps, t) && WorkOnly(steps)
    ensures AttemptsBounded(c, t) && |steps| + Potential(c, t) <= Potential(c, s)
    decreases |steps|
  {
    if steps != [] {
      var i, a := steps[0].i, steps[0].wa;
      WorkerStepDecreases(c, s, i, a);
      WorkerKeepsAttempts(c, s, i, a);
      assert Next(c, s, steps[0]) == WorkerNext(c, s, i, a);
      WorkUsesUp(c, WorkerNext(c, s, i, a), steps[1..], t);
    }
  }
}
