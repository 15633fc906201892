/** The flow-control gate: no lost resume, and exactly when a wake-up can be missed. */
module DispatcherGate {
  import opened Options
  import opened Sums
  import opened Dispatcher
  import opened DispatcherSafety

  predicate InLock(p: Producer) {
    p.GateHolding? || p.GateDecided?
  }

  /** Asleep, or committed to sleeping while still holding pauseMu. */
  predicate Sleepy(p: Producer) {
    p.GateDecided? || p.Asleep?
  }

  predicate InGate(p: Producer) {
    p.GateWanting? || p.GateHolding? || p.GateDecided? || p.Asleep? || p.GateLeaving?
  }

  predicate LockOk(s: State) {
    (s.lock.Some? ==> s.lock.value < |s.producers|) &&
    forall k :: 0 <= k < |s.producers| ==> (InLock(s.producers[k]) <==> s.lock == Some(k))
  }

  /** Some worker is between the decrement that crossed the resume threshold and its broadcast. */
  predicate SomeSignalling(s: State) {
    exists i :: 0 <= i < |s.workers| && s.workers[i].at.Signalling?
  }

  predicate ResumeOk(c: Config, s: State) {
    forall k :: 0 <= k < |s.producers| && Sleepy(s.producers[k]) ==> s.count >= c.resume || SomeSignalling(s)
  }

  predicate WatcherOk(s: State) {
    s.watchers !! s.missed &&
    forall k :: 0 <= k < |s.producers| ==>
      (InGate(s.producers[k]) ==> k in s.watchers || s.cancelled) &&
      (Sleepy(s.producers[k]) ==> k in s.watchers || k in s.missed)
  }

  predicate GateInv(c: Config, s: State) {
    LockOk(s) && ResumeOk(c, s) && WatcherOk(s)
  }

  /** How a worker step touches the gate. */
  lemma WorkerAtGate(c: Config, s: State, i: nat, a: WorkerAct)
    requires WorkerEnabled(c, s, i, a)
    ensures var e, w, w' := WorkerEffect(c, s, i, a), s.workers[i], WorkerMoves(c, s, i, a);
            (s.count + e.addCount < c.resume ==> s.count < c.resume || w'.at.Signalling?) &&
            (w.at.Signalling? ==> e.wake && s.lock.None?) &&
            (e.wake ==> s.lock.None?)
  {
  }

  lemma WorkerKeepsGate(c: Config, s: State, i: nat, a: WorkerAct)
    requires WorkerEnabled(c, s, i, a) && GateInv(c, s)
    ensures GateInv(c, WorkerNext(c, s, i, a))
  {
    var s' := WorkerNext(c, s, i, a);
    WorkerAtGate(c, s, i, a);
    forall k | 0 <= k < |s'.producers| && Sleepy(s'.producers[k]) ensures s'.count >= c.resume || SomeSignalling(s') {
      assert Sleepy(s.producers[k]);
      if !WorkerEffect(c, s, i, a).wake {
        if s.count >= c.resume {
          if s'.count < c.resume {
            assert s'.workers[i].at.Signalling?;
          }
        } else {
          var j :| 0 <= j < |s.workers| && s.workers[j].at.Signalling?;
          assert s'.workers[j].at.Signalling?;
        }
      }
    }
  }

  lemma ProducerKeepsGate(c: Config, s: State, p: nat, a: ProducerAct)
    requires c.Valid() && ProducerEnabled(c, s, p, a) && GateInv(c, s)
    ensures GateInv(c, ProducerNext(c, s, p, a))
  {
    var s' := ProducerNext(c, s, p, a);
    ProducerAtGate(c, s, p, a);
    forall k | 0 <= k < |s'.producers| && Sleepy(s'.producers[k]) ensures s'.count >= c.resume || SomeSignalling(s') {
      if s.count < c.resume {
        assert Sleepy(s.producers[k]);
        var j :| 0 <= j < |s.workers| && s.workers[j].at.Signalling?;
        assert s'.workers[j].at.Signalling?;
      }
    }
    forall k | 0 <= k < |s'.producers| ensures InLock(s'.producers[k]) <==> s'.lock == Some(k) {
      if k != p {
        assert s'.producers[k] == s.producers[k];
        assert InLock(s.producers[p]) <==> s.lock == Some(p);
      }
    }
  }

  /** How a producer step touches the gate. */
  lemma ProducerAtGate(c: Config, s: State, p: nat, a: ProducerAct)
    requires c.Valid() && ProducerEnabled(c, s, p, a)
    ensures var e, q, q', l := ProducerEffect(c, s, p, a), s.producers[p], ProducerMoves(c, s, p, a), LockAfter(c, s, p, a);
            e.addCount >= 0 &&
            (Sleepy(q') && !Sleepy(q) ==> q.GateHolding? && !s.cancelled && s.count >= c.pause > c.resume) &&
            (InLock(q') && !InLock(q) ==> s.lock.None? && l == Some(p)) &&
            (InLock(q) ==> l == if InLock(q') then s.lock else None) &&
            (!InLock(q) && !InLock(q') ==> l == s.lock) &&
            (InGate(q') && !InGate(q) ==> a.Gate? && s.count >= c.pause) &&
            (InGate(q') ==> !a.ReturnGate?) && (a.Gate? ==> !InGate(q) && !Sleepy(q'))
  {
  }

  /** Broadcasts and cancellation: a watcher only goes away with a broadcast, noting whom that misses. */
  lemma OthersKeepGate(c: Config, s: State, s': State)
    requires GateInv(c, s)
    requires s'.workers == s.workers && s'.count == s.count && s'.lock == s.lock && (s.cancelled ==> s'.cancelled)
    requires s'.producers == s.producers || s'.producers == WakeAll(s.producers)
    requires s.missed <= s'.missed && s'.watchers <= s.watchers && s'.watchers !! s'.missed
    requires forall k :: 0 <= k < |s.producers| && k in s.watchers && k !in s'.watchers ==>
               s'.cancelled && s'.producers == WakeAll(s.producers) && (s.producers[k].GateDecided? ==> k in s'.missed)
    ensures GateInv(c, s')
  {
    assert SomeSignalling(s) ==> SomeSignalling(s');
    forall k | 0 <= k < |s'.producers|
      ensures InLock(s'.producers[k]) <==> InLock(s.producers[k])
      ensures Sleepy(s'.producers[k]) ==> Sleepy(s.producers[k])
      ensures InGate(s'.producers[k]) ==> InGate(s.producers[k])
    {
    }
  }

  lemma StepKeepsGate(c: Config, s: State, step: Step)
    requires c.Valid() && Enabled(c, s, step) && GateInv(c, s)
    ensures GateInv(c, Next(c, s, step))
  {
    match step
    case Work(i, a) =>
      WorkerKeepsGate(c, s, i, a);
      assert Next(c, s, step) == WorkerNext(c, s, i, a);
    case Produce(p, a) =>
      ProducerKeepsGate(c, s, p, a);
      assert Next(c, s, step) == ProducerNext(c, s, p, a);
    case _ => OthersKeepGate(c, s, Next(c, s, step));
  }

  lemma {:induction false} RunKeepsGate(c: Config, s: State, steps: seq<Step>, t: State)
    requires c.Valid() && Run(c, s, steps, t) && GateInv(c, s)
    ensures GateInv(c, t)
    decreases |steps|
  {
    if steps != [] {
      StepKeepsGate(c, s, steps[0]);
      RunKeepsGate(c, Next(c, s, steps[0]), steps[1..], t);
    }
  }

  lemma ReachableGate(c: Config, s: State)
    requires c.Valid() && Reachable(c, s)
    ensures GateInv(c, s)
  {
    var steps :| Run(c, Init(c), steps, s);
    RunKeepsGate(c, Init(c), steps, s);
  }

  /**
   No lost resume: while a producer sleeps, the count is at or above the resume threshold or a worker that
   saw it below is still on its way to the broadcast.
   */
  lemma NoLostResume(c: Config, s: State, p: nat)
    requires c.Valid() && Reachable(c, s) && p < |s.producers| && s.producers[p].Asleep?
    ensures s.count >= c.resume || SomeSignalling(s)
  {
    ReachableGate(c, s);
    assert Sleepy(s.producers[p]);
  }

  /** Nothing is buffered and no goroutine is between a channel operation and its counter update. */
  predicate Drained(s: State) {
    s.chan == [] &&
    (forall i :: 0 <= i < |s.workers| ==> s.workers[i].at.Selecting? || s.workers[i].at.Exited?) &&
    (forall k :: 0 <= k < |s.producers| ==> !s.producers[k].Crediting?)
  }

  /** On a drained dispatcher the buffer count is what failed stream opens left behind, nothing else. */
  lemma DrainedCount(c: Config, s: State)
    requires c.Valid() && Reachable(c, s) && Drained(s)
    ensures s.count == s.leak
  {
    ReachableInv(c, s);
    SumByConstant(s.workers, Owes(), 0);
    SumByConstant(s.producers, ToCredit(), 0);
  }

  /** A drained dispatcher leaves nobody asleep as long as the leak stays below the resume threshold. */
  lemma DrainedWakesAll(c: Config, s: State)
    requires c.Valid() && Reachable(c, s) && Drained(s) && s.leak < c.resume
    ensures forall k :: 0 <= k < |s.producers| ==> !s.producers[k].Asleep?
  {
    DrainedCount(c, s);
    forall k | 0 <= k < |s.producers| ensures !s.producers[k].Asleep? {
      if s.producers[k].Asleep? {
        NoLostResume(c, s, k);
      }
    }
  }

  /**
   A sleeper has a live watcher that will wake it on cancellation exactly when no watcher of its fired in the
   window between its decision to sleep and the Wait call.
   */
  lemma CancelledSleeper(c: Config, s: State, p: nat)
    requires c.Valid() && Reachable(c, s) && p < |s.producers| && s.producers[p].Asleep?
    ensures p in s.watchers <==> p !in s.missed
  {
    ReachableGate(c, s);
    assert Sleepy(s.producers[p]);
  }

  /** Once no producer is inside the gate, its lock is free. */
  lemma IdleLeavesLockFree(c: Config, s: State)
    requires c.Valid() && Reachable(c, s) && forall k :: 0 <= k < |s.producers| ==> s.producers[k].Idle?
    ensures s.lock.None?
  {
    ReachableGate(c, s);
    assert s.lock.Some? ==> InLock(s.producers[s.lock.value]);
  }
}
