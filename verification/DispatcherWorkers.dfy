/** What workers do with pages and streams, and what callers of the gate are told, over every run. */
module DispatcherWorkers {
  import opened Dispatcher
  import opened DispatcherSafety
  import opened DispatcherGate

  // ----- dead letters -----

  predicate Spent(c: Config, p: Page) {
    p.retries == c.maxRetries && p.attempts == c.maxRetries + 1
  }

  predicate BuriedSpent(c: Config, s: State) {
    s.cancelled ||
    ((forall k :: 0 <= k < |s.dead| ==> Spent(c, s.dead[k])) &&
     forall i :: 0 <= i < |s.workers| && s.workers[i].at.Burying? ==> Spent(c, s.workers[i].at.page))
  }

  lemma StepKeepsSpent(c: Config, s: State, step: Step)
    requires Enabled(c, s, step) && AttemptsBounded(c, s) && BuriedSpent(c, s)
    ensures BuriedSpent(c, Next(c, s, step))
  {
    match step
    case Work(i, a) =>
      assert AttemptsAt(c, s.workers[i]);
      assert Next(c, s, step) == WorkerNext(c, s, i, a);
    case Produce(p, a) => assert Next(c, s, step) == ProducerNext(c, s, p, a);
    case _ =>
  }

  lemma {:induction false} RunKeepsSpent(c: Config, s: State, steps: seq<Step>, t: State)
    requires Run(c, s, steps, t) && AttemptsBounded(c, s) && BuriedSpent(c, s)
    ensures BuriedSpent(c, t)
    decreases |steps|
  {
    if steps != [] {
      StepKeepsSpent(c, s, steps[0]);
      StepKeepsAttempts(c, s, steps[0]);
      RunKeepsSpent(c, Next(c, s, steps[0]), steps[1..], t);
    }
  }

  /** Short of cancellation no page is given up early: a dead letter was tried maxRetries + 1 times. */
  lemma DeadLettersAreSpent(c: Config, s: State, k: nat)
    requires Reachable(c, s) && !s.cancelled && k < |s.dead|
    ensures s.dead[k].attempts == c.maxRetries + 1 && s.dead[k].retries == c.maxRetries
  {
    var steps :| Run(c, Init(c), steps, s);
    InitInv(c);
    RunKeepsSpent(c, Init(c), steps, s);
  }

  // ----- the order of pages -----

  /** The channel holds what was admitted last, in that order. */
  predicate HoldsLatest(s: State) {
    |s.chan| <= |s.admitted| && s.chan == s.admitted[|s.admitted| - |s.chan|..]
  }

  lemma SendKeepsOrder(s: State, page: Page, t: State)
    requires HoldsLatest(s) && t.chan == s.chan + [page] && t.admitted == s.admitted + [page]
    ensures HoldsLatest(t)
  {
  }

  lemma ProducerKeepsOrder(c: Config, s: State, p: nat, a: ProducerAct)
    requires ProducerEnabled(c, s, p, a) && HoldsLatest(s)
    ensures HoldsLatest(ProducerNext(c, s, p, a))
  {
    if a.SendPage? {
      SendKeepsOrder(s, NewPage(s.producers[p].nonces), ProducerNext(c, s, p, a));
    } else {
      var t := ProducerNext(c, s, p, a);
      assert t.chan == s.chan && t.admitted == s.admitted;
    }
  }

  lemma WorkerKeepsOrder(c: Config, s: State, i: nat, a: WorkerAct)
    requires WorkerEnabled(c, s, i, a) && HoldsLatest(s) && !a.Requeue?
    ensures HoldsLatest(WorkerNext(c, s, i, a))
  {
    var t := WorkerNext(c, s, i, a);
    assert t.admitted == s.admitted && t.chan == if a.Receive? then s.chan[1..] else s.chan;
  }

  lemma StepKeepsOrder(c: Config, s: State, step: Step)
    requires Enabled(c, s, step) && HoldsLatest(s) && !(step.Work? && step.wa.Requeue?)
    ensures HoldsLatest(Next(c, s, step))
  {
    match step
    case Work(i, a) => WorkerKeepsOrder(c, s, i, a);
    case Produce(p, a) => ProducerKeepsOrder(c, s, p, a);
    case _ =>
  }

  /** As long as no page is re-queued, workers take the pages in the order in which they were handed over. */
  lemma {:induction false} QueueIsFifo(c: Config, s: State, steps: seq<Step>, t: State)
    requires Run(c, s, steps, t) && HoldsLatest(s)
    requires forall k :: 0 <= k < |steps| ==> !(steps[k].Work? && steps[k].wa.Requeue?)
    ensures |t.chan| <= |t.admitted| && t.chan == t.admitted[|t.admitted| - |t.chan|..]
    decreases |steps|
  {
    if steps != [] {
      StepKeepsOrder(c, s, steps[0]);
      QueueIsFifo(c, Next(c, s, steps[0]), steps[1..], t);
    }
  }

  // ----- streams -----

  /** Worker i is between taking its page off the buffer count and the end of the send. */
  predicate OnStream(s: State, i: nat)
    requires i < |s.workers|
  {
    var at := s.workers[i].at;
    at.Signalling? || at.Numbering? || at.Fetching? || at.Sending?
  }

  /** Worker i opens a stream in these steps. */
  predicate Opens(steps: seq<Step>, i: nat) {
    Work(i, Open(true)) in steps
  }

  predicate LosesStream(steps: seq<Step>, i: nat) {
    Work(i, Send(false)) in steps
  }

  /** Worker i has no stream and is not about to use one. */
  predicate OffStream(s: State, i: nat) {
    i < |s.workers| && !s.workers[i].stream && !OnStream(s, i)
  }

  lemma StepKeepsOffStream(c: Config, s: State, step: Step, i: nat)
    requires Enabled(c, s, step) && OffStream(s, i) && step != Work(i, Open(true))
    ensures OffStream(Next(c, s, step), i)
  {
    match step
    case Work(k, a) => assert Next(c, s, step) == WorkerNext(c, s, k, a);
    case Produce(p, a) => assert Next(c, s, step) == ProducerNext(c, s, p, a);
    case _ =>
  }

  lemma {:induction false} NoStreamNoSend(c: Config, s: State, steps: seq<Step>, t: State, i: nat)
    requires Run(c, s, steps, t) && OffStream(s, i) && !Opens(steps, i)
    ensures OffStream(t, i)
    decreases |steps|
  {
    if steps != [] {
      assert steps[0] in steps;
      StepKeepsOffStream(c, s, steps[0], i);
      NoStreamNoSend(c, Next(c, s, steps[0]), steps[1..], t, i);
    }
  }

  /** After a failed send the stream is not used again: until the worker opens another one it sends nothing. */
  lemma FailedSendNeedsReopen(c: Config, s: State, i: nat, steps: seq<Step>, t: State)
    requires Enabled(c, s, Work(i, Send(false))) && Run(c, Next(c, s, Work(i, Send(false))), steps, t) && !Opens(steps, i)
    ensures i < |t.workers| && !OnStream(t, i)
  {
    NoStreamNoSend(c, WorkerNext(c, s, i, Send(false)), steps, t, i);
  }

  /** A stream that never failed is kept: as long as no send fails the worker opens no other one. */
  lemma {:induction false} HealthyStreamIsKept(c: Config, s: State, steps: seq<Step>, t: State, i: nat)
    requires Run(c, s, steps, t) && i < |s.workers| && s.workers[i].stream && !LosesStream(steps, i)
    ensures i < |t.workers| && t.workers[i].stream
    ensures forall k :: 0 <= k < |steps| ==> !(steps[k].Work? && steps[k].i == i && steps[k].wa.Open?)
    decreases |steps|
  {
    if steps != [] {
      var n := Next(c, s, steps[0]);
      assert steps[0] in steps && steps[0] != Work(i, Send(false));
      if steps[0].Work? {
        assert n == WorkerNext(c, s, steps[0].i, steps[0].wa);
      } else if steps[0].Produce? {
        assert n == ProducerNext(c, s, steps[0].p, steps[0].pa);
      }
      HealthyStreamIsKept(c, n, steps[1..], t, i);
      forall k | 0 <= k < |steps| ensures !(steps[k].Work? && steps[k].i == i && steps[k].wa.Open?) {
        if k > 0 {
          assert steps[k] == steps[1..][k - 1];
        }
      }
    }
  }

  // ----- the gate's callers -----

  /** A worker's resume, CloseInput and a watcher each wake every sleeper. */
  lemma BroadcastsWakeAll(c: Config, s: State, step: Step)
    requires Enabled(c, s, step)
    requires (step.Work? && step.wa.Signal?) || (step.Close? && step.ca.CloserBroadcast?) || step.WatcherFires?
    ensures forall p :: 0 <= p < |s.producers| ==> !Next(c, s, step).producers[p].Asleep?
  {
  }

  /** Still inside the gate, or told that the session is cancelled. */
  predicate GateRefuses(at: Producer) {
    InGate(at) || at == Idle(false)
  }

  /** Producer p starts another call. */
  predicate Calls(step: Step, p: nat) {
    step.Produce? && step.p == p && (step.pa.Gate? || step.pa.Enqueue?)
  }

  /** Whoever is inside the gate when the session is cancelled, asleep or not, gets an error and never a go-ahead. */
  lemma {:induction false} CancelledGateRefuses(c: Config, s: State, steps: seq<Step>, t: State, p: nat)
    requires Run(c, s, steps, t) && s.cancelled && p < |s.producers| && GateRefuses(s.producers[p])
    requires forall k :: 0 <= k < |steps| ==> !Calls(steps[k], p)
    ensures p < |t.producers| && GateRefuses(t.producers[p])
    decreases |steps|
  {
    if steps != [] {
      var n := Next(c, s, steps[0]);
      assert !Calls(steps[0], p);
      if steps[0].Work? {
        assert n == WorkerNext(c, s, steps[0].i, steps[0].wa);
      } else if steps[0].Produce? {
        assert n == ProducerNext(c, s, steps[0].p, steps[0].pa);
      }
      CancelledGateRefuses(c, n, steps[1..], t, p);
    }
  }
}
