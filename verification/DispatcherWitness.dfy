/** Runs that show where the dispatcher's comments promise more than the code gives. */
module DispatcherWitness {
  import opened Options
  import opened Dispatcher
  import opened DispatcherGate
  import opened DispatcherProgress

  // ----- building blocks -----

  /** Appending nothing to any of the logs changes nothing. */
  lemma Unchanged(s: State)
    ensures s.chan + [] == s.chan && s.delivered + [] == s.delivered && s.dead + [] == s.dead
    ensures s.offered + [] == s.offered && s.admitted + [] == s.admitted && s.refused + [] == s.refused
  {
  }

  lemma WorkReachable(c: Config, s: State, i: nat, a: WorkerAct)
    requires Reachable(c, s) && WorkerEnabled(c, s, i, a)
    ensures Reachable(c, WorkerNext(c, s, i, a))
  {
    ReachableStep(c, s, Work(i, a));
  }

  lemma ProduceReachable(c: Config, s: State, p: nat, a: ProducerAct)
    requires Reachable(c, s) && ProducerEnabled(c, s, p, a)
    ensures Reachable(c, ProducerNext(c, s, p, a))
  {
    ReachableStep(c, s, Produce(p, a));
  }

  /** A step without effect on the shared fields. */
  lemma PlainWork(c: Config, s: State, i: nat, a: WorkerAct) returns (t: State)
    requires Reachable(c, s) && WorkerEnabled(c, s, i, a) && WorkerEffect(c, s, i, a) == QUIET
    ensures Reachable(c, t) && t == s.(workers := s.workers[i := WorkerMoves(c, s, i, a)])
  {
    Unchanged(s);
    t := WorkerNext(c, s, i, a);
    WorkReachable(c, s, i, a);
  }

  lemma StartEnqueue(c: Config, s: State, nonces: seq<Nonce>) returns (t: State)
    requires Reachable(c, s) && |s.producers| > 0 && s.producers[0].Idle? && !s.inputClosed && nonces != []
    ensures Reachable(c, t)
    ensures t == s.(producers := s.producers[0 := Counted(nonces)], inflight := s.inflight + 1,
                    offered := s.offered + [NewPage(nonces)])
  {
    Unchanged(s);
    var s1 := ProducerNext(c, s, 0, Enqueue(nonces));
    ProduceReachable(c, s, 0, Enqueue(nonces));
    assert s1 == s.(producers := s.producers[0 := Checked(nonces)], offered := s.offered + [NewPage(nonces)]);
    Unchanged(s1);
    t := ProducerNext(c, s1, 0, Count);
    ProduceReachable(c, s1, 0, Count);
    assert t.producers == s.producers[0 := Counted(nonces)];
  }

  lemma SendCounted(c: Config, s: State) returns (t: State)
    requires Reachable(c, s) && |s.producers| > 0 && s.producers[0].Counted? && |s.chan| < c.cap
    ensures Reachable(c, t)
    ensures var page := NewPage(s.producers[0].nonces);
            t == s.(producers := s.producers[0 := Crediting(|page.nonces|)], chan := s.chan + [page],
                    admitted := s.admitted + [page])
  {
    Unchanged(s);
    t := ProducerNext(c, s, 0, SendPage);
    ProduceReachable(c, s, 0, SendPage);
  }

  lemma CreditSent(c: Config, s: State) returns (t: State)
    requires Reachable(c, s) && |s.producers| > 0 && s.producers[0].Crediting?
    ensures Reachable(c, t)
    ensures t == s.(producers := s.producers[0 := Idle(true)], count := s.count + s.producers[0].count)
  {
    Unchanged(s);
    t := ProducerNext(c, s, 0, Credit);
    ProduceReachable(c, s, 0, Credit);
  }

  /** Producer 0 enqueues one page. */
  lemma EnqueueOne(c: Config, s: State, nonces: seq<Nonce>) returns (t: State)
    requires Reachable(c, s) && |s.producers| > 0 && s.producers[0] == Idle(true)
    requires !s.inputClosed && |s.chan| < c.cap && nonces != []
    ensures Reachable(c, t)
    ensures t == s.(chan := s.chan + [NewPage(nonces)], inflight := s.inflight + 1, count := s.count + |nonces|,
                    offered := s.offered + [NewPage(nonces)], admitted := s.admitted + [NewPage(nonces)])
  {
    var s1 := StartEnqueue(c, s, nonces);
    var s2 := SendCounted(c, s1);
    t := CreditSent(c, s2);
    assert t.producers == s.producers;
  }

  lemma Take(c: Config, s: State, i: nat) returns (t: State)
    requires Reachable(c, s) && i < |s.workers| && s.workers[i].at.Selecting? && |s.chan| > 0
    ensures Reachable(c, t)
    ensures t == s.(chan := s.chan[1..],
                    workers := s.workers[i := s.workers[i].(at := Holding(s.chan[0].(attempts := s.chan[0].attempts + 1)))])
  {
    Unchanged(s);
    assert s.chan[1..] + [] == s.chan[1..];
    t := WorkerNext(c, s, i, Receive);
    WorkReachable(c, s, i, Receive);
  }

  lemma FailOpen(c: Config, s: State, i: nat) returns (t: State)
    requires Reachable(c, s) && i < |s.workers| && s.workers[i].at.Holding? && !s.workers[i].stream
    ensures Reachable(c, t)
    ensures t == s.(leak := s.leak + |s.workers[i].at.page.nonces|,
                    workers := s.workers[i := s.workers[i].(at := Failing(s.workers[i].at.page))])
  {
    Unchanged(s);
    t := WorkerNext(c, s, i, Open(false));
    WorkReachable(c, s, i, Open(false));
  }

  /** Worker i takes the first page and cannot open its stream. */
  lemma TakeAndFail(c: Config, s: State, i: nat) returns (t: State)
    requires Reachable(c, s) && i < |s.workers| && s.workers[i] == Worker(Selecting, false) && |s.chan| > 0
    ensures Reachable(c, t)
    ensures var page := s.chan[0].(attempts := s.chan[0].attempts + 1);
            t == s.(chan := s.chan[1..], leak := s.leak + |page.nonces|,
                    workers := s.workers[i := Worker(AfterFailure(c, page), false)])
  {
    var s1 := Take(c, s, i);
    var s2 := FailOpen(c, s1, i);
    assert s2 == s.(chan := s.chan[1..], leak := s2.leak, workers := s.workers[i := s2.workers[i]]);
    t := DecideFailed(c, s2, i);
    assert t.workers == s.workers[i := t.workers[i]];
  }

  function AfterFailure(c: Config, page: Page): WorkerAt {
    if page.retries < c.maxRetries then Requeueing(page.(retries := page.retries + 1)) else Burying(page)
  }

  lemma DecideFailed(c: Config, s: State, i: nat) returns (t: State)
    requires Reachable(c, s) && i < |s.workers| && s.workers[i].at.Failing?
    ensures Reachable(c, t)
    ensures var page := s.workers[i].at.page;
            t == s.(workers := s.workers[i := s.workers[i].(at := AfterFailure(c, page))])
  {
    t := PlainWork(c, s, i, Decide);
  }

  /** Worker i finalises while the input is still open. */
  lemma FinaliseOpen(c: Config, s: State, i: nat) returns (t: State)
    requires Reachable(c, s) && i < |s.workers| && s.workers[i].at.Finalising? && !s.inputClosed
    ensures Reachable(c, t)
    ensures t == s.(inflight := s.inflight - 1, workers := s.workers[i := s.workers[i].(at := Selecting)])
  {
    Unchanged(s);
    var s1 := WorkerNext(c, s, i, Finalise);
    WorkReachable(c, s, i, Finalise);
    assert s1 == s.(inflight := s.inflight - 1, workers := s.workers[i := s.workers[i].(at := CheckingClosed)]);
    t := PlainWork(c, s1, i, LoadClosed);
    assert t.workers == s.workers[i := t.workers[i]];
  }

  /** Worker i takes the first page; the count stays at or above the resume threshold, so nobody is woken. */
  lemma TakeAndSubtract(c: Config, s: State, i: nat) returns (t: State)
    requires Reachable(c, s) && i < |s.workers| && s.workers[i].at.Selecting? && |s.chan| > 0
    requires s.count - |s.chan[0].nonces| >= c.resume
    ensures Reachable(c, t)
    ensures t == s.(chan := s.chan[1..], count := s.count - |s.chan[0].nonces|,
                    workers := s.workers[i := Worker(Numbering(s.chan[0].(attempts := s.chan[0].attempts + 1)), true)])
  {
    var s1 := Take(c, s, i);
    var s2 := OpenHeld(c, s1, i);
    t := SubtractHeld(c, s2, i);
    assert t.workers == s.workers[i := t.workers[i]];
  }

  /** A worker that holds a page has or opens a stream. */
  lemma OpenHeld(c: Config, s: State, i: nat) returns (t: State)
    requires Reachable(c, s) && i < |s.workers| && s.workers[i].at.Holding?
    ensures Reachable(c, t) && t == s.(workers := s.workers[i := s.workers[i].(stream := true)])
  {
    t := s;
    if s.workers[i].stream {
      assert s.workers[i := s.workers[i].(stream := true)] == s.workers;
    } else {
      t := PlainWork(c, s, i, Open(true));
    }
  }

  lemma SubtractHeld(c: Config, s: State, i: nat) returns (t: State)
    requires Reachable(c, s) && i < |s.workers| && s.workers[i].at.Holding? && s.workers[i].stream
    requires s.count - |s.workers[i].at.page.nonces| >= c.resume
    ensures Reachable(c, t)
    ensures t == s.(count := s.count - |s.workers[i].at.page.nonces|,
                    workers := s.workers[i := s.workers[i].(at := Numbering(s.workers[i].at.page))])
  {
    Unchanged(s);
    t := WorkerNext(c, s, i, Subtract);
    WorkReachable(c, s, i, Subtract);
  }

  lemma SendNumbered(c: Config, s: State, i: nat) returns (t: State)
    requires Reachable(c, s) && i < |s.workers| && s.workers[i].at.Fetching?
    ensures Reachable(c, t)
    ensures t == s.(delivered := s.delivered + [s.workers[i].at.page],
                    workers := s.workers[i := s.workers[i].(at := Finalising)])
  {
    var s1 := PlainWork(c, s, i, Fetch(true));
    Unchanged(s1);
    t := WorkerNext(c, s1, i, Send(true));
    WorkReachable(c, s1, i, Send(true));
    assert t.workers == s.workers[i := t.workers[i]];
  }

  lemma DeliverNumbered(c: Config, s: State, i: nat) returns (t: State)
    requires Reachable(c, s) && i < |s.workers| && s.workers[i].at.Numbering? && !s.inputClosed
    ensures Reachable(c, t)
    ensures t == s.(inflight := s.inflight - 1, sequence := t.sequence, delivered := t.delivered,
                    workers := s.workers[i := s.workers[i].(at := Selecting)])
  {
    Unchanged(s);
    var s1 := WorkerNext(c, s, i, Number);
    WorkReachable(c, s, i, Number);
    assert s1 == s.(sequence := s1.sequence, workers := s.workers[i := s1.workers[i]]);
    var s2 := SendNumbered(c, s1, i);
    t := FinaliseOpen(c, s2, i);
    assert t.workers == s.workers[i := t.workers[i]];
  }

  lemma EnterGate(c: Config, s: State) returns (t: State)
    requires Reachable(c, s) && |s.producers| > 0 && s.producers[0].Idle? && s.count >= c.pause
    ensures Reachable(c, t)
    ensures t == s.(producers := s.producers[0 := GateWanting], watchers := s.watchers + {0}, missed := s.missed - {0})
  {
    Unchanged(s);
    t := ProducerNext(c, s, 0, Gate);
    ProduceReachable(c, s, 0, Gate);
  }

  lemma LockGate(c: Config, s: State) returns (t: State)
    requires Reachable(c, s) && |s.producers| > 0 && s.producers[0].GateWanting? && s.lock.None?
    ensures Reachable(c, t)
    ensures t == s.(producers := s.producers[0 := GateHolding], lock := Some(0))
  {
    Unchanged(s);
    t := ProducerNext(c, s, 0, Lock);
    ProduceReachable(c, s, 0, Lock);
  }

  /** Producer 0 finds the count at the pause threshold and decides to sleep. */
  lemma DecideToSleep(c: Config, s: State) returns (t: State)
    requires Reachable(c, s) && |s.producers| > 0 && s.producers[0] == Idle(true)
    requires s.lock.None? && !s.cancelled && s.count >= c.pause
    ensures Reachable(c, t)
    ensures t == s.(producers := s.producers[0 := GateDecided], lock := Some(0), watchers := s.watchers + {0},
                    missed := s.missed - {0})
  {
    var s1 := EnterGate(c, s);
    var s2 := LockGate(c, s1);
    t := EvaluateTrue(c, s2);
    assert t.producers == s.producers[0 := GateDecided];
  }

  lemma EvaluateTrue(c: Config, s: State) returns (t: State)
    requires Reachable(c, s) && |s.producers| > 0 && s.producers[0].GateHolding? && !s.cancelled && s.count >= c.pause
    ensures Reachable(c, t) && t == s.(producers := s.producers[0 := GateDecided])
  {
    Unchanged(s);
    t := ProducerNext(c, s, 0, Evaluate);
    ProduceReachable(c, s, 0, Evaluate);
  }

  lemma FallAsleep(c: Config, s: State) returns (t: State)
    requires Reachable(c, s) && |s.producers| > 0 && s.producers[0] == GateDecided
    ensures Reachable(c, t)
    ensures t == s.(producers := s.producers[0 := Asleep], lock := None)
  {
    Unchanged(s);
    t := ProducerNext(c, s, 0, Sleep);
    ProduceReachable(c, s, 0, Sleep);
  }

  lemma InitReachable(c: Config)
    ensures Reachable(c, Init(c))
  {
    assert Run(c, Init(c), [], Init(c));
  }

  function Filler(n: nat): (r: seq<Nonce>)
    ensures |r| == n
  {
    seq(n, _ => 0)
  }

  // ----- the gate -----

  lemma RestoreCount(c: Config, s: State) returns (t: State)
    requires Reachable(c, s) && |s.workers| > 0 && s.workers[0].at.Restoring?
    ensures Reachable(c, t)
    ensures t == s.(count := s.count + s.workers[0].at.count, workers := s.workers[0 := s.workers[0].(at := Selecting)])
  {
    Unchanged(s);
    t := WorkerNext(c, s, 0, Restore);
    WorkReachable(c, s, 0, Restore);
  }

  /** A page back in the channel is credited again, taken and delivered; nothing it counted is left behind. */
  lemma RestoreAndDeliver(c: Config, s: State) returns (t: State)
    requires Reachable(c, s) && |s.workers| > 0 && s.workers[0].at.Restoring? && !s.workers[0].stream && !s.inputClosed
    requires |s.chan| == 1 && |s.chan[0].nonces| == s.workers[0].at.count && s.count >= c.resume
    ensures Reachable(c, t)
    ensures t == s.(chan := [], inflight := s.inflight - 1, sequence := t.sequence, delivered := t.delivered,
                    workers := s.workers[0 := Worker(Selecting, true)])
  {
    var s1 := RestoreCount(c, s);
    var s2 := TakeAndSubtract(c, s1, 0);
    assert s2.chan == [] && s2.count == s.count;
    assert s2.workers == s.workers[0 := s2.workers[0]];
    t := DeliverNumbered(c, s2, 0);
    assert t.workers == s.workers[0 := Worker(Selecting, true)];
  }

  lemma PutBack(c: Config, s: State) returns (t: State)
    requires Reachable(c, s) && |s.workers| > 0 && s.workers[0].at.Requeueing? && s.chan == [] && c.cap > 0
    ensures Reachable(c, t)
    ensures var page := s.workers[0].at.page;
            t == s.(chan := [page], workers := s.workers[0 := s.workers[0].(at := Restoring(|page.nonces|))])
  {
    Unchanged(s);
    t := WorkerNext(c, s, 0, Requeue);
    WorkReachable(c, s, 0, Requeue);
  }

  /** Worker 0, blocked re-queuing with room in the channel, puts its page back; the page is delivered later. */
  lemma RequeueAndDeliver(c: Config, s: State) returns (t: State)
    requires Reachable(c, s) && |s.workers| > 0 && s.workers[0].at.Requeueing? && !s.workers[0].stream && !s.inputClosed
    requires s.chan == [] && c.cap > 0 && s.count >= c.resume
    ensures Reachable(c, t)
    ensures t == s.(inflight := s.inflight - 1, sequence := t.sequence, delivered := t.delivered,
                    workers := s.workers[0 := Worker(Selecting, true)])
  {
    var s1 := PutBack(c, s);
    t := RestoreAndDeliver(c, s1);
    assert t.workers == s.workers[0 := Worker(Selecting, true)];
  }

  /** Worker 0 dead-letters its page. */
  lemma BuryAndFinalise(c: Config, s: State) returns (t: State)
    requires Reachable(c, s) && |s.workers| > 0 && s.workers[0].at.Burying? && !s.inputClosed
    ensures Reachable(c, t)
    ensures t == s.(inflight := s.inflight - 1, dead := t.dead, workers := s.workers[0 := s.workers[0].(at := Selecting)])
  {
    Unchanged(s);
    var s1 := WorkerNext(c, s, 0, Bury);
    WorkReachable(c, s, 0, Bury);
    assert s1 == s.(dead := s1.dead, workers := s.workers[0 := s1.workers[0]]);
    t := FinaliseOpen(c, s1, 0);
    assert t.workers == s.workers[0 := t.workers[0]];
  }

  /** A page of n nonces that failed to open its stream once, was re-queued or buried, and is gone. */
  lemma OneOpenFailure(c: Config, n: nat) returns (t: State)
    requires c.Valid() && c.producers > 0 && n > 0 && n >= c.resume
    ensures Reachable(c, t) && Drained(t) && t.producers == Init(c).producers && t.lock.None? && !t.cancelled && !t.inputClosed
    ensures t.leak == t.count == n && t.inflight == 0 && |t.workers| > 0 && t.workers[0].at.Selecting?
  {
    InitReachable(c);
    var s1 := EnqueueOne(c, Init(c), Filler(n));
    var s2 := TakeAndFail(c, s1, 0);
    assert s2.chan == [];
    if c.maxRetries == 0 {
      t := BuryAndFinalise(c, s2);
    } else {
      t := RequeueAndDeliver(c, s2);
    }
  }

  /** Nothing buffered, nothing in flight, a leak of n, and a producer asleep. */
  predicate AsleepOnEmpty(s: State, n: nat) {
    Drained(s) && !s.cancelled && s.leak == n && s.inflight == 0 && exists p :: 0 <= p < |s.producers| && s.producers[p].Asleep?
  }

  /** Producer 0 goes to sleep on an idle dispatcher whose count is n, after filling up to the pause threshold. */
  lemma SleepOn(c: Config, s: State, n: nat) returns (t: State)
    requires c.Valid() && c.producers > 0 && n >= c.resume && Reachable(c, s) && Drained(s) && s.producers == Init(c).producers
    requires s.lock.None? && !s.cancelled && !s.inputClosed && s.leak == s.count == n && s.inflight == 0
    requires |s.workers| > 0 && s.workers[0].at.Selecting?
    ensures Reachable(c, t) && AsleepOnEmpty(t, n)
  {
    if n >= c.pause {
      var s1 := DecideToSleep(c, s);
      t := FallAsleep(c, s1);
    } else {
      var s1 := EnqueueOne(c, s, Filler(c.pause - n));
      t := SleepBehindPage(c, s1, n);
    }
    assert t.producers[0].Asleep?;
  }

  /** Producer 0 falls asleep behind one page, which is then delivered. */
  lemma SleepBehindPage(c: Config, s: State, n: nat) returns (t: State)
    requires Reachable(c, s) && |s.producers| > 0 && s.producers[0] == Idle(true) && s.lock.None? && !s.cancelled
    requires |s.chan| == 1 && s.count >= c.pause && s.count - |s.chan[0].nonces| == n >= c.resume && !s.inputClosed
    requires |s.workers| > 0 && s.workers[0].at.Selecting?
    ensures Reachable(c, t) && t.chan == [] && t.producers == s.producers[0 := Asleep] && !t.cancelled
    ensures t.leak == s.leak && t.inflight == s.inflight - 1 && t.workers == s.workers[0 := Worker(Selecting, true)]
  {
    var s1 := DecideToSleep(c, s);
    var s2 := FallAsleep(c, s1);
    t := SleepThroughDelivery(c, s2, n);
  }

  /** The last page is delivered without anyone being woken. */
  lemma SleepThroughDelivery(c: Config, s: State, n: nat) returns (t: State)
    requires Reachable(c, s) && |s.chan| == 1 && s.count - |s.chan[0].nonces| == n >= c.resume && !s.inputClosed
    requires |s.workers| > 0 && s.workers[0].at.Selecting?
    ensures Reachable(c, t) && t.chan == [] && t.producers == s.producers && t.cancelled == s.cancelled
    ensures t.leak == s.leak && t.inflight == s.inflight - 1 && t.workers == s.workers[0 := Worker(Selecting, true)]
  {
    var s1 := TakeAndSubtract(c, s, 0);
    t := DeliverNumbered(c, s1, 0);
    assert t.workers == s.workers[0 := Worker(Selecting, true)];
  }

  lemma LeakPutsToSleep(c: Config, n: nat) returns (t: State)
    requires c.Valid() && c.producers > 0 && n >= c.resume
    ensures Reachable(c, t) && AsleepOnEmpty(t, n)
  {
    var s;
    if n == 0 {
      InitReachable(c);
      s := Init(c);
    } else {
      s := OneOpenFailure(c, n);
    }
    t := SleepOn(c, s, n);
  }

  /**
   For every configuration and every leak n: a producer can be left asleep on an empty, uncancelled dispatcher
   whose failed stream opens left n behind exactly when n reaches the resume threshold.
   */
  lemma SleeperIff(c: Config, n: nat)
    requires c.Valid() && c.producers > 0
    ensures (exists t :: Reachable(c, t) && AsleepOnEmpty(t, n)) <==> n >= c.resume
  {
    if n >= c.resume {
      var t := LeakPutsToSleep(c, n);
    } else {
      forall t | Reachable(c, t) && Drained(t) && t.leak == n ensures !AsleepOnEmpty(t, n) {
        DrainedWakesAll(c, t);
      }
    }
  }

  /** A cancellation broadcast sent without pauseMu is missed by a producer that has just decided to sleep. */
  lemma CancelWakeMissed(c: Config) returns (t: State)
    requires c.Valid() && c.producers > 0
    ensures Reachable(c, t) && t.cancelled && |t.producers| > 0 && t.producers[0].Asleep? && 0 !in t.watchers && !SomeSignalling(t)
  {
    InitReachable(c);
    var s1 := EnqueueOne(c, Init(c), Filler(c.pause));
    var s2 := DecideToSleep(c, s1);
    var s3 := Next(c, s2, Cancel);
    ReachableStep(c, s2, Cancel);
    var s4 := Next(c, s3, WatcherFires(0));
    ReachableStep(c, s3, WatcherFires(0));
    t := FallAsleep(c, s4);
  }

  // ----- re-queuing on a full channel -----

  /** The first n workers are blocked re-queuing; the channel holds m pages. */
  predicate Clogged(c: Config, s: State, n: nat, m: nat) {
    |s.workers| == c.workers && |s.producers| == c.producers && n <= c.workers && c.producers > 0 &&
    (forall k :: 0 <= k < n ==> s.workers[k].at.Requeueing?) &&
    (forall k :: n <= k < c.workers ==> s.workers[k] == Worker(Selecting, false)) &&
    |s.chan| == m && s.inflight == n + m && !s.inputClosed && !s.cancelled && !s.done && s.producers[0] == Idle(true)
  }

  lemma {:induction false} ClogWorkers(c: Config, n: nat) returns (t: State)
    requires c.Valid() && c.producers > 0 && c.maxRetries > 0 && n <= c.workers
    ensures Reachable(c, t) && Clogged(c, t, n, 0)
  {
    if n == 0 {
      InitReachable(c);
      t := Init(c);
    } else {
      var s := ClogWorkers(c, n - 1);
      var s1 := EnqueueOne(c, s, [0]);
      t := TakeAndFail(c, s1, n - 1);
    }
  }

  lemma {:induction false} FillChannel(c: Config, m: nat) returns (t: State)
    requires c.Valid() && c.producers > 0 && c.maxRetries > 0 && m <= c.cap
    ensures Reachable(c, t) && Clogged(c, t, c.workers, m)
  {
    if m == 0 {
      t := ClogWorkers(c, c.workers);
    } else {
      var s := FillChannel(c, m - 1);
      t := EnqueueOne(c, s, [0]);
    }
  }

  /** Every worker is blocked re-queuing on a full channel. */
  predicate Stuck(c: Config, s: State) {
    AllRequeueing(s) && |s.chan| >= c.cap && !s.cancelled
  }

  /**
   The re-queue comment says the buffer always has capacity.  For every configuration with retries there is
   a run that blocks every worker on a full channel, with no more pages in flight than that takes.
   */
  lemma RequeueDeadlock(c: Config) returns (t: State)
    requires c.Valid() && c.producers > 0 && c.maxRetries > 0
    ensures Reachable(c, t) && Stuck(c, t) && t.inflight == c.cap + c.workers && !CanWork(c, t)
  {
    t := FillChannel(c, c.cap);
    forall i, a ensures !WorkerEnabled(c, t, i, a) {
    }
  }

  /** Such a state can be reached exactly when pages are retried at all. */
  lemma StuckIff(c: Config)
    requires c.Valid() && c.producers > 0
    ensures (exists t :: Reachable(c, t) && Stuck(c, t)) <==> c.maxRetries > 0
  {
    if c.maxRetries > 0 {
      var t := RequeueDeadlock(c);
    }
    forall t | Reachable(c, t) && Stuck(c, t) ensures c.maxRetries > 0 {
      StuckNeedsRetries(c, t);
    }
  }

  /** ... and from there on, short of cancellation, no step of anyone moves a page again. */
  lemma {:induction false} DeadlockIsPermanent(c: Config, s: State, steps: seq<Step>, t: State)
    requires Stuck(c, s) && Run(c, s, steps, t) && Cancel !in steps
    ensures t.chan == s.chan && t.workers == s.workers && t.delivered == s.delivered && t.dead == s.dead
    decreases |steps|
  {
    if steps != [] {
      var n := Next(c, s, steps[0]);
      DeadlockStep(c, s, steps[0]);
      DeadlockIsPermanent(c, n, steps[1..], t);
    }
  }

  lemma DeadlockStep(c: Config, s: State, step: Step)
    requires Stuck(c, s) && Enabled(c, s, step) && step != Cancel
    ensures var n := Next(c, s, step);
            n.chan == s.chan && n.workers == s.workers && n.delivered == s.delivered && n.dead == s.dead && !n.cancelled
  {
    match step
    case Work(i, a) => assert false;
    case Produce(p, a) =>
      assert ProducerEffect(c, s, p, a).put == ProducerEffect(c, s, p, a).deliver == ProducerEffect(c, s, p, a).bury == [];
    case _ =>
  }
}
