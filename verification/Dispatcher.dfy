/**
 The account dispatcher as a step machine.

 Any number of producers (the diff stage) and dispatch workers share a bounded page channel, atomic
 counters, a condition variable and a `done` latch.  One step is one atomic operation, one channel
 operation or one lock region; a run is any interleaving of enabled steps.  Callbacks (opening a
 stream, fetching, sending) appear as a success flag chosen by the environment.

 The fields `offered`, `admitted`, `refused`, `leak`, `cleanClose`, `missed` and `Page.attempts` are history:
 no step reads them.
 */
module Dispatcher {
  import opened Options

  type Nonce = nat

  const NUM_DIFF_PARENTS := 30

  /** A nonce page; index 0 means "not numbered yet"; attempts counts how often a worker took it. */
  datatype Page = Page(nonces: seq<Nonce>, retries: nat, index: nat, attempts: nat)

  /** The caller's configuration; producers is the number of diff goroutines that will call in. */
  datatype Settings = Settings(workers: int, pause: int, resumePct: int, pageSize: int, maxRetries: int, producers: nat)

  /** A constructed dispatcher's constants. */
  datatype Config = Config(workers: nat, pause: nat, resume: nat, cap: nat, maxRetries: nat, producers: nat) {

    predicate Valid() {
      0 < workers && resume < pause && 0 < cap
    }
  }

  /**
   Validation and construction.  The channel holds the pause threshold plus one page for each diff
   parent, rounded up to pages.
   */
  function New(t: Settings): (r: Option<Config>)
    ensures r.Some? <==> 0 < t.workers && 0 < t.pageSize <= t.pause && 0 < t.resumePct < 100 && 0 <= t.maxRetries
    ensures r.Some? ==> r.value.Valid() && r.value.resume * 100 <= t.pause * t.resumePct < (r.value.resume + 1) * 100
    ensures r.Some? ==> r.value.workers == t.workers && r.value.pause == t.pause
    ensures r.Some? ==> r.value.maxRetries == t.maxRetries && r.value.producers == t.producers
    ensures r.Some? ==> r.value.cap * t.pageSize >= t.pause + NUM_DIFF_PARENTS * t.pageSize
    ensures r.Some? ==> (r.value.cap - 1) * t.pageSize < t.pause + NUM_DIFF_PARENTS * t.pageSize
  {
    if t.workers <= 0 || t.pause <= 0 || t.resumePct <= 0 || t.resumePct >= 100 || t.pageSize <= 0 ||
       t.pageSize > t.pause || t.maxRetries < 0
    then None
    else
      var worstCase := t.pause + NUM_DIFF_PARENTS * t.pageSize;
      CeilingQuotient(worstCase, t.pageSize);
      assert t.pause * t.resumePct < t.pause * 100;
      Some(Config(t.workers, t.pause, t.pause * t.resumePct / 100, (worstCase + t.pageSize - 1) / t.pageSize,
                  t.maxRetries, t.producers))
  }

  lemma CeilingQuotient(n: int, d: int)
    requires 0 < d && 0 < n
    ensures var q := (n + d - 1) / d; 0 < q && q * d >= n > (q - 1) * d
  {
    var q := (n + d - 1) / d;
    assert q * d <= n + d - 1 < q * d + d;
  }

  datatype WorkerAt =
    | Selecting                // blocked in the worker's select
    | Exited
    | Holding(page: Page)      // page received, buffer count not yet reduced
    | Signalling(page: Page)   // count fell below the resume threshold, broadcast still to come
    | Numbering(page: Page)
    | Fetching(page: Page)
    | Sending(page: Page)
    | Failing(page: Page)      // entered handleFailure
    | Requeueing(page: Page)   // retry counted, blocked in the re-queue select
    | Restoring(count: nat)    // page is back in the channel, buffer count not yet restored
    | Burying(page: Page)      // on the dead-letter path
    | Finalising               // delivered or buried, inflight not yet reduced
    | CheckingClosed           // first load of tryCloseDone
    | CheckingInflight         // second load of tryCloseDone

  datatype Worker = Worker(at: WorkerAt, stream: bool)

  datatype Producer =
    | Idle(ok: bool)           // between calls; ok is the last call's outcome
    | GateWanting              // WaitForBatchStart, slow path, waiting for pauseMu
    | GateHolding              // holds pauseMu, about to evaluate the loop condition
    | GateDecided              // condition was true, still holds pauseMu, about to Wait
    | Asleep
    | GateLeaving              // left the loop and released pauseMu
    | Checked(nonces: seq<Nonce>)   // EnqueueNonces saw the input open
    | Counted(nonces: seq<Nonce>)   // inflight raised, blocked in the send select
    | Crediting(count: nat)         // page sent, buffer count not yet raised
    | WithdrawClosed           // cancelled: inflight lowered, tryCloseDone, first load
    | WithdrawInflight         // second load

  datatype Closer = Resting | StoredClosed | SawClosed | Broadcasting

  datatype State = State(
    chan: seq<Page>,
    inflight: int,
    count: int,
    sequence: nat,
    inputClosed: bool,
    done: bool,
    cancelled: bool,
    lock: Option<nat>,
    workers: seq<Worker>,
    producers: seq<Producer>,
    closer: Closer,
    watchers: set<nat>,
    delivered: seq<Page>,
    dead: seq<Page>,
    offered: seq<Page>,
    admitted: seq<Page>,
    refused: seq<Page>,
    leak: nat,
    cleanClose: bool,
    missed: set<nat>)

  function Init(c: Config): (s: State) {
    State([], 0, 0, 0, false, false, false, None,
          seq(c.workers, _ => Worker(Selecting, false)), seq(c.producers, _ => Idle(true)), Resting, {},
          [], [], [], [], [], 0, true, {})
  }

  function NewPage(nonces: seq<Nonce>): Page {
    Page(nonces, 0, 0, 0)
  }

  // ----- steps -----

  datatype WorkerAct =
    | Receive | Leave | Open(ok: bool) | Subtract | Signal | Number | Fetch(ok: bool) | Send(ok: bool)
    | Decide | Requeue | Abandon | Restore | Bury | Finalise | LoadClosed | LoadInflight

  datatype ProducerAct =
    | Gate | Lock | Evaluate | Sleep | ReturnGate
    | Enqueue(nonces: seq<Nonce>) | Count | SendPage | Credit | Withdraw | ReloadClosed | ReloadInflight

  datatype CloserAct = Store | CloserLoadClosed | CloserLoadInflight | CloserBroadcast

  datatype Step =
    | Work(i: nat, wa: WorkerAct)
    | Produce(p: nat, pa: ProducerAct)
    | Close(ca: CloserAct)
    | WatcherFires(w: nat)
    | Cancel

  /** What a step does to the shared fields; the acting goroutine's own position is separate. */
  datatype Effect = Effect(
    take: bool,            // receive the channel's first page
    put: seq<Page>,        // send these to the channel
    addInflight: int,
    addCount: int,
    deliver: seq<Page>,
    bury: seq<Page>,
    offer: seq<Page>,
    admit: seq<Page>,
    refuse: seq<Page>,
    leak: nat,
    numbers: nat,          // page numbers taken from the sequence
    latch: bool,           // close `done`
    wake: bool)            // broadcast on the condition variable

  const QUIET: Effect := Effect(false, [], 0, 0, [], [], [], [], [], 0, 0, false, false)

  function Woken(p: Producer): Producer {
    if p.Asleep? then GateWanting else p
  }

  /** Cond.Broadcast: every sleeper goes on to re-acquire the lock. */
  function WakeAll(ps: seq<Producer>): (r: seq<Producer>)
    ensures |r| == |ps| && forall k :: 0 <= k < |ps| ==> r[k] == Woken(ps[k])
  {
    seq(|ps|, k requires 0 <= k < |ps| => Woken(ps[k]))
  }

  function Shared(s: State, e: Effect): State
    requires e.take ==> |s.chan| > 0
  {
    s.(chan := (if e.take then s.chan[1..] else s.chan) + e.put,
       inflight := s.inflight + e.addInflight,
       count := s.count + e.addCount,
       delivered := s.delivered + e.deliver,
       dead := s.dead + e.bury,
       offered := s.offered + e.offer,
       admitted := s.admitted + e.admit,
       refused := s.refused + e.refuse,
       leak := s.leak + e.leak,
       sequence := s.sequence + e.numbers,
       done := s.done || e.latch,
       producers := if e.wake then WakeAll(s.producers) else s.producers)
  }

  predicate WorkerEnabled(c: Config, s: State, i: nat, a: WorkerAct) {
    i < |s.workers| &&
    var at := s.workers[i].at;
    match a
    case Receive => at.Selecting? && |s.chan| > 0
    case Leave => at.Selecting? && (s.done || s.cancelled)
    case Open(_) => at.Holding? && !s.workers[i].stream
    case Subtract => at.Holding? && s.workers[i].stream
    case Signal => at.Signalling? && s.lock.None?
    case Number => at.Numbering?
    case Fetch(_) => at.Fetching?
    case Send(_) => at.Sending?
    case Decide => at.Failing?
    case Requeue => at.Requeueing? && |s.chan| < c.cap
    case Abandon => at.Requeueing? && s.cancelled
    case Restore => at.Restoring?
    case Bury => at.Burying?
    case Finalise => at.Finalising?
    case LoadClosed => at.CheckingClosed?
    case LoadInflight => at.CheckingInflight?
  }

  /** Where worker i is after the step. */
  function WorkerMoves(c: Config, s: State, i: nat, a: WorkerAct): Worker
    requires WorkerEnabled(c, s, i, a)
  {
    var w := s.workers[i];
    match a
    case Receive => w.(at := Holding(s.chan[0].(attempts := s.chan[0].attempts + 1)))
    case Leave => w.(at := Exited)
    case Open(ok) => if ok then w.(stream := true) else w.(at := Failing(w.at.page))
    case Subtract =>
      w.(at := if s.count - |w.at.page.nonces| < c.resume then Signalling(w.at.page) else Numbering(w.at.page))
    case Signal => w.(at := Numbering(w.at.page))
    case Number => w.(at := Fetching(if w.at.page.index == 0 then w.at.page.(index := s.sequence + 1) else w.at.page))
    case Fetch(ok) => w.(at := if ok then Sending(w.at.page) else Failing(w.at.page))
    case Send(ok) => if ok then w.(at := Finalising) else Worker(Failing(w.at.page), false)
    case Decide =>
      w.(at := if w.at.page.retries < c.maxRetries then Requeueing(w.at.page.(retries := w.at.page.retries + 1))
               else Burying(w.at.page))
    case Requeue => w.(at := Restoring(|w.at.page.nonces|))
    case Abandon => w.(at := Burying(w.at.page))
    case Restore => w.(at := Selecting)
    case Bury => w.(at := Finalising)
    case Finalise => w.(at := CheckingClosed)
    case LoadClosed => w.(at := if s.inputClosed then CheckingInflight else Selecting)
    case LoadInflight => w.(at := Selecting)
  }

  function WorkerEffect(c: Config, s: State, i: nat, a: WorkerAct): (e: Effect)
    requires WorkerEnabled(c, s, i, a)
    ensures e.take ==> |s.chan| > 0
  {
    var at := s.workers[i].at;
    match a
    case Receive => QUIET.(take := true)
    case Open(ok) => if ok then QUIET else QUIET.(leak := |at.page.nonces|)
    case Subtract => QUIET.(addCount := -|at.page.nonces|)
    case Signal => QUIET.(wake := true)
    case Number => QUIET.(numbers := if at.page.index == 0 then 1 else 0)
    case Send(ok) => if ok then QUIET.(deliver := [at.page]) else QUIET
    case Requeue => QUIET.(put := [at.page])
    case Restore => QUIET.(addCount := at.count)
    case Bury => QUIET.(bury := [at.page])
    case Finalise => QUIET.(addInflight := -1)
    case LoadInflight => QUIET.(latch := s.inflight == 0)
    case _ => QUIET
  }

  function WorkerNext(c: Config, s: State, i: nat, a: WorkerAct): State
    requires WorkerEnabled(c, s, i, a)
  {
    Shared(s, WorkerEffect(c, s, i, a)).(workers := s.workers[i := WorkerMoves(c, s, i, a)])
  }

  predicate ProducerEnabled(c: Config, s: State, p: nat, a: ProducerAct) {
    p < |s.producers| &&
    var at := s.producers[p];
    match a
    case Gate => at.Idle?
    case Lock => at.GateWanting? && s.lock.None?
    case Evaluate => at.GateHolding?
    case Sleep => at.GateDecided?
    case ReturnGate => at.GateLeaving?
    case Enqueue(_) => at.Idle?
    case Count => at.Checked?
    case SendPage => at.Counted? && |s.chan| < c.cap
    case Credit => at.Crediting?
    case Withdraw => at.Counted? && s.cancelled
    case ReloadClosed => at.WithdrawClosed?
    case ReloadInflight => at.WithdrawInflight?
  }

  function ProducerMoves(c: Config, s: State, p: nat, a: ProducerAct): Producer
    requires ProducerEnabled(c, s, p, a)
  {
    var at := s.producers[p];
    match a
    case Gate => if s.count < c.pause then Idle(true) else GateWanting
    case Lock => GateHolding
    case Evaluate => if s.count >= c.pause && !s.cancelled then GateDecided else GateLeaving
    case Sleep => Asleep
    case ReturnGate => Idle(!s.cancelled)
    case Enqueue(nonces) => if nonces == [] then Idle(true) else if s.inputClosed then Idle(false) else Checked(nonces)
    case Count => Counted(at.nonces)
    case SendPage => Crediting(|at.nonces|)
    case Credit => Idle(true)
    case Withdraw => WithdrawClosed
    case ReloadClosed => if s.inputClosed then WithdrawInflight else Idle(false)
    case ReloadInflight => Idle(false)
  }

  function ProducerEffect(c: Config, s: State, p: nat, a: ProducerAct): (e: Effect)
    requires ProducerEnabled(c, s, p, a)
    ensures !e.take && !e.wake
  {
    var at := s.producers[p];
    match a
    case Enqueue(nonces) =>
      if nonces == [] then QUIET
      else if s.inputClosed then QUIET.(offer := [NewPage(nonces)], refuse := [NewPage(nonces)])
      else QUIET.(offer := [NewPage(nonces)])
    case Count => QUIET.(addInflight := 1)
    case SendPage => QUIET.(put := [NewPage(at.nonces)], admit := [NewPage(at.nonces)])
    case Credit => QUIET.(addCount := at.count)
    case Withdraw => QUIET.(addInflight := -1, refuse := [NewPage(at.nonces)])
    case ReloadInflight => QUIET.(latch := s.inflight == 0)
    case _ => QUIET
  }

  function LockAfter(c: Config, s: State, p: nat, a: ProducerAct): Option<nat>
    requires ProducerEnabled(c, s, p, a)
  {
    match ProducerMoves(c, s, p, a)
    case GateHolding => Some(p)
    case GateDecided => s.lock
    case Asleep => None
    case GateLeaving => None
    case _ => s.lock
  }

  function ProducerNext(c: Config, s: State, p: nat, a: ProducerAct): State
    requires ProducerEnabled(c, s, p, a)
  {
    Shared(s, ProducerEffect(c, s, p, a)).(
      producers := s.producers[p := ProducerMoves(c, s, p, a)],
      lock := LockAfter(c, s, p, a),
      watchers := if a.Gate? && s.count >= c.pause then s.watchers + {p}
                  else if a.ReturnGate? then s.watchers - {p} else s.watchers,
      missed := if a.Gate? then s.missed - {p} else s.missed)
  }

  predicate CloserEnabled(s: State, a: CloserAct) {
    match a
    case Store => s.closer.Resting?
    case CloserLoadClosed => s.closer.StoredClosed?
    case CloserLoadInflight => s.closer.SawClosed?
    case CloserBroadcast => s.closer.Broadcasting?
  }

  /** No producer has passed the input-closed check without having raised inflight yet. */
  predicate NoneChecked(s: State) {
    forall p :: 0 <= p < |s.producers| ==> !s.producers[p].Checked?
  }

  function CloserNext(s: State, a: CloserAct): State
    requires CloserEnabled(s, a)
  {
    match a
    case Store =>
      s.(closer := StoredClosed, inputClosed := true, cleanClose := if s.inputClosed then s.cleanClose else NoneChecked(s))
    case CloserLoadClosed => s.(closer := if s.inputClosed then SawClosed else Broadcasting)
    case CloserLoadInflight => s.(closer := Broadcasting, done := s.done || s.inflight == 0)
    case CloserBroadcast => s.(closer := Resting, producers := WakeAll(s.producers))
  }

  predicate Enabled(c: Config, s: State, step: Step) {
    match step
    case Work(i, a) => WorkerEnabled(c, s, i, a)
    case Produce(p, a) => ProducerEnabled(c, s, p, a)
    case Close(a) => CloserEnabled(s, a)
    case WatcherFires(w) => w in s.watchers && s.cancelled
    case Cancel => true
  }

  /** A watcher broadcasts without holding pauseMu, so a producer that has decided to sleep misses it. */
  function WatcherNext(s: State, w: nat): State {
    s.(watchers := s.watchers - {w}, producers := WakeAll(s.producers),
       missed := if w < |s.producers| && s.producers[w].GateDecided? then s.missed + {w} else s.missed)
  }

  function Next(c: Config, s: State, step: Step): State
    requires Enabled(c, s, step)
  {
    match step
    case Work(i, a) => WorkerNext(c, s, i, a)
    case Produce(p, a) => ProducerNext(c, s, p, a)
    case Close(a) => CloserNext(s, a)
    case WatcherFires(w) => WatcherNext(s, w)
    case Cancel => s.(cancelled := true)
  }

  /** Taking the steps one after another, each enabled when taken, leads from s to t. */
  predicate Run(c: Config, s: State, steps: seq<Step>, t: State)
    decreases |steps|
  {
    if steps == [] then s == t
    else Enabled(c, s, steps[0]) && Run(c, Next(c, s, steps[0]), steps[1..], t)
  }

  ghost predicate Reachable(c: Config, s: State) {
    exists steps :: Run(c, Init(c), steps, s)
  }

  lemma {:induction false} RunConcat(c: Config, s: State, xs: seq<Step>, m: State, ys: seq<Step>, t: State)
    requires Run(c, s, xs, m) && Run(c, m, ys, t)
    ensures Run(c, s, xs + ys, t)
    decreases |xs|
  {
    if xs == [] {
      assert xs + ys == ys;
    } else {
      RunConcat(c, Next(c, s, xs[0]), xs[1..], m, ys, t);
      assert (xs + ys)[1..] == xs[1..] + ys;
    }
  }

  lemma ReachableStep(c: Config, s: State, step: Step)
    requires Reachable(c, s) && Enabled(c, s, step)
    ensures Reachable(c, Next(c, s, step))
  {
    var steps :| Run(c, Init(c), steps, s);
    var t := Next(c, s, step);
    assert Run(c, t, [], t) && [step][1..] == [];
    assert Run(c, s, [step], t);
    RunConcat(c, Init(c), steps, s, [step], t);
  }
}
