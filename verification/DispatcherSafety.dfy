/** What every step of the dispatcher keeps, and what therefore holds in every reachable state. */
module DispatcherSafety {
  import opened Sums
  import opened Dispatcher

  // ----- sums after a step -----

  lemma {:induction false} WakeKeepsSum(ps: seq<Producer>, g: Producer -> int)
    requires g(Asleep) == g(GateWanting)
    ensures SumBy(WakeAll(ps), g) == SumBy(ps, g)
  {
    if ps != [] {
      assert WakeAll(ps)[1..] == WakeAll(ps[1..]);
      WakeKeepsSum(ps[1..], g);
    }
  }

  lemma WorkersAfter(c: Config, s: State, i: nat, a: WorkerAct, f: Worker -> int)
    requires WorkerEnabled(c, s, i, a)
    ensures SumBy(WorkerNext(c, s, i, a).workers, f) ==
            SumBy(s.workers, f) - f(s.workers[i]) + f(WorkerMoves(c, s, i, a))
  {
    SumByUpdate(s.workers, i, WorkerMoves(c, s, i, a), f);
  }

  lemma ProducersAfterWork(c: Config, s: State, i: nat, a: WorkerAct, g: Producer -> int)
    requires WorkerEnabled(c, s, i, a) && g(Asleep) == g(GateWanting)
    ensures SumBy(WorkerNext(c, s, i, a).producers, g) == SumBy(s.producers, g)
  {
    WakeKeepsSum(s.producers, g);
  }

  lemma ProducersAfter(c: Config, s: State, p: nat, a: ProducerAct, g: Producer -> int)
    requires ProducerEnabled(c, s, p, a)
    ensures SumBy(ProducerNext(c, s, p, a).producers, g) ==
            SumBy(s.producers, g) - g(s.producers[p]) + g(ProducerMoves(c, s, p, a))
  {
    SumByUpdate(s.producers, p, ProducerMoves(c, s, p, a), g);
  }

  function Taken(s: State, e: Effect, h: Page -> int): int
    requires e.take ==> |s.chan| > 0
  {
    if e.take then h(s.chan[0]) else 0
  }

  lemma ChanAfter(s: State, e: Effect, h: Page -> int)
    requires e.take ==> |s.chan| > 0
    ensures SumBy(Shared(s, e).chan, h) == SumBy(s.chan, h) - Taken(s, e, h) + SumBy(e.put, h)
  {
    SumByConcat(if e.take then s.chan[1..] else s.chan, e.put, h);
  }

  // ----- inflight -----

  predicate HoldsPage(w: Worker) {
    w.at.Holding? || w.at.Signalling? || w.at.Numbering? || w.at.Fetching? || w.at.Sending? || w.at.Failing? ||
    w.at.Requeueing? || w.at.Burying?
  }

  function Charge(): Worker -> int {
    (w: Worker) => if HoldsPage(w) || w.at.Finalising? then 1 else 0
  }

  function PCharge(): Producer -> int {
    (p: Producer) => if p.Counted? then 1 else 0
  }

  /** inflight is the pages in the channel, the pages not yet finalised by a worker, and the sends in progress. */
  predicate InflightExact(s: State) {
    s.inflight == |s.chan| + SumBy(s.workers, Charge()) + SumBy(s.producers, PCharge())
  }

  lemma WorkerCharge(c: Config, s: State, i: nat, a: WorkerAct)
    requires WorkerEnabled(c, s, i, a)
    ensures var e := WorkerEffect(c, s, i, a);
            e.addInflight == |e.put| - (if e.take then 1 else 0)
                             + Charge()(WorkerMoves(c, s, i, a)) - Charge()(s.workers[i])
  {
  }

  lemma ProducerCharge(c: Config, s: State, p: nat, a: ProducerAct)
    requires ProducerEnabled(c, s, p, a)
    ensures var e := ProducerEffect(c, s, p, a);
            e.addInflight == |e.put| + PCharge()(ProducerMoves(c, s, p, a)) - PCharge()(s.producers[p])
  {
  }

  lemma WorkerKeepsInflight(c: Config, s: State, i: nat, a: WorkerAct)
    requires WorkerEnabled(c, s, i, a) && InflightExact(s)
    ensures InflightExact(WorkerNext(c, s, i, a))
  {
    WorkersAfter(c, s, i, a, Charge());
    ProducersAfterWork(c, s, i, a, PCharge());
    WorkerCharge(c, s, i, a);
  }

  lemma ProducerKeepsInflight(c: Config, s: State, p: nat, a: ProducerAct)
    requires ProducerEnabled(c, s, p, a) && InflightExact(s)
    ensures InflightExact(ProducerNext(c, s, p, a))
  {
    ProducersAfter(c, s, p, a, PCharge());
    ProducerCharge(c, s, p, a);
  }

  lemma StepKeepsInflight(c: Config, s: State, step: Step)
    requires Enabled(c, s, step) && InflightExact(s)
    ensures InflightExact(Next(c, s, step))
  {
    match step
    case Work(i, a) =>
      WorkerKeepsInflight(c, s, i, a);
      assert Next(c, s, step) == WorkerNext(c, s, i, a);
    case Produce(p, a) =>
      ProducerKeepsInflight(c, s, p, a);
      assert Next(c, s, step) == ProducerNext(c, s, p, a);
    case _ => WakeKeepsSum(s.producers, PCharge());
  }

  // ----- nonceBufferCount -----

  function Size(): Page -> int {
    (p: Page) => |p.nonces|
  }

  /** Nonces this worker has received but not subtracted, less those it sent back but has not restored. */
  function Owes(): Worker -> int {
    (w: Worker) => (if w.at.Holding? then |w.at.page.nonces| else 0) - (if w.at.Restoring? then w.at.count else 0)
  }

  function ToCredit(): Producer -> int {
    (p: Producer) => if p.Crediting? then p.count else 0
  }

  /**
   nonceBufferCount, corrected for receives not yet subtracted and sends not yet added, is the channel's
   nonces plus the sizes of all pages whose stream could not be opened.
   */
  predicate BufferExact(s: State) {
    s.count - SumBy(s.workers, Owes()) + SumBy(s.producers, ToCredit()) == SumBy(s.chan, Size()) + s.leak
  }

  lemma WorkerOwes(c: Config, s: State, i: nat, a: WorkerAct)
    requires WorkerEnabled(c, s, i, a)
    ensures var e := WorkerEffect(c, s, i, a);
            e.addCount - Owes()(WorkerMoves(c, s, i, a)) + Owes()(s.workers[i]) ==
            SumBy(e.put, Size()) - Taken(s, e, Size()) + e.leak
  {
  }

  lemma ProducerOwes(c: Config, s: State, p: nat, a: ProducerAct)
    requires ProducerEnabled(c, s, p, a)
    ensures var e := ProducerEffect(c, s, p, a);
            e.addCount + ToCredit()(ProducerMoves(c, s, p, a)) - ToCredit()(s.producers[p]) ==
            SumBy(e.put, Size()) + e.leak
  {
  }

  lemma WorkerKeepsBuffer(c: Config, s: State, i: nat, a: WorkerAct)
    requires WorkerEnabled(c, s, i, a) && BufferExact(s)
    ensures BufferExact(WorkerNext(c, s, i, a))
  {
    WorkersAfter(c, s, i, a, Owes());
    ProducersAfterWork(c, s, i, a, ToCredit());
    ChanAfter(s, WorkerEffect(c, s, i, a), Size());
    WorkerOwes(c, s, i, a);
  }

  lemma ProducerKeepsBuffer(c: Config, s: State, p: nat, a: ProducerAct)
    requires ProducerEnabled(c, s, p, a) && BufferExact(s)
    ensures BufferExact(ProducerNext(c, s, p, a))
  {
    ProducersAfter(c, s, p, a, ToCredit());
    ChanAfter(s, ProducerEffect(c, s, p, a), Size());
    ProducerOwes(c, s, p, a);
  }

  lemma StepKeepsBuffer(c: Config, s: State, step: Step)
    requires Enabled(c, s, step) && BufferExact(s)
    ensures BufferExact(Next(c, s, step))
  {
    match step
    case Work(i, a) =>
      WorkerKeepsBuffer(c, s, i, a);
      assert Next(c, s, step) == WorkerNext(c, s, i, a);
    case Produce(p, a) =>
      ProducerKeepsBuffer(c, s, p, a);
      assert Next(c, s, step) == ProducerNext(c, s, p, a);
    case _ => WakeKeepsSum(s.producers, ToCredit());
  }

  // ----- conservation, for every way h of weighing pages -----

  function HeldBy(h: Page -> int, w: Worker): int {
    if HoldsPage(w) then h(w.at.page) else 0
  }

  function Held(h: Page -> int): Worker -> int {
    (w: Worker) => HeldBy(h, w)
  }

  function PendingBy(h: Page -> int, p: Producer): int {
    if p.Checked? || p.Counted? then h(NewPage(p.nonces)) else 0
  }

  function Pending(h: Page -> int): Producer -> int {
    (p: Producer) => PendingBy(h, p)
  }

  /** The weight of all admitted pages where they are now: channel, a worker's hands, delivered or dead. */
  function Placed(s: State, h: Page -> int): int {
    SumBy(s.chan, h) + SumBy(s.workers, Held(h)) + SumBy(s.delivered, h) + SumBy(s.dead, h)
  }

  /** Offered weight is admitted, refused or still on its way; admitted weight is placed. */
  predicate Balanced(s: State, h: Page -> int) {
    SumBy(s.offered, h) == SumBy(s.admitted, h) + SumBy(s.refused, h) + SumBy(s.producers, Pending(h)) &&
    SumBy(s.admitted, h) == Placed(s, h)
  }

  /** h does not look at the retry and attempt counters. */
  ghost predicate IgnoresRetries(h: Page -> int) {
    forall ns: seq<Nonce>, r: nat, t: nat, r': nat, t': nat, k: nat :: h(Page(ns, r, k, t)) == h(Page(ns, r', k, t'))
  }

  /** h looks at the nonces only. */
  ghost predicate ByContent(h: Page -> int) {
    forall ns: seq<Nonce>, r: nat, t: nat, r': nat, t': nat, k: nat, k': nat :: h(Page(ns, r, k, t)) == h(Page(ns, r', k', t'))
  }

  lemma SingleSum(p: Page, h: Page -> int)
    ensures SumBy([p], h) == h(p)
  {
    assert [p][1..] == [];
  }

  /** A worker step moves weight between places without changing it, except when it numbers a page. */
  lemma WorkerMovesWeight(c: Config, s: State, i: nat, a: WorkerAct, h: Page -> int)
    requires WorkerEnabled(c, s, i, a) && IgnoresRetries(h)
    ensures var e := WorkerEffect(c, s, i, a);
            e.offer == e.admit == e.refuse == [] &&
            (!a.Number? ==>
               Held(h)(s.workers[i]) + Taken(s, e, h) ==
               Held(h)(WorkerMoves(c, s, i, a)) + SumBy(e.put, h) + SumBy(e.deliver, h) + SumBy(e.bury, h))
  {
    match a
    case Receive =>
      var q := s.chan[0];
      assert h(Page(q.nonces, q.retries, q.index, q.attempts + 1)) == h(Page(q.nonces, q.retries, q.index, q.attempts));
    case Decide =>
      var q := s.workers[i].at.page;
      assert h(Page(q.nonces, q.retries + 1, q.index, q.attempts)) == h(Page(q.nonces, q.retries, q.index, q.attempts));
    case Send(ok) => if ok { SingleSum(s.workers[i].at.page, h); }
    case Requeue => SingleSum(s.workers[i].at.page, h);
    case Bury => SingleSum(s.workers[i].at.page, h);
    case _ =>
  }

  lemma PlacedAfterWork(c: Config, s: State, i: nat, a: WorkerAct, h: Page -> int)
    requires WorkerEnabled(c, s, i, a) && IgnoresRetries(h)
    ensures !a.Number? ==> Placed(WorkerNext(c, s, i, a), h) == Placed(s, h)
    ensures a.Number? ==>
              Placed(WorkerNext(c, s, i, a), h) ==
              Placed(s, h) - Held(h)(s.workers[i]) + Held(h)(WorkerMoves(c, s, i, a))
  {
    var e := WorkerEffect(c, s, i, a);
    WorkersAfter(c, s, i, a, Held(h));
    ChanAfter(s, e, h);
    SumByConcat(s.delivered, e.deliver, h);
    SumByConcat(s.dead, e.bury, h);
    WorkerMovesWeight(c, s, i, a, h);
  }

  lemma ProducerMovesWeight(c: Config, s: State, p: nat, a: ProducerAct, h: Page -> int)
    requires ProducerEnabled(c, s, p, a)
    ensures var e := ProducerEffect(c, s, p, a);
            e.deliver == e.bury == [] && e.put == e.admit &&
            Pending(h)(s.producers[p]) + SumBy(e.offer, h) ==
            Pending(h)(ProducerMoves(c, s, p, a)) + SumBy(e.admit, h) + SumBy(e.refuse, h)
  {
    match a
    case Enqueue(nonces) => SingleSum(NewPage(nonces), h);
    case SendPage => SingleSum(NewPage(s.producers[p].nonces), h);
    case Withdraw => SingleSum(NewPage(s.producers[p].nonces), h);
    case _ =>
  }

  lemma ProducerKeepsBalanced(c: Config, s: State, p: nat, a: ProducerAct, h: Page -> int)
    requires ProducerEnabled(c, s, p, a) && Balanced(s, h)
    ensures Balanced(ProducerNext(c, s, p, a), h)
  {
    var e := ProducerEffect(c, s, p, a);
    ProducersAfter(c, s, p, a, Pending(h));
    ChanAfter(s, e, h);
    SumByConcat(s.offered, e.offer, h);
    SumByConcat(s.admitted, e.admit, h);
    SumByConcat(s.refused, e.refuse, h);
    ProducerMovesWeight(c, s, p, a, h);
    assert s.delivered + [] == s.delivered && s.dead + [] == s.dead;
  }

  lemma WorkerKeepsBalanced(c: Config, s: State, i: nat, a: WorkerAct, h: Page -> int)
    requires WorkerEnabled(c, s, i, a) && Balanced(s, h) && ByContent(h)
    ensures Balanced(WorkerNext(c, s, i, a), h)
  {
    PlacedAfterWork(c, s, i, a, h);
    WorkerMovesWeight(c, s, i, a, h);
    ProducersAfterWork(c, s, i, a, Pending(h));
    var e := WorkerEffect(c, s, i, a);
    assert s.offered + e.offer == s.offered && s.admitted + e.admit == s.admitted && s.refused + e.refuse == s.refused;
    if a.Number? {
      var q := s.workers[i].at.page;
      assert h(Page(q.nonces, q.retries, s.sequence + 1, q.attempts)) == h(Page(q.nonces, q.retries, q.index, q.attempts));
    }
  }

  lemma StepKeepsBalanced(c: Config, s: State, step: Step, h: Page -> int)
    requires Enabled(c, s, step) && Balanced(s, h) && ByContent(h)
    ensures Balanced(Next(c, s, step), h)
  {
    match step
    case Work(i, a) =>
      WorkerKeepsBalanced(c, s, i, a, h);
      assert Next(c, s, step) == WorkerNext(c, s, i, a);
    case Produce(p, a) =>
      ProducerKeepsBalanced(c, s, p, a, h);
      assert Next(c, s, step) == ProducerNext(c, s, p, a);
    case _ => WakeKeepsSum(s.producers, Pending(h));
  }

  lemma InitSums(c: Config, f: Worker -> int, g: Producer -> int)
    requires f(Worker(Selecting, false)) == 0 && g(Idle(true)) == 0
    ensures SumBy(Init(c).workers, f) == 0 && SumBy(Init(c).producers, g) == 0
  {
    SumByConstant(Init(c).workers, f, 0);
    SumByConstant(Init(c).producers, g, 0);
  }

  /** In every run, whatever weight h gives to page contents is conserved. */
  lemma {:induction false} RunKeepsBalanced(c: Config, s: State, steps: seq<Step>, t: State, h: Page -> int)
    requires Run(c, s, steps, t) && Balanced(s, h) && ByContent(h)
    ensures Balanced(t, h)
    decreases |steps|
  {
    if steps != [] {
      StepKeepsBalanced(c, s, steps[0], h);
      RunKeepsBalanced(c, Next(c, s, steps[0]), steps[1..], t, h);
    }
  }

  // ----- page numbers -----

  function IndexHit(k: nat): Page -> int {
    (p: Page) => if p.index == k then 1 else 0
  }

  /** Page numbers are handed out once and kept: each of 1..sequence is on exactly one page, no other number on any. */
  ghost predicate Numbered(s: State) {
    forall k: nat :: 0 < k ==> Placed(s, IndexHit(k)) == if k <= s.sequence then 1 else 0
  }

  lemma WorkerKeepsNumbered(c: Config, s: State, i: nat, a: WorkerAct)
    requires WorkerEnabled(c, s, i, a) && Numbered(s)
    ensures Numbered(WorkerNext(c, s, i, a))
  {
    var s' := WorkerNext(c, s, i, a);
    forall k: nat | 0 < k ensures Placed(s', IndexHit(k)) == if k <= s'.sequence then 1 else 0 {
      assert Placed(s, IndexHit(k)) == if k <= s.sequence then 1 else 0;
      PlacedAfterWork(c, s, i, a, IndexHit(k));
    }
  }

  lemma PlacedAfterProduce(c: Config, s: State, p: nat, a: ProducerAct, h: Page -> int)
    requires ProducerEnabled(c, s, p, a)
    ensures Placed(ProducerNext(c, s, p, a), h) == Placed(s, h) + SumBy(ProducerEffect(c, s, p, a).put, h)
  {
    ChanAfter(s, ProducerEffect(c, s, p, a), h);
    ProducerMovesWeight(c, s, p, a, h);
    assert s.delivered + [] == s.delivered && s.dead + [] == s.dead;
  }

  lemma ProducerKeepsNumbered(c: Config, s: State, p: nat, a: ProducerAct)
    requires ProducerEnabled(c, s, p, a) && Numbered(s)
    ensures Numbered(ProducerNext(c, s, p, a))
  {
    var s', put := ProducerNext(c, s, p, a), ProducerEffect(c, s, p, a).put;
    assert s'.sequence == s.sequence;
    forall k: nat | 0 < k ensures Placed(s', IndexHit(k)) == if k <= s'.sequence then 1 else 0 {
      PlacedAfterProduce(c, s, p, a, IndexHit(k));
      SumByConstant(put, IndexHit(k), 0);
      assert Placed(s, IndexHit(k)) == if k <= s.sequence then 1 else 0;
    }
  }

  lemma StepKeepsNumbered(c: Config, s: State, step: Step)
    requires Enabled(c, s, step) && Numbered(s)
    ensures Numbered(Next(c, s, step))
  {
    match step
    case Work(i, a) =>
      WorkerKeepsNumbered(c, s, i, a);
      assert Next(c, s, step) == WorkerNext(c, s, i, a);
    case Produce(p, a) =>
      ProducerKeepsNumbered(c, s, p, a);
      assert Next(c, s, step) == ProducerNext(c, s, p, a);
    case _ =>
      forall k: nat | 0 < k ensures Placed(Next(c, s, step), IndexHit(k)) == Placed(s, IndexHit(k)) {
      }
  }

  // ----- attempts -----

  predicate AttemptsAt(c: Config, w: Worker) {
    match w.at
    case Holding(p) => p.attempts == p.retries + 1 && p.retries <= c.maxRetries
    case Signalling(p) => p.attempts == p.retries + 1 && p.retries <= c.maxRetries
    case Numbering(p) => p.attempts == p.retries + 1 && p.retries <= c.maxRetries
    case Fetching(p) => p.attempts == p.retries + 1 && p.retries <= c.maxRetries && p.index > 0
    case Sending(p) => p.attempts == p.retries + 1 && p.retries <= c.maxRetries && p.index > 0
    case Failing(p) => p.attempts == p.retries + 1 && p.retries <= c.maxRetries
    case Requeueing(p) => 0 < p.attempts == p.retries <= c.maxRetries
    case Burying(p) => p.attempts <= c.maxRetries + 1
    case _ => true
  }

  /** The retry field counts failed attempts, so no page is taken more than maxRetries + 1 times. */
  predicate AttemptsBounded(c: Config, s: State) {
    (forall k :: 0 <= k < |s.chan| ==> s.chan[k].attempts == s.chan[k].retries <= c.maxRetries) &&
    (forall k :: 0 <= k < |s.workers| ==> AttemptsAt(c, s.workers[k])) &&
    (forall k :: 0 <= k < |s.delivered| ==> s.delivered[k].attempts <= c.maxRetries + 1 && s.delivered[k].index > 0) &&
    (forall k :: 0 <= k < |s.dead| ==> s.dead[k].attempts <= c.maxRetries + 1)
  }

  lemma WorkerAttempts(c: Config, s: State, i: nat, a: WorkerAct)
    requires WorkerEnabled(c, s, i, a) && AttemptsAt(c, s.workers[i])
    requires |s.chan| > 0 ==> s.chan[0].attempts == s.chan[0].retries <= c.maxRetries
    ensures AttemptsAt(c, WorkerMoves(c, s, i, a))
    ensures var e := WorkerEffect(c, s, i, a);
            (forall k :: 0 <= k < |e.put| ==> e.put[k].attempts == e.put[k].retries <= c.maxRetries) &&
            (forall k :: 0 <= k < |e.deliver| ==> e.deliver[k].attempts <= c.maxRetries + 1 && e.deliver[k].index > 0) &&
            (forall k :: 0 <= k < |e.bury| ==> e.bury[k].attempts <= c.maxRetries + 1)
  {
  }

  lemma WorkerKeepsAttempts(c: Config, s: State, i: nat, a: WorkerAct)
    requires WorkerEnabled(c, s, i, a) && AttemptsBounded(c, s)
    ensures AttemptsBounded(c, WorkerNext(c, s, i, a))
  {
    WorkerAttempts(c, s, i, a);
  }

  lemma ProducerKeepsAttempts(c: Config, s: State, p: nat, a: ProducerAct)
    requires ProducerEnabled(c, s, p, a) && AttemptsBounded(c, s)
    ensures AttemptsBounded(c, ProducerNext(c, s, p, a))
  {
    ProducerMovesWeight(c, s, p, a, Size());
  }

  lemma StepKeepsAttempts(c: Config, s: State, step: Step)
    requires Enabled(c, s, step) && AttemptsBounded(c, s)
    ensures AttemptsBounded(c, Next(c, s, step))
  {
    match step
    case Work(i, a) =>
      WorkerKeepsAttempts(c, s, i, a);
      assert Next(c, s, step) == WorkerNext(c, s, i, a);
    case Produce(p, a) =>
      ProducerKeepsAttempts(c, s, p, a);
      assert Next(c, s, step) == ProducerNext(c, s, p, a);
    case _ =>
  }

  // ----- the done latch -----

  function Trying(): Worker -> int {
    (w: Worker) => if w.at.CheckingClosed? || w.at.CheckingInflight? then 1 else 0
  }

  function PTrying(): Producer -> int {
    (p: Producer) => if p.WithdrawClosed? || p.WithdrawInflight? then 1 else 0
  }

  function CTrying(k: Closer): int {
    if k.StoredClosed? || k.SawClosed? then 1 else 0
  }

  function Triers(s: State): int {
    SumBy(s.workers, Trying()) + SumBy(s.producers, PTrying()) + CTrying(s.closer)
  }

  /** A goroutine that is about to load inflight in tryCloseDone has seen the input closed. */
  predicate SawClosedOk(s: State) {
    (forall k :: 0 <= k < |s.workers| && s.workers[k].at.CheckingInflight? ==> s.inputClosed) &&
    (forall k :: 0 <= k < |s.producers| && s.producers[k].WithdrawInflight? ==> s.inputClosed) &&
    (!s.closer.Resting? ==> s.inputClosed)
  }

  /** Nobody closes `done` too early, and somebody is always still on the way to close it. */
  predicate LatchOk(s: State) {
    SawClosedOk(s) &&
    (s.done ==> s.inputClosed) &&
    (s.inputClosed && s.cleanClose ==> NoneChecked(s)) &&
    (s.done && s.cleanClose ==> s.inflight == 0) &&
    (s.inputClosed && s.inflight == 0 && !s.done ==> Triers(s) > 0)
  }

  lemma ChargesNonNegative(s: State)
    ensures SumBy(s.workers, Charge()) >= 0 && SumBy(s.producers, PCharge()) >= 0
    ensures forall k :: 0 <= k < |s.workers| ==> Charge()(s.workers[k]) <= SumBy(s.workers, Charge())
    ensures forall k :: 0 <= k < |s.producers| ==> PCharge()(s.producers[k]) <= SumBy(s.producers, PCharge())
  {
    SumByNonNegative(s.workers, Charge());
    SumByNonNegative(s.producers, PCharge());
  }

  lemma TryingNonNegative(s: State)
    ensures SumBy(s.workers, Trying()) >= 0 && SumBy(s.producers, PTrying()) >= 0
    ensures forall k :: 0 <= k < |s.workers| ==> Trying()(s.workers[k]) <= SumBy(s.workers, Trying())
    ensures forall k :: 0 <= k < |s.producers| ==> PTrying()(s.producers[k]) <= SumBy(s.producers, PTrying())
  {
    SumByNonNegative(s.workers, Trying());
    SumByNonNegative(s.producers, PTrying());
  }

  /** What a worker step means for the latch, without the sums. */
  lemma WorkerLatch(c: Config, s: State, i: nat, a: WorkerAct)
    requires WorkerEnabled(c, s, i, a) && SawClosedOk(s)
    ensures var e, w, w' := WorkerEffect(c, s, i, a), s.workers[i], WorkerMoves(c, s, i, a);
            (w'.at.CheckingInflight? ==> s.inputClosed) &&
            (e.latch ==> s.inputClosed && s.inflight == 0) &&
            (e.addInflight == 0 || (e.addInflight == -1 && Charge()(w) == 1 && Trying()(w') == 1)) &&
            (Trying()(w') < Trying()(w) ==> !s.inputClosed || s.inflight != 0 || e.latch)
  {
  }

  lemma WorkerKeepsLatch(c: Config, s: State, i: nat, a: WorkerAct)
    requires WorkerEnabled(c, s, i, a) && LatchOk(s) && InflightExact(s)
    ensures LatchOk(WorkerNext(c, s, i, a))
  {
    var s' := WorkerNext(c, s, i, a);
    WorkerLatch(c, s, i, a);
    WorkersAfter(c, s, i, a, Trying());
    ProducersAfterWork(c, s, i, a, PTrying());
    TryingNonNegative(s);
    TryingNonNegative(s');
    ChargesNonNegative(s);
    assert s'.workers[i] == WorkerMoves(c, s, i, a);
  }

  lemma ProducerLatch(c: Config, s: State, p: nat, a: ProducerAct)
    requires ProducerEnabled(c, s, p, a) && SawClosedOk(s)
    ensures var e, q, q' := ProducerEffect(c, s, p, a), s.producers[p], ProducerMoves(c, s, p, a);
            (q'.WithdrawInflight? ==> s.inputClosed) &&
            (q'.Checked? ==> q.Checked? || !s.inputClosed) &&
            (e.latch ==> s.inputClosed && s.inflight == 0) &&
            (e.addInflight == 0 || (e.addInflight == 1 && q.Checked?) ||
             (e.addInflight == -1 && PCharge()(q) == 1 && PTrying()(q') == 1)) &&
            (PTrying()(q') < PTrying()(q) ==> !s.inputClosed || s.inflight != 0 || e.latch)
  {
  }

  lemma ProducerKeepsLatch(c: Config, s: State, p: nat, a: ProducerAct)
    requires ProducerEnabled(c, s, p, a) && LatchOk(s) && InflightExact(s)
    ensures LatchOk(ProducerNext(c, s, p, a))
  {
    var s' := ProducerNext(c, s, p, a);
    ProducerLatch(c, s, p, a);
    ProducersAfter(c, s, p, a, PTrying());
    TryingNonNegative(s);
    TryingNonNegative(s');
    ChargesNonNegative(s);
    assert s'.producers[p] == ProducerMoves(c, s, p, a);
  }

  lemma CloserKeepsLatch(s: State, a: CloserAct)
    requires CloserEnabled(s, a) && LatchOk(s)
    ensures LatchOk(CloserNext(s, a))
  {
    WakeKeepsSum(s.producers, PTrying());
    TryingNonNegative(s);
  }

  lemma StepKeepsLatch(c: Config, s: State, step: Step)
    requires Enabled(c, s, step) && LatchOk(s) && InflightExact(s)
    ensures LatchOk(Next(c, s, step))
  {
    match step
    case Work(i, a) =>
      WorkerKeepsLatch(c, s, i, a);
      assert Next(c, s, step) == WorkerNext(c, s, i, a);
    case Produce(p, a) =>
      ProducerKeepsLatch(c, s, p, a);
      assert Next(c, s, step) == ProducerNext(c, s, p, a);
    case Close(a) => CloserKeepsLatch(s, a);
    case WatcherFires(_) => WakeKeepsSum(s.producers, PTrying());
    case Cancel =>
  }

  // ----- over whole runs -----

  ghost predicate Inv(c: Config, s: State) {
    |s.workers| == c.workers && |s.producers| == c.producers &&
    InflightExact(s) && BufferExact(s) && Numbered(s) && AttemptsBounded(c, s) && LatchOk(s)
  }

  lemma InitInv(c: Config)
    ensures Inv(c, Init(c))
  {
    InitSums(c, Charge(), PCharge());
    InitSums(c, Owes(), ToCredit());
    forall k: nat | 0 < k ensures Placed(Init(c), IndexHit(k)) == 0 {
      InitSums(c, Held(IndexHit(k)), ToCredit());
    }
  }

  lemma StepKeepsInv(c: Config, s: State, step: Step)
    requires Enabled(c, s, step) && Inv(c, s)
    ensures Inv(c, Next(c, s, step))
  {
    StepKeepsInflight(c, s, step);
    StepKeepsBuffer(c, s, step);
    StepKeepsNumbered(c, s, step);
    StepKeepsAttempts(c, s, step);
    StepKeepsLatch(c, s, step);
  }

  lemma {:induction false} RunKeepsInv(c: Config, s: State, steps: seq<Step>, t: State)
    requires Run(c, s, steps, t) && Inv(c, s)
    ensures Inv(c, t)
    decreases |steps|
  {
    if steps != [] {
      StepKeepsInv(c, s, steps[0]);
      RunKeepsInv(c, Next(c, s, steps[0]), steps[1..], t);
    }
  }

  lemma ReachableInv(c: Config, s: State)
    requires Reachable(c, s)
    ensures Inv(c, s)
  {
    var steps :| Run(c, Init(c), steps, s);
    InitInv(c);
    RunKeepsInv(c, Init(c), steps, s);
  }

  lemma ReachableBalanced(c: Config, s: State, h: Page -> int)
    requires Reachable(c, s) && ByContent(h)
    ensures Balanced(s, h)
  {
    var steps :| Run(c, Init(c), steps, s);
    assert Held(h)(Worker(Selecting, false)) == 0 && Pending(h)(Idle(true)) == 0;
    InitSums(c, Held(h), Pending(h));
    RunKeepsBalanced(c, Init(c), steps, s, h);
  }
}
