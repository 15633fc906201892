/**
 How many pages the diff parents can have in the channel and still to send: never more than what the pause
 threshold admits in full pages plus four pages per parent, as long as no page is re-queued and nothing is cancelled.
 */
module AccountDiffCapacity {
  import opened Sums
  import opened Dispatcher
  import opened DispatcherSafety
  import opened DispatcherGate
  import opened AccountDiff
  import opened AccountDiffProof

  /** The most full pages a leftover and one batch can make. */
  const PAGES_PER_PASS: nat := 4

  /** Full pages that fit below the pause threshold. */
  function Below(dc: Config): nat
    requires dc.Valid()
  {
    (dc.pause - 1) / NONCE_PAGE_SIZE
  }

  // ----- runs without re-queues and cancellation -----

  predicate Plain(step: JointStep) {
    step.Inner? ==> step.step != Cancel && (step.step.Work? ==> !step.step.wa.Requeue?)
  }

  ghost predicate PlainRun(u: Setup, j: Joint, steps: seq<JointStep>, t: Joint) {
    JointRun(u, j, steps, t) && forall k :: 0 <= k < |steps| ==> Plain(steps[k])
  }

  ghost predicate PlainReachable(u: Setup, t: Joint) {
    exists steps :: PlainRun(u, JointInit(u), steps, t)
  }

  // ----- a parent and its call -----

  datatype Caller = Caller(parent: Parent, at: Producer)

  function Callers(j: Joint): (cs: seq<Caller>)
    requires |j.parents| == |j.d.producers|
    ensures |cs| == |j.parents| && forall p :: 0 <= p < |cs| ==> cs[p] == Caller(j.parents[p], j.d.producers[p])
  {
    seq(|j.parents|, p requires 0 <= p < |j.parents| => Caller(j.parents[p], j.d.producers[p]))
  }

  predicate Unsent(at: Producer) {
    at.Checked? || at.Counted?
  }

  /** The gate has let the parent through. */
  predicate Passed(at: Producer) {
    at.Idle? || at.GateLeaving?
  }

  /** Pages the parent can still send before it has to pass the gate again. */
  function Ahead(c: Caller): nat {
    match c.parent.phase
    case AtGate => 0
    case Gating => if Passed(c.at) then PAGES_PER_PASS else 0
    case Pulling => PAGES_PER_PASS
    case Flushing => |c.parent.local| / NONCE_PAGE_SIZE
    case AwaitFlush => |c.parent.local| / NONCE_PAGE_SIZE + (if Unsent(c.at) then 1 else 0)
    case AwaitFinal => if Unsent(c.at) then 1 else 0
    case AwaitBail => 0
    case Finished(_) => 0
  }

  /** The parent has sent a page that is not yet counted. */
  function Uncounted(c: Caller): nat {
    if c.at.Crediting? then 1 else 0
  }

  /** The parent has sent its final page, which may be smaller than the others. */
  function Ended(c: Caller): nat {
    if c.parent.phase.Finished? || (c.parent.phase.AwaitFinal? && !Unsent(c.at)) then 1 else 0
  }

  function Share(c: Caller): nat {
    Ahead(c) + Uncounted(c) + Ended(c)
  }

  function AheadOf(): Caller -> int {
    (c: Caller) => Ahead(c)
  }

  function UncountedOf(): Caller -> int {
    (c: Caller) => Uncounted(c)
  }

  function EndedOf(): Caller -> int {
    (c: Caller) => Ended(c)
  }

  function ShareOf(): Caller -> int {
    (c: Caller) => Share(c)
  }

  function Partial(p: Page): nat {
    if |p.nonces| < NONCE_PAGE_SIZE then 1 else 0
  }

  function PartialOf(): Page -> int {
    (p: Page) => Partial(p)
  }

  /** What a parent has in hand and where its call is, by phase. */
  predicate Fits(c: Caller) {
    (c.parent.phase.AtGate? || c.parent.phase.Gating? || c.parent.phase.Pulling? ==> |c.parent.local| < NONCE_PAGE_SIZE) &&
    (c.parent.phase.Flushing? ==> |c.parent.local| < NONCE_PAGE_SIZE + NUM_DIFF_CHILDREN * CHILD_WINDOW) &&
    (c.parent.phase.AwaitFlush? ==> |c.parent.local| < NUM_DIFF_CHILDREN * CHILD_WINDOW) &&
    (c.parent.phase.Gating? ==> c.at.Idle? || InGate(c.at)) &&
    (Unsent(c.at) ==> (c.parent.phase.AwaitFlush? && |c.at.nonces| == NONCE_PAGE_SIZE) || (c.parent.phase.AwaitFinal? && |c.at.nonces| <= NONCE_PAGE_SIZE)) &&
    (c.at.Crediting? ==> (c.parent.phase.AwaitFlush? || c.parent.phase.AwaitFinal?) && c.at.count <= NONCE_PAGE_SIZE) &&
    (c.parent.phase.AwaitFlush? || c.parent.phase.AwaitFinal? ==> !InGate(c.at)) &&
    (c.parent.phase.AtGate? || c.parent.phase.Pulling? || c.parent.phase.Flushing? || c.parent.phase.Finished? ==> c.at.Idle?) &&
    !c.parent.phase.AwaitBail? && !c.at.WithdrawClosed? && !c.at.WithdrawInflight? && (c.at.Idle? ==> c.at.ok)
  }

  lemma ShareIsBounded(c: Caller)
    requires Fits(c)
    ensures Share(c) <= PAGES_PER_PASS
  {
  }

  predicate NoneRestoring(s: State) {
    forall i :: 0 <= i < |s.workers| ==> !s.workers[i].at.Restoring?
  }

  /** The bound, and what it rests on. */
  predicate Loaded(u: Setup, j: Joint)
    requires u.dc.Valid()
  {
    |j.parents| == |j.d.producers| == u.dc.producers && !j.d.cancelled && NoneRestoring(j.d) &&
    (forall p :: 0 <= p < |j.parents| ==> Fits(Callers(j)[p])) &&
    SumBy(j.d.chan, PartialOf()) <= SumBy(Callers(j), EndedOf()) &&
    |j.d.chan| + SumBy(Callers(j), AheadOf()) <= Below(u.dc) + PAGES_PER_PASS * u.dc.producers
  }

  // ----- the gate -----

  /** Pages that are not partial are full. */
  lemma {:induction false} FullPages(chan: seq<Page>)
    ensures NONCE_PAGE_SIZE * (|chan| - SumBy(chan, PartialOf())) <= SumBy(chan, Size())
  {
    if chan != [] {
      FullPages(chan[1..]);
    }
  }

  lemma CreditsAreBounded(j: Joint)
    requires |j.parents| == |j.d.producers| && forall p :: 0 <= p < |j.parents| ==> Fits(Callers(j)[p])
    ensures SumBy(j.d.producers, ToCredit()) <= NONCE_PAGE_SIZE * SumBy(Callers(j), UncountedOf())
  {
    CreditsUpTo(Callers(j), j.d.producers);
  }

  lemma {:induction false} CreditsUpTo(cs: seq<Caller>, ps: seq<Producer>)
    requires |cs| == |ps| && forall p :: 0 <= p < |cs| ==> Fits(cs[p]) && cs[p].at == ps[p]
    ensures SumBy(ps, ToCredit()) <= NONCE_PAGE_SIZE * SumBy(cs, UncountedOf())
  {
    if cs != [] {
      forall p | 0 <= p < |cs[1..]| ensures Fits(cs[1..][p]) && cs[1..][p].at == ps[1..][p] {
        assert Fits(cs[p + 1]);
      }
      CreditsUpTo(cs[1..], ps[1..]);
      assert Fits(cs[0]) && cs[0].at == ps[0];
    }
  }

  /** While the counter is below the pause threshold, the channel holds little more than that many pages. */
  lemma ChannelBelow(u: Setup, j: Joint)
    requires u.dc.Valid() && Loaded(u, j) && BufferExact(j.d) && j.d.count < u.dc.pause
    ensures |j.d.chan| <= Below(u.dc) + SumBy(Callers(j), UncountedOf()) + SumBy(Callers(j), EndedOf())
  {
    FullPages(j.d.chan);
    CreditsAreBounded(j);
    forall w | w in j.d.workers ensures Owes()(w) >= 0 {
      var i :| 0 <= i < |j.d.workers| && j.d.workers[i] == w;
    }
    SumByNonNegative(j.d.workers, Owes());
    var full, credits := |j.d.chan| - SumBy(j.d.chan, PartialOf()), SumBy(Callers(j), UncountedOf());
    assert NONCE_PAGE_SIZE * full <= u.dc.pause - 1 + NONCE_PAGE_SIZE * credits;
    assert full <= Below(u.dc) + credits;
  }

  /** All shares but the one of a parent that has none. */
  lemma SharesOfOthers(cs: seq<Caller>, p: nat)
    requires p < |cs| && Share(cs[p]) == 0 && forall q :: 0 <= q < |cs| ==> Fits(cs[q])
    ensures SumBy(cs, AheadOf()) + SumBy(cs, UncountedOf()) + SumBy(cs, EndedOf()) <= PAGES_PER_PASS * (|cs| - 1)
  {
    var behind := (c: Caller) => Uncounted(c) + Ended(c);
    SumByAdds(cs, behind, UncountedOf(), EndedOf());
    SumByAdds(cs, ShareOf(), AheadOf(), behind);
    var others := cs[..p] + cs[p + 1..];
    assert cs == cs[..p] + [cs[p]] + cs[p + 1..];
    SumByConcat(cs[..p] + [cs[p]], cs[p + 1..], ShareOf());
    SumByPush(cs[..p], cs[p], ShareOf());
    SumByConcat(cs[..p], cs[p + 1..], ShareOf());
    forall c | c in others ensures ShareOf()(c) <= PAGES_PER_PASS {
      var q :| 0 <= q < |others| && others[q] == c;
      assert c == cs[if q < p then q else q + 1];
      ShareIsBounded(c);
    }
    SumByAtMost(others, ShareOf(), PAGES_PER_PASS);
  }

  /** A parent that finds the gate open may add its pages without breaking the bound. */
  lemma GateHasRoom(u: Setup, j: Joint, p: nat)
    requires u.dc.Valid() && Loaded(u, j) && BufferExact(j.d) && j.d.count < u.dc.pause
    requires p < |j.parents| && Share(Callers(j)[p]) == 0
    ensures |j.d.chan| + SumBy(Callers(j), AheadOf()) <= Below(u.dc) + PAGES_PER_PASS * (u.dc.producers - 1)
  {
    ChannelBelow(u, j);
    SharesOfOthers(Callers(j), p);
  }

  // ----- every plain step keeps the bound -----

  /** One caller moves; the channel changes by one page at most. */
  lemma CallerMoves(u: Setup, j: Joint, t: Joint, p: nat, c: Caller)
    requires u.dc.Valid() && Loaded(u, j) && p < |j.parents| && Fits(c)
    requires t.parents == j.parents[p := c.parent] && t.d.producers == j.d.producers[p := c.at]
    requires !t.d.cancelled && NoneRestoring(t.d)
    requires |t.d.chan| + Ahead(c) <= |j.d.chan| + Ahead(Callers(j)[p]) ||
             |t.d.chan| + SumBy(Callers(j), AheadOf()) - Ahead(Callers(j)[p]) + Ahead(c) <= Below(u.dc) + PAGES_PER_PASS * u.dc.producers
    requires SumBy(t.d.chan, PartialOf()) - Ended(c) <= SumBy(j.d.chan, PartialOf()) - Ended(Callers(j)[p])
    ensures Loaded(u, t)
  {
    assert Callers(t) == Callers(j)[p := c];
    SumByUpdate(Callers(j), p, c, AheadOf());
    SumByUpdate(Callers(j), p, c, EndedOf());
  }

  /** Sleepers that wake up have not passed the gate; the channel only loses pages. */
  lemma OthersMove(u: Setup, j: Joint, t: Joint)
    requires u.dc.Valid() && Loaded(u, j) && t.parents == j.parents && !t.d.cancelled && NoneRestoring(t.d)
    requires t.d.producers == j.d.producers || t.d.producers == WakeAll(j.d.producers)
    requires t.d.chan == j.d.chan || (j.d.chan != [] && t.d.chan == j.d.chan[1..])
    ensures Loaded(u, t)
  {
    forall p | 0 <= p < |j.parents|
      ensures Fits(Callers(t)[p]) && Ahead(Callers(t)[p]) == Ahead(Callers(j)[p]) && Ended(Callers(t)[p]) == Ended(Callers(j)[p])
    {
      assert Fits(Callers(j)[p]);
    }
    SumBySame(Callers(t), AheadOf(), Callers(j), AheadOf());
    SumBySame(Callers(t), EndedOf(), Callers(j), EndedOf());
  }

  lemma WorkKeepsLoaded(u: Setup, j: Joint, i: nat, a: WorkerAct)
    requires u.dc.Valid() && Loaded(u, j) && WorkerEnabled(u.dc, j.d, i, a) && !a.Requeue?
    ensures Loaded(u, j.(d := WorkerNext(u.dc, j.d, i, a)))
  {
    var e, d' := WorkerEffect(u.dc, j.d, i, a), WorkerNext(u.dc, j.d, i, a);
    assert e.put == [] && !WorkerMoves(u.dc, j.d, i, a).at.Restoring?;
    assert d'.chan == if e.take then j.d.chan[1..] else j.d.chan;
    OthersMove(u, j, j.(d := d'));
  }

  /** A producer inside its call: it sends, is counted, or finds the gate open. */
  lemma ProduceKeepsLoaded(u: Setup, j: Joint, p: nat, a: ProducerAct)
    requires u.dc.Valid() && Loaded(u, j) && BufferExact(j.d) && ProducerEnabled(u.dc, j.d, p, a) && !a.Gate? && !a.Enqueue?
    ensures Loaded(u, j.(d := ProducerNext(u.dc, j.d, p, a)))
  {
    var t := j.(d := ProducerNext(u.dc, j.d, p, a));
    var c, c' := Callers(j)[p], Caller(j.parents[p], ProducerMoves(u.dc, j.d, p, a));
    assert Fits(c);
    assert t.d.workers == j.d.workers;
    if a.SendPage? {
      assert t.d.chan == j.d.chan + [NewPage(c.at.nonces)];
      SumByPush(j.d.chan, NewPage(c.at.nonces), PartialOf());
    } else {
      assert t.d.chan == j.d.chan;
    }
    if a.Evaluate? && j.d.count < u.dc.pause {
      GateHasRoom(u, j, p);
    }
    CallerMoves(u, j, t, p, c');
  }

  lemma InnerKeepsLoaded(u: Setup, j: Joint, ds: Step)
    requires u.dc.Valid() && Loaded(u, j) && BufferExact(j.d) && JointEnabled(u, j, Inner(ds)) && Plain(Inner(ds))
    ensures Loaded(u, JointNext(u, j, Inner(ds)))
  {
    var t := JointNext(u, j, Inner(ds));
    match ds
    case Work(i, a) => WorkKeepsLoaded(u, j, i, a);
    case Produce(p, a) => ProduceKeepsLoaded(u, j, p, a);
    case _ => OthersMove(u, j, t);
  }

  /** What a parent step does to the parent and its call. */
  lemma OutcomeFits(u: Setup, j: Joint, p: nat, a: ParentAct)
    requires u.dc.Valid() && Loaded(u, j) && ParentEnabled(u, j, p, a) && Phased(u, j)
    requires a.Pull? ==> |a.result| <= NUM_DIFF_CHILDREN * CHILD_WINDOW
    ensures var o := ParentOutcome(u, j.d.producers[p], j.parents[p], a);
            var c, c' := Callers(j)[p], Caller(Parent(o.phase, o.local), ParentNext(u, j, p, a).d.producers[p]);
            Fits(c') && Ended(c') >= Ended(c) && (Ahead(c') <= Ahead(c) || (a.StartGate? && j.d.count < u.dc.pause && Share(c) == 0))
  {
    var c := Callers(j)[p];
    assert Fits(c);
    OpenWhileActing(u, j, p, a);
    var o := ParentOutcome(u, j.d.producers[p], j.parents[p], a);
    if o.call.Some? {
      assert ParentNext(u, j, p, a).d.producers[p] == ProducerMoves(u.dc, j.d, p, o.call.value);
    }
  }

  lemma ParentKeepsLoaded(u: Setup, j: Joint, p: nat, a: ParentAct)
    requires u.dc.Valid() && Loaded(u, j) && BufferExact(j.d) && ParentEnabled(u, j, p, a) && Phased(u, j)
    requires a.Pull? ==> |a.result| <= NUM_DIFF_CHILDREN * CHILD_WINDOW
    ensures Loaded(u, ParentNext(u, j, p, a))
  {
    var t, o := ParentNext(u, j, p, a), ParentOutcome(u, j.d.producers[p], j.parents[p], a);
    OutcomeFits(u, j, p, a);
    OpenWhileActing(u, j, p, a);
    if o.call.Some? {
      CallShape(u.dc, j.d, p, o.call.value);
      assert j.d.chan + [] == j.d.chan;
    }
    assert t.d.chan == j.d.chan && t.d.workers == j.d.workers;
    if a.StartGate? && j.d.count < u.dc.pause {
      GateHasRoom(u, j, p);
    }
    CallerMoves(u, j, t, p, Caller(t.parents[p], t.d.producers[p]));
  }

  // ----- whole runs -----

  /** A pull brings at most what the children's windows hold. */
  predicate ShortBatches(u: Setup, j: Joint) {
    u.full ==> forall k :: 0 <= k < |j.iter| ==> |j.iter[k]| <= NUM_DIFF_CHILDREN * CHILD_WINDOW
  }

  lemma {:induction false} AbsentShorter(client: set<Nonce>, ns: seq<Nonce>)
    ensures |Absent(client, ns)| <= |ns|
  {
    if ns != [] {
      AbsentShorter(client, ns[1..]);
    }
  }

  lemma PullIsShort(u: Setup, j: Joint, p: nat, result: seq<Nonce>)
    requires ParentEnabled(u, j, p, Pull(result)) && ShortBatches(u, j)
    ensures |result| <= NUM_DIFF_CHILDREN * CHILD_WINDOW
  {
    if !u.full {
      ChildrenReturn(u.client, j.work[0], result);
      assert |multiset(result)| == |result|;
      AbsentShorter(u.client, Served(j.work[0]));
      assert |multiset(Absent(u.client, Served(j.work[0])))| == |Absent(u.client, Served(j.work[0]))|;
    }
  }

  lemma StepKeepsLoaded(u: Setup, j: Joint, step: JointStep)
    requires u.dc.Valid() && Loaded(u, j) && BufferExact(j.d) && Phased(u, j) && ShortBatches(u, j)
    requires JointEnabled(u, j, step) && Plain(step)
    ensures Loaded(u, JointNext(u, j, step)) && ShortBatches(u, JointNext(u, j, step))
  {
    var t := JointNext(u, j, step);
    match step
    case Inner(ds) => InnerKeepsLoaded(u, j, ds);
    case Do(p, a) =>
      if a.Pull? {
        PullIsShort(u, j, p, a.result);
      }
      ParentKeepsLoaded(u, j, p, a);
    case _ => OthersMove(u, j, t);
  }

  lemma {:induction false} RunKeepsLoaded(u: Setup, j: Joint, steps: seq<JointStep>, t: Joint)
    requires u.dc.Valid() && PlainRun(u, j, steps, t) && JointInv(u, j) && Loaded(u, j) && ShortBatches(u, j)
    ensures Loaded(u, t)
    decreases |steps|
  {
    if steps != [] {
      var n := JointNext(u, j, steps[0]);
      ReachableInv(u.dc, j.d);
      StepKeepsLoaded(u, j, steps[0]);
      StepKeepsReachable(u, j, steps[0]);
      StepKeepsPhased(u, j, steps[0]);
      StepKeepsCalm(u, j, steps[0]);
      StepKeepsEnded(u, j, steps[0]);
      RunKeepsLoaded(u, n, steps[1..], t);
    }
  }

  lemma InitLoaded(u: Setup)
    requires u.dc.Valid()
    ensures Loaded(u, JointInit(u)) && JointInv(u, JointInit(u))
  {
    var j := JointInit(u);
    assert Run(u.dc, Init(u.dc), [], Init(u.dc));
    SumByConstant(Callers(j), AheadOf(), 0);
    SumByConstant(Callers(j), EndedOf(), 0);
  }

  /**
   In every state that can be reached without a re-queue and without cancellation, the pages in the channel and
   those the parents may still send before their next gate pass are at most the full pages below the pause
   threshold plus four per parent.
   */
  lemma LoadIsBounded(u: Setup, t: Joint)
    requires u.Valid() && WindowedBatches(u) && PlainReachable(u, t)
    ensures |t.parents| == |t.d.producers| == u.dc.producers
    ensures |t.d.chan| + SumBy(Callers(t), AheadOf()) <= Below(u.dc) + PAGES_PER_PASS * u.dc.producers
  {
    var steps :| PlainRun(u, JointInit(u), steps, t);
    InitLoaded(u);
    RunKeepsLoaded(u, JointInit(u), steps, t);
  }

  /** An enqueue blocks: some producer wants to send and the channel is full. */
  predicate Blocked(u: Setup, t: Joint) {
    |t.d.chan| >= u.dc.cap && exists p :: 0 <= p < |t.d.producers| && t.d.producers[p].Counted?
  }

  /** So with that much capacity no enqueue ever blocks. */
  lemma NeverBlocks(u: Setup, t: Joint)
    requires u.Valid() && WindowedBatches(u) && PlainReachable(u, t)
    requires u.dc.cap >= Below(u.dc) + PAGES_PER_PASS * u.dc.producers
    ensures !Blocked(u, t)
  {
    var steps :| PlainRun(u, JointInit(u), steps, t);
    InitLoaded(u);
    RunKeepsLoaded(u, JointInit(u), steps, t);
    forall p | 0 <= p < |t.d.producers| && t.d.producers[p].Counted? ensures |t.d.chan| < u.dc.cap {
      assert Fits(Callers(t)[p]) && Ahead(Callers(t)[p]) >= 1;
      SumByNonNegative(Callers(t), AheadOf());
      assert AheadOf()(Callers(t)[p]) <= SumBy(Callers(t), AheadOf());
    }
  }
}
