/** End to end: what the client lacks is what is delivered or dead-lettered. */
module AccountDiffProof {
  import opened Options
  import opened Sums
  import opened Dispatcher
  import opened DispatcherSafety
  import opened DispatcherTheorems
  import opened AccountDiff

  // ----- children -----

  lemma {:induction false} AbsentConcat(client: set<Nonce>, xs: seq<Nonce>, ys: seq<Nonce>)
    ensures Absent(client, xs + ys) == Absent(client, xs) + Absent(client, ys)
  {
    if xs == [] {
      assert xs + ys == ys;
    } else {
      assert (xs + ys)[1..] == xs[1..] + ys;
      AbsentConcat(client, xs[1..], ys);
    }
  }

  /** A child reports a nonce as often as its slice lists it if the client lacks it, and never if the client holds it. */
  lemma {:induction false} AbsentCount(client: set<Nonce>, ns: seq<Nonce>, v: Nonce)
    ensures multiset(Absent(client, ns))[v] == if v in client then 0 else multiset(ns)[v]
  {
    if ns != [] {
      AbsentCount(client, ns[1..], v);
      assert ns == [ns[0]] + ns[1..];
    }
  }

  lemma {:induction false} ChildrenCover(client: set<Nonce>, batch: seq<Nonce>, i: nat)
    requires i <= NUM_DIFF_CHILDREN
    ensures Concat(ChildOutputs(client, batch, i)) ==
            Absent(client, Served(batch)[Min(i * CHILD_WINDOW, |Served(batch)|)..])
    decreases NUM_DIFF_CHILDREN - i
  {
    var served := Served(batch);
    if i >= Min(NUM_DIFF_CHILDREN, |batch|) || i * CHILD_WINDOW >= |batch| {
      assert served[|served|..] == [];
    } else {
      var lo, hi := i * CHILD_WINDOW, Min((i + 1) * CHILD_WINDOW, |batch|);
      ChildrenCover(client, batch, i + 1);
      assert hi == Min((i + 1) * CHILD_WINDOW, |served|);
      assert served[lo..] == batch[lo..hi] + served[hi..];
      AbsentConcat(client, batch[lo..hi], served[hi..]);
      assert ChildOutputs(client, batch, i)[1..] == ChildOutputs(client, batch, i + 1);
    }
  }

  function Occurrences(v: Nonce): seq<Nonce> -> int {
    (ns: seq<Nonce>) => multiset(ns)[v]
  }

  lemma {:induction false} ConcatCount(parts: seq<seq<Nonce>>, v: Nonce)
    ensures multiset(Concat(parts))[v] == SumBy(parts, Occurrences(v))
  {
    if parts != [] {
      ConcatCount(parts[1..], v);
    }
  }

  lemma ConcatPermuted(xs: seq<seq<Nonce>>, ys: seq<seq<Nonce>>)
    requires multiset(xs) == multiset(ys)
    ensures multiset(Concat(xs)) == multiset(Concat(ys))
  {
    forall v: Nonce ensures multiset(Concat(xs))[v] == multiset(Concat(ys))[v] {
      ConcatCount(xs, v);
      ConcatCount(ys, v);
      SumByPermuted(xs, ys, Occurrences(v));
    }
  }

  lemma ChildrenReturn(client: set<Nonce>, batch: seq<Nonce>, result: seq<Nonce>)
    requires ChildrenMayReturn(client, batch, result)
    ensures multiset(result) == multiset(Absent(client, Served(batch)))
  {
    var order: seq<seq<Nonce>> :| multiset(order) == multiset(ChildOutputs(client, batch, 0)) && result == Concat(order);
    ConcatPermuted(order, ChildOutputs(client, batch, 0));
    ChildrenCover(client, batch, 0);
    assert Served(batch)[0..] == Served(batch);
  }

  /** Every nonce the client lacks is returned as often as ns lists it, and no other. */
  ghost predicate FoundAll(client: set<Nonce>, ns: seq<Nonce>, result: seq<Nonce>) {
    forall v: Nonce :: multiset(result)[v] == if v in client then 0 else multiset(ns)[v]
  }

  /** In whatever order children finish, they find all and only what the client lacks within their windows. */
  lemma ChildrenFind(client: set<Nonce>, batch: seq<Nonce>, result: seq<Nonce>)
    requires ChildrenMayReturn(client, batch, result)
    ensures FoundAll(client, batch[..Min(|batch|, PARENT_MEMORY_WINDOW)], result)
  {
    ChildrenReturn(client, batch, result);
    forall v: Nonce ensures multiset(result)[v] == if v in client then 0 else multiset(Served(batch))[v] {
      AbsentCount(client, Served(batch), v);
    }
  }

  lemma RestIsHeld(client: set<Nonce>, xs: seq<Nonce>, ys: seq<Nonce>, result: seq<Nonce>)
    requires FoundAll(client, xs, result)
    ensures FoundAll(client, xs + ys, result) <==> forall k :: 0 <= k < |ys| ==> ys[k] in client
  {
    forall v: Nonce ensures multiset(xs + ys)[v] == multiset(xs)[v] + multiset(ys)[v] {
    }
    if FoundAll(client, xs + ys, result) {
      forall k | 0 <= k < |ys| ensures ys[k] in client {
        assert ys[k] in multiset(ys);
        assert multiset(result)[ys[k]] == if ys[k] in client then 0 else multiset(xs)[ys[k]];
      }
    } else {
      var v :| multiset(result)[v] != if v in client then 0 else multiset(xs + ys)[v];
      assert v !in client && v in multiset(ys);
      var k :| 0 <= k < |ys| && ys[k] == v;
    }
  }

  lemma RestAt(batch: seq<Nonce>, n: nat, client: set<Nonce>)
    requires n <= |batch|
    ensures (forall k :: 0 <= k < |batch[n..]| ==> batch[n..][k] in client) <==> forall k :: n <= k < |batch| ==> batch[k] in client
  {
    if forall k :: 0 <= k < |batch[n..]| ==> batch[n..][k] in client {
      forall k | n <= k < |batch| ensures batch[k] in client {
        assert batch[n..][k - n] == batch[k];
      }
    }
  }

  lemma FirstPartCompleteIff(client: set<Nonce>, batch: seq<Nonce>, n: nat, result: seq<Nonce>)
    requires n <= |batch| && FoundAll(client, batch[..n], result)
    ensures FoundAll(client, batch, result) <==> forall k :: n <= k < |batch| ==> batch[k] in client
  {
    RestIsHeld(client, batch[..n], batch[n..], result);
    assert batch == batch[..n] + batch[n..];
    RestAt(batch, n, client);
  }

  /** A batch is searched completely exactly when the client holds everything beyond the children's windows. */
  lemma ChildrenCompleteIff(client: set<Nonce>, batch: seq<Nonce>, result: seq<Nonce>)
    requires ChildrenMayReturn(client, batch, result)
    ensures FoundAll(client, batch, result) <==> forall k :: PARENT_MEMORY_WINDOW <= k < |batch| ==> batch[k] in client
  {
    ChildrenFind(client, batch, result);
    FirstPartCompleteIff(client, batch, Min(|batch|, PARENT_MEMORY_WINDOW), result);
  }

  // ----- counting one nonce -----

  function BatchHits(u: Setup, v: Nonce, batch: seq<Nonce>): int {
    if u.full then multiset(batch)[v]
    else if v in u.client then 0
    else multiset(Served(batch))[v]
  }

  function Wanted(u: Setup, v: Nonce): seq<Nonce> -> int {
    (batch: seq<Nonce>) => BatchHits(u, v, batch)
  }

  function Local(v: Nonce): Parent -> int {
    (p: Parent) => multiset(p.local)[v]
  }

  function Paged(v: Nonce): Page -> int {
    CountOf(Nonces(), v)
  }

  /** Every wanted nonce is unread, queued, in a parent's leftover, offered to the dispatcher, or dropped on an error. */
  predicate Accounted(u: Setup, j: Joint, v: Nonce) {
    SumBy(u.batches, Wanted(u, v)) ==
    SumBy(j.iter, Wanted(u, v)) + SumBy(j.work, Wanted(u, v)) + SumBy(j.parents, Local(v)) +
    SumBy(j.d.offered, Paged(v)) + j.abandoned[v]
  }

  function Called(call: Option<ProducerAct>): seq<Nonce> {
    if call.Some? && call.value.Enqueue? then call.value.nonces else []
  }

  /** A parent step hands on exactly what it had. */
  lemma OutcomeHandsOn(u: Setup, at: Producer, parent: Parent, a: ParentAct, v: Nonce)
    requires at.Idle?
    ensures var o := ParentOutcome(u, at, parent, a);
            multiset(parent.local)[v] + (if a.Pull? then multiset(a.result)[v] else 0) ==
            multiset(o.local)[v] + multiset(Called(o.call))[v] + multiset(o.drop)[v]
  {
    if a.Flush? && |parent.local| >= NONCE_PAGE_SIZE {
      assert parent.local == parent.local[..NONCE_PAGE_SIZE] + parent.local[NONCE_PAGE_SIZE..];
    }
  }

  lemma CallOffers(u: Setup, d: State, p: nat, call: ProducerAct, v: Nonce)
    requires ProducerEnabled(u.dc, d, p, call) && (call.Gate? || call.Enqueue?)
    ensures SumBy(ProducerNext(u.dc, d, p, call).offered, Paged(v)) ==
            SumBy(d.offered, Paged(v)) + multiset(Called(Some(call)))[v]
  {
    var e := ProducerEffect(u.dc, d, p, call);
    SumByConcat(d.offered, e.offer, Paged(v));
    if call.Enqueue? && call.nonces != [] {
      SingleSum(NewPage(call.nonces), Paged(v));
    }
  }

  lemma ParentKeepsAccounted(u: Setup, j: Joint, p: nat, a: ParentAct, v: Nonce)
    requires ParentEnabled(u, j, p, a) && Accounted(u, j, v)
    ensures Accounted(u, ParentNext(u, j, p, a), v)
  {
    var o := ParentOutcome(u, j.d.producers[p], j.parents[p], a);
    OutcomeHandsOn(u, j.d.producers[p], j.parents[p], a, v);
    SumByUpdate(j.parents, p, Parent(o.phase, o.local), Local(v));
    if o.call.Some? {
      CallOffers(u, j.d, p, o.call.value, v);
    }
    if a.Pull? && !u.full {
      ChildrenFind(u.client, j.work[0], a.result);
    }
  }

  /** Only the start of an enqueue call offers a page. */
  lemma InnerOffersNothing(c: Config, s: State, step: Step)
    requires Enabled(c, s, step) && !StartsCall(step)
    ensures Next(c, s, step).offered == s.offered
  {
    match step
    case Work(i, a) => assert WorkerEffect(c, s, i, a).offer == [];
    case Produce(p, a) => assert ProducerEffect(c, s, p, a).offer == [];
    case _ =>
  }

  lemma StepKeepsAccounted(u: Setup, j: Joint, step: JointStep, v: Nonce)
    requires JointEnabled(u, j, step) && Accounted(u, j, v)
    ensures Accounted(u, JointNext(u, j, step), v)
  {
    match step
    case Inner(ds) => InnerOffersNothing(u.dc, j.d, ds);
    case Feed => SumByPush(j.work, j.iter[0], Wanted(u, v));
    case Do(p, a) => ParentKeepsAccounted(u, j, p, a, v);
    case _ =>
  }

  lemma {:induction false} RunKeepsAccounted(u: Setup, j: Joint, steps: seq<JointStep>, t: Joint, v: Nonce)
    requires JointRun(u, j, steps, t) && Accounted(u, j, v)
    ensures Accounted(u, t, v)
    decreases |steps|
  {
    if steps != [] {
      StepKeepsAccounted(u, j, steps[0], v);
      RunKeepsAccounted(u, JointNext(u, j, steps[0]), steps[1..], t, v);
    }
  }

  // ----- parents and the dispatcher stay in step -----

  predicate ParentOk(parent: Parent, at: Producer) {
    (parent.phase.AtGate? || parent.phase.Gating? || parent.phase.Pulling? ==> |parent.local| < NONCE_PAGE_SIZE) &&
    (parent.phase.AtGate? || parent.phase.Pulling? || parent.phase.Flushing? || parent.phase.Finished? ==> at.Idle?) &&
    (parent.phase.AwaitFinal? || parent.phase.AwaitBail? || parent.phase.Finished? ==> parent.local == [])
  }

  predicate PageSizeOk(p: Page) {
    1 <= |p.nonces| <= NONCE_PAGE_SIZE
  }

  predicate Phased(u: Setup, j: Joint) {
    |j.parents| == u.dc.producers == |j.d.producers| &&
    (forall p :: 0 <= p < |j.parents| ==> ParentOk(j.parents[p], j.d.producers[p])) &&
    (forall k :: 0 <= k < |j.d.offered| ==> PageSizeOk(j.d.offered[k])) &&
    (j.d.inputClosed ==> AllFinished(j)) && j.d.cleanClose
  }

  lemma OutcomeOk(u: Setup, j: Joint, p: nat, a: ParentAct)
    requires ParentEnabled(u, j, p, a) && Phased(u, j)
    ensures var o := ParentOutcome(u, j.d.producers[p], j.parents[p], a);
            (o.phase.AtGate? || o.phase.Gating? || o.phase.Pulling? ==> |o.local| < NONCE_PAGE_SIZE) &&
            (o.phase.AwaitFinal? || o.phase.AwaitBail? || o.phase.Finished? ==> o.local == []) &&
            (o.call.Some? ==> o.phase.Gating? || o.phase.AwaitFlush? || o.phase.AwaitFinal? || o.phase.AwaitBail?) &&
            (o.call.Some? && o.call.value.Enqueue? ==> 1 <= |o.call.value.nonces| <= NONCE_PAGE_SIZE)
  {
  }

  /** A step that starts no call leaves idle producers and the closing flags alone. */
  predicate KeepsIdle(s: State, s': State) {
    |s'.producers| == |s.producers| && s'.inputClosed == s.inputClosed && s'.cleanClose == s.cleanClose &&
    forall p :: 0 <= p < |s.producers| && s.producers[p].Idle? ==> s'.producers[p] == s.producers[p]
  }

  lemma InnerKeepsIdle(c: Config, s: State, step: Step)
    requires Enabled(c, s, step) && !StartsCall(step)
    ensures KeepsIdle(s, Next(c, s, step))
  {
    match step
    case Work(i, a) => assert KeepsIdle(s, WorkerNext(c, s, i, a));
    case Produce(p, a) => assert KeepsIdle(s, ProducerNext(c, s, p, a));
    case _ =>
  }

  lemma StepKeepsPhased(u: Setup, j: Joint, step: JointStep)
    requires JointEnabled(u, j, step) && Phased(u, j)
    ensures Phased(u, JointNext(u, j, step))
  {
    match step
    case Inner(ds) =>
      InnerOffersNothing(u.dc, j.d, ds);
      InnerKeepsIdle(u.dc, j.d, ds);
    case CloseAll =>
    case Do(p, a) => ParentKeepsPhased(u, j, p, a);
    case _ =>
  }

  lemma OpenWhileActing(u: Setup, j: Joint, p: nat, a: ParentAct)
    requires ParentEnabled(u, j, p, a) && Phased(u, j)
    ensures !j.d.inputClosed
  {
    assert !j.parents[p].phase.Finished?;
  }

  /** Starting a call on an open dispatcher moves only the caller. */
  lemma CallShape(c: Config, d: State, p: nat, call: ProducerAct)
    requires ProducerEnabled(c, d, p, call) && (call.Gate? || call.Enqueue?) && !d.inputClosed
    ensures var d' := ProducerNext(c, d, p, call);
            d'.producers == d.producers[p := d'.producers[p]] && Untroubled(d'.producers[p]) &&
            d'.offered == d.offered + (if Called(Some(call)) == [] then [] else [NewPage(Called(Some(call)))]) &&
            d'.refused == d.refused && d'.cancelled == d.cancelled && !d'.inputClosed && d'.cleanClose == d.cleanClose
  {
    assert d.refused + [] == d.refused;
  }

  /** Phased survives when one parent moves and at most one page is offered. */
  lemma PhasedUpdate(u: Setup, j: Joint, t: Joint, p: nat, parent: Parent, at: Producer, offer: seq<Page>)
    requires Phased(u, j) && p < |j.parents| && !t.d.inputClosed && t.d.cleanClose
    requires t.parents == j.parents[p := parent] && t.d.producers == j.d.producers[p := at] && ParentOk(parent, at)
    requires t.d.offered == j.d.offered + offer && forall k :: 0 <= k < |offer| ==> PageSizeOk(offer[k])
    ensures Phased(u, t)
  {
  }

  lemma ParentKeepsPhased(u: Setup, j: Joint, p: nat, a: ParentAct)
    requires ParentEnabled(u, j, p, a) && Phased(u, j)
    ensures Phased(u, ParentNext(u, j, p, a))
  {
    var t := ParentNext(u, j, p, a);
    var o := ParentOutcome(u, j.d.producers[p], j.parents[p], a);
    OutcomeOk(u, j, p, a);
    OpenWhileActing(u, j, p, a);
    if o.call.Some? {
      CallShape(u.dc, j.d, p, o.call.value);
      var ns := Called(o.call);
      PhasedUpdate(u, j, t, p, Parent(o.phase, o.local), t.d.producers[p], if ns == [] then [] else [NewPage(ns)]);
    } else {
      PhasedUpdate(u, j, t, p, Parent(o.phase, o.local), j.d.producers[p], []);
    }
  }

  // ----- nothing goes wrong without cancellation -----

  predicate Untroubled(at: Producer) {
    !at.WithdrawClosed? && !at.WithdrawInflight? && (at.Idle? ==> at.ok)
  }

  predicate Calm(u: Setup, j: Joint) {
    (j.feedStopped ==> j.d.cancelled) &&
    (!j.d.cancelled ==>
       j.d.refused == [] && (forall p :: 0 <= p < |j.d.producers| ==> Untroubled(j.d.producers[p])) &&
       (!j.iterFailed ==> j.abandoned == multiset{} &&
                          forall p :: 0 <= p < |j.parents| && j.parents[p].phase.Finished? ==> j.parents[p].phase.ok) &&
       forall p :: 0 <= p < |j.parents| ==> !j.parents[p].phase.AwaitBail?)
  }

  lemma InnerKeepsCalm(c: Config, s: State, step: Step)
    requires Enabled(c, s, step) && !StartsCall(step)
    requires s.refused == [] && forall p :: 0 <= p < |s.producers| ==> Untroubled(s.producers[p])
    ensures var s' := Next(c, s, step);
            !s'.cancelled ==> s'.refused == [] && forall p :: 0 <= p < |s'.producers| ==> Untroubled(s'.producers[p])
  {
    match step
    case Work(i, a) => assert WorkerEffect(c, s, i, a).refuse == [];
    case _ =>
  }

  lemma StepKeepsCalm(u: Setup, j: Joint, step: JointStep)
    requires JointEnabled(u, j, step) && Phased(u, j) && Calm(u, j)
    ensures Calm(u, JointNext(u, j, step))
  {
    match step
    case Inner(ds) =>
      if j.d.cancelled {
        CancelledStays(u.dc, j.d, ds);
      } else {
        InnerKeepsCalm(u.dc, j.d, ds);
      }
    case Do(p, a) => ParentKeepsCalm(u, j, p, a);
    case _ =>
  }

  lemma CancelledStays(c: Config, s: State, step: Step)
    requires Enabled(c, s, step) && s.cancelled
    ensures Next(c, s, step).cancelled
  {
  }

  /** Without cancellation a parent never gives up and drops nothing, unless its own iterator read fails. */
  lemma OutcomeCalm(u: Setup, j: Joint, p: nat, a: ParentAct)
    requires ParentEnabled(u, j, p, a) && !j.d.cancelled && j.d.producers[p].ok && !j.parents[p].phase.AwaitBail?
    requires ParentOk(j.parents[p], j.d.producers[p])
    ensures var o := ParentOutcome(u, j.d.producers[p], j.parents[p], a);
            !o.phase.AwaitBail? && (o.drop == [] || a.PullFail?) && (o.phase.Finished? ==> o.phase.ok || a.PullFail?)
  {
  }

  lemma CalmUpdate(u: Setup, j: Joint, t: Joint, p: nat, parent: Parent, at: Producer, drop: seq<Nonce>)
    requires Calm(u, j) && p < |j.parents| == |j.d.producers| && t.feedStopped == j.feedStopped
    requires t.d.cancelled == j.d.cancelled && t.d.refused == j.d.refused && (j.iterFailed ==> t.iterFailed)
    requires t.parents == j.parents[p := parent] && t.d.producers == j.d.producers[p := at]
    requires t.abandoned == j.abandoned + multiset(drop)
    requires !j.d.cancelled ==> Untroubled(at) && !parent.phase.AwaitBail?
    requires !j.d.cancelled && !t.iterFailed ==> drop == [] && (parent.phase.Finished? ==> parent.phase.ok)
    ensures Calm(u, t)
  {
  }

  lemma ParentKeepsCalm(u: Setup, j: Joint, p: nat, a: ParentAct)
    requires ParentEnabled(u, j, p, a) && Phased(u, j) && Calm(u, j)
    ensures Calm(u, ParentNext(u, j, p, a))
  {
    var t := ParentNext(u, j, p, a);
    var o := ParentOutcome(u, j.d.producers[p], j.parents[p], a);
    OpenWhileActing(u, j, p, a);
    if o.call.Some? {
      CallShape(u.dc, j.d, p, o.call.value);
    } else {
      assert t.d.producers == j.d.producers[p := t.d.producers[p]];
    }
    if !j.d.cancelled {
      assert Untroubled(j.d.producers[p]) && ParentOk(j.parents[p], j.d.producers[p]);
      OutcomeCalm(u, j, p, a);
    }
    CalmUpdate(u, j, t, p, Parent(o.phase, o.local), t.d.producers[p], o.drop);
  }

  // ----- input exhausted -----

  predicate Exhausted(u: Setup, j: Joint) {
    if u.full then j.iter == [] else j.work == [] && j.workClosed
  }

  predicate Ended(u: Setup, j: Joint) {
    (forall p :: 0 <= p < |j.parents| && (j.parents[p].phase.AwaitFinal? || j.parents[p].phase == Finished(true)) ==> Exhausted(u, j)) &&
    (u.full ==> j.work == []) &&
    (j.workClosed && !j.iterFailed && !j.feedStopped ==> j.iter == [])
  }

  lemma StepKeepsEnded(u: Setup, j: Joint, step: JointStep)
    requires JointEnabled(u, j, step) && Ended(u, j)
    ensures Ended(u, JointNext(u, j, step))
  {
    match step
    case Do(p, a) =>
      var o := ParentOutcome(u, j.d.producers[p], j.parents[p], a);
      assert o.phase.AwaitFinal? || o.phase == Finished(true) ==> a.PullEnd? || a.EndFinal?;
    case _ =>
  }

  // ----- whole runs -----

  ghost predicate JointInv(u: Setup, j: Joint) {
    Reachable(u.dc, j.d) && Phased(u, j) && Calm(u, j) && Ended(u, j)
  }

  lemma StepKeepsReachable(u: Setup, j: Joint, step: JointStep)
    requires JointEnabled(u, j, step) && Reachable(u.dc, j.d)
    ensures Reachable(u.dc, JointNext(u, j, step).d)
  {
    match step
    case Inner(ds) => ReachableStep(u.dc, j.d, ds);
    case CloseAll => ReachableStep(u.dc, j.d, Close(Store));
    case Do(p, a) =>
      var o := ParentOutcome(u, j.d.producers[p], j.parents[p], a);
      if o.call.Some? {
        ReachableStep(u.dc, j.d, Produce(p, o.call.value));
      }
    case _ =>
  }

  lemma {:induction false} RunKeepsJointInv(u: Setup, j: Joint, steps: seq<JointStep>, t: Joint)
    requires JointRun(u, j, steps, t) && JointInv(u, j)
    ensures JointInv(u, t)
    decreases |steps|
  {
    if steps != [] {
      var n := JointNext(u, j, steps[0]);
      StepKeepsReachable(u, j, steps[0]);
      StepKeepsPhased(u, j, steps[0]);
      StepKeepsCalm(u, j, steps[0]);
      StepKeepsEnded(u, j, steps[0]);
      RunKeepsJointInv(u, n, steps[1..], t);
    }
  }

  lemma JointReachableInv(u: Setup, t: Joint)
    requires JointReachable(u, t)
    ensures JointInv(u, t)
    ensures forall v: Nonce :: Accounted(u, t, v)
  {
    var steps :| JointRun(u, JointInit(u), steps, t);
    assert Run(u.dc, Init(u.dc), [], Init(u.dc));
    RunKeepsJointInv(u, JointInit(u), steps, t);
    forall v: Nonce ensures Accounted(u, t, v) {
      SumByConstant(JointInit(u).parents, Local(v), 0);
      RunKeepsAccounted(u, JointInit(u), steps, t, v);
    }
  }

  /** How often nonce v ends up in a page of ps. */
  function Hits(ps: seq<Page>, v: Nonce): nat {
    BagBy(ps, Nonces())[v]
  }

  /** Wanted nonces that were never handed to the dispatcher: unread batches, queued batches, dropped leftovers. */
  function NotHanded(u: Setup, j: Joint, v: Nonce): int {
    SumBy(j.iter, Wanted(u, v)) + SumBy(j.work, Wanted(u, v)) + j.abandoned[v]
  }

  lemma FinishedHoldsNothing(u: Setup, j: Joint, v: Nonce)
    requires Phased(u, j) && AllFinished(j)
    ensures SumBy(j.parents, Local(v)) == 0 && SumBy(j.d.producers, Pending(Paged(v))) == 0
  {
    SumByConstant(j.parents, Local(v), 0);
    forall q | q in j.d.producers ensures Pending(Paged(v))(q) == 0 {
      var k :| 0 <= k < |j.d.producers| && j.d.producers[k] == q;
      assert ParentOk(j.parents[k], j.d.producers[k]);
    }
    SumByConstant(j.d.producers, Pending(Paged(v)), 0);
  }

  /**
   Exact accounting when the session is over: each wanted nonce was delivered, dead-lettered, refused by a
   cancelled enqueue, or never handed over.  CloseInput overlaps no enqueue here, so `done` is complete.
   */
  lemma SessionAccounting(u: Setup, t: Joint, v: Nonce)
    requires u.Valid() && JointReachable(u, t) && t.d.done
    ensures SumBy(u.batches, Wanted(u, v)) ==
            Hits(t.d.delivered, v) + Hits(t.d.dead, v) + Hits(t.d.refused, v) + NotHanded(u, t, v)
  {
    JointReachableInv(u, t);
    ReachableInv(u.dc, t.d);
    assert Accounted(u, t, v);
    FinishedHoldsNothing(u, t, v);
    ReachableBalanced(u.dc, t.d, Paged(v));
    BagCount(t.d.admitted, Nonces(), v);
    BagCount(t.d.refused, Nonces(), v);
    DoneIsComplete(u.dc, t.d);
  }

  /** Batches as the iterator promises them. */
  predicate WindowedBatches(u: Setup) {
    forall k :: 0 <= k < |u.batches| ==> |u.batches[k]| <= PARENT_MEMORY_WINDOW
  }

  /** All server nonces, in iterator order. */
  function ServerNonces(batches: seq<seq<Nonce>>): seq<Nonce> {
    if batches == [] then [] else batches[0] + ServerNonces(batches[1..])
  }

  lemma {:induction false} WantedTotal(u: Setup, batches: seq<seq<Nonce>>, v: Nonce)
    requires forall k :: 0 <= k < |batches| ==> |batches[k]| <= PARENT_MEMORY_WINDOW
    ensures SumBy(batches, Wanted(u, v)) == if !u.full && v in u.client then 0 else multiset(ServerNonces(batches))[v]
  {
    if batches != [] {
      WantedTotal(u, batches[1..], v);
      assert Served(batches[0]) == batches[0];
    }
  }

  lemma InputConsumed(u: Setup, t: Joint)
    requires u.Valid() && JointInv(u, t) && AllFinished(t) && !t.d.cancelled && !t.iterFailed
    ensures (t.iter == [] && t.work == []) || u.dc.producers == 0
  {
    if u.dc.producers > 0 {
      assert t.parents[0].phase == Finished(true);
    }
  }

  lemma {:induction false} NoBatchesLeft(u: Setup, j: Joint, steps: seq<JointStep>, t: Joint)
    requires JointRun(u, j, steps, t) && j.iter == [] && j.work == []
    ensures t.iter == [] && t.work == []
    decreases |steps|
  {
    if steps != [] {
      NoBatchesLeft(u, JointNext(u, j, steps[0]), steps[1..], t);
    }
  }

  /**
   End to end: if the session was not cancelled, the iterator did not fail and its batches fit the window, then
   once `done` is closed every nonce the client holds is in no page, and every other is in delivered and
   dead-lettered pages as often as the server lists it; on the full-sync path that is every nonce.
   */
  lemma DiffDelivered(u: Setup, t: Joint, v: Nonce)
    requires u.Valid() && WindowedBatches(u) && JointReachable(u, t)
    requires t.d.done && !t.d.cancelled && !t.iterFailed
    ensures Hits(t.d.delivered, v) + Hits(t.d.dead, v) ==
            if !u.full && v in u.client then 0 else multiset(ServerNonces(u.batches))[v]
  {
    JointReachableInv(u, t);
    ReachableInv(u.dc, t.d);
    InputConsumed(u, t);
    if u.dc.producers == 0 {
      var steps :| JointRun(u, JointInit(u), steps, t);
      NoBatchesLeft(u, JointInit(u), steps, t);
    }
    SessionAccounting(u, t, v);
    WantedTotal(u, u.batches, v);
  }

  function Odd(): Page -> int {
    (p: Page) => OddSize(p)
  }

  function OddSize(p: Page): int {
    if PageSizeOk(p) then 0 else 1
  }

  /** Every page that reaches the client or the dead letters holds between 1 and NONCE_PAGE_SIZE nonces. */
  lemma PagesAreSized(u: Setup, t: Joint)
    requires JointReachable(u, t)
    ensures forall k :: 0 <= k < |t.d.delivered| ==> PageSizeOk(t.d.delivered[k])
    ensures forall k :: 0 <= k < |t.d.dead| ==> PageSizeOk(t.d.dead[k])
  {
    JointReachableInv(u, t);
    var s := t.d;
    ReachableBalanced(u.dc, s, Odd());
    SumByConstant(s.offered, Odd(), 0);
    SumByNonNegative(s.refused, Odd());
    SumByNonNegative(s.producers, Pending(Odd()));
    SumByNonNegative(s.chan, Odd());
    SumByNonNegative(s.workers, Held(Odd()));
    SumByNonNegative(s.delivered, Odd());
    SumByNonNegative(s.dead, Odd());
    forall k | 0 <= k < |s.delivered| ensures PageSizeOk(s.delivered[k]) {
      assert Odd()(s.delivered[k]) <= 0;
    }
    forall k | 0 <= k < |s.dead| ensures PageSizeOk(s.dead[k]) {
      assert Odd()(s.dead[k]) <= 0;
    }
  }
}
