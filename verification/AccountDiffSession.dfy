/**
 What a session that looks finished may have missed: if every parent returned without error, the nonces that did
 not reach a page are exactly those of unread batches, and a cancelled session can leave all of them unread.
 */
module AccountDiffSession {
  import opened Options
  import opened Sums
  import opened Dispatcher
  import opened DispatcherGate
  import opened DispatcherTheorems
  import opened AccountDiff
  import opened AccountDiffProof

  // ----- who is to blame for a dropped nonce -----

  predicate Withdrawn(at: Producer) {
    at.WithdrawClosed? || at.WithdrawInflight? || at == Idle(false)
  }

  /** This parent has failed, or is waiting for a call that has. */
  predicate Blamed(parent: Parent, at: Producer) {
    parent.phase == Finished(false) || parent.phase.AwaitBail? ||
    ((parent.phase.AwaitFlush? || parent.phase.AwaitFinal?) && Withdrawn(at))
  }

  ghost predicate SomeBlamed(j: Joint) {
    exists p :: 0 <= p < |j.parents| && p < |j.d.producers| && Blamed(j.parents[p], j.d.producers[p])
  }

  /** A parent that waits at the gate has no page on its way. */
  predicate GateOnly(parent: Parent, at: Producer) {
    parent.phase.Gating? ==> at.Idle? || InGate(at)
  }

  ghost predicate BlameOk(j: Joint) {
    |j.parents| == |j.d.producers| &&
    (forall p :: 0 <= p < |j.parents| ==> GateOnly(j.parents[p], j.d.producers[p])) &&
    (j.d.refused != [] || j.abandoned != multiset{} ==> SomeBlamed(j))
  }

  lemma BlamedIs(j: Joint, p: nat)
    requires p < |j.parents| && p < |j.d.producers| && Blamed(j.parents[p], j.d.producers[p])
    ensures SomeBlamed(j)
  {
  }

  /** Blame stays where it is. */
  lemma BlameCarries(j: Joint, t: Joint)
    requires |t.parents| == |j.parents| && |t.d.producers| == |j.d.producers|
    requires forall p :: 0 <= p < |j.parents| && p < |j.d.producers| && Blamed(j.parents[p], j.d.producers[p]) ==>
               Blamed(t.parents[p], t.d.producers[p])
    ensures SomeBlamed(j) ==> SomeBlamed(t)
  {
    if SomeBlamed(j) {
      var p :| 0 <= p < |j.parents| && p < |j.d.producers| && Blamed(j.parents[p], j.d.producers[p]);
      BlamedIs(t, p);
    }
  }

  /** A dispatcher step inside a call keeps a withdrawn caller withdrawn and a gate call at the gate. */
  lemma InnerKeepsCaller(c: Config, s: State, step: Step, p: nat)
    requires Enabled(c, s, step) && !StartsCall(step) && p < |s.producers|
    ensures var s' := Next(c, s, step);
            |s'.producers| == |s.producers| && (Withdrawn(s.producers[p]) ==> Withdrawn(s'.producers[p])) &&
            (s.producers[p].Idle? || InGate(s.producers[p]) ==> s'.producers[p].Idle? || InGate(s'.producers[p]))
  {
    match step
    case Work(i, a) => assert Next(c, s, step) == WorkerNext(c, s, i, a);
    case Produce(q, a) => assert Next(c, s, step) == ProducerNext(c, s, q, a);
    case _ =>
  }

  /** Inside calls only a withdrawing producer has a page refused. */
  lemma InnerRefuses(c: Config, s: State, step: Step) returns (p: Option<nat>)
    requires Enabled(c, s, step) && !StartsCall(step)
    ensures p.None? ==> Next(c, s, step).refused == s.refused
    ensures p.Some? ==> p.value < |s.producers| && s.producers[p.value].Counted? && Withdrawn(Next(c, s, step).producers[p.value])
  {
    p := if step.Produce? && step.pa.Withdraw? then Some(step.p) else None;
    if p.None? {
      match step
      case Work(i, a) => assert WorkerEffect(c, s, i, a).refuse == [];
      case Produce(q, a) => assert ProducerEffect(c, s, q, a).refuse == [];
      case _ =>
    }
  }

  lemma InnerKeepsBlame(u: Setup, j: Joint, ds: Step)
    requires JointEnabled(u, j, Inner(ds)) && Phased(u, j) && BlameOk(j)
    ensures BlameOk(JointNext(u, j, Inner(ds)))
  {
    var t := JointNext(u, j, Inner(ds));
    forall p | 0 <= p < |j.parents|
      ensures GateOnly(t.parents[p], t.d.producers[p])
      ensures Blamed(j.parents[p], j.d.producers[p]) ==> Blamed(t.parents[p], t.d.producers[p])
    {
      InnerKeepsCaller(u.dc, j.d, ds, p);
    }
    InnerKeepsIdle(u.dc, j.d, ds);
    BlameCarries(j, t);
    var p := InnerRefuses(u.dc, j.d, ds);
    if p.Some? {
      assert ParentOk(j.parents[p.value], j.d.producers[p.value]) && GateOnly(j.parents[p.value], j.d.producers[p.value]);
      BlamedIs(t, p.value);
    }
  }

  /** A parent step that drops nonces fails, one after a withdrawn call fails, and a failed parent takes no step. */
  lemma OutcomeBlame(u: Setup, at: Producer, parent: Parent, a: ParentAct)
    requires at.Idle? && ParentOk(parent, at) && (a.EndFinal? ==> parent.phase.AwaitFinal?) && (a.EndBail? ==> parent.phase.AwaitBail?)
    ensures var o := ParentOutcome(u, at, parent, a);
            (o.drop != [] ==> o.phase == Finished(false)) && (o.call.Some? && o.phase.Gating? ==> o.call.value.Gate?) &&
            (o.phase.Gating? ==> o.call == Some(Gate))
  {
  }

  /** What a parent step does to the parents, their calls and the dropped nonces. */
  lemma ParentShape(u: Setup, j: Joint, p: nat, a: ParentAct)
    requires ParentEnabled(u, j, p, a) && Phased(u, j)
    ensures var t, o := ParentNext(u, j, p, a), ParentOutcome(u, j.d.producers[p], j.parents[p], a);
            t.d.refused == j.d.refused && t.abandoned == j.abandoned + multiset(o.drop) &&
            t.parents == j.parents[p := Parent(o.phase, o.local)] && t.d.producers == j.d.producers[p := t.d.producers[p]] &&
            (o.call.None? ==> t.d.producers[p] == j.d.producers[p]) &&
            (o.call == Some(Gate) ==> t.d.producers[p].Idle? || InGate(t.d.producers[p]))
  {
    var o := ParentOutcome(u, j.d.producers[p], j.parents[p], a);
    OpenWhileActing(u, j, p, a);
    if o.call.Some? {
      CallShape(u.dc, j.d, p, o.call.value);
    }
  }

  lemma ParentKeepsBlame(u: Setup, j: Joint, p: nat, a: ParentAct)
    requires ParentEnabled(u, j, p, a) && Phased(u, j) && BlameOk(j)
    ensures BlameOk(ParentNext(u, j, p, a))
  {
    var t, o := ParentNext(u, j, p, a), ParentOutcome(u, j.d.producers[p], j.parents[p], a);
    ParentShape(u, j, p, a);
    assert ParentOk(j.parents[p], j.d.producers[p]);
    OutcomeBlame(u, j.d.producers[p], j.parents[p], a);
    if o.drop != [] {
      BlamedIs(t, p);
    }
    assert Blamed(j.parents[p], j.d.producers[p]) ==> Blamed(t.parents[p], t.d.producers[p]);
    BlameCarries(j, t);
  }

  lemma StepKeepsBlame(u: Setup, j: Joint, step: JointStep)
    requires JointEnabled(u, j, step) && Phased(u, j) && BlameOk(j)
    ensures BlameOk(JointNext(u, j, step))
  {
    match step
    case Inner(ds) => InnerKeepsBlame(u, j, ds);
    case Do(p, a) => ParentKeepsBlame(u, j, p, a);
    case _ =>
      BlameCarries(j, JointNext(u, j, step));
  }

  lemma {:induction false} RunKeepsBlame(u: Setup, j: Joint, steps: seq<JointStep>, t: Joint)
    requires JointRun(u, j, steps, t) && Phased(u, j) && BlameOk(j)
    ensures BlameOk(t)
    decreases |steps|
  {
    if steps != [] {
      StepKeepsPhased(u, j, steps[0]);
      StepKeepsBlame(u, j, steps[0]);
      RunKeepsBlame(u, JointNext(u, j, steps[0]), steps[1..], t);
    }
  }

  // ----- what a finished session misses -----

  predicate LooksFinished(j: Joint) {
    j.d.done && forall p :: 0 <= p < |j.parents| ==> j.parents[p].phase == Finished(true)
  }

  /**
   When `done` is closed and every parent returned without error, the wanted nonces are exactly the delivered and
   dead-lettered ones plus those of the batches that were never read.
   */
  lemma FinishedSessionMisses(u: Setup, t: Joint, v: Nonce)
    requires u.Valid() && u.dc.producers > 0 && JointReachable(u, t) && LooksFinished(t)
    ensures SumBy(u.batches, Wanted(u, v)) == Hits(t.d.delivered, v) + Hits(t.d.dead, v) + SumBy(t.iter, Wanted(u, v))
  {
    var steps :| JointRun(u, JointInit(u), steps, t);
    RunKeepsBlame(u, JointInit(u), steps, t);
    JointReachableInv(u, t);
    SessionAccounting(u, t, v);
    assert t.parents[0].phase == Finished(true) && Exhausted(u, t);
    assert !SomeBlamed(t);
  }

  /** So nothing is missing exactly when the unread batches hold nothing the client wants. */
  lemma FinishedSessionCompleteIff(u: Setup, t: Joint)
    requires u.Valid() && u.dc.producers > 0 && JointReachable(u, t) && LooksFinished(t)
    ensures (forall v: Nonce :: Hits(t.d.delivered, v) + Hits(t.d.dead, v) == SumBy(u.batches, Wanted(u, v))) <==>
            (forall v: Nonce :: SumBy(t.iter, Wanted(u, v)) == 0)
  {
    forall v: Nonce
      ensures SumBy(u.batches, Wanted(u, v)) == Hits(t.d.delivered, v) + Hits(t.d.dead, v) + SumBy(t.iter, Wanted(u, v))
    {
      FinishedSessionMisses(u, t, v);
    }
  }

  // ----- a cancelled session that looks finished -----

  lemma {:induction false} JointRunOn(u: Setup, j: Joint, steps: seq<JointStep>, m: Joint, step: JointStep)
    requires JointRun(u, j, steps, m) && JointEnabled(u, m, step)
    ensures JointRun(u, j, steps + [step], JointNext(u, m, step))
    decreases |steps|
  {
    if steps == [] {
      assert [] + [step] == [step] && [step][1..] == [];
    } else {
      assert (steps + [step])[1..] == steps[1..] + [step];
      JointRunOn(u, JointNext(u, j, steps[0]), steps[1..], m, step);
    }
  }

  lemma Then(u: Setup, j: Joint, step: JointStep) returns (t: Joint)
    requires JointReachable(u, j) && JointEnabled(u, j, step)
    ensures JointReachable(u, t) && t == JointNext(u, j, step)
  {
    t := JointNext(u, j, step);
    var steps :| JointRun(u, JointInit(u), steps, j);
    JointRunOn(u, JointInit(u), steps, j, step);
  }

  /** Cancelled before anything was read; the first n parents have returned without error, the others not started. */
  predicate Untouched(u: Setup, j: Joint, n: nat) {
    n <= u.dc.producers == |j.parents| == |j.d.producers| &&
    j.d.cancelled && !j.d.inputClosed && !j.d.done && j.d.closer.Resting? && j.d.inflight == 0 && j.d.count == 0 &&
    j.d.delivered == [] && j.d.dead == [] && (forall p :: 0 <= p < |j.d.producers| ==> j.d.producers[p] == Idle(true)) &&
    j.iter == u.batches && j.work == [] && j.workClosed &&
    (forall p :: 0 <= p < n ==> j.parents[p] == Parent(Finished(true), [])) &&
    forall p :: n <= p < |j.parents| ==> j.parents[p] == Parent(AtGate, [])
  }

  lemma CancelAtOnce(u: Setup) returns (t: Joint)
    requires u.Valid() && !u.full
    ensures JointReachable(u, t) && Untouched(u, t, 0)
  {
    var s := JointInit(u);
    assert JointRun(u, s, [], s);
    var s1 := Then(u, s, Inner(Cancel));
    t := Then(u, s1, FeedStop);
  }

  /** The next parent passes the open gate, finds the work channel closed and returns without error. */
  lemma ParentReturns(u: Setup, j: Joint, p: nat) returns (t: Joint)
    requires u.Valid() && !u.full && JointReachable(u, j) && Untouched(u, j, p) && p < u.dc.producers
    ensures JointReachable(u, t) && Untouched(u, t, p + 1)
  {
    var s1 := Then(u, j, Do(p, StartGate));
    assert s1.d.producers == j.d.producers[p := Idle(true)];
    var s2 := Then(u, s1, Do(p, EndGate));
    assert s2.parents[p] == Parent(Pulling, []) && s2.d == s1.d;
    t := Then(u, s2, Do(p, PullEnd));
    assert t.parents[p] == Parent(Finished(true), []) && t.d == s1.d;
  }

  lemma {:induction false} ParentsReturn(u: Setup, n: nat) returns (t: Joint)
    requires u.Valid() && !u.full && n <= u.dc.producers
    ensures JointReachable(u, t) && Untouched(u, t, n)
  {
    if n == 0 {
      t := CancelAtOnce(u);
    } else {
      var s := ParentsReturn(u, n - 1);
      t := ParentReturns(u, s, n - 1);
    }
  }

  /**
   For every diff session: cancelled early, it can end with `done` closed and every parent returning without
   error although no batch was read and no page delivered.
   */
  lemma CancelledSessionLooksFinished(u: Setup) returns (t: Joint)
    requires u.Valid() && !u.full
    ensures JointReachable(u, t) && LooksFinished(t) && t.iter == u.batches && t.d.delivered == [] && t.d.dead == []
  {
    var s := ParentsReturn(u, u.dc.producers);
    var s1 := Then(u, s, CloseAll);
    var s2 := Then(u, s1, Inner(Close(CloserLoadClosed)));
    t := Then(u, s2, Inner(Close(CloserLoadInflight)));
  }
}
