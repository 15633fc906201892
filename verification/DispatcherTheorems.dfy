/** What the dispatcher promises its caller, over every run. */
module DispatcherTheorems {
  import opened Sums
  import opened Dispatcher
  import opened DispatcherSafety

  // ----- conservation as multisets -----

  function CountOf<T(!new), V(==)>(f: T -> multiset<V>, v: V): T -> int {
    (x: T) => f(x)[v]
  }

  lemma {:induction false} BagCount<T(!new), V>(xs: seq<T>, f: T -> multiset<V>, v: V)
    ensures BagBy(xs, f)[v] == SumBy(xs, CountOf(f, v))
  {
    if xs != [] {
      BagCount(xs[1..], f, v);
    }
  }

  function Content(): Page -> multiset<seq<Nonce>> {
    (p: Page) => multiset{p.nonces}
  }

  function Nonces(): Page -> multiset<Nonce> {
    (p: Page) => multiset(p.nonces)
  }

  function HeldPages(ws: seq<Worker>): seq<Page> {
    if ws == [] then [] else (if HoldsPage(ws[0]) then [ws[0].at.page] else []) + HeldPages(ws[1..])
  }

  lemma {:induction false} HeldPagesSum(ws: seq<Worker>, h: Page -> int)
    ensures SumBy(HeldPages(ws), h) == SumBy(ws, Held(h))
  {
    if ws != [] {
      var first := if HoldsPage(ws[0]) then [ws[0].at.page] else [];
      HeldPagesSum(ws[1..], h);
      SumByConcat(first, HeldPages(ws[1..]), h);
      if HoldsPage(ws[0]) {
        SingleSum(ws[0].at.page, h);
      }
    }
  }

  /** Pages admitted but neither delivered nor dead-lettered yet. */
  function Unfinished(s: State): seq<Page> {
    s.chan + HeldPages(s.workers)
  }

  ghost predicate BagByContent<V>(f: Page -> multiset<V>) {
    forall ns: seq<Nonce>, r: nat, t: nat, r': nat, t': nat, k: nat, k': nat :: f(Page(ns, r, k, t)) == f(Page(ns, r', k', t'))
  }

  lemma CountConserved<V>(c: Config, s: State, f: Page -> multiset<V>, v: V)
    requires Reachable(c, s) && BagByContent(f)
    ensures BagBy(s.admitted, f)[v] == BagBy(s.delivered, f)[v] + BagBy(s.dead, f)[v] + BagBy(Unfinished(s), f)[v]
  {
    var h := CountOf(f, v);
    ReachableBalanced(c, s, h);
    HeldPagesSum(s.workers, h);
    SumByConcat(s.chan, HeldPages(s.workers), h);
    BagCount(s.admitted, f, v);
    BagCount(s.delivered, f, v);
    BagCount(s.dead, f, v);
    BagCount(Unfinished(s), f, v);
  }

  lemma BagsConserved<V(!new)>(c: Config, s: State, f: Page -> multiset<V>)
    requires Reachable(c, s) && BagByContent(f)
    ensures BagBy(s.admitted, f) == BagBy(s.delivered, f) + BagBy(s.dead, f) + BagBy(Unfinished(s), f)
  {
    var all, parts := BagBy(s.admitted, f), BagBy(s.delivered, f) + BagBy(s.dead, f) + BagBy(Unfinished(s), f);
    forall v: V ensures all[v] == parts[v] {
      CountConserved(c, s, f, v);
    }
  }

  /**
   In every reachable state of every interleaving the admitted pages are exactly the delivered, the
   dead-lettered, and those in the channel or in a worker's hands; the same holds nonce by nonce.
   */
  lemma PagesConserved(c: Config, s: State)
    requires Reachable(c, s)
    ensures BagBy(s.admitted, Content()) ==
            BagBy(s.delivered, Content()) + BagBy(s.dead, Content()) + BagBy(Unfinished(s), Content())
    ensures BagBy(s.admitted, Nonces()) ==
            BagBy(s.delivered, Nonces()) + BagBy(s.dead, Nonces()) + BagBy(Unfinished(s), Nonces())
    ensures |s.admitted| == |s.delivered| + |s.dead| + |Unfinished(s)|
  {
    BagsConserved(c, s, Content());
    BagsConserved(c, s, Nonces());
    var one := (p: Page) => 1;
    ReachableBalanced(c, s, one);
    HeldPagesSum(s.workers, one);
    SumByConcat(s.chan, HeldPages(s.workers), one);
    SumByConstant(s.admitted, one, 1);
    SumByConstant(s.delivered, one, 1);
    SumByConstant(s.dead, one, 1);
    SumByConstant(Unfinished(s), one, 1);
  }

  // ----- the done latch -----

  lemma {:induction false} NoneHeld(ws: seq<Worker>)
    requires SumBy(ws, Charge()) == 0
    ensures HeldPages(ws) == []
  {
    if ws != [] {
      SumByNonNegative(ws[1..], Charge());
      NoneHeld(ws[1..]);
    }
  }

  /** With inflight back at zero nothing is unfinished. */
  lemma ZeroInflight(c: Config, s: State)
    requires Reachable(c, s) && s.inflight == 0
    ensures Unfinished(s) == []
  {
    ReachableInv(c, s);
    ChargesNonNegative(s);
    NoneHeld(s.workers);
  }

  /** If no enqueue was past its closed-check when CloseInput stored the flag, `done` means everything is finalised. */
  lemma DoneIsComplete(c: Config, s: State)
    requires Reachable(c, s) && s.done && s.cleanClose
    ensures Unfinished(s) == [] && |s.admitted| == |s.delivered| + |s.dead|
    ensures BagBy(s.admitted, Content()) == BagBy(s.delivered, Content()) + BagBy(s.dead, Content())
    ensures BagBy(s.admitted, Nonces()) == BagBy(s.delivered, Nonces()) + BagBy(s.dead, Nonces())
  {
    ReachableInv(c, s);
    ZeroInflight(c, s);
    PagesConserved(c, s);
  }

  lemma {:induction false} CleanStays(c: Config, s: State, steps: seq<Step>, t: State)
    requires Run(c, s, steps, t) && s.inputClosed && s.cleanClose
    ensures t.inputClosed && t.cleanClose
    decreases |steps|
  {
    if steps != [] {
      CleanStays(c, Next(c, s, steps[0]), steps[1..], t);
    }
  }

  /** No continuation of s closes `done` while some admitted page or send is still counted in flight. */
  ghost predicate NeverStrands(c: Config, s: State) {
    forall steps, t :: Run(c, s, steps, t) && t.done ==> t.inflight == 0
  }

  lemma CleanCloseNeverStrands(c: Config, s: State)
    requires Reachable(c, s) && CloserEnabled(s, Store) && !s.inputClosed && NoneChecked(s)
    ensures NeverStrands(c, CloserNext(s, Store))
  {
    var s1 := CloserNext(s, Store);
    ReachableStep(c, s, Close(Store));
    ReachableInv(c, s1);
    forall steps, t | Run(c, s1, steps, t) && t.done ensures t.inflight == 0 {
      CleanStays(c, s1, steps, t);
      RunKeepsInv(c, s1, steps, t);
    }
  }

  /** A producer caught between its closed-check and its increment can be stranded by the close. */
  lemma OverlapStrands(c: Config, s: State, p: nat)
    requires CloserEnabled(s, Store) && s.inflight == 0 && p < |s.producers| && s.producers[p].Checked?
    ensures !NeverStrands(c, CloserNext(s, Store))
  {
    var s1 := CloserNext(s, Store);
    var s2 := CloserNext(s1, CloserLoadClosed);
    var s3 := CloserNext(s2, CloserLoadInflight);
    var s4 := ProducerNext(c, s3, p, Count);
    var steps := [Close(CloserLoadClosed), Close(CloserLoadInflight), Produce(p, Count)];
    assert steps[1..] == [Close(CloserLoadInflight), Produce(p, Count)] && steps[1..][1..] == [Produce(p, Count)];
    assert Run(c, s3, steps[1..][1..], s4);
    assert Run(c, s2, steps[1..], s4);
    assert Run(c, s1, steps, s4);
    assert s4.done && s4.inflight == 1;
  }

  /** Calling CloseInput on an idle dispatcher is safe exactly when no enqueue sits between its check and its increment. */
  lemma CloseInputSafeIff(c: Config, s: State)
    requires Reachable(c, s) && CloserEnabled(s, Store) && !s.inputClosed && s.inflight == 0
    ensures NeverStrands(c, CloserNext(s, Store)) <==> NoneChecked(s)
  {
    if NoneChecked(s) {
      CleanCloseNeverStrands(c, s);
    } else {
      var p :| 0 <= p < |s.producers| && s.producers[p].Checked?;
      OverlapStrands(c, s, p);
    }
  }

  // ----- page numbers and attempts -----

  /** Delivered pages carry different numbers from 1..sequence, after at most maxRetries + 1 attempts each. */
  lemma DeliveredNumbersDistinct(c: Config, s: State)
    requires Reachable(c, s)
    ensures forall i :: 0 <= i < |s.delivered| ==>
              1 <= s.delivered[i].index <= s.sequence && s.delivered[i].attempts <= c.maxRetries + 1
    ensures forall i, j :: 0 <= i < j < |s.delivered| ==> s.delivered[i].index != s.delivered[j].index
  {
    ReachableInv(c, s);
    forall i | 0 <= i < |s.delivered| ensures 1 <= s.delivered[i].index <= s.sequence {
      PlacedAtLeast(s, IndexHit(s.delivered[i].index));
      SumByNonNegative(s.delivered, IndexHit(s.delivered[i].index));
      assert IndexHit(s.delivered[i].index)(s.delivered[i]) == 1;
    }
    forall i, j | 0 <= i < j < |s.delivered| ensures s.delivered[i].index != s.delivered[j].index {
      if s.delivered[i].index == s.delivered[j].index {
        PlacedAtLeast(s, IndexHit(s.delivered[i].index));
        SumByTwice(s.delivered, i, j, IndexHit(s.delivered[i].index));
      }
    }
  }

  lemma PlacedAtLeast(s: State, h: Page -> int)
    requires forall p :: h(p) >= 0
    ensures SumBy(s.delivered, h) <= Placed(s, h)
  {
    SumByNonNegative(s.chan, h);
    SumByNonNegative(s.dead, h);
    SumByNonNegative(s.workers, Held(h));
  }

  lemma {:induction false} SumByTwice<T>(xs: seq<T>, i: nat, j: nat, h: T -> int)
    requires i < j < |xs| && (forall x :: x in xs ==> h(x) >= 0) && h(xs[i]) == h(xs[j]) == 1
    ensures SumBy(xs, h) >= 2
  {
    SumByNonNegative(xs[1..], h);
    if i == 0 {
      assert xs[1..][j - 1] == xs[j];
    } else {
      SumByTwice(xs[1..], i - 1, j - 1, h);
    }
  }
}
