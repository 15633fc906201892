/**
 The bound on the channel is attained, so it is the exact condition under which an enqueue can block.

 The channel's capacity allows one page per diff parent beyond the pause threshold, but a parent that has passed
 the gate enqueues all full pages of its leftover and its next batch, four at most.
 */
module AccountDiffOvershoot {
  import opened Options
  import opened Dispatcher
  import opened DispatcherGate
  import opened AccountDiff
  import opened AccountDiffProof
  import opened AccountDiffCapacity

  const LEFTOVER: nat := 2000
  const LARGEST_BATCH: nat := NUM_DIFF_CHILDREN * CHILD_WINDOW

  // ----- the session -----

  /** First a leftover for each parent, then full pages up to the pause threshold, then a largest batch for each parent. */
  function BatchSize(dc: Config, m: nat): (size: nat)
    requires dc.Valid()
    ensures size <= LARGEST_BATCH
  {
    if m < dc.producers then LEFTOVER else if m < dc.producers + Below(dc) then NONCE_PAGE_SIZE else LARGEST_BATCH
  }

  function SomeNonces(n: nat): (ns: seq<Nonce>)
    ensures |ns| == n
  {
    seq(n, i requires 0 <= i => i)
  }

  /** A client without accounts, so that each batch is missing as a whole. */
  function Wave(dc: Config): (u: Setup)
    requires dc.Valid()
    ensures u.dc == dc && !u.full && u.client == {} && |u.batches| == 2 * dc.producers + Below(dc)
    ensures forall m :: 0 <= m < |u.batches| ==> |u.batches[m]| == BatchSize(dc, m)
  {
    Setup(dc, false, {}, seq(2 * dc.producers + Below(dc), m requires 0 <= m => SomeNonces(BatchSize(dc, m))))
  }

  // ----- steps between calls -----

  /** Where a parent is between two calls, and how much it has in hand. */
  datatype Seat = Seat(phase: Phase, local: nat)

  /** m batches read, n pages in the channel, and where the parents are. */
  datatype Snap = Snap(m: nat, n: nat, seats: seq<Seat>)

  /** Nothing failed, nothing was delivered, no worker has moved. */
  predicate Undisturbed(u: Setup, j: Joint) {
    !j.d.cancelled && !j.iterFailed && !j.feedStopped && !j.d.inputClosed && j.d.leak == 0 && j.d.dead == [] && j.d.refused == [] &&
    j.d.delivered == [] && j.d.workers == Init(u.dc).workers
  }

  predicate At(u: Setup, j: Joint, s: Snap) {
    |j.parents| == |s.seats| == |j.d.producers| &&
    (forall p :: 0 <= p < |s.seats| ==> j.parents[p].phase == s.seats[p].phase && |j.parents[p].local| == s.seats[p].local) &&
    (forall p :: 0 <= p < |j.d.producers| ==> j.d.producers[p] == Idle(true)) &&
    s.m <= |u.batches| && j.iter == u.batches[s.m..] && j.work == [] && !j.workClosed &&
    |j.d.chan| == s.n && j.d.count == NONCE_PAGE_SIZE * s.n && Undisturbed(u, j)
  }

  lemma {:induction false} RunOn(u: Setup, j: Joint, steps: seq<JointStep>, m: Joint, step: JointStep)
    requires JointRun(u, j, steps, m) && JointEnabled(u, m, step)
    ensures JointRun(u, j, steps + [step], JointNext(u, m, step))
    decreases |steps|
  {
    if steps == [] {
      assert [] + [step] == [step] && [step][1..] == [];
    } else {
      assert (steps + [step])[1..] == steps[1..] + [step];
      RunOn(u, JointNext(u, j, steps[0]), steps[1..], m, step);
    }
  }

  lemma Then(u: Setup, j: Joint, step: JointStep) returns (t: Joint)
    requires PlainReachable(u, j) && JointEnabled(u, j, step) && Plain(step)
    ensures PlainReachable(u, t) && t == JointNext(u, j, step)
  {
    t := JointNext(u, j, step);
    var steps :| PlainRun(u, JointInit(u), steps, j);
    RunOn(u, JointInit(u), steps, j, step);
    assert PlainRun(u, JointInit(u), steps + [step], t);
  }

  /** A parent in front of the open gate goes through. */
  lemma PassGate(u: Setup, j: Joint, s: Snap, p: nat) returns (t: Joint)
    requires PlainReachable(u, j) && At(u, j, s) && p < |s.seats| && s.seats[p].phase == AtGate && NONCE_PAGE_SIZE * s.n < u.dc.pause
    ensures PlainReachable(u, t) && At(u, t, s.(seats := s.seats[p := Seat(Pulling, s.seats[p].local)]))
  {
    var s1 := Then(u, j, Do(p, StartGate));
    assert s1.d.producers == j.d.producers[p := Idle(true)] && s1.d.chan == j.d.chan && s1.d.count == j.d.count;
    assert s1.parents == j.parents[p := Parent(Gating, j.parents[p].local)] && Undisturbed(u, s1);
    t := Then(u, s1, Do(p, EndGate));
    assert t.d == s1.d && t.parents == j.parents[p := Parent(Pulling, j.parents[p].local)];
  }

  lemma {:induction false} NothingAbsentFromNobody(ns: seq<Nonce>)
    ensures Absent({}, ns) == ns
  {
    if ns != [] {
      NothingAbsentFromNobody(ns[1..]);
    }
  }

  lemma SomeResult(client: set<Nonce>, batch: seq<Nonce>) returns (result: seq<Nonce>)
    ensures ChildrenMayReturn(client, batch, result)
  {
    var order := ChildOutputs(client, batch, 0);
    result := Concat(order);
  }

  lemma SameLength(xs: seq<Nonce>, ys: seq<Nonce>)
    requires multiset(xs) == multiset(ys)
    ensures |xs| == |ys|
  {
    assert |multiset(xs)| == |xs| && |multiset(ys)| == |ys|;
  }

  /** For a client without accounts the children return the whole batch. */
  lemma ChildrenReturnAll(batch: seq<Nonce>, result: seq<Nonce>)
    requires ChildrenMayReturn({}, batch, result) && |batch| <= LARGEST_BATCH
    ensures |result| == |batch|
  {
    ChildrenFind({}, batch, result);
    assert Served(batch) == batch;
    NothingAbsentFromNobody(batch);
    SameLength(result, batch);
  }

  /** The next batch is read, and a parent behind the gate takes it. */
  lemma Draw(u: Setup, j: Joint, s: Snap, p: nat) returns (t: Joint)
    requires !u.full && u.client == {} && u.dc.producers > 0 && PlainReachable(u, j) && At(u, j, s) && p < |s.seats|
    requires s.seats[p].phase == Pulling && s.m < |u.batches| && |u.batches[s.m]| <= LARGEST_BATCH
    ensures PlainReachable(u, t)
    ensures At(u, t, s.(m := s.m + 1, seats := s.seats[p := Seat(Flushing, s.seats[p].local + |u.batches[s.m]|)]))
  {
    var s1 := Then(u, j, Feed);
    assert s1.work == [u.batches[s.m]] && s1.iter == u.batches[s.m + 1..] && s1.d == j.d && s1.parents == j.parents;
    var result := SomeResult({}, u.batches[s.m]);
    ChildrenReturnAll(u.batches[s.m], result);
    t := Then(u, s1, Do(p, Pull(result)));
    assert t.d == j.d && t.parents == j.parents[p := Parent(Flushing, j.parents[p].local + result)] && t.work == [];
  }

  /** A parent with less than a page in hand goes back to the gate. */
  lemma GoBack(u: Setup, j: Joint, s: Snap, p: nat) returns (t: Joint)
    requires PlainReachable(u, j) && At(u, j, s) && p < |s.seats| && s.seats[p].phase == Flushing && s.seats[p].local < NONCE_PAGE_SIZE
    ensures PlainReachable(u, t) && At(u, t, s.(seats := s.seats[p := Seat(AtGate, s.seats[p].local)]))
  {
    t := Then(u, j, Do(p, Flush));
    assert t.d == j.d && t.parents == j.parents[p := Parent(AtGate, j.parents[p].local)];
  }

  /** A parent cuts off a page and raises inflight: it is about to send. */
  lemma StartPage(u: Setup, j: Joint, s: Snap, p: nat) returns (t: Joint)
    requires PlainReachable(u, j) && At(u, j, s) && p < |s.seats| && s.seats[p].phase == Flushing && s.seats[p].local >= NONCE_PAGE_SIZE
    ensures PlainReachable(u, t) && t.parents == j.parents[p := Parent(AwaitFlush, j.parents[p].local[NONCE_PAGE_SIZE..])]
    ensures t.iter == j.iter && t.work == j.work && t.workClosed == j.workClosed && t.d.chan == j.d.chan && t.d.count == j.d.count
    ensures t.d.producers == j.d.producers[p := Counted(j.parents[p].local[..NONCE_PAGE_SIZE])] && Undisturbed(u, t)
  {
    var s1 := Then(u, j, Do(p, Flush));
    assert s1.d.producers == j.d.producers[p := Checked(j.parents[p].local[..NONCE_PAGE_SIZE])];
    assert s1.d.chan == j.d.chan && s1.d.count == j.d.count && Undisturbed(u, s1);
    t := Then(u, s1, Inner(Produce(p, Count)));
    assert t.d.chan == s1.d.chan;
  }

  /** The page goes into the channel. */
  lemma SendPageNow(u: Setup, j: Joint, p: nat) returns (t: Joint)
    requires PlainReachable(u, j) && Undisturbed(u, j) && p < |j.d.producers| && j.d.producers[p].Counted? && |j.d.chan| < u.dc.cap
    ensures PlainReachable(u, t) && t.parents == j.parents && t.iter == j.iter && t.work == j.work && t.workClosed == j.workClosed
    ensures |t.d.chan| == |j.d.chan| + 1 && t.d.count == j.d.count && Undisturbed(u, t)
    ensures t.d.producers == j.d.producers[p := Crediting(|j.d.producers[p].nonces|)]
  {
    t := Then(u, j, Inner(Produce(p, SendPage)));
    assert t.d.chan == j.d.chan + [NewPage(j.d.producers[p].nonces)];
  }

  /** It is counted. */
  lemma CreditNow(u: Setup, j: Joint, p: nat) returns (t: Joint)
    requires PlainReachable(u, j) && Undisturbed(u, j) && p < |j.d.producers| && j.d.producers[p].Crediting?
    ensures PlainReachable(u, t) && t.parents == j.parents && t.iter == j.iter && t.work == j.work && t.workClosed == j.workClosed
    ensures t.d.chan == j.d.chan && t.d.count == j.d.count + j.d.producers[p].count && Undisturbed(u, t)
    ensures t.d.producers == j.d.producers[p := Idle(true)]
  {
    t := Then(u, j, Inner(Produce(p, Credit)));
    assert t.d.chan == j.d.chan + [] == j.d.chan;
  }

  lemma PutPage(u: Setup, j: Joint, s: Snap, p: nat) returns (t: Joint)
    requires PlainReachable(u, j) && At(u, j, s) && p < |s.seats| && s.seats[p].phase == Flushing
    requires s.seats[p].local >= NONCE_PAGE_SIZE && s.n < u.dc.cap
    ensures PlainReachable(u, t)
    ensures At(u, t, s.(n := s.n + 1, seats := s.seats[p := Seat(Flushing, s.seats[p].local - NONCE_PAGE_SIZE)]))
  {
    var s1 := StartPage(u, j, s, p);
    var s0 := SendPageNow(u, s1, p);
    var s2 := CreditNow(u, s0, p);
    assert s2.d.producers == j.d.producers[p := Idle(true)];
    t := Then(u, s2, Do(p, EndFlush));
    assert t.d == s2.d && t.parents == j.parents[p := Parent(Flushing, j.parents[p].local[NONCE_PAGE_SIZE..])];
  }

  // ----- the wave -----

  /** The first p parents have a leftover in hand and stand behind the gate. */
  function Prepared(dc: Config, p: nat): Snap {
    Snap(p, 0, seq(dc.producers, q => if q < p then Seat(Pulling, LEFTOVER) else Seat(AtGate, 0)))
  }

  lemma {:induction false} Prepare(dc: Config, p: nat) returns (t: Joint)
    requires dc.Valid() && p <= dc.producers
    ensures PlainReachable(Wave(dc), t) && At(Wave(dc), t, Prepared(dc, p))
  {
    var u := Wave(dc);
    if p == 0 {
      t := JointInit(u);
      assert PlainRun(u, t, [], t);
    } else {
      var j := Prepare(dc, p - 1);
      t := PrepareOne(dc, j, p - 1);
    }
  }

  lemma PrepareOne(dc: Config, j: Joint, p: nat) returns (t: Joint)
    requires dc.Valid() && p < dc.producers && PlainReachable(Wave(dc), j) && At(Wave(dc), j, Prepared(dc, p))
    ensures PlainReachable(Wave(dc), t) && At(Wave(dc), t, Prepared(dc, p + 1))
  {
    var u, s := Wave(dc), Prepared(dc, p);
    var j1 := PassGate(u, j, s, p);
    var s1 := s.(seats := s.seats[p := Seat(Pulling, 0)]);
    var j2 := Draw(u, j1, s1, p);
    var s2 := s1.(m := p + 1, seats := s1.seats[p := Seat(Flushing, LEFTOVER)]);
    var j3 := GoBack(u, j2, s2, p);
    var s3 := s2.(seats := s2.seats[p := Seat(AtGate, LEFTOVER)]);
    t := PassGate(u, j3, s3, p);
    assert s3.seats[p := Seat(Pulling, LEFTOVER)] == Prepared(dc, p + 1).seats;
  }

  /** The parent that puts the page after n pages into the channel. */
  function Turn(dc: Config, n: nat): nat
    requires dc.Valid()
  {
    if n < Below(dc) then 0 else (n - Below(dc)) / PAGES_PER_PASS
  }

  /** What it has in hand then. */
  function InHand(dc: Config, n: nat): nat
    requires dc.Valid()
  {
    if n < Below(dc) then LEFTOVER + NONCE_PAGE_SIZE
    else LEFTOVER + LARGEST_BATCH - (n - Below(dc)) % PAGES_PER_PASS * NONCE_PAGE_SIZE
  }

  /**
   n pages are in the channel.  Up to the pause threshold parent 0 puts one page per gate pass; then each parent
   in turn puts four pages from its leftover and a largest batch, with no further gate pass.
   */
  function Stage(dc: Config, n: nat): Snap
    requires dc.Valid()
  {
    var p := Turn(dc, n);
    Snap(dc.producers + 1 + (if n < Below(dc) then n else Below(dc) + p), n,
         seq(dc.producers, q => if q < p then Seat(Flushing, 0) else if q == p then Seat(Flushing, InHand(dc, n)) else Seat(Pulling, LEFTOVER)))
  }

  lemma StartWave(dc: Config) returns (t: Joint)
    requires dc.Valid() && dc.producers > 0
    ensures PlainReachable(Wave(dc), t) && At(Wave(dc), t, Stage(dc, 0))
  {
    var u := Wave(dc);
    var j := Prepare(dc, dc.producers);
    var s := Prepared(dc, dc.producers);
    t := Draw(u, j, s, 0);
    StageZero(dc);
  }

  lemma StageZero(dc: Config)
    requires dc.Valid() && dc.producers > 0
    ensures var s := Prepared(dc, dc.producers);
            Stage(dc, 0) == Snap(dc.producers + 1, 0, s.seats[0 := Seat(Flushing, LEFTOVER + BatchSize(dc, dc.producers))])
  {
    assert Prepared(dc, dc.producers).seats[0 := Seat(Flushing, LEFTOVER + BatchSize(dc, dc.producers))] == Stage(dc, 0).seats;
  }

  /** A parent puts its last full page, goes back to the gate and passes it again. */
  lemma PageAndGate(u: Setup, j: Joint, s: Snap, p: nat) returns (t: Joint)
    requires PlainReachable(u, j) && At(u, j, s) && p < |s.seats| && s.seats[p] == Seat(Flushing, LEFTOVER + NONCE_PAGE_SIZE)
    requires s.n < u.dc.cap && NONCE_PAGE_SIZE * (s.n + 1) < u.dc.pause
    ensures PlainReachable(u, t) && At(u, t, s.(n := s.n + 1, seats := s.seats[p := Seat(Pulling, LEFTOVER)]))
  {
    var j1 := PutPage(u, j, s, p);
    var s1 := s.(n := s.n + 1, seats := s.seats[p := Seat(Flushing, LEFTOVER)]);
    var j2 := GoBack(u, j1, s1, p);
    var s2 := s1.(seats := s.seats[p := Seat(AtGate, LEFTOVER)]);
    assert s2 == s1.(seats := s1.seats[p := Seat(AtGate, LEFTOVER)]);
    t := PassGate(u, j2, s2, p);
    assert s2.seats[p := Seat(Pulling, LEFTOVER)] == s.seats[p := Seat(Pulling, LEFTOVER)];
  }

  /** Below the threshold parent 0 passes the gate once more after its page. */
  lemma NextBelow(dc: Config, j: Joint, n: nat) returns (t: Joint)
    requires dc.Valid() && dc.producers > 0 && n < Below(dc) && n < dc.cap
    requires PlainReachable(Wave(dc), j) && At(Wave(dc), j, Stage(dc, n))
    ensures PlainReachable(Wave(dc), t) && At(Wave(dc), t, Stage(dc, n + 1))
  {
    var u, s := Wave(dc), Stage(dc, n);
    assert NONCE_PAGE_SIZE * (n + 1) <= NONCE_PAGE_SIZE * Below(dc) < dc.pause;
    var j1 := PageAndGate(u, j, s, 0);
    var s1 := s.(n := n + 1, seats := s.seats[0 := Seat(Pulling, LEFTOVER)]);
    t := Draw(u, j1, s1, 0);
    StageBelow(dc, n);
  }

  lemma StageBelow(dc: Config, n: nat)
    requires dc.Valid() && dc.producers > 0 && n < Below(dc)
    ensures var s := Stage(dc, n);
            var seats := s.seats[0 := Seat(Pulling, LEFTOVER)];
            Stage(dc, n + 1) == Snap(s.m + 1, n + 1, seats[0 := Seat(Flushing, LEFTOVER + BatchSize(dc, s.m))])
  {
    var s := Stage(dc, n);
    assert s.seats[0 := Seat(Pulling, LEFTOVER)][0 := Seat(Flushing, LEFTOVER + BatchSize(dc, s.m))] == Stage(dc, n + 1).seats;
  }

  /** Beyond it the parent goes on, or the next one takes its largest batch. */
  lemma NextBeyond(dc: Config, j: Joint, n: nat) returns (t: Joint)
    requires dc.Valid() && Below(dc) <= n < dc.cap && n + 1 < Below(dc) + PAGES_PER_PASS * dc.producers
    requires PlainReachable(Wave(dc), j) && At(Wave(dc), j, Stage(dc, n))
    ensures PlainReachable(Wave(dc), t) && At(Wave(dc), t, Stage(dc, n + 1))
  {
    var u, s, p := Wave(dc), Stage(dc, n), Turn(dc, n);
    TurnMoves(dc, n);
    t := PutPage(u, j, s, p);
    StageBeyond(dc, n);
    if Turn(dc, n + 1) != p {
      t := Draw(u, t, s.(n := n + 1, seats := s.seats[p := Seat(Flushing, InHand(dc, n) - NONCE_PAGE_SIZE)]), p + 1);
    }
  }

  lemma StageBeyond(dc: Config, n: nat)
    requires dc.Valid() && Below(dc) <= n && n + 1 < Below(dc) + PAGES_PER_PASS * dc.producers
    requires Turn(dc, n) < dc.producers && InHand(dc, n) >= NONCE_PAGE_SIZE
    ensures var s, p := Stage(dc, n), Turn(dc, n);
            var seats := s.seats[p := Seat(Flushing, InHand(dc, n) - NONCE_PAGE_SIZE)];
            if Turn(dc, n + 1) == p then Stage(dc, n + 1) == Snap(s.m, n + 1, seats)
            else p + 1 < dc.producers && Stage(dc, n + 1) == Snap(s.m + 1, n + 1, seats[p + 1 := Seat(Flushing, LEFTOVER + LARGEST_BATCH)])
  {
    TurnMoves(dc, n);
    var s, p := Stage(dc, n), Turn(dc, n);
    var seats := s.seats[p := Seat(Flushing, InHand(dc, n) - NONCE_PAGE_SIZE)];
    if Turn(dc, n + 1) == p {
      assert seats == Stage(dc, n + 1).seats;
    } else {
      assert seats[p + 1 := Seat(Flushing, LEFTOVER + LARGEST_BATCH)] == Stage(dc, n + 1).seats;
    }
  }

  lemma TurnMoves(dc: Config, n: nat)
    requires dc.Valid() && Below(dc) <= n && n + 1 < Below(dc) + PAGES_PER_PASS * dc.producers
    ensures Turn(dc, n) < dc.producers && InHand(dc, n) >= NONCE_PAGE_SIZE
    ensures Turn(dc, n + 1) == Turn(dc, n) ==> InHand(dc, n + 1) == InHand(dc, n) - NONCE_PAGE_SIZE
    ensures Turn(dc, n + 1) != Turn(dc, n) ==>
              Turn(dc, n + 1) == Turn(dc, n) + 1 < dc.producers && InHand(dc, n) == NONCE_PAGE_SIZE && InHand(dc, n + 1) == LEFTOVER + LARGEST_BATCH
  {
  }

  lemma {:induction false} Fill(dc: Config, n: nat) returns (t: Joint)
    requires dc.Valid() && dc.producers > 0 && n <= dc.cap && n < Below(dc) + PAGES_PER_PASS * dc.producers
    ensures PlainReachable(Wave(dc), t) && At(Wave(dc), t, Stage(dc, n))
  {
    if n == 0 {
      t := StartWave(dc);
    } else {
      var j := Fill(dc, n - 1);
      if n - 1 < Below(dc) {
        t := NextBelow(dc, j, n - 1);
      } else {
        t := NextBeyond(dc, j, n - 1);
      }
    }
  }

  lemma TurnIsParent(dc: Config, n: nat)
    requires dc.Valid() && dc.producers > 0 && n < Below(dc) + PAGES_PER_PASS * dc.producers
    ensures Turn(dc, n) < dc.producers && InHand(dc, n) >= NONCE_PAGE_SIZE
  {
  }

  /**
   For every configuration with less capacity: without any failure, with no worker moving and nothing delivered,
   the channel fills up and a parent's enqueue blocks.
   */
  lemma ParentsOvershoot(dc: Config) returns (t: Joint)
    requires dc.Valid() && dc.producers > 0 && dc.cap < Below(dc) + PAGES_PER_PASS * dc.producers
    ensures PlainReachable(Wave(dc), t) && Blocked(Wave(dc), t) && |t.d.chan| == dc.cap && Undisturbed(Wave(dc), t)
  {
    var j := Fill(dc, dc.cap);
    var p := Turn(dc, dc.cap);
    TurnIsParent(dc, dc.cap);
    t := StartPage(Wave(dc), j, Stage(dc, dc.cap), p);
    assert t.d.producers[p].Counted?;
  }

  // ----- the exact condition -----

  /** Some session of this configuration, with batches within the window, lets an enqueue block without a re-queue or cancellation. */
  ghost predicate CanBlock(dc: Config) {
    exists u: Setup, t: Joint :: u.dc == dc && u.Valid() && WindowedBatches(u) && PlainReachable(u, t) && Blocked(u, t)
  }

  /** For every configuration: exactly if the capacity is below the pause threshold's full pages plus four per parent. */
  lemma BlocksIff(dc: Config)
    requires dc.Valid() && dc.producers > 0
    ensures CanBlock(dc) <==> dc.cap < Below(dc) + PAGES_PER_PASS * dc.producers
  {
    if dc.cap < Below(dc) + PAGES_PER_PASS * dc.producers {
      var t := ParentsOvershoot(dc);
      assert Wave(dc).Valid() && WindowedBatches(Wave(dc));
    } else {
      forall u: Setup, t: Joint | u.dc == dc && u.Valid() && WindowedBatches(u) && PlainReachable(u, t) ensures !Blocked(u, t) {
        NeverBlocks(u, t);
      }
    }
  }

  /**
   For the capacity that the formula gives, whatever the pause threshold: an enqueue can block exactly if there are
   at least eight diff parents.
   */
  lemma FormulaBlocksIff(t: Settings)
    requires New(t).Some? && t.pageSize == NONCE_PAGE_SIZE && t.producers > 0
    ensures CanBlock(New(t).value) <==> t.producers >= 8
  {
    var dc := New(t).value;
    BlocksIff(dc);
    assert dc.cap == Below(dc) + 1 + NUM_DIFF_PARENTS;
  }

  /** The program's own configuration: pause at 200000, 30 parents, room for 97 pages. */
  lemma DefaultCanBlock()
    ensures var t := Settings(10, 200000, 80, NONCE_PAGE_SIZE, 3, NUM_DIFF_PARENTS);
            New(t).Some? && New(t).value.cap == 97 && CanBlock(New(t).value)
  {
    FormulaBlocksIff(Settings(10, 200000, 80, NONCE_PAGE_SIZE, 3, NUM_DIFF_PARENTS));
  }
}
