/**
 The phased reconciliation commit: compute all updates, pre-create missing accounts from the remote, log the
 batch, commit it atomically.

 Contracts of the account store: CreateAccount refuses an existing address; BatchUpdateAccounts applies every
 update or none; a writer that receives identity nonce 0 keeps the stored one.  The deltas are the replayed
 ones (Reconcile) or the given ones (ReconcileWithDeltas); order is the order in which results arrive.
 */
module Reconcile {
  import opened Options
  import opened Ledger

  datatype Account = Account(balance: nat, identity: nat)

  type Db = map<Address, Account>

  datatype Update = Update(address: Address, newBalance: nat, identity: nat, isNew: bool)

  /** One account of the remote's reply, and whether creating it locally fails. */
  datatype Fetched = Fetched(address: Address, identity: nat, createFails: bool)

  /** A run and everything that goes wrong in it; reply is None without a remote or when the fetch fails. */
  datatype Job = Job(order: seq<Address>, deltas: map<Address, int>, computeFails: set<Address>,
                     reply: Option<seq<Fetched>>, walFails: bool, commitFails: bool) {
    ghost predicate Valid() {
      (forall i, j :: 0 <= i < j < |order| ==> order[i] != order[j]) && forall a :: a in order ==> a in deltas
    }
  }

  // ----- what each phase does -----

  /** The stored balance plus the delta, never below zero; the stored identity, or 0 for an unknown account. */
  function ComputeUpdate(db: Db, a: Address, delta: int): Update {
    if a in db then Update(a, Clamp(db[a].balance + delta), db[a].identity, false)
    else Update(a, Clamp(delta), 0, true)
  }

  function Updates(db: Db, job: Job, n: nat): (us: seq<Update>)
    requires n <= |job.order| && forall a :: a in job.order ==> a in job.deltas
    ensures |us| == n && forall k :: 0 <= k < n ==> us[k] == ComputeUpdate(db, job.order[k], job.deltas[job.order[k]])
  {
    seq(n, k requires 0 <= k < n => ComputeUpdate(db, job.order[k], job.deltas[job.order[k]]))
  }

  predicate ComputeFailed(job: Job) {
    exists k :: 0 <= k < |job.order| && job.order[k] in job.computeFails
  }

  function Missing(us: seq<Update>): set<Address> {
    set k | 0 <= k < |us| && us[k].isNew :: us[k].address
  }

  function Flagged(us: seq<Update>, a: Address): (r: seq<Update>)
    ensures |r| == |us| && forall k :: 0 <= k < |us| ==> r[k] == if us[k].address == a then us[k].(isNew := false) else us[k]
  {
    seq(|us|, k requires 0 <= k < |us| => if us[k].address == a then us[k].(isNew := false) else us[k])
  }

  datatype Plan = Plan(db: Db, updates: seq<Update>)

  /** One fetched account: created with a zero balance if it was missing, and its update becomes an ordinary one. */
  function PreCreateOne(p: Plan, missing: set<Address>, f: Fetched): Plan {
    if f.address !in missing || f.createFails || f.address in p.db then p
    else Plan(p.db[f.address := Account(0, f.identity)], Flagged(p.updates, f.address))
  }

  function PreCreate(p: Plan, missing: set<Address>, fetched: seq<Fetched>): Plan {
    if fetched == [] then p
    else PreCreateOne(PreCreate(p, missing, fetched[..|fetched| - 1]), missing, fetched[|fetched| - 1])
  }

  /** One update inside the commit: the new balance, and an identity that 0 never overwrites. */
  function ApplyUpdate(db: Db, u: Update): Db {
    var identity := if u.identity == 0 && u.address in db then db[u.address].identity else u.identity;
    db[u.address := Account(u.newBalance, identity)]
  }

  function Commit(db: Db, us: seq<Update>): Db {
    if us == [] then db else ApplyUpdate(Commit(db, us[..|us| - 1]), us[|us| - 1])
  }

  predicate Distinct(us: seq<Update>) {
    forall i, j :: 0 <= i < j < |us| ==> us[i].address != us[j].address
  }

  datatype Outcome = Outcome(db: Db, ok: bool)

  /** The plan after phase 1.5. */
  function Planned(db: Db, job: Job): Plan
    requires forall a :: a in job.order ==> a in job.deltas
  {
    var us := Updates(db, job, |job.order|);
    if job.reply.None? then Plan(db, us) else PreCreate(Plan(db, us), Missing(us), job.reply.value)
  }

  function RunJob(db: Db, job: Job): Outcome
    requires forall a :: a in job.order ==> a in job.deltas
  {
    if job.order == [] then Outcome(db, true)
    else if ComputeFailed(job) then Outcome(db, false)
    else
      var plan := Planned(db, job);
      if job.walFails || job.commitFails then Outcome(plan.db, false)
      else Outcome(Commit(plan.db, plan.updates), true)
  }

  // ----- the program -----

  class Reconciler {
    var db: Db

    constructor (db: Db)
      ensures this.db == db
    {
      this.db := db;
    }

    /** All updates: the new balance, the stored identity carried along, or 0 for an account that is not stored. */
    method ComputePhase(job: Job) returns (updates: seq<Update>, failed: seq<Address>)
      requires job.Valid()
      ensures failed == [] <==> !ComputeFailed(job)
      ensures failed == [] ==> updates == Updates(db, job, |job.order|)
      ensures failed == [] ==> |updates| == |job.order| && forall k :: 0 <= k < |job.order| ==>
                var a, sum := job.order[k], Held(db, job.order[k]) + job.deltas[job.order[k]];
                updates[k].address == a && updates[k].newBalance == (if sum < 0 then 0 else sum) &&
                updates[k].identity == (if a in db then db[a].identity else 0) && (updates[k].isNew <==> a !in db)
    {
      updates, failed := [], [];
      for k := 0 to |job.order|
        invariant failed == [] ==> updates == Updates(db, job, k)
        invariant failed == [] <==> forall i :: 0 <= i < k ==> job.order[i] !in job.computeFails
      {
        var a := job.order[k];
        if a in job.computeFails {
          failed := failed + [a];
        } else {
          updates := updates + [ComputeUpdate(db, a, job.deltas[a])];
        }
      }
    }

    method PreCreatePhase(updates0: seq<Update>, fetched: seq<Fetched>) returns (updates: seq<Update>)
      modifies this
      ensures Plan(db, updates) == PreCreate(Plan(old(db), updates0), Missing(updates0), fetched)
    {
      var missing := Missing(updates0);
      updates := updates0;
      for i := 0 to |fetched|
        invariant Plan(db, updates) == PreCreate(Plan(old(db), updates0), missing, fetched[..i])
      {
        assert fetched[..i + 1][..i] == fetched[..i];
        var f := fetched[i];
        if f.address !in missing {
          continue;
        }
        if f.createFails || f.address in db {
          continue;
        }
        db := db[f.address := Account(0, f.identity)];
        updates := Flagged(updates, f.address);
      }
      assert fetched[..|fetched|] == fetched;
    }

    /** Every update takes effect; one that carries 0 for a held account leaves its identity as it was. */
    method CommitPhase(updates: seq<Update>)
      modifies this
      ensures db == Commit(old(db), updates)
      ensures Distinct(updates) ==> forall k :: 0 <= k < |updates| ==>
                var u := updates[k];
                u.address in db && db[u.address].balance == u.newBalance &&
                (u.identity != 0 || u.address !in old(db) ==> db[u.address].identity == u.identity) &&
                (u.identity == 0 && u.address in old(db) ==> db[u.address].identity == old(db)[u.address].identity)
      ensures forall a :: (forall k :: 0 <= k < |updates| ==> updates[k].address != a) ==>
                (a in db <==> a in old(db)) && (a in db ==> db[a] == old(db)[a])
    {
      var next := db;
      for k := 0 to |updates|
        invariant next == Commit(old(db), updates[..k]) && db == old(db)
      {
        assert updates[..k + 1][..k] == updates[..k];
        next := ApplyUpdate(next, updates[k]);
      }
      assert updates[..|updates|] == updates;
      CommitMeans(db, updates);
      db := next;
    }

    /** Both Reconcile and ReconcileWithDeltas. */
    method Reconcile(job: Job) returns (ok: bool)
      requires job.Valid()
      modifies this
      ensures Outcome(db, ok) == RunJob(old(db), job)
    {
      if |job.order| == 0 {
        return true;
      }
      var updates, failed := ComputePhase(job);
      if |failed| > 0 {
        return false;
      }
      if job.reply.Some? {
        updates := PreCreatePhase(updates, job.reply.value);
      }
      if job.walFails {
        return false;
      }
      if job.commitFails {
        return false;
      }
      CommitPhase(updates);
      return true;
    }
  }

  // ----- phase 1.5 -----

  /** Entry i is the first of the reply that names a and can be stored. */
  predicate FirstStorable(fetched: seq<Fetched>, a: Address, i: int) {
    0 <= i < |fetched| && fetched[i].address == a && !fetched[i].createFails &&
    forall k :: 0 <= k < i ==> fetched[k].address != a || fetched[k].createFails
  }

  ghost predicate SomeStorable(fetched: seq<Fetched>, a: Address) {
    exists i :: FirstStorable(fetched, a, i)
  }

  function Reply(job: Job): seq<Fetched> {
    if job.reply.Some? then job.reply.value else []
  }

  /** What phase 1.5 leaves for account a: a stored account as it was, else an empty one of the first storable entry for it. */
  ghost predicate PreparedFor(db: Db, order: seq<Address>, fetched: seq<Fetched>, db': Db, a: Address) {
    (a in db' <==> a in db || (a in order && SomeStorable(fetched, a))) &&
    (a in db ==> a in db' && db'[a] == db[a]) &&
    (a !in db && a in db' ==> forall i :: FirstStorable(fetched, a, i) ==> db'[a] == Account(0, fetched[i].identity))
  }

  /** The plan is prepared for every account and flags exactly the unknown accounts as new. */
  ghost predicate PlanOk(db: Db, job: Job, fetched: seq<Fetched>, p: Plan)
    requires forall a :: a in job.order ==> a in job.deltas
  {
    (forall a :: PreparedFor(db, job.order, fetched, p.db, a)) && |p.updates| == |job.order| &&
    forall k :: 0 <= k < |job.order| ==>
      p.updates[k] == ComputeUpdate(db, job.order[k], job.deltas[job.order[k]]).(isNew := job.order[k] !in p.db)
  }

  lemma MissingMeans(db: Db, job: Job, a: Address)
    requires job.Valid()
    ensures a in Missing(Updates(db, job, |job.order|)) <==> a in job.order && a !in db
  {
    var us := Updates(db, job, |job.order|);
    if a in job.order {
      var k :| 0 <= k < |job.order| && job.order[k] == a;
      assert us[k].address == a;
    }
  }

  /** One more entry makes a storable exactly if it already was or this entry is the first that is. */
  lemma StorableStep(xs: seq<Fetched>, f: Fetched, a: Address)
    ensures forall i :: 0 <= i < |xs| ==> (FirstStorable(xs + [f], a, i) <==> FirstStorable(xs, a, i))
    ensures FirstStorable(xs + [f], a, |xs|) <==> !SomeStorable(xs, a) && f.address == a && !f.createFails
    ensures SomeStorable(xs + [f], a) <==> SomeStorable(xs, a) || (f.address == a && !f.createFails)
  {
    var more := xs + [f];
    assert forall i :: 0 <= i < |xs| ==> more[i] == xs[i];
    if SomeStorable(xs, a) {
      var i :| FirstStorable(xs, a, i);
      assert FirstStorable(more, a, i);
    } else {
      NoneStorable(xs, a);
    }
    if SomeStorable(more, a) {
      var i :| FirstStorable(more, a, i);
      assert i < |xs| ==> FirstStorable(xs, a, i);
    }
  }

  lemma {:induction false} NoneStorable(xs: seq<Fetched>, a: Address)
    ensures SomeStorable(xs, a) || forall k :: 0 <= k < |xs| ==> xs[k].address != a || xs[k].createFails
  {
    if xs != [] {
      var n := |xs| - 1;
      NoneStorable(xs[..n], a);
      if SomeStorable(xs[..n], a) {
        var i :| FirstStorable(xs[..n], a, i);
        assert FirstStorable(xs, a, i);
      } else if xs[n].address == a && !xs[n].createFails {
        assert forall k :: 0 <= k < n ==> xs[..n][k] == xs[k];
        assert FirstStorable(xs, a, n);
      } else {
        assert forall k :: 0 <= k < n ==> xs[..n][k] == xs[k];
      }
    }
  }

  lemma PreCreateOneOk(db: Db, job: Job, p: Plan, xs: seq<Fetched>, f: Fetched)
    requires job.Valid() && PlanOk(db, job, xs, p)
    ensures PlanOk(db, job, xs + [f], PreCreateOne(p, Missing(Updates(db, job, |job.order|)), f))
  {
    var us := Updates(db, job, |job.order|);
    var q := PreCreateOne(p, Missing(us), f);
    MissingMeans(db, job, f.address);
    forall a ensures PreparedFor(db, job.order, xs + [f], q.db, a) {
      assert PreparedFor(db, job.order, xs, p.db, a);
      PreparedStep(db, job.order, xs, f, p.db, q.db, a);
    }
  }

  lemma PreparedStep(db: Db, order: seq<Address>, xs: seq<Fetched>, f: Fetched, before: Db, after: Db, a: Address)
    requires PreparedFor(db, order, xs, before, a)
    requires after == if f.address !in order || f.address in db || f.createFails || f.address in before then before
                      else before[f.address := Account(0, f.identity)]
    ensures PreparedFor(db, order, xs + [f], after, a)
  {
    StorableStep(xs, f, a);
    assert (xs + [f])[|xs|] == f;
    assert forall i :: 0 <= i < |xs| ==> (xs + [f])[i] == xs[i];
    if a !in db && a in after {
      forall i | FirstStorable(xs + [f], a, i) ensures after[a] == Account(0, (xs + [f])[i].identity) {
        assert i < |xs| ==> FirstStorable(xs, a, i);
      }
    }
  }

  lemma {:induction false} PreCreateOk(db: Db, job: Job, xs: seq<Fetched>)
    requires job.Valid()
    ensures var us := Updates(db, job, |job.order|);
            PlanOk(db, job, xs, PreCreate(Plan(db, us), Missing(us), xs))
  {
    if xs != [] {
      var n := |xs| - 1;
      PreCreateOk(db, job, xs[..n]);
      var us := Updates(db, job, |job.order|);
      PreCreateOneOk(db, job, PreCreate(Plan(db, us), Missing(us), xs[..n]), xs[..n], xs[n]);
      assert xs[..n] + [xs[n]] == xs;
    }
  }

  lemma PlannedOk(db: Db, job: Job)
    requires job.Valid()
    ensures PlanOk(db, job, Reply(job), Planned(db, job))
  {
    PreCreateOk(db, job, Reply(job));
  }

  // ----- the commit -----

  /** An address that no update names keeps what it had. */
  lemma {:induction false} CommitSkips(db: Db, us: seq<Update>, a: Address)
    requires forall k :: 0 <= k < |us| ==> us[k].address != a
    ensures a in Commit(db, us) <==> a in db
    ensures a in db ==> Commit(db, us)[a] == db[a]
  {
    if us != [] {
      CommitSkips(db, us[..|us| - 1], a);
    }
  }

  /** With distinct addresses each update takes effect once, on what the database held before the commit. */
  lemma {:induction false} CommitSets(db: Db, us: seq<Update>, k: nat)
    requires k < |us| && Distinct(us)
    ensures us[k].address in Commit(db, us) && Commit(db, us)[us[k].address] == ApplyUpdate(db, us[k])[us[k].address]
  {
    var n := |us| - 1;
    if k == n {
      CommitSkips(db, us[..n], us[n].address);
    } else {
      CommitSets(db, us[..n], k);
    }
  }

  /** What a commit does, update by update. */
  lemma CommitMeans(db: Db, us: seq<Update>)
    ensures var db' := Commit(db, us);
            Distinct(us) ==> forall k :: 0 <= k < |us| ==>
              us[k].address in db' && db'[us[k].address].balance == us[k].newBalance &&
              (us[k].identity != 0 || us[k].address !in db ==> db'[us[k].address].identity == us[k].identity) &&
              (us[k].identity == 0 && us[k].address in db ==> db'[us[k].address].identity == db[us[k].address].identity)
    ensures var db' := Commit(db, us);
            forall a :: (forall k :: 0 <= k < |us| ==> us[k].address != a) ==>
              (a in db' <==> a in db) && (a in db' ==> db'[a] == db[a])
  {
    if Distinct(us) {
      forall k | 0 <= k < |us|
        ensures us[k].address in Commit(db, us) && Commit(db, us)[us[k].address] == ApplyUpdate(db, us[k])[us[k].address]
      {
        CommitSets(db, us, k);
      }
    }
    forall a | forall k :: 0 <= k < |us| ==> us[k].address != a
      ensures (a in Commit(db, us) <==> a in db) && (a in db ==> Commit(db, us)[a] == db[a])
    {
      CommitSkips(db, us, a);
    }
  }

  // ----- one run -----

  function Held(db: Db, a: Address): nat {
    if a in db then db[a].balance else 0
  }

  /**
   A failed run leaves every stored account as it was; what it adds are accounts of the run, empty, with the identity
   of the remote's first storable entry for them.  Stopped in phase 1 it adds nothing, later everything of phase 1.5.
   */
  lemma FailedRunKeepsAccounts(db: Db, job: Job)
    requires job.Valid() && !RunJob(db, job).ok
    ensures var db' := RunJob(db, job).db;
            (forall a :: a in db ==> a in db' && db'[a] == db[a]) &&
            (forall a :: a in db' && a !in db ==> a in job.order && exists i :: AddedBy(job, a, i, db'[a])) &&
            if ComputeFailed(job) then db' == db else forall a :: PreparedFor(db, job.order, Reply(job), db', a)
  {
    if !ComputeFailed(job) {
      PlannedOk(db, job);
      var db' := RunJob(db, job).db;
      forall a | a in db' && a !in db ensures a in job.order && exists i :: AddedBy(job, a, i, db'[a]) {
        assert PreparedFor(db, job.order, Reply(job), db', a);
        var i :| FirstStorable(Reply(job), a, i);
        assert AddedBy(job, a, i, db'[a]);
      }
      forall a | a in db ensures a in db' && db'[a] == db[a] {
        assert PreparedFor(db, job.order, Reply(job), db', a);
      }
    }
  }

  ghost predicate AddedBy(job: Job, a: Address, i: int, account: Account) {
    FirstStorable(Reply(job), a, i) && account == Account(0, Reply(job)[i].identity)
  }

  /** What a successful run makes of account a of the run. */
  ghost predicate RunSets(db: Db, job: Job, db': Db, a: Address)
    requires a in job.deltas
  {
    var sum := Held(db, a) + job.deltas[a];
    a in db' && db'[a].balance == (if sum < 0 then 0 else sum) &&
    (a in db ==> db'[a].identity == db[a].identity) &&
    (a !in db ==> forall i :: FirstStorable(Reply(job), a, i) ==> db'[a].identity == Reply(job)[i].identity) &&
    (a !in db && !SomeStorable(Reply(job), a) ==> db'[a].identity == 0)
  }

  /**
   A successful run sets each account to its old balance plus its delta, at least zero, and touches no other.  A
   stored identity stays; a new account has the identity of the remote's first storable entry for it, or 0 without one.
   */
  lemma SuccessfulRunSetsBalances(db: Db, job: Job)
    requires job.Valid() && RunJob(db, job).ok
    ensures forall a :: a in job.order ==> RunSets(db, job, RunJob(db, job).db, a)
    ensures var db' := RunJob(db, job).db;
            forall a :: a !in job.order ==> (a in db' <==> a in db) && (a in db ==> db'[a] == db[a])
  {
    if job.order != [] {
      PlannedOk(db, job);
      var plan, db' := Planned(db, job), RunJob(db, job).db;
      forall a | a in job.order ensures RunSets(db, job, db', a) {
        var k :| 0 <= k < |job.order| && job.order[k] == a;
        CommittedAt(db, job, plan, k);
      }
      forall a | a !in job.order ensures (a in db' <==> a in db) && (a in db ==> db'[a] == db[a]) {
        assert PreparedFor(db, job.order, Reply(job), plan.db, a);
        CommitSkips(plan.db, plan.updates, a);
      }
    }
  }

  lemma CommittedAt(db: Db, job: Job, plan: Plan, k: nat)
    requires job.Valid() && PlanOk(db, job, Reply(job), plan) && k < |job.order|
    ensures RunSets(db, job, Commit(plan.db, plan.updates), job.order[k])
  {
    assert PreparedFor(db, job.order, Reply(job), plan.db, job.order[k]);
    CommitMeans(plan.db, plan.updates);
  }

  /** Phase 1.5 will create an account: a remote reply holds one of the run's unknown addresses and storing it works. */
  predicate CreatesSome(db: Db, job: Job) {
    job.reply.Some? && exists i :: 0 <= i < |job.reply.value| && Storable(db, job.order, job.reply.value[i])
  }

  predicate Storable(db: Db, order: seq<Address>, f: Fetched) {
    f.address in order && f.address !in db && !f.createFails
  }

  /** Whatever storable reply entry names an unknown address of the run, that address is created. */
  lemma {:induction false} PreCreateStores(p: Plan, missing: set<Address>, fetched: seq<Fetched>, i: nat)
    requires i < |fetched| && fetched[i].address in missing && !fetched[i].createFails
    ensures fetched[i].address in PreCreate(p, missing, fetched).db
  {
    if i < |fetched| - 1 {
      PreCreateStores(p, missing, fetched[..|fetched| - 1], i);
    }
  }

  lemma {:induction false} PreCreateKeeps(p: Plan, missing: set<Address>, fetched: seq<Fetched>)
    requires forall i :: 0 <= i < |fetched| ==> fetched[i].address !in missing || fetched[i].createFails
    ensures PreCreate(p, missing, fetched) == p
  {
    if fetched != [] {
      PreCreateKeeps(p, missing, fetched[..|fetched| - 1]);
    }
  }

  /**
   An error return means an untouched database exactly when the run stopped in phase 1 or phase 1.5 had nothing
   it could create: the promise that a failed run changes nothing is broken by every other failing run.
   */
  lemma FailedRunUntouchedIff(db: Db, job: Job)
    requires job.Valid() && !RunJob(db, job).ok
    ensures RunJob(db, job).db == db <==> ComputeFailed(job) || !CreatesSome(db, job)
  {
    if !ComputeFailed(job) && job.reply.Some? {
      var us, fetched := Updates(db, job, |job.order|), job.reply.value;
      forall i | 0 <= i < |fetched|
        ensures fetched[i].address in Missing(us) <==> fetched[i].address in job.order && fetched[i].address !in db
      {
        MissingMeans(db, job, fetched[i].address);
      }
      if CreatesSome(db, job) {
        var i :| 0 <= i < |fetched| && Storable(db, job.order, fetched[i]);
        PreCreateStores(Plan(db, us), Missing(us), fetched, i);
      } else {
        PreCreateKeeps(Plan(db, us), Missing(us), fetched);
      }
    }
  }

  /** Such a run: the fetched account stays although the commit fails. */
  lemma FailedRunCanAddAccount()
    ensures var job := Job([7], map[7 := 5], {}, Some([Fetched(7, 3, false)]), false, true);
            job.Valid() && !RunJob(map[], job).ok && RunJob(map[], job).db == map[7 := Account(0, 3)]
  {
    var job := Job([7], map[7 := 5], {}, Some([Fetched(7, 3, false)]), false, true);
    FailedRunUntouchedIff(map[], job);
    assert Storable(map[], job.order, job.reply.value[0]);
    FailedRunKeepsAccounts(map[], job);
    var db' := RunJob(map[], job).db;
    assert forall a :: a in db' ==> a == 7;
  }

  // ----- any sequence of runs -----

  ghost function RunJobs(db: Db, jobs: seq<Job>): Db
    requires forall k :: 0 <= k < |jobs| ==> jobs[k].Valid()
  {
    if jobs == [] then db
    else
      var n := |jobs| - 1;
      assert jobs[n].Valid();
      RunJob(RunJobs(db, jobs[..n]), jobs[n]).db
  }

  lemma RunKeepsIdentity(db: Db, job: Job, a: Address)
    requires job.Valid() && a in db
    ensures a in RunJob(db, job).db && RunJob(db, job).db[a].identity == db[a].identity
  {
    if RunJob(db, job).ok {
      SuccessfulRunSetsBalances(db, job);
    } else {
      FailedRunKeepsAccounts(db, job);
    }
  }

  /** Over any sequence of runs with any failures a stored identity nonce never changes and no account disappears. */
  lemma {:induction false} IdentityNeverChanges(db: Db, jobs: seq<Job>, a: Address)
    requires (forall k :: 0 <= k < |jobs| ==> jobs[k].Valid()) && a in db
    ensures a in RunJobs(db, jobs) && RunJobs(db, jobs)[a].identity == db[a].identity
  {
    if jobs != [] {
      var n := |jobs| - 1;
      IdentityNeverChanges(db, jobs[..n], a);
      RunKeepsIdentity(RunJobs(db, jobs[..n]), jobs[n], a);
    }
  }
}
