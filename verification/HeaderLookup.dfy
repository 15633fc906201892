/** The cache in front of the header database, and what it holds after any run of lookups. */
module HeaderLookup {
  import opened Options
  import opened LruSpec
  import opened LruCache

  // ----- any run of cache operations -----

  datatype Op<V> = GetOp(key: nat) | PutOp(key: nat, value: V) | RemoveOp(key: nat)

  function Apply<V>(m: seq<Pair<V>>, capacity: int, op: Op<V>): seq<Pair<V>> {
    match op
    case GetOp(key) => Touched(m, key)
    case PutOp(key, value) => Stored(m, capacity, key, value)
    case RemoveOp(key) => Without(m, key)
  }

  function ApplyAll<V>(capacity: int, ops: seq<Op<V>>): seq<Pair<V>> {
    if ops == [] then [] else Apply(ApplyAll(capacity, ops[..|ops| - 1]), capacity, ops[|ops| - 1])
  }

  /** Every stored pair is the database's. */
  ghost predicate Coherent<V>(m: seq<Pair<V>>, db: map<nat, V>) {
    forall i :: 0 <= i < |m| ==> m[i].key in db && db[m[i].key] == m[i].value
  }

  ghost predicate CoherentOp<V>(op: Op<V>, db: map<nat, V>) {
    op.PutOp? ==> op.key in db && db[op.key] == op.value
  }

  /** What Without keeps: an ordered selection of the entries with other keys. */
  lemma {:induction false} WithoutFacts<V>(m: seq<Pair<V>>, key: nat, db: map<nat, V>)
    ensures !Has(Without(m, key), key) && |Without(m, key)| <= |m|
    ensures DistinctKeys(m) ==> DistinctKeys(Without(m, key))
    ensures Coherent(m, db) ==> Coherent(Without(m, key), db)
    ensures Has(m, key) ==> |Without(m, key)| < |m|
    ensures forall k :: Has(Without(m, key), k) ==> Has(m, k)
  {
    if m != [] {
      WithoutFacts(m[1..], key, db);
      forall k | Has(Without(m, key), k) ensures Has(m, k) {
        var i :| 0 <= i < |Without(m, key)| && Without(m, key)[i].key == k;
        if m[0].key == key {
          assert Has(m[1..], k);
        } else if i > 0 {
          assert Without(m[1..], key)[i - 1].key == k;
          assert Has(m[1..], k);
        } else {
          assert m[0].key == k;
        }
        if m[0].key != k {
          var n :| 0 <= n < |m[1..]| && m[1..][n].key == k;
          assert m[n + 1].key == k;
        }
      }
      if DistinctKeys(m) {
        TailDistinct(m);
      }
      if Has(m, key) && m[0].key != key {
        var n :| 0 <= n < |m| && m[n].key == key;
        assert m[1..][n - 1].key == key;
      }
    }
  }

  lemma {:induction false} FindIsStored<V>(m: seq<Pair<V>>, key: nat, db: map<nat, V>)
    requires Has(m, key) && Coherent(m, db)
    ensures key in db && Find(m, key) == db[key]
  {
    if m[0].key != key {
      var n :| 0 <= n < |m| && m[n].key == key;
      assert m[1..][n - 1].key == key;
      FindIsStored(m[1..], key, db);
    }
  }

  lemma ApplyKeeps<V>(m: seq<Pair<V>>, capacity: int, op: Op<V>, db: map<nat, V>)
    requires DistinctKeys(m) && (|m| <= capacity || |m| <= 1)
    ensures var r := Apply(m, capacity, op);
            DistinctKeys(r) && (|r| <= capacity || |r| <= 1) && (Coherent(m, db) && CoherentOp(op, db) ==> Coherent(r, db))
  {
    WithoutFacts(m, op.key, db);
    if op.GetOp? && Has(m, op.key) && Coherent(m, db) {
      FindIsStored(m, op.key, db);
    }
  }

  /**
   Under every sequence of Get, Put and Remove the cache holds at most max(1, capacity) entries with distinct
   keys, and if only database values are put in, only database values are ever stored.
   */
  lemma {:induction false} EveryRunIsBounded<V>(capacity: int, ops: seq<Op<V>>, db: map<nat, V>)
    ensures var m := ApplyAll(capacity, ops);
            DistinctKeys(m) && (|m| <= capacity || |m| <= 1) &&
            ((forall i :: 0 <= i < |ops| ==> CoherentOp(ops[i], db)) ==> Coherent(m, db))
  {
    if ops != [] {
      var n := |ops| - 1;
      EveryRunIsBounded(capacity, ops[..n], db);
      ApplyKeeps(ApplyAll(capacity, ops[..n]), capacity, ops[n], db);
    }
  }

  // ----- lookups through the cache -----

  /** Returns what the unchanging database holds, whether or not the cache has it. */
  method GetBlockFromLRUCache<V>(cache: Cache?<V>, db: map<nat, V>, dbAnswers: bool, number: nat) returns (header: Option<V>)
    requires cache != null ==> cache.Valid() && Coherent(cache.Model(), db)
    modifies cache, if cache == null then [] else cache.nodes
    ensures cache != null ==> cache.Valid() && Coherent(cache.Model(), db)
    ensures cache == null ==> header == None
    ensures header.Some? ==> number in db && header.value == db[number]
    ensures cache != null && number in db && (dbAnswers || Has(old(cache.Model()), number)) ==> header == Some(db[number])
    ensures cache != null && !dbAnswers ==>
              cache.Model() == if Has(old(cache.Model()), number) then Touched(old(cache.Model()), number) else old(cache.Model())
    ensures cache != null && dbAnswers ==> cache.Model() == Lookup(old(cache.Model()), cache.totalCapacity, db, number)
  {
    if cache == null {
      return None;
    }
    ghost var m := cache.Model();
    ApplyKeeps(m, cache.totalCapacity, GetOp(number), db);
    header := cache.Get(number);
    if header.Some? {
      FindIsStored(m, number, db);
      return header;
    }
    if !dbAnswers || number !in db {
      return None;
    }
    header := Some(db[number]);
    ApplyKeeps(m, cache.totalCapacity, PutOp(number, db[number]), db);
    cache.Put(number, db[number]);
  }

  function Lookup<V>(m: seq<Pair<V>>, capacity: int, db: map<nat, V>, key: nat): seq<Pair<V>> {
    if Has(m, key) then Touched(m, key)
    else if key in db then Stored(m, capacity, key, db[key])
    else m
  }

  function Lookups<V>(capacity: int, db: map<nat, V>, keys: seq<nat>): seq<Pair<V>> {
    if keys == [] then [] else Lookup(Lookups(capacity, db, keys[..|keys| - 1]), capacity, db, keys[|keys| - 1])
  }

  // ----- recency -----

  function Drop(ks: seq<nat>, key: nat): seq<nat> {
    if ks == [] then [] else if ks[0] == key then Drop(ks[1..], key) else [ks[0]] + Drop(ks[1..], key)
  }

  /** The distinct keys of a history, most recently used first. */
  function Recent(keys: seq<nat>): seq<nat> {
    if keys == [] then []
    else [keys[|keys| - 1]] + Drop(Recent(keys[..|keys| - 1]), keys[|keys| - 1])
  }

  function KeysOf<V>(m: seq<Pair<V>>): (ks: seq<nat>)
    ensures |ks| == |m| && forall i :: 0 <= i < |m| ==> ks[i] == m[i].key
  {
    seq(|m|, i requires 0 <= i < |m| => m[i].key)
  }

  lemma {:induction false} KeysOfWithout<V>(m: seq<Pair<V>>, key: nat)
    ensures KeysOf(Without(m, key)) == Drop(KeysOf(m), key)
  {
    if m != [] {
      assert KeysOf(m)[1..] == KeysOf(m[1..]);
      KeysOfWithout(m[1..], key);
    }
  }

  lemma {:induction false} DropAbsent(ks: seq<nat>, key: nat)
    requires key !in ks
    ensures Drop(ks, key) == ks
  {
    if ks != [] {
      DropAbsent(ks[1..], key);
    }
  }

  /** Dropping a key from a duplicate-free list keeps the list's prefixes. */
  lemma {:induction false} DropPrefix(ks: seq<nat>, n: nat, key: nat)
    requires n <= |ks| && forall i, j :: 0 <= i < j < |ks| ==> ks[i] != ks[j]
    ensures key in ks[..n] ==> |Drop(ks, key)| == |ks| - 1 && Drop(ks[..n], key) == Drop(ks, key)[..n - 1]
    ensures key !in ks[..n] ==> n <= |Drop(ks, key)| + (if key in ks then 1 else 0) && |Drop(ks, key)| == |ks| - (if key in ks then 1 else 0)
    ensures key !in ks[..n] ==> forall k :: 0 <= k <= n && k <= |Drop(ks, key)| ==> Drop(ks, key)[..k] == ks[..k]
  {
    if ks == [] {
    } else if ks[0] == key {
      DropAbsent(ks[1..], key);
      if n > 0 {
        assert ks[..n][1..] == ks[1..][..n - 1];
        DropAbsent(ks[1..][..n - 1], key);
      }
    } else {
      if n > 0 {
        assert ks[..n][1..] == ks[1..][..n - 1] && ks[..n][0] == ks[0];
        DropPrefix(ks[1..], n - 1, key);
      } else {
        DropPrefix(ks[1..], 0, key);
      }
    }
  }

  ghost predicate Distinct(ks: seq<nat>) {
    forall i, j :: 0 <= i < j < |ks| ==> ks[i] != ks[j]
  }

  lemma {:induction false} DropDistinct(ks: seq<nat>, key: nat)
    requires Distinct(ks)
    ensures Distinct(Drop(ks, key)) && key !in Drop(ks, key) && forall k :: k in Drop(ks, key) ==> k in ks
  {
    if ks != [] {
      DropDistinct(ks[1..], key);
      assert ks[0] !in ks[1..];
      assert ks[0] !in Drop(ks[1..], key);
    }
  }

  lemma {:induction false} RecentDistinct(keys: seq<nat>)
    ensures Distinct(Recent(keys))
  {
    if keys != [] {
      RecentDistinct(keys[..|keys| - 1]);
      DropDistinct(Recent(keys[..|keys| - 1]), keys[|keys| - 1]);
    }
  }

  function Limit(capacity: int): nat {
    if capacity < 1 then 1 else capacity
  }

  function Prefix(ks: seq<nat>, n: nat): seq<nat> {
    if |ks| <= n then ks else ks[..n]
  }

  lemma HitKeepsPrefix<V>(m: seq<Pair<V>>, key: nat, recent: seq<nat>)
    requires Distinct(recent) && |m| <= |recent| && KeysOf(m) == recent[..|m|] && Has(m, key)
    ensures |Drop(recent, key)| == |recent| - 1 && KeysOf(Touched(m, key)) == [key] + Drop(recent, key)[..|m| - 1]
  {
    var i :| 0 <= i < |m| && m[i].key == key;
    assert KeysOf(m)[i] == key;
    assert key in recent[..|m|];
    KeysOfWithout(m, key);
    DropPrefix(recent, |m|, key);
  }

  lemma MissKeepsPrefix<V>(m: seq<Pair<V>>, capacity: int, value: V, key: nat, recent: seq<nat>)
    requires Distinct(recent) && |m| <= |recent| && KeysOf(m) == recent[..|m|] && !Has(m, key)
    ensures var n := |Evicted(m, capacity)|;
            KeysOf(Stored(m, capacity, key, value)) == [key] + recent[..n] &&
            (n <= |Drop(recent, key)| ==> Drop(recent, key)[..n] == recent[..n]) &&
            |Drop(recent, key)| == |recent| - if key in recent then 1 else 0
  {
    assert key !in KeysOf(m);
    WithoutMissing(m, key);
    DropPrefix(recent, |m|, key);
    var kept := Evicted(m, capacity);
    assert KeysOf(kept) == recent[..|kept|];
  }

  /** One lookup keeps the cache at the front of the recency list. */
  lemma LookupKeepsPrefix<V>(m: seq<Pair<V>>, capacity: int, db: map<nat, V>, key: nat, recent: seq<nat>)
    requires key in db && Distinct(recent) && KeysOf(m) == Prefix(recent, Limit(capacity))
    ensures KeysOf(Lookup(m, capacity, db, key)) == Prefix([key] + Drop(recent, key), Limit(capacity))
  {
    assert KeysOf(m) == recent[..|m|];
    if Has(m, key) {
      HitKeepsPrefix(m, key, recent);
    } else {
      MissKeepsPrefix(m, capacity, db[key], key, recent);
      if |m| == |recent| {
        assert key !in recent;
      }
    }
  }

  /**
   After looking up any blocks that exist, in any order, the cache holds exactly the max(1, capacity) most
   recently looked-up distinct ones, most recent first, with the database's headers.
   */
  lemma {:induction false} LookupsKeepMostRecent<V>(capacity: int, db: map<nat, V>, keys: seq<nat>)
    requires forall i :: 0 <= i < |keys| ==> keys[i] in db
    ensures KeysOf(Lookups(capacity, db, keys)) == Prefix(Recent(keys), Limit(capacity))
    ensures Coherent(Lookups(capacity, db, keys), db)
  {
    if keys != [] {
      var n := |keys| - 1;
      LookupsKeepMostRecent(capacity, db, keys[..n]);
      RecentDistinct(keys[..n]);
      var m := Lookups(capacity, db, keys[..n]);
      LookupKeepsPrefix(m, capacity, db, keys[n], Recent(keys[..n]));
      WithoutFacts(m, keys[n], db);
      if Has(m, keys[n]) {
        FindIsStored(m, keys[n], db);
      }
    }
  }
}
