/**
 The LRU header cache: a map into a hand-written doubly linked list, proved against a plain
 most-recent-first sequence of key/value pairs.
 */
module LruSpec {

  datatype Pair<V> = Pair(key: nat, value: V)

  ghost predicate DistinctKeys<V>(m: seq<Pair<V>>) {
    forall i, j :: 0 <= i < j < |m| ==> m[i].key != m[j].key
  }

  predicate Has<V>(m: seq<Pair<V>>, key: nat) {
    exists i :: 0 <= i < |m| && m[i].key == key
  }

  /** m without its entry for key. */
  function Without<V>(m: seq<Pair<V>>, key: nat): seq<Pair<V>> {
    if m == [] then []
    else if m[0].key == key then Without(m[1..], key)
    else [m[0]] + Without(m[1..], key)
  }

  /** The value stored under key. */
  function Find<V>(m: seq<Pair<V>>, key: nat): V
    requires Has(m, key)
  {
    if m[0].key == key then m[0].value else
      assert Has(m[1..], key) by {
        var i :| 0 <= i < |m| && m[i].key == key;
        assert m[1..][i - 1].key == key;
      }
      Find(m[1..], key)
  }

  /** Get: a hit moves the entry to the front. */
  function Touched<V>(m: seq<Pair<V>>, key: nat): seq<Pair<V>> {
    if Has(m, key) then [Pair(key, Find(m, key))] + Without(m, key) else m
  }

  /** Make room for one more entry: drop the least recent one if the capacity is reached. */
  function Evicted<V>(m: seq<Pair<V>>, capacity: int): seq<Pair<V>> {
    if |m| >= capacity && m != [] then m[..|m| - 1] else m
  }

  function Stored<V>(m: seq<Pair<V>>, capacity: int, key: nat, value: V): seq<Pair<V>> {
    [Pair(key, value)] + Evicted(Without(m, key), capacity)
  }

  lemma {:induction false} WithoutAbsent<V>(m: seq<Pair<V>>, key: nat)
    requires forall i :: 0 <= i < |m| ==> m[i].key != key
    ensures Without(m, key) == m
  {
    if m != [] {
      WithoutAbsent(m[1..], key);
    }
  }

  lemma TailDistinct<V>(m: seq<Pair<V>>)
    requires m != [] && DistinctKeys(m)
    ensures DistinctKeys(m[1..]) && !Has(m[1..], m[0].key)
  {
    forall i | 0 <= i < |m[1..]| ensures m[1..][i].key != m[0].key {
      assert m[1..][i] == m[i + 1];
    }
  }

  lemma WithoutMissing<V>(m: seq<Pair<V>>, key: nat)
    requires !Has(m, key)
    ensures Without(m, key) == m
  {
    WithoutAbsent(m, key);
  }

  /** With distinct keys, removing a key cuts out one position. */
  lemma {:induction false} WithoutAt<V>(m: seq<Pair<V>>, at: nat, key: nat)
    requires DistinctKeys(m) && at < |m| && m[at].key == key
    ensures Without(m, key) == m[..at] + m[at + 1..] && !Has(Without(m, key), key)
    ensures Has(m, key) && Find(m, key) == m[at].value
  {
    if at == 0 {
      WithoutAbsent(m[1..], key);
      assert m[..0] + m[1..] == m[1..];
    } else {
      WithoutAt(m[1..], at - 1, key);
      assert m[..at] + m[at + 1..] == [m[0]] + (m[1..][..at - 1] + m[1..][at..]);
    }
  }
}

module LruCache {
  import opened Options
  import opened LruSpec

  /** A list node; key and value never change after construction. */
  class Entry<V> {
    const key: nat
    const value: V
    var next: Entry?<V>
    var prev: Entry?<V>

    constructor (key: nat, value: V)
      ensures this.key == key && this.value == value && next == null && prev == null
    {
      this.key := key;
      this.value := value;
      next, prev := null, null;
    }
  }

  /** What a list of nodes holds. */
  ghost function ModelOf<V>(nodes: seq<Entry<V>>): (m: seq<Pair<V>>)
    ensures |m| == |nodes|
  {
    if nodes == [] then [] else [Pair(nodes[0].key, nodes[0].value)] + ModelOf(nodes[1..])
  }

  /** The map that finds each node under its key. */
  ghost function IndexOf<V>(nodes: seq<Entry<V>>): map<nat, Entry<V>> {
    if nodes == [] then map[] else IndexOf(nodes[1..])[nodes[0].key := nodes[0]]
  }

  lemma {:induction false} ModelAt<V>(nodes: seq<Entry<V>>, i: nat)
    requires i < |nodes|
    ensures ModelOf(nodes)[i] == Pair(nodes[i].key, nodes[i].value)
  {
    if i > 0 {
      ModelAt(nodes[1..], i - 1);
    }
  }

  lemma {:induction false} ModelConcat<V>(xs: seq<Entry<V>>, ys: seq<Entry<V>>)
    ensures ModelOf(xs + ys) == ModelOf(xs) + ModelOf(ys)
  {
    if xs == [] {
      assert xs + ys == ys;
    } else {
      assert (xs + ys)[1..] == xs[1..] + ys;
      ModelConcat(xs[1..], ys);
    }
  }

  /** Cutting position i out of the list cuts it out of what the list holds. */
  lemma ModelCut<V>(nodes: seq<Entry<V>>, i: nat)
    requires i < |nodes|
    ensures var m := ModelOf(nodes); ModelOf(nodes[..i] + nodes[i + 1..]) == m[..i] + m[i + 1..]
  {
    assert nodes == nodes[..i] + nodes[i..] && nodes[i..] == [nodes[i]] + nodes[i + 1..];
    ModelConcat(nodes[..i], nodes[i..]);
    ModelConcat([nodes[i]], nodes[i + 1..]);
    ModelConcat(nodes[..i], nodes[i + 1..]);
  }

  lemma {:induction false} IndexKeys<V>(nodes: seq<Entry<V>>, key: nat)
    ensures key in IndexOf(nodes) <==> Has(ModelOf(nodes), key)
    ensures key in IndexOf(nodes) ==> IndexOf(nodes)[key] in nodes && IndexOf(nodes)[key].key == key
  {
    if nodes != [] {
      IndexKeys(nodes[1..], key);
      var m := ModelOf(nodes);
      assert m[1..] == ModelOf(nodes[1..]);
      if nodes[0].key == key {
        assert m[0].key == key;
      } else if Has(m[1..], key) {
        var i :| 0 <= i < |m[1..]| && m[1..][i].key == key;
        assert m[i + 1].key == key;
      } else {
        assert forall i :: 1 <= i < |m| ==> m[i] == m[1..][i - 1];
      }
    }
  }

  /** The first key does not occur again, and the rest is distinct. */
  lemma DistinctTail<V>(nodes: seq<Entry<V>>)
    requires nodes != [] && DistinctKeys(ModelOf(nodes))
    ensures DistinctKeys(ModelOf(nodes[1..])) && nodes[0].key !in IndexOf(nodes[1..])
  {
    assert ModelOf(nodes)[1..] == ModelOf(nodes[1..]);
    TailDistinct(ModelOf(nodes));
    IndexKeys(nodes[1..], nodes[0].key);
  }

  lemma UpdateMinus<V>(index: map<nat, Entry<V>>, key: nat, node: Entry<V>, gone: nat)
    requires key != gone
    ensures (index - {gone})[key := node] == index[key := node] - {gone}
  {
  }

  /** With distinct keys, cutting out a node removes its key from the map. */
  lemma {:induction false} IndexCut<V>(nodes: seq<Entry<V>>, i: nat)
    requires i < |nodes| && DistinctKeys(ModelOf(nodes))
    ensures IndexOf(nodes[..i] + nodes[i + 1..]) == IndexOf(nodes) - {nodes[i].key}
  {
    var rest := nodes[1..];
    DistinctTail(nodes);
    if i == 0 {
      assert nodes[..0] + nodes[1..] == rest;
    } else {
      IndexCut(rest, i - 1);
      var cut := nodes[..i] + nodes[i + 1..];
      assert cut[1..] == rest[..i - 1] + rest[i..] && cut[0] == nodes[0];
      assert nodes[i].key != nodes[0].key by {
        ModelAt(nodes, i);
        ModelAt(nodes, 0);
      }
      UpdateMinus(IndexOf(rest), nodes[0].key, nodes[0], nodes[i].key);
    }
  }

  lemma {:induction false} IndexSize<V>(nodes: seq<Entry<V>>)
    requires DistinctKeys(ModelOf(nodes))
    ensures |IndexOf(nodes)| == |nodes|
  {
    if nodes != [] {
      var rest := nodes[1..];
      DistinctTail(nodes);
      IndexSize(rest);
      assert IndexOf(nodes).Keys == IndexOf(rest).Keys + {nodes[0].key};
    }
  }

  class Cache<V> {
    var head: Entry?<V>
    var tail: Entry?<V>
    const totalCapacity: int
    var currentCapacity: int
    var cache: map<nat, Entry<V>>
    ghost var nodes: seq<Entry<V>>     // the list, most recent first

    /** head, tail, next and prev spell out `nodes`. */
    ghost predicate Links()
      reads this, nodes
    {
      (forall i, j :: 0 <= i < j < |nodes| ==> nodes[i] != nodes[j]) &&
      (head == if nodes == [] then null else nodes[0]) &&
      (tail == if nodes == [] then null else nodes[|nodes| - 1]) &&
      (forall i {:trigger nodes[i].next} :: 0 <= i < |nodes| ==> nodes[i].next == if i + 1 < |nodes| then nodes[i + 1] else null) &&
      (forall i {:trigger nodes[i].prev} :: 0 <= i < |nodes| ==> nodes[i].prev == if i > 0 then nodes[i - 1] else null)
    }

    ghost function Model(): seq<Pair<V>>
      reads this
    {
      ModelOf(nodes)
    }

    ghost predicate Valid()
      reads this, nodes
    {
      Links() && DistinctKeys(Model()) && cache == IndexOf(nodes) && currentCapacity == |nodes| &&
      (|nodes| <= totalCapacity || |nodes| <= 1)
    }

    constructor (capacity: int)
      ensures Valid() && Model() == [] && nodes == [] && totalCapacity == capacity
    {
      head, tail := null, null;
      totalCapacity := capacity;
      currentCapacity := 0;
      cache := map[];
      nodes := [];
    }

    /** A new node at the head of the list. */
    method InsertIntoLinkedList(key: nat, value: V) returns (node: Entry<V>)
      requires Links()
      modifies this`head, this`tail, this`nodes, nodes
      ensures fresh(node) && node.key == key && node.value == value
      ensures Links() && nodes == [node] + old(nodes)
    {
      node := new Entry<V>(key, value);
      if head == null {
        head := node;
        tail := node;
      } else {
        head.prev := node;
        node.next := head;
        head := node;
      }
      nodes := [node] + nodes;
    }

    method Unlink(node: Entry<V>, ghost at: nat)
      requires Links() && at < |nodes| && nodes[at] == node
      modifies this`head, this`tail, this`nodes, nodes
      ensures Links() && nodes == old(nodes)[..at] + old(nodes)[at + 1..]
    {
      if node.prev != null {
        node.prev.next := node.next;
      } else {
        head := node.next;
      }
      if node.next != null {
        node.next.prev := node.prev;
      } else {
        tail := node.prev;
      }
      node.prev := null;
      node.next := null;
      nodes := nodes[..at] + nodes[at + 1..];
    }

    /** Walk from the head to the first node with the key and unlink it. */
    method RemoveFromLinkedList(key: nat) returns (found: Entry?<V>, ghost at: nat)
      requires Links()
      modifies this`head, this`tail, this`nodes, nodes
      ensures Links()
      ensures found == null ==> nodes == old(nodes) && forall i :: 0 <= i < |nodes| ==> nodes[i].key != key
      ensures found != null ==> at < |old(nodes)| && found == old(nodes)[at] && found.key == key
      ensures found != null ==> nodes == old(nodes)[..at] + old(nodes)[at + 1..]
    {
      var current := head;
      at := 0;
      while current != null
        invariant at <= |nodes| && nodes == old(nodes) && Links()
        invariant current == if at < |nodes| then nodes[at] else null
        invariant forall i :: 0 <= i < at ==> nodes[i].key != key
        decreases |nodes| - at
      {
        if current.key == key {
          Unlink(current, at);
          return current, at;
        }
        current := current.next;
        at := at + 1;
      }
      return null, at;
    }

    method RemoveTail() returns (node: Entry?<V>)
      requires Links()
      modifies this`head, this`tail, this`nodes, nodes
      ensures Links()
      ensures old(nodes) == [] ==> node == null && nodes == []
      ensures old(nodes) != [] ==> node == old(nodes)[|old(nodes)| - 1] && nodes == old(nodes)[..|old(nodes)| - 1]
    {
      if tail == null {
        return null;
      }
      node := tail;
      if head == tail {
        head := null;
        tail := null;
      } else {
        tail := node.prev;
        tail.next := null;
      }
      node.prev := null;
      nodes := nodes[..|nodes| - 1];
    }

    /** First part of Put and MoveToHead: the old node leaves the list, its map slot is reused later. */
    method Detach(key: nat) returns (found: Entry?<V>)
      requires Links() && DistinctKeys(Model()) && cache == IndexOf(nodes)
      modifies this`head, this`tail, this`nodes, nodes
      ensures Links() && DistinctKeys(Model()) && IndexOf(nodes) == cache - {key}
      ensures Model() == Without(old(Model()), key) && !Has(Model(), key)
      ensures (found != null) == Has(old(Model()), key)
      ensures found == null ==> nodes == old(nodes)
      ensures found != null ==> found.key == key && found.value == Find(old(Model()), key) && |nodes| == |old(nodes)| - 1
      ensures forall i :: 0 <= i < |nodes| ==> nodes[i] in old(nodes)
    {
      ghost var before := nodes;
      var node, at := RemoveFromLinkedList(key);
      DetachedModel(before, nodes, node, at, key);
      found := node;
    }

    static lemma DetachedModel(before: seq<Entry<V>>, after: seq<Entry<V>>, found: Entry?<V>, at: nat, key: nat)
      requires DistinctKeys(ModelOf(before))
      requires found == null ==> after == before && forall i :: 0 <= i < |before| ==> before[i].key != key
      requires found != null ==>
                 at < |before| && found == before[at] && found.key == key && after == before[..at] + before[at + 1..]
      ensures DistinctKeys(ModelOf(after)) && IndexOf(after) == IndexOf(before) - {key}
      ensures ModelOf(after) == Without(ModelOf(before), key) && !Has(ModelOf(after), key)
      ensures (found != null) == Has(ModelOf(before), key)
      ensures found != null ==> found.value == Find(ModelOf(before), key)
    {
      var m := ModelOf(before);
      if found != null {
        ModelAt(before, at);
        ModelCut(before, at);
        IndexCut(before, at);
        WithoutAt(m, at, key);
      } else {
        forall i | 0 <= i < |m| ensures m[i].key != key {
          ModelAt(before, i);
        }
        WithoutAbsent(m, key);
        IndexKeys(before, key);
      }
    }

    /** cache[key] = insertIntoLinkedList(key, value), for a key whose node has left the list. */
    method StoreAtHead(key: nat, value: V)
      requires Links() && DistinctKeys(Model()) && IndexOf(nodes) == cache - {key} && !Has(Model(), key)
      modifies this`head, this`tail, this`nodes, this`cache, nodes
      ensures Links() && DistinctKeys(Model()) && cache == IndexOf(nodes)
      ensures Model() == [Pair(key, value)] + old(Model())
      ensures forall i :: 0 <= i < |nodes| ==> nodes[i] in old(nodes) || fresh(nodes[i])
    {
      ghost var rest := nodes;
      var node := InsertIntoLinkedList(key, value);
      Prepended(cache, rest, node, key);
      cache := cache[key := node];
    }

    method MoveToHead(key: nat)
      requires Valid()
      modifies this`head, this`tail, this`nodes, this`cache, nodes
      ensures Valid() && Model() == Touched(old(Model()), key)
      ensures forall i :: 0 <= i < |nodes| ==> nodes[i] in old(nodes) || fresh(nodes[i])
    {
      var node := Detach(key);
      if node != null {
        assert forall i :: 0 <= i < |nodes| ==> nodes[i] in old(nodes);
        StoreAtHead(key, node.value);
      } else {
        assert cache == cache - {key};
      }
    }

    /** A hit returns the stored value and makes the entry the most recent one; a miss changes nothing. */
    method Get(key: nat) returns (value: Option<V>)
      requires Valid()
      modifies this`head, this`tail, this`nodes, this`cache, nodes
      ensures Valid() && Model() == Touched(old(Model()), key)
      ensures value == if Has(old(Model()), key) then Some(Find(old(Model()), key)) else None
      ensures forall i :: 0 <= i < |nodes| ==> nodes[i] in old(nodes) || fresh(nodes[i])
    {
      IndexKeys(nodes, key);
      if key !in cache {
        return None;
      }
      ghost var at :| 0 <= at < |nodes| && nodes[at] == cache[key];
      ModelAt(nodes, at);
      WithoutAt(Model(), at, key);
      value := Some(cache[key].value);
      MoveToHead(key);
    }

    /** Second part of Put: drop the least recent entry, if any. */
    method EvictTail(ghost key: nat)
      requires Links() && DistinctKeys(Model()) && IndexOf(nodes) == cache - {key} && currentCapacity == |nodes|
      modifies this`head, this`tail, this`nodes, this`cache, this`currentCapacity, nodes
      ensures Links() && DistinctKeys(Model()) && IndexOf(nodes) == cache - {key} && currentCapacity == |nodes|
      ensures Model() == if old(Model()) == [] then [] else old(Model())[..|old(Model())| - 1]
      ensures forall i :: 0 <= i < |nodes| ==> nodes[i] in old(nodes)
    {
      ghost var before := nodes;
      var entry := RemoveTail();
      if entry != null {
        ghost var last := |before| - 1;
        ModelCut(before, last);
        IndexCut(before, last);
        assert before[..last] + before[last + 1..] == before[..last];
        cache := cache - {entry.key};
        currentCapacity := currentCapacity - 1;
      }
    }

    /** Insert or replace; when the capacity is reached the least recent other entry goes. */
    method Put(key: nat, value: V)
      requires Valid()
      modifies this`head, this`tail, this`nodes, this`cache, this`currentCapacity, nodes
      ensures Valid() && Model() == Stored(old(Model()), totalCapacity, key, value)
      ensures forall i :: 0 <= i < |nodes| ==> nodes[i] in old(nodes) || fresh(nodes[i])
    {
      MakeRoom(key);
      currentCapacity := currentCapacity + 1;
      StoreAtHead(key, value);
    }

    /** What a new head node means for the model and the map. */
    static lemma Prepended(cache: map<nat, Entry<V>>, rest: seq<Entry<V>>, node: Entry<V>, key: nat)
      requires DistinctKeys(ModelOf(rest)) && IndexOf(rest) == cache - {key} && node.key == key && !Has(ModelOf(rest), key)
      ensures ModelOf([node] + rest) == [Pair(key, node.value)] + ModelOf(rest)
      ensures DistinctKeys(ModelOf([node] + rest)) && IndexOf([node] + rest) == cache[key := node]
    {
      assert ([node] + rest)[1..] == rest;
    }

    /** Put before the insertion. */
    method MakeRoom(key: nat)
      requires Valid()
      modifies this`head, this`tail, this`nodes, this`cache, this`currentCapacity, nodes
      ensures Links() && DistinctKeys(Model()) && IndexOf(nodes) == cache - {key} && currentCapacity == |nodes|
      ensures Model() == Evicted(Without(old(Model()), key), totalCapacity) && !Has(Model(), key)
      ensures |nodes| < totalCapacity || nodes == []
      ensures forall i :: 0 <= i < |nodes| ==> nodes[i] in old(nodes)
    {
      ghost var m := Model();
      IndexKeys(nodes, key);
      if key in cache {
        var _ := Detach(key);
        currentCapacity := currentCapacity - 1;
      } else {
        WithoutMissing(m, key);
        assert cache - {key} == cache;
      }
      assert forall i :: 0 <= i < |nodes| ==> nodes[i] in old(nodes);
      if currentCapacity >= totalCapacity {
        EvictTail(key);
      }
    }

    method Remove(key: nat)
      requires Valid()
      modifies this`head, this`tail, this`nodes, this`cache, this`currentCapacity, nodes
      ensures Valid() && Model() == Without(old(Model()), key)
      ensures forall i :: 0 <= i < |nodes| ==> nodes[i] in old(nodes)
    {
      IndexKeys(nodes, key);
      if key !in cache {
        WithoutMissing(Model(), key);
        return;
      }
      currentCapacity := currentCapacity - 1;
      var _ := Detach(key);
      cache := cache - {key};
    }

    method Len() returns (n: nat)
      requires Valid()
      ensures n == |Model()|
    {
      IndexSize(nodes);
      n := |cache|;
    }

    method CapacityLeft() returns (n: int)
      requires Valid()
      ensures n == totalCapacity - |Model()|
    {
      n := totalCapacity - currentCapacity;
    }
  }
}
