/** What the refinement guarantees, whichever sub-tree requests fail. */
module BisectionProof {
  import opened Bisection

  // ----- membership -----

  lemma PendingSplit(xs: seq<Item>, ys: seq<Item>, b: nat)
    ensures Pending(xs + ys, b) <==> Pending(xs, b) || Pending(ys, b)
  {
    if Pending(xs, b) {
      var k :| 0 <= k < |xs| && InItem(xs[k], b);
      assert InItem((xs + ys)[k], b);
    }
    if Pending(ys, b) {
      var k :| 0 <= k < |ys| && InItem(ys[k], b);
      assert InItem((xs + ys)[|xs| + k], b);
    }
  }

  lemma CoveredSplit(xs: seq<Tagged>, ys: seq<Tagged>, b: nat)
    ensures Covered(xs + ys, b) <==> Covered(xs, b) || Covered(ys, b)
  {
    if Covered(xs, b) {
      var k :| 0 <= k < |xs| && InTag(xs[k], b);
      assert InTag((xs + ys)[k], b);
    }
    if Covered(ys, b) {
      var k :| 0 <= k < |ys| && InTag(ys[k], b);
      assert InTag((xs + ys)[|xs| + k], b);
    }
  }

  lemma PendingFirst(items: seq<Item>, b: nat)
    requires items != []
    ensures Pending(items, b) <==> InItem(items[0], b) || Pending(items[1..], b)
  {
    assert items == [items[0]] + items[1..];
    PendingSplit([items[0]], items[1..], b);
    assert Pending([items[0]], b) <==> InItem([items[0]][0], b);
  }

  lemma OneCovered(item: Item, b: nat)
    ensures Covered([TagOf(item)], b) <==> InItem(item, b)
  {
    assert Covered([TagOf(item)], b) <==> InTag([TagOf(item)][0], b);
  }

  // ----- one layer -----

  /** A pending block is tagged at once or its item is asked about. */
  lemma {:induction false} SplitCovers(items: seq<Item>, peerHeight: nat, b: nat)
    ensures Pending(items, b) <==> Covered(AtOnce(items, peerHeight), b) || Pending(ToAsk(items, peerHeight), b)
  {
    if items != [] {
      var rest := items[1..];
      SplitCovers(rest, peerHeight, b);
      PendingFirst(items, b);
      OneCovered(items[0], b);
      CoveredSplit([TagOf(items[0])], AtOnce(rest, peerHeight), b);
      CoveredSplit([], AtOnce(rest, peerHeight), b);
      PendingSplit([items[0]], ToAsk(rest, peerHeight), b);
      PendingSplit([], ToAsk(rest, peerHeight), b);
      assert Pending([items[0]], b) <==> InItem([items[0]][0], b);
    }
  }

  lemma ChildrenPending(item: Item, ranges: seq<Range>, differs: iset<nat>, b: nat)
    requires Sound(item, ranges, differs)
    ensures Pending(Children(ranges, item.layer + 1), b) ==> InItem(item, b)
    ensures b in differs && InItem(item, b) ==> Pending(Children(ranges, item.layer + 1), b)
  {
    var children := Children(ranges, item.layer + 1);
    if b in differs && InItem(item, b) {
      var k :| 0 <= k < |ranges| && ranges[k].start <= b < ranges[k].start + ranges[k].count;
      assert InItem(children[k], b);
    }
  }

  /** Asking about items loses no differing block and reaches nothing outside them. */
  lemma {:induction false} AskCovers(items: seq<Item>, oracle: Oracle, n: nat, differs: iset<nat>, b: nat)
    requires SoundOracle(oracle, differs) && forall k :: 0 <= k < |items| ==> !oracle(items[k], n + k).Broken?
    ensures b in differs && Pending(items, b) ==> Covered(Unanswered(items, oracle, n), b) || Pending(Refined(items, oracle, n), b)
    ensures Covered(Unanswered(items, oracle, n), b) || Pending(Refined(items, oracle, n), b) ==> Pending(items, b)
    decreases |items|
  {
    if items != [] {
      var rest, first := items[1..], oracle(items[0], n);
      assert first == oracle(items[0], n + 0);
      forall k | 0 <= k < |rest| ensures !oracle(rest[k], n + 1 + k).Broken? {
        assert !oracle(items[k + 1], n + (k + 1)).Broken?;
      }
      AskCovers(rest, oracle, n + 1, differs, b);
      PendingFirst(items, b);
      if first.Unavailable? {
        OneCovered(items[0], b);
        CoveredSplit([TagOf(items[0])], Unanswered(rest, oracle, n + 1), b);
        PendingSplit([], Refined(rest, oracle, n + 1), b);
      } else {
        ChildrenPending(items[0], first.ranges, differs, b);
        CoveredSplit([], Unanswered(rest, oracle, n + 1), b);
        PendingSplit(Children(first.ranges, items[0].layer + 1), Refined(rest, oracle, n + 1), b);
      }
    }
  }

  lemma TagAllCovers(items: seq<Item>, b: nat)
    ensures Covered(TagAll(items), b) <==> Pending(items, b)
  {
    if Pending(items, b) {
      var k :| 0 <= k < |items| && InItem(items[k], b);
      assert InTag(TagAll(items)[k], b);
    }
    if Covered(TagAll(items), b) {
      var k :| 0 <= k < |TagAll(items)| && InTag(TagAll(items)[k], b);
      assert InItem(items[k], b);
    }
  }

  // ----- all layers -----

  /** One layer: its tags and the next layer together lose no differing block and reach nothing new. */
  lemma LayerCovers(items: seq<Item>, oracle: Oracle, peerHeight: nat, differs: iset<nat>, b: nat)
    requires SoundOracle(oracle, differs) && !SomeBroken(ToAsk(items, peerHeight), oracle)
    ensures var ask := ToAsk(items, peerHeight);
            var here, next := AtOnce(items, peerHeight) + Unanswered(ask, oracle, 0), Refined(ask, oracle, 0);
            (b in differs && Pending(items, b) ==> Covered(here, b) || Pending(next, b)) &&
            (Covered(here, b) || Pending(next, b) ==> Pending(items, b))
  {
    var ask := ToAsk(items, peerHeight);
    SplitCovers(items, peerHeight, b);
    AskCovers(ask, oracle, 0, differs, b);
    CoveredSplit(AtOnce(items, peerHeight), Unanswered(ask, oracle, 0), b);
  }

  /**
   On success every differing block of the initial ranges is tagged, and every tagged block lies in an
   initial range, for every pattern of failing sub-tree requests.
   */
  lemma {:induction false} RefineTags(items: seq<Item>, oracle: Oracle, peerHeight: nat, layersLeft: nat, differs: iset<nat>, b: nat)
    requires SoundOracle(oracle, differs) && Refine(items, oracle, peerHeight, layersLeft).Tags?
    ensures var tags := Refine(items, oracle, peerHeight, layersLeft).tags;
            (b in differs && Pending(items, b) ==> Covered(tags, b)) && (Covered(tags, b) ==> Pending(items, b))
    decreases layersLeft
  {
    if items == [] || layersLeft == 0 {
      TagAllCovers(items, b);
    } else {
      var ask := ToAsk(items, peerHeight);
      var next := Refined(ask, oracle, 0);
      RefineTags(next, oracle, peerHeight, layersLeft - 1, differs, b);
      LayerCovers(items, oracle, peerHeight, differs, b);
      CoveredSplit(AtOnce(items, peerHeight) + Unanswered(ask, oracle, 0), Refine(next, oracle, peerHeight, layersLeft - 1).tags, b);
    }
  }

  /** dataBisect over the diffs of the two top trees misses no differing block and tags nothing outside the diffs. */
  lemma BisectionIsSound(diffs: seq<Range>, oracle: Oracle, peerHeight: nat, differs: iset<nat>)
    requires SoundOracle(oracle, differs) && Refine(Seed(diffs), oracle, peerHeight, LAYER_THRESHOLD).Tags?
    requires forall b: nat :: b in differs ==> Pending(Seed(diffs), b)
    ensures var tags := Refine(Seed(diffs), oracle, peerHeight, LAYER_THRESHOLD).tags;
            (forall b: nat :: b in differs ==> Covered(tags, b)) && (forall b: nat :: Covered(tags, b) ==> Pending(Seed(diffs), b))
  {
    forall b: nat
      ensures var tags := Refine(Seed(diffs), oracle, peerHeight, LAYER_THRESHOLD).tags;
              (b in differs ==> Covered(tags, b)) && (Covered(tags, b) ==> Pending(Seed(diffs), b))
    {
      RefineTags(Seed(diffs), oracle, peerHeight, LAYER_THRESHOLD, differs, b);
    }
  }

  // ----- what is tagged, item by item -----

  /** The layer after this one. */
  function NextLayer(items: seq<Item>, oracle: Oracle, peerHeight: nat): seq<Item> {
    Refined(ToAsk(items, peerHeight), oracle, 0)
  }

  /** The worklist j layers further on. */
  function LayerAt(items: seq<Item>, oracle: Oracle, peerHeight: nat, j: nat): seq<Item>
    decreases j
  {
    if j == 0 then items else LayerAt(NextLayer(items, oracle, peerHeight), oracle, peerHeight, j - 1)
  }

  /** The position of item i's request in the layer's batch. */
  function RequestOf(items: seq<Item>, peerHeight: nat, i: nat): nat
    requires i <= |items|
  {
    |ToAsk(items[..i], peerHeight)|
  }

  /** Refinement ends at item i: it is small or beyond the peer, its request fails, or the layer is the deepest. */
  predicate Stops(items: seq<Item>, oracle: Oracle, peerHeight: nat, deepest: bool, i: nat)
    requires i < |items|
  {
    deepest || items[i].count <= LEAF_THRESHOLD || items[i].start > peerHeight ||
    oracle(items[i], RequestOf(items, peerHeight, i)).Unavailable?
  }

  /** One tag for each of the first n items at which refinement ends, none for the others. */
  function StoppedTags(items: seq<Item>, oracle: Oracle, peerHeight: nat, deepest: bool, n: nat): multiset<Tagged>
    requires n <= |items|
  {
    if n == 0 then multiset{}
    else
      StoppedTags(items, oracle, peerHeight, deepest, n - 1) +
      if Stops(items, oracle, peerHeight, deepest, n - 1) then multiset{TagOf(items[n - 1])} else multiset{}
  }

  /** The same over this layer and all later ones down to the deepest. */
  function AllStopped(items: seq<Item>, oracle: Oracle, peerHeight: nat, layersLeft: nat): multiset<Tagged>
    decreases layersLeft
  {
    StoppedTags(items, oracle, peerHeight, layersLeft == 0, |items|) +
    if layersLeft == 0 then multiset{} else AllStopped(NextLayer(items, oracle, peerHeight), oracle, peerHeight, layersLeft - 1)
  }

  lemma UnansweredOne(item: Item, oracle: Oracle, k: nat)
    ensures Unanswered([item], oracle, k) == if oracle(item, k).Unavailable? then [TagOf(item)] else []
  {
    assert [item][1..] == [];
  }

  lemma BagsAdd(a: seq<Tagged>, x: seq<Tagged>, u: seq<Tagged>, z: seq<Tagged>)
    ensures multiset(a + x) + multiset(u + z) == multiset(a) + multiset(u) + (multiset(x) + multiset(z))
  {
  }

  lemma ThreeBags(a: seq<Tagged>, u: seq<Tagged>, rest: seq<Tagged>)
    ensures multiset(a + u + rest) == multiset(a) + multiset(u) + multiset(rest)
  {
  }

  /** Asking about one more item. */
  lemma UnansweredNext(items: seq<Item>, oracle: Oracle, peerHeight: nat, i: nat)
    requires i < |items|
    ensures var asked := ToAsk(items[..i], peerHeight);
            Unanswered(ToAsk(items[..i + 1], peerHeight), oracle, 0) ==
              Unanswered(asked, oracle, 0) +
              if !TaggedAtOnce(items[i], peerHeight) && oracle(items[i], |asked|).Unavailable? then [TagOf(items[i])] else []
  {
    AtOnceStep(items, i, peerHeight);
    var asked := ToAsk(items[..i], peerHeight);
    if TaggedAtOnce(items[i], peerHeight) {
      assert asked + [] == asked;
    } else {
      UnansweredConcat(asked, [items[i]], oracle, 0);
      UnansweredOne(items[i], oracle, |asked|);
    }
  }

  lemma {:induction false} LayerTags(items: seq<Item>, oracle: Oracle, peerHeight: nat, n: nat)
    requires n <= |items|
    ensures multiset(AtOnce(items[..n], peerHeight)) + multiset(Unanswered(ToAsk(items[..n], peerHeight), oracle, 0)) ==
            StoppedTags(items, oracle, peerHeight, false, n)
  {
    if n > 0 {
      var i := n - 1;
      LayerTags(items, oracle, peerHeight, i);
      AtOnceStep(items, i, peerHeight);
      UnansweredNext(items, oracle, peerHeight, i);
      var once := TaggedAtOnce(items[i], peerHeight);
      var lost := !once && oracle(items[i], RequestOf(items, peerHeight, i)).Unavailable?;
      BagsAdd(AtOnce(items[..i], peerHeight), if once then [TagOf(items[i])] else [],
              Unanswered(ToAsk(items[..i], peerHeight), oracle, 0), if lost then [TagOf(items[i])] else []);
    }
  }

  lemma {:induction false} DeepestTags(items: seq<Item>, oracle: Oracle, peerHeight: nat, n: nat)
    requires n <= |items|
    ensures multiset(TagAll(items[..n])) == StoppedTags(items, oracle, peerHeight, true, n)
  {
    if n > 0 {
      DeepestTags(items, oracle, peerHeight, n - 1);
      assert TagAll(items[..n]) == TagAll(items[..n - 1]) + [TagOf(items[n - 1])];
    }
  }

  lemma {:induction false} NothingStopped(oracle: Oracle, peerHeight: nat, layersLeft: nat)
    ensures AllStopped([], oracle, peerHeight, layersLeft) == multiset{}
  {
    if layersLeft > 0 {
      NothingStopped(oracle, peerHeight, layersLeft - 1);
    }
  }

  /**
   Tags and stopped items correspond one to one: every item of every layer at which refinement ends is tagged
   exactly once, and an item that was asked about and answered is not tagged itself.
   */
  lemma {:induction false} TagsCounted(items: seq<Item>, oracle: Oracle, peerHeight: nat, layersLeft: nat)
    requires Refine(items, oracle, peerHeight, layersLeft).Tags?
    ensures multiset(Refine(items, oracle, peerHeight, layersLeft).tags) == AllStopped(items, oracle, peerHeight, layersLeft)
    decreases layersLeft
  {
    assert items[..|items|] == items;
    if layersLeft == 0 {
      DeepestTags(items, oracle, peerHeight, |items|);
    } else if items == [] {
      NothingStopped(oracle, peerHeight, layersLeft);
    } else {
      var next := NextLayer(items, oracle, peerHeight);
      TagsCounted(next, oracle, peerHeight, layersLeft - 1);
      LayerTags(items, oracle, peerHeight, |items|);
      ThreeBags(AtOnce(items, peerHeight), Unanswered(ToAsk(items, peerHeight), oracle, 0), Refine(next, oracle, peerHeight, layersLeft - 1).tags);
    }
  }

  /** t is the tag of an item of some reached layer at which refinement ends. */
  ghost predicate Explained(t: Tagged, items: seq<Item>, oracle: Oracle, peerHeight: nat, layersLeft: nat) {
    exists j, i ::
      0 <= j <= layersLeft && 0 <= i < |LayerAt(items, oracle, peerHeight, j)| &&
      TagOf(LayerAt(items, oracle, peerHeight, j)[i]) == t &&
      Stops(LayerAt(items, oracle, peerHeight, j), oracle, peerHeight, j == layersLeft, i)
  }

  lemma {:induction false} StoppedMember(items: seq<Item>, oracle: Oracle, peerHeight: nat, deepest: bool, n: nat, t: Tagged)
    requires n <= |items|
    ensures t in StoppedTags(items, oracle, peerHeight, deepest, n) <==>
            exists i :: 0 <= i < n && TagOf(items[i]) == t && Stops(items, oracle, peerHeight, deepest, i)
  {
    if n > 0 {
      StoppedMember(items, oracle, peerHeight, deepest, n - 1, t);
    }
  }

  lemma {:induction false} AllStoppedMember(items: seq<Item>, oracle: Oracle, peerHeight: nat, layersLeft: nat, t: Tagged)
    ensures t in AllStopped(items, oracle, peerHeight, layersLeft) <==> Explained(t, items, oracle, peerHeight, layersLeft)
    decreases layersLeft
  {
    StoppedMember(items, oracle, peerHeight, layersLeft == 0, |items|, t);
    assert LayerAt(items, oracle, peerHeight, 0) == items;
    if layersLeft > 0 {
      var next := NextLayer(items, oracle, peerHeight);
      AllStoppedMember(next, oracle, peerHeight, layersLeft - 1, t);
      assert forall j :: 0 < j ==> LayerAt(items, oracle, peerHeight, j) == LayerAt(next, oracle, peerHeight, j - 1);
      ExplainedLater(items, oracle, peerHeight, layersLeft, t);
    }
  }

  /** An explanation lies in this layer or in a later one. */
  lemma ExplainedLater(items: seq<Item>, oracle: Oracle, peerHeight: nat, layersLeft: nat, t: Tagged)
    requires layersLeft > 0
    ensures Explained(t, items, oracle, peerHeight, layersLeft) <==>
            (exists i :: 0 <= i < |items| && TagOf(items[i]) == t && Stops(items, oracle, peerHeight, false, i)) ||
            Explained(t, NextLayer(items, oracle, peerHeight), oracle, peerHeight, layersLeft - 1)
  {
    var next := NextLayer(items, oracle, peerHeight);
    if exists i :: 0 <= i < |items| && TagOf(items[i]) == t && Stops(items, oracle, peerHeight, false, i) {
      var i :| 0 <= i < |items| && TagOf(items[i]) == t && Stops(items, oracle, peerHeight, false, i);
      assert LayerAt(items, oracle, peerHeight, 0) == items;
      assert TagOf(LayerAt(items, oracle, peerHeight, 0)[i]) == t;
    }
    if Explained(t, next, oracle, peerHeight, layersLeft - 1) {
      var j, i :| 0 <= j <= layersLeft - 1 && 0 <= i < |LayerAt(next, oracle, peerHeight, j)| &&
        TagOf(LayerAt(next, oracle, peerHeight, j)[i]) == t &&
        Stops(LayerAt(next, oracle, peerHeight, j), oracle, peerHeight, j == layersLeft - 1, i);
      assert LayerAt(items, oracle, peerHeight, j + 1) == LayerAt(next, oracle, peerHeight, j);
      assert TagOf(LayerAt(items, oracle, peerHeight, j + 1)[i]) == t;
    }
    if Explained(t, items, oracle, peerHeight, layersLeft) {
      var j, i :| 0 <= j <= layersLeft && 0 <= i < |LayerAt(items, oracle, peerHeight, j)| &&
        TagOf(LayerAt(items, oracle, peerHeight, j)[i]) == t &&
        Stops(LayerAt(items, oracle, peerHeight, j), oracle, peerHeight, j == layersLeft, i);
      if j > 0 {
        assert LayerAt(items, oracle, peerHeight, j) == LayerAt(next, oracle, peerHeight, j - 1);
        assert TagOf(LayerAt(next, oracle, peerHeight, j - 1)[i]) == t;
      }
    }
  }

  lemma {:induction false} LayerDepth(items: seq<Item>, oracle: Oracle, peerHeight: nat, layer: nat, j: nat)
    requires SameLayer(items, layer)
    ensures SameLayer(LayerAt(items, oracle, peerHeight, j), layer + j)
    decreases j
  {
    if j > 0 {
      ToAskLayer(items, peerHeight, layer);
      RefinedLayer(ToAsk(items, peerHeight), oracle, 0, layer);
      LayerDepth(NextLayer(items, oracle, peerHeight), oracle, peerHeight, layer + 1, j - 1);
    }
  }

  /**
   A range is tagged iff it is that of an item the worklist really held, at which refinement ends; items of the
   j-th worklist carry depth j.
   */
  lemma TagsExplained(diffs: seq<Range>, oracle: Oracle, peerHeight: nat, t: Tagged)
    requires Refine(Seed(diffs), oracle, peerHeight, LAYER_THRESHOLD).Tags?
    ensures t in Refine(Seed(diffs), oracle, peerHeight, LAYER_THRESHOLD).tags <==>
            Explained(t, Seed(diffs), oracle, peerHeight, LAYER_THRESHOLD)
    ensures forall j :: 0 <= j ==> SameLayer(LayerAt(Seed(diffs), oracle, peerHeight, j), j)
  {
    var tags := Refine(Seed(diffs), oracle, peerHeight, LAYER_THRESHOLD).tags;
    TagsCounted(Seed(diffs), oracle, peerHeight, LAYER_THRESHOLD);
    AllStoppedMember(Seed(diffs), oracle, peerHeight, LAYER_THRESHOLD, t);
    assert t in multiset(tags) <==> t in tags;
    forall j | 0 <= j ensures SameLayer(LayerAt(Seed(diffs), oracle, peerHeight, j), j) {
      LayerDepth(Seed(diffs), oracle, peerHeight, 0, j);
    }
  }

  // ----- who is asked about what -----

  /** The ranges of the j-th worklist that are asked about, in the order of the requests. */
  function Asked(items: seq<Item>, oracle: Oracle, peerHeight: nat, j: nat): seq<Item> {
    ToAsk(LayerAt(items, oracle, peerHeight, j), peerHeight)
  }

  /** A large range within the peer's height is asked about at its position. */
  lemma RequestAt(items: seq<Item>, peerHeight: nat, i: nat)
    requires i < |items| && !TaggedAtOnce(items[i], peerHeight)
    ensures var k, ask := RequestOf(items, peerHeight, i), ToAsk(items, peerHeight); k < |ask| && ask[k] == items[i]
  {
    AtOnceStep(items, i, peerHeight);
    SplitConcat(items[..i + 1], items[i + 1..], peerHeight);
    assert items == items[..i + 1] + items[i + 1..];
  }

  /** Every request is that of some range of the worklist. */
  lemma {:induction false} RequestFrom(items: seq<Item>, peerHeight: nat, n: nat, k: nat) returns (i: nat)
    requires n <= |items| && k < |ToAsk(items[..n], peerHeight)|
    ensures i < n && !TaggedAtOnce(items[i], peerHeight) && RequestOf(items, peerHeight, i) == k
    ensures ToAsk(items[..n], peerHeight)[k] == items[i]
  {
    AtOnceStep(items, n - 1, peerHeight);
    if k < |ToAsk(items[..n - 1], peerHeight)| {
      i := RequestFrom(items, peerHeight, n - 1, k);
    } else {
      i := n - 1;
    }
  }

  /** Some layer asked for a sub-tree of exactly this range and that very request failed. */
  ghost predicate RequestFailed(t: Tagged, items: seq<Item>, oracle: Oracle, peerHeight: nat, layers: nat) {
    exists j, k ::
      0 <= j < layers && 0 <= k < |Asked(items, oracle, peerHeight, j)| &&
      TagOf(Asked(items, oracle, peerHeight, j)[k]) == t && oracle(Asked(items, oracle, peerHeight, j)[k], k).Unavailable?
  }

  /** This range is in the j-th worklist. */
  ghost predicate InLayer(t: Tagged, items: seq<Item>, oracle: Oracle, peerHeight: nat, j: nat) {
    exists i :: 0 <= i < |LayerAt(items, oracle, peerHeight, j)| && TagOf(LayerAt(items, oracle, peerHeight, j)[i]) == t
  }

  lemma FailedIsExplained(t: Tagged, items: seq<Item>, oracle: Oracle, peerHeight: nat, layers: nat)
    requires RequestFailed(t, items, oracle, peerHeight, layers) || InLayer(t, items, oracle, peerHeight, layers)
    ensures Explained(t, items, oracle, peerHeight, layers)
  {
    if RequestFailed(t, items, oracle, peerHeight, layers) {
      var j, k :| 0 <= j < layers && 0 <= k < |Asked(items, oracle, peerHeight, j)| &&
        TagOf(Asked(items, oracle, peerHeight, j)[k]) == t && oracle(Asked(items, oracle, peerHeight, j)[k], k).Unavailable?;
      var layer := LayerAt(items, oracle, peerHeight, j);
      assert layer[..|layer|] == layer;
      var i := RequestFrom(layer, peerHeight, |layer|, k);
      assert TagOf(LayerAt(items, oracle, peerHeight, j)[i]) == t;
    }
  }

  lemma LargeIsAsked(t: Tagged, items: seq<Item>, oracle: Oracle, peerHeight: nat, layers: nat)
    requires Explained(t, items, oracle, peerHeight, layers) && t.hi - t.lo + 1 > 10 && t.lo <= peerHeight
    ensures RequestFailed(t, items, oracle, peerHeight, layers) || InLayer(t, items, oracle, peerHeight, layers)
  {
    var j, i :| 0 <= j <= layers && 0 <= i < |LayerAt(items, oracle, peerHeight, j)| &&
      TagOf(LayerAt(items, oracle, peerHeight, j)[i]) == t &&
      Stops(LayerAt(items, oracle, peerHeight, j), oracle, peerHeight, j == layers, i);
    if j < layers {
      var layer := LayerAt(items, oracle, peerHeight, j);
      RequestAt(layer, peerHeight, i);
      var k := RequestOf(layer, peerHeight, i);
      assert TagOf(Asked(items, oracle, peerHeight, j)[k]) == t;
    }
  }

  /**
   Nothing that could be refined further is tagged: a range of more than 10 blocks that starts within the peer's
   height is tagged exactly if the request for its own sub-tree failed in one of the six rounds, or it is still
   there after the sixth.
   */
  lemma LargeTagsIff(diffs: seq<Range>, oracle: Oracle, peerHeight: nat, t: Tagged)
    requires Refine(Seed(diffs), oracle, peerHeight, LAYER_THRESHOLD).Tags?
    requires t.hi - t.lo + 1 > 10 && t.lo <= peerHeight
    ensures t in Refine(Seed(diffs), oracle, peerHeight, LAYER_THRESHOLD).tags <==>
            RequestFailed(t, Seed(diffs), oracle, peerHeight, 6) || InLayer(t, Seed(diffs), oracle, peerHeight, 6)
  {
    TagsExplained(diffs, oracle, peerHeight, t);
    if Explained(t, Seed(diffs), oracle, peerHeight, LAYER_THRESHOLD) {
      LargeIsAsked(t, Seed(diffs), oracle, peerHeight, LAYER_THRESHOLD);
    }
    if RequestFailed(t, Seed(diffs), oracle, peerHeight, 6) || InLayer(t, Seed(diffs), oracle, peerHeight, 6) {
      FailedIsExplained(t, Seed(diffs), oracle, peerHeight, LAYER_THRESHOLD);
    }
  }

  /** How many ranges the answers to these requests report. */
  function Widths(items: seq<Item>, oracle: Oracle, n: nat): nat
    decreases |items|
  {
    if items == [] then 0
    else (if oracle(items[0], n).Diffs? then |oracle(items[0], n).ranges| else 0) + Widths(items[1..], oracle, n + 1)
  }

  lemma {:induction false} RefinedWidth(items: seq<Item>, oracle: Oracle, n: nat)
    ensures |Refined(items, oracle, n)| == Widths(items, oracle, n)
    decreases |items|
  {
    if items != [] {
      RefinedWidth(items[1..], oracle, n + 1);
    }
  }

  /** The next worklist is all reported ranges in the order of the answers, each one layer deeper, and nothing else. */
  lemma NextLayerIs(items: seq<Item>, oracle: Oracle, k: nat, m: nat)
    requires k < |items| && oracle(items[k], k).Diffs? && m < |oracle(items[k], k).ranges|
    ensures |Refined(items, oracle, 0)| == Widths(items, oracle, 0)
    ensures var at, range := Widths(items[..k], oracle, 0) + m, oracle(items[k], k).ranges[m];
            at < Widths(items, oracle, 0) &&
            Refined(items, oracle, 0)[at] == Item(range.start, range.count, items[k].layer + 1)
  {
    RefinedWidth(items, oracle, 0);
    RefinedWidth(items[..k], oracle, 0);
    RefinedConcat(items[..k], items[k..], oracle, 0);
    assert items == items[..k] + items[k..];
  }

  /** Some round met a batch, build or comparison that broke. */
  ghost predicate BreaksWithin(items: seq<Item>, oracle: Oracle, peerHeight: nat, layers: nat) {
    exists j :: 0 <= j < layers && SomeBroken(Asked(items, oracle, peerHeight, j), oracle)
  }

  lemma {:induction false} NothingAsked(oracle: Oracle, peerHeight: nat, j: nat)
    ensures Asked([], oracle, peerHeight, j) == []
    decreases j
  {
    if j > 0 {
      NothingAsked(oracle, peerHeight, j - 1);
    }
  }

  /** The bisection fails exactly when a round breaks. */
  lemma {:induction false} FailsIff(items: seq<Item>, oracle: Oracle, peerHeight: nat, layers: nat)
    ensures Refine(items, oracle, peerHeight, layers).Failed? <==> BreaksWithin(items, oracle, peerHeight, layers)
    decreases layers
  {
    if items == [] {
      forall j | 0 <= j < layers ensures !SomeBroken(Asked(items, oracle, peerHeight, j), oracle) {
        NothingAsked(oracle, peerHeight, j);
      }
    } else if layers > 0 {
      var next := NextLayer(items, oracle, peerHeight);
      FailsIff(next, oracle, peerHeight, layers - 1);
      assert Asked(items, oracle, peerHeight, 0) == ToAsk(items, peerHeight);
      assert forall j :: 0 < j ==> Asked(items, oracle, peerHeight, j) == Asked(next, oracle, peerHeight, j - 1);
      if BreaksWithin(next, oracle, peerHeight, layers - 1) {
        var j :| 0 <= j < layers - 1 && SomeBroken(Asked(next, oracle, peerHeight, j), oracle);
        assert SomeBroken(Asked(items, oracle, peerHeight, j + 1), oracle);
      }
    }
  }
}
