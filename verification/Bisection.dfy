/**
 Breadth-first refinement of differing block ranges.

 The peer and the tree library appear as an oracle: for each request of a layer's batch, a work item and its
 position in the batch, it gives the outcome of requesting the peer's sub-tree and comparing it.  The only thing assumed about a comparison is its
 contract: it reports non-empty ranges inside the compared one that cover every differing block.
 */
module Bisection {

  const LEAF_THRESHOLD := 10
  const LAYER_THRESHOLD := 6

  datatype Range = Range(start: nat, count: nat)

  datatype Item = Item(start: nat, count: nat, layer: nat)

  /** A tagged range, both ends included. */
  datatype Tagged = Tagged(lo: nat, hi: int)

  /** Unavailable: the peer's sub-tree request failed; Broken: the batch, building or comparing failed. */
  datatype Outcome = Unavailable | Broken | Diffs(ranges: seq<Range>)

  datatype Result = Failed | Tags(tags: seq<Tagged>)

  type Oracle = (Item, nat) -> Outcome

  function TagOf(item: Item): Tagged {
    Tagged(item.start, item.start + item.count - 1)
  }

  predicate InItem(item: Item, b: nat) {
    item.start <= b < item.start + item.count
  }

  predicate InTag(t: Tagged, b: nat) {
    t.lo <= b <= t.hi
  }

  ghost predicate Covered(tags: seq<Tagged>, b: nat) {
    exists k :: 0 <= k < |tags| && InTag(tags[k], b)
  }

  ghost predicate Pending(items: seq<Item>, b: nat) {
    exists k :: 0 <= k < |items| && InItem(items[k], b)
  }

  /** The comparison contract for item, with `differs` the set of differing blocks. */
  ghost predicate Sound(item: Item, ranges: seq<Range>, differs: iset<nat>) {
    (forall k :: 0 <= k < |ranges| ==>
       ranges[k].count > 0 && item.start <= ranges[k].start && ranges[k].start + ranges[k].count <= item.start + item.count) &&
    (forall b: nat :: b in differs && InItem(item, b) ==>
       exists k :: 0 <= k < |ranges| && ranges[k].start <= b < ranges[k].start + ranges[k].count)
  }

  ghost predicate SoundOracle(oracle: Oracle, differs: iset<nat>) {
    forall item: Item, k: nat :: oracle(item, k).Diffs? ==> Sound(item, oracle(item, k).ranges, differs)
  }

  // ----- what the loop computes, layer by layer -----

  /** Small ranges and ranges beyond the peer's height are tagged without asking the peer. */
  predicate TaggedAtOnce(item: Item, peerHeight: nat) {
    item.count <= LEAF_THRESHOLD || item.start > peerHeight
  }

  function AtOnce(items: seq<Item>, peerHeight: nat): seq<Tagged> {
    if items == [] then []
    else (if TaggedAtOnce(items[0], peerHeight) then [TagOf(items[0])] else []) + AtOnce(items[1..], peerHeight)
  }

  function ToAsk(items: seq<Item>, peerHeight: nat): seq<Item> {
    if items == [] then []
    else (if TaggedAtOnce(items[0], peerHeight) then [] else [items[0]]) + ToAsk(items[1..], peerHeight)
  }

  /** Tags of the requests that failed; the first item's request has position k. */
  function Unanswered(items: seq<Item>, oracle: Oracle, k: nat): seq<Tagged> {
    if items == [] then []
    else (if oracle(items[0], k).Unavailable? then [TagOf(items[0])] else []) + Unanswered(items[1..], oracle, k + 1)
  }

  function Children(ranges: seq<Range>, layer: nat): seq<Item> {
    seq(|ranges|, k requires 0 <= k < |ranges| => Item(ranges[k].start, ranges[k].count, layer))
  }

  function Refined(items: seq<Item>, oracle: Oracle, k: nat): seq<Item> {
    if items == [] then []
    else (if oracle(items[0], k).Diffs? then Children(oracle(items[0], k).ranges, items[0].layer + 1) else [])
         + Refined(items[1..], oracle, k + 1)
  }

  predicate SomeBroken(items: seq<Item>, oracle: Oracle) {
    exists k :: 0 <= k < |items| && oracle(items[k], k).Broken?
  }

  function TagAll(items: seq<Item>): seq<Tagged> {
    seq(|items|, k requires 0 <= k < |items| => TagOf(items[k]))
  }

  /** The refinement of one layer, then of the next, down to the depth limit. */
  function Refine(items: seq<Item>, oracle: Oracle, peerHeight: nat, layersLeft: nat): Result
    decreases layersLeft
  {
    if items == [] || layersLeft == 0 then Tags(TagAll(items))
    else
      var ask := ToAsk(items, peerHeight);
      if SomeBroken(ask, oracle) then Failed
      else
        match Refine(Refined(ask, oracle, 0), oracle, peerHeight, layersLeft - 1)
        case Failed => Failed
        case Tags(rest) => Tags(AtOnce(items, peerHeight) + Unanswered(ask, oracle, 0) + rest)
  }

  function Seed(diffs: seq<Range>): seq<Item> {
    Children(diffs, 0)
  }

  // ----- the loop -----

  predicate SameLayer(items: seq<Item>, layer: nat) {
    forall k :: 0 <= k < |items| ==> items[k].layer == layer
  }

  lemma {:induction false} ToAskLayer(items: seq<Item>, peerHeight: nat, layer: nat)
    requires SameLayer(items, layer)
    ensures SameLayer(ToAsk(items, peerHeight), layer)
  {
    if items != [] {
      ToAskLayer(items[1..], peerHeight, layer);
    }
  }

  lemma {:induction false} RefinedLayer(items: seq<Item>, oracle: Oracle, k: nat, layer: nat)
    requires SameLayer(items, layer)
    ensures SameLayer(Refined(items, oracle, k), layer + 1)
    decreases |items|
  {
    if items != [] {
      RefinedLayer(items[1..], oracle, k + 1, layer);
    }
  }

  lemma AtOnceStep(items: seq<Item>, n: nat, peerHeight: nat)
    requires n < |items|
    ensures var more := items[..n + 1];
            AtOnce(more, peerHeight) ==
              AtOnce(items[..n], peerHeight) + (if TaggedAtOnce(items[n], peerHeight) then [TagOf(items[n])] else []) &&
            ToAsk(more, peerHeight) ==
              ToAsk(items[..n], peerHeight) + (if TaggedAtOnce(items[n], peerHeight) then [] else [items[n]])
  {
    assert items[..n + 1] == items[..n] + [items[n]];
    SplitConcat(items[..n], [items[n]], peerHeight);
  }

  lemma {:induction false} SplitConcat(xs: seq<Item>, ys: seq<Item>, peerHeight: nat)
    ensures AtOnce(xs + ys, peerHeight) == AtOnce(xs, peerHeight) + AtOnce(ys, peerHeight)
    ensures ToAsk(xs + ys, peerHeight) == ToAsk(xs, peerHeight) + ToAsk(ys, peerHeight)
  {
    if xs == [] {
      assert xs + ys == ys;
    } else {
      assert (xs + ys)[1..] == xs[1..] + ys;
      SplitConcat(xs[1..], ys, peerHeight);
    }
  }

  lemma {:induction false} UnansweredConcat(xs: seq<Item>, ys: seq<Item>, oracle: Oracle, k: nat)
    ensures Unanswered(xs + ys, oracle, k) == Unanswered(xs, oracle, k) + Unanswered(ys, oracle, k + |xs|)
    decreases |xs|
  {
    if xs == [] {
      assert xs + ys == ys;
    } else {
      assert (xs + ys)[1..] == xs[1..] + ys;
      UnansweredConcat(xs[1..], ys, oracle, k + 1);
    }
  }

  lemma {:induction false} RefinedConcat(xs: seq<Item>, ys: seq<Item>, oracle: Oracle, k: nat)
    ensures Refined(xs + ys, oracle, k) == Refined(xs, oracle, k) + Refined(ys, oracle, k + |xs|)
    decreases |xs|
  {
    if xs == [] {
      assert xs + ys == ys;
    } else {
      assert (xs + ys)[1..] == xs[1..] + ys;
      RefinedConcat(xs[1..], ys, oracle, k + 1);
    }
  }

  /** One more answer. */
  lemma AnswerStep(items: seq<Item>, n: nat, oracle: Oracle)
    requires n < |items|
    ensures var answer := oracle(items[n], n);
            Unanswered(items[..n + 1], oracle, 0) ==
              Unanswered(items[..n], oracle, 0) + (if answer.Unavailable? then [TagOf(items[n])] else []) &&
            Refined(items[..n + 1], oracle, 0) ==
              Refined(items[..n], oracle, 0) + (if answer.Diffs? then Children(answer.ranges, items[n].layer + 1) else [])
  {
    assert items[..n + 1] == items[..n] + [items[n]];
    assert [items[n]][1..] == [];
    UnansweredConcat(items[..n], [items[n]], oracle, 0);
    RefinedConcat(items[..n], [items[n]], oracle, 0);
  }

  /** Exactly the ranges of more than 10 blocks that start within the peer's height are asked about, each as often as it is held. */
  lemma {:induction false} AskedAre(items: seq<Item>, peerHeight: nat, x: Item)
    ensures multiset(ToAsk(items, peerHeight))[x] == if x.count > 10 && x.start <= peerHeight then multiset(items)[x] else 0
  {
    if items != [] {
      AskedAre(items[1..], peerHeight, x);
      assert items == [items[0]] + items[1..];
    }
  }

  /** First pass over a layer: tag what needs no question, collect the rest. */
  method Partition(layer: seq<Item>, peerHeight: nat, tag0: seq<Tagged>) returns (tag: seq<Tagged>, items: seq<Item>)
    ensures tag == tag0 + AtOnce(layer, peerHeight) && items == ToAsk(layer, peerHeight)
    ensures forall x: Item :: multiset(items)[x] == if x.count > 10 && x.start <= peerHeight then multiset(layer)[x] else 0
  {
    tag, items := tag0, [];
    for n := 0 to |layer|
      invariant tag == tag0 + AtOnce(layer[..n], peerHeight) && items == ToAsk(layer[..n], peerHeight)
    {
      AtOnceStep(layer, n, peerHeight);
      if layer[n].count <= LEAF_THRESHOLD {
        tag := tag + [TagOf(layer[n])];
      } else if layer[n].start > peerHeight {
        tag := tag + [TagOf(layer[n])];
      } else {
        items := items + [layer[n]];
      }
    }
    assert layer[..|layer|] == layer;
    forall x: Item
      ensures multiset(items)[x] == if x.count > 10 && x.start <= peerHeight then multiset(layer)[x] else 0
    {
      AskedAre(layer, peerHeight, x);
    }
  }

  /** Second pass: compare the sub-trees that arrived, tag the ranges whose request failed. */
  method Compare(items: seq<Item>, oracle: Oracle, tag0: seq<Tagged>)
    returns (failed: bool, tag: seq<Tagged>, next: seq<Item>)
    ensures failed == SomeBroken(items, oracle)
    ensures !failed ==> tag == tag0 + Unanswered(items, oracle, 0) && next == Refined(items, oracle, 0)
  {
    failed, tag, next := false, tag0, [];
    for n := 0 to |items|
      invariant forall k :: 0 <= k < n ==> !oracle(items[k], k).Broken?
      invariant tag == tag0 + Unanswered(items[..n], oracle, 0) && next == Refined(items[..n], oracle, 0)
    {
      AnswerStep(items, n, oracle);
      match oracle(items[n], n)
      case Unavailable => tag := tag + [TagOf(items[n])];
      case Broken => return true, tag, next;
      case Diffs(ranges) => next := next + Children(ranges, items[n].layer + 1);
    }
    assert items[..|items|] == items;
  }

  /** The body of the worklist loop. */
  method Round(layer: seq<Item>, oracle: Oracle, peerHeight: nat, tag0: seq<Tagged>)
    returns (failed: bool, tag: seq<Tagged>, next: seq<Item>)
    ensures var ask := ToAsk(layer, peerHeight);
            failed == SomeBroken(ask, oracle) &&
            (!failed ==> tag == tag0 + AtOnce(layer, peerHeight) + Unanswered(ask, oracle, 0) && next == Refined(ask, oracle, 0))
  {
    var items;
    tag, items := Partition(layer, peerHeight, tag0);
    if items == [] {
      return false, tag, [];
    }
    failed, tag, next := Compare(items, oracle, tag);
  }

  /** The worklist loop; rounds counts how often its body runs. */
  method DataBisect(diffs: seq<Range>, oracle: Oracle, peerHeight: nat) returns (result: Result, rounds: nat)
    ensures result == Refine(Seed(diffs), oracle, peerHeight, LAYER_THRESHOLD)
    ensures rounds <= LAYER_THRESHOLD
  {
    var current := Seed(diffs);
    var tag := [];
    rounds := 0;
    ghost var goal := Refine(current, oracle, peerHeight, LAYER_THRESHOLD);
    PrependNothing(goal);
    while current != []
      invariant rounds <= LAYER_THRESHOLD && SameLayer(current, rounds)
      invariant goal == Prepend(tag, Refine(current, oracle, peerHeight, LAYER_THRESHOLD - rounds))
      decreases LAYER_THRESHOLD - rounds
    {
      if current[0].layer >= LAYER_THRESHOLD {
        break;
      }
      RoundGoal(tag, current, oracle, peerHeight, rounds);
      var failed;
      failed, tag, current := Round(current, oracle, peerHeight, tag);
      if failed {
        return Failed, rounds + 1;
      }
      rounds := rounds + 1;
    }
    FinalGoal(tag, current, oracle, peerHeight, rounds);
    result := Tags(tag + TagAll(current));
  }

  lemma PrependNothing(r: Result)
    ensures Prepend([], r) == r
  {
    if r.Tags? {
      assert [] + r.tags == r.tags;
    }
  }

  lemma FinalGoal(tag: seq<Tagged>, items: seq<Item>, oracle: Oracle, peerHeight: nat, rounds: nat)
    requires rounds <= LAYER_THRESHOLD && (items == [] || rounds == LAYER_THRESHOLD)
    ensures Prepend(tag, Refine(items, oracle, peerHeight, LAYER_THRESHOLD - rounds)) == Tags(tag + TagAll(items))
  {
  }

  /** One execution of the loop body. */
  lemma RoundGoal(tag: seq<Tagged>, layer: seq<Item>, oracle: Oracle, peerHeight: nat, rounds: nat)
    requires layer != [] && rounds < LAYER_THRESHOLD && SameLayer(layer, rounds)
    ensures var items, goal := ToAsk(layer, peerHeight), Prepend(tag, Refine(layer, oracle, peerHeight, LAYER_THRESHOLD - rounds));
            SameLayer(Refined(items, oracle, 0), rounds + 1) &&
            if SomeBroken(items, oracle) then goal == Failed
            else goal == Prepend(tag + AtOnce(layer, peerHeight) + Unanswered(items, oracle, 0),
                                 Refine(Refined(items, oracle, 0), oracle, peerHeight, LAYER_THRESHOLD - (rounds + 1)))
  {
    var items := ToAsk(layer, peerHeight);
    ToAskLayer(layer, peerHeight, rounds);
    RefinedLayer(items, oracle, 0, rounds);
    var here := AtOnce(layer, peerHeight) + Unanswered(items, oracle, 0);
    PrependTwice(tag, here, Refine(Refined(items, oracle, 0), oracle, peerHeight, LAYER_THRESHOLD - (rounds + 1)));
    assert tag + here == tag + AtOnce(layer, peerHeight) + Unanswered(items, oracle, 0);
  }

  function Prepend(tags: seq<Tagged>, r: Result): Result {
    match r
    case Failed => Failed
    case Tags(rest) => Tags(tags + rest)
  }

  lemma PrependTwice(xs: seq<Tagged>, ys: seq<Tagged>, r: Result)
    ensures Prepend(xs, Prepend(ys, r)) == Prepend(xs + ys, r)
  {
    if r.Tags? {
      assert xs + (ys + r.tags) == (xs + ys) + r.tags;
    }
  }
}
