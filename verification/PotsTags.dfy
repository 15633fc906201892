/**
 The server's answer to a PoTS request: the tag of exactly those served headers that the client lacks or holds
 with another hash.
 */
module PotsTags {
  import opened Options
  import opened Tags

  type Hash = seq<bv8>

  type HashMap = map<BlockNumber, Hash>

  method BytesEqual(a: Hash, b: Hash) returns (equal: bool)
    ensures equal <==> a == b
  {
    if |a| != |b| {
      return false;
    }
    for i := 0 to |a|
      invariant a[..i] == b[..i]
    {
      if a[i] != b[i] {
        return false;
      }
    }
    return true;
  }

  predicate Synced(server: HashMap, client: HashMap, b: nat) {
    b in server && b in client && server[b] == client[b]
  }

  /** Deletes every block that the client holds with the same hash; keys are visited in any order. */
  method CompareMaps(server0: HashMap, client: HashMap) returns (server: HashMap)
    ensures server == map b | b in server0 && !Synced(server0, client, b) :: server0[b]
  {
    server := server0;
    var todo := server0.Keys;
    while todo != {}
      invariant todo <= server0.Keys
      invariant forall b :: b in server <==> b in server0 && (b in todo || !Synced(server0, client, b))
      invariant forall b :: b in server ==> server[b] == server0[b]
      decreases |todo|
    {
      var b :| b in todo;
      if b in client {
        var equal := BytesEqual(server0[b], client[b]);
        if equal {
          server := server - {b};
        }
      }
      todo := todo - {b};
    }
  }

  // ----- tags from block numbers -----

  predicate Ascending(xs: seq<nat>) {
    forall i, j :: 0 <= i < j < |xs| ==> xs[i] < xs[j]
  }

  /** b is one of the blocks of the tag. */
  ghost predicate Tagged(tag: Tag, b: nat) {
    b in tag.blocks || exists i :: 0 <= i < |tag.ranges| && tag.ranges[i].start <= b <= tag.ranges[i].end
  }

  /** A maximal run of two or more members of xs. */
  ghost predicate MaximalRun(r: Range, xs: seq<nat>) {
    r.start < r.end && (forall b :: r.start <= b <= r.end ==> b in xs) && r.end + 1 !in xs && (r.start > 0 ==> r.start - 1 !in xs)
  }

  /** A member of xs without neighbours. */
  ghost predicate Isolated(b: nat, xs: seq<nat>) {
    b in xs && b + 1 !in xs && (b > 0 ==> b - 1 !in xs)
  }

  /** The blocks up to position n of the ascending list xs are tagged, as maximal runs and isolated blocks. */
  ghost predicate TagsUpTo(tag: Tag, xs: seq<nat>, n: nat) {
    n <= |xs| &&
    (forall i :: 0 <= i < |tag.ranges| ==> MaximalRun(tag.ranges[i], xs)) &&
    (forall i :: 0 <= i < |tag.blocks| ==> Isolated(tag.blocks[i], xs)) &&
    (forall i :: 0 <= i < n ==> Tagged(tag, xs[i])) &&
    InOrder(tag, if n == 0 then -1 else xs[n - 1])
  }

  /** Ranges do not touch each other, blocks ascend, and nothing lies beyond last. */
  ghost predicate InOrder(tag: Tag, last: int) {
    (forall i, j :: 0 <= i < j < |tag.ranges| ==> tag.ranges[i].end + 1 < tag.ranges[j].start) &&
    (forall i :: 0 <= i < |tag.ranges| ==> tag.ranges[i].end <= last) &&
    Ascending(tag.blocks) && (forall i :: 0 <= i < |tag.blocks| ==> tag.blocks[i] <= last)
  }

  /** The run that starts at position i of the list. */
  method FindRun(xs: seq<nat>, i0: nat) returns (i: nat, end: nat)
    requires Ascending(xs) && i0 < |xs|
    ensures i0 <= i < |xs| && end == xs[i] == xs[i0] + (i - i0)
    ensures forall k :: i0 <= k <= i ==> xs[k] == xs[i0] + (k - i0)
    ensures i + 1 < |xs| ==> xs[i + 1] != end + 1
  {
    i, end := i0, xs[i0];
    while i + 1 < |xs| && xs[i + 1] == xs[i] + 1
      invariant i0 <= i < |xs| && end == xs[i]
      invariant forall k :: i0 <= k <= i ==> xs[k] == xs[i0] + (k - i0)
    {
      i := i + 1;
      end := xs[i];
    }
  }

  /** A number that is skipped between two neighbours of an ascending list is not in it. */
  lemma NotMember(xs: seq<nat>, n: nat, b: nat)
    requires Ascending(xs) && n <= |xs| && (n > 0 ==> xs[n - 1] < b) && (n < |xs| ==> b < xs[n])
    ensures b !in xs
  {
    forall k | 0 <= k < |xs| ensures xs[k] != b {
      if k < n - 1 {
        assert xs[k] < xs[n - 1];
      } else if k > n {
        assert xs[n] < xs[k];
      }
    }
  }

  /** The run found at position n is bounded on both sides by numbers that are not in the list. */
  lemma RunIsBounded(xs: seq<nat>, n: nat, i: nat)
    requires Ascending(xs) && n <= i < |xs| && (forall k :: n <= k <= i ==> xs[k] == xs[n] + (k - n))
    requires i + 1 < |xs| ==> xs[i + 1] != xs[i] + 1
    requires n > 0 ==> xs[n - 1] + 1 < xs[n]
    ensures xs[i] + 1 !in xs && (xs[n] > 0 ==> xs[n] - 1 !in xs)
  {
    NotMember(xs, i + 1, xs[i] + 1);
    if xs[n] > 0 {
      NotMember(xs, n, xs[n] - 1);
    }
  }

  lemma AddRun(tag: Tag, xs: seq<nat>, n: nat, i: nat)
    requires Ascending(xs) && (forall k :: 0 <= k < |xs| ==> xs[k] < UINT64) && TagsUpTo(tag, xs, n) && n < i < |xs|
    requires forall k :: n <= k <= i ==> xs[k] == xs[n] + (k - n)
    requires xs[i] + 1 !in xs && (xs[n] > 0 ==> xs[n] - 1 !in xs)
    ensures TagsUpTo(tag.(ranges := tag.ranges + [Range(xs[n], xs[i])]), xs, i + 1)
  {
    var r := Range(xs[n], xs[i]);
    var tag' := tag.(ranges := tag.ranges + [r]);
    forall b | r.start <= b <= r.end ensures b in xs {
      assert xs[n + (b - r.start)] == b;
    }
    assert MaximalRun(r, xs);
    forall k | 0 <= k < i + 1 ensures Tagged(tag', xs[k]) {
      if k < n {
        TaggedMore(tag, r, xs[k]);
      } else {
        assert tag'.ranges[|tag.ranges|].start <= xs[k] <= tag'.ranges[|tag.ranges|].end;
      }
    }
    OrderWithRange(tag, xs, n, i);
  }

  lemma TaggedMore(tag: Tag, r: Range, b: nat)
    requires Tagged(tag, b)
    ensures Tagged(tag.(ranges := tag.ranges + [r]), b)
  {
    if b !in tag.blocks {
      var i :| 0 <= i < |tag.ranges| && tag.ranges[i].start <= b <= tag.ranges[i].end;
      assert (tag.ranges + [r])[i] == tag.ranges[i];
    }
  }

  lemma OrderWithRange(tag: Tag, xs: seq<nat>, n: nat, i: nat)
    requires Ascending(xs) && (forall k :: 0 <= k < |xs| ==> xs[k] < UINT64) && TagsUpTo(tag, xs, n) && n <= i < |xs|
    requires xs[n] > 0 ==> xs[n] - 1 !in xs
    ensures InOrder(tag.(ranges := tag.ranges + [Range(xs[n], xs[i])]), xs[i])
  {
    var last := if n == 0 then -1 else xs[n - 1] as int;
    assert last + 1 < xs[n] || n == 0;
    assert xs[n] <= xs[i];
  }

  lemma AddBlockTag(tag: Tag, xs: seq<nat>, n: nat)
    requires Ascending(xs) && TagsUpTo(tag, xs, n) && n < |xs|
    requires xs[n] + 1 !in xs && (xs[n] > 0 ==> xs[n] - 1 !in xs)
    ensures TagsUpTo(tag.(blocks := tag.blocks + [xs[n]]), xs, n + 1)
  {
    var tag' := tag.(blocks := tag.blocks + [xs[n]]);
    forall k | 0 <= k < n + 1 ensures Tagged(tag', xs[k]) {
      if k == n {
        assert tag'.blocks[|tag.blocks|] == xs[n];
      } else if xs[k] !in tag.blocks {
        assert Tagged(tag, xs[k]);
      }
    }
  }

  /** One pass of the loop: tags the run that starts at position i and moves behind it. */
  method TagRun(tag0: Tag, keys: seq<nat>, i: nat) returns (tag: Tag, next: nat)
    requires Ascending(keys) && (forall k :: 0 <= k < |keys| ==> keys[k] < UINT64)
    requires TagsUpTo(tag0, keys, i) && i < |keys| && (i > 0 ==> keys[i - 1] + 1 < keys[i])
    ensures i < next <= |keys| && TagsUpTo(tag, keys, next) && (next < |keys| ==> keys[next - 1] + 1 < keys[next])
  {
    var start := keys[i];
    var j, end := FindRun(keys, i);
    RunIsBounded(keys, i, j);
    if end > start {
      AddRun(tag0, keys, i, j);
      tag := tag0.(ranges := tag0.ranges + [Range(start, end)]);
    } else {
      AddBlockTag(tag0, keys, i);
      tag := tag0.(blocks := tag0.blocks + [start]);
    }
    next := j + 1;
  }

  method TagKeys(keys: seq<nat>) returns (tag: Tag)
    requires Ascending(keys) && (forall k :: 0 <= k < |keys| ==> keys[k] < UINT64)
    ensures TagsUpTo(tag, keys, |keys|)
  {
    tag := EMPTY;
    var i := 0;
    while i < |keys|
      invariant TagsUpTo(tag, keys, i) && (0 < i < |keys| ==> keys[i - 1] + 1 < keys[i])
    {
      tag, i := TagRun(tag, keys, i);
    }
  }

  /** keys are the map's block numbers in ascending order. */
  ghost predicate SortedKeys(keys: seq<nat>, m: HashMap) {
    Ascending(keys) && forall b: nat :: b in keys <==> b in m
  }

  /** Puts one number into an ascending list that does not hold it. */
  method Insert(xs: seq<nat>, x: nat) returns (r: seq<nat>)
    requires Ascending(xs) && x !in xs
    ensures Ascending(r) && forall y :: y in r <==> y in xs || y == x
  {
    var k := 0;
    while k < |xs| && xs[k] < x
      invariant 0 <= k <= |xs| && forall i :: 0 <= i < k ==> xs[i] < x
    {
      k := k + 1;
    }
    r := xs[..k] + [x] + xs[k..];
    Inserted(xs, x, k);
  }

  lemma Inserted(xs: seq<nat>, x: nat, k: nat)
    requires Ascending(xs) && x !in xs && k <= |xs| && (forall i :: 0 <= i < k ==> xs[i] < x) && (k < |xs| ==> x <= xs[k])
    ensures var r := xs[..k] + [x] + xs[k..]; Ascending(r) && forall y :: y in r <==> y in xs || y == x
  {
    assert forall i :: k <= i < |xs| ==> x < xs[i];
    assert xs == xs[..k] + xs[k..];
  }

  /** The map's block numbers, collected in any order and sorted. */
  method SortKeys(m: HashMap) returns (keys: seq<nat>)
    ensures SortedKeys(keys, m)
  {
    keys := [];
    var todo := m.Keys;
    while todo != {}
      invariant todo <= m.Keys && Ascending(keys)
      invariant forall b :: b in keys <==> b in m && b !in todo
      decreases |todo|
    {
      var b :| b in todo;
      keys := Insert(keys, b);
      todo := todo - {b};
    }
  }

  /** The blocks are tagged as maximal runs of two or more and isolated single ones, disjoint and ascending. */
  ghost predicate TagsBlocks(tag: Tag, m: HashMap) {
    (forall b: nat :: Tagged(tag, b) <==> b in m) && exists keys :: SortedKeys(keys, m) && TagsUpTo(tag, keys, |keys|)
  }

  /** Tags exactly the blocks of the map, as disjoint maximal runs of two or more blocks and isolated single ones. */
  method GenerateTagsFromMap(m: HashMap) returns (tag: Tag)
    ensures TagsBlocks(tag, m)
  {
    var keys := SortKeys(m);
    assert |keys| > 0 ==> keys[0] in m;
    assert forall k :: 0 <= k < |keys| ==> keys[k] in m;
    if |m| == 0 {
      NothingToTag(m, keys);
      return EMPTY;
    }
    tag := TagKeys(keys);
    forall b: nat ensures Tagged(tag, b) <==> b in m {
      TaggedIffKey(tag, keys, b);
    }
  }

  lemma NothingToTag(m: HashMap, keys: seq<nat>)
    requires |m| == 0 && keys == [] && SortedKeys(keys, m)
    ensures TagsBlocks(EMPTY, m)
  {
    assert TagsUpTo(EMPTY, keys, |keys|);
  }

  lemma TaggedIffKey(tag: Tag, xs: seq<nat>, b: nat)
    requires TagsUpTo(tag, xs, |xs|)
    ensures Tagged(tag, b) <==> b in xs
  {
    if b in xs {
      var k :| 0 <= k < |xs| && xs[k] == b;
      assert Tagged(tag, xs[k]);
    }
    if Tagged(tag, b) {
      if b in tag.blocks {
        var k :| 0 <= k < |tag.blocks| && tag.blocks[k] == b;
        assert Isolated(tag.blocks[k], xs);
      } else {
        var i :| 0 <= i < |tag.ranges| && tag.ranges[i].start <= b <= tag.ranges[i].end;
        assert MaximalRun(tag.ranges[i], xs);
      }
    }
  }

  // ----- the request -----

  datatype Header = Header(number: BlockNumber, hash: Hash)

  /** Block number to hash; a later header replaces an earlier one with the same number. */
  function ServedMap(headers: seq<Header>): HashMap {
    if headers == [] then map[]
    else ServedMap(headers[..|headers| - 1])[headers[|headers| - 1].number := headers[|headers| - 1].hash]
  }

  /** Header i is the last one of its block number. */
  ghost predicate LastOf(headers: seq<Header>, i: nat) {
    i < |headers| && forall j :: i < j < |headers| ==> headers[j].number != headers[i].number
  }

  /** The map holds the last header of each block number, and nothing else. */
  lemma {:induction false} ServedMapIsLast(headers: seq<Header>, b: BlockNumber, hash: Hash)
    ensures (b in ServedMap(headers) && ServedMap(headers)[b] == hash) <==>
            exists i: nat :: LastOf(headers, i) && headers[i] == Header(b, hash)
  {
    if headers != [] {
      var n := |headers| - 1;
      ServedMapIsLast(headers[..n], b, hash);
      assert headers[n].number == b ==> LastOf(headers, n);
      forall i: nat | i < n && headers[n].number != headers[i].number ensures LastOf(headers, i) <==> LastOf(headers[..n], i) {
        assert headers[..n][i] == headers[i];
      }
    }
  }

  /** Of the served headers the last one with this number differs from what the client holds for it, if anything. */
  ghost predicate NeededBy(client: HashMap, headers: seq<Header>, b: nat) {
    exists i: nat :: LastOf(headers, i) && headers[i].number == b && (b !in client || client[b] != headers[i].hash)
  }

  /** The same in terms of the map. */
  lemma NeededInMap(client: HashMap, headers: seq<Header>, b: nat)
    ensures NeededBy(client, headers, b) <==>
            b in ServedMap(headers) && (b !in client || client[b] != ServedMap(headers)[b])
  {
    if NeededBy(client, headers, b) {
      var i: nat :| LastOf(headers, i) && headers[i].number == b && (b !in client || client[b] != headers[i].hash);
      ServedMapIsLast(headers, b, headers[i].hash);
    }
    if b in ServedMap(headers) {
      ServedMapIsLast(headers, b, ServedMap(headers)[b]);
    }
  }

  datatype Request = Request(latest: nat, blocks: HashMap)

  /** The client is up to date, or the store has headers for it. */
  predicate Answerable(request: Option<Request>, serverLatest: Option<nat>, headers: Option<seq<Header>>) {
    request.Some? && serverLatest.Some? &&
    (request.value.latest >= serverLatest.value || (headers.Some? && headers.value != []))
  }

  datatype Response = Refused | Answer(tag: Tag, latest: nat)

  /** A tag holds exactly the served headers that the client needs, as disjoint maximal runs and isolated blocks. */
  ghost predicate TagsNeeded(tag: Tag, client: HashMap, headers: seq<Header>) {
    (forall b: nat :: Tagged(tag, b) <==> NeededBy(client, headers, b)) &&
    exists keys :: Ascending(keys) && (forall b: nat :: b in keys <==> NeededBy(client, headers, b)) && TagsUpTo(tag, keys, |keys|)
  }

  /** What CompareMaps leaves of the served map are the needed blocks. */
  lemma DiffIsNeeded(client: HashMap, headers: seq<Header>, diff: HashMap, tag: Tag)
    requires var server := ServedMap(headers); diff == map b | b in server && !Synced(server, client, b) :: server[b]
    requires TagsBlocks(tag, diff)
    ensures TagsNeeded(tag, client, headers)
  {
    forall b: nat ensures b in diff <==> NeededBy(client, headers, b) {
      NeededInMap(client, headers, b);
    }
    var keys :| SortedKeys(keys, diff) && TagsUpTo(tag, keys, |keys|);
    assert Ascending(keys) && forall b: nat :: b in keys <==> NeededBy(client, headers, b);
  }

  /**
   The answer's tag holds exactly the served headers that are absent from the client's map or differ there.
   headers is what the store returns for the blocks after the client's latest, None if the query fails.
   */
  method ProcessPoTSRequest(request: Option<Request>, serverLatest: Option<nat>, headers: Option<seq<Header>>)
    returns (response: Response)
    ensures response.Refused? <==> !Answerable(request, serverLatest, headers)
    ensures response.Answer? ==> response.latest == serverLatest.value
    ensures response.Answer? && request.value.latest >= serverLatest.value ==> response.tag == EMPTY
    ensures response.Answer? && request.value.latest < serverLatest.value ==>
              TagsNeeded(response.tag, request.value.blocks, headers.value)
  {
    if request.None? || serverLatest.None? {
      return Refused;
    }
    if request.value.latest >= serverLatest.value {
      return Answer(EMPTY, serverLatest.value);
    }
    if headers.None? || |headers.value| == 0 {
      return Refused;
    }
    var served := headers.value;
    var server: HashMap := map[];
    for i := 0 to |served|
      invariant server == ServedMap(served[..i])
    {
      assert served[..i + 1][..i] == served[..i];
      server := server[served[i].number := served[i].hash];
    }
    assert served[..|served|] == served;
    var diff := CompareMaps(server, request.value.blocks);
    var tag := GenerateTagsFromMap(diff);
    DiffIsNeeded(request.value.blocks, served, diff, tag);
    return Answer(tag, serverLatest.value);
  }
}
