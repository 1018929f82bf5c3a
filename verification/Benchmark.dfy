/** The stratified benchmark sample: a deterministic round-robin over sorted strata. */
module Benchmark {
  const MAX_RAW_ENTRIES := 1_000

  /** Text fields are compared only, so each stands for its rank in the text order. */
  datatype RawCandidate = RawCandidate(artifactId: int, contentHash: int, fetchedAt: int, stratum: int, signature: int)

  // ----- what is sampled from

  predicate SameRaw(a: RawCandidate, b: RawCandidate) {
    a.artifactId == b.artifactId && a.contentHash == b.contentHash
  }

  predicate Seen(items: seq<RawCandidate>, c: RawCandidate) {
    exists i :: 0 <= i < |items| && SameRaw(items[i], c)
  }

  /** One candidate per artifact and content: the first one met. */
  function Unique(raw: seq<RawCandidate>): seq<RawCandidate> {
    if raw == [] then []
    else
      var before := Unique(raw[..|raw| - 1]);
      if Seen(before, raw[|raw| - 1]) then before else before + [raw[|raw| - 1]]
  }

  /** The order inside a stratum: structure first, then newest first, then artifact id. */
  predicate KeyLess(a: RawCandidate, b: RawCandidate) {
    a.signature < b.signature
    || (a.signature == b.signature && (a.fetchedAt > b.fetchedAt
    || (a.fetchedAt == b.fetchedAt && a.artifactId < b.artifactId)))
  }

  function Insert(sorted: seq<RawCandidate>, c: RawCandidate): seq<RawCandidate> {
    if sorted != [] && KeyLess(c, sorted[|sorted| - 1])
    then Insert(sorted[..|sorted| - 1], c) + [sorted[|sorted| - 1]]
    else sorted + [c]
  }

  /** A stable sort. */
  function Sort(items: seq<RawCandidate>): seq<RawCandidate> {
    if items == [] then [] else Insert(Sort(items[..|items| - 1]), items[|items| - 1])
  }

  function Group(items: seq<RawCandidate>, stratum: int): seq<RawCandidate> {
    if items == [] then []
    else
      var last := items[|items| - 1];
      Group(items[..|items| - 1], stratum) + if last.stratum == stratum then [last] else []
  }

  function InsertKey(keys: seq<int>, key: int): seq<int> {
    if keys == [] || keys[|keys| - 1] < key then keys + [key]
    else if keys[|keys| - 1] == key then keys
    else InsertKey(keys[..|keys| - 1], key) + [keys[|keys| - 1]]
  }

  /** The strata that occur, in order. */
  function Keys(items: seq<RawCandidate>): seq<int> {
    if items == [] then [] else InsertKey(Keys(items[..|items| - 1]), items[|items| - 1].stratum)
  }

  /** Each stratum's candidates in its order, stratum after stratum. */
  function Strata(items: seq<RawCandidate>): (lists: seq<seq<RawCandidate>>)
    ensures |lists| == |Keys(items)|
    ensures forall i :: 0 <= i < |lists| ==> lists[i] == Sort(Group(items, Keys(items)[i]))
  {
    seq(|Keys(items)|, i requires 0 <= i < |Keys(items)| => Sort(Group(items, Keys(items)[i])))
  }

  // ----- the round-robin

  /** Round `r` up to stratum `j`: the r-th candidate of every stratum that has one. */
  function RoundUpTo(lists: seq<seq<RawCandidate>>, r: nat, j: nat): seq<RawCandidate>
    requires j <= |lists|
  {
    if j == 0 then [] else RoundUpTo(lists, r, j - 1) + if r < |lists[j - 1]| then [lists[j - 1][r]] else []
  }

  /** Everything dealt in `level` full rounds and then up to stratum `j` of the next one. */
  function Dealt(lists: seq<seq<RawCandidate>>, level: nat, j: nat): seq<RawCandidate>
    requires j <= |lists|
    decreases level, j
  {
    if level == 0 then RoundUpTo(lists, 0, j)
    else Dealt(lists, level - 1, |lists|) + RoundUpTo(lists, level, j)
  }

  function Total(lists: seq<seq<RawCandidate>>): nat {
    if lists == [] then 0 else Total(lists[..|lists| - 1]) + |lists[|lists| - 1]|
  }

  function Share(size: nat, level: nat, extra: bool): nat {
    var rounds := if extra then level + 1 else level;
    if size < rounds then size else rounds
  }

  /** The part of a sample that comes from one stratum. */
  function Picks(sample: seq<RawCandidate>, stratum: int): seq<RawCandidate> {
    Group(sample, stratum)
  }

  // ----- the strata are what they should be

  predicate Ordered(items: seq<RawCandidate>) {
    forall i, j :: 0 <= i < j < |items| ==> !KeyLess(items[j], items[i])
  }

  lemma {:induction false} InsertCounts(sorted: seq<RawCandidate>, c: RawCandidate)
    ensures multiset(Insert(sorted, c)) == multiset(sorted) + multiset{c} && |Insert(sorted, c)| == |sorted| + 1
  {
    hide KeyLess;
    if sorted != [] && KeyLess(c, sorted[|sorted| - 1]) {
      var before, last := sorted[..|sorted| - 1], sorted[|sorted| - 1];
      InsertCounts(before, c);
      assert Insert(sorted, c) == Insert(before, c) + [last];
      assert multiset(sorted) == multiset(before) + multiset{last} by { assert sorted == before + [last]; }
    }
  }

  lemma KeyOrder(a: RawCandidate, b: RawCandidate, c: RawCandidate)
    ensures KeyLess(a, b) ==> !KeyLess(b, a)
    ensures !KeyLess(a, b) && !KeyLess(b, c) ==> !KeyLess(a, c)
  {
  }

  lemma {:induction false} InsertOrdered(sorted: seq<RawCandidate>, c: RawCandidate)
    requires Ordered(sorted)
    ensures Ordered(Insert(sorted, c))
  {
    hide KeyLess;
    if sorted != [] && KeyLess(c, sorted[|sorted| - 1]) {
      var n := |sorted| - 1;
      var before, last := sorted[..n], sorted[n];
      InsertOrdered(before, c);
      InsertCounts(before, c);
      KeyOrder(c, last, c);
      var longer := Insert(before, c);
      assert Insert(sorted, c) == longer + [last];
      hide Insert;
      forall i | 0 <= i < |longer| ensures !KeyLess(last, longer[i]) {
        assert longer[i] in multiset(longer);
        assert longer[i] in before || longer[i] == c;
      }
    } else {
      forall i | 0 <= i < |sorted| ensures !KeyLess(c, sorted[i]) {
        if i < |sorted| - 1 {
          KeyOrder(c, sorted[|sorted| - 1], sorted[i]);
        }
      }
    }
  }

  lemma SortStep(items: seq<RawCandidate>)
    ensures Sort([]) == []
    ensures items != [] ==> Sort(items) == Insert(Sort(items[..|items| - 1]), items[|items| - 1])
  {
    hide Insert, KeyLess;
  }

  lemma {:induction false} SortOrders(items: seq<RawCandidate>)
    ensures Ordered(Sort(items)) && multiset(Sort(items)) == multiset(items) && |Sort(items)| == |items|
  {
    hide Sort, Insert, KeyLess;
    SortStep(items);
    if items != [] {
      var before, last := items[..|items| - 1], items[|items| - 1];
      SortOrders(before);
      InsertOrdered(Sort(before), last);
      InsertCounts(Sort(before), last);
      assert multiset(items) == multiset(before) + multiset{last} by { assert items == before + [last]; }
    }
  }

  lemma {:induction false} GroupIs(items: seq<RawCandidate>, stratum: int)
    ensures forall c :: c in Group(items, stratum) <==> c in items && c.stratum == stratum
    ensures Group(items, stratum) == [] <==> forall c :: c in items ==> c.stratum != stratum
  {
    if items != [] {
      var before, last := items[..|items| - 1], items[|items| - 1];
      GroupIs(before, stratum);
      assert items == before + [last];
      forall c ensures c in Group(items, stratum) <==> c in items && c.stratum == stratum {
        assert c in items <==> c in before || c == last;
      }
      assert last in items;
    }
  }

  lemma {:induction false} GroupSubset(items: seq<RawCandidate>, stratum: int)
    ensures multiset(Group(items, stratum)) <= multiset(items)
  {
    if items != [] {
      var before, last := items[..|items| - 1], items[|items| - 1];
      GroupSubset(before, stratum);
      assert multiset(items) == multiset(before) + multiset{last} by { assert items == before + [last]; }
    }
  }

  predicate Ascending(keys: seq<int>) {
    forall i, j :: 0 <= i < j < |keys| ==> keys[i] < keys[j]
  }

  lemma {:induction false} InsertKeyAscends(keys: seq<int>, key: int)
    requires Ascending(keys)
    ensures Ascending(InsertKey(keys, key)) && forall k :: k in InsertKey(keys, key) <==> k in keys || k == key
  {
    if keys != [] && keys[|keys| - 1] > key {
      var n := |keys| - 1;
      InsertKeyAscends(keys[..n], key);
      assert keys == keys[..n] + [keys[n]];
      var longer := InsertKey(keys[..n], key);
      hide InsertKey;
      forall k ensures k in longer + [keys[n]] <==> k in keys || k == key {
        assert k in keys <==> k in keys[..n] || k == keys[n];
      }
      forall i | 0 <= i < |longer| ensures longer[i] < keys[n] {
        assert longer[i] in longer;
      }
    }
  }

  lemma {:induction false} KeysAscend(items: seq<RawCandidate>)
    ensures Ascending(Keys(items))
    ensures forall k :: k in Keys(items) <==> exists c :: c in items && c.stratum == k
  {
    if items != [] {
      var n := |items| - 1;
      var before, last := items[..n], items[n];
      KeysAscend(before);
      InsertKeyAscends(Keys(before), last.stratum);
      assert Keys(items) == InsertKey(Keys(before), last.stratum);
      hide Keys, InsertKey, Ascending;
      assert items == before + [last];
      forall k ensures k in Keys(items) <==> exists c :: c in items && c.stratum == k {
        if k in Keys(before) {
          var c :| c in before && c.stratum == k;
          assert c in items;
        } else if k == last.stratum {
          assert last in items;
        }
      }
    }
  }

  /** No two of the items describe the same artifact content. */
  predicate AllDifferent(items: seq<RawCandidate>) {
    forall i, j :: 0 <= i < j < |items| ==> !SameRaw(items[i], items[j])
  }

  lemma {:induction false} UniqueIs(raw: seq<RawCandidate>)
    ensures AllDifferent(Unique(raw))
    ensures forall c :: c in Unique(raw) ==> c in raw
    ensures forall c :: c in raw ==> Seen(Unique(raw), c)
  {
    if raw != [] {
      var n := |raw| - 1;
      UniqueIs(raw[..n]);
      assert raw == raw[..n] + [raw[n]];
      var before := Unique(raw[..n]);
      forall c | c in raw ensures Seen(Unique(raw), c) {
        if c in raw[..n] {
          var i :| 0 <= i < |before| && SameRaw(before[i], c);
          assert SameRaw(Unique(raw)[i], c);
        } else {
          assert !Seen(before, c) ==> SameRaw(Unique(raw)[|before|], c);
        }
      }
    }
  }

  // ----- what is dealt

  /** List `i` holds candidates of stratum `keys[i]` only. */
  predicate Sorted(keys: seq<int>, lists: seq<seq<RawCandidate>>) {
    |lists| == |keys| && Ascending(keys)
    && forall i, c :: 0 <= i < |lists| && c in lists[i] ==> c.stratum == keys[i]
  }

  lemma {:induction false} GroupAppend(a: seq<RawCandidate>, b: seq<RawCandidate>, stratum: int)
    ensures Group(a + b, stratum) == Group(a, stratum) + Group(b, stratum)
    decreases |b|
  {
    if b == [] {
      assert a + b == a;
    } else {
      var n := |b| - 1;
      GroupAppend(a, b[..n], stratum);
      assert (a + b)[..|a + b| - 1] == a + b[..n];
    }
  }

  lemma GroupOne(c: RawCandidate, stratum: int)
    ensures Group([c], stratum) == if c.stratum == stratum then [c] else []
  {
    assert [c][..0] == [];
  }

  lemma OwnKey(keys: seq<int>, lists: seq<seq<RawCandidate>>, r: nat, j: nat, i: nat)
    requires Sorted(keys, lists) && j < |lists| && i < |lists| && r < |lists[j]|
    ensures lists[j][r].stratum == keys[i] <==> i == j
  {
    assert lists[j][r] in lists[j];
  }

  lemma {:induction false} RoundPicks(keys: seq<int>, lists: seq<seq<RawCandidate>>, r: nat, j: nat, i: nat)
    requires Sorted(keys, lists) && |keys| == |lists| && j <= |lists| && i < |lists|
    ensures Picks(RoundUpTo(lists, r, j), keys[i]) == if i < j && r < |lists[i]| then [lists[i][r]] else []
    decreases j
  {
    hide Sorted, Group;
    if j == 0 {
      NoneDealt(keys, lists, i);
    } else {
      RoundPicks(keys, lists, r, j - 1, i);
      if r < |lists[j - 1]| {
        GroupAppend(RoundUpTo(lists, r, j - 1), [lists[j - 1][r]], keys[i]);
        GroupOne(lists[j - 1][r], keys[i]);
        OwnKey(keys, lists, r, j - 1, i);
      } else {
        assert RoundUpTo(lists, r, j - 1) + [] == RoundUpTo(lists, r, j - 1);
      }
    }
  }

  lemma NoneDealt(keys: seq<int>, lists: seq<seq<RawCandidate>>, i: nat)
    requires i < |keys|
    ensures Picks([], keys[i]) == []
  {
  }

  /** What one stratum contributed: a prefix of its order, one more from the strata before the cut. */
  lemma {:induction false} DealtPicks(keys: seq<int>, lists: seq<seq<RawCandidate>>, level: nat, j: nat, i: nat)
    requires Sorted(keys, lists) && |keys| == |lists| && j <= |lists| && i < |lists|
    ensures Picks(Dealt(lists, level, j), keys[i]) == lists[i][..Share(|lists[i]|, level, i < j)]
    decreases level
  {
    hide Sorted, Group, RoundUpTo;
    RoundPicks(keys, lists, level, j, i);
    if level > 0 {
      DealtPicks(keys, lists, level - 1, |lists|, i);
      GroupAppend(Dealt(lists, level - 1, |lists|), RoundUpTo(lists, level, j), keys[i]);
      OneMore(lists[i], level, i < j);
    } else {
      OneMore(lists[i], 0, i < j);
    }
  }

  lemma OneMore(list: seq<RawCandidate>, level: nat, extra: bool)
    ensures list[..Share(|list|, level, false)] + (if extra && level < |list| then [list[level]] else [])
            == list[..Share(|list|, level, extra)]
    ensures level > 0 ==> Share(|list|, level - 1, true) == Share(|list|, level, false)
  {
  }

  lemma {:induction false} RoundMember(lists: seq<seq<RawCandidate>>, r: nat, j: nat, c: RawCandidate) returns (i: nat)
    requires j <= |lists| && c in RoundUpTo(lists, r, j)
    ensures i < j && r < |lists[i]| && c == lists[i][r]
    decreases j
  {
    if c in RoundUpTo(lists, r, j - 1) {
      i := RoundMember(lists, r, j - 1, c);
    } else {
      i := j - 1;
    }
  }

  lemma {:induction false} DealtMember(lists: seq<seq<RawCandidate>>, level: nat, j: nat, c: RawCandidate) returns (i: nat, r: nat)
    requires j <= |lists| && c in Dealt(lists, level, j)
    ensures i < |lists| && r < |lists[i]| && c == lists[i][r]
    decreases level
  {
    hide RoundUpTo;
    if c in RoundUpTo(lists, level, j) {
      i := RoundMember(lists, level, j, c);
      r := level;
    } else {
      i, r := DealtMember(lists, level - 1, |lists|, c);
    }
  }

  // ----- how much is dealt

  function SharesUpTo(lists: seq<seq<RawCandidate>>, level: nat, j: nat, n: nat): nat
    requires n <= |lists|
  {
    if n == 0 then 0 else SharesUpTo(lists, level, j, n - 1) + Share(|lists[n - 1]|, level, n - 1 < j)
  }

  lemma {:induction false} RoundSize(lists: seq<seq<RawCandidate>>, r: nat, j: nat, n: nat)
    requires j <= n <= |lists|
    ensures SharesUpTo(lists, r, j, n) == SharesUpTo(lists, r, 0, n) + |RoundUpTo(lists, r, j)|
    decreases n, j
  {
    if n > j {
      RoundSize(lists, r, j, n - 1);
    } else if j > 0 {
      RoundSize(lists, r, j - 1, n - 1);
      SameShares(lists, r, j, j - 1, n - 1);
    }
  }

  lemma {:induction false} SameShares(lists: seq<seq<RawCandidate>>, level: nat, j: nat, k: nat, n: nat)
    requires n <= |lists| && n <= j && n <= k
    ensures SharesUpTo(lists, level, j, n) == SharesUpTo(lists, level, k, n)
    decreases n
  {
    if n > 0 {
      SameShares(lists, level, j, k, n - 1);
    }
  }

  lemma {:induction false} NextLevel(lists: seq<seq<RawCandidate>>, level: nat, n: nat)
    requires n <= |lists|
    ensures SharesUpTo(lists, level, |lists|, n) == SharesUpTo(lists, level + 1, 0, n)
    decreases n
  {
    if n > 0 {
      NextLevel(lists, level, n - 1);
    }
  }

  lemma {:induction false} NoShares(lists: seq<seq<RawCandidate>>, n: nat)
    requires n <= |lists|
    ensures SharesUpTo(lists, 0, 0, n) == 0
    decreases n
  {
    if n > 0 {
      NoShares(lists, n - 1);
    }
  }

  lemma {:induction false} DealtSize(lists: seq<seq<RawCandidate>>, level: nat, j: nat)
    requires j <= |lists|
    ensures |Dealt(lists, level, j)| == SharesUpTo(lists, level, j, |lists|)
    decreases level
  {
    RoundSize(lists, level, j, |lists|);
    if level == 0 {
      NoShares(lists, |lists|);
    } else {
      DealtSize(lists, level - 1, |lists|);
      NextLevel(lists, level - 1, |lists|);
    }
  }

  /** The shares reach the total exactly when nobody has candidates left. */
  lemma {:induction false} SharesWithin(lists: seq<seq<RawCandidate>>, level: nat, j: nat, n: nat)
    requires n <= |lists|
    ensures SharesUpTo(lists, level, j, n) <= Total(lists[..n])
    ensures SharesUpTo(lists, level, j, n) == Total(lists[..n]) <==> forall i :: 0 <= i < n ==> Share(|lists[i]|, level, i < j) == |lists[i]|
    decreases n
  {
    if n > 0 {
      SharesWithin(lists, level, j, n - 1);
      assert lists[..n][..n - 1] == lists[..n - 1];
    }
  }

  function GroupSizes(items: seq<RawCandidate>, keys: seq<int>, n: nat): nat
    requires n <= |keys|
  {
    if n == 0 then 0 else GroupSizes(items, keys, n - 1) + |Group(items, keys[n - 1])|
  }

  lemma {:induction false} OneMoreItem(items: seq<RawCandidate>, keys: seq<int>, n: nat)
    requires items != [] && n <= |keys| && Ascending(keys)
    ensures GroupSizes(items, keys, n)
            == GroupSizes(items[..|items| - 1], keys, n) + if items[|items| - 1].stratum in keys[..n] then 1 else 0
    decreases n
  {
    if n > 0 {
      OneMoreItem(items, keys, n - 1);
      assert keys[..n] == keys[..n - 1] + [keys[n - 1]];
    }
  }

  /** The strata partition the items. */
  lemma {:induction false} GroupsCover(items: seq<RawCandidate>, keys: seq<int>)
    requires Ascending(keys) && forall c :: c in items ==> c.stratum in keys
    ensures GroupSizes(items, keys, |keys|) == |items|
    decreases |items|
  {
    if items == [] {
      NoGroups(keys, |keys|);
    } else {
      var n := |items| - 1;
      OneMoreItem(items, keys, |keys|);
      assert keys[..|keys|] == keys;
      assert items[n] in items;
      GroupsCover(items[..n], keys);
    }
  }

  lemma {:induction false} NoGroups(keys: seq<int>, n: nat)
    requires n <= |keys|
    ensures GroupSizes([], keys, n) == 0
    decreases n
  {
    if n > 0 {
      NoGroups(keys, n - 1);
    }
  }

  lemma {:induction false} TotalIsGroups(items: seq<RawCandidate>, n: nat)
    requires n <= |Keys(items)|
    ensures Total(Strata(items)[..n]) == GroupSizes(items, Keys(items), n)
    decreases n
  {
    hide Strata, Sort, Group, Keys;
    if n > 0 {
      TotalIsGroups(items, n - 1);
      var lists, group := Strata(items), Group(items, Keys(items)[n - 1]);
      SortOrders(group);
      assert lists[n - 1] == Sort(group);
      assert lists[..n][..n - 1] == lists[..n - 1];
    }
  }

  lemma StrataHoldAll(items: seq<RawCandidate>)
    ensures Total(Strata(items)) == |items| && Sorted(Keys(items), Strata(items))
  {
    hide Strata, Sort, Group, Keys, Total, GroupSizes;
    var keys, lists := Keys(items), Strata(items);
    KeysAscend(items);
    GroupsCover(items, keys);
    TotalIsGroups(items, |keys|);
    assert lists[..|lists|] == lists;
    forall i: int, c: RawCandidate | 0 <= i < |lists| && c in lists[i] ensures c.stratum == keys[i] {
      var group := Group(items, keys[i]);
      SortOrders(group);
      assert lists[i] == Sort(group);
      assert c in multiset(Sort(group));
      assert c in group;
      GroupIs(items, keys[i]);
    }
  }

  // ----- the selection

  function Limit(total: nat): nat { if total < MAX_RAW_ENTRIES then total else MAX_RAW_ENTRIES }

  ghost predicate CutAt(lists: seq<seq<RawCandidate>>, sample: seq<RawCandidate>, level: nat, j: nat) {
    j <= |lists| && sample == Dealt(lists, level, j)
  }

  /** A sample dealt round by round from the sorted strata until the limit or the candidates run out. */
  ghost predicate Selection(raw: seq<RawCandidate>, sample: seq<RawCandidate>) {
    |sample| == Limit(|Unique(raw)|)
    && exists level, j :: CutAt(Strata(Unique(raw)), sample, level, j)
  }

  /** A round that deals nothing means that everything has been dealt. */
  lemma {:induction false} EmptyRound(lists: seq<seq<RawCandidate>>, r: nat, j: nat)
    requires j <= |lists| && RoundUpTo(lists, r, j) == []
    ensures forall i :: 0 <= i < j ==> |lists[i]| <= r
    decreases j
  {
    if j > 0 {
      EmptyRound(lists, r, j - 1);
    }
  }

  lemma SomethingLeft(lists: seq<seq<RawCandidate>>, level: nat)
    requires |Dealt(lists, level, 0)| < Total(lists)
    ensures RoundUpTo(lists, level, |lists|) != []
  {
    DealtSize(lists, level, 0);
    SharesWithin(lists, level, 0, |lists|);
    assert lists[..|lists|] == lists;
    if RoundUpTo(lists, level, |lists|) == [] {
      EmptyRound(lists, level, |lists|);
    }
  }

  lemma DealtWithinTotal(lists: seq<seq<RawCandidate>>, level: nat, j: nat)
    requires j <= |lists|
    ensures |Dealt(lists, level, j)| <= Total(lists)
  {
    DealtSize(lists, level, j);
    SharesWithin(lists, level, j, |lists|);
    assert lists[..|lists|] == lists;
  }

  lemma UniqueNext(raw: seq<RawCandidate>, i: nat)
    requires i < |raw|
    ensures Unique(raw[..i + 1]) == if Seen(Unique(raw[..i]), raw[i]) then Unique(raw[..i]) else Unique(raw[..i]) + [raw[i]]
  {
    hide Seen;
    assert raw[..i + 1][..i] == raw[..i];
  }

  method Deduplicate(raw: seq<RawCandidate>) returns (unique: seq<RawCandidate>)
    ensures unique == Unique(raw)
  {
    hide Unique, Seen, SameRaw;
    unique := [];
    var keys: set<(int, int)> := {};
    NoneUnique(raw);
    for i := 0 to |raw|
      invariant unique == Unique(raw[..i])
      invariant forall c :: Seen(unique, c) <==> (c.artifactId, c.contentHash) in keys
    {
      var item := raw[i];
      UniqueNext(raw, i);
      if (item.artifactId, item.contentHash) !in keys {
        ghost var before := unique;
        unique := unique + [item];
        keys := keys + {(item.artifactId, item.contentHash)};
        forall c ensures Seen(unique, c) <==> Seen(before, c) || (c.artifactId == item.artifactId && c.contentHash == item.contentHash) {
          SeenAppend(before, item, c);
        }
      }
    }
    assert raw[..|raw|] == raw;
  }

  lemma NoneUnique(raw: seq<RawCandidate>)
    ensures Unique(raw[..0]) == [] && forall c :: !Seen([], c)
  {
  }

  lemma SeenAppend(items: seq<RawCandidate>, item: RawCandidate, c: RawCandidate)
    ensures Seen(items + [item], c) <==> Seen(items, c) || SameRaw(item, c)
    ensures SameRaw(item, c) <==> c.artifactId == item.artifactId && c.contentHash == item.contentHash
  {
    if Seen(items, c) {
      var i :| 0 <= i < |items| && SameRaw(items[i], c);
      assert SameRaw((items + [item])[i], c);
    }
    if SameRaw(item, c) {
      assert SameRaw((items + [item])[|items|], c);
    }
  }

  lemma AddItem(items: seq<RawCandidate>, i: nat, k: int)
    requires i < |items|
    ensures Group(items[..i + 1], k) == Group(items[..i], k) + if items[i].stratum == k then [items[i]] else []
    ensures Keys(items[..i + 1]) == InsertKey(Keys(items[..i]), items[i].stratum)
    ensures k in Keys(items[..i + 1]) <==> k in Keys(items[..i]) || k == items[i].stratum
    ensures k !in Keys(items[..i]) ==> Group(items[..i], k) == []
  {
    assert items[..i + 1][..i] == items[..i];
    KeysAscend(items[..i]);
    InsertKeyAscends(Keys(items[..i]), items[i].stratum);
    if k !in Keys(items[..i]) {
      MissingGroup(items[..i], k);
    }
  }

  method Stratify(items: seq<RawCandidate>) returns (keys: seq<int>, lists: seq<seq<RawCandidate>>)
    ensures keys == Keys(items) && lists == Strata(items)
  {
    hide Group, InsertKey;
    keys := [];
    var strata: map<int, seq<RawCandidate>> := map[];
    for i := 0 to |items|
      invariant keys == Keys(items[..i])
      invariant forall k :: k in strata <==> k in keys
      invariant forall k :: k in strata ==> strata[k] == Group(items[..i], k)
    {
      hide Keys;
      var item := items[i];
      forall k
        ensures Group(items[..i + 1], k) == Group(items[..i], k) + if item.stratum == k then [item] else []
        ensures k in Keys(items[..i + 1]) <==> k in Keys(items[..i]) || k == item.stratum
        ensures k !in Keys(items[..i]) ==> Group(items[..i], k) == []
      {
        AddItem(items, i, k);
      }
      AddItem(items, i, item.stratum);
      var group := if item.stratum in strata then strata[item.stratum] else [];
      keys := InsertKey(keys, item.stratum);
      strata := strata[item.stratum := group + [item]];
    }
    assert items[..|items|] == items;
    forall i | 0 <= i < |keys| ensures keys[i] in strata {
      var k := keys[i];
      assert k in keys;
    }
    lists := SortStrata(strata, keys);
  }

  method SortStrata(strata: map<int, seq<RawCandidate>>, keys: seq<int>) returns (lists: seq<seq<RawCandidate>>)
    requires forall i :: 0 <= i < |keys| ==> keys[i] in strata
    ensures |lists| == |keys| && forall i :: 0 <= i < |keys| ==> lists[i] == Sort(strata[keys[i]])
  {
    lists := [];
    for i := 0 to |keys|
      invariant |lists| == i && forall k :: 0 <= k < i ==> lists[k] == Sort(strata[keys[k]])
    {
      lists := lists + [Sort(strata[keys[i]])];
    }
  }

  lemma MissingGroup(items: seq<RawCandidate>, stratum: int)
    requires stratum !in Keys(items)
    ensures Group(items, stratum) == []
  {
    KeysAscend(items);
    GroupIs(items, stratum);
  }

  /** How far each stratum has been dealt. */
  predicate Positions(positions: seq<nat>, lists: seq<seq<RawCandidate>>, level: nat, j: nat) {
    |positions| == |lists| && forall i :: 0 <= i < |lists| ==> positions[i] == Share(|lists[i]|, level, i < j)
  }

  lemma NextPosition(positions: seq<nat>, lists: seq<seq<RawCandidate>>, level: nat, j: nat)
    requires |positions| == |lists| && Positions(positions, lists, level, j) && j < |lists|
    ensures positions[j] < |lists[j]| <==> level < |lists[j]|
    ensures level < |lists[j]| ==> positions[j] == level
    ensures Positions(if level < |lists[j]| then positions[j := level + 1] else positions, lists, level, j + 1)
  {
  }

  lemma NextLevelPositions(positions: seq<nat>, lists: seq<seq<RawCandidate>>, level: nat)
    requires Positions(positions, lists, level, |lists|)
    ensures Positions(positions, lists, level + 1, 0)
  {
  }

  lemma NothingDealt(lists: seq<seq<RawCandidate>>)
    ensures Dealt(lists, 0, 0) == [] && Positions(seq(|lists|, _ => 0), lists, 0, 0)
  {
  }

  /** The selection loop of `build_manifest`; the guard against a round without progress never fires. */
  method BuildManifest(raw: seq<RawCandidate>) returns (selected: seq<RawCandidate>)
    ensures Selection(raw, selected)
  {
    hide Dealt, RoundUpTo, Positions, Sorted, Total, Unique, Keys;
    var unique := Deduplicate(raw);
    var keys, lists := Stratify(unique);
    StrataHoldAll(unique);
    selected := [];
    var positions: seq<nat> := seq(|lists|, _ => 0);
    NothingDealt(lists);
    ghost var level: nat := 0;
    ghost var cutLevel: nat, cutStratum: nat := 0, 0;
    while |selected| < MAX_RAW_ENTRIES && |selected| < |unique|
      invariant |selected| <= MAX_RAW_ENTRIES && CutAt(lists, selected, cutLevel, cutStratum) && |positions| == |lists|
      invariant |selected| < MAX_RAW_ENTRIES ==> selected == Dealt(lists, level, 0) && Positions(positions, lists, level, 0)
      decreases MAX_RAW_ENTRIES - |selected|
    {
      SomethingLeft(lists, level);
      ghost var start := |selected|;
      var progressed := false;
      for j := 0 to |lists|
        invariant |selected| <= MAX_RAW_ENTRIES && CutAt(lists, selected, cutLevel, cutStratum) && |positions| == |lists|
        invariant |selected| < MAX_RAW_ENTRIES ==> selected == Dealt(lists, level, j) && Positions(positions, lists, level, j)
        invariant start <= |selected| && (progressed <==> start < |selected|)
      {
        var position := positions[j];
        if |selected| < MAX_RAW_ENTRIES {
          DealNext(lists, level, j);
          NextPosition(positions, lists, level, j);
        }
        if position < |lists[j]| && |selected| < MAX_RAW_ENTRIES {
          selected := selected + [lists[j][position]];
          positions := positions[j := position + 1];
          progressed := true;
          cutLevel, cutStratum := level, j + 1;
        }
      }
      RoundGrows(lists, level);
      if !progressed {
        assert false;
      }
      if |selected| < MAX_RAW_ENTRIES {
        NextLevelPositions(positions, lists, level);
      }
      level := level + 1;
    }
    DealtWithinTotal(lists, cutLevel, cutStratum);
  }

  /** Moving on by one stratum. */
  lemma DealNext(lists: seq<seq<RawCandidate>>, level: nat, j: nat)
    requires j < |lists|
    ensures Dealt(lists, level, j + 1) == Dealt(lists, level, j) + if level < |lists[j]| then [lists[j][level]] else []
  {
    if level > 0 {
      var before, round := Dealt(lists, level - 1, |lists|), RoundUpTo(lists, level, j);
      var last := if level < |lists[j]| then [lists[j][level]] else [];
      assert before + (round + last) == before + round + last;
    }
  }

  lemma RoundEnds(lists: seq<seq<RawCandidate>>, level: nat)
    ensures Dealt(lists, level + 1, 0) == Dealt(lists, level, |lists|)
  {
    assert RoundUpTo(lists, level + 1, 0) == [];
  }

  lemma RoundGrows(lists: seq<seq<RawCandidate>>, level: nat)
    ensures |Dealt(lists, level, |lists|)| == |Dealt(lists, level, 0)| + |RoundUpTo(lists, level, |lists|)|
    ensures Dealt(lists, level + 1, 0) == Dealt(lists, level, |lists|)
  {
  }

  // ----- what a selection guarantees

  /** Max-min fairness: there is a level that every stratum reaches unless it runs out, and only the
      alphabetically first of the others go one beyond it; each contributes a prefix of its own order. */
  lemma SelectionIsFair(raw: seq<RawCandidate>, sample: seq<RawCandidate>) returns (level: nat, j: nat)
    requires Selection(raw, sample)
    ensures |sample| == Limit(|Unique(raw)|)
    ensures j <= |Keys(Unique(raw))|
    ensures var keys, lists := Keys(Unique(raw)), Strata(Unique(raw));
            forall i :: 0 <= i < |keys| ==>
              Picks(sample, keys[i]) == lists[i][..Share(|lists[i]|, level, i < j)]
              && (Share(|lists[i]|, level, i < j) == |lists[i]| || Share(|lists[i]|, level, i < j) == if i < j then level + 1 else level)
  {
    var lists := Strata(Unique(raw));
    StrataHoldAll(Unique(raw));
    level, j :| CutAt(lists, sample, level, j);
    forall i: nat | i < |lists| ensures Picks(sample, Keys(Unique(raw))[i]) == lists[i][..Share(|lists[i]|, level, i < j)] {
      DealtPicks(Keys(Unique(raw)), lists, level, j, i);
    }
  }

  lemma {:induction false} GroupCount(items: seq<RawCandidate>, c: RawCandidate)
    ensures multiset(items)[c] == multiset(Group(items, c.stratum))[c]
  {
    if items != [] {
      var before, last := items[..|items| - 1], items[|items| - 1];
      GroupCount(before, c);
      assert multiset(items) == multiset(before) + multiset{last} by { assert items == before + [last]; }
    }
  }

  lemma PrefixCount(items: seq<RawCandidate>, n: nat, c: RawCandidate)
    requires n <= |items|
    ensures multiset(items[..n])[c] <= multiset(items)[c]
  {
    assert items == items[..n] + items[n..];
  }

  /** Nothing is selected twice, and nothing that was not offered. */
  lemma SelectionIsASample(raw: seq<RawCandidate>, sample: seq<RawCandidate>)
    requires Selection(raw, sample)
    ensures multiset(sample) <= multiset(Unique(raw)) && AllDifferent(sample)
  {
    var items := Unique(raw);
    var keys, lists := Keys(items), Strata(items);
    var level, j := SelectionIsFair(raw, sample);
    StrataHoldAll(items);
    UniqueIs(raw);
    forall c ensures multiset(sample)[c] <= multiset(items)[c] {
      if c in sample {
        var l: nat, m: nat :| CutAt(lists, sample, l, m);
        var i, r := DealtMember(lists, l, m, c);
        assert c in lists[i];
        GroupCount(sample, c);
        GroupCount(items, c);
        PrefixCount(lists[i], Share(|lists[i]|, level, i < j), c);
        SortOrders(Group(items, keys[i]));
      }
    }
    SubSampleDiffers(items, sample);
  }

  lemma Placed(items: seq<RawCandidate>, c: RawCandidate) returns (i: nat, q: nat)
    requires c in items
    ensures i < |Keys(items)| && Keys(items)[i] == c.stratum
    ensures q < |Strata(items)[i]| && Strata(items)[i][q] == c && Ordered(Strata(items)[i])
  {
    hide Keys, Sort, Group, Ordered, KeyLess;
    KeysAscend(items);
    assert c.stratum in Keys(items);
    i :| i < |Keys(items)| && Keys(items)[i] == c.stratum;
    GroupIs(items, c.stratum);
    SortOrders(Group(items, c.stratum));
    assert c in multiset(Strata(items)[i]);
    q :| q < |Strata(items)[i]| && Strata(items)[i][q] == c;
  }

  /** Within a stratum nothing is passed over: whatever comes before a selected candidate, by structure, then newest
      first, then artifact id, is selected too. */
  lemma EarlierIsSelected(raw: seq<RawCandidate>, sample: seq<RawCandidate>, a: RawCandidate, b: RawCandidate)
    requires Selection(raw, sample) && a in Unique(raw) && b in sample && a.stratum == b.stratum
    requires a.signature < b.signature
             || (a.signature == b.signature && a.fetchedAt > b.fetchedAt)
             || (a.signature == b.signature && a.fetchedAt == b.fetchedAt && a.artifactId < b.artifactId)
    ensures a in sample
  {
    hide Selection, Keys, Strata, Unique;
    var level, j := SelectionIsFair(raw, sample);
    var i, q := Placed(Unique(raw), a);
    var list := Strata(Unique(raw))[i];
    var n := Share(|list|, level, i < j);
    assert n <= |list|;
    assert Picks(sample, a.stratum) == Group(sample, a.stratum) == list[..n];
    GroupIs(sample, a.stratum);
    assert b in list[..n];
    var p :| 0 <= p < n && list[p] == b;
    assert q <= p;
    assert a in list[..n];
  }

  lemma {:induction false} OnceEach(items: seq<RawCandidate>, c: RawCandidate)
    requires AllDifferent(items)
    ensures multiset(items)[c] <= 1
  {
    if items != [] {
      var n := |items| - 1;
      OnceEach(items[..n], c);
      assert items == items[..n] + [items[n]];
      assert forall i :: 0 <= i < n ==> !SameRaw(items[i], items[n]);
    }
  }

  lemma CountedTwice(items: seq<RawCandidate>, i: nat, j: nat)
    requires i < j < |items| && items[i] == items[j]
    ensures multiset(items)[items[i]] >= 2
  {
    assert items == items[..i] + [items[i]] + items[i + 1..j] + [items[j]] + items[j + 1..];
  }

  lemma SameRawIsSame(items: seq<RawCandidate>, a: RawCandidate, b: RawCandidate)
    requires AllDifferent(items) && a in items && b in items && SameRaw(a, b)
    ensures a == b
  {
  }

  lemma SubSampleDiffers(items: seq<RawCandidate>, sample: seq<RawCandidate>)
    requires AllDifferent(items) && multiset(sample) <= multiset(items)
    ensures AllDifferent(sample)
  {
    forall i, j | 0 <= i < j < |sample| ensures !SameRaw(sample[i], sample[j]) {
      assert sample[i] in multiset(sample) && sample[j] in multiset(sample);
      assert sample[i] in items && sample[j] in items;
      OnceEach(items, sample[i]);
      if sample[i] == sample[j] {
        CountedTwice(sample, i, j);
      } else if SameRaw(sample[i], sample[j]) {
        SameRawIsSame(items, sample[i], sample[j]);
      }
    }
  }

  // ----- the input order does not matter

  /** Two different candidates of which the first one met counts: one artifact content, or one place in a stratum. */
  predicate Ambiguous(a: RawCandidate, b: RawCandidate) {
    a != b && (SameRaw(a, b) || (a.stratum == b.stratum && !KeyLess(a, b) && !KeyLess(b, a)))
  }

  predicate Unambiguous(raw: seq<RawCandidate>) {
    forall a, b :: a in raw && b in raw ==> !Ambiguous(a, b)
  }

  /** Distinct artifact ids are enough. */
  lemma DistinctIdsSuffice(raw: seq<RawCandidate>)
    requires forall a, b :: a in raw && b in raw && a.artifactId == b.artifactId ==> a == b
    ensures Unambiguous(raw)
  {
  }

  ghost predicate SameMembers(a: seq<RawCandidate>, b: seq<RawCandidate>) {
    forall c :: c in a <==> c in b
  }

  lemma UniqueMembers(raw: seq<RawCandidate>)
    requires Unambiguous(raw)
    ensures SameMembers(Unique(raw), raw) && Unambiguous(Unique(raw))
  {
    UniqueIs(raw);
    forall c | c in raw ensures c in Unique(raw) {
      var i :| 0 <= i < |Unique(raw)| && SameRaw(Unique(raw)[i], c);
      assert Unique(raw)[i] in Unique(raw);
      assert !Ambiguous(Unique(raw)[i], c);
    }
  }

  predicate StrictlyOrdered(items: seq<RawCandidate>) {
    forall i, j :: 0 <= i < j < |items| ==> KeyLess(items[i], items[j])
  }

  lemma EmptyMembers(s: seq<RawCandidate>)
    ensures s == [] <==> forall c :: c !in s
  {
    if s != [] {
      assert s[0] in s;
    }
  }

  /** A strictly ordered sequence is determined by its members. */
  lemma {:induction false} OrderedIsUnique(a: seq<RawCandidate>, b: seq<RawCandidate>)
    requires StrictlyOrdered(a) && StrictlyOrdered(b) && SameMembers(a, b)
    ensures a == b
    decreases |a|
  {
    if a == [] || b == [] {
      EmptyMembers(a);
      EmptyMembers(b);
    } else {
      var m, n := |a| - 1, |b| - 1;
      LastIsGreatest(a);
      LastIsGreatest(b);
      assert a[m] in a && b[n] in b;
      assert a[m] == b[n];
      forall c ensures c in a[..m] <==> c in b[..n] {
        assert c in a <==> c in a[..m] || c == a[m];
        assert c in b <==> c in b[..n] || c == b[n];
      }
      OrderedIsUnique(a[..m], b[..n]);
      assert a == a[..m] + [a[m]] && b == b[..n] + [b[n]];
    }
  }

  lemma LastIsGreatest(items: seq<RawCandidate>)
    requires items != [] && StrictlyOrdered(items)
    ensures forall c :: c in items && c != items[|items| - 1] ==> KeyLess(c, items[|items| - 1])
    ensures items[|items| - 1] !in items[..|items| - 1]
  {
  }

  lemma StratumIsStrict(items: seq<RawCandidate>, stratum: int)
    requires AllDifferent(items) && Unambiguous(items)
    ensures StrictlyOrdered(Sort(Group(items, stratum)))
    ensures forall c :: c in Sort(Group(items, stratum)) <==> c in items && c.stratum == stratum
  {
    var group := Group(items, stratum);
    var sorted := Sort(group);
    SortOrders(group);
    GroupIs(items, stratum);
    GroupSubset(items, stratum);
    forall c ensures c in sorted <==> c in items && c.stratum == stratum {
      assert c in sorted <==> c in multiset(sorted);
      assert c in group <==> c in multiset(group);
    }
    SubSampleDiffers(items, sorted);
    forall i, j | 0 <= i < j < |sorted| ensures KeyLess(sorted[i], sorted[j]) {
      assert sorted[i] in sorted && sorted[j] in sorted;
      assert !SameRaw(sorted[i], sorted[j]) && !Ambiguous(sorted[i], sorted[j]);
    }
  }

  lemma NoKeys(keys: seq<int>)
    ensures keys == [] <==> forall k :: k !in keys
  {
    if keys != [] {
      var k := keys[0];
      assert k in keys;
    }
  }

  lemma {:induction false} AscendingIsUnique(a: seq<int>, b: seq<int>)
    requires Ascending(a) && Ascending(b) && forall k :: k in a <==> k in b
    ensures a == b
    decreases |a|
  {
    if a == [] || b == [] {
      NoKeys(a);
      NoKeys(b);
    } else {
      var m, n := |a| - 1, |b| - 1;
      assert a[m] in a && b[n] in b;
      assert a[m] == b[n];
      forall k ensures k in a[..m] <==> k in b[..n] {
        assert k in a <==> k in a[..m] || k == a[m];
        assert k in b <==> k in b[..n] || k == b[n];
      }
      AscendingIsUnique(a[..m], b[..n]);
      assert a == a[..m] + [a[m]] && b == b[..n] + [b[n]];
    }
  }

  /** The strata depend on the set of candidates alone. */
  lemma SameStrata(raw: seq<RawCandidate>, raw2: seq<RawCandidate>)
    requires SameMembers(raw, raw2) && Unambiguous(raw)
    ensures Strata(Unique(raw)) == Strata(Unique(raw2)) && |Unique(raw)| == |Unique(raw2)|
  {
    var a, b := Unique(raw), Unique(raw2);
    UniqueMembers(raw);
    UniqueMembers(raw2);
    UniqueIs(raw);
    UniqueIs(raw2);
    KeysAscend(a);
    KeysAscend(b);
    AscendingIsUnique(Keys(a), Keys(b));
    forall i | 0 <= i < |Keys(a)| ensures Strata(a)[i] == Strata(b)[i] {
      StratumIsStrict(a, Keys(a)[i]);
      StratumIsStrict(b, Keys(a)[i]);
      OrderedIsUnique(Strata(a)[i], Strata(b)[i]);
    }
    StrataHoldAll(a);
    StrataHoldAll(b);
  }

  lemma {:induction false} ShorterIsPrefix(lists: seq<seq<RawCandidate>>, level: nat, j: nat, level2: nat, j2: nat)
    requires j <= |lists| && j2 <= |lists| && (level < level2 || (level == level2 && j <= j2))
    ensures Dealt(lists, level, j) <= Dealt(lists, level2, j2)
    decreases level2, j2
  {
    hide Dealt, RoundUpTo;
    if level == level2 && j == j2 {
    } else if j2 > 0 {
      ShorterIsPrefix(lists, level, j, level2, j2 - 1);
      DealNext(lists, level2, j2 - 1);
    } else {
      RoundEnds(lists, level2 - 1);
      ShorterIsPrefix(lists, level, j, level2 - 1, |lists|);
    }
  }

  /** While no two candidates are ambiguous, the selection depends on the set of candidates alone. */
  lemma SelectionIgnoresInputOrder(raw: seq<RawCandidate>, raw2: seq<RawCandidate>, sample: seq<RawCandidate>, sample2: seq<RawCandidate>)
    requires SameMembers(raw, raw2) && Unambiguous(raw)
    requires Selection(raw, sample) && Selection(raw2, sample2)
    ensures sample == sample2
  {
    SameStrata(raw, raw2);
    var lists := Strata(Unique(raw));
    var level: nat, j: nat :| CutAt(lists, sample, level, j);
    var level2: nat, j2: nat :| CutAt(lists, sample2, level2, j2);
    if level < level2 || (level == level2 && j <= j2) {
      ShorterIsPrefix(lists, level, j, level2, j2);
    } else {
      ShorterIsPrefix(lists, level2, j2, level, j);
    }
  }

  // ----- and otherwise it does

  /** `a` stands somewhere before `b`. */
  predicate Precedes(items: seq<RawCandidate>, a: RawCandidate, b: RawCandidate) {
    exists i, j :: 0 <= i < j < |items| && items[i] == a && items[j] == b
  }

  lemma PrecedesLonger(items: seq<RawCandidate>, more: seq<RawCandidate>, a: RawCandidate, b: RawCandidate)
    requires Precedes(items, a, b)
    ensures Precedes(items + more, a, b)
  {
    var i, j :| 0 <= i < j < |items| && items[i] == a && items[j] == b;
    var longer := items + more;
    assert longer[i] == a && longer[j] == b;
  }

  lemma PrecedesLast(items: seq<RawCandidate>, a: RawCandidate, b: RawCandidate)
    requires a in items
    ensures Precedes(items + [b], a, b)
  {
    var i :| 0 <= i < |items| && items[i] == a;
    var longer := items + [b];
    assert longer[i] == a && longer[|items|] == b;
  }

  /** Inserting a candidate leaves the others in their order. */
  lemma {:induction false} InsertKeepsOrder(sorted: seq<RawCandidate>, c: RawCandidate, a: RawCandidate, b: RawCandidate)
    requires Precedes(sorted, a, b)
    ensures Precedes(Insert(sorted, c), a, b)
    decreases |sorted|
  {
    hide KeyLess;
    if sorted != [] && KeyLess(c, sorted[|sorted| - 1]) {
      var n := |sorted| - 1;
      var before, last := sorted[..n], sorted[n];
      assert Insert(sorted, c) == Insert(before, c) + [last];
      var i, j :| 0 <= i < j < |sorted| && sorted[i] == a && sorted[j] == b;
      if j < n {
        assert before[i] == a && before[j] == b;
        InsertKeepsOrder(before, c, a, b);
        PrecedesLonger(Insert(before, c), [last], a, b);
      } else {
        assert before[i] == a;
        InsertCounts(before, c);
        assert a in multiset(Insert(before, c));
        PrecedesLast(Insert(before, c), a, b);
      }
    } else {
      PrecedesLonger(sorted, [c], a, b);
    }
  }

  /** Of two tied candidates the sort keeps the order of the input. */
  lemma {:induction false} SortKeepsTies(items: seq<RawCandidate>, a: RawCandidate, b: RawCandidate)
    requires |items| >= 2 && items[0] == a && items[1] == b && !KeyLess(b, a)
    ensures Precedes(Sort(items), a, b)
    decreases |items|
  {
    var n := |items| - 1;
    if n == 1 {
      assert items[..1] == [a] && [a][..0] == [];
      assert Sort([a]) == Insert([], a) == [a];
      assert Sort(items) == Insert([a], b) == [a, b];
      assert [a, b][0] == a && [a, b][1] == b;
    } else {
      SortKeepsTies(items[..n], a, b);
      InsertKeepsOrder(Sort(items[..n]), items[n], a, b);
    }
  }

  lemma {:induction false} GroupStarts(items: seq<RawCandidate>, a: RawCandidate, b: RawCandidate)
    requires |items| >= 2 && items[0] == a && items[1] == b && a.stratum == b.stratum
    ensures var group := Group(items, a.stratum); |group| >= 2 && group[0] == a && group[1] == b
    decreases |items|
  {
    var n := |items| - 1;
    if n == 1 {
      assert items[..1] == [a];
      GroupOne(a, a.stratum);
      assert Group(items, a.stratum) == [a] + [b];
    } else {
      GroupStarts(items[..n], a, b);
    }
  }

  lemma {:induction false} UniqueStarts(raw: seq<RawCandidate>, n: nat)
    requires n <= |raw|
    ensures Unique(raw[..n]) <= Unique(raw)
    decreases |raw|
  {
    if n < |raw| {
      var m := |raw| - 1;
      assert raw[..m][..n] == raw[..n];
      UniqueStarts(raw[..m], n);
    } else {
      assert raw[..n] == raw;
    }
  }

  /** What the input starts with, as long as it is all different, the selection is made from first. */
  lemma FirstTwo(a: RawCandidate, b: RawCandidate, rest: seq<RawCandidate>)
    ensures Unique([a, b] + rest) != [] && Unique([a, b] + rest)[0] == a
    ensures !SameRaw(a, b) ==> |Unique([a, b] + rest)| >= 2 && Unique([a, b] + rest)[1] == b
  {
    var raw := [a, b] + rest;
    UniqueStarts(raw, 1);
    UniqueStarts(raw, 2);
    assert raw[..1] == [a] && [a][..0] == [] && raw[..2] == [a, b];
    assert Unique([a]) == [a];
    if !SameRaw(a, b) {
      TwoUnique(a, b);
    }
  }

  lemma SameGroups(a: seq<RawCandidate>, b: seq<RawCandidate>, stratum: int)
    requires multiset(a) == multiset(b)
    ensures |Group(a, stratum)| == |Group(b, stratum)|
  {
    hide Group;
    forall c ensures multiset(Group(a, stratum))[c] == multiset(Group(b, stratum))[c] {
      if c.stratum == stratum {
        GroupCount(a, c);
        GroupCount(b, c);
      } else {
        GroupIs(a, stratum);
        GroupIs(b, stratum);
      }
    }
    assert multiset(Group(a, stratum)) == multiset(Group(b, stratum));
    assert |multiset(Group(a, stratum))| == |Group(a, stratum)| && |multiset(Group(b, stratum))| == |Group(b, stratum)|;
  }

  /** When nothing is cut off, everything is picked. */
  lemma NothingLeftOut(raw: seq<RawCandidate>, sample: seq<RawCandidate>)
    requires Selection(raw, sample) && |Unique(raw)| <= MAX_RAW_ENTRIES
    ensures multiset(sample) == multiset(Unique(raw)) && AllDifferent(sample)
  {
    hide AllDifferent, Unique, Strata;
    SelectionIsASample(raw, sample);
    var left := multiset(Unique(raw)) - multiset(sample);
    assert multiset(Unique(raw)) == multiset(sample) + left;
    assert |multiset(Unique(raw))| == |Unique(raw)| && |multiset(sample)| == |sample|;
    assert |left| == 0;
  }

  lemma WholeStratum(raw: seq<RawCandidate>, sample: seq<RawCandidate>, c: RawCandidate)
    requires Selection(raw, sample) && multiset(sample) == multiset(Unique(raw)) && c in Unique(raw)
    ensures Picks(sample, c.stratum) == Sort(Group(Unique(raw), c.stratum))
  {
    hide Selection, Unique, Group, Sort, Keys;
    var items := Unique(raw);
    var keys := Keys(items);
    KeysAscend(items);
    var level, j := SelectionIsFair(raw, sample);
    assert c.stratum in keys;
    var i :| 0 <= i < |keys| && keys[i] == c.stratum;
    var list := Strata(items)[i];
    assert list == Sort(Group(items, c.stratum));
    assert Picks(sample, keys[i]) == list[..Share(|list|, level, i < j)];
    SameGroups(sample, items, c.stratum);
    SortOrders(Group(items, c.stratum));
    assert |Picks(sample, c.stratum)| == |list|;
  }

  lemma PrecedesOneWay(items: seq<RawCandidate>, a: RawCandidate, b: RawCandidate)
    requires AllDifferent(items) && Precedes(items, a, b)
    ensures !Precedes(items, b, a)
  {
    var i, j :| 0 <= i < j < |items| && items[i] == a && items[j] == b;
    forall k, l | 0 <= k < l < |items| ensures !(items[k] == b && items[l] == a) {
      OnePlace(items, i, l);
      OnePlace(items, j, k);
    }
  }

  lemma OnePlace(items: seq<RawCandidate>, i: nat, j: nat)
    requires AllDifferent(items) && i < |items| && j < |items|
    ensures items[i] == items[j] ==> i == j
  {
    if i < j {
      assert !SameRaw(items[i], items[j]);
    } else if j < i {
      assert !SameRaw(items[j], items[i]);
    }
  }

  lemma MembersAre(a: seq<RawCandidate>, b: seq<RawCandidate>)
    requires multiset(a) == multiset(b)
    ensures SameMembers(a, b)
  {
    forall c ensures c in a <==> c in b {
      assert c in a <==> c in multiset(a);
      assert c in b <==> c in multiset(b);
    }
  }

  /** Whatever is selected from an input that starts with `a` and then `b`, an ambiguous pair: `b` is not in it, or
      stands after `a` in their stratum. */
  lemma FirstComesFirst(a: RawCandidate, b: RawCandidate, rest: seq<RawCandidate>, sample: seq<RawCandidate>)
    requires Ambiguous(a, b) && Selection([a, b] + rest, sample) && |Unique([a, b] + rest)| <= MAX_RAW_ENTRIES
    ensures a in sample && AllDifferent(sample)
    ensures if SameRaw(a, b) then b !in sample else Precedes(Picks(sample, a.stratum), a, b) && AllDifferent(Picks(sample, a.stratum))
  {
    hide Selection, Unique, Sort, Group, Precedes;
    var raw := [a, b] + rest;
    var items := Unique(raw);
    FirstTwo(a, b, rest);
    assert a in items;
    NothingLeftOut(raw, sample);
    MembersAre(sample, items);
    if SameRaw(a, b) {
      OnlyOne(sample, a, b);
    } else {
      GroupStarts(items, a, b);
      SortKeepsTies(Group(items, a.stratum), a, b);
      WholeStratum(raw, sample, a);
      GroupSubset(sample, a.stratum);
      SubSampleDiffers(sample, Picks(sample, a.stratum));
    }
  }

  lemma OnlyOne(items: seq<RawCandidate>, a: RawCandidate, b: RawCandidate)
    requires AllDifferent(items) && a in items && SameRaw(a, b) && a != b
    ensures b !in items
  {
    if b in items {
      SameRawIsSame(items, a, b);
    }
  }

  /** Putting an ambiguous pair first, one way round and the other, gives two different selections. */
  lemma OrderShows(a: RawCandidate, b: RawCandidate, rest: seq<RawCandidate>, sample: seq<RawCandidate>, sample2: seq<RawCandidate>)
    requires Ambiguous(a, b) && Selection([a, b] + rest, sample) && Selection([b, a] + rest, sample2)
    requires |Unique([a, b] + rest)| <= MAX_RAW_ENTRIES && |Unique([b, a] + rest)| <= MAX_RAW_ENTRIES
    ensures sample != sample2
  {
    hide Selection, Unique, Precedes, Group;
    FirstComesFirst(a, b, rest, sample);
    FirstComesFirst(b, a, rest, sample2);
    if sample == sample2 && !SameRaw(a, b) {
      PrecedesOneWay(Picks(sample, a.stratum), a, b);
    }
  }

  /** Round after round everything gets dealt. */
  lemma {:induction false} AllDealt(lists: seq<seq<RawCandidate>>, start: nat) returns (level: nat)
    ensures |Dealt(lists, level, 0)| == Total(lists)
    decreases Total(lists) - |Dealt(lists, start, 0)|
  {
    hide Dealt, RoundUpTo, Total;
    DealtWithinTotal(lists, start, 0);
    level := start;
    if |Dealt(lists, start, 0)| < Total(lists) {
      SomethingLeft(lists, start);
      RoundGrows(lists, start);
      level := AllDealt(lists, start + 1);
    }
  }

  lemma SelectionExists(raw: seq<RawCandidate>) returns (sample: seq<RawCandidate>)
    requires |Unique(raw)| <= MAX_RAW_ENTRIES
    ensures Selection(raw, sample)
  {
    hide Unique, Dealt, Total, Strata;
    var lists := Strata(Unique(raw));
    StrataHoldAll(Unique(raw));
    var level := AllDealt(lists, 0);
    sample := Dealt(lists, level, 0);
    assert CutAt(lists, sample, level, 0);
  }

  /** Every order of the same candidates gives the same selection. */
  ghost predicate OrderFree(raw: seq<RawCandidate>) {
    forall raw1, raw2, sample, sample2 ::
      multiset(raw1) == multiset(raw) && multiset(raw2) == multiset(raw) && Selection(raw1, sample) && Selection(raw2, sample2)
        ==> sample == sample2
  }

  /** What is told apart: artifact and content. */
  function Contents(raw: seq<RawCandidate>): set<(int, int)> {
    set c | c in raw :: (c.artifactId, c.contentHash)
  }

  lemma {:induction false} UniqueSize(raw: seq<RawCandidate>)
    ensures |Unique(raw)| == |Contents(raw)|
  {
    if raw != [] {
      var before, last := raw[..|raw| - 1], raw[|raw| - 1];
      UniqueSize(before);
      SeenContent(before, last);
      hide Seen;
      assert raw == before + [last];
      assert Contents(raw) == Contents(before) + {(last.artifactId, last.contentHash)};
    } else {
      assert Contents(raw) == {};
    }
  }

  lemma SeenContent(raw: seq<RawCandidate>, c: RawCandidate)
    ensures Seen(Unique(raw), c) <==> (c.artifactId, c.contentHash) in Contents(raw)
  {
    UniqueIs(raw);
    hide Unique;
    if (c.artifactId, c.contentHash) in Contents(raw) {
      var d :| d in raw && d.artifactId == c.artifactId && d.contentHash == c.contentHash;
      assert Seen(Unique(raw), d);
    }
  }

  lemma SameUniqueSize(raw: seq<RawCandidate>, raw2: seq<RawCandidate>)
    requires multiset(raw) == multiset(raw2)
    ensures |Unique(raw)| == |Unique(raw2)|
  {
    hide Unique;
    MembersAre(raw, raw2);
    UniqueSize(raw);
    UniqueSize(raw2);
    assert Contents(raw) == Contents(raw2);
  }

  lemma WithoutOne(raw: seq<RawCandidate>, a: RawCandidate) returns (left: seq<RawCandidate>)
    requires a in raw
    ensures multiset(raw) == multiset(left) + multiset{a}
  {
    var i :| 0 <= i < |raw| && raw[i] == a;
    left := raw[..i] + raw[i + 1..];
    assert raw == raw[..i] + [a] + raw[i + 1..];
  }

  /** The input without one occurrence of each of two members. */
  lemma WithoutPair(raw: seq<RawCandidate>, a: RawCandidate, b: RawCandidate) returns (rest: seq<RawCandidate>)
    requires a in raw && b in raw && a != b
    ensures multiset([a, b] + rest) == multiset(raw) && multiset([b, a] + rest) == multiset(raw)
  {
    var left := WithoutOne(raw, a);
    assert b in multiset(raw);
    assert b in multiset(left);
    rest := WithoutOne(left, b);
    assert multiset([a, b] + rest) == multiset{a, b} + multiset(rest);
    assert multiset([b, a] + rest) == multiset{b, a} + multiset(rest);
  }

  /** When nothing is cut off, the selection is the same for every order exactly if no two candidates are
      ambiguous. */
  lemma OrderFreeExactly(raw: seq<RawCandidate>)
    requires |Unique(raw)| <= MAX_RAW_ENTRIES
    ensures OrderFree(raw) <==> Unambiguous(raw)
  {
    hide Selection, Unique, SameMembers, Ambiguous;
    if Unambiguous(raw) {
      forall raw1, raw2, sample, sample2 | multiset(raw1) == multiset(raw) && multiset(raw2) == multiset(raw)
                                           && Selection(raw1, sample) && Selection(raw2, sample2)
        ensures sample == sample2
      {
        UnambiguousOrder(raw, raw1);
        MembersAre(raw1, raw2);
        SelectionIgnoresInputOrder(raw1, raw2, sample, sample2);
      }
    } else {
      var a, b :| a in raw && b in raw && Ambiguous(a, b);
      OrderedPair(raw, a, b);
    }
  }

  lemma UnambiguousOrder(raw: seq<RawCandidate>, raw2: seq<RawCandidate>)
    requires Unambiguous(raw) && multiset(raw2) == multiset(raw)
    ensures Unambiguous(raw2)
  {
    hide Ambiguous;
    MembersAre(raw, raw2);
  }

  lemma OrderedPair(raw: seq<RawCandidate>, a: RawCandidate, b: RawCandidate)
    requires |Unique(raw)| <= MAX_RAW_ENTRIES && a in raw && b in raw && Ambiguous(a, b)
    ensures !OrderFree(raw)
  {
    hide Selection, Unique;
    var rest := WithoutPair(raw, a, b);
    var raw1, raw2 := [a, b] + rest, [b, a] + rest;
    SameUniqueSize(raw, raw1);
    SameUniqueSize(raw, raw2);
    var sample := SelectionExists(raw1);
    var sample2 := SelectionExists(raw2);
    OrderShows(a, b, rest, sample, sample2);
  }

  /** With two contents under one artifact id the input order shows: equal keys keep it. */
  lemma {:induction false} SharedIdsKeepInputOrder(id: int, hash: int, hash2: int, at: int, stratum: int, signature: int)
    requires hash != hash2
    ensures var a := RawCandidate(id, hash, at, stratum, signature);
            var b := RawCandidate(id, hash2, at, stratum, signature);
            SameMembers([a, b], [b, a]) && Selection([a, b], [a, b]) && Selection([b, a], [b, a])
  {
    var a := RawCandidate(id, hash, at, stratum, signature);
    var b := RawCandidate(id, hash2, at, stratum, signature);
    TwoTied(a, b);
    TwoTied(b, a);
  }

  /** Two candidates of one stratum with tied keys form one list, in the order of the input. */
  lemma TiedList(a: RawCandidate, b: RawCandidate)
    requires a.stratum == b.stratum && !KeyLess(a, b) && !KeyLess(b, a)
    ensures Keys([a, b]) == [a.stratum] && Strata([a, b]) == [[a, b]]
  {
    var raw := [a, b];
    assert raw[..1] == [a] && [a][..0] == [];
    GroupOne(a, a.stratum);
    assert Group(raw, a.stratum) == raw;
    assert Keys([a]) == InsertKey([], a.stratum) == [a.stratum];
    assert Keys(raw) == [a.stratum];
    assert Sort([a]) == Insert([], a) == [a];
    assert Sort(raw) == Insert([a], b) == raw;
  }

  lemma TwoUnique(a: RawCandidate, b: RawCandidate)
    requires !SameRaw(a, b)
    ensures Unique([a, b]) == [a, b]
  {
    assert [a, b][..1] == [a] && [a][..0] == [];
    assert Unique([a]) == [a];
    assert !Seen([a], b);
  }

  /** One list of two is dealt in two rounds. */
  lemma DealsTwo(a: RawCandidate, b: RawCandidate)
    ensures Dealt([[a, b]], 1, 1) == [a, b]
  {
    var lists := [[a, b]];
    assert RoundUpTo(lists, 0, 1) == RoundUpTo(lists, 0, 0) + [a] == [a];
    assert RoundUpTo(lists, 1, 1) == RoundUpTo(lists, 1, 0) + [b] == [b];
    assert Dealt(lists, 1, 1) == Dealt(lists, 0, 1) + RoundUpTo(lists, 1, 1);
  }

  lemma {:induction false} TwoTied(a: RawCandidate, b: RawCandidate)
    requires !SameRaw(a, b) && a.stratum == b.stratum && !KeyLess(a, b) && !KeyLess(b, a)
    ensures Selection([a, b], [a, b])
  {
    hide Strata, Unique, Dealt, RoundUpTo;
    TwoUnique(a, b);
    TiedList(a, b);
    DealsTwo(a, b);
    assert CutAt([[a, b]], [a, b], 1, 1);
  }
}
