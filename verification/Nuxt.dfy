/** Hydration of a Nuxt payload: a table whose entries refer to each other by index. */
module Nuxt {
  import opened Sets
  import opened Options

  datatype Json = Null | Flag(bool) | Whole(value: int) | Decimal(digits: string) | Text(string) | List(items: seq<Json>) | Object(fields: seq<Field>)
  datatype Field = Field(key: string, value: Json)

  const MAX_DEPTH := 32
  const MAX_KEY := 200
  const MAX_ENTRIES := 50_000

  // ----- the children of a literal

  function Width(item: Json): nat {
    if item.List? then |item.items| else if item.Object? then |item.fields| else 0
  }

  function Child(item: Json, i: nat): (child: Json)
    requires i < Width(item)
    ensures child < item
  {
    if item.List? then item.items[i] else item.fields[i].value
  }

  predicate KeysFit(item: Json) {
    item.Object? ==> forall i :: 0 <= i < |item.fields| ==> |item.fields[i].key| <= MAX_KEY
  }

  /** The literal with its children replaced. */
  function Rebuilt(item: Json, children: seq<Json>): Json
    requires |children| == Width(item)
  {
    if item.List? then List(children)
    else if item.Object? then Object(seq(|children|, i requires 0 <= i < |children| => Field(item.fields[i].key, children[i])))
    else item
  }

  // ----- the plain unfolding

  /** What a reference position means: an index stands for the entry's literal, a negative one for null.
      `fuel` bounds the number of entries on a path; `table` is unfolded without any memory. */
  function Unfold(table: seq<Json>, item: Json, fuel: nat): Option<Json>
    decreases fuel, item, 2, 0
  {
    if !item.Whole? then UnfoldLiteral(table, item, fuel)
    else if item.value < 0 then Some(Null)
    else if item.value >= |table| || fuel == 0 then None
    else UnfoldLiteral(table, table[item.value], fuel - 1)
  }

  /** Scalars, bare integers among them, stand for themselves. */
  function UnfoldLiteral(table: seq<Json>, item: Json, fuel: nat): Option<Json>
    decreases fuel, item, 1, 0
  {
    if !KeysFit(item) then None
    else
      var children := UnfoldChildren(table, item, Width(item), fuel);
      if children.None? then None else Some(Rebuilt(item, children.value))
  }

  function UnfoldChildren(table: seq<Json>, item: Json, n: nat, fuel: nat): (children: Option<seq<Json>>)
    requires n <= Width(item)
    ensures children.Some? ==> |children.value| == n
    decreases fuel, item, 0, n
  {
    if n == 0 then Some([])
    else
      var before, last := UnfoldChildren(table, item, n - 1, fuel), Unfold(table, Child(item, n - 1), fuel);
      if before.None? || last.None? then None else Some(before.value + [last.value])
  }

  /** More fuel never changes an answer. */
  lemma {:induction false} MoreFuel(table: seq<Json>, item: Json, fuel: nat, more: nat)
    requires fuel <= more && Unfold(table, item, fuel).Some?
    ensures Unfold(table, item, more) == Unfold(table, item, fuel)
    decreases fuel, item, 2, 0
  {
    if !item.Whole? {
      MoreFuelLiteral(table, item, fuel, more);
    } else if 0 <= item.value < |table| && fuel > 0 {
      MoreFuelLiteral(table, table[item.value], fuel - 1, more - 1);
    }
  }

  lemma {:induction false} MoreFuelLiteral(table: seq<Json>, item: Json, fuel: nat, more: nat)
    requires fuel <= more && UnfoldLiteral(table, item, fuel).Some?
    ensures UnfoldLiteral(table, item, more) == UnfoldLiteral(table, item, fuel)
    decreases fuel, item, 1, 0
  {
    MoreFuelChildren(table, item, Width(item), fuel, more);
  }

  lemma {:induction false} MoreFuelChildren(table: seq<Json>, item: Json, n: nat, fuel: nat, more: nat)
    requires fuel <= more && n <= Width(item) && UnfoldChildren(table, item, n, fuel).Some?
    ensures UnfoldChildren(table, item, n, more) == UnfoldChildren(table, item, n, fuel)
    decreases fuel, item, 0, n
  {
    if n > 0 {
      MoreFuelChildren(table, item, n - 1, fuel, more);
      MoreFuel(table, Child(item, n - 1), fuel, more);
    }
  }

  // ----- the walk without memory

  /** The same traversal with its depth limit but without the cache. */
  function Walk(table: seq<Json>, item: Json, depth: nat): Option<Json>
    decreases MAX_DEPTH + 3 - depth, 2, 0
  {
    if depth > MAX_DEPTH then None
    else if !item.Whole? then WalkLiteral(table, item, depth)
    else if item.value < 0 then Some(Null)
    else if item.value >= |table| then None
    else WalkLiteral(table, table[item.value], depth + 1)
  }

  function WalkLiteral(table: seq<Json>, item: Json, depth: nat): Option<Json>
    requires depth <= MAX_DEPTH + 1
    decreases MAX_DEPTH + 3 - depth, 1, 0
  {
    if !KeysFit(item) then None
    else
      var children := WalkChildren(table, item, Width(item), depth);
      if children.None? then None else Some(Rebuilt(item, children.value))
  }

  function WalkChildren(table: seq<Json>, item: Json, n: nat, depth: nat): (children: Option<seq<Json>>)
    requires n <= Width(item) && depth <= MAX_DEPTH + 1
    ensures children.Some? ==> |children.value| == n
    decreases MAX_DEPTH + 3 - depth, 0, n
  {
    if n == 0 then Some([])
    else
      var before, last := WalkChildren(table, item, n - 1, depth), Walk(table, Child(item, n - 1), depth + 1);
      if before.None? || last.None? then None else Some(before.value + [last.value])
  }

  /** What the bounded walk returns is the plain unfolding. */
  lemma {:induction false} WalkUnfolds(table: seq<Json>, item: Json, depth: nat)
    requires Walk(table, item, depth).Some?
    ensures Unfold(table, item, MAX_DEPTH + 3 - depth) == Walk(table, item, depth)
    decreases MAX_DEPTH + 3 - depth, 2, 0
  {
    if !item.Whole? {
      WalkLiteralUnfolds(table, item, depth);
      MoreFuelLiteral(table, item, MAX_DEPTH + 2 - depth, MAX_DEPTH + 3 - depth);
    } else if 0 <= item.value < |table| {
      WalkLiteralUnfolds(table, table[item.value], depth + 1);
      MoreFuelLiteral(table, table[item.value], MAX_DEPTH + 1 - depth, MAX_DEPTH + 2 - depth);
    }
  }

  lemma {:induction false} WalkLiteralUnfolds(table: seq<Json>, item: Json, depth: nat)
    requires depth <= MAX_DEPTH + 1 && WalkLiteral(table, item, depth).Some?
    ensures UnfoldLiteral(table, item, MAX_DEPTH + 2 - depth) == WalkLiteral(table, item, depth)
    decreases MAX_DEPTH + 3 - depth, 1, 0
  {
    WalkChildrenUnfold(table, item, Width(item), depth);
  }

  lemma {:induction false} WalkChildrenUnfold(table: seq<Json>, item: Json, n: nat, depth: nat)
    requires depth <= MAX_DEPTH + 1 && n <= Width(item) && WalkChildren(table, item, n, depth).Some?
    ensures UnfoldChildren(table, item, n, MAX_DEPTH + 2 - depth) == WalkChildren(table, item, n, depth)
    decreases MAX_DEPTH + 3 - depth, 0, n
  {
    if n > 0 {
      WalkChildrenUnfold(table, item, n - 1, depth);
      WalkUnfolds(table, Child(item, n - 1), depth + 1);
    }
  }

  // ----- the reference graph

  /** `part` occurs in `item` without following any reference. */
  predicate Within(part: Json, item: Json)
    decreases item
  {
    part == item || exists i: nat :: i < Width(item) && Within(part, Child(item, i))
  }

  /** Entry `from` mentions entry `to`: an index in a child position of its literal. */
  predicate Refers(table: seq<Json>, from: int, to: int) {
    0 <= from < |table| && 0 <= to
    && exists i: nat :: i < Width(table[from]) && Within(Whole(to), Child(table[from], i))
  }

  /** A chain of references that starts at the payload's root. */
  predicate Chain(table: seq<Json>, path: seq<int>) {
    path != [] && path[0] == 0 && forall i :: 0 <= i < |path| - 1 ==> Refers(table, path[i], path[i + 1])
  }

  /** Everything inside an unfolded literal unfolds with the same fuel. */
  lemma {:induction false} PartUnfolds(table: seq<Json>, part: Json, item: Json, fuel: nat)
    requires Within(part, item) && Unfold(table, item, fuel).Some? && (!item.Whole? || part == item)
    ensures Unfold(table, part, fuel).Some?
    decreases item
  {
    if part != item {
      var i: nat :| i < Width(item) && Within(part, Child(item, i));
      ChildUnfolds(table, item, Width(item), i, fuel);
      WholeHasNoParts(part, Child(item, i));
      PartUnfolds(table, part, Child(item, i), fuel);
    }
  }

  lemma WholeHasNoParts(part: Json, item: Json)
    requires Within(part, item)
    ensures item.Whole? ==> part == item
  {
  }

  lemma {:induction false} ChildUnfolds(table: seq<Json>, item: Json, n: nat, i: nat, fuel: nat)
    requires i < n <= Width(item) && UnfoldChildren(table, item, n, fuel).Some?
    ensures Unfold(table, Child(item, i), fuel).Some?
    decreases n
  {
    if i < n - 1 {
      ChildUnfolds(table, item, n - 1, i, fuel);
    }
  }

  /** A reference costs one unit of fuel. */
  lemma RefersCosts(table: seq<Json>, from: int, to: int, fuel: nat)
    requires Refers(table, from, to) && Unfold(table, Whole(from), fuel).Some?
    ensures fuel > 0 && Unfold(table, Whole(to), fuel - 1).Some?
  {
    var i: nat :| i < Width(table[from]) && Within(Whole(to), Child(table[from], i));
    ChildUnfolds(table, table[from], Width(table[from]), i, fuel - 1);
    WholeHasNoParts(Whole(to), Child(table[from], i));
    PartUnfolds(table, Whole(to), Child(table[from], i), fuel - 1);
  }

  /** Along a chain the fuel left only shrinks. */
  lemma {:induction false} ChainCosts(table: seq<Json>, path: seq<int>, i: nat, fuel: nat)
    requires Chain(table, path) && i < |path| && Unfold(table, Whole(0), fuel).Some?
    ensures i < fuel && 0 <= path[i] < |table| && Unfold(table, Whole(path[i]), fuel - i).Some?
    decreases i
  {
    if i > 0 {
      ChainCosts(table, path, i - 1, fuel);
      RefersCosts(table, path[i - 1], path[i], fuel - (i - 1));
    }
  }

  /** The least fuel with which an entry unfolds. */
  lemma {:induction false} LeastFuel(table: seq<Json>, item: Json, fuel: nat) returns (least: nat)
    requires Unfold(table, item, fuel).Some?
    ensures least <= fuel && Unfold(table, item, least).Some? && (least == 0 || Unfold(table, item, least - 1).None?)
    decreases fuel
  {
    least := fuel;
    if fuel > 0 && Unfold(table, item, fuel - 1).Some? {
      least := LeastFuel(table, item, fuel - 1);
    }
  }

  /** From one place on a chain to a later one the entry changes: its least fuel is smaller. */
  lemma {:induction false} LaterIsCheaper(table: seq<Json>, path: seq<int>, i: nat, j: nat, fuel: nat)
    requires Chain(table, path) && i < j < |path| && Unfold(table, Whole(path[i]), fuel).Some?
    ensures fuel > 0 && Unfold(table, Whole(path[j]), fuel - 1).Some?
    decreases j
  {
    if i < j - 1 {
      LaterIsCheaper(table, path, i, j - 1, fuel);
      RefersCosts(table, path[j - 1], path[j], fuel - 1);
      MoreFuel(table, Whole(path[j]), fuel - 2, fuel - 1);
    } else {
      RefersCosts(table, path[i], path[j], fuel);
    }
  }

  /** A payload that unfolds has only in-range references, and no chain from the root meets an entry twice. */
  lemma UnfoldingIsAcyclic(table: seq<Json>, path: seq<int>, fuel: nat)
    requires Unfold(table, Whole(0), fuel).Some? && Chain(table, path)
    ensures |path| <= fuel
    ensures forall i :: 0 <= i < |path| ==> 0 <= path[i] < |table|
    ensures forall i, j :: 0 <= i < j < |path| ==> path[i] != path[j]
  {
    ChainCosts(table, path, |path| - 1, fuel);
    forall i: nat | i < |path| ensures 0 <= path[i] < |table| {
      ChainCosts(table, path, i, fuel);
    }
    forall i: nat, j: nat | i < j < |path| ensures path[i] != path[j] {
      ChainCosts(table, path, i, fuel);
      var least := LeastFuel(table, Whole(path[i]), fuel - i);
      LaterIsCheaper(table, path, i, j, least);
    }
  }

  // ----- the hydration itself

  predicate Distinct(s: seq<int>) {
    forall i, j :: 0 <= i < j < |s| ==> s[i] != s[j]
  }

  /** The item stands where the traversal is: at the root, or inside the entry on top of the stack. */
  ghost predicate Placed(table: seq<Json>, stack: seq<int>, item: Json) {
    if stack == [] then item == Whole(0)
    else 0 <= stack[|stack| - 1] < |table| && Inside(item, table[stack[|stack| - 1]])
  }

  predicate Inside(item: Json, entry: Json) {
    exists i: nat :: i < Width(entry) && Within(item, Child(entry, i))
  }

  /** A literal is the top entry itself or stands inside it. */
  ghost predicate LiteralPlaced(table: seq<Json>, stack: seq<int>, item: Json) {
    stack != [] && 0 <= stack[|stack| - 1] < |table|
    && (item == table[stack[|stack| - 1]] || Inside(item, table[stack[|stack| - 1]]))
  }

  lemma ChainGrows(table: seq<Json>, stack: seq<int>, entry: int)
    requires stack == [] || Chain(table, stack)
    requires Placed(table, stack, Whole(entry)) && 0 <= entry < |table|
    ensures Chain(table, stack + [entry])
  {
    hide Within;
    var path := stack + [entry];
    forall i | 0 <= i < |path| - 1 ensures Refers(table, path[i], path[i + 1]) {
      assert stack != [] && path[i] == stack[i];
    }
  }

  lemma DistinctGrows(s: seq<int>, x: int)
    requires Distinct(s) && x !in s
    ensures Distinct(s + [x])
  {
  }

  lemma {:induction false} WithinChild(item: Json, whole: Json, i: nat)
    requires Within(item, whole) && i < Width(item)
    ensures Within(Child(item, i), whole)
    decreases whole
  {
    if item == whole {
      assert Within(Child(item, i), Child(whole, i));
    } else {
      var j: nat :| j < Width(whole) && Within(item, Child(whole, j));
      WithinChild(item, Child(whole, j), i);
    }
  }

  lemma ChildPlaced(table: seq<Json>, stack: seq<int>, item: Json, i: nat)
    requires LiteralPlaced(table, stack, item) && i < Width(item)
    ensures Placed(table, stack, Child(item, i))
  {
    var entry := table[stack[|stack| - 1]];
    if item == entry {
      assert Within(Child(item, i), Child(entry, i));
    } else {
      var j: nat :| j < Width(entry) && Within(item, Child(entry, j));
      WithinChild(item, Child(entry, j), i);
    }
  }

  /** The entries on the stack are too dear for this fuel: none of them can be met again while it lasts. */
  ghost predicate TooDear(table: seq<Json>, resolving: set<int>, fuel: nat) {
    forall i :: i in resolving ==> Unfold(table, Whole(i), fuel).None?
  }

  lemma CheaperStillDear(table: seq<Json>, resolving: set<int>, fuel: nat, less: nat)
    requires TooDear(table, resolving, fuel) && less <= fuel
    ensures TooDear(table, resolving, less)
  {
    forall i | i in resolving ensures Unfold(table, Whole(i), less).None? {
      if Unfold(table, Whole(i), less).Some? {
        MoreFuel(table, Whole(i), less, fuel);
      }
    }
  }

  /** What is left of the fuel for the entry's literal. */
  lemma EntryFuel(table: seq<Json>, resolving: set<int>, entry: int, fuel: nat) returns (left: nat)
    requires 0 <= entry < |table|
    ensures Unfold(table, Whole(entry), fuel).Some? && TooDear(table, resolving, fuel) ==>
              UnfoldLiteral(table, table[entry], left).Some? && TooDear(table, resolving + {entry}, left)
  {
    left := 0;
    if Unfold(table, Whole(entry), fuel).Some? && TooDear(table, resolving, fuel) {
      var least := LeastFuel(table, Whole(entry), fuel);
      left := least - 1;
      CheaperStillDear(table, resolving, fuel, left);
    }
  }

  lemma LiteralStands(table: seq<Json>, stack: seq<int>, item: Json)
    requires Placed(table, stack, item) && !item.Whole?
    ensures LiteralPlaced(table, stack, item)
  {
  }

  lemma WalkEntry(table: seq<Json>, entry: int, depth: nat)
    requires 0 <= entry < |table| && depth <= MAX_DEPTH
    ensures Walk(table, Whole(entry), depth) == WalkLiteral(table, table[entry], depth + 1)
  {
  }

  class Hydrator {
    const table: seq<Json>
    var cache: map<int, Json>
    var resolving: set<int>
    ghost var stack: seq<int>
    ghost var expanded: seq<int>

    /** `resolving` is exactly the stack of the depth-first search, a chain of references from the root; the
        cache holds finished unfoldings only; and each entry is expanded at most once. */
    ghost predicate Valid()
      reads this
    {
      Distinct(stack) && (forall i :: i in resolving <==> i in stack)
      && (stack == [] || Chain(table, stack))
      && (forall i :: i in cache ==> i !in resolving && 0 <= i < |table| && Unfold(table, Whole(i), |cache|) == Some(cache[i]))
      && (forall i :: i in stack ==> 0 <= i < |table|)
      && Distinct(expanded) && (forall i :: i in expanded <==> i in cache || i in resolving)
    }

    constructor (table: seq<Json>)
      ensures this.table == table && Valid() && stack == [] && cache == map[] && expanded == []
    {
      this.table := table;
      cache, resolving, stack, expanded := map[], {}, [], [];
    }

    method Reference(item: Json, depth: nat, ghost fuel: nat) returns (r: Option<Json>)
      requires Valid() && Placed(table, stack, item) && depth <= MAX_DEPTH + 2
      modifies this
      ensures r.Some? ==> Valid() && stack == old(stack) && resolving == old(resolving)
      ensures r.Some? ==> old(cache.Keys) <= cache.Keys && Unfold(table, item, |cache|) == r
      ensures Walk(table, item, depth).Some? && Unfold(table, item, fuel).Some? && TooDear(table, old(resolving), fuel) ==> r.Some?
      decreases MAX_DEPTH + 3 - depth, 1
    {
      hide Valid, Placed, UnfoldLiteral, WalkLiteral;
      if depth > MAX_DEPTH {
        return None;
      }
      if !item.Whole? {
        LiteralStands(table, stack, item);
        r := Literal(item, depth, fuel);
        return;
      }
      if item.value < 0 {
        return Some(Null);
      }
      if item.value >= |table| || item.value in resolving {
        return None;
      }
      if item.value in cache {
        Cached(item.value);
        return Some(cache[item.value]);
      }
      r := Expand(item.value, depth, fuel);
    }

    /** The first visit of an entry. */
    method Expand(entry: int, depth: nat, ghost fuel: nat) returns (r: Option<Json>)
      requires Valid() && Placed(table, stack, Whole(entry)) && depth <= MAX_DEPTH
      requires 0 <= entry < |table| && entry !in resolving && entry !in cache
      modifies this
      ensures r.Some? ==> Valid() && stack == old(stack) && resolving == old(resolving)
      ensures r.Some? ==> old(cache.Keys) <= cache.Keys && Unfold(table, Whole(entry), |cache|) == r
      ensures (Walk(table, Whole(entry), depth).Some? && Unfold(table, Whole(entry), fuel).Some?
               && TooDear(table, old(resolving), fuel)) ==> r.Some?
      decreases MAX_DEPTH + 3 - depth, 0
    {
      WalkEntry(table, entry, depth);
      ghost var left := EntryFuel(table, resolving, entry, fuel);
      Push(entry);
      var result := Literal(table[entry], depth + 1, left);
      if result.None? {
        return None;
      }
      NotCached(entry);
      Pop(entry, result.value);
      r := result;
    }

    lemma Cached(entry: int)
      requires Valid() && entry in cache
      ensures Unfold(table, Whole(entry), |cache|) == Some(cache[entry])
    {
    }

    lemma NotCached(entry: int)
      requires Valid() && entry in resolving
      ensures entry !in cache
    {
    }

    /** Entering an entry. */
    method Push(entry: int)
      requires Valid() && Placed(table, stack, Whole(entry)) && 0 <= entry < |table| && entry !in resolving && entry !in cache
      modifies this
      ensures Valid() && stack == old(stack) + [entry] && cache == old(cache) && resolving == old(resolving) + {entry}
      ensures LiteralPlaced(table, stack, table[entry])
    {
      hide Chain, Distinct, Unfold, Placed, Refers;
      resolving := resolving + {entry};
      stack := stack + [entry];
      expanded := expanded + [entry];
      ChainGrows(table, old(stack), entry);
      DistinctGrows(old(stack), entry);
      DistinctGrows(old(expanded), entry);
    }

    /** Leaving an entry with its finished unfolding. */
    method Pop(entry: int, result: Json)
      requires Valid() && stack != [] && stack[|stack| - 1] == entry && entry !in cache
      requires UnfoldLiteral(table, table[entry], |cache|) == Some(result)
      modifies this
      ensures Valid() && stack == old(stack)[..|old(stack)| - 1] && cache == old(cache)[entry := result]
      ensures resolving == old(resolving) - {entry}
      ensures Unfold(table, Whole(entry), |cache|) == Some(result)
    {
      cache := cache[entry := result];
      resolving := resolving - {entry};
      stack := stack[..|stack| - 1];
      assert cache.Keys == old(cache.Keys) + {entry};
      assert |cache.Keys| == |old(cache.Keys)| + 1;
      forall i | i in old(cache) ensures Unfold(table, Whole(i), |cache|) == Some(cache[i]) {
        MoreFuel(table, Whole(i), |old(cache)|, |cache|);
      }
      assert forall i :: 0 <= i < |stack| ==> stack[i] == old(stack)[i];
    }

    method Literal(item: Json, depth: nat, ghost fuel: nat) returns (r: Option<Json>)
      requires Valid() && LiteralPlaced(table, stack, item) && depth <= MAX_DEPTH + 1
      modifies this
      ensures r.Some? ==> Valid() && stack == old(stack) && resolving == old(resolving)
      ensures r.Some? ==> old(cache.Keys) <= cache.Keys && UnfoldLiteral(table, item, |cache|) == r
      ensures WalkLiteral(table, item, depth).Some? && UnfoldLiteral(table, item, fuel).Some? && TooDear(table, old(resolving), fuel) ==> r.Some?
      decreases MAX_DEPTH + 3 - depth, 0
    {
      hide Unfold, UnfoldLiteral, UnfoldChildren, Walk, WalkLiteral, WalkChildren, Rebuilt, Within, Inside, Valid;
      var children: seq<Json> := [];
      var i: nat := 0;
      NoChildren(table, item, |cache|);
      while i < Width(item)
        invariant i <= Width(item)
        invariant Valid() && stack == old(stack) && resolving == old(resolving) && old(cache.Keys) <= cache.Keys
        invariant UnfoldChildren(table, item, i, |cache|) == Some(children)
        invariant item.Object? ==> forall j :: 0 <= j < i ==> |item.fields[j].key| <= MAX_KEY
      {
        if item.Object? && |item.fields[i].key| > MAX_KEY {
          LongKeyStopsTheWalk(table, item, i, depth);
          return None;
        }
        ChildPlaced(table, stack, item, i);
        ghost var before := cache;
        var child := Reference(Child(item, i), depth + 1, fuel);
        WalkChild(table, item, i, depth, fuel);
        if child.None? {
          return None;
        }
        SubsetSize(before.Keys, cache.Keys);
        NextChild(table, item, i, |before|, |cache|, children, child.value);
        children := children + [child.value];
        i := i + 1;
      }
      AllChildren(table, item, |cache|, children);
      r := Some(Rebuilt(item, children));
    }
  }

  lemma NoChildren(table: seq<Json>, item: Json, fuel: nat)
    ensures UnfoldChildren(table, item, 0, fuel) == Some([])
  {
  }

  lemma NextChild(table: seq<Json>, item: Json, i: nat, before: nat, after: nat, children: seq<Json>, child: Json)
    requires i < Width(item) && before <= after && UnfoldChildren(table, item, i, before) == Some(children)
    requires Unfold(table, Child(item, i), after) == Some(child)
    ensures UnfoldChildren(table, item, i + 1, after) == Some(children + [child])
  {
    MoreFuelChildren(table, item, i, before, after);
  }

  lemma AllChildren(table: seq<Json>, item: Json, fuel: nat, children: seq<Json>)
    requires KeysFit(item) && UnfoldChildren(table, item, Width(item), fuel) == Some(children)
    ensures |children| == Width(item) && UnfoldLiteral(table, item, fuel) == Some(Rebuilt(item, children))
  {
  }

  lemma LongKeyStopsTheWalk(table: seq<Json>, item: Json, i: nat, depth: nat)
    requires depth <= MAX_DEPTH + 1 && item.Object? && i < |item.fields| && |item.fields[i].key| > MAX_KEY
    ensures WalkLiteral(table, item, depth).None?
  {
  }

  /** A literal that the bounded walk returns has children that it returns. */
  lemma WalkChild(table: seq<Json>, item: Json, i: nat, depth: nat, fuel: nat)
    requires i < Width(item) && depth <= MAX_DEPTH + 1
    ensures WalkLiteral(table, item, depth).Some? ==> Walk(table, Child(item, i), depth + 1).Some?
    ensures UnfoldLiteral(table, item, fuel).Some? ==> Unfold(table, Child(item, i), fuel).Some?
  {
    if WalkLiteral(table, item, depth).Some? {
      WalkChildAt(table, item, Width(item), i, depth);
    }
    if UnfoldLiteral(table, item, fuel).Some? {
      ChildUnfolds(table, item, Width(item), i, fuel);
    }
  }

  lemma {:induction false} WalkChildAt(table: seq<Json>, item: Json, n: nat, i: nat, depth: nat)
    requires i < n <= Width(item) && depth <= MAX_DEPTH + 1 && WalkChildren(table, item, n, depth).Some?
    ensures Walk(table, Child(item, i), depth + 1).Some?
    decreases n
  {
    if i < n - 1 {
      WalkChildAt(table, item, n - 1, i, depth);
    }
  }

  lemma {:induction false} BoundedSize(s: set<int>, n: nat)
    requires forall i :: i in s ==> 0 <= i < n
    ensures |s| <= n
    decreases n
  {
    if n == 0 {
      assert forall i :: i !in s;
      assert s == {};
    } else {
      BoundedSize(s - {n - 1}, n - 1);
      assert s <= (s - {n - 1}) + {n - 1};
      SubsetSize(s, (s - {n - 1}) + {n - 1});
    }
  }

  predicate Payload(value: Json) {
    value.List? && 1 <= |value.items| <= MAX_ENTRIES
  }

  /** `_hydrate_nuxt`: whenever it returns, the graph reachable from entry 0 is acyclic and in range and the
      result is its plain unfolding; and it returns whatever the traversal without a cache would return. */
  method Hydrate(value: Json) returns (r: Option<Json>)
    ensures r.Some? ==> Payload(value) && Unfold(value.items, Whole(0), |value.items|) == r
    ensures r.Some? ==> forall path :: Chain(value.items, path) ==>
              (forall i :: 0 <= i < |path| ==> 0 <= path[i] < |value.items|) && Distinct(path)
    ensures Payload(value) && Walk(value.items, Whole(0), 0).Some? ==> r == Walk(value.items, Whole(0), 0)
  {
    if !value.List? || !(1 <= |value.items| <= MAX_ENTRIES) {
      return None;
    }
    var hydrator := new Hydrator(value.items);
    if Walk(value.items, Whole(0), 0).Some? {
      WalkUnfolds(value.items, Whole(0), 0);
    }
    r := hydrator.Reference(Whole(0), 0, MAX_DEPTH + 3);
    if r.Some? {
      BoundedSize(hydrator.cache.Keys, |value.items|);
      MoreFuel(value.items, Whole(0), |hydrator.cache|, |value.items|);
      forall path | Chain(value.items, path)
        ensures (forall i :: 0 <= i < |path| ==> 0 <= path[i] < |value.items|) && Distinct(path)
      {
        UnfoldingIsAcyclic(value.items, path, |value.items|);
      }
      if Walk(value.items, Whole(0), 0).Some? {
        SameUnfolding(value.items, Whole(0), MAX_DEPTH + 3, |value.items|);
      }
    }
  }

  lemma SameUnfolding(table: seq<Json>, item: Json, a: nat, b: nat)
    requires Unfold(table, item, a).Some? && Unfold(table, item, b).Some?
    ensures Unfold(table, item, a) == Unfold(table, item, b)
  {
    if a <= b {
      MoreFuel(table, item, a, b);
    } else {
      MoreFuel(table, item, b, a);
    }
  }
}
