/** Steps of laying out, reading and walking the prefetch tree, as facts about
    values: what each keeps, and how it reads in the flat map. */
module TreeSteps {
  import opened Basics
  import opened Sorting
  import opened TreePolicy
  import opened TreeShape
  import opened TreeLayout

  /** A node with the level it enters the build at. */
  datatype Item = Item(n: nat, level: nat)

  ghost function Ids(items: seq<Item>): (r: seq<nat>)
    ensures |r| == |items|
  {
    seq(|items|, i requires 0 <= i < |items| => items[i].n)
  }

  /** The smallest level whose node size holds the leaf. */
  ghost predicate LevelFits(leafBytes: int, size: int, level: nat) {
    leafBytes * Pow2(level) >= size && (level > 0 ==> leafBytes * Pow2(level - 1) < size)
  }

  ghost predicate LimitsOk(layout: Layout, sh: Shape) {
    forall n :: 0 <= n < |sh| ==>
      if sh[n].kids == [] then LeafOk(layout.leafBytes, sh[n].entries) else 2 <= |sh[n].kids| <= layout.branching
  }

  function Small(layout: Layout, es: seq<Entry>): seq<Entry> {
    if es == [] then []
    else (if es[0].size <= layout.largeFile then [es[0]] else []) + Small(layout, es[1..])
  }

  lemma {:induction false} SmallIn(layout: Layout, es: seq<Entry>, e: Entry)
    ensures e in Small(layout, es) <==> e in es && e.size <= layout.largeFile
  {
    if es != [] {
      SmallIn(layout, es[1..], e);
    }
  }

  lemma {:induction false} SmallDistinct(layout: Layout, es: seq<Entry>)
    requires DistinctPaths(es)
    ensures DistinctPaths(Small(layout, es))
  {
    if es != [] {
      SmallDistinct(layout, es[1..]);
      forall e | e in Small(layout, es[1..]) ensures e.path != es[0].path {
        SmallIn(layout, es[1..], e);
      }
    }
  }

  lemma {:induction false} SmallStep(layout: Layout, es: seq<Entry>, i: nat)
    requires i < |es|
    ensures Small(layout, es[..i+1]) == Small(layout, es[..i])
      + (if es[i].size <= layout.largeFile then [es[i]] else [])
  {
    if i == 0 {
      assert es[..1] == [es[0]] && es[..0] == [] && [es[0]][1..] == [];
    } else {
      assert es[..i+1][1..] == es[1..][..i] && es[..i][1..] == es[1..][..i-1];
      SmallStep(layout, es[1..], i - 1);
    }
  }

  lemma {:induction false} DistinctPerm(a: seq<Entry>, b: seq<Entry>)
    requires DistinctPaths(a) && multiset(a) == multiset(b)
    ensures DistinctPaths(b)
  {
    assert Distinct(a);
    DistinctFromMultiset(a, b);
    forall i, j | 0 <= i < j < |b| ensures b[i].path != b[j].path {
      assert b[i] in multiset(a) && b[j] in multiset(a);
    }
  }

  /** A row of leaves, nothing fetched, as it is before anything is joined. */
  ghost predicate Planted(sh: Shape, st: States, sums: seq<Counters>, where: Where, ls: seq<seq<Entry>>) {
    && |sh| == |st| == |sums| == |ls|
    && (forall n :: 0 <= n < |ls| ==> sh[n] == Node(NONE, [], ls[n]) && st[n] == Fresh(|ls[n]|))
    && (forall n :: 0 <= n < |ls| ==> sums[n] == Counters(SumSizes(ls[n]), 0, 0, |ls[n]|, 0))
    && Placed(sh, where)
  }

  ghost function Range(n: nat): (r: seq<nat>)
    ensures |r| == n && forall i :: 0 <= i < n ==> r[i] == i
  {
    seq(n, i => i)
  }

  lemma {:induction false} PlantedOk(sh: Shape, st: States, sums: seq<Counters>, where: Where, ls: seq<seq<Entry>>)
    requires Planted(sh, st, sums, where, ls)
    ensures ShapeOk(sh) && StatesOk(sh, st) && SumsOk(sh, st, sums) && Loose(sh, Range(|sh|))
    ensures Row(sh, Range(|sh|)) == Flatten(ls)
  {
    forall n: nat | n < |sh| ensures NodeOk(sh, n) && StateOk(sh, st, n) {}
    forall n: nat | n < |sh| ensures sums[n] == Expected(sh, st, sums, n) {
      FreshTally(ls[n]);
    }
    forall n | 0 <= n < |sh| ensures n in Range(|sh|) {
      assert Range(|sh|)[n] == n;
    }
    assert Range(|sh|)[0..] == Range(|sh|) && ls[0..] == ls;
    RowOfLeaves(sh, ls, 0);
  }

  lemma {:induction false} RowOfLeaves(sh: Shape, ls: seq<seq<Entry>>, k: nat)
    requires |sh| == |ls| && k <= |ls| && forall n :: 0 <= n < |ls| ==> sh[n] == Node(NONE, [], ls[n])
    ensures Row(sh, Range(|sh|)[k..]) == Flatten(ls[k..])
    decreases |ls| - k
  {
    if k < |ls| {
      RowOfLeaves(sh, ls, k + 1);
      assert Range(|sh|)[k..][1..] == Range(|sh|)[k+1..] && ls[k..][1..] == ls[k+1..];
    }
  }

  lemma {:induction false} FlattenPrefix(a: seq<seq<Entry>>, b: seq<seq<Entry>>)
    requires DistinctPaths(Flatten(a + b))
    ensures DistinctPaths(Flatten(a))
  {
    FlattenConcat(a, b);
    assert [] + Flatten(a) + Flatten(b) == Flatten(a + b);
    RunIsDistinct([], Flatten(a), Flatten(b));
  }

  lemma {:induction false} InFlatten(ls: seq<seq<Entry>>, n: nat, i: nat)
    requires n < |ls| && i < |ls[n]|
    ensures ls[n][i] in Flatten(ls)
  {
    if n > 0 {
      InFlatten(ls[1..], n - 1, i);
    }
  }

  /** Paths of a new leaf are nowhere yet. */
  lemma {:induction false} NewLeafIsNew(sh: Shape, where: Where, ls: seq<seq<Entry>>, es: seq<Entry>)
    requires |sh| == |ls| && (forall n :: 0 <= n < |ls| ==> sh[n] == Node(NONE, [], ls[n])) && Placed(sh, where)
    requires DistinctPaths(Flatten(ls + [es]))
    ensures DistinctPaths(es) && forall e :: e in es ==> e.path !in where
  {
    FlattenConcat(ls, [es]);
    FlattenOne(es);
    RunIsDistinct(Flatten(ls), es, []);
    assert Flatten(ls) + es + [] == Flatten(ls + [es]);
    ConcatDistinct(Flatten(ls), es);
    forall e | e in es ensures e.path !in where {
      if e.path in where {
        InFlatten(ls, where[e.path].leaf, where[e.path].idx);
      }
    }
  }

  lemma {:induction false} ConcatDistinct(a: seq<Entry>, b: seq<Entry>)
    requires DistinctPaths(a + b)
    ensures forall x, y :: x in a && y in b ==> x.path != y.path
  {
    forall x, y | x in a && y in b ensures x.path != y.path {
      var i :| 0 <= i < |a| && a[i] == x;
      var j :| 0 <= j < |b| && b[j] == y;
      assert (a + b)[i] == x && (a + b)[|a| + j] == y;
    }
  }

  /** where after the first i files of leaf n were entered. */
  function Entered(where: Where, n: nat, es: seq<Entry>, i: nat): Where
    requires i <= |es|
  {
    if i == 0 then where else Entered(where, n, es, i - 1)[es[i-1].path := Location(n, i - 1)]
  }

  lemma {:induction false} EnteredHolds(where: Where, n: nat, es: seq<Entry>, i: nat)
    requires i <= |es| && DistinctPaths(es) && forall e :: e in es ==> e.path !in where
    ensures var w := Entered(where, n, es, i);
            && (forall q :: q in where ==> q in w && w[q] == where[q])
            && (forall j :: 0 <= j < i ==> es[j].path in w && w[es[j].path] == Location(n, j))
            && (forall q :: q in w && q !in where ==> w[q].leaf == n && w[q].idx < i && es[w[q].idx].path == q)
  {
    if i > 0 {
      EnteredHolds(where, n, es, i - 1);
      assert es[i-1] in es;
    }
  }

  lemma {:induction false} PlacedGrows(sh: Shape, where: Where, es: seq<Entry>)
    requires Placed(sh, where) && DistinctPaths(es) && forall e :: e in es ==> e.path !in where
    ensures Placed(WithLeaf(sh, es), Entered(where, |sh|, es, |es|))
  {
    var sh', w := WithLeaf(sh, es), Entered(where, |sh|, es, |es|);
    EnteredHolds(where, |sh|, es, |es|);
    forall n, i | 0 <= n < |sh'| && 0 <= i < |sh'[n].entries|
      ensures sh'[n].entries[i].path in w && w[sh'[n].entries[i].path] == Location(n, i)
    {
      if n < |sh| {
        assert sh[n].entries[i].path in where;
      }
    }
    forall q | q in w
      ensures w[q].leaf < |sh'| && w[q].idx < |sh'[w[q].leaf].entries| && sh'[w[q].leaf].entries[w[q].idx].path == q
    {
      if q in where {
        assert sh'[where[q].leaf] == sh[where[q].leaf];
      }
    }
  }

  lemma {:induction false} PlantedGrows(sh: Shape, st: States, sums: seq<Counters>, where: Where, ls: seq<seq<Entry>>,
      es: seq<Entry>)
    requires Planted(sh, st, sums, where, ls) && DistinctPaths(Flatten(ls + [es]))
    ensures Planted(WithLeaf(sh, es), st + [Fresh(|es|)], sums + [Counters(SumSizes(es), 0, 0, |es|, 0)],
                    Entered(where, |sh|, es, |es|), ls + [es])
  {
    NewLeafIsNew(sh, where, ls, es);
    PlacedGrows(sh, where, es);
  }

  /** The items of a run of leaves numbered from base, each at the smallest
      level that holds it. */
  ghost predicate ItemsFor(leafBytes: int, items: seq<Item>, base: nat, ls: seq<seq<Entry>>) {
    && |items| == |ls|
    && (forall j :: 0 <= j < |ls| ==> items[j].n == base + j && LevelFits(leafBytes, SumSizes(ls[j]), items[j].level))
  }

  lemma {:induction false} ItemsConcat(leafBytes: int, a: seq<Item>, la: seq<seq<Entry>>, b: seq<Item>,
      lb: seq<seq<Entry>>)
    requires ItemsFor(leafBytes, a, 0, la) && ItemsFor(leafBytes, b, |la|, lb)
    ensures ItemsFor(leafBytes, a + b, 0, la + lb)
  {
  }

  /** The new tree's states once all but todo have been carried over by path. */
  ghost function Partly(where: Where, prev: Flat, todo: set<string>): Flat {
    map q | q in where :: if q !in todo && q in prev then prev[q] else UNTOUCHED
  }

  ghost function Carried(where: Where, prev: Flat): Flat {
    Partly(where, prev, {})
  }

  lemma {:induction false} NoneCarried(where: Where, prev: Flat)
    ensures Carried(where, map[]) == Partly(where, prev, where.Keys)
  {
  }

  lemma {:induction false} PartlyStep(where: Where, prev: Flat, todo: set<string>, q: string)
    requires q in todo && q in where
    ensures Partly(where, prev, todo - {q})
      == if q in prev then Partly(where, prev, todo)[q := prev[q]] else Partly(where, prev, todo)
  {
  }

  function MaxLevel(items: seq<Item>): nat {
    if items == [] then 0
    else if items[0].level > MaxLevel(items[1..]) then items[0].level else MaxLevel(items[1..])
  }

  lemma {:induction false} MaxLevelBounds(items: seq<Item>, m: nat)
    ensures (forall i :: 0 <= i < |items| ==> items[i].level <= m) <==> MaxLevel(items) <= m
  {
    if items != [] {
      MaxLevelBounds(items[1..], m);
      assert forall i :: 0 <= i < |items[1..]| ==> items[1..][i] == items[i+1];
      assert forall i :: 0 < i < |items| ==> items[i] == items[1..][i-1];
    }
  }

  lemma {:induction false} LimitsJoined(layout: Layout, sh: Shape, ks: seq<nat>)
    requires LimitsOk(layout, sh) && 2 <= |ks| <= layout.branching
    ensures LimitsOk(layout, Joined(sh, ks))
  {
    var sh' := Joined(sh, ks);
    assert forall n :: 0 <= n < |sh| ==> sh'[n].entries == sh[n].entries && sh'[n].kids == sh[n].kids;
  }

  lemma {:induction false} IdsConcat(a: seq<Item>, b: seq<Item>)
    ensures Ids(a + b) == Ids(a) + Ids(b)
  {
  }

  ghost predicate AllWithin(items: seq<Item>, most: nat) {
    forall i :: 0 <= i < |items| ==> items[i].level <= most
  }

  lemma {:induction false} PlacedIsUnder(sh: Shape, where: Where, root: nat, q: string)
    requires ShapeOk(sh) && Placed(sh, where) && root < |sh| && Loose(sh, [root]) && q in where
    requires DistinctPaths(Under(sh, root))
    ensures sh[where[q].leaf].entries[where[q].idx] in Under(sh, root)
  {
    var n := where[q].leaf;
    assert NodeOk(sh, n);
    UnderRoot(sh, root, n);
  }

  /** The files under the root are the files the index knows. */
  lemma {:induction false} RootPaths(sh: Shape, where: Where, root: nat)
    requires ShapeOk(sh) && Placed(sh, where) && root < |sh| && Loose(sh, [root])
    requires DistinctPaths(Under(sh, root))
    ensures Paths(Under(sh, root)) == where.Keys
  {
    forall q | q in where ensures q in Paths(Under(sh, root)) {
      PlacedIsUnder(sh, where, root, q);
    }
    forall e | e in Under(sh, root) ensures e.path in where {
      UnderIsPlaced(sh, where, root, e);
    }
  }

  /** A row of fresh leaves is ready to be joined. */
  lemma {:induction false} PlantedIsFresh(sh: Shape, st: States, sums: seq<Counters>, where: Where, ls: seq<seq<Entry>>)
    requires Planted(sh, st, sums, where, ls)
    ensures FlatOf(where, st) == Carried(where, map[])
  {
    forall q | q in where
      ensures where[q].leaf < |st| && where[q].idx < |st[where[q].leaf]|
        && st[where[q].leaf][where[q].idx] == UNTOUCHED {
      assert sh[where[q].leaf] == Node(NONE, [], ls[where[q].leaf]);
    }
  }

  lemma {:induction false} PlantedLimits(layout: Layout, sh: Shape, st: States, sums: seq<Counters>, where: Where,
      es: seq<Entry>)
    requires Planted(sh, st, sums, where, Leaves(layout, es, []))
    ensures LimitsOk(layout, sh)
  {
    LeavesWithinLimits(layout, es, []);
  }

  lemma {:induction false} LeavesDistinct(layout: Layout, es: seq<Entry>)
    requires DistinctPaths(es)
    ensures multiset(Flatten(Leaves(layout, es, []))) == multiset(es) && DistinctPaths(Flatten(Leaves(layout, es, [])))
  {
    LeavesHoldAll(layout, es, []);
    DistinctPerm(es, Flatten(Leaves(layout, es, [])));
  }

  lemma {:induction false} SamePaths(a: seq<Entry>, b: seq<Entry>)
    requires multiset(a) == multiset(b)
    ensures Paths(a) == Paths(b) && forall e :: e in a <==> e in b
  {
    forall e ensures e in a <==> e in b {
      assert e in a <==> e in multiset(a);
      assert e in b <==> e in multiset(b);
    }
  }

  /** States that fit the files: none read past its size, none stored and read. */
  ghost predicate Fits(es: seq<Entry>, fl: Flat) {
    forall e :: e in es && e.path in fl ==> fl[e.path].read <= e.size && (fl[e.path].stored ==> fl[e.path].read == 0)
  }

  lemma {:induction false} EntryOfPath(sh: Shape, where: Where, ls: seq<seq<Entry>>, q: string)
    requires |sh| == |ls| && (forall n :: 0 <= n < |ls| ==> sh[n] == Node(NONE, [], ls[n])) && Placed(sh, where)
      && q in where
    ensures sh[where[q].leaf].entries[where[q].idx] in Flatten(ls)
  {
    InFlatten(ls, where[q].leaf, where[q].idx);
  }

  lemma {:induction false} SameEntry(es: seq<Entry>, x: Entry, y: Entry)
    requires DistinctPaths(es) && x in es && y in es && x.path == y.path
    ensures x == y
  {
    var i :| 0 <= i < |es| && es[i] == x;
    var j :| 0 <= j < |es| && es[j] == y;
  }

  lemma {:induction false} SmallGrows(layout: Layout, a: seq<Entry>, b: seq<Entry>)
    ensures Paths(Small(layout, a)) <= Paths(Small(layout, a + b))
  {
    forall e | e in Small(layout, a) ensures e in Small(layout, a + b) {
      SmallIn(layout, a, e);
      SmallIn(layout, a + b, e);
    }
  }

  lemma {:induction false} SmallLink(l: Layout, l': Layout, es: seq<Entry>)
    requires l.largeFile == l'.largeFile
    ensures Small(l, es) == Small(l', es)
  {
    if es != [] {
      SmallLink(l, l', es[1..]);
    }
  }

  /** Everything a node, a leaf's states, the counters and `where` have to agree on. */
  ghost predicate IndexOk(sh: Shape, st: States, sums: seq<Counters>, where: Where) {
    ShapeOk(sh) && StatesOk(sh, st) && SumsOk(sh, st, sums) && Placed(sh, where)
  }

  /** The flat map has each file's state as its leaf does. */
  lemma {:induction false} StateAt(sh: Shape, st: States, where: Where, leaf: nat, i: nat)
    requires Placed(sh, where) && leaf < |sh| && i < |sh[leaf].entries| && leaf < |st| && i < |st[leaf]|
    ensures var q := sh[leaf].entries[i].path; q in FlatOf(where, st) && FlatOf(where, st)[q] == st[leaf][i]
  {
    assert where[sh[leaf].entries[i].path] == Location(leaf, i);
  }

  /** One file's new state, its difference added from the leaf upward. */
  lemma {:induction false} Restated(sh: Shape, st: States, sums: seq<Counters>, where: Where, leaf: nat, i: nat,
      to: FileState, delta: Counters)
    requires IndexOk(sh, st, sums, where) && leaf < |sh| && i < |sh[leaf].entries| && i < |st[leaf]|
    requires to.read <= sh[leaf].entries[i].size && (to.stored ==> to.read == 0)
    requires delta == Minus(Share(sh[leaf].entries[i], to), Share(sh[leaf].entries[i], st[leaf][i]))
    ensures var st' := st[leaf := st[leaf][i := to]];
            && IndexOk(sh, st', AddUp(sh, sums, leaf, delta), where)
            && FlatOf(where, st') == FlatOf(where, st)[sh[leaf].entries[i].path := to]
  {
    Restate(sh, st, sums, leaf, i, to);
    FlatUpdate(sh, st, where, leaf, i, to);
  }

  lemma {:induction false} AddNothing(sh: Shape, sums: seq<Counters>, n: nat)
    requires |sums| == |sh| && n < |sh|
    ensures AddUp(sh, sums, n, ZERO) == sums
  {
    AddUpLength(sh, sums, n, ZERO);
    forall m: nat | m < |sh| ensures AddUp(sh, sums, n, ZERO)[m] == sums[m] {
      AddUpAt(sh, sums, n, ZERO, m);
    }
  }

  /** What was stored is still. */
  ghost predicate Kept(fl: Flat, fl': Flat) {
    forall q :: StateOf(fl, q).stored ==> StateOf(fl', q).stored
  }

  ghost predicate AllStored(es: seq<Entry>, fl: Flat) {
    forall e :: e in es ==> StateOf(fl, e.path).stored
  }

  lemma {:induction false} KeptAll(es: seq<Entry>, fl: Flat, fl': Flat)
    requires AllStored(es, fl) && Kept(fl, fl')
    ensures AllStored(es, fl')
  {
  }

  /** The flat map once the first j files were put back. */
  ghost function PutBack(es: seq<Entry>, j: nat, fl: Flat): Flat
    requires j <= |es|
  {
    if j == 0 then fl
    else
      var was, q := PutBack(es, j - 1, fl), es[j-1].path;
      if q in was && was[q].stored then was[q := UNTOUCHED] else was
  }

  ghost predicate Listed(es: seq<Entry>, j: nat, q: string)
    requires j <= |es|
  {
    exists i :: 0 <= i < j && es[i].path == q
  }

  lemma {:induction false} PutBackAt(es: seq<Entry>, j: nat, fl: Flat)
    requires j <= |es|
    ensures PutBack(es, j, fl).Keys == fl.Keys
    ensures forall q ::
      q in fl ==> PutBack(es, j, fl)[q] == if fl[q].stored && Listed(es, j, q) then UNTOUCHED else fl[q]
  {
    if j > 0 {
      PutBackAt(es, j - 1, fl);
      forall q | q in fl ensures Listed(es, j, q) <==> Listed(es, j - 1, q) || q == es[j-1].path {
        assert es[j-1].path == q ==> Listed(es, j, q);
      }
    }
  }

  lemma {:induction false} PutBackAll(es: seq<Entry>, fl: Flat)
    ensures PutBack(es, |es|, fl) == UnstoreAll(es, fl)
  {
    PutBackAt(es, |es|, fl);
    forall q | q in fl ensures Listed(es, |es|, q) <==> q in Paths(es) {
      if q in Paths(es) {
        var e :| e in es && e.path == q;
        var i :| 0 <= i < |es| && es[i] == e;
      }
    }
  }

  /** Opening the last node of a stack leaves the files in order; a leaf's are
      the last ones; and either way less is left to walk. */
  lemma {:induction false} Opened(sh: Shape, rest: seq<nat>, at: nat)
    requires ShapeOk(sh) && at < |sh|
    ensures forall j :: 0 <= j < |sh[at].kids| ==> sh[at].kids[j] < |sh|
    ensures sh[at].kids != [] ==> Row(sh, rest + sh[at].kids) == Row(sh, rest + [at])
    ensures sh[at].kids == [] ==> Row(sh, rest + [at]) == Row(sh, rest) + sh[at].entries
    ensures WeightAll(sh, rest + sh[at].kids, |sh|) < WeightAll(sh, rest + [at], |sh|)
    ensures WeightAll(sh, rest, |sh|) < WeightAll(sh, rest + [at], |sh|)
  {
    assert NodeOk(sh, at);
    RowConcat(sh, rest, sh[at].kids);
    RowConcat(sh, rest, [at]);
    RowIsUnderAll(sh, sh[at].kids, at);
    assert [at][1..] == [] && Row(sh, []) == [];
    OpeningIsLighter(sh, rest, at);
    WeightConcat(sh, rest, sh[at].kids, |sh|);
  }

  lemma {:induction false} DrainedAll(es: seq<Entry>, fl: Flat, out: seq<Entry>, fl': Flat)
    requires Stores(es, fl, out, fl') && DistinctPaths(es) && FlatOk(es, fl) && AllStored(es, fl')
    ensures fl' == StoreAll(es, fl) && SumSizes(out) == Left(es, fl)
  {
    forall e | e in es ensures fl'[e.path].stored {
      assert StateOf(fl', e.path).stored;
    }
    StoresAllOf(es, fl, out, fl');
  }

  /** The chain from a node to the root as the policy sees it. */
  ghost function Groups(sh: Shape, chain: seq<nat>): seq<Group> {
    if chain == [] then []
    else [Group(Under(sh, chain[0]), chain[0] < |sh| && sh[chain[0]].kids == [])] + Groups(sh, chain[1..])
  }

  lemma {:induction false} GroupsUp(sh: Shape, at: nat)
    requires ShapeOk(sh) && at < |sh|
    ensures Groups(sh, Chain(sh, at)) == [Group(Under(sh, at), sh[at].kids == [])]
      + Groups(sh, Chain(sh, sh[at].parent))
  {
    assert NodeOk(sh, at);
    if sh[at].parent == NONE {
      assert Chain(sh, at) == [at] && Chain(sh, NONE) == [] && [at][1..] == [];
    } else {
      assert Chain(sh, at)[1..] == Chain(sh, sh[at].parent);
    }
  }

  /** One group's turn in the climb: what is stored, and whether to stop. */
  ghost predicate Turn(policy: Policy, g: Group, fl: Flat, total: int, sent: seq<Entry>, stop: bool, fl': Flat) {
    var c := Tally(g.files, fl);
    var left := c.bytes - c.fetched;
    if left == 0 then sent == [] && !stop && fl' == fl
    else if total + left > policy.cap then sent == [] && stop && fl' == fl
    else if !policy.earns(g.leaf, c, g.leaf && Unread(g.files, fl)) then sent == [] && !stop && fl' == fl
    else !stop && Stores(g.files, fl, sent, fl') && fl' == StoreAll(g.files, fl) && SumSizes(sent) == left
  }

  lemma {:induction false} TurnClimbs(policy: Policy, g: Group, rest: seq<Group>, fl: Flat, total: int,
      sent: seq<Entry>, stop: bool, fl': Flat)
    requires Turn(policy, g, fl, total, sent, stop, fl')
    ensures Climb(policy, [g] + rest, fl, total)
      == if stop then fl' else Climb(policy, rest, fl', total + SumSizes(sent))
    ensures SumSizes(sent) == 0 || total + SumSizes(sent) <= policy.cap
    ensures Stores(g.files, fl, sent, fl')
  {
    assert ([g] + rest)[1..] == rest && ([g] + rest)[0] == g;
    StoresNothing(g.files, fl);
  }

  lemma {:induction false} StoresWithin(es: seq<Entry>, all: seq<Entry>, fl: Flat, out: seq<Entry>, fl': Flat)
    requires Stores(es, fl, out, fl') && forall e :: e in es ==> e in all
    ensures Stores(all, fl, out, fl')
  {
  }

  lemma {:induction false} SumSizesConcat(a: seq<Entry>, b: seq<Entry>)
    ensures SumSizes(a + b) == SumSizes(a) + SumSizes(b)
  {
    if b == [] {
      assert a + b == a;
    } else {
      assert (a + b)[..|a + b|-1] == a + b[..|b|-1];
      SumSizesConcat(a, b[..|b|-1]);
    }
  }

  /** A candidate of the walk's tail: an unstored file and where it is. */
  datatype Cand = Cand(at: Location, e: Entry)

  predicate CandLe(x: Cand, y: Cand) { BySizePath(x.e, y.e) }

  function Files(cs: seq<Cand>): (r: seq<Entry>)
    ensures |r| == |cs|
  {
    seq(|cs|, i requires 0 <= i < |cs| => cs[i].e)
  }

  lemma {:induction false} InsertFiles(c: Cand, cs: seq<Cand>)
    ensures Files(Insert(c, cs, CandLe)) == Insert(c.e, Files(cs), BySizePath)
  {
    if cs == [] || CandLe(c, cs[0]) {
      assert Files([c] + cs) == [c.e] + Files(cs);
    } else {
      InsertFiles(c, cs[1..]);
      assert Files(cs)[1..] == Files(cs[1..]);
      assert Files([cs[0]] + Insert(c, cs[1..], CandLe)) == [cs[0].e] + Files(Insert(c, cs[1..], CandLe));
    }
  }

  /** Sorting candidates sorts their files. */
  lemma {:induction false} SortFiles(cs: seq<Cand>)
    ensures Files(Sort(cs, CandLe)) == Sort(Files(cs), BySizePath)
  {
    if cs != [] {
      SortFiles(cs[1..]);
      InsertFiles(cs[0], Sort(cs[1..], CandLe));
      FirstFile(cs);
      SortHead(Files(cs), BySizePath);
      SortHead(cs, CandLe);
    }
  }

  lemma {:induction false} FirstFile(cs: seq<Cand>)
    requires cs != []
    ensures Files(cs)[0] == cs[0].e && Files(cs)[1..] == Files(cs[1..])
  {
  }

  lemma {:induction false} SortHead<T>(s: seq<T>, le: (T, T) -> bool)
    requires s != []
    ensures Sort(s, le) == Insert(s[0], Sort(s[1..], le), le)
  {
  }

  lemma {:induction false} UnstoredUpTo(es: seq<Entry>, i: nat, fl: Flat)
    requires i < |es|
    ensures UnstoredOf(es[..i + 1], fl) == UnstoredOf(es[..i], fl)
      + if StateOf(fl, es[i].path).stored then [] else [es[i]]
  {
    assert es[..i + 1] == es[..i] + [es[i]] && [es[i]][1..] == [];
    UnstoredConcat(es[..i], [es[i]], fl);
  }

  lemma {:induction false} FilesMore(cs: seq<Cand>, c: Cand)
    ensures Files(cs + [c]) == Files(cs) + [c.e]
  {
  }

  ghost predicate CandOk(sh: Shape, c: Cand) {
    c.at.leaf < |sh| && c.at.idx < |sh[c.at.leaf].entries| && sh[c.at.leaf].entries[c.at.idx] == c.e
  }

  ghost predicate CandsOk(sh: Shape, cs: seq<Cand>) {
    forall c :: c in cs ==> CandOk(sh, c)
  }

  lemma {:induction false} SortKeepsCands(sh: Shape, cs: seq<Cand>)
    requires CandsOk(sh, cs)
    ensures CandsOk(sh, Sort(cs, CandLe))
  {
    forall c | c in Sort(cs, CandLe) ensures CandOk(sh, c) {
      assert c in multiset(Sort(cs, CandLe));
    }
  }

  lemma {:induction false} SameSort(a: seq<Entry>, b: seq<Entry>)
    requires multiset(a) == multiset(b)
    ensures Sort(a, BySizePath) == Sort(b, BySizePath)
  {
    BySizePathOrders();
    SortIsSorted(a, BySizePath);
    SortIsSorted(b, BySizePath);
    SortedUnique(Sort(a, BySizePath), Sort(b, BySizePath), BySizePath);
  }

  /** What was found and what is still to be walked make up all. */
  ghost predicate Balanced(found: seq<Entry>, row: seq<Entry>, fl: Flat, all: seq<Entry>) {
    multiset(found) + multiset(UnstoredOf(row, fl)) == multiset(UnstoredOf(all, fl))
  }

  lemma {:induction false} TakenLeaf(row: seq<Entry>, leaf: seq<Entry>, fl: Flat, was: seq<Entry>, now: seq<Entry>,
      all: seq<Entry>)
    requires now == was + UnstoredOf(leaf, fl) && Balanced(was, row + leaf, fl, all)
    ensures Balanced(now, row, fl, all)
  {
    UnstoredConcat(row, leaf, fl);
  }

  lemma {:induction false} SplitLast(s: seq<nat>)
    requires s != []
    ensures s == s[..|s|-1] + [s[|s|-1]]
  {
  }

  lemma {:induction false} RowOfOne(sh: Shape, n: nat)
    ensures Row(sh, [n]) == Under(sh, n)
  {
    assert [n][1..] == [] && Row(sh, []) == [];
  }

  /** Distinct files of all, none stored. */
  ghost predicate Untaken(es: seq<Entry>, all: seq<Entry>, fl: Flat) {
    DistinctPaths(es) && forall e :: e in es ==> e in all && !StateOf(fl, e.path).stored
  }

  /** Storing the first i leaves the next as it was. */
  lemma {:induction false} NextUntaken(es: seq<Entry>, all: seq<Entry>, fl: Flat, i: nat)
    requires Untaken(es, all, fl) && i < |es|
    ensures es[i] in all && !StateOf(fl, es[i].path).stored
    ensures StateOf(StoreAll(es[..i], fl), es[i].path) == StateOf(fl, es[i].path)
  {
    assert es[i] in es && es[i].path !in Paths(es[..i]);
  }

  lemma {:induction false} Gathered(all: seq<Entry>, fl: Flat, out: seq<Entry>, fl': Flat, sent: seq<Entry>, fl'': Flat)
    requires Stores(all, fl, out, fl') && Stores(all, fl', sent, fl'')
    ensures Stores(all, fl, out + sent, fl'') && SumSizes(out + sent) == SumSizes(out) + SumSizes(sent)
  {
    StoresThen(all, fl, out, fl', sent, fl'');
    SumSizesConcat(out, sent);
  }

  /** The climb from at on, with out already taken, ends in goal. */
  ghost predicate ComesTo(policy: Policy, sh: Shape, at: int, fl: Flat, out: seq<Entry>, goal: Flat) {
    Climb(policy, Groups(sh, Chain(sh, at)), fl, SumSizes(out)) == goal
  }

  /** One turn brings the climb to the parent, or ends it. */
  lemma {:induction false} TurnComes(policy: Policy, sh: Shape, at: nat, fl: Flat, out: seq<Entry>, sent: seq<Entry>,
      stop: bool, fl': Flat, goal: Flat)
    requires ShapeOk(sh) && at < |sh| && ComesTo(policy, sh, at, fl, out, goal)
    requires Turn(policy, Group(Under(sh, at), sh[at].kids == []), fl, SumSizes(out), sent, stop, fl')
    ensures ComesTo(policy, sh, if stop then NONE else sh[at].parent, fl', out + sent, goal)
    ensures Stores(Under(sh, at), fl, sent, fl')
    ensures SumSizes(sent) == 0 || SumSizes(out) + SumSizes(sent) <= policy.cap
  {
    GroupsUp(sh, at);
    TurnEnds(policy, Group(Under(sh, at), sh[at].kids == []), Groups(sh, Chain(sh, sh[at].parent)), fl, out, sent, stop,
      fl', goal);
    NothingAbove(policy, sh, fl', out + sent);
  }

  lemma {:induction false} TurnEnds(policy: Policy, g: Group, rest: seq<Group>, fl: Flat, out: seq<Entry>,
      sent: seq<Entry>, stop: bool, fl': Flat, goal: Flat)
    requires Climb(policy, [g] + rest, fl, SumSizes(out)) == goal && Turn(policy, g, fl, SumSizes(out), sent, stop, fl')
    ensures if stop then goal == fl' else Climb(policy, rest, fl', SumSizes(out + sent)) == goal
    ensures Stores(g.files, fl, sent, fl')
    ensures SumSizes(sent) == 0 || SumSizes(out) + SumSizes(sent) <= policy.cap
  {
    SumSizesConcat(out, sent);
    TurnClimbs(policy, g, rest, fl, SumSizes(out), sent, stop, fl');
  }

  lemma {:induction false} NothingAbove(policy: Policy, sh: Shape, fl: Flat, out: seq<Entry>)
    ensures ComesTo(policy, sh, NONE, fl, out, fl)
  {
    assert Chain(sh, NONE) == [];
    assert Groups(sh, []) == [];
  }

  // ----- a walk order placed up to a point

  /** The leaves done, and those of the window and of what is still to come, are
      all the leaves. Given to a proof only where one of the lemmas below is. */
  ghost predicate PlacedTo(layout: Layout, all: seq<seq<Entry>>, done: seq<seq<Entry>>, es: seq<Entry>, i: nat,
      window: seq<Entry>)
  {
    forall k {:trigger Unlocked(k)} :: Unlocked(k) ==> i <= |es| && all == done + Leaves(layout, es[i..], window)
  }

  lemma {:induction false} PlacedNone(layout: Layout, es: seq<Entry>)
    ensures PlacedTo(layout, Leaves(layout, es, []), [], es, 0, [])
  {
    assert es[0..] == es && [] + Leaves(layout, es, []) == Leaves(layout, es, []);
  }

  lemma {:induction false} PlacedAll(layout: Layout, all: seq<seq<Entry>>, done: seq<seq<Entry>>, es: seq<Entry>,
      window: seq<Entry>)
    requires PlacedTo(layout, all, done, es, |es|, window)
    ensures all == done + Leaves(layout, [], window)
  {
    assert Unlocked(0) && es[|es|..] == [];
  }

  lemma {:induction false} PlacedMore(layout: Layout, all: seq<seq<Entry>>, done: seq<seq<Entry>>, es: seq<Entry>,
      i: nat, window: seq<Entry>)
    requires i < |es| && PlacedTo(layout, all, done, es, i, window)
    ensures SumSizes(window + [es[i]]) == SumSizes(window) + es[i].size
    ensures var w := window + [es[i]];
            if SumSizes(w) >= layout.leafBytes * layout.windowLeaves
            then var cut := Cut(layout.leafBytes, Sort(w, BySizePath), []);
                 all == done + cut + Leaves(layout, es[i+1..], []) && PlacedTo(layout, all, done + cut, es, i + 1, [])
            else PlacedTo(layout, all, done, es, i + 1, w)
  {
    assert Unlocked(0) && es[i..] == [es[i]] + es[i+1..];
    LeavesStep(layout, es[i], es[i+1..], window);
    if SumSizes(window + [es[i]]) >= layout.leafBytes * layout.windowLeaves {
      Regroup(all, done, Cut(layout.leafBytes, Sort(window + [es[i]], BySizePath), []), Leaves(layout, es[i+1..], []));
    }
  }

  lemma {:induction false} Regroup(all: seq<seq<Entry>>, done: seq<seq<Entry>>, cut: seq<seq<Entry>>,
      after: seq<seq<Entry>>)
    requires all == done + (cut + after)
    ensures all == done + cut + after
  {
  }

  /** The same for the leaves of one sorted window. */
  ghost predicate CutTo(leafBytes: int, all: seq<seq<Entry>>, done: seq<seq<Entry>>, window: seq<Entry>, i: nat,
      cur: seq<Entry>)
  {
    forall k {:trigger Unlocked(k)} :: Unlocked(k) ==> i <= |window| && all == done + Cut(leafBytes, window[i..], cur)
  }

  lemma {:induction false} CutNone(leafBytes: int, window: seq<Entry>)
    ensures CutTo(leafBytes, Cut(leafBytes, window, []), [], window, 0, [])
  {
    assert window[0..] == window && [] + Cut(leafBytes, window, []) == Cut(leafBytes, window, []);
  }

  lemma {:induction false} CutAll(leafBytes: int, all: seq<seq<Entry>>, done: seq<seq<Entry>>, window: seq<Entry>,
      cur: seq<Entry>)
    requires CutTo(leafBytes, all, done, window, |window|, cur)
    ensures all == done + Full(cur) && done + Full(cur) + [] == all
  {
    assert Unlocked(0) && window[|window|..] == [];
  }

  lemma {:induction false} CutMore(leafBytes: int, all: seq<seq<Entry>>, done: seq<seq<Entry>>, window: seq<Entry>,
      i: nat, cur: seq<Entry>)
    requires i < |window| && CutTo(leafBytes, all, done, window, i, cur)
    ensures SumSizes(cur + [window[i]]) == SumSizes(cur) + window[i].size && SumSizes([window[i]]) == window[i].size
    ensures var e, rest := window[i], window[i+1..];
            if e.size > leafBytes
            then all == done + Full(cur) + [[e]] + Cut(leafBytes, rest, [])
              && CutTo(leafBytes, all, done + Full(cur) + [[e]], window, i + 1, [])
            else if SumSizes(cur) + e.size > leafBytes && |cur| > 0
            then all == done + Full(cur) + Cut(leafBytes, rest, [e])
              && CutTo(leafBytes, all, done + Full(cur), window, i + 1, [e])
            else CutTo(leafBytes, all, done, window, i + 1, cur + [e])
  {
    var e, rest := window[i], window[i+1..];
    assert Unlocked(0) && window[i..] == [e] + rest;
    CutStep(leafBytes, e, rest, cur);
    if e.size > leafBytes {
      Regroup(all, done, Full(cur) + [[e]], Cut(leafBytes, rest, []));
      Regroup(done + (Full(cur) + [[e]]), done, Full(cur), [[e]]);
    } else if SumSizes(cur) + e.size > leafBytes && |cur| > 0 {
      Regroup(all, done, Full(cur), Cut(leafBytes, rest, [e]));
    }
  }

  // ----- candidates taken up to a point

  /** The first i candidates are stored and nothing else is; the rest of the taking
      is still what it was to be. */
  ghost predicate Taken(cs: seq<Cand>, all: seq<Entry>, fl: Flat, maxBytes: int, maxFiles: int, i: nat, size: nat,
      out: seq<Entry>, now: Flat)
  {
    forall k {:trigger Unlocked(k)} :: Unlocked(k) ==>
      && i <= |Files(cs)| && out == Files(cs)[..i] && Stores(all, fl, out, now)
      && TakeCount(Files(cs), maxBytes, maxFiles, i, size) == TakeCount(Files(cs), maxBytes, maxFiles, 0, 0)
  }

  lemma {:induction false} TakenNone(cs: seq<Cand>, all: seq<Entry>, fl: Flat, maxBytes: int, maxFiles: int)
    ensures Taken(cs, all, fl, maxBytes, maxFiles, 0, 0, [], fl)
  {
    StoresNothing(all, fl);
  }

  lemma {:induction false} TakenSoFar(cs: seq<Cand>, all: seq<Entry>, fl: Flat, maxBytes: int, maxFiles: int, i: nat,
      size: nat, out: seq<Entry>, now: Flat)
    requires Taken(cs, all, fl, maxBytes, maxFiles, i, size, out, now) && i < |cs|
    ensures |Files(cs)| == |cs| && Files(cs)[i] == cs[i].e && out == Files(cs)[..i] && Stores(all, fl, out, now)
    ensures TakeCount(Files(cs), maxBytes, maxFiles, i, size) == TakeCount(Files(cs), maxBytes, maxFiles, 0, 0)
    ensures i >= maxFiles || (i > 0 && size + cs[i].e.size > maxBytes) ==>
      TakeCount(Files(cs), maxBytes, maxFiles, i, size) == i
  {
    assert Unlocked(0);
  }

  lemma {:induction false} TakenOne(cs: seq<Cand>, all: seq<Entry>, fl: Flat, maxBytes: int, maxFiles: int, i: nat,
      size: nat, out: seq<Entry>, now: Flat)
    requires i < |cs| && |Files(cs)| == |cs| && Files(cs)[i] == cs[i].e && out == Files(cs)[..i+1]
      && Stores(all, fl, out, now)
    requires TakeCount(Files(cs), maxBytes, maxFiles, i, size) == TakeCount(Files(cs), maxBytes, maxFiles, 0, 0)
    requires !(i >= maxFiles || (i > 0 && size + cs[i].e.size > maxBytes))
    ensures Taken(cs, all, fl, maxBytes, maxFiles, i + 1, size + cs[i].e.size, out, now)
  {
  }

  lemma {:induction false} TakenAll(cs: seq<Cand>, all: seq<Entry>, fl: Flat, maxBytes: int, maxFiles: int, i: nat,
      size: nat, out: seq<Entry>, now: Flat)
    requires Taken(cs, all, fl, maxBytes, maxFiles, i, size, out, now) && i <= |cs|
    requires i == |cs| || TakeCount(Files(cs), maxBytes, maxFiles, i, size) == i
    ensures out == Files(cs)[..TakeCount(Files(cs), maxBytes, maxFiles, 0, 0)] && Stores(all, fl, out, now)
  {
    assert Unlocked(0);
  }
}
