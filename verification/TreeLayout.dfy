/** Laying files out: windows of the walk order sorted by size, cut into leaves,
    and joined level by level. The functions say which arrangement results; the
    lemmas say what every step of building it keeps. */
module TreeLayout {
  import opened Sorting
  import opened TreePolicy
  import opened TreeShape

  datatype Location = Location(leaf: nat, idx: nat)

  type Where = map<string, Location>

  /** Each path is at one place, and each place holds the path that leads to it. */
  ghost predicate Placed(sh: Shape, where: Where) {
    && (forall q ::
      q in where ==>
        where[q].leaf < |sh| && where[q].idx < |sh[where[q].leaf].entries|
        && sh[where[q].leaf].entries[where[q].idx].path == q)
    && (forall n, i ::
      0 <= n < |sh| && 0 <= i < |sh[n].entries| ==>
        sh[n].entries[i].path in where && where[sh[n].entries[i].path] == Location(n, i))
  }

  /** What the leaves say about each path. */
  function FlatOf(where: Where, st: States): Flat {
    map q | q in where && where[q].leaf < |st| && where[q].idx < |st[where[q].leaf]| :: st[where[q].leaf][where[q].idx]
  }

  // ----- the arrangement

  function Pow2(n: nat): nat { if n == 0 then 1 else 2 * Pow2(n - 1) }

  /** The leaf being filled, if it holds anything. */
  function Full(cur: seq<Entry>): seq<seq<Entry>> {
    if cur == [] then [] else [cur]
  }

  /** One sorted window as leaves: a file above leafBytes alone, the rest packed
      in order while they fit. cur is the leaf being filled. */
  function Cut(leafBytes: int, window: seq<Entry>, cur: seq<Entry>): seq<seq<Entry>>
    decreases |window|
  {
    if window == [] then Full(cur)
    else
      var e, rest := window[0], window[1..];
      if e.size > leafBytes then Full(cur) + [[e]] + Cut(leafBytes, rest, [])
      else if cur != [] && SumSizes(cur) + e.size > leafBytes then Full(cur) + Cut(leafBytes, rest, [e])
      else Cut(leafBytes, rest, cur + [e])
  }

  /** The walk order cut into windows of at least windowBytes, each sorted and
      cut. */
  function Leaves(layout: Layout, entries: seq<Entry>, window: seq<Entry>): seq<seq<Entry>>
    decreases |entries|
  {
    if entries == [] then if window == [] then [] else Cut(layout.leafBytes, Sort(window, BySizePath), [])
    else
      var w := window + [entries[0]];
      if SumSizes(w) >= layout.leafBytes * layout.windowLeaves
      then Cut(layout.leafBytes, Sort(w, BySizePath), []) + Leaves(layout, entries[1..], [])
      else Leaves(layout, entries[1..], w)
  }

  /** One file more of the walk fills the window, or flushes it. */
  lemma {:induction false} LeavesStep(layout: Layout, e: Entry, rest: seq<Entry>, window: seq<Entry>)
    ensures SumSizes(window + [e]) == SumSizes(window) + e.size
    ensures Leaves(layout, [e] + rest, window) ==
            if SumSizes(window + [e]) >= layout.leafBytes * layout.windowLeaves
            then Cut(layout.leafBytes, Sort(window + [e], BySizePath), []) + Leaves(layout, rest, [])
            else Leaves(layout, rest, window + [e])
  {
    assert ([e] + rest)[1..] == rest && (window + [e])[..|window|] == window;
  }

  function Flatten(ls: seq<seq<Entry>>): seq<Entry> {
    if ls == [] then [] else ls[0] + Flatten(ls[1..])
  }

  lemma {:induction false} FlattenConcat(a: seq<seq<Entry>>, b: seq<seq<Entry>>)
    ensures Flatten(a + b) == Flatten(a) + Flatten(b)
  {
    if a == [] {
      assert a + b == b;
    } else {
      assert (a + b)[1..] == a[1..] + b;
      FlattenConcat(a[1..], b);
    }
  }

  lemma {:induction false} FlattenOne(x: seq<Entry>)
    ensures Flatten([x]) == x
  {
    assert [x][1..] == [] && Flatten([]) == [];
  }

  /** Cutting loses nothing and moves nothing. */
  lemma {:induction false} CutKeepsOrder(leafBytes: int, window: seq<Entry>, cur: seq<Entry>)
    ensures Flatten(Cut(leafBytes, window, cur)) == cur + window
    decreases |window|
  {
    FlattenOne(cur);
    if window == [] {
      assert Flatten([]) == [];
    } else {
      var e, rest := window[0], window[1..];
      assert window == [e] + rest;
      FlattenOne([e]);
      if e.size > leafBytes {
        CutKeepsOrder(leafBytes, rest, []);
        var a := if cur == [] then [] else [cur];
        assert Flatten([]) == [];
        FlattenConcat(a, [[e]]);
        FlattenConcat(a + [[e]], Cut(leafBytes, rest, []));
      } else if cur != [] && SumSizes(cur) + e.size > leafBytes {
        CutKeepsOrder(leafBytes, rest, [e]);
        FlattenConcat([cur], Cut(leafBytes, rest, [e]));
      } else {
        CutKeepsOrder(leafBytes, rest, cur + [e]);
        assert cur + [e] + rest == cur + window;
      }
    }
  }

  lemma {:induction false} CutStep(leafBytes: int, e: Entry, rest: seq<Entry>, cur: seq<Entry>)
    ensures Cut(leafBytes, [e] + rest, cur) ==
      if e.size > leafBytes then Full(cur) + [[e]] + Cut(leafBytes, rest, [])
      else if cur != [] && SumSizes(cur) + e.size > leafBytes then Full(cur) + Cut(leafBytes, rest, [e])
      else Cut(leafBytes, rest, cur + [e])
    ensures SumSizes([e]) == e.size && SumSizes(cur + [e]) == SumSizes(cur) + e.size
  {
    assert ([e] + rest)[1..] == rest && ([e] + rest)[0] == e;
    assert [e][..0] == [] && (cur + [e])[..|cur|] == cur;
  }

  /** Never empty, and within leafBytes unless it is one file alone. */
  ghost predicate LeafOk(leafBytes: int, leaf: seq<Entry>) {
    leaf != [] && (|leaf| == 1 || SumSizes(leaf) <= leafBytes)
  }

  lemma {:induction false} CutWithinLimits(leafBytes: int, window: seq<Entry>, cur: seq<Entry>)
    requires cur == [] || (SumSizes(cur) <= leafBytes)
    ensures forall l :: l in Cut(leafBytes, window, cur) ==> LeafOk(leafBytes, l)
    decreases |window|
  {
    if window != [] {
      var e, rest := window[0], window[1..];
      assert SumSizes([]) == 0 && SumSizes([e]) == e.size by { assert [e][..0] == []; }
      assert (cur + [e])[..|cur|] == cur;
      CutWithinLimits(leafBytes, rest, []);
      if e.size <= leafBytes {
        if cur != [] && SumSizes(cur) + e.size > leafBytes {
          CutWithinLimits(leafBytes, rest, [e]);
        } else {
          CutWithinLimits(leafBytes, rest, cur + [e]);
        }
      }
    }
  }

  /** A leaf has no room for the first file of the next. */
  ghost predicate NoRoom(leafBytes: int, leaf: seq<Entry>, next: seq<Entry>) {
    next != [] && SumSizes(leaf) + next[0].size > leafBytes
  }

  ghost predicate Packed(leafBytes: int, ls: seq<seq<Entry>>) {
    ls == [] || ls[1..] == [] || (NoRoom(leafBytes, ls[0], ls[1]) && Packed(leafBytes, ls[1..]))
  }

  lemma {:induction false} PackedMore(leafBytes: int, leaf: seq<Entry>, ls: seq<seq<Entry>>)
    requires Packed(leafBytes, ls) && (ls != [] ==> NoRoom(leafBytes, leaf, ls[0]))
    ensures Packed(leafBytes, [leaf] + ls)
  {
    assert ([leaf] + ls)[1..] == ls;
  }

  /** The first leaf of a window begins with its first file. */
  lemma {:induction false} CutHead(leafBytes: int, window: seq<Entry>, cur: seq<Entry>)
    requires cur + window != [] && (cur == [] || SumSizes(cur) <= leafBytes)
    ensures var ls := Cut(leafBytes, window, cur); ls != [] && ls[0] != [] && ls[0][0] == (cur + window)[0]
  {
    var ls := Cut(leafBytes, window, cur);
    CutKeepsOrder(leafBytes, window, cur);
    CutWithinLimits(leafBytes, window, cur);
    assert Flatten([]) == [];
    assert LeafOk(leafBytes, ls[0]) && Flatten(ls)[0] == ls[0][0];
  }

  /** A window is packed as tightly as its order allows, which with CutKeepsOrder and
      CutWithinLimits leaves one way to cut it. */
  lemma {:induction false} CutIsTight(leafBytes: int, window: seq<Entry>, cur: seq<Entry>)
    requires leafBytes > 0 && (cur == [] || SumSizes(cur) <= leafBytes)
    ensures Packed(leafBytes, Cut(leafBytes, window, cur))
    decreases |window|
  {
    if window != [] {
      var e, rest := window[0], window[1..];
      assert window == [e] + rest;
      CutStep(leafBytes, e, rest, cur);
      if e.size > leafBytes {
        CutIsTight(leafBytes, rest, []);
        LargeIsTight(leafBytes, e, rest, cur);
      } else if cur != [] && SumSizes(cur) + e.size > leafBytes {
        CutIsTight(leafBytes, rest, [e]);
        CutHead(leafBytes, rest, [e]);
        PackedMore(leafBytes, cur, Cut(leafBytes, rest, [e]));
      } else {
        CutIsTight(leafBytes, rest, cur + [e]);
      }
    }
  }

  lemma {:induction false} LargeIsTight(leafBytes: int, e: Entry, rest: seq<Entry>, cur: seq<Entry>)
    requires e.size > leafBytes && Packed(leafBytes, Cut(leafBytes, rest, []))
    ensures Packed(leafBytes, Full(cur) + [[e]] + Cut(leafBytes, rest, []))
  {
    var after := Cut(leafBytes, rest, []);
    assert SumSizes([e]) == e.size by { assert [e][..0] == []; }
    if rest != [] {
      assert [] + rest == rest;
      CutHead(leafBytes, rest, []);
    }
    PackedMore(leafBytes, [e], after);
    if cur != [] {
      assert ([[e]] + after)[0] == [e];
      PackedMore(leafBytes, cur, [[e]] + after);
      assert Full(cur) + [[e]] + after == [cur] + ([[e]] + after);
    } else {
      assert Full(cur) + [[e]] + after == [[e]] + after;
    }
  }

  /** The leaves hold every file offered, each as often as offered. */
  lemma {:induction false} LeavesHoldAll(layout: Layout, entries: seq<Entry>, window: seq<Entry>)
    ensures multiset(Flatten(Leaves(layout, entries, window))) == multiset(window) + multiset(entries)
    decreases |entries|
  {
    if entries == [] {
      CutKeepsOrder(layout.leafBytes, Sort(window, BySizePath), []);
      assert [] + Sort(window, BySizePath) == Sort(window, BySizePath);
      assert Flatten([]) == [];
    } else {
      var w, rest := window + [entries[0]], entries[1..];
      assert entries == [entries[0]] + rest;
      if SumSizes(w) >= layout.leafBytes * layout.windowLeaves {
        var s := Sort(w, BySizePath);
        CutKeepsOrder(layout.leafBytes, s, []);
        assert [] + s == s;
        LeavesHoldAll(layout, rest, []);
        FlattenConcat(Cut(layout.leafBytes, s, []), Leaves(layout, rest, []));
      } else {
        LeavesHoldAll(layout, rest, w);
      }
    }
  }

  lemma {:induction false} LeavesWithinLimits(layout: Layout, entries: seq<Entry>, window: seq<Entry>)
    ensures forall l :: l in Leaves(layout, entries, window) ==> LeafOk(layout.leafBytes, l)
    decreases |entries|
  {
    if entries == [] {
      CutWithinLimits(layout.leafBytes, Sort(window, BySizePath), []);
    } else {
      var w := window + [entries[0]];
      CutWithinLimits(layout.leafBytes, Sort(w, BySizePath), []);
      LeavesWithinLimits(layout, entries[1..], []);
      LeavesWithinLimits(layout, entries[1..], w);
    }
  }

  // ----- putting nodes in the arena

  /** ids are the nodes with no parent yet, left to right. */
  ghost predicate Loose(sh: Shape, ids: seq<nat>) {
    && Distinct(ids) && (forall i :: 0 <= i < |ids| ==> ids[i] < |sh|)
    && (forall n :: 0 <= n < |sh| ==> (sh[n].parent == NONE <==> n in ids))
  }

  /** The files under a row of nodes. */
  ghost function Row(sh: Shape, ids: seq<nat>): seq<Entry> {
    if ids == [] then [] else Under(sh, ids[0]) + Row(sh, ids[1..])
  }

  lemma {:induction false} RowConcat(sh: Shape, a: seq<nat>, b: seq<nat>)
    ensures Row(sh, a + b) == Row(sh, a) + Row(sh, b)
  {
    if a == [] {
      assert a + b == b;
    } else {
      assert (a + b)[1..] == a[1..] + b;
      RowConcat(sh, a[1..], b);
    }
  }

  lemma {:induction false} RowIsUnderAll(sh: Shape, ids: seq<nat>, bound: nat)
    requires forall i :: 0 <= i < |ids| ==> ids[i] < bound
    ensures UnderAll(sh, ids, bound) == Row(sh, ids)
  {
    if ids != [] {
      RowIsUnderAll(sh, ids[1..], bound);
    }
  }

  lemma {:induction false} RowFrame(sh: Shape, sh': Shape, ids: seq<nat>)
    requires SameBelow(sh, sh', |sh|) && forall i :: 0 <= i < |ids| ==> ids[i] < |sh|
    ensures Row(sh, ids) == Row(sh', ids)
  {
    if ids != [] {
      UnderFrame(sh, sh', ids[0]);
      RowFrame(sh, sh', ids[1..]);
    }
  }

  function WithLeaf(sh: Shape, es: seq<Entry>): Shape {
    sh + [Node(NONE, [], es)]
  }

  /** A new node over ks, which get it as their parent. */
  function Joined(sh: Shape, ks: seq<nat>): (r: Shape)
    ensures |r| == |sh| + 1
  {
    seq(|sh|, i requires 0 <= i < |sh| => if i in ks then sh[i].(parent := |sh|) else sh[i]) + [Node(NONE, ks, [])]
  }

  lemma {:induction false} JoinedOk(sh: Shape, before: seq<nat>, ks: seq<nat>, after: seq<nat>)
    requires ShapeOk(sh) && Loose(sh, before + ks + after) && ks != []
    ensures ShapeOk(Joined(sh, ks)) && Loose(Joined(sh, ks), before + [|sh|] + after)
    ensures SameBelow(sh, Joined(sh, ks), |sh|)
  {
    var sh', ids := Joined(sh, ks), before + ks + after;
    assert forall i :: 0 <= i < |ks| ==> ids[|before| + i] == ks[i];
    assert forall i :: 0 <= i < |before| ==> ids[i] == before[i];
    assert forall i :: 0 <= i < |after| ==> ids[|before| + |ks| + i] == after[i];
    forall n: nat | n < |sh'| ensures NodeOk(sh', n) {
      if n < |sh| {
        assert NodeOk(sh, n);
        assert forall i :: 0 <= i < |sh[n].kids| ==> sh[sh[n].kids[i]].parent != NONE;
      }
    }
    JoinedLoose(sh, before, ks, after);
  }

  lemma {:induction false} DistinctParts(a: seq<nat>, b: seq<nat>, c: seq<nat>)
    requires Distinct(a + b + c)
    ensures forall x :: x in b ==> x !in a && x !in c
  {
    var all := a + b + c;
    assert forall i :: 0 <= i < |a| ==> all[i] == a[i];
    assert forall i :: 0 <= i < |b| ==> all[|a| + i] == b[i];
    assert forall i :: 0 <= i < |c| ==> all[|a| + |b| + i] == c[i];
  }

  lemma {:induction false} JoinedLoose(sh: Shape, before: seq<nat>, ks: seq<nat>, after: seq<nat>)
    requires Loose(sh, before + ks + after) && ks != []
    ensures Loose(Joined(sh, ks), before + [|sh|] + after)
  {
    var sh', ids, ids' := Joined(sh, ks), before + ks + after, before + [|sh|] + after;
    forall i | 0 <= i < |ids'| ensures ids'[i] < |sh'| {
      assert ids'[i] == if i < |before| then ids[i] else if i == |before| then |sh| else ids[i - 1 + |ks|];
    }
    forall i, j | 0 <= i < j < |ids'| ensures ids'[i] != ids'[j] {
      assert ids'[i] == if i < |before| then ids[i] else if i == |before| then |sh| else ids[i - 1 + |ks|];
      assert ids'[j] == if j < |before| then ids[j] else if j == |before| then |sh| else ids[j - 1 + |ks|];
    }
    DistinctParts(before, ks, after);
    forall n | 0 <= n < |sh'| ensures sh'[n].parent == NONE <==> n in ids' {
      if n < |sh| {
        assert n in ids <==> n in before || n in ks || n in after;
        assert n in ids' <==> n in before || n in after;
      }
    }
  }

  /** Joining a run of a row leaves the row's files as they were. */
  lemma {:induction false} JoinedRow(sh: Shape, before: seq<nat>, ks: seq<nat>, after: seq<nat>)
    requires ShapeOk(sh) && Loose(sh, before + ks + after) && ks != []
    ensures Row(Joined(sh, ks), before + [|sh|] + after) == Row(sh, before + ks + after)
  {
    var sh' := Joined(sh, ks);
    JoinedOk(sh, before, ks, after);
    assert forall i :: 0 <= i < |ks| ==> (before + ks + after)[|before| + i] == ks[i];
    RowIsUnderAll(sh', ks, |sh|);
    assert [|sh|][1..] == [] && Row(sh', []) == [];
    assert Row(sh', [|sh|]) == Row(sh', ks);
    RowConcat(sh', before + [|sh|], after);
    RowConcat(sh', before, [|sh|]);
    RowConcat(sh', before + ks, after);
    RowConcat(sh', before, ks);
    RowFrame(sh, sh', before + ks + after);
  }

  /** A new leaf with nothing fetched, or a parent of nodes already summed, has
      the sums the climb needs. */
  lemma {:induction false} SumsJoined(sh: Shape, st: States, sums: seq<Counters>, before: seq<nat>, ks: seq<nat>,
      after: seq<nat>)
    requires ShapeOk(sh) && StatesOk(sh, st) && SumsOk(sh, st, sums) && Loose(sh, before + ks + after) && ks != []
    ensures ShapeOk(Joined(sh, ks)) && StatesOk(Joined(sh, ks), st + [[]])
    ensures forall i :: 0 <= i < |ks| ==> ks[i] < |sums|
    ensures SumsOk(Joined(sh, ks), st + [[]], sums + [SumOver(sums, ks)])
  {
    var sh', st' := Joined(sh, ks), st + [[]];
    JoinedOk(sh, before, ks, after);
    assert forall i :: 0 <= i < |ks| ==> (before + ks + after)[|before| + i] == ks[i];
    var sums' := sums + [SumOver(sums, ks)];
    forall n: nat | n < |sh'| ensures StateOk(sh', st', n) {
      if n < |sh| { assert StateOk(sh, st, n); }
    }
    forall n: nat | n < |sh'| ensures sums'[n] == Expected(sh', st', sums', n) {
      assert NodeOk(sh', n);
      if n < |sh| {
        assert sums[n] == Expected(sh, st, sums, n) && NodeOk(sh, n);
        SumOverFrame(sums, sums', sh[n].kids);
      } else {
        SumOverFrame(sums, sums', ks);
      }
    }
  }

  lemma {:induction false} SumOverFrame(sums: seq<Counters>, sums': seq<Counters>, ks: seq<nat>)
    requires |sums| <= |sums'| && forall i :: 0 <= i < |ks| ==> ks[i] < |sums| && sums[ks[i]] == sums'[ks[i]]
    ensures SumOver(sums, ks) == SumOver(sums', ks)
  {
    if ks != [] {
      assert forall i :: 0 <= i < |ks[1..]| ==> ks[1..][i] == ks[i+1];
      SumOverFrame(sums, sums', ks[1..]);
    }
  }

  function Fresh(n: nat): (r: seq<FileState>)
    ensures |r| == n && forall i :: 0 <= i < n ==> r[i] == UNTOUCHED
  {
    seq(n, i => UNTOUCHED)
  }

  lemma {:induction false} FreshTally(es: seq<Entry>)
    ensures Tallied(es, Fresh(|es|)) == Counters(SumSizes(es), 0, 0, |es|, 0)
  {
    if es != [] {
      assert Fresh(|es|)[1..] == Fresh(|es[1..]|);
      FreshTally(es[1..]);
      SumSizesHead(es);
    }
  }

  lemma {:induction false} SumSizesHead(es: seq<Entry>)
    requires es != []
    ensures SumSizes(es) == es[0].size + SumSizes(es[1..])
  {
    if |es| > 1 {
      var front := es[..|es|-1];
      SumSizesHead(front);
      assert front[1..] == es[1..][..|es|-2];
    } else {
      assert es[..0] == [] && es[1..] == [];
    }
  }

  // ----- reading the index

  lemma {:induction false} UnderIsPlaced(sh: Shape, where: Where, n: nat, e: Entry)
    requires ShapeOk(sh) && Placed(sh, where) && n < |sh| && e in Under(sh, n)
    ensures e.path in where && sh[where[e.path].leaf].entries[where[e.path].idx] == e
    decreases n
  {
    if sh[n].kids == [] {
      var i :| 0 <= i < |sh[n].entries| && sh[n].entries[i] == e;
      assert where[sh[n].entries[i].path] == Location(n, i);
    } else {
      var k := InAllInKid(sh, sh[n].kids, n, e);
      UnderIsPlaced(sh, where, k, e);
    }
  }

  lemma {:induction false} FlatUnder(sh: Shape, st: States, where: Where, n: nat)
    requires ShapeOk(sh) && StatesOk(sh, st) && Placed(sh, where) && n < |sh|
    ensures FlatOk(Under(sh, n), FlatOf(where, st)) && FlatOf(where, st).Keys == where.Keys
  {
    forall q | q in where ensures q in FlatOf(where, st) {
      assert StateOk(sh, st, where[q].leaf);
    }
    var fl := FlatOf(where, st);
    forall e | e in Under(sh, n)
      ensures e.path in fl && fl[e.path].read <= e.size && (fl[e.path].stored ==> fl[e.path].read == 0)
    {
      UnderIsPlaced(sh, where, n, e);
      assert StateOk(sh, st, where[e.path].leaf);
    }
  }

  lemma {:induction false} TalliedIsTally(es: seq<Entry>, sts: seq<FileState>, fl: Flat)
    requires |es| == |sts| && forall i :: 0 <= i < |es| ==> StateOf(fl, es[i].path) == sts[i]
    ensures Tallied(es, sts) == Tally(es, fl)
  {
    if es != [] {
      TalliedIsTally(es[1..], sts[1..], fl);
    }
  }

  /** The counters of every node are the sums over the files below it, in the
      flat map. */
  lemma {:induction false} SumIsTally(sh: Shape, st: States, sums: seq<Counters>, where: Where, n: nat)
    requires ShapeOk(sh) && StatesOk(sh, st) && SumsOk(sh, st, sums) && Placed(sh, where) && n < |sh|
    ensures sums[n] == Tally(Under(sh, n), FlatOf(where, st))
    decreases n, 1, 0
  {
    assert NodeOk(sh, n) && StateOk(sh, st, n) && sums[n] == Expected(sh, st, sums, n);
    if sh[n].kids == [] {
      var fl := FlatOf(where, st);
      forall i | 0 <= i < |sh[n].entries| ensures StateOf(fl, sh[n].entries[i].path) == st[n][i] {
        assert where[sh[n].entries[i].path] == Location(n, i);
      }
      TalliedIsTally(sh[n].entries, st[n], fl);
    } else {
      SumOverIsTally(sh, st, sums, where, sh[n].kids, n);
    }
  }

  lemma {:induction false} SumOverIsTally(sh: Shape, st: States, sums: seq<Counters>, where: Where, ks: seq<nat>,
      n: nat)
    requires ShapeOk(sh) && StatesOk(sh, st) && SumsOk(sh, st, sums) && Placed(sh, where) && n < |sh|
    requires forall i :: 0 <= i < |ks| ==> ks[i] < n
    ensures SumOver(sums, ks) == Tally(UnderAll(sh, ks, n), FlatOf(where, st))
    decreases n, 0, |ks|
  {
    if ks != [] {
      SumIsTally(sh, st, sums, where, ks[0]);
      SumOverIsTally(sh, st, sums, where, ks[1..], n);
      TallyConcat(Under(sh, ks[0]), UnderAll(sh, ks[1..], n), FlatOf(where, st));
    }
  }

  lemma {:induction false} FlatUpdate(sh: Shape, st: States, where: Where, leaf: nat, i: nat, to: FileState)
    requires Placed(sh, where) && StatesOk(sh, st) && leaf < |sh| && i < |sh[leaf].entries| && i < |st[leaf]|
    ensures FlatOf(where, st[leaf := st[leaf][i := to]]) == FlatOf(where, st)[sh[leaf].entries[i].path := to]
  {
    var q0 := sh[leaf].entries[i].path;
    var st' := st[leaf := st[leaf][i := to]];
    assert where[q0] == Location(leaf, i);
    var a, b := FlatOf(where, st'), FlatOf(where, st)[q0 := to];
    forall q ensures q in a <==> q in b {
      if q in where { assert StateOk(sh, st, where[q].leaf); }
    }
    forall q | q in a ensures a[q] == b[q] {
      if q != q0 {
        assert where[q] != where[q0];
      }
    }
  }

  lemma {:induction false} FlatGrows(sh: Shape, st: States, where: Where, more: States)
    requires Placed(sh, where) && StatesOk(sh, st)
    ensures FlatOf(where, st + more) == FlatOf(where, st)
  {
    forall q | q in where ensures where[q].leaf < |st| && where[q].idx < |st[where[q].leaf]| {
      assert StateOk(sh, st, where[q].leaf);
    }
    assert forall n :: 0 <= n < |st| ==> (st + more)[n] == st[n];
  }

  lemma {:induction false} PlacedJoined(sh: Shape, where: Where, ks: seq<nat>)
    requires Placed(sh, where)
    ensures Placed(Joined(sh, ks), where)
  {
    var sh' := Joined(sh, ks);
    assert forall n :: 0 <= n < |sh| ==> sh'[n].entries == sh[n].entries;
  }

  lemma {:induction false} SumOverSnoc(sums: seq<Counters>, ks: seq<nat>, k: nat)
    requires (forall i :: 0 <= i < |ks| ==> ks[i] < |sums|) && k < |sums|
    ensures SumOver(sums, ks + [k]) == SumOver(sums, ks).Plus(sums[k])
  {
    if ks == [] {
      assert [k][1..] == [] && SumOver(sums, []) == ZERO;
    } else {
      assert (ks + [k])[1..] == ks[1..] + [k];
      SumOverSnoc(sums, ks[1..], k);
    }
  }

  /** Adopting one more child. */
  lemma {:induction false} JoinedStep(sh: Shape, sums: seq<Counters>, ks: seq<nat>, j: nat)
    requires j < |ks| && |sums| == |sh| && forall i :: 0 <= i < |ks| ==> ks[i] < |sh|
    ensures var a, p, k := Joined(sh, ks[..j]), |sh|, ks[j];
            var b := a[k := a[k].(parent := p)];
            Joined(sh, ks[..j+1]) == b[p := b[p].(kids := b[p].kids + [k])]
    ensures SumOver(sums, ks[..j+1]) == SumOver(sums, ks[..j]).Plus(sums[ks[j]])
  {
    assert ks[..j+1] == ks[..j] + [ks[j]];
    SumOverSnoc(sums, ks[..j], ks[j]);
    var a := Joined(sh, ks[..j]);
    var b := a[ks[j] := a[ks[j]].(parent := |sh|)];
    var c := b[|sh| := b[|sh|].(kids := b[|sh|].kids + [ks[j]])];
    forall n | 0 <= n < |sh| ensures c[n] == Joined(sh, ks[..j+1])[n] {
      assert n in ks[..j+1] <==> n in ks[..j] || n == ks[j];
    }
  }
}
