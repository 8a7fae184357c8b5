/** The arrangement of the prefetch tree. Nodes live in one arena and name each
    other by index; a child is always made before its parent, so it has the
    smaller index. */
module TreeShape {
  import opened Sorting
  import opened TreePolicy

  /** parent is NONE at the root; entries are a leaf's files. */
  datatype Node = Node(parent: int, kids: seq<nat>, entries: seq<Entry>)

  const NONE := -1

  type Shape = seq<Node>

  ghost predicate NodeOk(sh: Shape, n: nat)
    requires n < |sh|
  {
    && (forall i :: 0 <= i < |sh[n].kids| ==> sh[n].kids[i] < n && sh[sh[n].kids[i]].parent == n)
    && Distinct(sh[n].kids)
    && (sh[n].parent == NONE || (n < sh[n].parent < |sh| && n in sh[sh[n].parent].kids))
    && (sh[n].kids != [] ==> sh[n].entries == [])
  }

  ghost predicate ShapeOk(sh: Shape) {
    forall n: nat {:trigger NodeOk(sh, n)} :: n < |sh| ==> NodeOk(sh, n)
  }

  /** Every file at or below a node, left to right. */
  ghost function Under(sh: Shape, n: nat): seq<Entry>
    decreases n, 1, 0
  {
    if n >= |sh| then [] else if sh[n].kids == [] then sh[n].entries else UnderAll(sh, sh[n].kids, n)
  }

  ghost function UnderAll(sh: Shape, ks: seq<nat>, bound: nat): seq<Entry>
    decreases bound, 0, |ks|
  {
    if ks == [] then []
    else (if ks[0] < bound then Under(sh, ks[0]) else []) + UnderAll(sh, ks[1..], bound)
  }

  /** Nodes up to n have the same children and files. */
  ghost predicate SameBelow(sh: Shape, sh': Shape, n: nat) {
    n <= |sh| && n <= |sh'| && forall m :: 0 <= m < n ==> sh[m].kids == sh'[m].kids && sh[m].entries == sh'[m].entries
  }

  lemma {:induction false} UnderFrame(sh: Shape, sh': Shape, n: nat)
    requires SameBelow(sh, sh', n + 1)
    ensures Under(sh, n) == Under(sh', n)
    decreases n, 1, 0
  {
    UnderAllFrame(sh, sh', sh[n].kids, n);
  }

  lemma {:induction false} UnderAllFrame(sh: Shape, sh': Shape, ks: seq<nat>, bound: nat)
    requires SameBelow(sh, sh', bound)
    ensures UnderAll(sh, ks, bound) == UnderAll(sh', ks, bound)
    decreases bound, 0, |ks|
  {
    if ks != [] {
      if ks[0] < bound {
        UnderFrame(sh, sh', ks[0]);
      }
      UnderAllFrame(sh, sh', ks[1..], bound);
    }
  }

  /** A child's files are a run of its parent's. */
  lemma {:induction false} KidInAll(sh: Shape, ks: seq<nat>, bound: nat, k: nat)
    returns (before: seq<Entry>, after: seq<Entry>)
    requires k in ks && k < bound
    ensures UnderAll(sh, ks, bound) == before + Under(sh, k) + after
  {
    if ks[0] == k {
      before, after := [], UnderAll(sh, ks[1..], bound);
    } else {
      before, after := KidInAll(sh, ks[1..], bound, k);
      before := (if ks[0] < bound then Under(sh, ks[0]) else []) + before;
    }
  }

  lemma {:induction false} RunIsDistinct(a: seq<Entry>, b: seq<Entry>, c: seq<Entry>)
    requires DistinctPaths(a + b + c)
    ensures DistinctPaths(b) && forall e :: e in b ==> e in a + b + c
  {
    forall i | 0 <= i < |b| ensures b[i] == (a + b + c)[|a| + i] {}
  }

  lemma {:induction false} InAllInKid(sh: Shape, ks: seq<nat>, bound: nat, e: Entry) returns (k: nat)
    requires e in UnderAll(sh, ks, bound)
    ensures k in ks && k < bound && e in Under(sh, k)
  {
    if ks[0] < bound && e in Under(sh, ks[0]) {
      k := ks[0];
    } else {
      k := InAllInKid(sh, ks[1..], bound, e);
    }
  }

  /** A node's files are a run of the root's, so they are as distinct. */
  lemma {:induction false} UnderRoot(sh: Shape, root: nat, n: nat)
    requires ShapeOk(sh) && n < |sh| && root < |sh| && (forall m: nat :: m < |sh| && sh[m].parent == NONE ==> m == root)
    requires DistinctPaths(Under(sh, root))
    ensures DistinctPaths(Under(sh, n)) && forall e :: e in Under(sh, n) ==> e in Under(sh, root)
    decreases |sh| - n
  {
    assert NodeOk(sh, n);
    if sh[n].parent != NONE {
      var p: nat := sh[n].parent;
      UnderRoot(sh, root, p);
      var a, c := KidInAll(sh, sh[p].kids, p, n);
      RunIsDistinct(a, Under(sh, n), c);
    }
  }

  /** The nodes from n up to one with no parent. */
  ghost function Chain(sh: Shape, n: int): seq<nat>
    decreases |sh| - n
  {
    if n < 0 || n >= |sh| then [] else if sh[n].parent <= n then [n] else [n] + Chain(sh, sh[n].parent)
  }

  lemma {:induction false} ChainInRange(sh: Shape, n: int, m: nat)
    requires m in Chain(sh, n)
    ensures m < |sh| && n <= m
    decreases |sh| - n
  {
    if m != n {
      ChainInRange(sh, sh[n].parent, m);
    }
  }

  // ----- the sums

  ghost function Tallied(es: seq<Entry>, sts: seq<FileState>): Counters
    requires |es| == |sts|
  {
    if es == [] then ZERO else Share(es[0], sts[0]).Plus(Tallied(es[1..], sts[1..]))
  }

  ghost function SumOver(sums: seq<Counters>, ks: seq<nat>): Counters
    requires forall i :: 0 <= i < |ks| ==> ks[i] < |sums|
  {
    if ks == [] then ZERO else sums[ks[0]].Plus(SumOver(sums, ks[1..]))
  }

  type States = seq<seq<FileState>>

  /** Arrays of the right size, and no more read of a file than it holds. */
  ghost predicate StateOk(sh: Shape, st: States, n: nat) {
    && n < |sh| && n < |st| && |st[n]| == |sh[n].entries|
    && (forall i ::
      0 <= i < |st[n]| ==> st[n][i].read <= sh[n].entries[i].size && (st[n][i].stored ==> st[n][i].read == 0))
  }

  ghost predicate StatesOk(sh: Shape, st: States) {
    |st| == |sh| && forall n: nat {:trigger StateOk(sh, st, n)} :: n < |sh| ==> StateOk(sh, st, n)
  }

  /** What a node's counters must be, from its files or its children. */
  ghost function Expected(sh: Shape, st: States, sums: seq<Counters>, n: nat): Counters
    requires ShapeOk(sh) && StatesOk(sh, st) && |sums| == |sh| && n < |sh|
  {
    assert NodeOk(sh, n) && StateOk(sh, st, n);
    if sh[n].kids == [] then Tallied(sh[n].entries, st[n]) else SumOver(sums, sh[n].kids)
  }

  ghost predicate SumsOk(sh: Shape, st: States, sums: seq<Counters>)
    requires ShapeOk(sh) && StatesOk(sh, st)
  {
    |sums| == |sh|
      && forall n: nat {:trigger Expected(sh, st, sums, n)} :: n < |sh| ==> sums[n] == Expected(sh, st, sums, n)
  }

  /** Right everywhere but at one node, which is short by delta. */
  ghost predicate ShortAt(sh: Shape, st: States, sums: seq<Counters>, at: int, delta: Counters)
    requires ShapeOk(sh) && StatesOk(sh, st)
  {
    && |sums| == |sh| && NONE <= at < |sh|
    && (forall n: nat {:trigger Expected(sh, st, sums, n)} :: n < |sh| ==>
        (if n == at then sums[n].Plus(delta) else sums[n]) == Expected(sh, st, sums, n))
  }

  lemma {:induction false} SumOverUpdate(sums: seq<Counters>, ks: seq<nat>, k: nat, delta: Counters)
    requires (forall i :: 0 <= i < |ks| ==> ks[i] < |sums|) && k < |sums| && Distinct(ks)
    ensures var sums' := sums[k := sums[k].Plus(delta)];
            SumOver(sums', ks) == if k in ks then SumOver(sums, ks).Plus(delta) else SumOver(sums, ks)
  {
    if ks != [] {
      SumOverUpdate(sums, ks[1..], k, delta);
    }
  }

  /** One step of the climb moves the shortfall to the parent. */
  lemma {:induction false} ShortStep(sh: Shape, st: States, sums: seq<Counters>, at: nat, delta: Counters)
    requires ShapeOk(sh) && StatesOk(sh, st) && at < |sh| && ShortAt(sh, st, sums, at, delta)
    ensures NodeOk(sh, at) && ShortAt(sh, st, sums[at := sums[at].Plus(delta)], sh[at].parent, delta)
  {
    var sums' := sums[at := sums[at].Plus(delta)];
    assert NodeOk(sh, at);
    forall n: nat | n < |sh|
      ensures (if n == sh[at].parent then sums'[n].Plus(delta) else sums'[n]) == Expected(sh, st, sums', n)
    {
      assert NodeOk(sh, n);
      assert Expected(sh, st, sums, n) == if n == at then sums[n].Plus(delta) else sums[n];
      if sh[n].kids != [] {
        SumOverUpdate(sums, sh[n].kids, at, delta);
        assert at in sh[n].kids <==> n == sh[at].parent;
      }
    }
  }

  /** The climb: add delta to the node and everything above it. */
  ghost function AddUp(sh: Shape, sums: seq<Counters>, at: int, delta: Counters): seq<Counters>
    requires |sums| == |sh|
    decreases |sh| - at
  {
    if at < 0 || at >= |sh| then sums
    else if sh[at].parent <= at then sums[at := sums[at].Plus(delta)]
    else AddUp(sh, sums[at := sums[at].Plus(delta)], sh[at].parent, delta)
  }

  /** Adding a shortfall along the parents makes every sum right. */
  lemma {:induction false} AddUpMends(sh: Shape, st: States, sums: seq<Counters>, at: int, delta: Counters)
    requires ShapeOk(sh) && StatesOk(sh, st) && ShortAt(sh, st, sums, at, delta)
    ensures SumsOk(sh, st, AddUp(sh, sums, at, delta))
    decreases |sh| - at
  {
    if at != NONE {
      ShortStep(sh, st, sums, at, delta);
      if sh[at].parent != NONE {
        AddUpMends(sh, st, sums[at := sums[at].Plus(delta)], sh[at].parent, delta);
      }
    }
  }

  lemma {:induction false} TalliedUpdate(es: seq<Entry>, sts: seq<FileState>, i: nat, st: FileState)
    requires |es| == |sts| && i < |es|
    ensures Tallied(es, sts[i := st]).Plus(Share(es[i], sts[i])) == Tallied(es, sts).Plus(Share(es[i], st))
  {
    if i > 0 {
      assert sts[i := st][1..] == sts[1..][i-1 := st];
      TalliedUpdate(es[1..], sts[1..], i - 1, st);
    } else {
      assert sts[i := st][1..] == sts[1..];
    }
  }

  function Minus(a: Counters, b: Counters): Counters {
    Counters(a.bytes - b.bytes, a.fetched - b.fetched, a.read - b.read, a.files - b.files,
      a.fetchedFiles - b.fetchedFiles)
  }

  /** A file's state may change if the difference of its shares is added from
      its leaf upward. */
  lemma {:induction false} Restate(sh: Shape, st: States, sums: seq<Counters>, leaf: nat, i: nat, to: FileState)
    requires ShapeOk(sh) && StatesOk(sh, st) && SumsOk(sh, st, sums)
    requires leaf < |sh| && i < |sh[leaf].entries| && i < |st[leaf]|
    requires to.read <= sh[leaf].entries[i].size && (to.stored ==> to.read == 0)
    ensures var e := sh[leaf].entries[i]; var delta := Minus(Share(e, to), Share(e, st[leaf][i]));
            var st' := st[leaf := st[leaf][i := to]];
            StatesOk(sh, st') && SumsOk(sh, st', AddUp(sh, sums, leaf, delta))
  {
    var e := sh[leaf].entries[i];
    var delta := Minus(Share(e, to), Share(e, st[leaf][i]));
    var st' := st[leaf := st[leaf][i := to]];
    forall n: nat | n < |sh| ensures StateOk(sh, st', n) {
      assert StateOk(sh, st, n);
    }
    assert NodeOk(sh, leaf) && StateOk(sh, st, leaf);
    TalliedUpdate(sh[leaf].entries, st[leaf], i, to);
    forall n: nat | n < |sh|
      ensures (if n == leaf then sums[n].Plus(delta) else sums[n]) == Expected(sh, st', sums, n)
    {
      assert sums[n] == Expected(sh, st, sums, n);
    }
    AddUpMends(sh, st', sums, leaf, delta);
  }

  /** What the climb does, node by node. */
  lemma {:induction false} AddUpAt(sh: Shape, sums: seq<Counters>, at: int, delta: Counters, m: nat)
    requires |sums| == |sh| && m < |sh|
    ensures |AddUp(sh, sums, at, delta)| == |sums|
    ensures AddUp(sh, sums, at, delta)[m] == if m in Chain(sh, at) then sums[m].Plus(delta) else sums[m]
    decreases |sh| - at
  {
    if 0 <= at < |sh| && sh[at].parent > at {
      AddUpAt(sh, sums[at := sums[at].Plus(delta)], sh[at].parent, delta, m);
      if m in Chain(sh, sh[at].parent) {
        ChainInRange(sh, sh[at].parent, m);
      }
    }
  }

  lemma {:induction false} AddUpTwice(sh: Shape, sums: seq<Counters>, at: int, d1: Counters, d2: Counters)
    requires |sums| == |sh|
    ensures |AddUp(sh, sums, at, d1)| == |sh|
    ensures AddUp(sh, AddUp(sh, sums, at, d1), at, d2) == AddUp(sh, sums, at, d1.Plus(d2))
  {
    AddUpLength(sh, sums, at, d1);
    AddUpLength(sh, AddUp(sh, sums, at, d1), at, d2);
    AddUpLength(sh, sums, at, d1.Plus(d2));
    forall m: nat | m < |sh|
      ensures AddUp(sh, AddUp(sh, sums, at, d1), at, d2)[m] == AddUp(sh, sums, at, d1.Plus(d2))[m]
    {
      AddUpAt(sh, sums, at, d1, m);
      AddUpAt(sh, AddUp(sh, sums, at, d1), at, d2, m);
      AddUpAt(sh, sums, at, d1.Plus(d2), m);
    }
  }

  lemma {:induction false} AddUpLength(sh: Shape, sums: seq<Counters>, at: int, delta: Counters)
    requires |sums| == |sh|
    ensures |AddUp(sh, sums, at, delta)| == |sums|
    decreases |sh| - at
  {
    if 0 <= at < |sh| && sh[at].parent > at {
      AddUpLength(sh, sums[at := sums[at].Plus(delta)], sh[at].parent, delta);
    }
  }

  // ----- walking down

  /** How many nodes a stack still has below it, itself included. */
  ghost function Weight(sh: Shape, n: nat): nat
    decreases n, 1, 0
  {
    1 + if n < |sh| then WeightAll(sh, sh[n].kids, n) else 0
  }

  ghost function WeightAll(sh: Shape, ks: seq<nat>, bound: nat): nat
    decreases bound, 0, |ks|
  {
    if ks == [] then 0 else (if ks[0] < bound then Weight(sh, ks[0]) else 0) + WeightAll(sh, ks[1..], bound)
  }

  lemma {:induction false} WeightConcat(sh: Shape, a: seq<nat>, b: seq<nat>, bound: nat)
    ensures WeightAll(sh, a + b, bound) == WeightAll(sh, a, bound) + WeightAll(sh, b, bound)
  {
    if a == [] {
      assert a + b == b;
    } else {
      assert (a + b)[1..] == a[1..] + b;
      WeightConcat(sh, a[1..], b, bound);
    }
  }

  lemma {:induction false} WeightBound(sh: Shape, ks: seq<nat>, b1: nat, b2: nat)
    requires forall i :: 0 <= i < |ks| ==> ks[i] < b1 && ks[i] < b2
    ensures WeightAll(sh, ks, b1) == WeightAll(sh, ks, b2)
  {
    if ks != [] {
      WeightBound(sh, ks[1..], b1, b2);
    }
  }

  /** Replacing a node at the end of a stack by its children makes it lighter. */
  lemma {:induction false} OpeningIsLighter(sh: Shape, rest: seq<nat>, at: nat)
    requires ShapeOk(sh) && at < |sh|
    ensures WeightAll(sh, rest + sh[at].kids, |sh|) < WeightAll(sh, rest + [at], |sh|)
  {
    assert NodeOk(sh, at);
    WeightConcat(sh, rest, sh[at].kids, |sh|);
    WeightConcat(sh, rest, [at], |sh|);
    WeightBound(sh, sh[at].kids, at, |sh|);
    assert [at][1..] == [] && WeightAll(sh, [], |sh|) == 0;
  }
}
