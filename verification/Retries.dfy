/** Which pending paths a capped pass asks for: those that failed least first. A
    path is asked for again and again, and none is passed over for long. */
module Retries {
  import opened Basics
  import opened Sorting

  const ROUND_FILES := 2000

  function Count(tried: map<string, nat>, p: string): nat {
    if p in tried then tried[p] else 0
  }

  function ByTries(tried: map<string, nat>): (string, string) -> bool {
    (a, b) => Count(tried, a) <= Count(tried, b)
  }

  /** Fewest tries first, otherwise as given. */
  function RankedOf(tried: map<string, nat>, paths: seq<string>): seq<string> {
    Sort(paths, ByTries(tried))
  }

  /** The paths one pass asks for. */
  function Asked(tried: map<string, nat>, paths: seq<string>, cap: nat): seq<string> {
    RankedOf(tried, paths)[..Least(|paths|, cap)]
  }

  function Members(s: seq<string>): set<string> {
    set p | p in s
  }

  function Counted(tried: map<string, nat>, asked: set<string>): map<string, nat> {
    map p | p in tried.Keys + asked :: Count(tried, p) + if p in asked then 1 else 0
  }

  /** A share's memory of its pending paths: the change given up on, the conflict
      last said, how often a path was asked for and did not land, and what was under
      each directory the consumer removed. */
  class Retries {
    var skipped: map<string, string>
    var said: map<string, string>
    var tried: map<string, nat>
    var walks: map<string, seq<string>>

    constructor ()
      ensures tried == map[] && skipped == map[] && said == map[] && walks == map[]
    {
      skipped, said, tried, walks := map[], map[], map[], map[];
    }

    method Ranked(paths: seq<string>) returns (out: seq<string>)
      ensures out == RankedOf(tried, paths)
    {
      if |tried| == 0 {
        assert forall p :: Count(tried, p) == 0;
        SortLevel(paths, ByTries(tried));
        return paths;
      }
      out := Sort(paths, ByTries(tried));
    }

    /** Each path asked for that did not land adds to its count. */
    method Try(asked: set<string>, landed: set<string>)
      modifies this`tried
      ensures forall p :: Count(tried, p) == Count(old(tried), p) + if p in asked - landed then 1 else 0
    {
      var left := asked;
      while left != {}
        invariant left <= asked
        invariant forall p ::
          Count(tried, p) == Count(old(tried), p) + if p in asked - left && p !in landed then 1 else 0
        decreases |left|
      {
        var p :| p in left;
        if p !in landed {
          tried := tried[p := Count(tried, p) + 1];
        }
        left := left - {p};
      }
    }

    /** What landed is forgotten. */
    method Landed(paths: seq<string>)
      modifies this`tried, this`skipped, this`said
      ensures tried == old(tried) - Members(paths) && skipped == old(skipped) - Members(paths)
        && said == old(said) - Members(paths)
    {
      tried, skipped, said := tried - Members(paths), skipped - Members(paths), said - Members(paths);
    }

    /** Whatever is no longer pending is forgotten, and nothing else. */
    method Forget(pending: set<string>)
      modifies this
      ensures tried == map p | p in old(tried) && p in pending :: old(tried)[p]
      ensures skipped == map p | p in old(skipped) && p in pending :: old(skipped)[p]
      ensures said == map p | p in old(said) && p in pending :: old(said)[p]
      ensures walks == map p | p in old(walks) && p in pending :: old(walks)[p]
    {
      tried, skipped, said, walks := Kept(tried, pending), Kept(skipped, pending), Kept(said, pending),
        Kept(walks, pending);
    }

    /** One pass: the first paths of the ranking are asked for, and of those what
        lands is forgotten and the rest counted. */
    method Pass(paths: seq<string>, lands: set<string>) returns (asked: seq<string>)
      modifies this`tried, this`skipped, this`said
      ensures asked == Asked(old(tried), paths, ROUND_FILES)
      ensures forall p ::
        Count(tried, p) == if p in asked && p in lands then 0 else Count(Counted(old(tried), Members(asked)), p)
      ensures skipped == old(skipped) - (Members(asked) * lands) && said == old(said) - (Members(asked) * lands)
    {
      var ranked := Ranked(paths);
      asked := ranked;
      if |asked| > ROUND_FILES {
        asked := asked[..ROUND_FILES];
      }
      assert asked == ranked[..|asked|];
      var wrote := Wrote(asked, lands);
      Landed(wrote);
      Try(Members(asked), Members(wrote));
    }
  }

  function Kept<T>(m: map<string, T>, pending: set<string>): map<string, T> {
    map p | p in m && p in pending :: m[p]
  }

  /** Those of the paths asked for that land. */
  method Wrote(asked: seq<string>, lands: set<string>) returns (wrote: seq<string>)
    ensures Members(wrote) == Members(asked) * lands
  {
    wrote := [];
    var i := 0;
    while i < |asked|
      invariant 0 <= i <= |asked| && forall p :: p in wrote <==> p in asked[..i] && p in lands
    {
      assert asked[..i + 1] == asked[..i] + [asked[i]];
      if asked[i] in lands {
        wrote := wrote + [asked[i]];
      }
      i := i + 1;
    }
    assert asked[..i] == asked;
  }

  // ----- nobody falls behind, whatever the order

  ghost predicate Level(tried: map<string, nat>, paths: seq<string>, q: nat) {
    forall p :: p in paths ==> q <= Count(tried, p) <= q + 1
  }

  /** A pass keeps every two counts within one of each other. */
  lemma {:induction false} LevelStays(tried: map<string, nat>, paths: seq<string>, ranked: seq<string>, k: nat, q: nat)
    requires Level(tried, paths, q) && k <= |ranked| && Sorted(ranked, ByTries(tried))
    requires forall p :: p in ranked <==> p in paths
    ensures var tried' := Counted(tried, Members(ranked[..k])); Level(tried', paths, q) || Level(tried', paths, q + 1)
  {
    if k > 0 && Count(tried, ranked[k - 1]) == q + 1 {
      forall p | p in paths && Count(tried, p) == q ensures p in ranked[..k] {
        var i :| 0 <= i < |ranked| && ranked[i] == p;
        InRank(tried, ranked, k - 1, i);
        assert p == ranked[..k][i];
      }
    } else if k > 0 {
      assert ranked[k - 1] in ranked;
      forall p | p in ranked[..k] ensures Count(tried, p) == q {
        var i :| 0 <= i < k && ranked[i] == p;
        InRank(tried, ranked, i, k - 1);
        assert ranked[i] in ranked;
      }
    }
  }

  lemma {:induction false} InRank(tried: map<string, nat>, ranked: seq<string>, i: nat, j: nat)
    requires Sorted(ranked, ByTries(tried)) && i < |ranked| && j < |ranked|
    ensures i <= j ==> Count(tried, ranked[i]) <= Count(tried, ranked[j])
  {
    if i < j {
      assert ByTries(tried)(ranked[i], ranked[j]);
    }
  }

  lemma {:induction false} RankedSorted(tried: map<string, nat>, paths: seq<string>)
    ensures Sorted(RankedOf(tried, paths), ByTries(tried)) && forall p :: p in RankedOf(tried, paths) <==> p in paths
  {
    SortIsSorted(paths, ByTries(tried));
    SameMembers(RankedOf(tried, paths), paths);
  }

  /** What a pass asks for, of the pending paths in the order it lists them. */
  type Asker = (map<string, nat>, seq<string>) -> set<string>

  function AskerOf(cap: nat): Asker {
    (tried, order) => Members(Asked(tried, order, cap))
  }

  /** Counts after the first n of some passes, each with the pending paths in an
      order of its own. */
  function AfterOrders(tried: map<string, nat>, orders: seq<seq<string>>, ask: Asker, n: nat): map<string, nat>
    requires n <= |orders|
  {
    if n == 0 then tried
    else var before := AfterOrders(tried, orders, ask, n - 1); Counted(before, ask(before, orders[n - 1]))
  }

  /** A pass that keeps every two counts within one of each other. */
  ghost predicate KeepsLevel(ask: Asker) {
    forall tried, order, q: nat {:trigger Level(tried, order, q), ask(tried, order)} ::
      Level(tried, order, q) ==>
        Level(Counted(tried, ask(tried, order)), order, q) || Level(Counted(tried, ask(tried, order)), order, q + 1)
  }

  lemma {:induction false} AskerKeepsLevel(cap: nat)
    ensures KeepsLevel(AskerOf(cap))
  {
    forall tried, order, q: nat | Level(tried, order, q)
      ensures var tried' := Counted(tried, AskerOf(cap)(tried, order));
        Level(tried', order, q) || Level(tried', order, q + 1)
    {
      RankedSorted(tried, order);
      LevelStays(tried, order, RankedOf(tried, order), Least(|order|, cap), q);
    }
  }

  /** Paths only leave the list, as they land. */
  ghost predicate Shrinks(orders: seq<seq<string>>) {
    forall i, j :: 0 <= i <= j < |orders| ==> Within(orders[j], orders[i])
  }

  ghost predicate Within(a: seq<string>, b: seq<string>) {
    forall p :: p in a ==> p in b
  }

  /** Over any number of passes, in any orders, from equal counts: of the paths that
      have not landed none was asked for more than once more than another. */
  lemma {:induction false} NeverBehind(tried: map<string, nat>, orders: seq<seq<string>>, cap: nat, q: nat, n: nat)
    returns (q': nat)
    requires 0 < n <= |orders| && Shrinks(orders) && forall p :: p in orders[0] ==> Count(tried, p) == q
    ensures q' >= q && Level(AfterOrders(tried, orders, AskerOf(cap), n), orders[n - 1], q')
  {
    AskerKeepsLevel(cap);
    q' := StaysLevel(tried, orders, AskerOf(cap), q, n);
  }

  lemma {:induction false} StaysLevel(tried: map<string, nat>, orders: seq<seq<string>>, ask: Asker, q: nat, n: nat)
    returns (q': nat)
    requires 0 < n <= |orders| && Shrinks(orders) && KeepsLevel(ask)
      && forall p :: p in orders[0] ==> Count(tried, p) == q
    ensures q' >= q && Level(AfterOrders(tried, orders, ask, n), orders[n - 1], q')
  {
    if n == 1 {
      q' := q;
    } else {
      q' := StaysLevel(tried, orders, ask, q, n - 1);
      assert Within(orders[n - 1], orders[n - 2]);
    }
    var before := AfterOrders(tried, orders, ask, n - 1);
    assert Level(before, orders[n - 1], q');
    if !Level(Counted(before, ask(before, orders[n - 1])), orders[n - 1], q') {
      q' := q' + 1;
    }
  }

  // ----- the same counts in the class

  lemma {:induction false} InsertAgrees(x: string, s: seq<string>, le: (string, string) -> bool,
      other: (string, string) -> bool)
    requires forall y :: y in s ==> le(x, y) == other(x, y)
    ensures Insert(x, s, le) == Insert(x, s, other)
  {
    if s != [] {
      assert s[0] in s && forall y :: y in s[1..] ==> y in s;
      InsertAgrees(x, s[1..], le, other);
    }
  }

  lemma {:induction false} SortAgrees(s: seq<string>, le: (string, string) -> bool, other: (string, string) -> bool)
    requires forall x, y :: x in s && y in s ==> le(x, y) == other(x, y)
    ensures Sort(s, le) == Sort(s, other)
  {
    if s != [] {
      assert s[0] in s && forall y :: y in s[1..] ==> y in s;
      SortAgrees(s[1..], le, other);
      SameMembers(Sort(s[1..], le), s[1..]);
      InsertAgrees(s[0], Sort(s[1..], le), le, other);
    }
  }

  /** What a pass asks for depends on the counts of the paths it lists alone. */
  lemma {:induction false} AskedAgrees(tried: map<string, nat>, other: map<string, nat>, order: seq<string>, cap: nat)
    requires forall p :: p in order ==> Count(tried, p) == Count(other, p)
    ensures Asked(tried, order, cap) == Asked(other, order, cap)
  {
    SortAgrees(order, ByTries(tried), ByTries(other));
  }

  /** A later list has paths of an earlier one that had not landed by then. */
  ghost predicate Leaves(orders: seq<seq<string>>, lands: seq<set<string>>) {
    |lands| == |orders| && forall i, j :: 0 <= i < j < |orders| ==> Follows(orders[j], orders[i], lands[i])
  }

  ghost predicate Follows(order: seq<string>, before: seq<string>, landed: set<string>) {
    forall p :: p in order ==> p in before && p !in landed
  }

  /** The paths after a number of passes that have not landed. */
  ghost predicate Waits(orders: seq<seq<string>>, lands: seq<set<string>>, i: nat, p: string)
    requires |lands| == |orders|
  {
    if i < |orders| then p in orders[i] else i == |orders| > 0 && p in orders[i - 1] && p !in lands[i - 1]
  }

  /** Passes of the class in which paths land: of those that have not, the counts are
      the counts of the passes as listed, so from equal counts they stay within one of
      each other. */
  method RunPasses(r: Retries, orders: seq<seq<string>>, lands: seq<set<string>>)
    requires Leaves(orders, lands)
    modifies r
    ensures forall p :: Waits(orders, lands, |orders|, p) ==>
              Count(r.tried, p) == Count(AfterOrders(old(r.tried), orders, AskerOf(ROUND_FILES), |orders|), p)
  {
    ghost var was, ask := r.tried, AskerOf(ROUND_FILES);
    var i := 0;
    while i < |orders|
      invariant 0 <= i <= |orders|
      invariant forall p ::
        Waits(orders, lands, i, p) ==> Count(r.tried, p) == Count(AfterOrders(was, orders, ask, i), p)
    {
      ghost var before := r.tried;
      var asked := r.Pass(orders[i], lands[i]);
      PassCounts(before, r.tried, was, orders, lands, i, asked);
      i := i + 1;
    }
  }

  lemma {:induction false} PassCounts(before: map<string, nat>, after: map<string, nat>, was: map<string, nat>,
      orders: seq<seq<string>>, lands: seq<set<string>>, i: nat, asked: seq<string>)
    requires Leaves(orders, lands) && i < |orders| && asked == Asked(before, orders[i], ROUND_FILES)
    requires forall p ::
      p in orders[i] ==> Count(before, p) == Count(AfterOrders(was, orders, AskerOf(ROUND_FILES), i), p)
    requires forall p ::
      Count(after, p) == if p in asked && p in lands[i] then 0 else Count(Counted(before, Members(asked)), p)
    ensures forall p ::
      Waits(orders, lands, i + 1, p) ==>
        Count(after, p) == Count(AfterOrders(was, orders, AskerOf(ROUND_FILES), i + 1), p)
  {
    var model := AfterOrders(was, orders, AskerOf(ROUND_FILES), i);
    AskedAgrees(before, model, orders[i], ROUND_FILES);
    NextCounts(was, orders, AskerOf(ROUND_FILES), i + 1);
    forall p | Waits(orders, lands, i + 1, p)
      ensures Count(after, p) == Count(AfterOrders(was, orders, AskerOf(ROUND_FILES), i + 1), p) {
      assert i + 1 < |orders| ==> Follows(orders[i + 1], orders[i], lands[i]);
      CountedAt(before, Members(asked), p);
      CountedAt(model, Members(asked), p);
    }
  }

  // ----- how long a path may wait, whatever the order

  function Total(tried: map<string, nat>, paths: seq<string>): nat {
    if paths == [] then 0 else Count(tried, paths[0]) + Total(tried, paths[1..])
  }

  lemma {:induction false} MembersCons(paths: seq<string>)
    requires paths != [] && Distinct(paths)
    ensures Members(paths) == {paths[0]} + Members(paths[1..]) && paths[0] !in Members(paths[1..])
      && Distinct(paths[1..])
  {
    assert paths == [paths[0]] + paths[1..];
  }

  lemma {:induction false} MembersSize(paths: seq<string>)
    requires Distinct(paths)
    ensures |Members(paths)| == |paths|
  {
    if paths != [] {
      MembersCons(paths);
      MembersSize(paths[1..]);
    }
  }

  lemma {:induction false} OneMore(asked: set<string>, p: string, rest: set<string>)
    requires p !in rest
    ensures |asked * ({p} + rest)| == |asked * rest| + if p in asked then 1 else 0
  {
    if p in asked {
      assert asked * ({p} + rest) == {p} + (asked * rest);
    } else {
      assert asked * ({p} + rest) == asked * rest;
    }
  }

  lemma {:induction false} CountedAt(tried: map<string, nat>, asked: set<string>, p: string)
    ensures Count(Counted(tried, asked), p) == Count(tried, p) + if p in asked then 1 else 0
  {
  }

  /** A pass adds one to the total for each path asked for. */
  lemma {:induction false} TotalCounts(tried: map<string, nat>, paths: seq<string>, asked: set<string>)
    requires Distinct(paths)
    ensures Total(Counted(tried, asked), paths) == Total(tried, paths) + |asked * Members(paths)|
  {
    if paths == [] {
      assert asked * Members(paths) == {};
    } else {
      MembersCons(paths);
      TotalCounts(tried, paths[1..], asked);
      CountedAt(tried, asked, paths[0]);
      OneMore(asked, paths[0], Members(paths[1..]));
    }
  }

  lemma {:induction false} AskedSize(tried: map<string, nat>, paths: seq<string>, order: seq<string>, cap: nat)
    requires Distinct(paths) && multiset(order) == multiset(paths)
    ensures |AskerOf(cap)(tried, order) * Members(paths)| == Least(|paths|, cap)
  {
    var asked, ranked := Asked(tried, order, cap), RankedOf(tried, order);
    SortIsSorted(order, ByTries(tried));
    DistinctFromMultiset(paths, ranked);
    SameMembers(paths, ranked);
    MembersSize(asked);
    assert Members(asked) * Members(paths) == Members(asked);
    assert |order| == |multiset(order)| == |paths|;
  }

  /** Every order lists the same paths. */
  ghost predicate Orders(orders: seq<seq<string>>, paths: seq<string>) {
    forall i :: 0 <= i < |orders| ==> multiset(orders[i]) == multiset(paths)
  }

  /** The counts before and after each of some passes, by the paths each asks for. */
  ghost predicate Passes(ts: seq<map<string, nat>>, asks: seq<set<string>>, paths: seq<string>, k: nat) {
    |ts| == |asks| + 1
      && forall u {:trigger Unlocked(u)} ::
        Unlocked(u) ==> forall i {:trigger asks[i]} :: 0 <= i < |asks| ==> PassAsks(ts[i], asks[i], ts[i + 1], paths, k)
  }

  /** One pass: what it asks for is counted, and is k of the paths. */
  ghost predicate PassAsks(before: map<string, nat>, asked: set<string>, after: map<string, nat>, paths: seq<string>,
      k: nat)
  {
    after == Counted(before, asked) && |asked * Members(paths)| == k
  }

  lemma {:induction false} TotalAfter(ts: seq<map<string, nat>>, asks: seq<set<string>>, paths: seq<string>, k: nat,
      m: nat, r: nat)
    requires Distinct(paths) && Passes(ts, asks, paths, k) && m + r <= |asks|
    ensures Total(ts[m + r], paths) == Total(ts[m], paths) + r * k
  {
    if r > 0 {
      TotalAfter(ts, asks, paths, k, m, r - 1);
      OnePass(ts, asks, paths, k, m + r - 1);
      TotalPass(ts[m + r - 1], asks[m + r - 1], ts[m + r], paths, k);
      PassesLeft(r, k);
    }
  }

  lemma {:induction false} OnePass(ts: seq<map<string, nat>>, asks: seq<set<string>>, paths: seq<string>, k: nat,
      i: nat)
    requires Passes(ts, asks, paths, k) && i < |asks|
    ensures PassAsks(ts[i], asks[i], ts[i + 1], paths, k)
  {
    assert Unlocked(0);
  }

  lemma {:induction false} TotalPass(before: map<string, nat>, asked: set<string>, after: map<string, nat>,
      paths: seq<string>, k: nat)
    requires Distinct(paths) && PassAsks(before, asked, after, paths, k)
    ensures Total(after, paths) == Total(before, paths) + k
  {
    TotalCounts(before, paths, asked);
  }

  lemma {:induction false} StaysPut(ts: seq<map<string, nat>>, asks: seq<set<string>>, paths: seq<string>, k: nat,
      m: nat, r: nat, p: string)
    requires Passes(ts, asks, paths, k) && m + r <= |asks| && forall at :: m <= at < m + r ==> p !in asks[at]
    ensures Count(ts[m + r], p) == Count(ts[m], p)
  {
    if r > 0 {
      StaysPut(ts, asks, paths, k, m, r - 1, p);
      OnePass(ts, asks, paths, k, m + r - 1);
      CountedAt(ts[m + r - 1], asks[m + r - 1], p);
      assert p !in asks[m + r - 1];
    }
  }

  /** If no count rose by more than two, and one not at all, the total did not rise
      by more than two for each of the others. */
  lemma {:induction false} TotalBound(before: map<string, nat>, after: map<string, nat>, paths: seq<string>)
    requires forall p :: p in paths ==> Count(after, p) <= Count(before, p) + 2
    ensures Total(after, paths) <= Total(before, paths) + 2 * |paths|
    ensures forall p ::
      p in paths && Count(after, p) == Count(before, p) ==>
        Total(after, paths) <= Total(before, paths) + 2 * (|paths| - 1)
  {
    if paths != [] {
      assert paths[0] in paths && forall p :: p in paths[1..] ==> p in paths;
      TotalBound(before, after, paths[1..]);
    }
  }

  /** A path not asked for in r passes bounds what they asked for together. */
  lemma {:induction false} WaitIsShort(ts: seq<map<string, nat>>, asks: seq<set<string>>, paths: seq<string>, k: nat,
      m: nat, r: nat, q1: nat, q2: nat, p: string)
    requires Distinct(paths) && p in paths && Passes(ts, asks, paths, k) && m + r <= |asks|
      && forall at :: m <= at < m + r ==> p !in asks[at]
    requires Level(ts[m], paths, q1) && Level(ts[m + r], paths, q2)
    ensures r * k <= 2 * (|paths| - 1)
  {
    StaysPut(ts, asks, paths, k, m, r, p);
    TotalAfter(ts, asks, paths, k, m, r);
    TotalBound(ts[m], ts[m + r], paths);
  }

  /** Nobody starves, whatever the orders: from equal counts, a path is asked for in
      every run of r passes that together have room for more than two less than
      twice as many. */
  lemma {:induction false} AskedBeforeLong(tried: map<string, nat>, paths: seq<string>, orders: seq<seq<string>>,
      cap: nat, q: nat, m: nat, r: nat, p: string) returns (at: nat)
    requires Distinct(paths) && p in paths && Orders(orders, paths) && m + r <= |orders|
      && forall x :: x in paths ==> Count(tried, x) == q
    requires r * Least(|paths|, cap) > 2 * (|paths| - 1)
    ensures m <= at < m + r && p in AskedBy(tried, orders, AskerOf(cap), at)
  {
    var ask, k := AskerOf(cap), Least(|paths|, cap);
    AskerKeepsLevel(cap);
    forall t, order | multiset(order) == multiset(paths) ensures |ask(t, order) * Members(paths)| == k {
      AskedSize(t, paths, order, cap);
    }
    at := AnyAskerReaches(tried, paths, orders, ask, k, q, m, r, p);
  }

  lemma {:induction false} AnyAskerReaches(tried: map<string, nat>, paths: seq<string>, orders: seq<seq<string>>,
      ask: Asker, k: nat, q: nat, m: nat, r: nat, p: string) returns (at: nat)
    requires Distinct(paths) && p in paths && Orders(orders, paths) && m + r <= |orders|
      && forall x :: x in paths ==> Count(tried, x) == q
    requires FairAsker(ask, paths, k) && r * k > 2 * (|paths| - 1)
    ensures m <= at < m + r && p in AskedBy(tried, orders, ask, at)
  {
    var ts, asks := RunOf(tried, paths, orders, ask, k);
    var q1 := LevelAfter(tried, paths, orders, ask, k, q, m);
    var q2 := LevelAfter(tried, paths, orders, ask, k, q, m + r);
    at := Reached(ts, asks, paths, k, m, r, q1, q2, p);
  }

  lemma {:induction false} Reached(ts: seq<map<string, nat>>, asks: seq<set<string>>, paths: seq<string>, k: nat,
      m: nat, r: nat, q1: nat, q2: nat, p: string) returns (at: nat)
    requires Distinct(paths) && p in paths && Passes(ts, asks, paths, k) && m + r <= |asks|
    requires Level(ts[m], paths, q1) && Level(ts[m + r], paths, q2) && r * k > 2 * (|paths| - 1)
    ensures m <= at < m + r && p in asks[at]
  {
    if forall i :: m <= i < m + r ==> p !in asks[i] {
      WaitIsShort(ts, asks, paths, k, m, r, q1, q2, p);
    }
    at :| m <= at < m + r && p in asks[at];
  }

  /** An asker that keeps the counts level, k paths at a time. */
  ghost predicate FairAsker(ask: Asker, paths: seq<string>, k: nat) {
    forall u {:trigger Unlocked(u)} ::
      Unlocked(u) ==>
        KeepsLevel(ask)
        && forall t, order :: multiset(order) == multiset(paths) ==> |ask(t, order) * Members(paths)| == k
  }

  /** The paths the pass at a place in a run asks for. */
  function AskedBy(tried: map<string, nat>, orders: seq<seq<string>>, ask: Asker, at: int): set<string> {
    if 0 <= at < |orders| then ask(AfterOrders(tried, orders, ask, at), orders[at]) else {}
  }

  lemma {:induction false} NextPass(tried: map<string, nat>, paths: seq<string>, orders: seq<seq<string>>, ask: Asker,
      k: nat, i: nat)
    requires i < |orders| && Orders(orders, paths) && FairAsker(ask, paths, k)
    ensures PassAsks(AfterOrders(tried, orders, ask, i), AskedBy(tried, orders, ask, i),
      AfterOrders(tried, orders, ask, i + 1), paths, k)
  {
    assert Unlocked(0);
  }

  lemma {:induction false} RunOf(tried: map<string, nat>, paths: seq<string>, orders: seq<seq<string>>, ask: Asker,
      k: nat) returns (ts: seq<map<string, nat>>, asks: seq<set<string>>)
    requires Orders(orders, paths) && FairAsker(ask, paths, k)
    ensures Passes(ts, asks, paths, k) && |asks| == |orders|
    ensures forall i :: 0 <= i < |ts| ==> ts[i] == AfterOrders(tried, orders, ask, i)
    ensures forall i :: 0 <= i < |asks| ==> asks[i] == AskedBy(tried, orders, ask, i)
  {
    ts := seq(|orders| + 1, i requires 0 <= i <= |orders| => AfterOrders(tried, orders, ask, i));
    asks := seq(|orders|, i requires 0 <= i < |orders| => AskedBy(tried, orders, ask, i));
    forall i | 0 <= i < |asks| ensures PassAsks(ts[i], asks[i], ts[i + 1], paths, k) {
      NextPass(tried, paths, orders, ask, k, i);
    }
  }

  lemma {:induction false} LevelAfter(tried: map<string, nat>, paths: seq<string>, orders: seq<seq<string>>, ask: Asker,
      k: nat, q: nat, m: nat) returns (q': nat)
    requires Orders(orders, paths) && FairAsker(ask, paths, k) && m <= |orders|
      && forall x :: x in paths ==> Count(tried, x) == q
    ensures Level(AfterOrders(tried, orders, ask, m), paths, q')
  {
    if m == 0 {
      return q;
    }
    forall i, j | 0 <= i <= j < |orders| ensures Within(orders[j], orders[i]) {
      SameMembers(orders[i], orders[j]);
    }
    SameMembers(orders[0], paths);
    SameMembers(orders[m - 1], paths);
    assert Unlocked(0);
    q' := StaysLevel(tried, orders, ask, q, m);
  }

  /** Three paths by their ranking. */
  ghost predicate Three(tried: map<string, nat>, order: seq<string>, q: nat, cur: nat, x: string, y: string,
      z: string)
  {
    x != y && x != z && y != z && Turn(tried, order, q, cur) && order[cur..] + order[..cur] == [x, y, z]
  }

  /** Of three paths, the first two of the ranking are asked for. */
  ghost predicate TakesTwo(ask: Asker) {
    forall tried, order, q: nat, cur: nat, x, y, z {:trigger Three(tried, order, q, cur, x, y, z)} ::
      Three(tried, order, q, cur, x, y, z) ==> ask(tried, order) == {x, y}
  }

  lemma {:induction false} AskerTakesTwo()
    ensures TakesTwo(AskerOf(2))
  {
    forall tried, order, q: nat, cur: nat, x, y, z | Three(tried, order, q, cur, x, y, z)
      ensures AskerOf(2)(tried, order) == {x, y} {
      TwoRanked(tried, order, q, cur, x, y, z);
    }
  }

  lemma {:induction false} TwoRanked(tried: map<string, nat>, order: seq<string>, q: nat, cur: nat, x: string,
      y: string, z: string)
    requires Three(tried, order, q, cur, x, y, z)
    ensures AskerOf(2)(tried, order) == {x, y}
  {
    RankedIsTurn(tried, order, q, cur);
    assert |order| == |order[cur..] + order[..cur]|;
    FirstTwo(RankedOf(tried, order), x, y, z);
    assert Asked(tried, order, 2) == RankedOf(tried, order)[..2];
  }

  lemma {:induction false} FirstTwo(ranked: seq<string>, x: string, y: string, z: string)
    requires ranked == [x, y, z]
    ensures Members(ranked[..2]) == {x, y}
  {
    assert ranked[..2] == [x, y];
  }

  /** Room for all of them is not enough if the order changes: of three paths taken
      two at a time, the first waits out the third and the fourth pass. */
  lemma {:induction false} OrdersCanSkip(tried: map<string, nat>, orders: seq<seq<string>>, a: string, b: string,
      c: string)
    requires a != b && a != c && b != c && Count(tried, a) == 0 && Count(tried, b) == 0 && Count(tried, c) == 0
    requires |orders| == 4 && orders[0] == orders[1] == orders[2] == [a, b, c] && orders[3] == [b, c, a]
    ensures a !in AskedBy(tried, orders, AskerOf(2), 2) && a !in AskedBy(tried, orders, AskerOf(2), 3)
  {
    AskerTakesTwo();
    FirstSkipped(tried, orders, AskerOf(2), a, b, c);
  }

  lemma {:induction false} FirstSkipped(tried: map<string, nat>, orders: seq<seq<string>>, ask: Asker, a: string,
      b: string, c: string)
    requires TakesTwo(ask) && |orders| == 4 && orders[0] == orders[1] == orders[2] == [a, b, c]
      && orders[3] == [b, c, a]
    requires a != b && a != c && b != c && Count(tried, a) == 0 && Count(tried, b) == 0 && Count(tried, c) == 0
    ensures a !in AskedBy(tried, orders, ask, 2) && a !in AskedBy(tried, orders, ask, 3)
  {
    NextCounts(tried, orders, ask, 1);
    NextCounts(tried, orders, ask, 2);
    NextCounts(tried, orders, ask, 3);
    var t1, t2, t3 := AfterOrders(tried, orders, ask, 1), AfterOrders(tried, orders, ask, 2),
      AfterOrders(tried, orders, ask, 3);
    FirstWaits(tried, t1, t2, t3, orders[0], orders[3], ask, a, b, c);
  }

  lemma {:induction false} NextCounts(tried: map<string, nat>, orders: seq<seq<string>>, ask: Asker, n: nat)
    requires 0 < n <= |orders|
    ensures var before := AfterOrders(tried, orders, ask, n - 1);
      AfterOrders(tried, orders, ask, n) == Counted(before, ask(before, orders[n - 1]))
    ensures AfterOrders(tried, orders, ask, 0) == tried
  {
  }

  lemma {:induction false} FirstWaits(t0: map<string, nat>, t1: map<string, nat>, t2: map<string, nat>,
      t3: map<string, nat>, abc: seq<string>, bca: seq<string>, ask: Asker, a: string, b: string, c: string)
    requires TakesTwo(ask) && abc == [a, b, c] && bca == [b, c, a]
    requires a != b && a != c && b != c && Count(t0, a) == 0 && Count(t0, b) == 0 && Count(t0, c) == 0
    requires t1 == Counted(t0, ask(t0, abc)) && t2 == Counted(t1, ask(t1, abc)) && t3 == Counted(t2, ask(t2, abc))
    ensures a !in ask(t2, abc) && a !in ask(t3, bca)
  {
    TwoAsked(ask, t0, abc, 0, 0, a, b, c);
    TwoAsked(ask, t1, abc, 0, 2, c, a, b);
    TwoAsked(ask, t2, abc, 1, 1, b, c, a);
    TwoAsked(ask, t3, bca, 2, 0, b, c, a);
  }

  lemma {:induction false} TwoAsked(ask: Asker, tried: map<string, nat>, order: seq<string>, q: nat, cur: nat,
      x: string, y: string, z: string)
    requires TakesTwo(ask) && |order| == 3 && cur < 3 && order[cur] == x && order[(cur + 1) % 3] == y
      && order[(cur + 2) % 3] == z && x != y && x != z && y != z
    requires Count(tried, x) == q && Count(tried, y) == q + (if cur == 2 then 1 else 0)
      && Count(tried, z) == q + (if cur > 0 then 1 else 0)
    ensures z !in ask(tried, order)
    ensures var after := Counted(tried, ask(tried, order));
      Count(after, x) == Count(tried, x) + 1 && Count(after, y) == Count(tried, y) + 1
      && Count(after, z) == Count(tried, z)
  {
    assert order == [order[0], order[1], order[2]];
    assert Three(tried, order, q, cur, x, y, z);
  }

  lemma {:induction false} SameMembers(a: seq<string>, b: seq<string>)
    requires multiset(a) == multiset(b)
    ensures forall p :: p in a <==> p in b
  {
    forall p ensures p in a <==> p in b {
      assert p in multiset(a) <==> p in multiset(b);
    }
  }

  // ----- a fixed order is served in turn

  /** The first `cur` paths are one try ahead of the rest. */
  ghost predicate Turn(tried: map<string, nat>, paths: seq<string>, q: nat, cur: nat) {
    cur <= |paths| && forall i :: 0 <= i < |paths| ==> Count(tried, paths[i]) == q + if i < cur then 1 else 0
  }

  lemma {:induction false} SortLevel(s: seq<string>, le: (string, string) -> bool)
    requires AllLe(s, s, le)
    ensures Sort(s, le) == s
  {
    if s != [] {
      SortLevel(s[1..], le);
      assert s == [s[0]] + s[1..];
    }
  }

  lemma {:induction false} InsertFirst(x: string, s: seq<string>, le: (string, string) -> bool)
    requires forall y :: y in s ==> le(x, y)
    ensures Insert(x, s, le) == [x] + s
  {
    assert s != [] ==> s[0] in s;
  }

  lemma {:induction false} InsertPast(x: string, y: string, s: seq<string>, le: (string, string) -> bool)
    requires !le(x, y)
    ensures Insert(x, [y] + s, le) == [y] + Insert(x, s, le)
  {
    assert ([y] + s)[1..] == s;
  }

  lemma {:induction false} InsertAfter(x: string, low: seq<string>, high: seq<string>, le: (string, string) -> bool)
    requires forall y :: y in low ==> !le(x, y)
    requires forall y :: y in high ==> le(x, y)
    ensures Insert(x, low + high, le) == low + ([x] + high)
  {
    if low == [] {
      assert low + high == high && low + ([x] + high) == [x] + high;
      InsertFirst(x, high, le);
    } else {
      assert low[0] in low && forall y :: y in low[1..] ==> y in low;
      InsertAfter(x, low[1..], high, le);
      InsertPast(x, low[0], low[1..] + high, le);
      HeadBack(low, high);
      HeadBack(low, [x] + high);
    }
  }

  lemma {:induction false} HeadBack(low: seq<string>, rest: seq<string>)
    requires low != []
    ensures [low[0]] + (low[1..] + rest) == low + rest
  {
  }

  ghost predicate AllLe(a: seq<string>, b: seq<string>, le: (string, string) -> bool) {
    forall x, y :: x in a && y in b ==> le(x, y)
  }

  ghost predicate NoneLe(a: seq<string>, b: seq<string>, le: (string, string) -> bool) {
    forall x, y :: x in a && y in b ==> !le(x, y)
  }

  lemma {:induction false} SortRotates(ahead: seq<string>, rest: seq<string>, le: (string, string) -> bool)
    requires AllLe(ahead, ahead, le) && AllLe(rest, rest, le) && NoneLe(ahead, rest, le)
    ensures Sort(ahead + rest, le) == rest + ahead
  {
    if ahead == [] {
      SortLevel(rest, le);
      assert ahead + rest == rest && rest + ahead == rest;
    } else {
      assert forall y :: y in ahead[1..] ==> y in ahead;
      SortRotates(ahead[1..], rest, le);
      assert ahead[0] in ahead;
      RotateStep(ahead[0], ahead[1..], rest, le);
      Regroup(ahead, rest);
    }
  }

  lemma {:induction false} RotateStep(x: string, more: seq<string>, rest: seq<string>, le: (string, string) -> bool)
    requires (forall y :: y in rest ==> !le(x, y)) && (forall y :: y in more ==> le(x, y))
    requires Sort(more + rest, le) == rest + more
    ensures Sort([x] + (more + rest), le) == rest + ([x] + more)
  {
    SortCons(x, more + rest, le);
    InsertAfter(x, rest, more, le);
  }

  lemma {:induction false} Regroup(ahead: seq<string>, rest: seq<string>)
    requires ahead != []
    ensures [ahead[0]] + (ahead[1..] + rest) == ahead + rest
    ensures rest + ([ahead[0]] + ahead[1..]) == rest + ahead
  {
  }

  lemma {:induction false} SortCons(x: string, s: seq<string>, le: (string, string) -> bool)
    ensures Sort([x] + s, le) == Insert(x, Sort(s, le), le)
  {
    assert ([x] + s)[1..] == s;
  }

  lemma {:induction false} RankedIsTurn(tried: map<string, nat>, paths: seq<string>, q: nat, cur: nat)
    requires Turn(tried, paths, q, cur)
    ensures RankedOf(tried, paths) == paths[cur..] + paths[..cur]
  {
    assert paths == paths[..cur] + paths[cur..];
    SortRotates(paths[..cur], paths[cur..], ByTries(tried));
  }

  /** Whether the pass that starts at `cur` asks for the i-th of n paths. */
  predicate InTurn(i: nat, cur: nat, k: nat, n: nat) {
    cur <= i < cur + k || i + n < cur + k
  }

  lemma {:induction false} AskedInTurn(tried: map<string, nat>, paths: seq<string>, cap: nat, q: nat, cur: nat, i: nat)
    requires Turn(tried, paths, q, cur) && cur < |paths| && Distinct(paths) && i < |paths|
    ensures paths[i] in Asked(tried, paths, cap) <==> InTurn(i, cur, Least(|paths|, cap), |paths|)
  {
    RankedIsTurn(tried, paths, q, cur);
    var n, k := |paths|, Least(|paths|, cap);
    var ranked := paths[cur..] + paths[..cur];
    var at := if i >= cur then i - cur else i + n - cur;
    assert ranked[at] == paths[i];
    RotationDistinct(paths, cur);
    assert at < k ==> ranked[..k][at] == paths[i];
  }

  lemma {:induction false} RotationDistinct(paths: seq<string>, cur: nat)
    requires Distinct(paths) && cur <= |paths|
    ensures Distinct(paths[cur..] + paths[..cur])
  {
    assert paths == paths[..cur] + paths[cur..];
    assert multiset(paths) == multiset(paths[cur..] + paths[..cur]);
    DistinctFromMultiset(paths, paths[cur..] + paths[..cur]);
  }

  // ----- a run of passes, by what each picks

  type Picker = map<string, nat> -> seq<string>

  function PicksOf(paths: seq<string>, cap: nat): Picker {
    tried => Asked(tried, paths, cap)
  }

  /** Serves n paths k at a time, in turn. */
  ghost predicate InOrder(pick: Picker, paths: seq<string>, k: nat) {
    forall tried, q: nat, cur: nat ::
      Turn(tried, paths, q, cur) && cur < |paths| ==> PicksTurn(pick, paths, k, tried, cur)
  }

  ghost predicate PicksTurn(pick: Picker, paths: seq<string>, k: nat, tried: map<string, nat>, cur: nat) {
    forall i :: 0 <= i < |paths| ==> (paths[i] in pick(tried) <==> InTurn(i, cur, k, |paths|))
  }

  lemma {:induction false} RankingInOrder(paths: seq<string>, cap: nat)
    requires Distinct(paths)
    ensures InOrder(PicksOf(paths, cap), paths, Least(|paths|, cap))
  {
    forall tried, q: nat, cur: nat | Turn(tried, paths, q, cur) && cur < |paths|
      ensures PicksTurn(PicksOf(paths, cap), paths, Least(|paths|, cap), tried, cur) {
      forall i | 0 <= i < |paths|
        ensures paths[i] in PicksOf(paths, cap)(tried) <==> InTurn(i, cur, Least(|paths|, cap), |paths|) {
        AskedInTurn(tried, paths, cap, q, cur, i);
      }
    }
  }

  /** Counts after m passes. */
  function AfterPasses(tried: map<string, nat>, pick: Picker, m: nat): map<string, nat> {
    if m == 0 then tried
    else var before := AfterPasses(tried, pick, m - 1); Counted(before, Members(pick(before)))
  }

  /** A pass moves the turn on by as many paths as it asked for. */
  lemma {:induction false} TurnMoves(tried: map<string, nat>, pick: Picker, paths: seq<string>, k: nat, q: nat,
      cur: nat)
    requires InOrder(pick, paths, k) && k <= |paths| && Turn(tried, paths, q, cur) && cur < |paths|
    ensures var tried' := Counted(tried, Members(pick(tried)));
            if cur + k < |paths| then Turn(tried', paths, q, cur + k) else Turn(tried', paths, q + 1, cur + k - |paths|)
  {
    assert PicksTurn(pick, paths, k, tried, cur);
  }

  lemma {:induction false} TurnAfter(tried: map<string, nat>, pick: Picker, paths: seq<string>, k: nat, m: nat, q: nat)
    returns (q': nat, cur: nat)
    requires paths != [] && InOrder(pick, paths, k) && k <= |paths| && forall p :: p in paths ==> Count(tried, p) == q
    ensures cur < |paths| && Turn(AfterPasses(tried, pick, m), paths, q', cur)
  {
    if m == 0 {
      q', cur := q, 0;
    } else {
      q', cur := TurnAfter(tried, pick, paths, k, m - 1, q);
      TurnMoves(AfterPasses(tried, pick, m - 1), pick, paths, k, q', cur);
      if cur + k < |paths| {
        cur := cur + k;
      } else {
        q', cur := q' + 1, cur + k - |paths|;
      }
    }
  }

  /** From a pass whose turn is some paths away, a path is asked for within j
      passes when j of them cover more than that. */
  lemma {:induction false} ComesWithin(tried: map<string, nat>, pick: Picker, paths: seq<string>, k: nat, m: nat,
      q: nat, cur: nat, i: nat, j: nat) returns (at: nat)
    requires InOrder(pick, paths, k) && 0 < k <= |paths| && i < |paths| && cur < |paths|
    requires Turn(AfterPasses(tried, pick, m), paths, q, cur)
    requires (if i >= cur then i - cur else i + |paths| - cur) < j * k
    ensures m <= at < m + j && paths[i] in pick(AfterPasses(tried, pick, at))
    decreases j
  {
    var now := AfterPasses(tried, pick, m);
    assert PicksTurn(pick, paths, k, now, cur);
    PassesLeft(j, k);
    if InTurn(i, cur, k, |paths|) {
      at := m;
    } else {
      TurnMoves(now, pick, paths, k, q, cur);
      if cur + k < |paths| {
        at := ComesWithin(tried, pick, paths, k, m + 1, q, cur + k, i, j - 1);
      } else {
        at := ComesWithin(tried, pick, paths, k, m + 1, q + 1, cur + k - |paths|, i, j - 1);
      }
    }
  }

  lemma {:induction false} PassesLeft(j: nat, k: nat)
    ensures j == 0 ==> j * k == 0
    ensures (j - 1) * k == j * k - k
  {
  }

  /** Nobody starves: started from equal counts, each of the pending paths is
      asked for in every run of r passes that together have room for them all. */
  lemma {:induction false} AskedInEveryRun(tried: map<string, nat>, paths: seq<string>, cap: nat, q: nat, m: nat,
      r: nat, i: nat) returns (at: nat)
    requires Distinct(paths) && i < |paths| && cap > 0 && forall p :: p in paths ==> Count(tried, p) == q
    requires r * cap >= |paths|
    ensures m <= at < m + r && paths[i] in Asked(AfterPasses(tried, PicksOf(paths, cap), at), paths, cap)
  {
    var pick, k := PicksOf(paths, cap), Least(|paths|, cap);
    RankingInOrder(paths, cap);
    var q', cur := TurnAfter(tried, pick, paths, k, m, q);
    RoomEnough(|paths|, cap, r);
    at := ComesWithin(tried, pick, paths, k, m, q', cur, i, r);
  }

  lemma {:induction false} RoomEnough(n: nat, cap: nat, r: nat)
    requires n > 0 && cap > 0 && r * cap >= n
    ensures r * Least(n, cap) >= n
  {
    if n < cap {
      assert (r - 1) * n == r * n - n;
    }
  }
}
