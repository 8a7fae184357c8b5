/** The tree a build comes to, said without the arena: parts joined level by level until
    one is left. PrefetchTree joins nodes in place and is proved to come to the same. */
module TreeBuild {
  import opened Basics
  import opened TreePolicy
  import opened TreeShape
  import opened TreeLayout
  import opened TreeSteps

  /** A leaf's files, or nodes under one. */
  datatype Plan = Leaf(files: seq<Entry>) | Inner(kids: seq<Plan>)

  /** A part still to be joined, and the level it is at. */
  datatype Part = Part(plan: Plan, level: nat)

  // ----- level by level

  /** How many parts from the first on are at or below a level, up to a number. */
  function RunLength(ps: seq<Part>, level: nat, most: nat): (n: nat)
    ensures n <= |ps| && n <= most
  {
    if ps == [] || most == 0 || ps[0].level > level then 0 else 1 + RunLength(ps[1..], level, most - 1)
  }

  /** Parts next to each other as one, a level up; one alone is not wrapped. */
  function Join(ps: seq<Part>, level: nat): Part
    requires ps != []
  {
    Part(if |ps| == 1 then ps[0].plan else Inner(Plans(ps)), level + 1)
  }

  function Plans(ps: seq<Part>): (r: seq<Plan>)
    ensures |r| == |ps|
  {
    seq(|ps|, i requires 0 <= i < |ps| => ps[i].plan)
  }

  /** One level: parts above it pass, and each run of others becomes one. */
  function LevelUp(ps: seq<Part>, level: nat, branching: int): seq<Part>
    requires branching >= 2
    decreases |ps|
  {
    if ps == [] then []
    else if ps[0].level > level then [ps[0]] + LevelUp(ps[1..], level, branching)
    else
      var n := RunLength(ps, level, branching);
      [Join(ps[..n], level)] + LevelUp(ps[n..], level, branching)
  }

  /** The parts after so many levels, from level 0 up. */
  function Levels(ps: seq<Part>, branching: int, n: nat): seq<Part>
    requires branching >= 2
  {
    if n == 0 then ps else LevelUp(Levels(ps, branching, n - 1), n - 1, branching)
  }

  ghost predicate OneAt(ps: seq<Part>, branching: int, n: nat)
    requires branching >= 2
  {
    |Levels(ps, branching, n)| == 1 && forall m: nat :: m < n ==> |Levels(ps, branching, m)| > 1
  }

  /** What the parts come to: the one left after the first level with no more. */
  ghost predicate ComesToOne(ps: seq<Part>, branching: int, plan: Plan) {
    branching >= 2 && exists n: nat :: OneAt(ps, branching, n) && Levels(ps, branching, n)[0].plan == plan
  }

  /** Each leaf as a part, at the smallest level whose node size holds it. */
  ghost predicate PartsFor(leafBytes: int, ps: seq<Part>, ls: seq<seq<Entry>>) {
    |ps| == |ls| && forall i :: 0 <= i < |ls| ==>
      ps[i].plan == Leaf(ls[i]) && LevelFits(leafBytes, SumSizes(ls[i]), ps[i].level)
  }

  /** The tree laid out from files in walk order. */
  ghost predicate LaidOut(layout: Layout, small: seq<Entry>, plan: Plan) {
    var ls := Leaves(layout, small, []);
    if ls == [] then plan == Leaf([])
    else exists ps :: PartsFor(layout.leafBytes, ps, ls) && ComesToOne(ps, layout.branching, plan)
  }

  lemma {:induction false} RunLengthIs(ps: seq<Part>, level: nat, most: nat, n: nat)
    requires n <= |ps| && n <= most && (forall i :: 0 <= i < n ==> ps[i].level <= level)
    requires n == |ps| || n == most || ps[n].level > level
    ensures RunLength(ps, level, most) == n
  {
    if n > 0 {
      assert forall i :: 0 <= i < |ps[1..]| ==> ps[1..][i] == ps[i + 1];
      RunLengthIs(ps[1..], level, most - 1, n - 1);
    }
  }

  // ----- read off the arena

  ghost function PlanOf(sh: Shape, n: nat): Plan
    decreases n, 1, 0
  {
    if n >= |sh| then Leaf([]) else if sh[n].kids == [] then Leaf(sh[n].entries) else Inner(PlansOf(sh, sh[n].kids, n))
  }

  ghost function PlansOf(sh: Shape, ks: seq<nat>, bound: nat): seq<Plan>
    decreases bound, 0, |ks|
  {
    if ks == [] then []
    else [if ks[0] < bound then PlanOf(sh, ks[0]) else Leaf([])] + PlansOf(sh, ks[1..], bound)
  }

  ghost function PartsOf(sh: Shape, items: seq<Item>): (r: seq<Part>)
    ensures |r| == |items|
  {
    seq(|items|, i requires 0 <= i < |items| => Part(PlanOf(sh, items[i].n), items[i].level))
  }

  lemma {:induction false} PlanFrame(sh: Shape, sh': Shape, n: nat)
    requires SameBelow(sh, sh', n + 1)
    ensures PlanOf(sh, n) == PlanOf(sh', n)
    decreases n, 1, 0
  {
    PlansFrame(sh, sh', sh[n].kids, n);
  }

  lemma {:induction false} PlansFrame(sh: Shape, sh': Shape, ks: seq<nat>, bound: nat)
    requires SameBelow(sh, sh', bound)
    ensures PlansOf(sh, ks, bound) == PlansOf(sh', ks, bound)
    decreases bound, 0, |ks|
  {
    if ks != [] {
      if ks[0] < bound {
        PlanFrame(sh, sh', ks[0]);
      }
      PlansFrame(sh, sh', ks[1..], bound);
    }
  }

  lemma {:induction false} PartsFrame(sh: Shape, sh': Shape, items: seq<Item>)
    requires SameBelow(sh, sh', |sh|) && forall i :: 0 <= i < |items| ==> items[i].n < |sh|
    ensures PartsOf(sh, items) == PartsOf(sh', items)
  {
    forall i | 0 <= i < |items| ensures PlanOf(sh, items[i].n) == PlanOf(sh', items[i].n) {
      PlanFrame(sh, sh', items[i].n);
    }
  }

  lemma {:induction false} PlansAre(sh: Shape, items: seq<Item>, bound: nat)
    requires forall i :: 0 <= i < |items| ==> items[i].n < bound
    ensures PlansOf(sh, Ids(items), bound) == Plans(PartsOf(sh, items))
  {
    if items == [] {
      assert Ids(items) == [] && Plans(PartsOf(sh, items)) == [];
    } else {
      PlansAre(sh, items[1..], bound);
      assert Ids(items)[1..] == Ids(items[1..]);
      assert Plans(PartsOf(sh, items)) == [PlanOf(sh, items[0].n)] + Plans(PartsOf(sh, items[1..]));
    }
  }

  /** The new node over a run of items is what the run comes to. */
  lemma {:induction false} JoinedPlan(sh: Shape, items: seq<Item>, level: nat)
    requires |items| > 1 && forall i :: 0 <= i < |items| ==> items[i].n < |sh|
    requires SameBelow(sh, Joined(sh, Ids(items)), |sh|)
    ensures Part(PlanOf(Joined(sh, Ids(items)), |sh|), level + 1) == Join(PartsOf(sh, items), level)
  {
    var sh' := Joined(sh, Ids(items));
    PartsFrame(sh, sh', items);
    PlansAre(sh', items, |sh|);
    assert Ids(items) != [];
  }

  /** How a level goes on: what is done, and what the rest comes to. Given to a proof
      only where one of the lemmas below is. */
  ghost predicate Toward(sh: Shape, next: seq<Item>, rest: seq<Item>, level: nat, branching: int, goal: seq<Part>) {
    forall u {:trigger Unlocked(u)} :: Unlocked(u) ==>
      branching >= 2 && PartsOf(sh, next) + LevelUp(PartsOf(sh, rest), level, branching) == goal
  }

  lemma {:induction false} TowardPasses(sh: Shape, next: seq<Item>, rest: seq<Item>, level: nat, branching: int,
      goal: seq<Part>)
    requires Toward(sh, next, rest, level, branching, goal) && rest != [] && rest[0].level > level
    ensures Toward(sh, next + [rest[0]], rest[1..], level, branching, goal)
  {
    assert Unlocked(0);
    assert PartsOf(sh, rest)[1..] == PartsOf(sh, rest[1..]);
    assert PartsOf(sh, next + [rest[0]]) == PartsOf(sh, next) + [PartsOf(sh, rest)[0]];
  }

  ghost predicate InArena(sh: Shape, items: seq<Item>) {
    forall i :: 0 <= i < |items| ==> items[i].n < |sh|
  }

  /** A run of n items becomes the item of node p. */
  lemma {:induction false} TowardJoins(sh: Shape, sh': Shape, next: seq<Item>, rest: seq<Item>, n: nat, p: nat,
      level: nat, branching: int, goal: seq<Part>)
    requires Toward(sh, next, rest, level, branching, goal) && IsRun(rest, n, level, branching)
    requires SameBelow(sh, sh', |sh|) && InArena(sh, next) && InArena(sh, rest)
    requires if n == 1 then p == rest[0].n else sh' == Joined(sh, Ids(rest[..n])) && p == |sh|
    ensures Toward(sh', next + [Item(p, level + 1)], rest[n..], level, branching, goal)
  {
    assert Unlocked(0);
    RunOfParts(sh, rest, n, level, branching);
    LevelJoins(PartsOf(sh, next), PartsOf(sh, rest), n, level, branching);
    PartsFrame(sh, sh', next);
    PartsFrame(sh, sh', rest[n..]);
    JoinedPart(sh, sh', rest[..n], p, level);
    PartsMore(sh', next, Item(p, level + 1));
  }

  /** The same of a run within a row. */
  lemma {:induction false} TowardNext(sh: Shape, sh': Shape, next: seq<Item>, items: seq<Item>, i: nat, end: nat,
      p: nat,
      level: nat, branching: int, goal: seq<Part>)
    requires i < end <= |items| && IsRun(items[i..], end - i, level, branching)
    requires Toward(sh, next, items[i..], level, branching, goal)
    requires SameBelow(sh, sh', |sh|) && InArena(sh, next) && InArena(sh, items[i..])
    requires if end - i == 1 then p == items[i].n else sh' == Joined(sh, Ids(items[i..end])) && p == |sh|
    ensures Toward(sh', next + [Item(p, level + 1)], items[end..], level, branching, goal)
  {
    assert items[i..][end - i..] == items[end..] && items[i..][..end - i] == items[i..end];
    TowardJoins(sh, sh', next, items[i..], end - i, p, level, branching, goal);
  }

  /** n items from the first on, all at or below a level, and no more of them to take. */
  ghost predicate IsRun(items: seq<Item>, n: nat, level: nat, branching: int) {
    && 0 < n <= |items| && n <= branching && (forall i :: 0 <= i < n ==> items[i].level <= level)
    && (n == |items| || n == branching || items[n].level > level)
  }

  lemma {:induction false} RunOfParts(sh: Shape, items: seq<Item>, n: nat, level: nat, branching: int)
    requires IsRun(items, n, level, branching)
    ensures var ps := PartsOf(sh, items);
      && RunLength(ps, level, branching) == n && ps[..n] == PartsOf(sh, items[..n])
        && ps[n..] == PartsOf(sh, items[n..])
  {
    RunLengthIs(PartsOf(sh, items), level, branching, n);
  }

  lemma {:induction false} PartsMore(sh: Shape, items: seq<Item>, x: Item)
    ensures PartsOf(sh, items + [x]) == PartsOf(sh, items) + [Part(PlanOf(sh, x.n), x.level)]
  {
  }

  lemma {:induction false} LevelJoins(done: seq<Part>, ps: seq<Part>, n: nat, level: nat, branching: int)
    requires branching >= 2 && ps != [] && ps[0].level <= level && RunLength(ps, level, branching) == n > 0
    ensures done + LevelUp(ps, level, branching)
      == done + [Join(ps[..n], level)] + LevelUp(ps[n..], level, branching)
  {
  }

  lemma {:induction false} JoinedPart(sh: Shape, sh': Shape, run: seq<Item>, p: nat, level: nat)
    requires run != [] && SameBelow(sh, sh', |sh|) && (forall i :: 0 <= i < |run| ==> run[i].n < |sh|)
    requires if |run| == 1 then p == run[0].n else sh' == Joined(sh, Ids(run)) && p == |sh|
    ensures Part(PlanOf(sh', p), level + 1) == Join(PartsOf(sh, run), level)
  {
    if |run| == 1 {
      PlanFrame(sh, sh', p);
    } else {
      JoinedPlan(sh, run, level);
    }
  }

  lemma {:induction false} TowardStart(sh: Shape, items: seq<Item>, level: nat, branching: int)
    requires branching >= 2
    ensures Toward(sh, [], items, level, branching, LevelUp(PartsOf(sh, items), level, branching))
  {
    assert PartsOf(sh, []) == [];
  }

  lemma {:induction false} TowardEnd(sh: Shape, next: seq<Item>, level: nat, branching: int, goal: seq<Part>)
    requires Toward(sh, next, [], level, branching, goal)
    ensures PartsOf(sh, next) == goal
  {
    assert Unlocked(0);
    assert PartsOf(sh, []) == [];
  }

  /** Leaves just planted are the parts a build starts from. */
  lemma {:induction false} PlantedParts(leafBytes: int, sh: Shape, items: seq<Item>, ls: seq<seq<Entry>>)
    requires |sh| == |ls| && (forall n :: 0 <= n < |ls| ==> sh[n] == Node(NONE, [], ls[n]))
    requires ItemsFor(leafBytes, items, 0, ls)
    ensures PartsFor(leafBytes, PartsOf(sh, items), ls)
  {
  }
}
