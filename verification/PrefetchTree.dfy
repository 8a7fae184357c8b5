/** The prefetch tree of one share: laid out from the walk, its counters moved
    in place along parent links, read by the promotion policy. Every operation
    is specified on the flat map from path to state that it indexes. */
module PrefetchTree {
  import opened Basics
  import opened Sorting
  import opened TreePolicy
  import opened TreeShape
  import opened TreeLayout
  import opened TreeSteps
  import opened TreeBuild
  import opened TreePromotion

  class Tree {
    var layout: Layout
    var entries: seq<Entry>

    // The arena: links and files, file states, and counters, by node number.
    var shape: Shape
    var state: States
    var sums: seq<Counters>
    var root: nat

    // The leaf and index of a path; absent for one above largeFile or unknown.
    var where: Where

    ghost predicate Indexed()
      reads this`shape, this`state, this`sums, this`where
    {
      IndexOk(shape, state, sums, where)
    }

    ghost predicate Rooted()
      reads this`layout, this`shape, this`root
    {
      && root < |shape| && Loose(shape, [root])
      && (LimitsOk(layout, shape) || shape == [Node(NONE, [], [])])
    }

    /** Indexed, given to a proof only where it says UnfoldSound. */
    ghost predicate Sound()
      reads this`shape, this`state, this`sums, this`where
    {
      forall k {:trigger Unlocked(k)} :: Unlocked(k) ==> Indexed()
    }

    lemma {:induction false} UnfoldSound()
      requires Sound()
      ensures Indexed()
    {
      assert Unlocked(0);
    }

    /** What only a rebuild changes. */
    ghost predicate Fixed()
      reads this`layout, this`entries, this`shape, this`root
    {
      && layout.Usable() && DistinctPaths(entries) && Rooted()
      && multiset(Under(shape, root)) == multiset(Small(layout, entries))
    }

    /** The whole invariant, given to a proof only where it says Unfold(): most
        steps just pass it on. */
    ghost predicate Valid()
      reads this
    {
      forall k {:trigger Unlocked(k)} :: Unlocked(k) ==> Fixed() && Indexed()
    }

    lemma {:induction false} Unfold()
      requires Valid()
      ensures Fixed() && Indexed()
    {
      assert Unlocked(0);
    }

    /** What the tree says of each path. */
    ghost function Flat(): Flat
      reads this`where, this`state
    {
      FlatOf(where, state)
    }

    /** What the invariant says of the files and sums of every node. */
    lemma {:induction false} Contents()
      requires Valid()
      ensures DistinctPaths(Under(shape, root)) && Paths(Under(shape, root)) == where.Keys == Flat().Keys
      ensures FlatOk(Under(shape, root), Flat())
      ensures Paths(Under(shape, root)) == Paths(Small(layout, entries))
    {
      Unfold();
      SmallDistinct(layout, entries);
      DistinctPerm(Small(layout, entries), Under(shape, root));
      SamePaths(Small(layout, entries), Under(shape, root));
      RootPaths(shape, where, root);
      FlatUnder(shape, state, where, root);
    }

    /** The counters of every node are the sums over the files below it. */
    lemma {:induction false} CountersAreSums(n: nat)
      requires Valid() && n < |shape|
      ensures |sums| == |shape| && sums[n] == Tally(Under(shape, n), Flat())
      ensures DistinctPaths(Under(shape, n)) && FlatOk(Under(shape, n), Flat())
      ensures forall e :: e in Under(shape, n) ==> e in Under(shape, root)
    {
      Unfold();
      Contents();
      UnderRoot(shape, root, n);
      SumIsTally(shape, state, sums, where, n);
      FlatUnder(shape, state, where, n);
    }

    /** Every file the tree holds, in tree order. */
    ghost function All(): seq<Entry>
      reads this`shape, this`root
    {
      Under(shape, root)
    }

    /** What is marked stored, over every file. */
    ghost function Marked(): Counters
      reads this`shape, this`root, this`where, this`state
    {
      Tally(All(), Flat())
    }

    lemma {:induction false} AllOk()
      requires Valid()
      ensures DistinctPaths(All()) && FlatOk(All(), Flat()) && layout.largeFile > 0
      ensures forall e :: e in All() ==> e in entries && e.size <= layout.largeFile
    {
      Unfold();
      Contents();
      SamePaths(Small(layout, entries), Under(shape, root));
      forall e | e in All() ensures e in entries && e.size <= layout.largeFile {
        SmallIn(layout, entries, e);
      }
    }

    // ----- laying out

    /** The smallest level whose node size holds a file. */
    method LevelFor(size: nat) returns (level: nat)
      requires layout.leafBytes > 0
      ensures LevelFits(layout.leafBytes, size, level)
    {
      level := 0;
      var span := layout.leafBytes;
      while span < size
        invariant span == layout.leafBytes * Pow2(level) && span > 0
        invariant level > 0 ==> layout.leafBytes * Pow2(level - 1) < size
        decreases size - span
      {
        span := span * 2;
        level := level + 1;
      }
    }

    /** Enters the files of leaf n, and counts their bytes. */
    method Enter(n: nat, es: seq<Entry>) returns (bytes: int)
      modifies this`where
      ensures bytes == SumSizes(es) && where == Entered(old(where), n, es, |es|)
    {
      bytes := 0;
      var i := 0;
      while i < |es|
        invariant 0 <= i <= |es| && bytes == SumSizes(es[..i])
        invariant where == Entered(old(where), n, es, i)
      {
        assert es[..i+1][..i] == es[..i];
        bytes := bytes + es[i].size;
        where := where[es[i].path := Location(n, i)];
        i := i + 1;
      }
      assert es[..i] == es;
    }

    /** Adds a leaf. */
    method Emit(es: seq<Entry>, ghost ls: seq<seq<Entry>>)
      requires Planted(shape, state, sums, where, ls) && DistinctPaths(Flatten(ls + [es]))
      modifies this`shape, this`state, this`sums, this`where
      ensures Planted(shape, state, sums, where, ls + [es])
    {
      PlantedGrows(shape, state, sums, where, ls, es);
      var bytes := Enter(|shape|, es);
      shape := WithLeaf(shape, es);
      state := state + [Fresh(|es|)];
      sums := sums + [Counters(bytes, 0, 0, |es|, 0)];
    }

    /** Adds a leaf and its item; rest is what is still to come. */
    method EmitItem(es: seq<Entry>, level: nat, items: seq<Item>, ghost ls: seq<seq<Entry>>,
        ghost done: seq<seq<Entry>>, ghost rest: seq<seq<Entry>>)
      returns (out: seq<Item>)
      requires Planted(shape, state, sums, where, ls + done) && DistinctPaths(Flatten(ls + (done + [es] + rest)))
      requires ItemsFor(layout.leafBytes, items, |ls|, done) && LevelFits(layout.leafBytes, SumSizes(es), level)
      modifies this`shape, this`state, this`sums, this`where
      ensures Planted(shape, state, sums, where, ls + (done + [es]))
      ensures ItemsFor(layout.leafBytes, out, |ls|, done + [es])
    {
      assert ls + (done + [es] + rest) == (ls + done + [es]) + rest;
      FlattenPrefix(ls + done + [es], rest);
      out := items + [Item(|shape|, level)];
      Emit(es, ls + done);
      assert ls + done + [es] == ls + (done + [es]);
    }

    /** The leaf being filled, if any, is emitted. */
    method EmitCur(cur: seq<Entry>, items: seq<Item>, ghost ls: seq<seq<Entry>>, ghost done: seq<seq<Entry>>,
        ghost rest: seq<seq<Entry>>)
      returns (out: seq<Item>, ghost done': seq<seq<Entry>>)
      requires layout.leafBytes > 0 && SumSizes(cur) <= layout.leafBytes
      requires Planted(shape, state, sums, where, ls + done) && ItemsFor(layout.leafBytes, items, |ls|, done)
      requires DistinctPaths(Flatten(ls + (done + Full(cur) + rest)))
      modifies this`shape, this`state, this`sums, this`where
      ensures done' == done + Full(cur)
      ensures Planted(shape, state, sums, where, ls + done') && ItemsFor(layout.leafBytes, out, |ls|, done')
    {
      out, done' := items, done + Full(cur);
      if |cur| > 0 {
        out := EmitItem(cur, 0, items, ls, done, rest);
      } else {
        assert done' == done;
      }
    }

    /** Takes up one file of a window: cur is the leaf being filled. */
    method CutEntry(window: seq<Entry>, i: nat, cur: seq<Entry>, size: int, items: seq<Item>, ghost ls: seq<seq<Entry>>,
        ghost done: seq<seq<Entry>>, ghost all: seq<seq<Entry>>)
      returns (cur': seq<Entry>, size': int, out: seq<Item>, ghost done': seq<seq<Entry>>)
      requires layout.leafBytes > 0 && i < |window| && size == SumSizes(cur) && size <= layout.leafBytes
      requires Planted(shape, state, sums, where, ls + done) && ItemsFor(layout.leafBytes, items, |ls|, done)
      requires DistinctPaths(Flatten(ls + all)) && CutTo(layout.leafBytes, all, done, window, i, cur)
      modifies this`shape, this`state, this`sums, this`where
      ensures size' == SumSizes(cur') && size' <= layout.leafBytes
        && CutTo(layout.leafBytes, all, done', window, i + 1, cur')
      ensures Planted(shape, state, sums, where, ls + done') && ItemsFor(layout.leafBytes, out, |ls|, done')
    {
      var e := window[i];
      CutMore(layout.leafBytes, all, done, window, i, cur);
      if e.size > layout.leafBytes {
        out := CutLarge(e, cur, items, ls, done, Cut(layout.leafBytes, window[i+1..], []));
        done', cur', size' := done + Full(cur) + [[e]], [], 0;
      } else if size + e.size > layout.leafBytes && |cur| > 0 {
        out, done' := EmitCur(cur, items, ls, done, Cut(layout.leafBytes, window[i+1..], [e]));
        cur', size' := [e], e.size;
      } else {
        out, done', cur', size' := items, done, cur + [e], size + e.size;
      }
    }

    /** A file too large for a shared leaf gets one of its own, at its own level. */
    method CutLarge(e: Entry, cur: seq<Entry>, items: seq<Item>, ghost ls: seq<seq<Entry>>, ghost done: seq<seq<Entry>>,
        ghost after: seq<seq<Entry>>) returns (out: seq<Item>)
      requires layout.leafBytes > 0 && SumSizes(cur) <= layout.leafBytes && e.size > layout.leafBytes
      requires Planted(shape, state, sums, where, ls + done) && ItemsFor(layout.leafBytes, items, |ls|, done)
      requires DistinctPaths(Flatten(ls + (done + Full(cur) + [[e]] + after)))
      modifies this`shape, this`state, this`sums, this`where
      ensures Planted(shape, state, sums, where, ls + (done + Full(cur) + [[e]]))
        && ItemsFor(layout.leafBytes, out, |ls|, done + Full(cur) + [[e]])
    {
      assert done + Full(cur) + [[e]] + after == done + Full(cur) + ([[e]] + after);
      ghost var done';
      out, done' := EmitCur(cur, items, ls, done, [[e]] + after);
      var level := LevelFor(e.size);
      out := EmitItem([e], level, out, ls, done', after);
    }

    /** Turns one sorted window into leaves. */
    method CutWindow(window: seq<Entry>, ghost ls: seq<seq<Entry>>) returns (out: seq<Item>)
      requires layout.leafBytes > 0 && Planted(shape, state, sums, where, ls)
      requires DistinctPaths(Flatten(ls + Cut(layout.leafBytes, window, [])))
      modifies this`shape, this`state, this`sums, this`where
      ensures Planted(shape, state, sums, where, ls + Cut(layout.leafBytes, window, []))
      ensures ItemsFor(layout.leafBytes, out, |ls|, Cut(layout.leafBytes, window, []))
    {
      out := [];
      var cur: seq<Entry> := [];
      var size := 0;
      ghost var all := Cut(layout.leafBytes, window, []);
      ghost var done: seq<seq<Entry>> := [];
      assert ls + done == ls;
      CutNone(layout.leafBytes, window);
      var i := 0;
      while i < |window|
        invariant 0 <= i <= |window| && size == SumSizes(cur) && size <= layout.leafBytes
        invariant CutTo(layout.leafBytes, all, done, window, i, cur)
        invariant Planted(shape, state, sums, where, ls + done) && ItemsFor(layout.leafBytes, out, |ls|, done)
      {
        cur, size, out, done := CutEntry(window, i, cur, size, out, ls, done, all);
        i := i + 1;
      }
      CutAll(layout.leafBytes, all, done, window, cur);
      out, done := EmitCur(cur, out, ls, done, []);
    }

    /** Sorts a window by size and cuts it into leaves; rest is what is still to
        come. */
    method Flush(window: seq<Entry>, items: seq<Item>, ghost done: seq<seq<Entry>>, ghost rest: seq<seq<Entry>>)
      returns (out: seq<Item>)
      requires layout.leafBytes > 0 && Planted(shape, state, sums, where, done)
      requires ItemsFor(layout.leafBytes, items, 0, done)
      requires DistinctPaths(Flatten(done + Cut(layout.leafBytes, Sort(window, BySizePath), []) + rest))
      modifies this`shape, this`state, this`sums, this`where
      ensures Planted(shape, state, sums, where, done + Cut(layout.leafBytes, Sort(window, BySizePath), []))
      ensures ItemsFor(layout.leafBytes, out, 0, done + Cut(layout.leafBytes, Sort(window, BySizePath), []))
    {
      ghost var cut := Cut(layout.leafBytes, Sort(window, BySizePath), []);
      FlattenPrefix(done + cut, rest);
      var more := CutWindow(Sort(window, BySizePath), done);
      ItemsConcat(layout.leafBytes, items, done, more, cut);
      out := items + more;
    }

    /** Flushes every full window of the walk order; window is what is left. */
    method PlaceFull(es: seq<Entry>) returns (out: seq<Item>, window: seq<Entry>, ghost done: seq<seq<Entry>>)
      requires layout.leafBytes > 0 && Planted(shape, state, sums, where, [])
      requires DistinctPaths(Flatten(Leaves(layout, es, [])))
      modifies this`shape, this`state, this`sums, this`where
      ensures Leaves(layout, es, []) == done + Leaves(layout, [], window)
      ensures Planted(shape, state, sums, where, done) && ItemsFor(layout.leafBytes, out, 0, done)
    {
      var acc: int;
      ghost var all := Leaves(layout, es, []);
      out, window, acc, done := PlaceUpTo(es, all);
      PlacedAll(layout, all, done, es, window);
    }

    /** The loop over the walk order. */
    method PlaceUpTo(es: seq<Entry>, ghost all: seq<seq<Entry>>)
      returns (out: seq<Item>, window: seq<Entry>, acc: int, ghost done: seq<seq<Entry>>)
      requires layout.leafBytes > 0 && Planted(shape, state, sums, where, [])
      requires all == Leaves(layout, es, []) && DistinctPaths(Flatten(all))
      modifies this`shape, this`state, this`sums, this`where
      ensures PlacedTo(layout, all, done, es, |es|, window)
      ensures Planted(shape, state, sums, where, done) && ItemsFor(layout.leafBytes, out, 0, done)
    {
      out, window, acc, done := [], [], 0, [];
      PlacedNone(layout, es);
      var i := 0;
      while i < |es|
        invariant 0 <= i <= |es| && acc == SumSizes(window)
        invariant PlacedTo(layout, all, done, es, i, window)
        invariant Planted(shape, state, sums, where, done)
        invariant ItemsFor(layout.leafBytes, out, 0, done)
      {
        window, acc, out, done := PlaceEntry(es, i, window, acc, out, done, all);
        i := i + 1;
      }
    }

    /** Takes up one file of the walk; a full window is flushed. */
    method PlaceEntry(es: seq<Entry>, i: nat, window: seq<Entry>, acc: int, items: seq<Item>,
        ghost done: seq<seq<Entry>>, ghost all: seq<seq<Entry>>)
      returns (window': seq<Entry>, acc': int, out: seq<Item>, ghost done': seq<seq<Entry>>)
      requires layout.leafBytes > 0 && i < |es| && acc == SumSizes(window) && PlacedTo(layout, all, done, es, i, window)
      requires Planted(shape, state, sums, where, done) && ItemsFor(layout.leafBytes, items, 0, done)
      requires DistinctPaths(Flatten(all))
      modifies this`shape, this`state, this`sums, this`where
      ensures acc' == SumSizes(window') && PlacedTo(layout, all, done', es, i + 1, window')
      ensures Planted(shape, state, sums, where, done') && ItemsFor(layout.leafBytes, out, 0, done')
    {
      out, done', window', acc' := items, done, window + [es[i]], acc + es[i].size;
      PlacedMore(layout, all, done, es, i, window);
      if acc' >= layout.leafBytes * layout.windowLeaves {
        out := Flush(window', items, done, Leaves(layout, es[i+1..], []));
        done' := done + Cut(layout.leafBytes, Sort(window', BySizePath), []);
        window', acc' := [], 0;
      }
    }

    /** Cuts the walk order into windows and each into leaves. */
    method Place(es: seq<Entry>) returns (out: seq<Item>)
      requires layout.leafBytes > 0 && Planted(shape, state, sums, where, [])
      requires DistinctPaths(Flatten(Leaves(layout, es, [])))
      modifies this`shape, this`state, this`sums, this`where
      ensures Planted(shape, state, sums, where, Leaves(layout, es, []))
      ensures ItemsFor(layout.leafBytes, out, 0, Leaves(layout, es, []))
    {
      var window; ghost var done;
      out, window, done := PlaceFull(es);
      if |window| > 0 {
        ghost var cut := Cut(layout.leafBytes, Sort(window, BySizePath), []);
        assert done + cut + [] == done + cut;
        out := Flush(window, out, done, []);
      } else {
        assert done + [] == done;
      }
    }

    /** Adds one carried-over state to a leaf that has no parent yet. */
    method CarryOne(leaf: nat, i: nat, st: FileState)
      requires Indexed() && leaf < |shape| && shape[leaf].parent == NONE && i < |shape[leaf].entries|
      requires StateOk(shape, state, leaf) && state[leaf][i] == UNTOUCHED
      requires st.read <= shape[leaf].entries[i].size && (st.stored ==> st.read == 0)
      modifies this`state, this`sums
      ensures Indexed() && Flat() == old(Flat())[shape[leaf].entries[i].path := st]
    {
      var size := shape[leaf].entries[i].size;
      Restate(shape, state, sums, leaf, i, st);
      FlatUpdate(shape, state, where, leaf, i, st);
      state := state[leaf := state[leaf][i := st]];
      var c := sums[leaf];
      if st.stored {
        sums := sums[leaf := c.(fetched := c.fetched + size, fetchedFiles := c.fetchedFiles + 1)];
      } else {
        sums := sums[leaf := c.(read := c.read + (if st.read <= size then st.read else size))];
      }
    }

    /** Carries state over by path, from the tree as it was. */
    method Carry(prevWhere: Where, prevState: States)
      requires Sound() && Flat() == Carried(where, map[])
      requires forall q {:trigger Carriable(q, prevWhere, prevState)} ::
        q in where && q in prevWhere ==> Carriable(q, prevWhere, prevState)
      modifies this`state, this`sums
      ensures Sound() && Flat() == Carried(where, FlatOf(prevWhere, prevState))
    {
      ghost var prev := FlatOf(prevWhere, prevState);
      var todo := where.Keys;
      NoneCarried(where, prev);
      while todo != {}
        invariant Sound() && todo <= where.Keys && Flat() == Partly(where, prev, todo)
        decreases |todo|
      {
        var q :| q in todo;
        PartlyStep(where, prev, todo, q);
        if q in prevWhere {
          assert Carriable(q, prevWhere, prevState);
          CarryPath(q, prevState[prevWhere[q].leaf][prevWhere[q].idx]);
        } else {
          assert q !in prev;
        }
        todo := todo - {q};
      }
    }

    /** A path whose old state is known and fits the file it is now. */
    ghost predicate Carriable(q: string, prevWhere: Where, prevState: States)
      reads this`shape, this`where
    {
      && q in where && where[q].leaf < |shape| && where[q].idx < |shape[where[q].leaf].entries|
      && shape[where[q].leaf].parent == NONE
      && q in prevWhere && prevWhere[q].leaf < |prevState| && prevWhere[q].idx < |prevState[prevWhere[q].leaf]|
      && var st := prevState[prevWhere[q].leaf][prevWhere[q].idx];
         st.read <= shape[where[q].leaf].entries[where[q].idx].size && (st.stored ==> st.read == 0)
    }

    method CarryPath(q: string, st: FileState)
      requires Sound() && q in where && where[q].leaf < |shape| && where[q].idx < |shape[where[q].leaf].entries|
      requires shape[where[q].leaf].parent == NONE && q in Flat() && Flat()[q] == UNTOUCHED
      requires st.read <= shape[where[q].leaf].entries[where[q].idx].size && (st.stored ==> st.read == 0)
      modifies this`state, this`sums
      ensures Sound() && Flat() == old(Flat())[q := st]
    {
      UnfoldSound();
      assert StateOk(shape, state, where[q].leaf);
      CarryOne(where[q].leaf, where[q].idx, st);
    }

    /** Makes a parent over a run of nodes and sums them into it. */
    method Join(ks: seq<nat>, ghost before: seq<nat>, ghost after: seq<nat>) returns (p: nat)
      requires Indexed() && Loose(shape, before + ks + after) && 2 <= |ks| <= layout.branching
        && LimitsOk(layout, shape)
      modifies this`shape, this`state, this`sums
      ensures Indexed() && p == old(|shape|) && Loose(shape, before + [p] + after) && LimitsOk(layout, shape)
      ensures Row(shape, before + [p] + after) == old(Row(shape, before + ks + after)) && Flat() == old(Flat())
      ensures shape == Joined(old(shape), ks) && SameBelow(old(shape), shape, |old(shape)|)
    {
      assert forall i :: 0 <= i < |ks| ==> (before + ks + after)[|before| + i] == ks[i];
      JoinedRow(shape, before, ks, after);
      JoinedOk(shape, before, ks, after);
      SumsJoined(shape, state, sums, before, ks, after);
      FlatGrows(shape, state, where, [[]]);
      PlacedJoined(shape, where, ks);
      LimitsJoined(layout, shape, ks);
      p := Adopt(ks);
    }

    method Adopt(ks: seq<nat>) returns (p: nat)
      requires |sums| == |shape| && forall i :: 0 <= i < |ks| ==> ks[i] < |shape|
      modifies this`shape, this`state, this`sums
      ensures p == old(|shape|) && shape == Joined(old(shape), ks)
      ensures state == old(state) + [[]] && sums == old(sums) + [SumOver(old(sums), ks)]
    {
      p := |shape|;
      ghost var sh := shape;
      shape := shape + [Node(NONE, [], [])];
      var total := ZERO;
      assert ks[..0] == [];
      assert shape == Joined(sh, ks[..0]);
      var j := 0;
      while j < |ks|
        invariant 0 <= j <= |ks| && shape == Joined(sh, ks[..j]) && sums == old(sums) && state == old(state)
        invariant total == SumOver(sums, ks[..j])
      {
        var k := ks[j];
        JoinedStep(sh, sums, ks, j);
        shape := shape[k := shape[k].(parent := p)];
        shape := shape[p := shape[p].(kids := shape[p].kids + [k])];
        total := total.Plus(sums[k]);
        j := j + 1;
      }
      assert ks[..j] == ks;
      state := state + [[]];
      sums := sums + [total];
    }

    /** A row of items still to be joined, holding these files in this order;
        given to a proof only where it says UnfoldGrowing. */
    ghost predicate Growing(items: seq<Item>, row: seq<Entry>, fl: Flat)
      reads this
    {
      forall k {:trigger Unlocked(k)} :: Unlocked(k) ==>
        && Indexed() && Loose(shape, Ids(items)) && LimitsOk(layout, shape)
        && Row(shape, Ids(items)) == row && Flat() == fl
    }

    lemma {:induction false} UnfoldGrowing(items: seq<Item>, row: seq<Entry>, fl: Flat)
      requires Growing(items, row, fl)
      ensures Indexed() && Loose(shape, Ids(items)) && LimitsOk(layout, shape) && Row(shape, Ids(items)) == row
        && Flat() == fl
    {
      assert Unlocked(0);
    }

    /** How far a run of items at or below level reaches, up to branching. */
    method RunEnd(items: seq<Item>, i: nat, level: nat) returns (end: nat)
      requires i < |items| && items[i].level <= level && layout.branching >= 2
      ensures i < end <= |items| && IsRun(items[i..], end - i, level, layout.branching)
      ensures AllWithin(items, level) && |items| > 1 ==> end > 1
    {
      end := i;
      while end < |items| && end - i < layout.branching && items[end].level <= level
        invariant i <= end <= |items| && end - i <= layout.branching
        invariant forall j :: i <= j < end ==> items[j].level <= level
      {
        end := end + 1;
      }
    }

    /** Joins one run, or moves a lone item up. */
    method JoinRun(items: seq<Item>, i: nat, end: nat, next: seq<Item>, level: nat, ghost row: seq<Entry>,
        ghost fl: Flat, ghost goal: seq<Part>)
      returns (next': seq<Item>)
      requires i < end <= |items| && IsRun(items[i..], end - i, level, layout.branching)
      requires Growing(next + items[i..], row, fl) && Toward(shape, next, items[i..], level, layout.branching, goal)
      modifies this`shape, this`state, this`sums
      ensures Growing(next' + items[end..], row, fl)
      ensures Toward(shape, next', items[end..], level, layout.branching, goal)
      ensures |next'| == |next| + 1 && next'[..|next|] == next && next'[|next|].level == level + 1
    {
      ghost var sh := shape;
      InArenaOf(next, items[i..], row, fl);
      var p := JoinKids(items, i, end, next, row, fl);
      next' := next + [Item(p, level + 1)];
      TowardNext(sh, shape, next, items, i, end, p, level, layout.branching, goal);
      GrowingLevels(next, Item(p, 0), level + 1, items[end..], row, fl);
    }

    /** The node of a run: a new parent, or the lone item's own. */
    method JoinKids(items: seq<Item>, i: nat, end: nat, ghost next: seq<Item>, ghost row: seq<Entry>, ghost fl: Flat)
      returns (p: nat)
      requires i < end <= |items| && end - i <= layout.branching && Growing(next + items[i..], row, fl)
      modifies this`shape, this`state, this`sums
      ensures Growing(next + [Item(p, 0)] + items[end..], row, fl) && SameBelow(old(shape), shape, |old(shape)|)
      ensures if end - i == 1 then p == items[i].n
        else shape == Joined(old(shape), Ids(items[i..end])) && p == |old(shape)|
    {
      ghost var before, after := Ids(next), Ids(items[end..]);
      UnfoldGrowing(next + items[i..], row, fl);
      IdsConcat(next, items[i..]);
      assert items[i..] == items[i..end] + items[end..];
      IdsConcat(items[i..end], items[end..]);
      var ks := seq(end - i, j requires 0 <= j < end - i => items[i + j].n);
      assert ks == Ids(items[i..end]);
      assert Ids(next + items[i..]) == before + ks + after;
      p := items[i].n;
      if end - i > 1 {
        p := Join(ks, before, after);
      } else {
        assert ks == [p];
      }
      IdsConcat(next + [Item(p, 0)], items[end..]);
      assert Ids(next + [Item(p, 0)]) == before + [p];
    }

    /** Only the nodes of the items matter. */
    lemma {:induction false} GrowingLevels(next: seq<Item>, x: Item, level: nat, rest: seq<Item>, row: seq<Entry>,
        fl: Flat)
      requires Growing(next + [x] + rest, row, fl)
      ensures Growing(next + [Item(x.n, level)] + rest, row, fl)
    {
      UnfoldGrowing(next + [x] + rest, row, fl);
      assert Ids(next + [Item(x.n, level)] + rest) == Ids(next + [x] + rest);
    }

    lemma {:induction false} InArenaOf(next: seq<Item>, rest: seq<Item>, row: seq<Entry>, fl: Flat)
      requires Growing(next + rest, row, fl)
      ensures InArena(shape, next) && InArena(shape, rest)
    {
      UnfoldGrowing(next + rest, row, fl);
      var ids := Ids(next + rest);
      assert forall i :: 0 <= i < |next| ==> ids[i] == next[i].n;
      assert forall i :: 0 <= i < |rest| ==> ids[|next| + i] == rest[i].n;
    }

    /** Takes up items from i: one above level passes untouched, a run of others
        becomes one item. */
    method TakeRun(items: seq<Item>, i: nat, next: seq<Item>, level: nat, ghost row: seq<Entry>, ghost fl: Flat,
        ghost goal: seq<Part>)
      returns (next': seq<Item>, end: nat)
      requires i < |items| && Growing(next + items[i..], row, fl) && layout.branching >= 2
      requires Toward(shape, next, items[i..], level, layout.branching, goal)
      modifies this`shape, this`state, this`sums
      ensures i < end <= |items| && Growing(next' + items[end..], row, fl)
      ensures Toward(shape, next', items[end..], level, layout.branching, goal)
      ensures |next'| == |next| + 1 && next'[..|next|] == next
      ensures next'[|next|].level <= level + 1 || next'[|next|] == items[i]
      ensures AllWithin(items, level) && |items| > 1 ==> end > 1
    {
      if items[i].level > level {
        assert next + items[i..] == next + [items[i]] + items[i+1..];
        assert items[i..][0] == items[i] && items[i..][1..] == items[i+1..];
        TowardPasses(shape, next, items[i..], level, layout.branching, goal);
        next', end := next + [items[i]], i + 1;
      } else {
        end := RunEnd(items, i, level);
        next' := JoinRun(items, i, end, next, level, row, fl, goal);
      }
    }

    /** One level of the build: no item rises above most, and with every item at
        or below level there are fewer of them. */
    method BuildLevel(items: seq<Item>, level: nat, ghost most: nat, ghost row: seq<Entry>, ghost fl: Flat)
      returns (next: seq<Item>)
      requires Growing(items, row, fl) && layout.branching >= 2 && AllWithin(items, most) && level < most
      modifies this`shape, this`state, this`sums
      ensures Growing(next, row, fl)
      ensures PartsOf(shape, next) == LevelUp(old(PartsOf(shape, items)), level, layout.branching)
      ensures items != [] ==> next != []
      ensures AllWithin(next, most)
      ensures |items| > 1 && AllWithin(items, level) ==> |next| < |items|
    {
      next := [];
      ghost var goal := LevelUp(PartsOf(shape, items), level, layout.branching);
      var i := 0;
      assert next + items[0..] == items && items[0..] == items;
      TowardStart(shape, items, level, layout.branching);
      while i < |items|
        invariant 0 <= i <= |items| && (i > 0 <==> next != [])
        invariant Growing(next + items[i..], row, fl)
        invariant Toward(shape, next, items[i..], level, layout.branching, goal)
        invariant AllWithin(next, most)
        invariant |items| > 1 && AllWithin(items, level) && i > 0 ==> |next| < i
        decreases |items| - i
      {
        ghost var was := next;
        next, i := TakeRun(items, i, next, level, row, fl, goal);
        assert forall j :: 0 <= j < |was| ==> next[j] == next[..|was|][j] == was[j];
      }
      assert next + items[i..] == next && items[i..] == [];
      TowardEnd(shape, next, level, layout.branching, goal);
    }

    /** Pairs items level by level until one remains. */
    method Build(items: seq<Item>, ghost row: seq<Entry>, ghost fl: Flat) returns (top: nat)
      requires Growing(items, row, fl) && layout.branching >= 2 && items != []
      modifies this`shape, this`state, this`sums
      ensures Indexed() && Loose(shape, [top]) && top < |shape| && LimitsOk(layout, shape)
      ensures Under(shape, top) == row && Flat() == fl
      ensures ComesToOne(old(PartsOf(shape, items)), layout.branching, PlanOf(shape, top))
    {
      ghost var ps := PartsOf(shape, items);
      var at := items;
      var level := 0;
      while |at| > 1
        invariant Growing(at, row, fl) && at != []
        invariant PartsOf(shape, at) == Levels(ps, layout.branching, level)
        invariant forall m: nat :: m < level ==> |Levels(ps, layout.branching, m)| > 1
        decreases if MaxLevel(at) > level then MaxLevel(at) - level else 0, |at|
      {
        ghost var most := if MaxLevel(at) > level + 1 then MaxLevel(at) else level + 1;
        MaxLevelBounds(at, most);
        MaxLevelBounds(at, level);
        at := BuildLevel(at, level, most, row, fl);
        MaxLevelBounds(at, most);
        level := level + 1;
      }
      top := at[0].n;
      assert OneAt(ps, layout.branching, level) && PartsOf(shape, at)[0].plan == PlanOf(shape, top);
      BuiltTop(at, row, fl);
    }

    lemma {:induction false} BuiltTop(at: seq<Item>, row: seq<Entry>, fl: Flat)
      requires Growing(at, row, fl) && |at| == 1
      ensures var top := at[0].n;
        && Indexed() && Loose(shape, [top]) && top < |shape| && LimitsOk(layout, shape)
        && Under(shape, top) == row && Flat() == fl
    {
      var top := at[0].n;
      UnfoldGrowing(at, row, fl);
      assert Ids(at) == [top] && Ids(at)[0] == top;
      assert [top][1..] == [] && Row(shape, []) == [];
    }

    /** The files a tree may hold. */
    method KeepSmall(es: seq<Entry>) returns (small: seq<Entry>)
      ensures small == Small(layout, es)
    {
      small := [];
      var i := 0;
      while i < |es|
        invariant 0 <= i <= |es| && small == Small(layout, es[..i])
      {
        SmallStep(layout, es, i);
        if es[i].size <= layout.largeFile {
          small := small + [es[i]];
        }
        i := i + 1;
      }
      assert es[..i] == es;
    }

    ghost predicate InRange(w: Where, st: States) {
      forall q :: q in w ==> w[q].leaf < |st| && w[q].idx < |st[w[q].leaf]|
    }

    ghost predicate LeadsInto(q: string, small: seq<Entry>)
      reads this`shape, this`where
    {
      && q in where && where[q].leaf < |shape| && where[q].idx < |shape[where[q].leaf].entries|
      && shape[where[q].leaf].entries[where[q].idx] in small
    }

    /** Lays out the leaves of small, nothing fetched. */
    method PlantLeaves(small: seq<Entry>) returns (items: seq<Item>)
      requires layout.Usable() && DistinctPaths(small)
      modifies this`shape, this`state, this`sums, this`where
      ensures Growing(items, Flatten(Leaves(layout, small, [])), Carried(where, map[]))
      ensures PartsFor(layout.leafBytes, PartsOf(shape, items), Leaves(layout, small, []))
      ensures forall n :: 0 <= n < |shape| ==> shape[n].parent == NONE
      ensures forall q :: q in where ==> LeadsInto(q, small)
      ensures items == [] ==> shape == [] && where == map[] && small == []
    {
      LeavesDistinct(layout, small);
      shape, state, sums, where := [], [], [], map[];
      items := Place(small);
      PlantedGrowing(items, small);
      PlantedParts(layout.leafBytes, shape, items, Leaves(layout, small, []));
      if items == [] {
        NothingPlanted(small);
      }
    }

    lemma {:induction false} PlantedGrowing(items: seq<Item>, small: seq<Entry>)
      requires DistinctPaths(small) && Planted(shape, state, sums, where, Leaves(layout, small, []))
      requires ItemsFor(layout.leafBytes, items, 0, Leaves(layout, small, []))
      ensures Growing(items, Flatten(Leaves(layout, small, [])), Carried(where, map[]))
      ensures forall q :: q in where ==> LeadsInto(q, small)
    {
      var ls := Leaves(layout, small, []);
      PlantedOk(shape, state, sums, where, ls);
      PlantedIsFresh(shape, state, sums, where, ls);
      PlantedLimits(layout, shape, state, sums, where, small);
      assert Ids(items) == Range(|shape|);
      PlantedEntries(small);
    }

    lemma {:induction false} PlantedEntries(small: seq<Entry>)
      requires DistinctPaths(small) && Planted(shape, state, sums, where, Leaves(layout, small, []))
      ensures forall q :: q in where ==> LeadsInto(q, small)
    {
      LeavesDistinct(layout, small);
      SamePaths(small, Flatten(Leaves(layout, small, [])));
      forall q | q in where ensures LeadsInto(q, small) {
        EntryOfPath(shape, where, Leaves(layout, small, []), q);
      }
    }

    /** Lays out the leaves of small and carries states over. */
    method Plant(small: seq<Entry>, prevWhere: Where, prevState: States) returns (items: seq<Item>)
      requires layout.Usable() && DistinctPaths(small)
      requires InRange(prevWhere, prevState) && Fits(small, FlatOf(prevWhere, prevState))
      modifies this`shape, this`state, this`sums, this`where
      ensures Growing(items, Flatten(Leaves(layout, small, [])), Carried(where, FlatOf(prevWhere, prevState)))
      ensures PartsFor(layout.leafBytes, PartsOf(shape, items), Leaves(layout, small, []))
      ensures items == [] ==> shape == [] && where == map[] && small == []
    {
      items := PlantLeaves(small);
      UnfoldGrowing(items, Flatten(Leaves(layout, small, [])), Carried(where, map[]));
      forall q | q in where && q in prevWhere ensures Carriable(q, prevWhere, prevState) {
        assert LeadsInto(q, small) && shape[where[q].leaf].entries[where[q].idx].path == q
          && q in FlatOf(prevWhere, prevState);
      }
      Carry(prevWhere, prevState);
      UnfoldSound();
    }

    lemma {:induction false} NothingPlanted(small: seq<Entry>)
      requires Leaves(layout, small, []) == [] && shape == [] && Placed(shape, where)
      ensures where == map[] && small == []
    {
      LeavesHoldAll(layout, small, []);
      assert Flatten([]) == [] && |multiset(small)| == 0;
      assert where.Keys == {};
    }

    /** A tree of no files is one empty node. */
    method PlantNothing()
      requires where == map[]
      modifies this`shape, this`state, this`sums, this`root
      ensures shape == [Node(NONE, [], [])] && Flat() == map[]
      ensures Indexed() && root < |shape| && Loose(shape, [root]) && Under(shape, root) == []
    {
      shape, state, sums, root := [Node(NONE, [], [])], [[]], [ZERO], 0;
      assert Fresh(0) == [] && SumSizes([]) == 0;
      assert Planted(shape, state, sums, where, [[]]);
      PlantedOk(shape, state, sums, where, [[]]);
      assert Range(1) == [0];
    }

    /** Lays out small and joins it into one tree. */
    method Grow(small: seq<Entry>, prevWhere: Where, prevState: States)
      requires layout.Usable() && DistinctPaths(small)
      requires InRange(prevWhere, prevState) && Fits(small, FlatOf(prevWhere, prevState))
      modifies this`shape, this`state, this`sums, this`where, this`root
      ensures Rooted() && Indexed() && multiset(Under(shape, root)) == multiset(small)
      ensures Flat() == Carried(where, FlatOf(prevWhere, prevState))
      ensures LaidOut(layout, small, PlanOf(shape, root))
    {
      var items := Plant(small, prevWhere, prevState);
      if |items| == 0 {
        PlantNothing();
        assert Leaves(layout, small, []) == [];
      } else {
        ghost var ps := PartsOf(shape, items);
        GrowFrom(items, Flatten(Leaves(layout, small, [])), Carried(where, FlatOf(prevWhere, prevState)));
        LeavesDistinct(layout, small);
      }
    }

    method GrowFrom(items: seq<Item>, ghost row: seq<Entry>, ghost fl: Flat)
      requires Growing(items, row, fl) && layout.branching >= 2 && items != []
      modifies this`shape, this`state, this`sums, this`root
      ensures Rooted() && Indexed() && Under(shape, root) == row && Flat() == fl
      ensures ComesToOne(old(PartsOf(shape, items)), layout.branching, PlanOf(shape, root))
    {
      root := Build(items, row, fl);
    }

    /** Lays entries out from scratch, carrying state over by path. */
    method Rebuild(es: seq<Entry>, prevWhere: Where, prevState: States)
      requires layout.Usable() && DistinctPaths(es)
      requires InRange(prevWhere, prevState) && Fits(Small(layout, es), FlatOf(prevWhere, prevState))
      modifies this
      ensures Valid() && entries == es && layout == old(layout)
      ensures Flat() == Carried(where, FlatOf(prevWhere, prevState))
      ensures LaidOut(layout, Small(layout, entries), PlanOf(shape, root))
    {
      entries := es;
      var small := KeepSmall(es);
      SmallDistinct(layout, es);
      Grow(small, prevWhere, prevState);
    }

    /** A tree of entries with nothing fetched. */
    constructor (es: seq<Entry>, layout: Layout)
      requires layout.Usable() && DistinctPaths(es)
      ensures Valid() && entries == es && this.layout == layout
      ensures Flat() == Carried(where, map[]) && LaidOut(layout, Small(layout, entries), PlanOf(shape, root))
    {
      this.layout := layout;
      entries, shape, state, sums, root, where := [], [], [], [], 0, map[];
      new;
      assert FlatOf(map[], []) == map[];
      Rebuild(es, map[], []);
    }

    /** Offers files the walk has found since, and keeps every file's state. */
    method Add(more: seq<Entry>)
      requires Valid() && DistinctPaths(entries + more)
      modifies this
      ensures Valid() && entries == old(entries) + more && layout == old(layout)
      ensures Flat().Keys == Paths(Small(layout, entries))
        && LaidOut(layout, Small(layout, entries), PlanOf(shape, root))
      ensures forall q :: q in Flat() ==> Flat()[q] == StateOf(old(Flat()), q)
      ensures old(Flat()).Keys <= Flat().Keys
    {
      Unfold();
      Contents();
      assert InRange(where, state) by {
        forall q | q in where ensures where[q].leaf < |state| && where[q].idx < |state[where[q].leaf]| {
          assert StateOk(shape, state, where[q].leaf);
        }
      }
      KnownFit(more);
      SmallGrows(layout, entries, more);
      Rebuild(entries + more, where, state);
      Contents();
    }

    /** A known file offered again under distinct paths is the same file. */
    lemma {:induction false} KnownFit(more: seq<Entry>)
      requires Valid() && DistinctPaths(entries + more)
      ensures Fits(Small(layout, entries + more), Flat())
    {
      Unfold();
      Contents();
      SamePaths(Small(layout, entries), Under(shape, root));
      forall e | e in Small(layout, entries + more) && e.path in Flat()
        ensures Flat()[e.path].read <= e.size && (Flat()[e.path].stored ==> Flat()[e.path].read == 0)
      {
        SmallIn(layout, entries + more, e);
        var x :| x in Under(shape, root) && x.path == e.path;
        SmallIn(layout, entries, x);
        SameEntry(entries + more, x, e);
      }
    }

    /** The link the policy decides against; nothing is forgotten. */
    method SetLink(l: Link)
      requires Valid()
      modifies this`layout
      ensures Valid() && layout == old(layout).(link := l)
    {
      Unfold();
      layout := layout.(link := l);
      SmallLink(old(layout), layout, entries);
    }

    // ----- moving counters

    method AddRead(n: nat, delta: int)
      requires ShapeOk(shape) && |sums| == |shape| && n < |shape|
      modifies this`sums
      ensures sums == AddUp(shape, old(sums), n, ZERO.(read := delta))
    {
      var at: int := n;
      ghost var d := ZERO.(read := delta);
      while at != NONE
        invariant NONE <= at < |shape| && |sums| == |shape|
        invariant AddUp(shape, sums, at, d) == AddUp(shape, old(sums), n, d)
        decreases if at == NONE then 0 else |shape| - at
      {
        assert NodeOk(shape, at);
        sums := sums[at := sums[at].(read := sums[at].read + delta)];
        at := shape[at].parent;
      }
    }

    method AddFetched(n: nat, bytes: int, files: int)
      requires ShapeOk(shape) && |sums| == |shape| && n < |shape|
      modifies this`sums
      ensures sums == AddUp(shape, old(sums), n, ZERO.(fetched := bytes, fetchedFiles := files))
    {
      var at: int := n;
      ghost var d := ZERO.(fetched := bytes, fetchedFiles := files);
      while at != NONE
        invariant NONE <= at < |shape| && |sums| == |shape|
        invariant AddUp(shape, sums, at, d) == AddUp(shape, old(sums), n, d)
        decreases if at == NONE then 0 else |shape| - at
      {
        assert NodeOk(shape, at);
        sums :=
          sums[at := sums[at].(fetched := sums[at].fetched + bytes, fetchedFiles := sums[at].fetchedFiles + files)];
        at := shape[at].parent;
      }
    }

    /** Marks entry i of a leaf stored, moving what was read of it to fetched. */
    method MarkStored(leaf: nat, i: nat) returns (e: Entry)
      requires Indexed() && leaf < |shape| && i < |shape[leaf].entries|
      requires StateOk(shape, state, leaf) && !state[leaf][i].stored
      modifies this`state, this`sums
      ensures Indexed() && e == shape[leaf].entries[i] && Flat() == old(Flat())[e.path := FileState(true, 0)]
    {
      e := shape[leaf].entries[i];
      var st := state[leaf][i];
      ghost var d1, d2 := ZERO.(read := 0 - st.read), ZERO.(fetched := e.size, fetchedFiles := 1);
      Restated(shape, state, sums, where, leaf, i, FileState(true, 0), d1.Plus(d2));
      AddUpTwice(shape, sums, leaf, d1, d2);
      state := state[leaf := state[leaf][i := st.(stored := true)]];
      AddRead(leaf, 0 - (if st.read <= e.size then st.read else e.size));
      state := state[leaf := state[leaf][i := FileState(true, 0)]];
      AddFetched(leaf, e.size, 1);
      assert state[leaf] == old(state)[leaf][i := FileState(true, 0)];
      assert state == old(state)[leaf := old(state)[leaf][i := FileState(true, 0)]];
    }

    /** Puts entry i of a leaf back as not sent, by the size it was sent with. */
    method MarkUnstored(leaf: nat, i: nat, size: nat)
      requires Indexed() && leaf < |shape| && i < |shape[leaf].entries| && size == shape[leaf].entries[i].size
      requires StateOk(shape, state, leaf) && state[leaf][i].stored
      modifies this`state, this`sums
      ensures Indexed() && Flat() == old(Flat())[shape[leaf].entries[i].path := UNTOUCHED]
    {
      Restated(shape, state, sums, where, leaf, i, UNTOUCHED, ZERO.(fetched := 0 - size, fetchedFiles := -1));
      state := state[leaf := state[leaf][i := state[leaf][i].(stored := false)]];
      AddFetched(leaf, 0 - size, -1);
    }

    /** Counts n more bytes read of entry i of a leaf, up to its size. */
    method CountRead(leaf: nat, i: nat, n: nat)
      requires Indexed() && leaf < |shape| && i < |shape[leaf].entries|
      requires StateOk(shape, state, leaf) && !state[leaf][i].stored && shape[leaf].entries[i].path in Flat()
      modifies this`state, this`sums
      ensures Indexed() && Flat() == Recorded(shape[leaf].entries[i], old(Flat()), n)
    {
      var size := shape[leaf].entries[i].size;
      var was := state[leaf][i].read;
      var now := if was + n <= size then was + n else size;
      StateAt(shape, state, where, leaf, i);
      SetRead(leaf, i, now);
    }

    /** Sets what was read of an unstored file. */
    method SetRead(leaf: nat, i: nat, now: nat)
      requires Indexed() && leaf < |shape| && i < |shape[leaf].entries| && StateOk(shape, state, leaf)
      requires !state[leaf][i].stored && state[leaf][i].read <= now <= shape[leaf].entries[i].size
      modifies this`state, this`sums
      ensures Indexed() && Flat() == old(Flat())[shape[leaf].entries[i].path := FileState(false, now)]
    {
      var was := state[leaf][i].read;
      Restated(shape, state, sums, where, leaf, i, FileState(false, now), ZERO.(read := now - was));
      state := state[leaf := state[leaf][i := state[leaf][i].(read := now)]];
      if now > was {
        AddRead(leaf, now - was);
      } else {
        AddNothing(shape, sums, leaf);
      }
    }

    // ----- operations

    /** Whether a read of path would be served from the cache. */
    method Cached(path: string) returns (b: bool)
      requires Valid()
      ensures b == (path in Flat() && Flat()[path].stored)
    {
      Unfold();
      b := false;
      if path in where {
        assert StateOk(shape, state, where[path].leaf);
        b := state[where[path].leaf][where[path].idx].stored;
      }
    }

    /** What has been marked stored, and how many files have not. */
    method Stored() returns (bytes: int, files: int, left: int)
      requires Valid()
      ensures var t := Tally(Under(shape, root), Flat());
        bytes == t.fetched && files == t.fetchedFiles && left == (t.files - t.fetchedFiles)
    {
      Unfold();
      CountersAreSums(root);
      bytes, files, left := sums[root].fetched, sums[root].fetchedFiles, (sums[root].files - sums[root].fetchedFiles);
    }

    /** Marks a file stored without sending it. */
    method MarkSent(path: string)
      requires Valid()
      modifies this`state, this`sums
      ensures Valid()
      ensures Flat()
        == if path in old(Flat()) && !old(Flat())[path].stored then old(Flat())[path := FileState(true, 0)]
        else old(Flat())
    {
      Unfold();
      if path in where {
        assert StateOk(shape, state, where[path].leaf);
        if !state[where[path].leaf][where[path].idx].stored {
          var _ := MarkStored(where[path].leaf, where[path].idx);
        }
      }
    }

    /** Puts one file back as not sent. */
    method UnstoreOne(e: Entry)
      requires Valid() && (e.path in Flat() ==> e in entries)
      modifies this`state, this`sums
      ensures Valid()
      ensures Flat()
        == if e.path in old(Flat()) && old(Flat())[e.path].stored then old(Flat())[e.path := UNTOUCHED] else old(Flat())
    {
      Unfold();
      if e.path in where {
        assert StateOk(shape, state, where[e.path].leaf);
        if state[where[e.path].leaf][where[e.path].idx].stored {
          EntryIs(e);
          MarkUnstored(where[e.path].leaf, where[e.path].idx, e.size);
        }
      }
    }

    /** The tree's own file of a known path is the one it was given. */
    lemma {:induction false} EntryIs(e: Entry)
      requires Valid() && e in entries && e.path in where
      ensures where[e.path].leaf < |shape| && where[e.path].idx < |shape[where[e.path].leaf].entries|
      ensures shape[where[e.path].leaf].entries[where[e.path].idx] == e
    {
      Unfold();
      var x := shape[where[e.path].leaf].entries[where[e.path].idx];
      Contents();
      PlacedIsUnder(shape, where, root, e.path);
      assert x in multiset(Under(shape, root));
      SmallIn(layout, entries, x);
      SameEntry(entries, x, e);
    }

    method UnstoreEach(es: seq<Entry>)
      requires Valid() && forall e :: e in es && e.path in Flat() ==> e in entries
      modifies this`state, this`sums
      ensures Valid() && Flat() == PutBack(es, |es|, old(Flat()))
    {
      ghost var fl := Flat();
      var j := 0;
      while j < |es|
        invariant 0 <= j <= |es| && Valid() && Flat() == PutBack(es, j, fl) && Flat().Keys == fl.Keys
      {
        UnstoreOne(es[j]);
        j := j + 1;
      }
    }

    /** Puts entries back as not sent, for a batch the store refused: files of this
        tree, or paths it does not know. */
    method Unstore(es: seq<Entry>)
      requires Valid() && forall e :: e in es && e.path in Flat() ==> e in entries
      modifies this`state, this`sums
      ensures Valid() && Flat() == UnstoreAll(es, old(Flat()))
    {
      PutBackAll(es, Flat());
      UnstoreEach(es);
    }

    /** Takes entry i of a leaf if it is not stored. */
    method FetchEntry(at: nat, i: nat, taken: seq<Entry>, ghost es: seq<Entry>, ghost fl: Flat)
      returns (out: seq<Entry>)
      requires Indexed() && at < |shape| && i < |shape[at].entries|
      requires Stores(es, fl, taken, Flat()) && shape[at].entries[i] in es
      modifies this`state, this`sums
      ensures Indexed() && Stores(es, fl, out, Flat()) && Kept(old(Flat()), Flat())
      ensures StateOf(Flat(), shape[at].entries[i].path).stored
    {
      out := taken;
      assert StateOk(shape, state, at) && where[shape[at].entries[i].path] == Location(at, i);
      if !state[at][i].stored {
        ghost var before := Flat();
        var e := MarkStored(at, i);
        StoresOne(es, fl, out, before, e);
        out := out + [e];
      }
    }

    /** Takes what is unstored of a leaf. */
    method FetchLeaf(at: nat, taken: seq<Entry>, ghost es: seq<Entry>, ghost fl: Flat) returns (out: seq<Entry>)
      requires Indexed() && at < |shape| && Stores(es, fl, taken, Flat())
        && forall e :: e in shape[at].entries ==> e in es
      modifies this`state, this`sums
      ensures Indexed() && Stores(es, fl, out, Flat()) && Kept(old(Flat()), Flat())
      ensures AllStored(shape[at].entries, Flat())
    {
      out := taken;
      var i := 0;
      while i < |shape[at].entries|
        invariant 0 <= i <= |shape[at].entries| && Indexed() && Stores(es, fl, out, Flat()) && Kept(old(Flat()), Flat())
        invariant forall j :: 0 <= j < i ==> StateOf(Flat(), shape[at].entries[j].path).stored
      {
        out := FetchEntry(at, i, out, es, fl);
        i := i + 1;
      }
    }

    /** Walks down from n, taking every leaf. */
    method Drain(n: nat, ghost fl: Flat) returns (out: seq<Entry>)
      requires Indexed() && n < |shape| && Flat() == fl
      modifies this`state, this`sums
      ensures Indexed() && Stores(Under(shape, n), fl, out, Flat()) && AllStored(Under(shape, n), Flat())
    {
      ghost var es := Under(shape, n);
      out := [];
      StoresNothing(es, fl);
      var stack: seq<nat> := [n];
      ghost var done: seq<Entry> := [];
      assert [n][1..] == [] && Row(shape, []) == [];
      while |stack| > 0
        invariant Indexed() && Stores(es, fl, out, Flat())
        invariant forall j :: 0 <= j < |stack| ==> stack[j] < |shape|
        invariant Row(shape, stack) + done == es && AllStored(done, Flat())
        decreases WeightAll(shape, stack, |shape|)
      {
        ghost var before := Flat();
        var at := stack[|stack|-1];
        var rest := stack[..|stack|-1];
        assert stack == rest + [at];
        Opened(shape, rest, at);
        if |shape[at].kids| != 0 {
          stack := rest + shape[at].kids;
        } else {
          assert es == Row(shape, rest) + (shape[at].entries + done);
          out := FetchLeaf(at, out, es, fl);
          KeptAll(done, before, Flat());
          done := shape[at].entries + done;
          stack := rest;
        }
      }
      assert done == es;
    }

    /** Marks everything unstored under n as stored and returns it. */
    method Fetch(n: nat) returns (out: seq<Entry>)
      requires Indexed() && n < |shape| && DistinctPaths(Under(shape, n)) && FlatOk(Under(shape, n), Flat())
      modifies this`state, this`sums
      ensures Indexed() && Flat() == StoreAll(Under(shape, n), old(Flat()))
      ensures Stores(Under(shape, n), old(Flat()), out, Flat())
      ensures SumSizes(out) == Left(Under(shape, n), old(Flat()))
    {
      ghost var fl := Flat();
      out := Drain(n, fl);
      DrainedAll(Under(shape, n), fl, out, Flat());
    }

    // ----- what a miss triggers

    /** Whether a leaf holds a file neither stored nor read whole. */
    method HasUnread(n: nat) returns (b: bool)
      requires Indexed() && n < |shape|
      ensures b == Unread(shape[n].entries, Flat())
    {
      assert StateOk(shape, state, n);
      var i := 0;
      while i < |state[n]|
        invariant 0 <= i <= |state[n]|
        invariant forall j :: 0 <= j < i ==> state[n][j].stored || state[n][j].read >= shape[n].entries[j].size
      {
        if !state[n][i].stored && state[n][i].read < shape[n].entries[i].size {
          UnreadAt(n, i);
          return true;
        }
        i := i + 1;
      }
      forall e | e in shape[n].entries
        ensures StateOf(Flat(), e.path).stored || StateOf(Flat(), e.path).read >= e.size {
        var j :| 0 <= j < |shape[n].entries| && shape[n].entries[j] == e;
        assert where[e.path] == Location(n, j);
      }
      b := false;
    }

    lemma {:induction false} UnreadAt(n: nat, i: nat)
      requires Indexed() && StateOk(shape, state, n) && i < |state[n]|
      requires !state[n][i].stored && state[n][i].read < shape[n].entries[i].size
      ensures Unread(shape[n].entries, Flat())
    {
      var e := shape[n].entries[i];
      assert where[e.path] == Location(n, i) && e in shape[n].entries;
    }

    /** Whether a node has earned being fetched whole. */
    method Promote(n: nat, policy: Policy) returns (b: bool)
      requires Indexed() && n < |shape|
      ensures shape[n].kids == [] ==> b == policy.earns(true, sums[n], Unread(Under(shape, n), Flat()))
      ensures shape[n].kids != [] ==> b == policy.earns(false, sums[n], false)
    {
      if shape[n].kids == [] {
        var unread := HasUnread(n);
        b := policy.earns(true, sums[n], unread);
      } else {
        b := policy.earns(false, sums[n], false);
      }
    }

    /** One node of the climb. */
    method TryFetch(at: nat, total: int, policy: Policy) returns (sent: seq<Entry>, stop: bool)
      requires Indexed() && at < |shape|
      requires DistinctPaths(Under(shape, at)) && FlatOk(Under(shape, at), Flat())
        && sums[at] == Tally(Under(shape, at), Flat())
      modifies this`state, this`sums
      ensures Indexed()
      ensures Turn(policy, Group(Under(shape, at), shape[at].kids == []), old(Flat()), total, sent, stop, Flat())
    {
      sent, stop := [], false;
      var left := sums[at].bytes - sums[at].fetched;
      if left != 0 {
        if total + left > policy.cap {
          stop := true;
        } else {
          var earned := Promote(at, policy);
          if earned {
            sent := Fetch(at);
          }
        }
      }
    }

    /** One node of the climb, from the whole invariant. */
    method TakeTurn(at: nat, total: int, policy: Policy) returns (sent: seq<Entry>, stop: bool)
      requires Valid() && at < |shape|
      modifies this`state, this`sums
      ensures Valid()
      ensures Turn(policy, Group(Under(shape, at), shape[at].kids == []), old(Flat()), total, sent, stop, Flat())
    {
      Unfold();
      CountersAreSums(at);
      sent, stop := TryFetch(at, total, policy);
    }

    lemma {:induction false} TurnDone(at: nat, policy: Policy, goal: Flat, before: Flat, out: seq<Entry>,
        sent: seq<Entry>, stop: bool)
      requires Valid() && at < |shape| && ComesTo(policy, shape, at, before, out, goal)
      requires Turn(policy, Group(Under(shape, at), shape[at].kids == []), before, SumSizes(out), sent, stop, Flat())
      ensures shape[at].parent == NONE || at < shape[at].parent < |shape|
      ensures ComesTo(policy, shape, if stop then NONE else shape[at].parent, Flat(), out + sent, goal)
      ensures SumSizes(sent) == 0 || SumSizes(out) + SumSizes(sent) <= policy.cap
      ensures Stores(Under(shape, root), before, sent, Flat())
    {
      Unfold();
      assert NodeOk(shape, at);
      CountersAreSums(at);
      TurnComes(policy, shape, at, before, out, sent, stop, Flat(), goal);
      StoresWithin(Under(shape, at), Under(shape, root), before, sent, Flat());
    }

    method SumBytes(es: seq<Entry>) returns (bytes: int)
      ensures bytes == SumSizes(es)
    {
      bytes := 0;
      var i := 0;
      while i < |es|
        invariant 0 <= i <= |es| && bytes == SumSizes(es[..i])
      {
        assert es[..i+1][..i] == es[..i];
        bytes := bytes + es[i].size;
        i := i + 1;
      }
      assert es[..i] == es;
    }

    /** What the climb has stored so far, and what it still comes to. */
    ghost predicate Climbing(policy: Policy, at: int, out: seq<Entry>, fl: Flat, goal: Flat)
      reads this`shape, this`root, this`where, this`state
    {
      && NONE <= at < |shape| && (SumSizes(out) == 0 || SumSizes(out) <= policy.cap)
      && Stores(Under(shape, root), fl, out, Flat())
      && ComesTo(policy, shape, at, Flat(), out, goal)
    }

    /** One node of the climb, gathered into the batch; NONE ends it. */
    method ClimbOn(policy: Policy, at: nat, out: seq<Entry>, total: int, ghost fl: Flat, ghost goal: Flat)
      returns (next: int, sent: seq<Entry>)
      requires Valid() && Climbing(policy, at, out, fl, goal) && total == SumSizes(out)
      modifies this`state, this`sums
      ensures Valid() && Climbing(policy, next, out + sent, fl, goal) && (next == NONE || at < next)
    {
      ghost var before := Flat();
      var stop;
      sent, stop := TakeTurn(at, total, policy);
      next := if stop then NONE else shape[at].parent;
      TurnDone(at, policy, goal, before, out, sent, stop);
      Gathered(Under(shape, root), fl, out, before, sent, Flat());
    }

    /** The climb from a leaf to the root, which stops once the next node would
        take the batch over the cap. */
    method ClimbFrom(leaf: nat, policy: Policy) returns (out: seq<Entry>)
      requires Valid() && leaf < |shape|
      modifies this`state, this`sums
      ensures Valid()
      ensures Flat() == Climb(policy, Groups(shape, Chain(shape, leaf)), old(Flat()), 0)
      ensures Stores(Under(shape, root), old(Flat()), out, Flat())
      ensures SumSizes(out) == 0 || SumSizes(out) <= policy.cap
    {
      ghost var fl := Flat();
      ghost var goal := Climb(policy, Groups(shape, Chain(shape, leaf)), fl, 0);
      out := [];
      StoresNothing(Under(shape, root), fl);
      var total := 0;
      var at: int := leaf;
      while at != NONE
        invariant Valid() && Climbing(policy, at, out, fl, goal) && total == SumSizes(out)
        decreases if at == NONE then 0 else |shape| - at
      {
        var sent;
        at, sent := ClimbOn(policy, at, out, total, fl, goal);
        SumSizesConcat(out, sent);
        out := out + sent;
        var bytes := SumBytes(sent);
        total := total + bytes;
      }
      NothingAbove(policy, shape, Flat(), out);
    }

    /** The file a known path names. */
    ghost function EntryAt(path: string): Entry
      reads this`shape, this`where
      requires path in where && where[path].leaf < |shape| && where[path].idx < |shape[where[path].leaf].entries|
    {
      shape[where[path].leaf].entries[where[path].idx]
    }

    /** Counts what was read of a file not stored yet, if it is known. */
    method Record(path: string, n: nat) returns (miss: bool)
      requires Valid()
      modifies this`state, this`sums
      ensures Valid() && miss == (path in old(Flat()) && !old(Flat())[path].stored)
      ensures path in where ==> where[path].leaf < |shape| && where[path].idx < |shape[where[path].leaf].entries|
      ensures if !miss then Flat() == old(Flat())
        else path in where && EntryAt(path).path == path && Flat() == Recorded(EntryAt(path), old(Flat()), n)
    {
      Unfold();
      miss := false;
      if path in where {
        assert StateOk(shape, state, where[path].leaf);
        miss := !state[where[path].leaf][where[path].idx].stored;
        if miss {
          CountRead(where[path].leaf, where[path].idx, n);
        }
      }
    }

    /** The groups from a leaf to the root hold ever more of the files. */
    lemma {:induction false} ChainNests(leaf: nat, fl: Flat)
      requires Valid() && leaf < |shape| && fl.Keys == Flat().Keys
      ensures Rising(Groups(shape, Chain(shape, leaf)), fl)
    {
      Unfold();
      Contents();
      forall e | e in Under(shape, root) ensures e.path in fl {
        assert e.path in Paths(Under(shape, root));
      }
      ChainRises(shape, root, leaf, fl);
    }

    /** What a read of n bytes of a path makes of the flat map, and what is to be sent
        for it. The map ends as the policy computed from scratch says: something comes
        exactly if a node on the way to the root is worth it within the cap, and then
        all of that node. */
    ghost predicate AfterRead(path: string, n: nat, was: Flat, out: seq<Entry>)
      reads this
    {
      if path !in was || was[path].stored then out == [] && Flat() == was
      else
        && path in where && where[path].leaf < |shape| && where[path].idx < |shape[where[path].leaf].entries|
        && EntryAt(path).path == path
        && var recorded, chain := Recorded(EntryAt(path), was, n), Groups(shape, Chain(shape, where[path].leaf));
           && Flat() == Climb(layout.OnMiss(), chain, recorded, 0)
           && Stores(Under(shape, root), recorded, out, Flat())
           && Brings(layout, chain, recorded, Flat())
    }

    /** Records that n bytes of path were read through the live mount, and
        returns what that makes worth fetching, already marked stored. */
    method Read(path: string, n: nat) returns (out: seq<Entry>)
      requires Valid()
      modifies this`state, this`sums
      ensures Valid() && AfterRead(path, n, old(Flat()), out)
      ensures SumSizes(out) == 0 || SumSizes(out) <= layout.Cap()
    {
      var miss := Record(path, n);
      out := [];
      if miss {
        MissBrings(where[path].leaf, Flat());
        out := ClimbFrom(where[path].leaf, layout.OnMiss());
      }
    }

    lemma {:induction false} MissBrings(leaf: nat, fl: Flat)
      requires Valid() && leaf < |shape| && fl.Keys == Flat().Keys
      ensures var chain := Groups(shape, Chain(shape, leaf));
        Brings(layout, chain, fl, Climb(layout.OnMiss(), chain, fl, 0))
    {
      Unfold();
      ChainNests(leaf, fl);
      BringsExactly(layout, Groups(shape, Chain(shape, leaf)), fl);
    }

    // ----- the walk's tail

    /** The unstored files of a leaf, added to the candidates. */
    method LeafCands(at: nat, cs: seq<Cand>) returns (out: seq<Cand>)
      requires Valid() && at < |shape| && CandsOk(shape, cs)
      ensures CandsOk(shape, out) && Files(out) == Files(cs) + UnstoredOf(shape[at].entries, Flat())
    {
      out := cs;
      ghost var es := shape[at].entries;
      assert es[..0] == [] && Files(out) == Files(cs) + [];
      var i := 0;
      while i < |shape[at].entries|
        invariant 0 <= i <= |es| && CandsOk(shape, out) && Files(out) == Files(cs) + UnstoredOf(es[..i], Flat())
      {
        out := LeafCand(at, i, cs, out);
        i := i + 1;
      }
      assert es[..i] == es;
    }

    /** One file of a leaf, added if it is not stored. */
    method LeafCand(at: nat, i: nat, ghost cs: seq<Cand>, so: seq<Cand>) returns (out: seq<Cand>)
      requires Valid() && at < |shape| && i < |shape[at].entries| && CandsOk(shape, so)
      requires Files(so) == Files(cs) + UnstoredOf(shape[at].entries[..i], Flat())
      ensures CandsOk(shape, out) && Files(out) == Files(cs) + UnstoredOf(shape[at].entries[..i + 1], Flat())
    {
      UnstoredUpTo(shape[at].entries, i, Flat());
      var stored := StoredAt(at, i);
      out := so;
      if !stored {
        FilesMore(so, Cand(Location(at, i), shape[at].entries[i]));
        out := so + [Cand(Location(at, i), shape[at].entries[i])];
      }
    }

    method StoredAt(at: nat, i: nat) returns (b: bool)
      requires Valid() && at < |shape| && i < |shape[at].entries|
      ensures b == StateOf(Flat(), shape[at].entries[i].path).stored
    {
      Unfold();
      assert StateOk(shape, state, at) && where[shape[at].entries[i].path] == Location(at, i);
      b := state[at][i].stored;
    }

    /** Every unstored file, by a walk down from the root. */
    method Candidates() returns (cs: seq<Cand>)
      requires Valid() && root < |shape|
      ensures CandsOk(shape, cs) && Balanced(Files(cs), [], Flat(), Under(shape, root))
    {
      cs := [];
      var stack: seq<nat> := [root];
      RowOfOne(shape, root);
      while |stack| > 0
        invariant Walking(stack, cs)
        decreases WeightAll(shape, stack, |shape|)
      {
        stack, cs := Visit(stack, cs);
      }
    }

    /** The candidates found and the nodes still to visit make up the tree. */
    ghost predicate Walking(stack: seq<nat>, cs: seq<Cand>)
      reads this`shape, this`root, this`where, this`state
    {
      && CandsOk(shape, cs) && (forall j :: 0 <= j < |stack| ==> stack[j] < |shape|)
      && Balanced(Files(cs), Row(shape, stack), Flat(), Under(shape, root))
    }

    method Visit(stack: seq<nat>, cs: seq<Cand>) returns (stack': seq<nat>, cs': seq<Cand>)
      requires Valid() && stack != [] && Walking(stack, cs)
      ensures Walking(stack', cs') && WeightAll(shape, stack', |shape|) < WeightAll(shape, stack, |shape|)
    {
      var at := stack[|stack|-1];
      var rest := stack[..|stack|-1];
      OpenedHere(stack);
      if |shape[at].kids| != 0 {
        stack', cs' := rest + shape[at].kids, cs;
      } else {
        cs' := LeafCands(at, cs);
        TakenLeaf(Row(shape, rest), shape[at].entries, Flat(), Files(cs), Files(cs'), Under(shape, root));
        stack' := rest;
      }
    }

    lemma {:induction false} OpenedHere(stack: seq<nat>)
      requires Valid() && stack != [] && stack[|stack|-1] < |shape|
      ensures var at, rest := stack[|stack|-1], stack[..|stack|-1];
              && (forall j :: 0 <= j < |shape[at].kids| ==> shape[at].kids[j] < |shape|)
              && (shape[at].kids != [] ==> Row(shape, rest + shape[at].kids) == Row(shape, stack))
              && (shape[at].kids == [] ==> Row(shape, stack) == Row(shape, rest) + shape[at].entries)
              && WeightAll(shape, rest + shape[at].kids, |shape|) < WeightAll(shape, stack, |shape|)
              && WeightAll(shape, rest, |shape|) < WeightAll(shape, stack, |shape|)
    {
      Unfold();
      SplitLast(stack);
      Opened(shape, stack[..|stack|-1], stack[|stack|-1]);
    }

    /** Marks a sorted candidate list stored from the front, within the limits. */
    method TakeFrom(cs: seq<Cand>, maxBytes: int, maxFiles: int, ghost all: seq<Entry>) returns (out: seq<Entry>)
      requires Valid() && CandsOk(shape, cs) && Untaken(Files(cs), all, Flat())
      modifies this`state, this`sums
      ensures Valid() && out == Files(cs)[..TakeCount(Files(cs), maxBytes, maxFiles, 0, 0)]
      ensures Stores(all, old(Flat()), out, Flat())
    {
      out := [];
      ghost var fl := Flat();
      TakenNone(cs, all, fl, maxBytes, maxFiles);
      var size: nat := 0;
      var i := 0;
      var more := true;
      while more && i < |cs|
        invariant 0 <= i <= |cs| && Valid() && Taken(cs, all, fl, maxBytes, maxFiles, i, size, out, Flat())
        invariant !more ==> TakeCount(Files(cs), maxBytes, maxFiles, i, size) == i
        decreases more, |cs| - i
      {
        out, size, more := TakeNext(cs, maxBytes, maxFiles, i, size, out, all, fl);
        i := if more then i + 1 else i;
      }
      TakenAll(cs, all, fl, maxBytes, maxFiles, i, size, out, Flat());
    }

    /** Takes the next candidate unless it is over the limits. */
    method TakeNext(cs: seq<Cand>, maxBytes: int, maxFiles: int, i: nat, size: nat, taken: seq<Entry>,
        ghost all: seq<Entry>, ghost fl: Flat)
      returns (out: seq<Entry>, size': nat, more: bool)
      requires Valid() && CandsOk(shape, cs) && Untaken(Files(cs), all, fl) && i < |cs|
      requires Taken(cs, all, fl, maxBytes, maxFiles, i, size, taken, Flat())
      modifies this`state, this`sums
      ensures Valid() && Taken(cs, all, fl, maxBytes, maxFiles, if more then i + 1 else i, size', out, Flat())
      ensures !more ==> TakeCount(Files(cs), maxBytes, maxFiles, i, size') == i
    {
      TakenSoFar(cs, all, fl, maxBytes, maxFiles, i, size, taken, Flat());
      out, size', more := taken, size, false;
      var e := cs[i].e;
      if |taken| >= maxFiles || (|taken| > 0 && size + e.size > maxBytes) {
        return;
      }
      out := TakeCand(cs, i, taken, all, fl);
      size', more := size + e.size, true;
      TakenOne(cs, all, fl, maxBytes, maxFiles, i, size, out, Flat());
    }

    /** Marks the next candidate stored. */
    method TakeCand(cs: seq<Cand>, i: nat, taken: seq<Entry>, ghost all: seq<Entry>, ghost fl: Flat)
      returns (out: seq<Entry>)
      requires Valid() && CandsOk(shape, cs) && Untaken(Files(cs), all, fl)
      requires i < |cs| && taken == Files(cs)[..i] && Stores(all, fl, taken, Flat())
      modifies this`state, this`sums
      ensures Valid() && out == Files(cs)[..i+1] && Stores(all, fl, out, Flat())
    {
      ghost var before := Flat();
      NextUntaken(Files(cs), all, fl, i);
      var e := StoreCand(cs[i]);
      StoresOne(all, fl, taken, before, e);
      out := taken + [e];
      assert out == Files(cs)[..i+1];
    }

    /** Marks one candidate stored. */
    method StoreCand(c: Cand) returns (e: Entry)
      requires Valid() && CandOk(shape, c) && !StateOf(Flat(), c.e.path).stored
      modifies this`state, this`sums
      ensures Valid() && e == c.e && e.path in old(Flat()) && Flat() == old(Flat())[e.path := FileState(true, 0)]
    {
      Unfold();
      assert StateOk(shape, state, c.at.leaf) && where[c.e.path] == c.at;
      e := MarkStored(c.at.leaf, c.at.idx);
    }

    /** Takes the smallest unstored files up to the limits and marks them stored. */
    method Unstored(maxBytes: int, maxFiles: int) returns (out: seq<Entry>)
      requires Valid()
      modifies this`state, this`sums
      ensures Valid() && out == WalkBatch(UnstoredOf(Under(shape, root), old(Flat())), maxBytes, maxFiles)
      ensures Stores(Under(shape, root), old(Flat()), out, Flat())
    {
      if maxFiles <= 0 || maxBytes <= 0 {
        StoresNothing(Under(shape, root), Flat());
        return [];
      }
      var cs := SortedCands();
      out := TakeFrom(cs, maxBytes, maxFiles, Under(shape, root));
    }

    method SortedCands() returns (cs: seq<Cand>)
      requires Valid()
      ensures CandsOk(shape, cs) && Files(cs) == Sort(UnstoredOf(Under(shape, root), Flat()), BySizePath)
      ensures Untaken(Files(cs), Under(shape, root), Flat())
    {
      Unfold();
      Contents();
      var found := Candidates();
      ghost var un := UnstoredOf(Under(shape, root), Flat());
      SortFiles(found);
      SortKeepsCands(shape, found);
      SameSort(Files(found), un);
      UnstoredDistinct(Under(shape, root), Flat());
      DistinctPerm(un, Sort(un, BySizePath));
      cs := Sort(found, CandLe);
      SamePaths(un, Sort(un, BySizePath));
      forall e | e in Files(cs) ensures e in Under(shape, root) && !StateOf(Flat(), e.path).stored {
        UnstoredIn(Under(shape, root), Flat(), e);
      }
    }
  }

  /** A layout with a branching below two is refused. */
  method NewTree(es: seq<Entry>, layout: Layout) returns (t: Option<Tree>)
    requires DistinctPaths(es)
    ensures t.Some? <==> (layout.branching == 0 || layout.branching >= 2)
    ensures t.Some? ==> t.value.Valid() && fresh(t.value) && t.value.entries == es
    ensures t.Some? ==> layout.WithDefaults() == Some(t.value.layout)
    ensures t.Some? ==> forall q :: q in t.value.Flat() ==> t.value.Flat()[q] == UNTOUCHED
  {
    UsableDefaults(layout);
    match layout.WithDefaults()
    case None => t := None;
    case Some(l) =>
      var tree := new Tree(es, l);
      t := Some(tree);
  }

  lemma {:induction false} ChainRises(sh: Shape, root: nat, n: nat, fl: Flat)
    requires ShapeOk(sh) && n < |sh| && root < |sh| && (forall m: nat :: m < |sh| && sh[m].parent == NONE ==> m == root)
    requires DistinctPaths(Under(sh, root)) && forall e :: e in Under(sh, root) ==> e.path in fl
    ensures Rising(Groups(sh, Chain(sh, n)), fl)
    ensures Groups(sh, Chain(sh, n)) != [] && Groups(sh, Chain(sh, n))[0] == Group(Under(sh, n), sh[n].kids == [])
    decreases |sh| - n
  {
    UnderRoot(sh, root, n);
    GroupsUp(sh, n);
    assert NodeOk(sh, n);
    var g := Group(Under(sh, n), sh[n].kids == []);
    if sh[n].parent == NONE {
      assert Chain(sh, NONE) == [] && Groups(sh, []) == [];
      assert Groups(sh, Chain(sh, n)) == [g];
    } else {
      var p: nat := sh[n].parent;
      var a, b := KidInAll(sh, sh[p].kids, p, n);
      ChainRises(sh, root, p, fl);
      NestMore(g, Groups(sh, Chain(sh, p)), fl);
    }
  }
}
