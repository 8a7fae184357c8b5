/** What one miss brings, said of the files alone: when a node is worth fetching
    whole, by what is left of it and what was read, and what follows for the climb
    from a leaf to the root. */
module TreePromotion {
  import opened TreePolicy

  // ----- the link

  /** One round trip's bytes: what a measured link carries in that time, cut to whole
      bytes, and a leaf on one that is not measured or carries less than a byte. */
  lemma {:induction false} RoundTripBytes(l: Layout)
    requires l.Usable()
    ensures l.Bdp() > 0
    ensures l.link.bandwidth * l.link.rtt >= SECOND_NS && l.link.bandwidth > 0 ==>
      l.Bdp() * SECOND_NS <= l.link.bandwidth * l.link.rtt < (l.Bdp() + 1) * SECOND_NS
    ensures l.link.bandwidth <= 0 || l.link.bandwidth * l.link.rtt < SECOND_NS ==> l.Bdp() == l.leafBytes
  {
    var w, r := l.link.bandwidth, l.link.rtt;
    if w > 0 && r > 0 {
      var x := w as real * (r as real / 1000000000.0);
      assert x * 1000000000.0 == (w * r) as real;
      assert x.Floor as real <= x < x.Floor as real + 1.0;
      assert x.Floor * SECOND_NS <= w * r < (x.Floor + 1) * SECOND_NS;
    } else if w > 0 {
      assert w * r <= 0;
    }
  }

  const SECOND_NS := 1000000000

  /** The most one miss may bring is so many round trips' bytes, cut to whole bytes. */
  lemma {:induction false} CapIsRoundTrips(l: Layout)
    ensures l.Cap() as real <= l.maxFetchBdp * l.Bdp() as real < l.Cap() as real + 1.0
  {
  }

  // ----- what is worth it

  /** Worth fetching whole. Of an inner node no more is left than the share that need
      not have been stored. Of a leaf something is left unread, and all of what is left
      was read or so much that the round trips saved outweigh the bytes, and never less
      than the least evidence. */
  ghost predicate Worth(l: Layout, g: Group, fl: Flat) {
    var t := Tally(g.files, fl);
    var left, n := t.bytes - t.fetched, t.files - t.fetchedFiles;
    if g.leaf then
      && (exists e :: e in g.files && !StateOf(fl, e.path).stored && StateOf(fl, e.path).read < e.size)
      && EnoughRead(l.fMin, l.Bdp(), t.read, left, n)
    else LittleLeft(l.nodePromote, left, t.bytes)
  }

  /** No more is left than the share that need not have been stored. */
  ghost predicate LittleLeft(promote: real, left: int, bytes: int) {
    left as real <= (1.0 - promote) * bytes as real
  }

  /** All of what is left of n files was read; or the least evidence at least, and so
      much that the round trips saved outweigh the bytes. */
  ghost predicate EnoughRead(least: real, bdp: int, read: int, left: int, n: int) {
    read >= left || (read as real >= least * left as real && read * n * bdp >= left * left)
  }

  lemma {:induction false} StoredShare(promote: real, fetched: int, bytes: int)
    ensures fetched as real >= promote * bytes as real <==> LittleLeft(promote, bytes - fetched, bytes)
  {
    assert (1.0 - promote) * bytes as real == bytes as real - promote * bytes as real;
  }

  /** A share between the least and all. */
  function Clamp(least: real, want: real): real {
    var atLeast := if want < least then least else want;
    if atLeast > 1.0 then 1.0 else atLeast
  }

  lemma {:induction false} ClampDecides(least: real, bdp: int, read: int, left: int, n: int)
    requires left > 0 && n > 0 && bdp > 0
    ensures read as real >= Clamp(least, left as real / n as real / bdp as real) * left as real <==>
      EnoughRead(least, bdp, read, left, n)
  {
    var want := left as real / n as real / bdp as real;
    var atLeast := if want < least then least else want;
    AtMostOne(atLeast, left as real, read as real);
    AtLeastBoth(want, least, left as real, read as real);
    MeanOverLink(left, n, bdp, read);
  }

  lemma {:induction false} AtMostOne(a: real, left: real, read: real)
    requires left > 0.0
    ensures read >= (if a > 1.0 then 1.0 else a) * left <==> read >= left || read >= a * left
  {
    if a > 1.0 {
      assert a * left > left;
    } else {
      assert a * left <= left;
    }
  }

  lemma {:induction false} AtLeastBoth(a: real, b: real, left: real, read: real)
    requires left > 0.0
    ensures read >= (if a < b then b else a) * left <==> read >= a * left && read >= b * left
  {
    if a < b {
      assert a * left <= b * left;
    } else {
      assert b * left <= a * left;
    }
  }

  lemma {:induction false} MeanOverLink(left: int, n: int, bdp: int, read: int)
    requires left > 0 && n > 0 && bdp > 0
    ensures read as real >= (left as real / n as real / bdp as real) * left as real <==> read * n * bdp >= left * left
  {
    var d := n * bdp;
    assert d > 0;
    var x := left as real / n as real / bdp as real;
    assert x * n as real * bdp as real == left as real;
    assert x * d as real == left as real by {
      assert d as real == n as real * bdp as real;
    }
    assert (x * left as real) * d as real == (left * left) as real by {
      assert (x * left as real) * d as real == (x * d as real) * left as real;
    }
    assert (read * d) as real == read as real * d as real && read * n * bdp == read * d;
    Scaled(read as real, x * left as real, d as real);
  }

  lemma {:induction false} Scaled(a: real, b: real, d: real)
    requires d > 0.0
    ensures a >= b <==> a * d >= b * d
  {
  }

  lemma {:induction false} LeftCounts(es: seq<Entry>, fl: Flat)
    ensures Left(es, fl) >= 0 && LeftFiles(es, fl) >= 0 && (Left(es, fl) > 0 ==> LeftFiles(es, fl) > 0)
  {
    if es != [] {
      LeftCounts(es[1..], fl);
    }
  }

  /** The promotion rule finds exactly what is worth it. */
  lemma {:induction false} EarnsExactly(l: Layout, g: Group, fl: Flat)
    requires l.Usable() && Left(g.files, fl) > 0
    ensures l.OnMiss().earns(g.leaf, Tally(g.files, fl), g.leaf && Unread(g.files, fl)) <==> Worth(l, g, fl)
  {
    var t := Tally(g.files, fl);
    LeftCounts(g.files, fl);
    if g.leaf {
      BarDecides(l, t);
    } else {
      StoredShare(l.nodePromote, t.fetched, t.bytes);
    }
  }

  /** More stored of the same bytes never takes an inner node's worth away. */
  lemma {:induction false} MoreStoredIsWorthMore(l: Layout, g: Group, fl: Flat, fl': Flat)
    requires !g.leaf && Worth(l, g, fl) && Left(g.files, fl') <= Left(g.files, fl)
    ensures Worth(l, g, fl')
  {
    BytesSame(g.files, fl, fl');
  }

  lemma {:induction false} BytesSame(es: seq<Entry>, fl: Flat, fl': Flat)
    ensures Tally(es, fl).bytes == Tally(es, fl').bytes && Tally(es, fl).files == Tally(es, fl').files
  {
    if es != [] {
      BytesSame(es[1..], fl, fl');
    }
  }

  /** The counters of a leaf something is left of. */
  ghost predicate LeafCounts(c: Counters) {
    c.bytes > c.fetched && c.files > c.fetchedFiles
  }

  /** What was read of a leaf decides: nothing read is never enough, all of what is left
      always is, in between a share is needed that is never less than the least evidence;
      more read never takes it away, and neither does more files for the same bytes
      left, the mean size being smaller. */
  lemma {:induction false} ReadDecides(l: Layout, c: Counters)
    requires l.Usable() && LeafCounts(c)
    ensures !l.OnMiss().earns(true, c, false)
    ensures c.read <= 0 ==> !l.OnMiss().earns(true, c, true)
    ensures c.read >= c.bytes - c.fetched ==> l.OnMiss().earns(true, c, true)
    ensures l.OnMiss().earns(true, c, true) ==>
      c.read >= c.bytes - c.fetched || c.read as real >= l.fMin * (c.bytes - c.fetched) as real
  {
    BarDecides(l, c);
    var left := c.bytes - c.fetched;
    assert l.fMin * left as real > 0.0;
  }

  lemma {:induction false} MoreReadIsEnough(l: Layout, c: Counters, d: Counters)
    requires l.Usable() && LeafCounts(c) && LeafCounts(d) && c.bytes - c.fetched == d.bytes - d.fetched
    requires c.read <= d.read && c.files - c.fetchedFiles <= d.files - d.fetchedFiles
    ensures l.OnMiss().earns(true, c, true) ==> l.OnMiss().earns(true, d, true)
  {
    BarDecides(l, c);
    BarDecides(l, d);
    RoundTripBytes(l);
    EnoughGrows(l.fMin, l.Bdp(), c.read, d.read, c.bytes - c.fetched, c.files - c.fetchedFiles,
      d.files - d.fetchedFiles);
  }

  lemma {:induction false} EnoughGrows(least: real, bdp: int, r: int, s: int, left: int, n: int, m: int)
    requires least > 0.0 && bdp > 0 && left > 0 && r <= s && 0 < n <= m
    ensures EnoughRead(least, bdp, r, left, n) ==> EnoughRead(least, bdp, s, left, m)
  {
    if r >= 0 {
      Grows(r, s, n, m, bdp);
    } else {
      assert least * left as real > 0.0;
    }
  }

  lemma {:induction false} Grows(r: int, s: int, n: int, m: int, b: int)
    requires 0 <= r <= s && 0 <= n <= m && 0 <= b
    ensures r * n * b <= s * m * b
  {
    assert r * n <= s * n;
    assert s * n <= s * m;
    assert (r * n) * b <= (s * m) * b;
  }

  lemma {:induction false} BarDecides(l: Layout, c: Counters)
    requires l.Usable() && LeafCounts(c)
    ensures l.OnMiss().earns(true, c, true) <==>
      EnoughRead(l.fMin, l.Bdp(), c.read, c.bytes - c.fetched, c.files - c.fetchedFiles)
  {
    RoundTripBytes(l);
    BarIsClamp(l, c);
    ClampDecides(l.fMin, l.Bdp(), c.read, c.bytes - c.fetched, c.files - c.fetchedFiles);
  }

  lemma {:induction false} BarIsClamp(l: Layout, c: Counters)
    requires l.Usable() && LeafCounts(c) && l.Bdp() > 0
    ensures l.Bar(c)
      == Clamp(l.fMin, (c.bytes - c.fetched) as real / (c.files - c.fetchedFiles) as real / l.Bdp() as real)
  {
  }

  // ----- the climb

  /** Each group's files are among those of every group further up, each once. */
  ghost predicate Nested(chain: seq<Group>) {
    && (forall i :: 0 <= i < |chain| ==> DistinctPaths(chain[i].files))
    && (forall i, j, e :: 0 <= i <= j < |chain| && e in chain[i].files ==> e in chain[j].files)
  }

  ghost predicate AllKnown(chain: seq<Group>, fl: Flat) {
    forall i, e :: 0 <= i < |chain| && e in chain[i].files ==> e.path in fl
  }

  lemma {:induction false} NestedTail(chain: seq<Group>, fl: Flat)
    requires chain != [] && Nested(chain) && AllKnown(chain, fl)
    ensures Nested(chain[1..]) && AllKnown(chain[1..], fl)
  {
    forall i, j, e | 0 <= i <= j < |chain[1..]| && e in chain[1..][i].files ensures e in chain[1..][j].files {
      assert e in chain[i + 1].files;
    }
  }

  /** Storing files of a group takes what was left of them off what is left of it. */
  lemma {:induction false} StoringLeaves(es: seq<Entry>, all: seq<Entry>, fl: Flat)
    requires DistinctPaths(es) && DistinctPaths(all) && Known(es, all, fl)
    ensures Left(all, StoreAll(es, fl)) == Left(all, fl) - Left(es, fl)
    ensures Left(es, fl) <= Left(all, fl) && Left(es, StoreAll(es, fl)) == 0
  {
    StoreAllGains(all, es, fl);
    StoreAllGains(es, es, fl);
    BytesSame(all, fl, StoreAll(es, fl));
    BytesSame(es, fl, StoreAll(es, fl));
    LeftCounts(all, StoreAll(es, fl));
  }

  /** A climb only stores. */
  lemma {:induction false} ClimbOnlyStores(policy: Policy, chain: seq<Group>, fl: Flat, total: int)
    ensures var now := Climb(policy, chain, fl, total);
      now.Keys == fl.Keys && forall p :: p in fl ==> now[p] == fl[p] || now[p] == FileState(true, 0)
    decreases |chain|
  {
    if chain != [] {
      var g, left := chain[0], Left(chain[0].files, fl);
      ClimbOnlyStores(policy, chain[1..], fl, total);
      ClimbOnlyStores(policy, chain[1..], StoreAll(g.files, fl), total + left);
    }
  }

  lemma {:induction false} LeftFalls(es: seq<Entry>, fl: Flat, fl': Flat)
    requires fl'.Keys == fl.Keys && forall p :: p in fl ==> fl'[p] == fl[p] || fl'[p] == FileState(true, 0)
    ensures Left(es, fl') <= Left(es, fl)
  {
    if es != [] {
      LeftFalls(es[1..], fl, fl');
    }
  }

  lemma {:induction false} FirstIsStored(l: Layout, chain: seq<Group>, fl: Flat, total: int)
    requires l.Usable() && chain != [] && Worth(l, chain[0], fl) && DistinctPaths(chain[0].files)
    requires Known(chain[0].files, chain[0].files, fl) && total + Left(chain[0].files, fl) <= l.Cap()
    ensures Left(chain[0].files, Climb(l.OnMiss(), chain, fl, total)) == 0
  {
    var es, rest, left := chain[0].files, chain[1..], Left(chain[0].files, fl);
    var next, more := fl, total;
    LeftCounts(es, fl);
    if left > 0 {
      EarnsExactly(l, chain[0], fl);
      StoringLeaves(es, es, fl);
      next, more := StoreAll(es, fl), total + left;
    }
    assert Climb(l.OnMiss(), chain, fl, total) == Climb(l.OnMiss(), rest, next, more);
    ClimbOnlyStores(l.OnMiss(), rest, next, more);
    LeftFalls(es, next, Climb(l.OnMiss(), rest, next, more));
    LeftCounts(es, Climb(l.OnMiss(), rest, next, more));
  }

  /** The first group's turn in a climb that has room for it. */
  lemma {:induction false} Goes(l: Layout, chain: seq<Group>, fl: Flat, total: int)
    returns (next: Flat, more: int)
    requires chain != [] && total + Left(chain[0].files, fl) <= l.Cap()
    ensures Climb(l.OnMiss(), chain, fl, total) == Climb(l.OnMiss(), chain[1..], next, more)
    ensures (next == fl && more == total)
      || (next == StoreAll(chain[0].files, fl) && more == total + Left(chain[0].files, fl))
  {
    var g, left := chain[0], Left(chain[0].files, fl);
    if left == 0 || !l.OnMiss().earns(g.leaf, Tally(g.files, fl), g.leaf && Unread(g.files, fl)) {
      next, more := fl, total;
    } else {
      next, more := StoreAll(g.files, fl), total + left;
    }
  }

  /** A node on the way that is worth it, and of which no more is left than one miss
      may bring, is stored to its last byte. */
  lemma {:induction false} WorthIsStored(l: Layout, chain: seq<Group>, k: nat, fl: Flat, total: int)
    requires l.Usable() && Nested(chain) && AllKnown(chain, fl) && k < |chain|
    requires (k > 0 ==> !chain[k].leaf) && Worth(l, chain[k], fl)
    requires total + Left(chain[k].files, fl) <= l.Cap()
    ensures Left(chain[k].files, Climb(l.OnMiss(), chain, fl, total)) == 0
    decreases |chain|
  {
    var es, all := chain[0].files, chain[k].files;
    assert Known(es, all, fl);
    if k == 0 {
      FirstIsStored(l, chain, fl, total);
    } else {
      NestedTail(chain, fl);
      StoringLeaves(es, all, fl);
      LeftCounts(es, fl);
      var next, more := Goes(l, chain, fl, total);
      MoreStoredIsWorthMore(l, chain[k], fl, next);
      WorthIsStored(l, chain[1..], k - 1, next, more);
    }
  }

  /** Worth it, something left of it, and no more than one miss may bring. */
  ghost predicate Brought(l: Layout, g: Group, fl: Flat) {
    0 < Left(g.files, fl) <= l.Cap() && Worth(l, g, fl)
  }

  lemma {:induction false} NothingWorthIt(l: Layout, chain: seq<Group>, fl: Flat)
    requires l.Usable() && Nested(chain) && AllKnown(chain, fl)
    requires forall k :: 0 <= k < |chain| ==> !Brought(l, chain[k], fl)
    ensures Climb(l.OnMiss(), chain, fl, 0) == fl
  {
    if chain != [] {
      var g := chain[0];
      NestedTail(chain, fl);
      LeftCounts(g.files, fl);
      assert !Brought(l, g, fl);
      if 0 < Left(g.files, fl) <= l.Cap() {
        EarnsExactly(l, g, fl);
      }
      if Left(g.files, fl) <= l.Cap() {
        assert forall k :: 0 <= k < |chain[1..]| ==> chain[1..][k] == chain[k + 1];
        NothingWorthIt(l, chain[1..], fl);
      }
    }
  }

  /** Something is brought exactly if a node on the way to the root is worth it within
      the cap, and then that node to its last byte. */
  ghost predicate Brings(l: Layout, chain: seq<Group>, fl: Flat, now: Flat) {
    && (now != fl <==> exists k :: 0 <= k < |chain| && Brought(l, chain[k], fl))
    && (forall k :: 0 <= k < |chain| && Brought(l, chain[k], fl) ==> Left(chain[k].files, now) == 0)
  }

  lemma {:induction false} BringsExactly(l: Layout, chain: seq<Group>, fl: Flat)
    requires l.Usable() && Rising(chain, fl)
    ensures Brings(l, chain, fl, Climb(l.OnMiss(), chain, fl, 0))
  {
    forall k | 0 <= k < |chain| && Brought(l, chain[k], fl)
      ensures Left(chain[k].files, Climb(l.OnMiss(), chain, fl, 0)) == 0
    {
      WorthIsStored(l, chain, k, fl, 0);
    }
    if forall k :: 0 <= k < |chain| ==> !Brought(l, chain[k], fl) {
      NothingWorthIt(l, chain, fl);
    }
  }

  /** A leaf or not, then nodes above it, of known files. */
  ghost predicate Rising(chain: seq<Group>, fl: Flat) {
    Nested(chain) && AllKnown(chain, fl) && forall k :: 0 < k < |chain| ==> !chain[k].leaf
  }

  lemma {:induction false} NestMore(g: Group, chain: seq<Group>, fl: Flat)
    requires Rising(chain, fl) && chain != [] && !chain[0].leaf && DistinctPaths(g.files)
    requires forall e :: e in g.files ==> e in chain[0].files && e.path in fl
    ensures Rising([g] + chain, fl)
  {
    var all := [g] + chain;
    forall i, j, e | 0 <= i <= j < |all| && e in all[i].files ensures e in all[j].files {
      assert j > 0 ==> all[j] == chain[j - 1];
      assert i > 0 ==> all[i] == chain[i - 1];
    }
  }

  /** With nothing stored on the way and the leaf read whole, a miss brings nothing. */
  lemma {:induction false} ReadWholeBringsNothing(l: Layout, chain: seq<Group>, fl: Flat)
    requires l.Usable() && Rising(chain, fl)
    requires forall k, e :: 0 <= k < |chain| && e in chain[k].files ==> !fl[e.path].stored
    requires chain != [] && chain[0].leaf && forall e :: e in chain[0].files ==> fl[e.path].read >= e.size
    ensures Climb(l.OnMiss(), chain, fl, 0) == fl
  {
    forall k | 0 <= k < |chain| ensures !Brought(l, chain[k], fl) {
      NoneFetched(chain[k].files, fl);
      if k > 0 && Left(chain[k].files, fl) > 0 {
        var t := Tally(chain[k].files, fl);
        StoredShare(l.nodePromote, 0, t.bytes);
        assert l.nodePromote * t.bytes as real > 0.0;
      }
    }
    NothingWorthIt(l, chain, fl);
  }

  lemma {:induction false} NoneFetched(es: seq<Entry>, fl: Flat)
    requires forall e :: e in es ==> e.path in fl && !fl[e.path].stored
    ensures Tally(es, fl).fetched == 0
  {
    if es != [] {
      NoneFetched(es[1..], fl);
    }
  }
}
