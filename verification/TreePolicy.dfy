/** What the prefetch tree decides from: files, what has happened to each, the
    five sums a node keeps about them, and the promotion rule. Pure; PrefetchTree
    keeps the sums incrementally and is proved to decide the same. */
module TreePolicy {
  import opened Basics
  import opened Sorting

  /** One file a prefetch may send. */
  datatype Entry = Entry(path: string, size: nat)

  /** Sent into the cache, or how much of it was read over the network. */
  datatype FileState = FileState(stored: bool, read: nat)

  const UNTOUCHED := FileState(false, 0)

  type Flat = map<string, FileState>

  function Paths(es: seq<Entry>): set<string> {
    set e | e in es :: e.path
  }

  ghost predicate DistinctPaths(es: seq<Entry>) {
    forall i, j :: 0 <= i < j < |es| ==> es[i].path != es[j].path
  }

  /** The five counters of a node. */
  datatype Counters = Counters(bytes: int, fetched: int, read: int, files: int, fetchedFiles: int) {
    function Plus(o: Counters): Counters {
      Counters(bytes + o.bytes, fetched + o.fetched, read + o.read, files + o.files, fetchedFiles + o.fetchedFiles)
    }
  }

  const ZERO := Counters(0, 0, 0, 0, 0)

  /** What one file in one state adds to the counters above it. */
  function Share(e: Entry, st: FileState): Counters {
    if st.stored then Counters(e.size, e.size, 0, 1, 1)
    else Counters(e.size, 0, st.read, 1, 0)
  }

  function StateOf(fl: Flat, path: string): FileState {
    if path in fl then fl[path] else UNTOUCHED
  }

  /** The counters computed from scratch over the files themselves. */
  function Tally(es: seq<Entry>, fl: Flat): Counters {
    if es == [] then ZERO
    else Share(es[0], StateOf(fl, es[0].path)).Plus(Tally(es[1..], fl))
  }

  /** The bytes, and the files, not stored yet. */
  function Left(es: seq<Entry>, fl: Flat): int {
    Tally(es, fl).bytes - Tally(es, fl).fetched
  }

  function LeftFiles(es: seq<Entry>, fl: Flat): int {
    Tally(es, fl).files - Tally(es, fl).fetchedFiles
  }

  /** A read never counts past the file's size, and a stored file's reads are
      not evidence any more. */
  ghost predicate FlatOk(es: seq<Entry>, fl: Flat) {
    forall e :: e in es ==> e.path in fl && fl[e.path].read <= e.size && (fl[e.path].stored ==> fl[e.path].read == 0)
  }

  predicate Unread(es: seq<Entry>, fl: Flat) {
    exists e :: e in es && !StateOf(fl, e.path).stored && StateOf(fl, e.path).read < e.size
  }

  lemma {:induction false} TallyConcat(a: seq<Entry>, b: seq<Entry>, fl: Flat)
    ensures Tally(a + b, fl) == Tally(a, fl).Plus(Tally(b, fl))
  {
    if a == [] {
      assert a + b == b;
    } else {
      assert (a + b)[0] == a[0] && (a + b)[1..] == a[1..] + b;
      TallyConcat(a[1..], b, fl);
    }
  }

  lemma {:induction false} TallyFrame(es: seq<Entry>, fl: Flat, fl': Flat)
    requires forall e :: e in es ==> StateOf(fl, e.path) == StateOf(fl', e.path)
    ensures Tally(es, fl) == Tally(es, fl')
  {
    if es != [] {
      TallyFrame(es[1..], fl, fl');
    }
  }

  /** Changing one file's state moves the counters by exactly the difference
      of its two shares. */
  lemma {:induction false} TallyUpdate(es: seq<Entry>, fl: Flat, e: Entry, st: FileState)
    requires DistinctPaths(es) && e in es
    ensures Tally(es, fl[e.path := st]).Plus(Share(e, StateOf(fl, e.path))) == Tally(es, fl).Plus(Share(e, st))
  {
    var fl' := fl[e.path := st];
    if es[0] == e {
      TallyFrame(es[1..], fl, fl');
    } else {
      TallyUpdate(es[1..], fl, e, st);
    }
  }

  // ----- the link and the layout

  /** Round trip in nanoseconds, bandwidth in bytes per second; 0 is unmeasured. */
  datatype Link = Link(rtt: int, bandwidth: int) {
    function Bdp(): int {
      if bandwidth <= 0 || rtt <= 0 then 0
      else (bandwidth as real * (rtt as real / 1000000000.0)).Floor
    }
  }

  datatype Layout = Layout(
    link: Link, largeFile: int, leafBytes: int, windowLeaves: int, branching: int,
    maxFetchBdp: real, fMin: real, nodePromote: real)
  {
    /** None is the refusal of a branching below two. */
    function WithDefaults(): Option<Layout> {
      var b := if branching == 0 then 2 else branching;
      if b < 2 then None
      else Some(Layout(link,
                       if largeFile <= 0 then 1048576 else largeFile,
                       if leafBytes <= 0 then 262144 else leafBytes,
                       if windowLeaves <= 0 then 32 else windowLeaves,
                       b,
                       if maxFetchBdp <= 0.0 then 4.0 else maxFetchBdp,
                       if fMin <= 0.0 then 0.05 else fMin,
                       if nodePromote <= 0.0 then 0.6 else nodePromote))
    }

    predicate Usable() {
      largeFile > 0 && leafBytes > 0 && windowLeaves > 0 && branching >= 2 &&
      maxFetchBdp > 0.0 && fMin > 0.0 && nodePromote > 0.0
    }

    /** One round trip's worth of bytes, or the leaf size on an unmeasured link. */
    function Bdp(): int {
      var b := link.Bdp();
      if b > 0 then b else leafBytes
    }

    /** The most one miss may trigger. */
    function Cap(): int { (maxFetchBdp * Bdp() as real).Floor }

    /** Whether a node with these counters has earned being fetched whole. */
    predicate Promote(leaf: bool, c: Counters, unread: bool) {
      if !leaf then c.fetched as real >= nodePromote * c.bytes as real
      else unread && c.read as real >= Bar(c) * (c.bytes - c.fetched) as real
    }

    /** The fraction of a leaf that must have been read: the mean size of what
        is left over the bandwidth-delay product, between fMin and 1. */
    function Bar(c: Counters): real {
      if (c.files - c.fetchedFiles) == 0 || Bdp() == 0 then 1.0
      else
        var mean := (c.bytes - c.fetched) as real / (c.files - c.fetchedFiles) as real;
        var want := mean / Bdp() as real;
        var atLeast := if want < fMin then fMin else want;
        if atLeast > 1.0 then 1.0 else atLeast
    }

    /** What one miss decides by, on the link as it is now. */
    function OnMiss(): Policy {
      Policy(Cap(), (leaf: bool, c: Counters, unread: bool) => Promote(leaf, c, unread))
    }
  }

  /** The most one miss may trigger, and which nodes have earned being fetched. */
  datatype Policy = Policy(cap: int, earns: (bool, Counters, bool) -> bool)

  // ----- the policy from scratch

  /** A node as the policy sees it: the files under it, and whether it is a leaf. */
  datatype Group = Group(files: seq<Entry>, leaf: bool)

  function StoreAll(es: seq<Entry>, fl: Flat): Flat {
    map p | p in fl :: if p in Paths(es) then FileState(true, 0) else fl[p]
  }

  /** What one read adds to a file not stored. */
  function Recorded(e: Entry, fl: Flat, n: nat): Flat
    requires e.path in fl
  {
    var was := fl[e.path].read;
    fl[e.path := FileState(false, if was + n <= e.size then was + n else e.size)]
  }

  /** The climb over the chain of groups from a leaf to the root, every sum
      computed from the files: a group with nothing left is passed, one that
      would take the batch over the cap ends the climb, one that has earned it
      is stored whole. */
  ghost function Climb(policy: Policy, chain: seq<Group>, fl: Flat, total: int): Flat
    decreases |chain|
  {
    if chain == [] then fl
    else
      var g := chain[0];
      var c := Tally(g.files, fl);
      var left := c.bytes - c.fetched;
      if left == 0 then Climb(policy, chain[1..], fl, total)
      else if total + left > policy.cap then fl
      else if !policy.earns(g.leaf, c, g.leaf && Unread(g.files, fl)) then Climb(policy, chain[1..], fl, total)
      else Climb(policy, chain[1..], StoreAll(g.files, fl), total + left)
  }

  lemma {:induction false} UsableDefaults(l: Layout)
    ensures l.WithDefaults().Some? <==> (l.branching == 0 || l.branching >= 2)
    ensures l.WithDefaults().Some? ==> l.WithDefaults().value.Usable()
    ensures l.Usable() ==> l.WithDefaults() == Some(l)
    ensures Layout(l.link, 0, 0, 0, 0, 0.0, 0.0, 0.0).WithDefaults()
      == Some(Layout(l.link, 1024 * 1024, 256 * 1024, 32, 2, 4.0, 0.05, 0.6))
  {}

  /** Storing one more file first makes no difference. */
  lemma {:induction false} StoreAllStep(es: seq<Entry>, fl: Flat)
    requires es != [] && DistinctPaths(es) && es[0].path in fl
    ensures StoreAll(es[1..], fl[es[0].path := FileState(true, 0)]) == StoreAll(es, fl)
  {
    assert Paths(es) == Paths(es[1..]) + {es[0].path};
  }

  /** now has all of left stored that was did not. */
  ghost predicate Gains(was: Counters, now: Counters, left: Counters) {
    now.fetched == was.fetched + (left.bytes - left.fetched)
      && now.fetchedFiles == was.fetchedFiles + (left.files - left.fetchedFiles)
  }

  lemma {:induction false} GainsCompose(a: Counters, b: Counters, c: Counters, s: Counters, r: Counters)
    requires Gains(a, b, s) && Gains(b, c, r)
    ensures Gains(a, c, s.Plus(r))
  {
  }

  /** Storing one file of all adds its bytes and itself, unless it was stored. */
  lemma {:induction false} StoreOneAdds(all: seq<Entry>, e: Entry, fl: Flat)
    requires DistinctPaths(all) && e in all && e.path in fl
    ensures Gains(Tally(all, fl), Tally(all, fl[e.path := FileState(true, 0)]), Share(e, fl[e.path]))
  {
    TallyUpdate(all, fl, e, FileState(true, 0));
  }

  lemma {:induction false} TallyHead(es: seq<Entry>, fl: Flat)
    requires es != [] && DistinctPaths(es) && es[0].path in fl
    ensures Tally(es, fl) == Share(es[0], fl[es[0].path]).Plus(Tally(es[1..], fl[es[0].path := FileState(true, 0)]))
  {
    TallyFrame(es[1..], fl, fl[es[0].path := FileState(true, 0)]);
  }

  ghost predicate Known(es: seq<Entry>, all: seq<Entry>, fl: Flat) {
    forall e :: e in es ==> e in all && e.path in fl
  }

  lemma {:induction false} KnownTail(es: seq<Entry>, all: seq<Entry>, fl: Flat, q: string, st: FileState)
    requires Known(es, all, fl) && es != [] && DistinctPaths(es)
    ensures Known(es[1..], all, fl[q := st]) && DistinctPaths(es[1..])
  {
    assert forall x :: x in es[1..] ==> x in es;
  }

  lemma {:induction false} StoreNone(fl: Flat)
    ensures StoreAll([], fl) == fl
  {
  }

  lemma {:induction false} GainsNothing(c: Counters)
    ensures Gains(c, c, ZERO)
  {
  }

  lemma {:induction false} StoreAllGains(all: seq<Entry>, es: seq<Entry>, fl: Flat)
    requires DistinctPaths(all) && DistinctPaths(es) && Known(es, all, fl)
    ensures Gains(Tally(all, fl), Tally(all, StoreAll(es, fl)), Tally(es, fl))
    decreases |es|
  {
    if es == [] {
      StoreNone(fl);
      GainsNothing(Tally(all, fl));
    } else {
      var e := es[0];
      assert e in es;
      var fl' := fl[e.path := FileState(true, 0)];
      KnownTail(es, all, fl, e.path, FileState(true, 0));
      StoreAllGains(all, es[1..], fl');
      StoreOneAdds(all, e, fl);
      StoreAllStep(es, fl);
      TallyHead(es, fl);
      GainsCompose(Tally(all, fl), Tally(all, fl'), Tally(all, StoreAll(es, fl)), Share(e, fl[e.path]),
        Tally(es[1..], fl'));
    }
  }

  /** Storing a group whole adds what it had unfetched to the whole, no more. */
  lemma {:induction false} StoreAllAdds(all: seq<Entry>, es: seq<Entry>, fl: Flat)
    requires DistinctPaths(all) && DistinctPaths(es) && (forall e :: e in es ==> e in all)
    requires FlatOk(all, fl)
    ensures FlatOk(all, StoreAll(es, fl))
    ensures Gains(Tally(all, fl), Tally(all, StoreAll(es, fl)), Tally(es, fl))
  {
    StoreAllGains(all, es, fl);
  }

  /** out is files of all, none stored before, and storing them is the whole
      difference from fl to fl'. */
  ghost predicate Stores(all: seq<Entry>, fl: Flat, out: seq<Entry>, fl': Flat) {
    && fl' == StoreAll(out, fl) && DistinctPaths(out)
    && (forall e :: e in out ==> e in all && e.path in fl && !fl[e.path].stored)
  }

  lemma {:induction false} StoresNothing(all: seq<Entry>, fl: Flat)
    ensures Stores(all, fl, [], fl)
  {
    assert StoreAll([], fl) == fl;
  }

  lemma {:induction false} StoresOne(all: seq<Entry>, fl: Flat, out: seq<Entry>, fl': Flat, e: Entry)
    requires Stores(all, fl, out, fl') && e in all && e.path in fl' && !fl'[e.path].stored
    ensures Stores(all, fl, out + [e], fl'[e.path := FileState(true, 0)])
  {
    assert Paths(out + [e]) == Paths(out) + {e.path} by {
      assert forall x :: x in out + [e] <==> x in out || x == e;
    }
    assert StoreAll(out + [e], fl) == fl'[e.path := FileState(true, 0)];
  }

  lemma {:induction false} StoresThen(all: seq<Entry>, fl: Flat, out: seq<Entry>, fl': Flat, out': seq<Entry>,
      fl'': Flat)
    requires Stores(all, fl, out, fl') && Stores(all, fl', out', fl'')
    ensures Stores(all, fl, out + out', fl'')
  {
    assert Paths(out + out') == Paths(out) + Paths(out') by {
      assert forall x :: x in out + out' <==> x in out || x in out';
    }
    forall x, y | x in out && y in out' ensures x.path != y.path {
      assert x.path in Paths(out) && y in out' && fl'[x.path] == FileState(true, 0);
    }
    assert StoreAll(out + out', fl) == fl'';
  }

  lemma {:induction false} StoresAllIsAll(es: seq<Entry>, fl: Flat, out: seq<Entry>, fl': Flat)
    requires Stores(es, fl, out, fl') && (forall e :: e in es ==> e.path in fl')
    requires forall e :: e in es ==> fl'[e.path].stored
    requires FlatOk(es, fl)
    ensures fl' == StoreAll(es, fl)
  {
    forall p | p in fl ensures fl'[p] == StoreAll(es, fl)[p] {
      if p in Paths(es) {
        var e :| e in es && e.path == p;
        assert fl'[e.path].stored;
      } else {
        assert p !in Paths(out);
      }
    }
  }

  /** What is stored of a list that ends all stored is exactly what was left. */
  lemma {:induction false} StoresAllOf(es: seq<Entry>, fl: Flat, out: seq<Entry>, fl': Flat)
    requires Stores(es, fl, out, fl') && DistinctPaths(es) && FlatOk(es, fl)
    requires forall e :: e in es ==> fl'[e.path].stored
    ensures fl' == StoreAll(es, fl)
    ensures SumSizes(out) == Left(es, fl)
  {
    StoresAllIsAll(es, fl, out, fl');
    StoreAllAdds(es, es, fl);
    StoreAllAdds(es, out, fl);
    UnstoredSum(out, fl);
    var t, all := Tally(es, fl'), Tally(es, fl);
    assert t.fetched == all.fetched + (all.bytes - all.fetched);
    assert t.fetched == all.fetched + Left(out, fl);
  }

  lemma {:induction false} UnstoredSum(out: seq<Entry>, fl: Flat)
    requires forall e :: e in out ==> e.path in fl && !fl[e.path].stored
    ensures SumSizes(out) == Left(out, fl)
  {
    if out != [] {
      var front, last := out[..|out|-1], out[|out|-1];
      assert out == front + [last];
      UnstoredSum(front, fl);
      TallyConcat(front, [last], fl);
      assert [last][1..] == [];
    }
  }

  function UnstoreAll(es: seq<Entry>, fl: Flat): Flat {
    map p | p in fl :: if p in Paths(es) && fl[p].stored then FileState(false, 0) else fl[p]
  }

  /** Every group's files are files of all, each once. */
  ghost predicate GroupsOf(all: seq<Entry>, chain: seq<Group>) {
    chain == []
      || (DistinctPaths(chain[0].files) && (forall e :: e in chain[0].files ==> e in all) && GroupsOf(all, chain[1..]))
  }

  /** One miss never stores more bytes than the cap, over the whole climb. */
  lemma {:induction false} ClimbWithinCap(policy: Policy, all: seq<Entry>, chain: seq<Group>, fl: Flat, total: int)
    requires DistinctPaths(all) && FlatOk(all, fl) && GroupsOf(all, chain)
    ensures var was, now := Tally(all, fl).fetched, Tally(all, Climb(policy, chain, fl, total)).fetched;
            now == was || now <= was + policy.cap - total
  {
    if chain != [] {
      var g, c := chain[0], Tally(chain[0].files, fl);
      var left := c.bytes - c.fetched;
      if left == 0 {
        ClimbWithinCap(policy, all, chain[1..], fl, total);
      } else if total + left <= policy.cap {
        if policy.earns(g.leaf, c, g.leaf && Unread(g.files, fl)) {
          StoreAllAdds(all, g.files, fl);
          ClimbWithinCap(policy, all, chain[1..], StoreAll(g.files, fl), total + left);
        } else {
          ClimbWithinCap(policy, all, chain[1..], fl, total);
        }
      }
    }
  }

  // ----- smallest first

  predicate BySizePath(a: Entry, b: Entry) {
    a.size < b.size || (a.size == b.size && StringLe(a.path, b.path))
  }

  lemma {:induction false} BySizePathOrders()
    ensures TotalOrder(BySizePath)
  {
    forall a: Entry, b: Entry
      ensures BySizePath(a, b) || BySizePath(b, a)
      ensures BySizePath(a, b) && BySizePath(b, a) ==> a == b
    {
      StringLeTotal(a.path, b.path);
    }
    forall a: Entry, b: Entry, c: Entry | BySizePath(a, b) && BySizePath(b, c)
      ensures BySizePath(a, c)
    {
      if a.size == b.size == c.size {
        StringLeTransitive(a.path, b.path, c.path);
      }
    }
  }

  function SumSizes(es: seq<Entry>): nat {
    if es == [] then 0 else SumSizes(es[..|es|-1]) + es[|es|-1].size
  }

  /** How many of a sorted list one walk batch takes, size being the bytes of
      the first k: always the first, then each that keeps the batch within both
      limits. */
  function TakeCount(es: seq<Entry>, maxBytes: int, maxFiles: int, k: nat, size: nat): (n: nat)
    requires k <= |es|
    ensures k <= n <= |es|
    decreases |es| - k
  {
    if k == |es| || k >= maxFiles || (k > 0 && size + es[k].size > maxBytes) then k
    else TakeCount(es, maxBytes, maxFiles, k + 1, size + es[k].size)
  }

  /** The walk batch over a list of unstored files: a prefix of it, smallest
      first. */
  function WalkBatch(es: seq<Entry>, maxBytes: int, maxFiles: int): (r: seq<Entry>) {
    var s := Sort(es, BySizePath);
    if maxFiles <= 0 || maxBytes <= 0 then [] else s[..TakeCount(s, maxBytes, maxFiles, 0, 0)]
  }

  lemma {:induction false} TakeWithinLimits(es: seq<Entry>, maxBytes: int, maxFiles: int, k: nat)
    requires k <= |es| && maxFiles > 0
    requires k <= maxFiles && (k <= 1 || SumSizes(es[..k]) <= maxBytes)
    ensures var n := TakeCount(es, maxBytes, maxFiles, k, SumSizes(es[..k]));
            n <= maxFiles && (n <= 1 || SumSizes(es[..n]) <= maxBytes)
    decreases |es| - k
  {
    if !(k == |es| || k >= maxFiles || (k > 0 && SumSizes(es[..k]) + es[k].size > maxBytes)) {
      assert es[..k+1][..k] == es[..k];
      TakeWithinLimits(es, maxBytes, maxFiles, k + 1);
    }
  }

  lemma {:induction false} WalkBatchIsPrefix(es: seq<Entry>, maxBytes: int, maxFiles: int)
    requires maxBytes > 0 && maxFiles > 0
    ensures var b := WalkBatch(es, maxBytes, maxFiles);
            b <= Sort(es, BySizePath) && Sorted(b, BySizePath) && (forall e :: e in b ==> e in es)
  {
    var s := Sort(es, BySizePath);
    BySizePathOrders();
    SortIsSorted(es, BySizePath);
    var b := s[..TakeCount(s, maxBytes, maxFiles, 0, 0)];
    forall e | e in b ensures e in es {
      assert e in s && e in multiset(s);
    }
  }

  /** Whatever a walk batch leaves is no smaller than what it takes. */
  lemma {:induction false} WalkBatchSmallestFirst(es: seq<Entry>, maxBytes: int, maxFiles: int, e: Entry, f: Entry)
    requires maxBytes > 0 && maxFiles > 0
    requires e in WalkBatch(es, maxBytes, maxFiles) && f in es && f !in WalkBatch(es, maxBytes, maxFiles)
    ensures BySizePath(e, f)
  {
    var s := Sort(es, BySizePath);
    BySizePathOrders();
    SortIsSorted(es, BySizePath);
    var n := TakeCount(s, maxBytes, maxFiles, 0, 0);
    assert forall k :: 0 <= k < n ==> s[..n][k] == s[k];
    assert f in multiset(s);
    var i :| 0 <= i < |s| && s[i] == f;
    var j :| 0 <= j < n && s[j] == e;
  }

  /** A walk batch is within both limits, except that its first file goes
      whatever its size; and something always goes. */
  lemma {:induction false} WalkBatchLimits(es: seq<Entry>, maxBytes: int, maxFiles: int)
    requires maxBytes > 0 && maxFiles > 0
    ensures var b := WalkBatch(es, maxBytes, maxFiles);
            && |b| <= maxFiles && (|b| == 1 || SumSizes(b) <= maxBytes)
            && (es != [] ==> b != [])
  {
    var s := Sort(es, BySizePath);
    assert s[..0] == [] && SumSizes([]) == 0;
    TakeWithinLimits(s, maxBytes, maxFiles, 0);
  }

  /** A walk batch is as long as the limits allow: with one more file of those left it
      would be over one of them. */
  lemma {:induction false} WalkBatchIsLongest(es: seq<Entry>, maxBytes: int, maxFiles: int, f: Entry)
    requires maxBytes > 0 && maxFiles > 0 && f in es && f !in WalkBatch(es, maxBytes, maxFiles)
    ensures var b := WalkBatch(es, maxBytes, maxFiles);
            |b| == maxFiles || SumSizes(b) + f.size > maxBytes
  {
    var s := Sort(es, BySizePath);
    BySizePathOrders();
    SortIsSorted(es, BySizePath);
    assert f in multiset(s) && s[..0] == [];
    TakeIsLongest(s, maxBytes, maxFiles, 0);
    TakeWithinLimits(s, maxBytes, maxFiles, 0);
    LeftIsLater(s, TakeCount(s, maxBytes, maxFiles, 0, 0), f);
  }

  lemma {:induction false} LeftIsLater(s: seq<Entry>, n: nat, f: Entry)
    requires Sorted(s, BySizePath) && n <= |s| && f in s && f !in s[..n]
    ensures n < |s| && s[n].size <= f.size
  {
    forall k | 0 <= k < n ensures s[k] != f {
      assert s[k] == s[..n][k];
    }
    var i :| 0 <= i < |s| && s[i] == f;
    if n < i {
      assert BySizePath(s[n], s[i]);
    }
  }

  lemma {:induction false} TakeIsLongest(es: seq<Entry>, maxBytes: int, maxFiles: int, k: nat)
    requires k <= |es|
    ensures var n := TakeCount(es, maxBytes, maxFiles, k, SumSizes(es[..k]));
            n == |es| || n >= maxFiles || SumSizes(es[..n]) + es[n].size > maxBytes
    decreases |es| - k
  {
    if !(k == |es| || k >= maxFiles || (k > 0 && SumSizes(es[..k]) + es[k].size > maxBytes)) {
      assert es[..k+1][..k] == es[..k];
      TakeIsLongest(es, maxBytes, maxFiles, k + 1);
    }
  }

  /** b is a walk batch of es: some of its files, none twice, no other smaller; within
      both limits but for a first file, and one more would be over one of them. */
  ghost predicate Batched(es: seq<Entry>, maxBytes: int, maxFiles: int, b: seq<Entry>) {
    && multiset(b) <= multiset(es) && Sorted(b, BySizePath) && (es != [] ==> b != [])
    && |b| <= maxFiles && (|b| == 1 || SumSizes(b) <= maxBytes)
    && (forall e, f :: e in b && f in es && f !in b ==> BySizePath(e, f))
    && (forall f :: f in es && f !in b ==> |b| == maxFiles || SumSizes(b) + f.size > maxBytes)
  }

  lemma {:induction false} BatchedWalk(es: seq<Entry>, maxBytes: int, maxFiles: int)
    requires maxBytes > 0 && maxFiles > 0
    ensures Batched(es, maxBytes, maxFiles, WalkBatch(es, maxBytes, maxFiles))
  {
    var b := WalkBatch(es, maxBytes, maxFiles);
    BatchIsWithin(es, maxBytes, maxFiles);
    WalkBatchLimits(es, maxBytes, maxFiles);
    forall e, f | e in b && f in es && f !in b ensures BySizePath(e, f) {
      WalkBatchSmallestFirst(es, maxBytes, maxFiles, e, f);
    }
    forall f | f in es && f !in b ensures |b| == maxFiles || SumSizes(b) + f.size > maxBytes {
      WalkBatchIsLongest(es, maxBytes, maxFiles, f);
    }
  }

  lemma {:induction false} BatchIsWithin(es: seq<Entry>, maxBytes: int, maxFiles: int)
    requires maxBytes > 0 && maxFiles > 0
    ensures var b := WalkBatch(es, maxBytes, maxFiles);
      multiset(b) <= multiset(es) && Sorted(b, BySizePath)
  {
    WalkBatchIsPrefix(es, maxBytes, maxFiles);
    PrefixWithin(WalkBatch(es, maxBytes, maxFiles), Sort(es, BySizePath));
  }

  lemma {:induction false} PrefixWithin(b: seq<Entry>, s: seq<Entry>)
    requires b <= s
    ensures multiset(b) <= multiset(s)
  {
    assert s == b + s[|b|..];
  }

  /** The files of a list not stored yet. */
  function UnstoredOf(es: seq<Entry>, fl: Flat): seq<Entry> {
    if es == [] then []
    else (if StateOf(fl, es[0].path).stored then [] else [es[0]]) + UnstoredOf(es[1..], fl)
  }

  lemma {:induction false} UnstoredConcat(a: seq<Entry>, b: seq<Entry>, fl: Flat)
    ensures UnstoredOf(a + b, fl) == UnstoredOf(a, fl) + UnstoredOf(b, fl)
  {
    if a == [] {
      assert a + b == b;
    } else {
      assert (a + b)[0] == a[0] && (a + b)[1..] == a[1..] + b;
      UnstoredConcat(a[1..], b, fl);
    }
  }

  lemma {:induction false} UnstoredIn(es: seq<Entry>, fl: Flat, e: Entry)
    ensures e in UnstoredOf(es, fl) <==> e in es && !StateOf(fl, e.path).stored
  {
    if es != [] {
      UnstoredIn(es[1..], fl, e);
    }
  }

  lemma {:induction false} UnstoredDistinct(es: seq<Entry>, fl: Flat)
    requires DistinctPaths(es)
    ensures DistinctPaths(UnstoredOf(es, fl))
  {
    if es != [] {
      UnstoredDistinct(es[1..], fl);
      forall e | e in UnstoredOf(es[1..], fl) ensures e.path != es[0].path {
        UnstoredIn(es[1..], fl, e);
      }
    }
  }
}
