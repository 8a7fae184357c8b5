/** The prefetch sender of one share: demand batches from the tree first, the
    walk's smallest leftovers otherwise. Each method is one hold of the share's
    lock, or the end of a send, so any order of calls is a run. */
module Sender {
  import opened Basics
  import opened Sorting
  import opened TreePolicy
  import opened TreeLayout
  import opened TreeSteps
  import opened PrefetchTree

  const QUIET_FOR := 2_000_000_000
  const WALK_BATCH := 1_048_576
  const BATCH_BYTES := 16_777_216
  const FILL_BACKOFF_MIN := 1_000_000_000
  const FILL_BACKOFF_MAX := 300_000_000_000

  function StoredPaths(fl: Flat): set<string> {
    set q | q in fl && fl[q].stored
  }

  datatype Policy = Off | Tree | Eager

  /** How much a policy sends. */
  function Rank(p: Policy): int {
    match p
    case Off => 0
    case Tree => 1
    case Eager => 2
  }

  /** What the tree calls stored is, each file once: held from before, in a live
      batch, or accepted by the store. */
  ghost predicate Accounted(fl: Flat, held: set<string>, live: seq<Entry>, accepted: set<string>) {
    && DistinctPaths(live)
    && StoredPaths(fl) == held + Paths(live) + accepted
    && held !! Paths(live) && held !! accepted && Paths(live) !! accepted
  }

  /** Every file of a list is one of the walk's. */
  ghost predicate Among(es: seq<Entry>, entries: seq<Entry>) {
    forall e :: e in es ==> e in entries
  }

  lemma {:induction false} AmongConcat(a: seq<Entry>, b: seq<Entry>, entries: seq<Entry>)
    ensures Among(a + b, entries) <==> Among(a, entries) && Among(b, entries)
  {
    assert forall e :: e in a + b <==> e in a || e in b;
  }

  lemma {:induction false} AmongPerm(a: seq<Entry>, b: seq<Entry>, entries: seq<Entry>)
    requires Among(a, entries) && multiset(a) == multiset(b)
    ensures Among(b, entries)
  {
    forall e | e in b ensures e in a {
      assert e in multiset(b) && e in multiset(a);
    }
  }

  /** What a batch taken from the tree is made of. */
  lemma {:induction false} StoresAmong(all: seq<Entry>, fl: Flat, out: seq<Entry>, fl': Flat, entries: seq<Entry>)
    requires Stores(all, fl, out, fl') && Among(all, entries)
    ensures Among(out, entries)
  {
  }

  lemma {:induction false} PathsConcat(a: seq<Entry>, b: seq<Entry>)
    ensures Paths(a + b) == Paths(a) + Paths(b)
  {
    assert forall e :: e in a + b <==> e in a || e in b;
  }

  lemma {:induction false} StoresPaths(all: seq<Entry>, fl: Flat, out: seq<Entry>, fl': Flat)
    requires Stores(all, fl, out, fl')
    ensures StoredPaths(fl') == StoredPaths(fl) + Paths(out) && StoredPaths(fl) !! Paths(out)
  {
  }

  /** Files newly stored join the live ones. */
  lemma {:induction false} AccountedTakes(all: seq<Entry>, fl: Flat, out: seq<Entry>, fl': Flat, held: set<string>,
      live: seq<Entry>, accepted: set<string>)
    requires Stores(all, fl, out, fl') && Accounted(fl, held, live, accepted)
    ensures Accounted(fl', held, live + out, accepted)
  {
    StoresPaths(all, fl, out, fl');
    PathsConcat(live, out);
    forall x, y | x in live && y in out ensures x.path != y.path {
      assert x.path in Paths(live) && y.path in Paths(out);
    }
    JoinDistinct(live, out);
  }

  lemma {:induction false} JoinDistinct(a: seq<Entry>, b: seq<Entry>)
    requires DistinctPaths(a) && DistinctPaths(b) && forall x, y :: x in a && y in b ==> x.path != y.path
    ensures DistinctPaths(a + b)
  {
    var c := a + b;
    forall i, j | 0 <= i < j < |c| ensures c[i].path != c[j].path {
      assert c[i] == if i < |a| then a[i] else b[i - |a|];
      assert c[j] == if j < |a| then a[j] else b[j - |a|];
    }
  }

  lemma {:induction false} AccountedPerm(fl: Flat, held: set<string>, a: seq<Entry>, b: seq<Entry>,
      accepted: set<string>)
    requires Accounted(fl, held, a, accepted) && multiset(a) == multiset(b)
    ensures Accounted(fl, held, b, accepted)
  {
    DistinctPerm(a, b);
    SamePaths(a, b);
  }

  lemma {:induction false} AccountedSame(fl: Flat, fl': Flat, held: set<string>, live: seq<Entry>,
      accepted: set<string>)
    requires Accounted(fl, held, live, accepted) && StoredPaths(fl) == StoredPaths(fl')
    ensures Accounted(fl', held, live, accepted)
  {
  }

  lemma {:induction false} SplitDistinct(a: seq<Entry>, b: seq<Entry>)
    requires DistinctPaths(a + b)
    ensures DistinctPaths(a) && DistinctPaths(b) && Paths(a) !! Paths(b)
  {
    assert forall i :: 0 <= i < |a| ==> (a + b)[i] == a[i];
    assert forall i :: 0 <= i < |b| ==> (a + b)[|a| + i] == b[i];
    ConcatDistinct(a, b);
  }

  /** A refused batch goes back to unstored, and nothing else does. */
  lemma {:induction false} AccountedRefused(fl: Flat, held: set<string>, live: seq<Entry>, batch: seq<Entry>,
      accepted: set<string>)
    requires Accounted(fl, held, live + batch, accepted)
    ensures Accounted(UnstoreAll(batch, fl), held, live, accepted)
    ensures StoredPaths(UnstoreAll(batch, fl)) == StoredPaths(fl) - Paths(batch)
  {
    PathsConcat(live, batch);
    SplitDistinct(live, batch);
  }

  /** An accepted batch moves as it is. */
  lemma {:induction false} AccountedAccepted(fl: Flat, held: set<string>, live: seq<Entry>, batch: seq<Entry>,
      accepted: set<string>)
    requires Accounted(fl, held, live + batch, accepted)
    ensures Accounted(fl, held, live, accepted + Paths(batch))
  {
    PathsConcat(live, batch);
    SplitDistinct(live, batch);
  }

  /** No file is in two live batches. */
  lemma {:induction false} LiveApart(queue: seq<seq<Entry>>, flight: seq<Entry>, i: nat, j: nat)
    requires DistinctPaths(Flatten(queue) + flight) && i < j <= |queue|
    ensures Paths(queue[i]) !! Paths(if j == |queue| then flight else queue[j])
  {
    var rest := Flatten(queue[1..]);
    assert Flatten(queue) + flight == queue[0] + (rest + flight);
    SplitDistinct(queue[0], rest + flight);
    if i > 0 {
      LiveApart(queue[1..], flight, i - 1, j - 1);
    } else {
      PathsConcat(rest, flight);
      if j < |queue| {
        BatchInFlatten(queue[1..], j - 1);
      }
    }
  }

  lemma {:induction false} BatchInFlatten(queue: seq<seq<Entry>>, j: nat)
    requires j < |queue|
    ensures Paths(queue[j]) <= Paths(Flatten(queue))
  {
    forall e | e in queue[j] ensures e in Flatten(queue) {
      var i :| 0 <= i < |queue[j]| && queue[j][i] == e;
      InFlatten(queue, j, i);
    }
  }

  lemma {:induction false} RecordedStores(e: Entry, fl: Flat, n: nat)
    requires e.path in fl && !fl[e.path].stored
    ensures StoredPaths(Recorded(e, fl, n)) == StoredPaths(fl)
  {
  }

  lemma {:induction false} AddedStores(fl: Flat, fl': Flat)
    requires fl.Keys <= fl'.Keys && forall q :: q in fl' ==> fl'[q] == StateOf(fl, q)
    ensures StoredPaths(fl') == StoredPaths(fl)
  {
    forall q ensures q in StoredPaths(fl') <==> q in StoredPaths(fl) {
      if q in fl {
        assert fl'[q] == fl[q];
      }
    }
  }

  lemma {:induction false} AccountedHeld(fl: Flat, q: string, held: set<string>, live: seq<Entry>,
      accepted: set<string>)
    requires Accounted(fl, held, live, accepted) && q in fl && !fl[q].stored
    ensures Accounted(fl[q := FileState(true, 0)], held + {q}, live, accepted)
  {
    assert StoredPaths(fl[q := FileState(true, 0)]) == StoredPaths(fl) + {q};
  }

  /** The wait after failures in a row: doubling from min, at most max. */
  method Backoff(minWait: int, maxWait: int, failures: nat) returns (d: int)
    requires minWait > 0
    ensures d == Least(minWait * Pow2(failures), maxWait)
  {
    d := minWait;
    var i := 0;
    while i < failures && d < maxWait
      invariant 0 <= i <= failures && d == minWait * Pow2(i) && d > 0
    {
      d := d * 2;
      i := i + 1;
    }
    Pow2Grows(minWait, i, failures);
    if d > maxWait {
      d := maxWait;
    }
  }

  lemma {:induction false} Pow2Grows(m: int, i: nat, j: nat)
    requires m > 0 && i <= j
    ensures m * Pow2(i) <= m * Pow2(j)
    decreases j
  {
    if i < j {
      Pow2Grows(m, i, j - 1);
    }
  }

  /** One walk batch started under budget leaves at most the file budget stored,
      and less than the byte budget and one large file. */
  lemma {:induction false} WalkWithinBudget(largeFile: int, all: seq<Entry>, fl: Flat, maxBytes: int, maxFiles: int,
      out: seq<Entry>, fl': Flat)
    requires DistinctPaths(all) && FlatOk(all, fl) && maxBytes > 0 && maxFiles > 0 && largeFile > 0
    requires forall e :: e in all ==> e.size <= largeFile
    requires out == WalkBatch(UnstoredOf(all, fl), maxBytes, maxFiles) && Stores(all, fl, out, fl')
    ensures Tally(all, fl').fetchedFiles <= Tally(all, fl).fetchedFiles + maxFiles
    ensures Tally(all, fl').fetched < Tally(all, fl).fetched + maxBytes + largeFile
  {
    StoredGains(all, fl, out, fl');
    WalkBatchLimits(UnstoredOf(all, fl), maxBytes, maxFiles);
    BatchIsSmall(largeFile, all, out);
  }

  lemma {:induction false} BatchIsSmall(largeFile: int, all: seq<Entry>, out: seq<Entry>)
    requires forall e :: e in out ==> e in all
    requires forall e :: e in all ==> e.size <= largeFile
    ensures |out| == 1 ==> SumSizes(out) <= largeFile
  {
    if |out| == 1 {
      assert out[0] in out && out[..0] == [];
    }
  }

  lemma {:induction false} StoredGains(all: seq<Entry>, fl: Flat, out: seq<Entry>, fl': Flat)
    requires DistinctPaths(all) && FlatOk(all, fl) && Stores(all, fl, out, fl')
    ensures Tally(all, fl').fetched == Tally(all, fl).fetched + SumSizes(out)
    ensures Tally(all, fl').fetchedFiles == Tally(all, fl).fetchedFiles + |out|
  {
    StoreAllAdds(all, out, fl);
    UnstoredCounts(out, fl);
  }

  lemma {:induction false} UnstoredCounts(out: seq<Entry>, fl: Flat)
    requires forall e :: e in out ==> e.path in fl && !fl[e.path].stored
    ensures Left(out, fl) == SumSizes(out) && LeftFiles(out, fl) == |out|
  {
    UnstoredSum(out, fl);
    UnstoredFiles(out, fl);
  }

  lemma {:induction false} UnstoredFiles(out: seq<Entry>, fl: Flat)
    requires forall e :: e in out ==> e.path in fl && !fl[e.path].stored
    ensures LeftFiles(out, fl) == |out|
  {
    if out != [] {
      assert out[0] in out;
      UnstoredFiles(out[1..], fl);
    }
  }

  /** A walk batch joins the live files. */
  lemma {:induction false} WalkJoins(all: seq<Entry>, fl: Flat, out: seq<Entry>, fl': Flat, held: set<string>,
      live: seq<Entry>, accepted: set<string>, entries: seq<Entry>)
    requires Stores(all, fl, out, fl') && Accounted(fl, held, live, accepted) && Among(all, entries)
      && Among(live, entries)
    ensures Accounted(fl', held, live + out, accepted) && Among(live + out, entries)
  {
    AccountedTakes(all, fl, out, fl', held, live, accepted);
    StoresAmong(all, fl, out, fl', entries);
    AmongConcat(live, out, entries);
  }

  class Sender {
    var tree: Tree
    var queue: seq<seq<Entry>>
    var lastRead: int
    var failures: nat
    var retryAt: int
    var eager: bool
    const budgetBytes: int
    const budgetFiles: int

    // Where each stored file is: held from before, being sent, or accepted. The
    // queue says the rest.
    ghost var held: set<string>
    ghost var flight: seq<Entry>
    ghost var accepted: set<string>

    ghost predicate Valid()
      reads this, tree
    {
      tree.Valid() && Accounted(tree.Flat(), held, Flatten(queue) + flight, accepted)
        && Among(Flatten(queue) + flight, tree.entries)
    }

    /** A fill that starts with an empty tree, as the walk feeds it. */
    constructor (layout: Layout, eager: bool, budgetBytes: int, budgetFiles: int)
      requires layout.Usable()
      ensures Valid() && fresh(tree) && queue == [] && flight == [] && held == {} && accepted == {}
      ensures this.eager == eager && tree.entries == []
    {
      var t := new Tree([], layout);
      tree := t;
      queue, lastRead, failures, retryAt := [], 0, 0, 0;
      this.eager, this.budgetBytes, this.budgetFiles := eager, budgetBytes, budgetFiles;
      held, flight, accepted := {}, [], {};
      new;
      assert Flatten([]) + [] == [];
      assert StoredPaths(tree.Flat()) == {};
    }

    /** The policy the share is filled under. */
    function Under(): Policy
      reads this
    {
      if eager then Eager else Tree
    }

    /** A later order for a share under way: a stronger policy takes over, any
        other changes nothing. */
    method Raise(policy: Policy)
      requires Valid()
      modifies this`eager
      ensures Valid() && Rank(Under()) >= Rank(policy) && Rank(Under()) >= Rank(old(Under()))
      ensures eager == (old(eager) || policy == Eager)
    {
      if Rank(policy) <= Rank(Under()) {
        return;
      }
      eager := policy == Eager;
    }

    /** The link as measured after a batch: the next decision uses it, and
        nothing stored or queued is forgotten. */
    method SetLink(link: Link)
      requires Valid()
      modifies tree`layout
      ensures Valid() && tree.layout == old(tree.layout).(link := link) && tree.Flat() == old(tree.Flat())
    {
      tree.SetLink(link);
    }

    /** A read through the live mount: what the tree decides is queued. An eager
        share is not driven by reads. */
    method Touch(path: string, n: nat, now: int) returns (got: seq<Entry>)
      requires Valid()
      modifies this`lastRead, this`queue, tree`state, tree`sums
      ensures Valid() && lastRead == if eager then old(lastRead) else now
      ensures if eager then got == [] && tree.Flat() == old(tree.Flat())
              else tree.AfterRead(path, n, old(tree.Flat()), got)
      ensures queue == if got == [] then old(queue) else old(queue) + [got]
      ensures StoredPaths(tree.Flat()) == StoredPaths(old(tree.Flat())) + Paths(got)
        && StoredPaths(old(tree.Flat())) !! Paths(got)
    {
      if eager {
        return [];
      }
      lastRead := now;
      got := ReadOn(path, n);
      Enqueue(got);
    }

    /** What one read makes the tree fetch, not queued yet. */
    method ReadOn(path: string, n: nat) returns (got: seq<Entry>)
      requires Valid()
      modifies tree`state, tree`sums
      ensures tree.Valid() && Accounted(tree.Flat(), held, Flatten(queue) + flight + got, accepted)
      ensures Among(Flatten(queue) + flight + got, tree.entries) && tree.AfterRead(path, n, old(tree.Flat()), got)
      ensures StoredPaths(tree.Flat()) == StoredPaths(old(tree.Flat())) + Paths(got)
        && StoredPaths(old(tree.Flat())) !! Paths(got)
    {
      ghost var fl := tree.Flat();
      got := tree.Read(path, n);
      TouchAccounts(path, n, fl, Flatten(queue) + flight, got);
      tree.AllOk();
      AmongConcat(Flatten(queue) + flight, got, tree.entries);
    }

    method Enqueue(got: seq<Entry>)
      requires tree.Valid() && Accounted(tree.Flat(), held, Flatten(queue) + flight + got, accepted)
      requires Among(Flatten(queue) + flight + got, tree.entries)
      modifies this`queue
      ensures Valid() && queue == if got == [] then old(queue) else old(queue) + [got]
    {
      if |got| > 0 {
        FlattenConcat(queue, [got]);
        FlattenOne(got);
        AccountedPerm(tree.Flat(), held, Flatten(queue) + flight + got, Flatten(queue + [got]) + flight, accepted);
        AmongPerm(Flatten(queue) + flight + got, Flatten(queue + [got]) + flight, tree.entries);
        queue := queue + [got];
      } else {
        assert Flatten(queue) + flight + got == Flatten(queue) + flight;
      }
    }

    lemma {:induction false} TouchAccounts(path: string, n: nat, fl: Flat, live: seq<Entry>, got: seq<Entry>)
      requires Accounted(fl, held, live, accepted) && tree.AfterRead(path, n, fl, got)
      ensures Accounted(tree.Flat(), held, live + got, accepted) && Among(got, tree.All())
      ensures StoredPaths(tree.Flat()) == StoredPaths(fl) + Paths(got) && StoredPaths(fl) !! Paths(got)
    {
      if path in fl && !fl[path].stored {
        var e := tree.EntryAt(path);
        var rec := Recorded(e, fl, n);
        RecordedStores(e, fl, n);
        AccountedSame(fl, rec, held, live, accepted);
        StoresPaths(tree.All(), rec, got, tree.Flat());
        AccountedTakes(tree.All(), rec, got, tree.Flat(), held, live, accepted);
      } else {
        assert live + got == live;
      }
    }

    /** A batch of the walk enters the tree; what the cache holds from an earlier
        session is marked without being sent. */
    method Feed(pending: seq<Entry>, heldNow: seq<string>)
      requires Valid() && DistinctPaths(tree.entries + pending)
      modifies tree, this`held
      ensures Valid() && tree.entries == old(tree.entries) + pending
      ensures old(held) <= held && held - old(held) <= set q | q in heldNow
      ensures forall q :: q in heldNow && q in tree.Flat() ==> tree.Flat()[q].stored
    {
      Found(pending);
      HoldAll(heldNow);
    }

    /** Files the walk has found enter the tree. */
    method Found(pending: seq<Entry>)
      requires Valid() && DistinctPaths(tree.entries + pending)
      modifies tree
      ensures Valid() && tree.entries == old(tree.entries) + pending
    {
      ghost var fl := tree.Flat();
      tree.Add(pending);
      AddedStores(fl, tree.Flat());
      AccountedSame(fl, tree.Flat(), held, Flatten(queue) + flight, accepted);
    }

    method HoldAll(heldNow: seq<string>)
      requires Valid()
      modifies tree`state, tree`sums, this`held
      ensures Valid() && old(held) <= held && held - old(held) <= set q | q in heldNow
      ensures forall q :: q in heldNow && q in tree.Flat() ==> tree.Flat()[q].stored
    {
      var i := 0;
      while i < |heldNow|
        invariant 0 <= i <= |heldNow| && Valid()
        invariant old(held) <= held && held - old(held) <= set q | q in heldNow
        invariant forall j :: 0 <= j < i && heldNow[j] in tree.Flat() ==> tree.Flat()[heldNow[j]].stored
      {
        Hold(heldNow[i]);
        i := i + 1;
      }
    }

    /** One file the cache holds already. */
    method Hold(path: string)
      requires Valid()
      modifies tree`state, tree`sums, this`held
      ensures Valid() && tree.Flat().Keys == old(tree.Flat().Keys)
      ensures old(held) <= held <= old(held) + {path}
      ensures forall q ::
        q in old(tree.Flat()) && old(tree.Flat())[q].stored ==> q in tree.Flat() && tree.Flat()[q].stored
      ensures path in tree.Flat() ==> tree.Flat()[path].stored
    {
      ghost var fl := tree.Flat();
      if path in fl && !fl[path].stored {
        AccountedHeld(fl, path, held, Flatten(queue) + flight, accepted);
        held := held + {path};
      }
      tree.MarkSent(path);
    }

    /** Nothing of the walk is sent now: a refusal is being waited out, somebody reads,
        or the budget is used up. */
    ghost predicate Waits(now: int)
      reads this, tree
    {
      || now < retryAt || (!eager && now - lastRead < QUIET_FOR)
      || tree.Marked().fetched >= budgetBytes || tree.Marked().fetchedFiles >= budgetFiles
    }

    /** The bytes one batch of the walk may have. */
    ghost function Room(): int
      reads this, tree
    {
      Least(if eager then BATCH_BYTES else WALK_BATCH, budgetBytes - tree.Marked().fetched)
    }

    /** The walk's files not stored yet. */
    ghost function Unsent(): seq<Entry>
      reads this`tree, tree
    {
      UnstoredOf(tree.All(), tree.Flat())
    }

    /** What to send now: a queued demand batch, else, if the consumer has been
        quiet and the budget allows, the walk's smallest unstored files. */
    method Next(now: int) returns (batch: seq<Entry>, demand: bool)
      requires Valid() && flight == []
      modifies this`queue, this`flight, tree`state, tree`sums
      ensures Valid() && flight == batch
      ensures demand <==> now >= retryAt && old(queue) != []
      ensures if demand then batch == old(queue)[0] && queue == old(queue)[1..] && tree.Flat() == old(tree.Flat())
        else queue == old(queue)
      ensures !demand && old(Waits(now)) ==> batch == [] && tree.Flat() == old(tree.Flat())
      ensures !demand && !old(Waits(now)) ==>
        Batched(old(Unsent()), old(Room()), budgetFiles - old(tree.Marked()).fetchedFiles, batch)
      ensures !demand ==> Stores(tree.All(), old(tree.Flat()), batch, tree.Flat())
      ensures !demand ==> (batch == [] <==> old(Waits(now)) || old(Unsent()) == [])
      ensures !demand && batch != [] ==>
        tree.Marked().fetchedFiles <= budgetFiles && tree.Marked().fetched < budgetBytes + tree.layout.largeFile
    {
      batch, demand := [], false;
      StoresNothing(tree.All(), tree.Flat());
      if now < retryAt {
        return;
      }
      if |queue| > 0 {
        batch, demand := queue[0], true;
        QueueTaken();
        queue := queue[1..];
        flight := batch;
        return;
      }
      if !eager && now - lastRead < QUIET_FOR {
        return;
      }
      batch := WalkOn();
      flight := batch;
    }

    lemma {:induction false} QueueTaken()
      requires Valid() && flight == [] && queue != []
      ensures Accounted(tree.Flat(), held, Flatten(queue[1..]) + queue[0], accepted)
      ensures Among(Flatten(queue[1..]) + queue[0], tree.entries)
    {
      assert queue == [queue[0]] + queue[1..];
      assert Flatten(queue) + flight == queue[0] + Flatten(queue[1..]);
      AccountedPerm(tree.Flat(), held, Flatten(queue) + flight, Flatten(queue[1..]) + queue[0], accepted);
      AmongPerm(Flatten(queue) + flight, Flatten(queue[1..]) + queue[0], tree.entries);
    }

    /** The walk's next batch, within the budget. */
    method WalkOn() returns (batch: seq<Entry>)
      requires Valid() && flight == []
      modifies tree`state, tree`sums
      ensures tree.Valid() && Accounted(tree.Flat(), held, Flatten(queue) + batch, accepted)
      ensures Among(Flatten(queue) + batch, tree.entries)
      ensures batch != [] ==>
        tree.Marked().fetchedFiles <= budgetFiles && tree.Marked().fetched < budgetBytes + tree.layout.largeFile
      ensures var was := old(tree.Marked());
        if was.fetched >= budgetBytes || was.fetchedFiles >= budgetFiles
        then batch == [] && tree.Flat() == old(tree.Flat())
        else Batched(old(Unsent()), old(Room()), budgetFiles - was.fetchedFiles, batch)
      ensures Stores(tree.All(), old(tree.Flat()), batch, tree.Flat())
    {
      var bytes, files, left := tree.Stored();
      StoresNothing(tree.All(), tree.Flat());
      assert Flatten(queue) + flight == Flatten(queue);
      if bytes >= budgetBytes || files >= budgetFiles {
        assert Flatten(queue) + [] == Flatten(queue);
        return [];
      }
      var limit := if eager then BATCH_BYTES else WALK_BATCH;
      var room := budgetBytes - bytes;
      batch := WalkSome(Least(limit, room), budgetFiles - files);
    }

    /** The walk's next batch, within what is left to store. */
    method WalkSome(maxBytes: int, maxFiles: int) returns (batch: seq<Entry>)
      requires tree.Valid() && Accounted(tree.Flat(), held, Flatten(queue), accepted)
        && Among(Flatten(queue), tree.entries)
      requires maxBytes > 0 && maxFiles > 0
      modifies tree`state, tree`sums
      ensures tree.Valid() && Accounted(tree.Flat(), held, Flatten(queue) + batch, accepted)
      ensures Among(Flatten(queue) + batch, tree.entries)
      ensures Batched(old(Unsent()), maxBytes, maxFiles, batch)
      ensures Stores(tree.All(), old(tree.Flat()), batch, tree.Flat())
      ensures tree.Marked().fetchedFiles <= old(tree.Marked()).fetchedFiles + maxFiles
      ensures tree.Marked().fetched < old(tree.Marked()).fetched + maxBytes + tree.layout.largeFile
    {
      ghost var fl := tree.Flat();
      tree.AllOk();
      batch := tree.Unstored(maxBytes, maxFiles);
      BatchedWalk(UnstoredOf(tree.All(), fl), maxBytes, maxFiles);
      WalkJoins(tree.All(), fl, batch, tree.Flat(), held, Flatten(queue), accepted, tree.entries);
      WalkWithinBudget(tree.layout.largeFile, tree.All(), fl, maxBytes, maxFiles, batch, tree.Flat());
    }

    /** A refused batch: exactly its files go back, and the next try waits. */
    method BatchFailed(batch: seq<Entry>, now: int, fillBackoff: int)
      requires Valid() && flight == batch
      modifies this`flight, this`failures, this`retryAt, tree`state, tree`sums
      ensures Valid() && flight == [] && failures == old(failures) + 1
      ensures StoredPaths(tree.Flat()) == StoredPaths(old(tree.Flat())) - Paths(batch)
      ensures retryAt == now
        + Least((if fillBackoff <= 0 then FILL_BACKOFF_MIN else fillBackoff) * Pow2(old(failures)), FILL_BACKOFF_MAX)
    {
      AccountedRefused(tree.Flat(), held, Flatten(queue), batch, accepted);
      AmongConcat(Flatten(queue), batch, tree.entries);
      tree.Unstore(batch);
      flight := [];
      assert Flatten(queue) + [] == Flatten(queue);
      var base := if fillBackoff <= 0 then FILL_BACKOFF_MIN else fillBackoff;
      var delay := Backoff(base, FILL_BACKOFF_MAX, failures);
      failures := failures + 1;
      retryAt := now + delay;
    }

    /** An accepted batch ends a run of failures. */
    method BatchSent()
      requires Valid()
      modifies this`flight, this`failures, this`retryAt, this`accepted
      ensures Valid() && flight == [] && failures == 0 && retryAt == 0 && accepted == old(accepted) + Paths(old(flight))
    {
      AccountedAccepted(tree.Flat(), held, Flatten(queue), flight, accepted);
      AmongConcat(Flatten(queue), flight, tree.entries);
      accepted := accepted + Paths(flight);
      flight := [];
      assert Flatten(queue) + [] == Flatten(queue);
      failures, retryAt := 0, 0;
    }
  }

  /** An order for a share: it starts the fill of one that had nothing to fill, raises
      one under way, and otherwise changes nothing. */
  method Order(current: Sender?, policy: Policy, layout: Layout, budgetBytes: int, budgetFiles: int)
    returns (s: Sender?)
    requires layout.Usable() && (current != null ==> current.Valid())
    modifies if current == null then {} else {current}
    ensures current != null ==>
      unchanged(current`tree, current`queue, current`lastRead, current`failures, current`retryAt)
    ensures current != null ==> unchanged(current`held, current`flight, current`accepted)
    ensures s == null <==> current == null && policy == Off
    ensures s != null ==> s.Valid() && Rank(s.Under()) >= Rank(policy)
    ensures current != null ==> s == current && Rank(s.Under()) >= Rank(old(current.Under()))
    ensures current != null ==> s.eager == (old(current.eager) || policy == Eager)
    ensures current == null && s != null ==> fresh(s) && s.Under() == policy && s.queue == [] && s.tree.entries == []
  {
    if Rank(policy) == 0 {
      return current;
    }
    if current != null {
      current.Raise(policy);
      return current;
    }
    s := new Sender(layout, policy == Eager, budgetBytes, budgetFiles);
  }
}
