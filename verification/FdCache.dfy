/** Descriptors kept open across requests. Each method is one stretch under the
    cache's lock, or one close; what a thread still has to do between two of them
    is a pending token or a sweep, so any order of calls is an interleaving of
    threads. */
module FdCache {
  import opened Basics

  /** A cached descriptor. Objects are numbered; `armed` is a timer that has
      neither fired nor been stopped. */
  datatype Entry = Entry(path: string, refs: nat, armed: bool, closed: bool)

  /** What some thread is in the middle of: holding a descriptor, opening a name,
      about to evict an entry it has in hand, about to close one. */
  datatype Op = Hold(e: nat) | Opening(name: string) | Evict(e: nat) | Close(e: nat)

  /** Where one descriptor may stand, given what is pending on it. */
  ghost predicate EntryOk(open: map<string, nat>, x: Entry, e: nat, pending: multiset<Op>) {
    var inMap := x.path in open && open[x.path] == e;
    && x.refs == pending[Hold(e)]
    && (x.closed || pending[Close(e)] > 0 ==> x.refs == 0 && !inMap)
    && (!inMap && x.refs == 0 ==> x.closed || pending[Close(e)] > 0)
    && (inMap && x.refs == 0 ==> x.armed || pending[Evict(e)] > 0)
  }

  ghost predicate CacheOk(open: map<string, nat>, entries: seq<Entry>, pending: multiset<Op>) {
    && (forall name :: name in open ==> open[name] < |entries| && entries[open[name]].path == name)
    && (forall e: nat {:trigger EntryOk(open, entries[e], e, pending)} ::
      e < |entries| ==> EntryOk(open, entries[e], e, pending))
    && (forall e: nat :: Hold(e) in pending || Evict(e) in pending || Close(e) in pending ==> e < |entries|)
  }

  /** A change of one entry and of what is pending on it alone. */
  lemma {:induction false} OneEntry(open: map<string, nat>, entries: seq<Entry>, pending: multiset<Op>,
      open': map<string, nat>, e: nat, x: Entry, pending': multiset<Op>)
    requires CacheOk(open, entries, pending) && e < |entries| && x.path == entries[e].path
    requires open' == open || (open' == open - {x.path} && x.path in open && open[x.path] == e)
    requires forall f: nat ::
      f != e ==>
        pending'[Hold(f)] == pending[Hold(f)] && pending'[Close(f)] == pending[Close(f)]
        && pending'[Evict(f)] == pending[Evict(f)]
    requires EntryOk(open', x, e, pending')
    ensures CacheOk(open', entries[e := x], pending')
  {
    var entries' := entries[e := x];
    forall f: nat | f < |entries'| ensures EntryOk(open', entries'[f], f, pending') {
      if f != e {
        assert EntryOk(open, entries[f], f, pending);
      }
    }
    forall f: nat | Hold(f) in pending' || Evict(f) in pending' || Close(f) in pending' ensures f < |entries'| {
      if f != e {
        assert Hold(f) in pending || Evict(f) in pending || Close(f) in pending;
      }
    }
  }

  /** What is being opened is no entry's business. */
  lemma {:induction false} OpeningOk(open: map<string, nat>, entries: seq<Entry>, pending: multiset<Op>,
      pending': multiset<Op>)
    requires CacheOk(open, entries, pending)
    requires forall f: nat ::
      pending'[Hold(f)] == pending[Hold(f)] && pending'[Close(f)] == pending[Close(f)]
      && pending'[Evict(f)] == pending[Evict(f)]
    ensures CacheOk(open, entries, pending')
  {
    forall e: nat | e < |entries| ensures EntryOk(open, entries[e], e, pending') {
      assert EntryOk(open, entries[e], e, pending);
    }
    forall e: nat | Hold(e) in pending' || Evict(e) in pending' || Close(e) in pending' ensures e < |entries| {
      assert Hold(e) in pending || Evict(e) in pending || Close(e) in pending;
    }
  }

  /** A removal or rename dropping a name and everything below it: the names still
      to drop, the descriptor in hand, and the descriptors found when it listed. */
  datatype Sweep = Sweep(left: set<string>, hand: Option<nat>, listed: set<nat>)

  predicate InMap(open: map<string, nat>, entries: seq<Entry>, e: nat) {
    e < |entries| && entries[e].path in open && open[entries[e].path] == e
  }

  /** Of what a sweep listed, only what it still has to drop is in the map. */
  ghost predicate SweepOk(open: map<string, nat>, entries: seq<Entry>, k: Sweep) {
    && (k.hand.Some? ==> k.hand.value < |entries|)
    && forall e :: e in k.listed ==>
      e < |entries| && (InMap(open, entries, e) ==> entries[e].path in k.left || k.hand == Some(e))
  }

  ghost predicate SweepsOk(open: map<string, nat>, entries: seq<Entry>, sweeps: map<nat, Sweep>) {
    forall r {:trigger sweeps[r]} :: r in sweeps ==> SweepOk(open, entries, sweeps[r])
  }

  /** A descriptor keeps its path, and one that is out of the map stays out. */
  ghost predicate Onward(open: map<string, nat>, entries: seq<Entry>, open': map<string, nat>, entries': seq<Entry>) {
    && |entries| <= |entries'| && (forall e: nat :: e < |entries| ==> entries'[e].path == entries[e].path)
    && (forall p :: p in open' ==> (p in open && open'[p] == open[p]) || open'[p] >= |entries|)
  }

  lemma {:induction false} SweepsStay(open: map<string, nat>, entries: seq<Entry>, open': map<string, nat>,
      entries': seq<Entry>, sweeps: map<nat, Sweep>)
    requires SweepsOk(open, entries, sweeps) && Onward(open, entries, open', entries')
    ensures SweepsOk(open', entries', sweeps)
  {
    forall r | r in sweeps ensures SweepOk(open', entries', sweeps[r]) {
      var k := sweeps[r];
      forall e | e in k.listed && InMap(open', entries', e) ensures entries'[e].path in k.left || k.hand == Some(e) {
        assert InMap(open, entries, e);
      }
    }
  }

  lemma {:induction false} SweepMoves(open: map<string, nat>, entries: seq<Entry>, sweeps: map<nat, Sweep>, r: nat,
      k: Sweep)
    requires SweepsOk(open, entries, sweeps) && SweepOk(open, entries, k)
    ensures SweepsOk(open, entries, sweeps[r := k])
  {
    var next := sweeps[r := k];
    forall q | q in next ensures SweepOk(open, entries, next[q]) {
      if q != r {
        assert SweepOk(open, entries, sweeps[q]);
      }
    }
  }

  predicate Under(dir: string, path: string) {
    dir == "." || dir == "/" || (|dir| < |path| && path[..|dir|] == dir && path[|dir|] == '/')
  }

  /** Everything is below the root, and below any other name what goes on from it after
      a slash. */
  lemma {:induction false} UnderGoesOn(dir: string, path: string)
    ensures Under(dir, path) <==> dir == "." || dir == "/" || exists rest: string :: path == dir + "/" + rest
  {
    if Under(dir, path) && dir != "." && dir != "/" {
      assert path == dir + "/" + path[|dir| + 1..];
    }
  }

  class FdCache {
    const max: nat
    var open: map<string, nat>
    var entries: seq<Entry>
    var sweeps: map<nat, Sweep>
    ghost var pending: multiset<Op>

    ghost predicate Valid()
      reads this
    {
      CacheOk(open, entries, pending) && SweepsOk(open, entries, sweeps)
    }

    constructor (max: nat)
      ensures Valid() && open == map[] && entries == [] && pending == multiset{} && this.max == max && sweeps == map[]
    {
      this.max := max;
      open, entries, pending, sweeps := map[], [], multiset{}, map[];
    }

    /** A request opens a name: it gets the descriptor held, is sent to open one,
        or, when the cache is full, goes to the filesystem itself. */
    method OpenFirst(name: string) returns (hit: bool, e: nat)
      requires Valid()
      modifies this`entries, this`pending
      ensures Valid() && open == old(open)
      ensures hit <==> name in open
      ensures hit ==>
        e == open[name] && pending == old(pending) + multiset{Hold(e)} && e < |entries| && !entries[e].closed
        && Close(e) !in pending && e < |old(entries)|
        && entries == old(entries)[e := old(entries)[e].(refs := old(entries)[e].refs + 1, armed := false)]
      ensures !hit ==>
        entries == old(entries)
        && pending == old(pending) + (if |open| < max then multiset{Opening(name)} else multiset{})
    {
      hit, e := false, 0;
      if name in open {
        hit, e := true, open[name];
        var x := entries[e].(refs := entries[e].refs + 1, armed := false);
        HeldOnce(open, entries, pending, sweeps, e, x, multiset{});
        assert pending - multiset{} == pending;
        entries, pending := entries[e := x], pending + multiset{Hold(e)};
        return;
      }
      if |open| < max {
        OpeningOk(open, entries, pending, pending + multiset{Opening(name)});
        pending := pending + multiset{Opening(name)};
      }
    }

    /** Back from the filesystem with a descriptor: the first one there is kept. */
    method OpenSecond(name: string) returns (e: nat)
      requires Valid() && Opening(name) in pending
      modifies this`open, this`entries, this`pending
      ensures Valid() && pending == old(pending) - multiset{Opening(name)} + multiset{Hold(e)}
      ensures name in open && open[name] == e && e < |entries| && !entries[e].closed && Close(e) !in pending
      ensures name in old(open) ==>
        open == old(open) && e < |old(entries)|
        && entries == old(entries)[e := old(entries)[e].(refs := old(entries)[e].refs + 1)]
      ensures name !in old(open) ==>
        e == |old(entries)| && open == old(open)[name := e]
        && entries == old(entries) + [Entry(name, 1, false, false)]
    {
      ghost var pending' := pending - multiset{Opening(name)};
      assert forall f: nat ::
        pending'[Hold(f)] == pending[Hold(f)] && pending'[Close(f)] == pending[Close(f)]
        && pending'[Evict(f)] == pending[Evict(f)];
      if name in open {
        e := open[name];
        var x := entries[e].(refs := entries[e].refs + 1);
        HeldOnce(open, entries, pending, sweeps, e, x, multiset{Opening(name)});
        entries, pending := entries[e := x], pending' + multiset{Hold(e)};
      } else {
        e := |entries|;
        NewEntry(open, entries, pending, name, pending');
        SweepsStay(open, entries, open[name := e], entries + [Entry(name, 1, false, false)], sweeps);
        open, entries := open[name := e], entries + [Entry(name, 1, false, false)];
        pending := pending' + multiset{Hold(e)};
      }
    }

    /** The filesystem refused: nothing was kept. */
    method OpenFailed(name: string)
      requires Valid() && Opening(name) in pending
      modifies this`pending
      ensures Valid() && pending == old(pending) - multiset{Opening(name)}
    {
      OpeningOk(open, entries, pending, pending - multiset{Opening(name)});
      pending := pending - multiset{Opening(name)};
    }

    /** A request is done with a descriptor. The last one starts the idle timer,
        or sets about closing it if it was evicted meanwhile. */
    method Release(e: nat)
      requires Valid() && Hold(e) in pending
      modifies this`entries, this`pending
      ensures Valid() && open == old(open) && e < |old(entries)| == |entries|
      ensures var x := old(entries)[e];
              var idle := x.refs == 1 && x.path in open && open[x.path] == e;
              x.refs > 0 && entries == old(entries)[e := x.(refs := x.refs - 1, armed := x.armed || idle)]
      ensures var done := pending == old(pending) - multiset{Hold(e)};
              if old(entries)[e].refs > 1 || (entries[e].path in open && open[entries[e].path] == e) then done
              else pending == old(pending) - multiset{Hold(e)} + multiset{Close(e)}
    {
      assert EntryOk(open, entries[e], e, pending);
      ghost var pending' := pending - multiset{Hold(e)};
      var x := entries[e].(refs := entries[e].refs - 1);
      if x.refs == 0 {
        if !(x.path in open && open[x.path] == e) {
          pending' := pending' + multiset{Close(e)};
        } else {
          x := x.(armed := true);
        }
      }
      OneEntry(open, entries, pending, open, e, x, pending');
      SweepsStay(open, entries, open, entries[e := x], sweeps);
      entries, pending := entries[e := x], pending';
    }

    /** An idle timer fires: its eviction is on the way. */
    method TimerFires(e: nat)
      requires Valid() && e < |entries| && entries[e].armed
      modifies this`entries, this`pending
      ensures Valid() && open == old(open) && pending == old(pending) + multiset{Evict(e)}
      ensures entries == old(entries)[e := old(entries)[e].(armed := false)]
    {
      assert EntryOk(open, entries[e], e, pending);
      OneEntry(open, entries, pending, open, e, entries[e].(armed := false), pending + multiset{Evict(e)});
      SweepsStay(open, entries, open, entries[e := entries[e].(armed := false)], sweeps);
      entries, pending := entries[e := entries[e].(armed := false)], pending + multiset{Evict(e)};
    }

    /** Looks up what is held for a name, to evict it. */
    method EvictLookup(name: string) returns (found: bool, e: nat)
      requires Valid()
      modifies this`pending
      ensures Valid() && (found <==> name in open) && (found ==> e == open[name])
      ensures pending == if found then old(pending) + multiset{Evict(e)} else old(pending)
    {
      found, e := false, 0;
      if name in open {
        found, e := true, open[name];
        assert EntryOk(open, entries[e], e, pending);
        OneEntry(open, entries, pending, open, e, entries[e], pending + multiset{Evict(e)});
        assert entries[e := entries[e]] == entries;
        pending := pending + multiset{Evict(e)};
      }
    }

    /** Takes this entry, and no other that took its name, out of the map. */
    method TakeOut(e: nat, ghost done: multiset<Op>)
      requires Valid() && e < |entries| && done <= pending && (done == multiset{} || done == multiset{Evict(e)})
      modifies this`open, this`entries, this`pending
      ensures Valid() && entries == old(entries)[e := old(entries)[e].(armed := false)]
      ensures forall name :: name in open <==> name in old(open) && old(open)[name] != e
      ensures forall name :: name in open ==> open[name] == old(open)[name]
      ensures pending == old(pending) - done + (if old(entries)[e].refs > 0 then multiset{} else multiset{Close(e)})
    {
      OutOk(open, entries, pending, sweeps, e, done);
      var x := entries[e].(armed := false);
      open := if x.path in open && open[x.path] == e then open - {x.path} else open;
      entries := entries[e := x];
      pending := pending - done + (if x.refs > 0 then multiset{} else multiset{Close(e)});
    }

    /** An eviction comes to its entry. */
    method EvictEntry(e: nat)
      requires Valid() && Evict(e) in pending
      modifies this`open, this`entries, this`pending
      ensures Valid() && e < |old(entries)| && entries == old(entries)[e := old(entries)[e].(armed := false)]
      ensures forall name :: name in open <==> name in old(open) && old(open)[name] != e
      ensures forall name :: name in open ==> open[name] == old(open)[name]
      ensures pending == old(pending) - multiset{Evict(e)}
        + (if old(entries)[e].refs > 0 then multiset{} else multiset{Close(e)})
    {
      TakeOut(e, multiset{Evict(e)});
    }

    /** Closes a descriptor nobody can reach. */
    method CloseEntry(e: nat)
      requires Valid() && Close(e) in pending
      modifies this`entries, this`pending
      ensures Valid() && open == old(open) && pending == old(pending) - multiset{Close(e)}
      ensures e < |old(entries)| && Hold(e) !in pending
        && entries == old(entries)[e := old(entries)[e].(closed := true)]
    {
      assert EntryOk(open, entries[e], e, pending);
      OneEntry(open, entries, pending, open, e, entries[e].(closed := true), pending - multiset{Close(e)});
      SweepsStay(open, entries, open, entries[e := entries[e].(closed := true)], sweeps);
      entries, pending := entries[e := entries[e].(closed := true)], pending - multiset{Close(e)};
    }

    /** Finds what is held for a name and everything below it. */
    method SweepList(r: nat, name: string)
      requires Valid() && r !in sweeps
      modifies this`sweeps
      ensures Valid() && r in sweeps && sweeps == old(sweeps)[r := sweeps[r]] && sweeps[r].hand == None
      ensures forall p :: p in sweeps[r].left <==> p in open && (p == name || Under(name, p))
      ensures forall e: nat :: e in sweeps[r].listed <==>
        InMap(open, entries, e) && (entries[e].path == name || Under(name, entries[e].path))
    {
      var held := set p | p in open && (p == name || Under(name, p));
      var listed := set p | p in held :: open[p];
      forall e: nat | InMap(open, entries, e) && (entries[e].path == name || Under(name, entries[e].path))
        ensures e in listed
      {
        assert entries[e].path in held;
      }
      sweeps := sweeps[r := Sweep(held, None, listed)];
    }

    /** Looks up the next name. */
    method SweepLookup(r: nat, p: string)
      requires Valid() && r in sweeps && p in sweeps[r].left && sweeps[r].hand == None
      modifies this`sweeps
      ensures Valid() && r in sweeps && sweeps == old(sweeps)[r := sweeps[r]]
      ensures var hand := if p in open then Some(open[p]) else None;
              sweeps[r] == old(sweeps)[r].(left := old(sweeps)[r].left - {p}, hand := hand)
    {
      var k := sweeps[r];
      assert SweepOk(open, entries, k);
      var next := k.(left := k.left - {p}, hand := if p in open then Some(open[p]) else None);
      SweepMoves(open, entries, sweeps, r, next);
      sweeps := sweeps[r := next];
    }

    /** Drops the descriptor in hand, and no other that took its name. */
    method SweepEvict(r: nat)
      requires Valid() && r in sweeps && sweeps[r].hand.Some?
      modifies this
      ensures Valid() && r in sweeps && sweeps == old(sweeps)[r := old(sweeps)[r].(hand := None)]
      ensures var e := old(sweeps)[r].hand.value;
              && (forall name :: name in open <==> name in old(open) && old(open)[name] != e)
              && (forall name :: name in open ==> open[name] == old(open)[name])
    {
      var k := sweeps[r];
      assert SweepOk(open, entries, k);
      var e := k.hand.value;
      TakeOut(e, multiset{});
      assert SweepOk(open, entries, k) && !InMap(open, entries, e);
      SweepMoves(open, entries, sweeps, r, k.(hand := None));
      sweeps := sweeps[r := k.(hand := None)];
    }

    /** The sweep is over: in every interleaving, what was held for the name or below
        it when it began is out of the map. */
    method SweepEnd(r: nat) returns (listed: set<nat>)
      requires Valid() && r in sweeps && sweeps[r].left == {} && sweeps[r].hand == None
      modifies this`sweeps
      ensures Valid() && sweeps == old(sweeps) - {r} && listed == old(sweeps)[r].listed
      ensures forall e :: e in listed ==> e < |entries| && !InMap(open, entries, e)
    {
      listed := sweeps[r].listed;
      assert SweepOk(open, entries, sweeps[r]);
      sweeps := sweeps - {r};
    }

    method SweepOne(r: nat, p: string)
      requires Valid() && r in sweeps && p in sweeps[r].left && sweeps[r].hand == None
      modifies this
      ensures Valid() && sweeps == old(sweeps)[r := old(sweeps)[r].(left := old(sweeps)[r].left - {p})]
      ensures open == old(open) - {p}
    {
      SweepLookup(r, p);
      if sweeps[r].hand.Some? {
        assert entries[open[p]].path == p;
        SweepEvict(r);
      }
    }

    method SweepAll(r: nat)
      requires Valid() && r in sweeps && sweeps[r].hand == None
      modifies this
      ensures Valid() && sweeps == old(sweeps)[r := old(sweeps)[r].(left := {})]
      ensures open == old(open) - old(sweeps)[r].left
    {
      var left := sweeps[r].left;
      while left != {}
        invariant Valid() && sweeps == old(sweeps)[r := old(sweeps)[r].(left := left)]
        invariant left <= old(sweeps)[r].left && open == old(open) - (old(sweeps)[r].left - left)
        decreases |left|
      {
        var p :| p in left;
        SweepOne(r, p);
        left := left - {p};
      }
    }

    /** The whole of it, when nothing comes in between. */
    method EvictTree(r: nat, name: string)
      requires Valid() && r !in sweeps
      modifies this
      ensures Valid() && sweeps == old(sweeps)
      ensures open == old(open) - set p | p in old(open) && (p == name || Under(name, p))
    {
      SweepList(r, name);
      assert sweeps[r].left == set p | p in open && (p == name || Under(name, p));
      SweepAll(r);
      var _ := SweepEnd(r);
    }

    /** What every state promises. A descriptor in use is open and one that is
        closed can neither be used nor found; one that is out of the map with no
        holder is closed or about to be; an idle one will be evicted. */
    lemma {:induction false} Safe(e: nat)
      requires Valid() && e < |entries|
      ensures entries[e].closed ==> Hold(e) !in pending && !(entries[e].path in open && open[entries[e].path] == e)
      ensures !(entries[e].path in open && open[entries[e].path] == e) && Hold(e) !in pending ==>
        entries[e].closed || Close(e) in pending
      ensures entries[e].path in open && open[entries[e].path] == e && Hold(e) !in pending ==>
        entries[e].armed || Evict(e) in pending
    {
      assert EntryOk(open, entries[e], e, pending);
    }

    /** Once no thread has anything left to do and no timer is armed, everything is
        closed: nothing leaks. */
    lemma {:induction false} NothingLeaks()
      requires Valid() && pending == multiset{} && forall e :: 0 <= e < |entries| ==> !entries[e].armed
      ensures open == map[] && forall e :: 0 <= e < |entries| ==> entries[e].closed
    {
      forall e: nat | e < |entries| ensures entries[e].closed {
        Safe(e);
      }
      forall name | name in open ensures false {
        Safe(open[name]);
      }
      assert open.Keys == {};
    }
  }

  lemma {:induction false} OutOk(open: map<string, nat>, entries: seq<Entry>, pending: multiset<Op>,
      sweeps: map<nat, Sweep>, e: nat, done: multiset<Op>)
    requires CacheOk(open, entries, pending) && SweepsOk(open, entries, sweeps) && e < |entries|
    requires done <= pending && (done == multiset{} || done == multiset{Evict(e)})
    ensures var x := entries[e].(armed := false);
      var open' := if x.path in open && open[x.path] == e then open - {x.path} else open;
      var pending' := pending - done + (if x.refs > 0 then multiset{} else multiset{Close(e)});
      && CacheOk(open', entries[e := x], pending') && SweepsOk(open', entries[e := x], sweeps)
      && (forall name :: name in open' <==> name in open && open[name] != e)
  {
    assert EntryOk(open, entries[e], e, pending);
    var x := entries[e].(armed := false);
    var open' := if x.path in open && open[x.path] == e then open - {x.path} else open;
    var pending' := pending - done + (if x.refs > 0 then multiset{} else multiset{Close(e)});
    OneEntry(open, entries, pending, open', e, x, pending');
    SweepsStay(open, entries, open', entries[e := x], sweeps);
  }

  /** One more request has a descriptor. */
  lemma {:induction false} HeldOnce(open: map<string, nat>, entries: seq<Entry>, pending: multiset<Op>,
      sweeps: map<nat, Sweep>, e: nat, x: Entry, done: multiset<Op>)
    requires CacheOk(open, entries, pending) && SweepsOk(open, entries, sweeps) && InMap(open, entries, e)
    requires done <= pending && forall f: nat :: Hold(f) !in done && Close(f) !in done && Evict(f) !in done
    requires x == entries[e].(refs := x.refs, armed := x.armed) && x.refs == entries[e].refs + 1
    ensures var pending' := pending - done + multiset{Hold(e)};
      && CacheOk(open, entries[e := x], pending') && SweepsOk(open, entries[e := x], sweeps)
      && !x.closed && Close(e) !in pending'
  {
    assert EntryOk(open, entries[e], e, pending);
    OneEntry(open, entries, pending, open, e, x, pending - done + multiset{Hold(e)});
    SweepsStay(open, entries, open, entries[e := x], sweeps);
  }

  lemma {:induction false} NewEntry(open: map<string, nat>, entries: seq<Entry>, pending: multiset<Op>, name: string,
      pending': multiset<Op>)
    requires CacheOk(open, entries, pending) && name !in open
    requires forall f: nat ::
      pending'[Hold(f)] == pending[Hold(f)] && pending'[Close(f)] == pending[Close(f)]
      && pending'[Evict(f)] == pending[Evict(f)]
    ensures CacheOk(open[name := |entries|], entries + [Entry(name, 1, false, false)],
      pending' + multiset{Hold(|entries|)})
  {
    var e, all := |entries|, entries + [Entry(name, 1, false, false)];
    var now := pending' + multiset{Hold(e)};
    assert Hold(e) !in pending && Close(e) !in pending;
    forall f: nat | f < |all| ensures EntryOk(open[name := e], all[f], f, now) {
      if f < e {
        assert EntryOk(open, entries[f], f, pending);
      }
    }
    forall f: nat | Hold(f) in now || Evict(f) in now || Close(f) in now ensures f < |all| {
      if f != e {
        assert Hold(f) in pending || Evict(f) in pending || Close(f) in pending;
      }
    }
  }
}
