/** Filesystem events merged per path until they are due, and what could not be
    kept accounted for by the deepest directory that covers it. In-share paths are
    their components; the root has none. */
module Coalesce {
  import opened Basics
  import opened Sorting

  type Path = seq<string>

  const DEFAULT_DEBOUNCE := 40_000_000
  const DEFAULT_MAX_DELAY := 250_000_000
  const DEFAULT_PENDING_CAP := 8192

  datatype Op = Op(create: bool, write: bool, remove: bool, rename: bool, attrib: bool) {
    predicate Gone() {
      remove || rename
    }

    predicate Present() {
      create || write
    }
  }

  // ----- merging

  /** Gone and present exclude each other, and the later one wins. */
  function MergeOps(have: Op, add: Op): Op {
    var gone, present := add.Gone(), !add.Gone() && add.Present();
    Op(
      (have.create && !gone) || add.create, (have.write && !gone) || add.write,
      (have.remove && !present) || add.remove, (have.rename && !present) || add.rename, have.attrib || add.attrib
    )
  }

  /** A path's operation after its events in order. */
  function Merged(ops: seq<Op>): Op
    requires ops != []
  {
    if |ops| == 1 then ops[0] else MergeOps(Merged(ops[..|ops| - 1]), ops[|ops| - 1])
  }

  /** Merging one event more, as the coalescer does, is the merge of them all. */
  lemma {:induction false} MergedMore(ops: seq<Op>, op: Op)
    requires ops != []
    ensures Merged(ops + [op]) == MergeOps(Merged(ops), op)
  {
    assert (ops + [op])[..|ops|] == ops;
  }

  /** The last event that said present or gone, if any did. */
  function LastSaid(ops: seq<Op>): Op {
    if ops == [] then Op(false, false, false, false, false)
    else if ops[|ops| - 1] != Op(false, false, false, false, ops[|ops| - 1].attrib) then ops[|ops| - 1]
    else LastSaid(ops[..|ops| - 1])
  }

  /** Both say gone or neither, and both present or neither. */
  ghost predicate SaysAs(a: Op, b: Op) {
    (a.remove || a.rename <==> b.remove || b.rename) && (a.create || a.write <==> b.create || b.write)
  }

  /** What is reported says present or gone as the last such event did, so both
      only if that event said both. */
  lemma {:induction false} MergedSaysLast(ops: seq<Op>)
    requires ops != []
    ensures SaysAs(Merged(ops), LastSaid(ops))
  {
    if |ops| > 1 {
      MergedSaysLast(ops[..|ops| - 1]);
    } else {
      assert LastSaid(ops[..0]) == Op(false, false, false, false, false);
    }
  }

  /** Some event had the bit and no later one cut it off. */
  ghost predicate Kept(ops: seq<Op>, bit: Op -> bool, cut: Op -> bool) {
    exists i :: 0 <= i < |ops| && bit(ops[i]) && forall j :: i < j < |ops| ==> !cut(ops[j])
  }

  lemma {:induction false} KeptMore(ops: seq<Op>, op: Op, bit: Op -> bool, cut: Op -> bool)
    ensures Kept(ops + [op], bit, cut) <==> (Kept(ops, bit, cut) && !cut(op)) || bit(op)
  {
    var all := ops + [op];
    if bit(op) {
      assert bit(all[|ops|]);
    } else if Kept(ops, bit, cut) && !cut(op) {
      var i :| 0 <= i < |ops| && bit(ops[i]) && forall j :: i < j < |ops| ==> !cut(ops[j]);
      assert bit(all[i]);
    } else if Kept(all, bit, cut) {
      var i :| 0 <= i < |all| && bit(all[i]) && forall j :: i < j < |all| ==> !cut(all[j]);
      assert bit(ops[i]) && !cut(all[|ops|]);
      forall j | i < j < |ops| ensures !cut(ops[j]) {
        assert !cut(all[j]);
      }
    }
  }

  /** What is reported, bit by bit: what some event said and no later one took back. An
      event that says gone takes back what said present, and one that only says present
      takes back what said gone. */
  lemma {:induction false} MergedBits(ops: seq<Op>)
    requires ops != []
    ensures var gone, back := (o: Op) => o.remove || o.rename, (o: Op) => (o.create || o.write) && !o.remove
      && !o.rename;
      && (Merged(ops).create <==> Kept(ops, (o: Op) => o.create, gone))
      && (Merged(ops).write <==> Kept(ops, (o: Op) => o.write, gone))
      && (Merged(ops).remove <==> Kept(ops, (o: Op) => o.remove, back))
      && (Merged(ops).rename <==> Kept(ops, (o: Op) => o.rename, back))
      && (Merged(ops).attrib <==> Kept(ops, (o: Op) => o.attrib, (o: Op) => false))
  {
    var gone, back := (o: Op) => o.remove || o.rename, (o: Op) => (o.create || o.write) && !o.remove && !o.rename;
    var none := (o: Op) => false;
    var front, op := ops[..|ops| - 1], ops[|ops| - 1];
    assert ops == front + [op];
    KeptMore(front, op, (o: Op) => o.create, gone);
    KeptMore(front, op, (o: Op) => o.write, gone);
    KeptMore(front, op, (o: Op) => o.remove, back);
    KeptMore(front, op, (o: Op) => o.rename, back);
    KeptMore(front, op, (o: Op) => o.attrib, none);
    if front != [] {
      MergedBits(front);
    }
  }

  /** One step says both gone and present exactly when what is added does: a clear event
      always makes a clear report of a clear one. */
  lemma {:induction false} MergeClear(have: Op, add: Op)
    requires !((have.remove || have.rename) && (have.create || have.write))
    ensures var now := MergeOps(have, add);
      ((now.remove || now.rename) && (now.create || now.write)) <==>
      ((add.remove || add.rename) && (add.create || add.write))
  {
  }

  // ----- directories

  predicate Under(dir: Path, p: Path) {
    |dir| <= |p| && dir == p[..|dir|]
  }

  function DirOf(p: Path): Path {
    if p == [] then [] else p[..|p| - 1]
  }

  /** A directory is above a path exactly if the path goes on from it, and the directory
      of a path is that path without its name. */
  lemma {:induction false} UnderGoesOn(dir: Path, p: Path, name: string)
    ensures Under(dir, p) <==> exists rest :: p == dir + rest
    ensures DirOf(p + [name]) == p && DirOf([]) == []
  {
    if Under(dir, p) {
      assert p == dir + p[|dir|..];
    }
  }

  /** The deepest directory above both. */
  method CommonDir(a: Path, b: Path) returns (dir: Path)
    ensures dir == Common(a, b)
  {
    if a == b {
      CommonPrefix(a, b, |a|);
      return a;
    }
    var n := if |a| < |b| then |a| else |b|;
    var i := 0;
    while i < n && a[i] == b[i]
      invariant 0 <= i <= n && a[..i] == b[..i]
    {
      i := i + 1;
    }
    CommonPrefix(a, b, i);
    dir := a[..i];
  }

  function Common(a: Path, b: Path): Path {
    if a == [] || b == [] || a[0] != b[0] then [] else [a[0]] + Common(a[1..], b[1..])
  }

  /** Above both, and nothing above both is deeper. */
  lemma {:induction false} CommonIsDeepest(a: Path, b: Path, dir: Path)
    ensures Under(dir, Common(a, b)) <==> Under(dir, a) && Under(dir, b)
  {
    if dir == [] || a == [] || b == [] || a[0] != b[0] || dir[0] != a[0] {
      UnderHead(dir, a);
      UnderHead(dir, b);
      UnderHead(dir, Common(a, b));
    } else {
      CommonIsDeepest(a[1..], b[1..], dir[1..]);
      UnderTail(dir, a);
      UnderTail(dir, b);
      UnderTail(dir, Common(a, b));
      assert Common(a, b)[1..] == Common(a[1..], b[1..]);
    }
  }

  lemma {:induction false} UnderHead(dir: Path, p: Path)
    ensures dir == [] ==> Under(dir, p)
    ensures dir != [] && Under(dir, p) ==> p != [] && p[0] == dir[0]
  {
    assert dir == [] ==> p[..0] == dir;
  }

  lemma {:induction false} UnderTail(dir: Path, p: Path)
    requires dir != [] && p != [] && p[0] == dir[0]
    ensures Under(dir, p) <==> Under(dir[1..], p[1..])
  {
    if |dir| <= |p| {
      assert dir == [dir[0]] + dir[1..] && p[..|dir|] == [p[0]] + p[1..][..|dir| - 1];
    }
  }

  lemma {:induction false} CommonPrefix(a: Path, b: Path, i: nat)
    requires i <= |a| && i <= |b| && a[..i] == b[..i] && (i == |a| || i == |b| || a[i] != b[i])
    ensures Common(a, b) == a[..i]
  {
    if i > 0 {
      assert a[0] == a[..i][0] && b[0] == b[..i][0];
      assert a[1..][..i - 1] == a[..i][1..] && b[1..][..i - 1] == b[..i][1..];
      CommonPrefix(a[1..], b[1..], i - 1);
      assert a[..i] == [a[0]] + a[..i][1..];
    }
  }

  // ----- the coalescer

  datatype Key = Key(export_: string, path: Path)

  datatype Pending = Pending(op: Op, dir: bool, seqNo: nat, first: int, last: int)

  datatype Lost = Lost(count: nat, dir: Path)

  datatype Event = Event(key: Key, op: Op, dir: bool)

  datatype Notice = Notice(export_: string, dir: Path, dropped: nat)

  function BySeq(pending: map<Key, Pending>): (Key, Key) -> bool {
    (a, b) => a !in pending || (b in pending && pending[a].seqNo <= pending[b].seqNo)
  }

  ghost predicate Numbered(pending: map<Key, Pending>, seqNo: nat, k: Key) {
    k in pending ==> pending[k].seqNo <= seqNo
  }

  ghost predicate Apart(pending: map<Key, Pending>, j: Key, k: Key) {
    j in pending && k in pending && pending[j].seqNo == pending[k].seqNo ==> j == k
  }

  /** Arrival numbers are unique. */
  ghost predicate SeqsOk(pending: map<Key, Pending>, seqNo: nat) {
    && (forall k {:trigger Numbered(pending, seqNo, k)} :: Numbered(pending, seqNo, k))
    && (forall j, k {:trigger Apart(pending, j, k)} :: Apart(pending, j, k))
  }

  /** One event of a path, and when it came. */
  datatype Heard = Heard(op: Op, dir: bool, at: int)

  /** The events of each path held, since it was last reported. */
  type History = map<Key, seq<Heard>>

  function Ops(heard: seq<Heard>): seq<Op> {
    seq(|heard|, i requires 0 <= i < |heard| => heard[i].op)
  }

  ghost function Hearing(history: History, k: Key, h: Heard): History {
    history[k := (if k in history then history[k] else []) + [h]]
  }

  ghost predicate SomeDir(heard: seq<Heard>) {
    exists i :: 0 <= i < |heard| && heard[i].dir
  }

  /** What is held for a path is the merge of its events, a directory if one of them
      said so, and knows when the first and the last of them came. */
  ghost predicate Sums(p: Pending, heard: seq<Heard>) {
    && heard != [] && p.op == Merged(Ops(heard)) && (p.dir <==> SomeDir(heard))
    && p.first == heard[0].at && p.last == heard[|heard| - 1].at
  }

  lemma {:induction false} SumsOne(p: Pending, h: Heard)
    requires p.op == h.op && p.dir == h.dir && p.first == p.last == h.at
    ensures Sums(p, [] + [h])
  {
    assert [] + [h] == [h] && Ops([h]) == [h.op];
    assert h.dir ==> [h][0].dir;
  }

  lemma {:induction false} SumsMore(p: Pending, heard: seq<Heard>, h: Heard, p': Pending)
    requires Sums(p, heard) && p'.op == MergeOps(p.op, h.op) && p'.dir == (p.dir || h.dir)
    requires p'.first == p.first && p'.last == h.at
    ensures Sums(p', heard + [h])
  {
    var all := heard + [h];
    assert Ops(all) == Ops(heard) + [h.op] && Ops(heard) != [];
    MergedMore(Ops(heard), h.op);
    if SomeDir(heard) {
      var i :| 0 <= i < |heard| && heard[i].dir;
      assert all[i].dir;
    } else if h.dir {
      assert all[|heard|].dir;
    } else {
      forall i | 0 <= i < |all| ensures !all[i].dir {
        assert i < |heard| ==> !heard[i].dir;
      }
    }
  }

  ghost predicate HeardOk(pending: map<Key, Pending>, history: History) {
    history.Keys == pending.Keys && forall k {:trigger HeardAt(pending, history, k)} :: HeardAt(pending, history, k)
  }

  ghost predicate HeardAt(pending: map<Key, Pending>, history: History, k: Key) {
    k in history && k in pending ==> Sums(pending[k], history[k])
  }

  ghost predicate HeldOk(pending: map<Key, Pending>, seqNo: nat, history: History) {
    forall u {:trigger Unlocked(u)} :: Unlocked(u) ==> SeqsOk(pending, seqNo) && HeardOk(pending, history)
  }

  /** What is held, with one event more of a path held. */
  function Merging(pending: map<Key, Pending>, k: Key, op: Op, dir: bool, now: int): map<Key, Pending>
    requires k in pending
  {
    var p := pending[k];
    pending[k := Pending(MergeOps(p.op, op), p.dir || dir, p.seqNo, p.first, now)]
  }

  lemma {:induction false} MergingHolds(pending: map<Key, Pending>, seqNo: nat, history: History, k: Key, h: Heard)
    requires HeldOk(pending, seqNo, history) && k in pending
    ensures var next := Merging(pending, k, h.op, h.dir, h.at);
      HeldOk(next, seqNo, Hearing(history, k, h)) && |next| == |pending|
  {
    assert Unlocked(0);
    var next := Merging(pending, k, h.op, h.dir, h.at);
    SeqsMerging(pending, seqNo, k, next[k]);
    HeardMerging(pending, history, k, h, next[k]);
    assert next == pending[k := next[k]];
  }

  lemma {:induction false} SeqsMerging(pending: map<Key, Pending>, seqNo: nat, k: Key, p: Pending)
    requires SeqsOk(pending, seqNo) && k in pending && p.seqNo == pending[k].seqNo
    ensures SeqsOk(pending[k := p], seqNo) && |pending[k := p]| == |pending|
  {
    var next := pending[k := p];
    forall i ensures Numbered(next, seqNo, i) {
      assert Numbered(pending, seqNo, i);
    }
    forall i, j ensures Apart(next, i, j) {
      assert Apart(pending, i, j);
    }
    assert pending[k := p].Keys == pending.Keys && |pending[k := p]| == |pending[k := p].Keys|
      && |pending| == |pending.Keys|;
  }

  lemma {:induction false} HeardMerging(pending: map<Key, Pending>, history: History, k: Key, h: Heard, p: Pending)
    requires HeardOk(pending, history) && k in pending
    requires p.op == MergeOps(pending[k].op, h.op) && p.dir == (pending[k].dir || h.dir)
    requires p.first == pending[k].first && p.last == h.at
    ensures HeardOk(pending[k := p], Hearing(history, k, h))
  {
    assert HeardAt(pending, history, k);
    SumsMore(pending[k], history[k], h, p);
    var next, more := pending[k := p], Hearing(history, k, h);
    forall j ensures HeardAt(next, more, j) {
      assert HeardAt(pending, history, j);
    }
  }

  lemma {:induction false} KeepingHolds(pending: map<Key, Pending>, seqNo: nat, history: History, k: Key, h: Heard)
    requires HeldOk(pending, seqNo, history) && k !in pending
    ensures var next := pending[k := Pending(h.op, h.dir, seqNo + 1, h.at, h.at)];
      HeldOk(next, seqNo + 1, Hearing(history, k, h)) && |next| == |pending| + 1
  {
    assert Unlocked(0);
    var p := Pending(h.op, h.dir, seqNo + 1, h.at, h.at);
    SeqsKeeping(pending, seqNo, k, p);
    HeardKeeping(pending, history, k, h, p);
  }

  lemma {:induction false} SeqsKeeping(pending: map<Key, Pending>, seqNo: nat, k: Key, p: Pending)
    requires SeqsOk(pending, seqNo) && k !in pending && p.seqNo == seqNo + 1
    ensures SeqsOk(pending[k := p], seqNo + 1) && |pending[k := p]| == |pending| + 1
  {
    var next := pending[k := p];
    forall i ensures Numbered(next, p.seqNo, i) {
      assert Numbered(pending, seqNo, i);
    }
    forall i, j ensures Apart(next, i, j) {
      assert Apart(pending, i, j) && Numbered(pending, seqNo, i) && Numbered(pending, seqNo, j);
    }
  }

  lemma {:induction false} HeardKeeping(pending: map<Key, Pending>, history: History, k: Key, h: Heard, p: Pending)
    requires HeardOk(pending, history) && k !in pending
    requires p.op == h.op && p.dir == h.dir && p.first == p.last == h.at
    ensures HeardOk(pending[k := p], Hearing(history, k, h))
  {
    SumsOne(p, h);
    var next, more := pending[k := p], Hearing(history, k, h);
    forall j ensures HeardAt(next, more, j) {
      assert HeardAt(pending, history, j);
    }
  }

  /** What is left, of the events held and of their history. */
  lemma {:induction false} LeftHolds(pending: map<Key, Pending>, seqNo: nat, history: History, ready: set<Key>)
    requires HeldOk(pending, seqNo, history)
    ensures HeldOk(pending - ready, seqNo, history - ready) && |pending - ready| <= |pending|
  {
    assert Unlocked(0);
    var left, rest := pending - ready, history - ready;
    FewerKeys(left, pending);
    forall i ensures Numbered(left, seqNo, i) {
      assert Numbered(pending, seqNo, i);
    }
    forall i, j ensures Apart(left, i, j) {
      assert Apart(pending, i, j);
    }
    forall k ensures HeardAt(left, rest, k) {
      assert HeardAt(pending, history, k);
    }
  }

  /** A report is the merge of the path's events, says present or gone as the last of
      them that said either, and a directory if any did. */
  ghost predicate Says(e: Event, history: History) {
    && e.key in history && history[e.key] != [] && e.op == Merged(Ops(history[e.key]))
    && SaysAs(e.op, LastSaid(Ops(history[e.key])))
    && (e.dir <==> SomeDir(history[e.key]))
  }

  lemma {:induction false} ReportSays(pending: map<Key, Pending>, seqNo: nat, history: History, k: Key)
    requires HeldOk(pending, seqNo, history) && k in pending
    ensures Says(EventOf(pending, k), history)
  {
    assert Unlocked(0);
    assert HeardAt(pending, history, k);
    MergedSaysLast(Ops(history[k]));
  }

  /** The paths to report: those whose first or last event is not recent. */
  ghost function Overdue(history: History, now: int, debounce: int, maxDelay: int): set<Key> {
    set k | k in history && !Recent(history[k], now, debounce, maxDelay)
  }

  /** Every path that is ready is reported once, in the order of first arrival and as its
      events said. */
  ghost predicate Reports(pending: map<Key, Pending>, history: History, ready: set<Key>, events: seq<Event>)
  {
    && ready <= pending.Keys
    && (forall k :: k in ready ==> EventOf(pending, k) in events)
    && (forall i :: 0 <= i < |events| ==>
        events[i].key in ready && events[i] == EventOf(pending, events[i].key) && Says(events[i], history))
    && (forall i, j :: 0 <= i < j < |events| ==> pending[events[i].key].seqNo < pending[events[j].key].seqNo)
  }

  /** The first event of a path less than maxDelay ago, and the last less than debounce. */
  ghost predicate Recent(heard: seq<Heard>, now: int, debounce: int, maxDelay: int) {
    heard != [] && now - heard[0].at < maxDelay && now - heard[|heard| - 1].at < debounce
  }

  lemma {:induction false} HeldTimes(pending: map<Key, Pending>, seqNo: nat, history: History)
    requires HeldOk(pending, seqNo, history)
    ensures history.Keys == pending.Keys
    ensures forall k :: k in pending ==> history[k] != []
    ensures forall k :: k in pending ==>
      pending[k].first == history[k][0].at && pending[k].last == history[k][|history[k]| - 1].at
  {
    assert Unlocked(0);
    forall k | k in pending
      ensures history[k] != []
      ensures pending[k].first == history[k][0].at && pending[k].last == history[k][|history[k]| - 1].at
    {
      assert HeardAt(pending, history, k);
    }
  }

  /** The report of a path held. */
  function EventOf(pending: map<Key, Pending>, k: Key): Event
    requires k in pending
  {
    Event(k, pending[k].op, pending[k].dir)
  }

  /** One loss: so many events under a directory. */
  datatype Loss = Loss(dir: Path, count: nat)

  type Losses = map<string, seq<Loss>>

  ghost function Total(losses: seq<Loss>): nat {
    if losses == [] then 0 else Total(losses[..|losses| - 1]) + losses[|losses| - 1].count
  }

  ghost predicate AllUnder(d: Path, losses: seq<Loss>) {
    forall i :: 0 <= i < |losses| ==> Under(d, losses[i].dir)
  }

  /** What stands for losses counts them all, covers their directories, and is the
      deepest to do so. */
  ghost predicate Covers(l: Lost, losses: seq<Loss>) {
    losses != [] && l.count == Total(losses) && forall d :: AllUnder(d, losses) <==> Under(d, l.dir)
  }

  ghost predicate LostOk(lost: map<string, Lost>, losses: Losses) {
    lost.Keys == losses.Keys
    && forall e {:trigger Covers(lost[e], losses[e])} :: e in lost ==> Covers(lost[e], losses[e])
  }

  /** The losses, with one more of an export's. */
  ghost function MoreLosses(losses: Losses, export_: string, dir: Path, n: nat): Losses {
    losses[export_ := (if export_ in losses then losses[export_] else []) + [Loss(dir, n)]]
  }

  /** What is lost, with one more of an export's. */
  function MoreLost(lost: map<string, Lost>, export_: string, dir: Path, n: nat): map<string, Lost> {
    lost[export_ :=
      if export_ in lost then Lost(lost[export_].count + n, Common(lost[export_].dir, dir)) else Lost(n, dir)]
  }

  lemma {:induction false} LoseOk(lost: map<string, Lost>, losses: Losses, export_: string, dir: Path, n: nat)
    requires LostOk(lost, losses)
    ensures LostOk(MoreLost(lost, export_, dir, n), MoreLosses(losses, export_, dir, n))
    ensures var lost' := MoreLost(lost, export_, dir, n); Under(lost'[export_].dir, dir) && MovesUp(lost, lost')
  {
    var lost', losses' := MoreLost(lost, export_, dir, n), MoreLosses(losses, export_, dir, n);
    if export_ in lost {
      var l := lost[export_];
      assert Covers(l, losses[export_]);
      CoversMore(l, losses[export_], dir, n);
      CommonIsDeepest(l.dir, dir, Common(l.dir, dir));
    } else {
      CoversOne(dir, n);
      assert [] + [Loss(dir, n)] == [Loss(dir, n)];
    }
    forall e | e in lost' ensures Covers(lost'[e], losses'[e]) {
      if e != export_ {
        assert Covers(lost[e], losses[e]);
      }
    }
  }

  /** One more loss. */
  lemma {:induction false} CoversMore(l: Lost, losses: seq<Loss>, dir: Path, n: nat)
    requires Covers(l, losses)
    ensures Covers(Lost(l.count + n, Common(l.dir, dir)), losses + [Loss(dir, n)])
  {
    var all := losses + [Loss(dir, n)];
    assert all[..|all| - 1] == losses;
    forall d ensures AllUnder(d, all) <==> Under(d, Common(l.dir, dir)) {
      CommonIsDeepest(l.dir, dir, d);
      AllUnderMore(d, losses, Loss(dir, n));
    }
  }

  lemma {:induction false} AllUnderMore(d: Path, losses: seq<Loss>, l: Loss)
    ensures AllUnder(d, losses + [l]) <==> AllUnder(d, losses) && Under(d, l.dir)
  {
    var all := losses + [l];
    assert all[|losses|] == l && forall i :: 0 <= i < |losses| ==> all[i] == losses[i];
  }

  lemma {:induction false} CoversOne(dir: Path, count: nat)
    ensures Covers(Lost(count, dir), [Loss(dir, count)])
  {
    var one := [Loss(dir, count)];
    assert one[..0] == [] && Total([]) == 0;
    forall d ensures AllUnder(d, one) <==> Under(d, dir) {
      assert one[0].dir == dir;
    }
  }

  /** The path's directory is under what its export lost. */
  predicate CoveredBy(lost: map<string, Lost>, k: Key) {
    k.export_ in lost && Under(lost[k.export_].dir, DirOf(k.path))
  }

  /** Everything owed is still held, or will be covered by a notice. */
  ghost predicate Answered(owed: set<Key>, pending: map<Key, Pending>, lost: map<string, Lost>) {
    forall k :: k in owed ==> k in pending || CoveredBy(lost, k)
  }

  ghost predicate OwedOk(owed: set<Key>, pending: map<Key, Pending>, lost: map<string, Lost>,
      losses: Losses)
  {
    forall u {:trigger Unlocked(u)} :: Unlocked(u) ==> LostOk(lost, losses) && Answered(owed, pending, lost)
  }

  /** One path more, held now or covered. */
  lemma {:induction false} OwedMore(owed: set<Key>, pending: map<Key, Pending>, lost: map<string, Lost>,
      losses: Losses, pending': map<Key, Pending>, k: Key)
    requires OwedOk(owed, pending, lost, losses) && pending.Keys <= pending'.Keys
      && (k in pending' || CoveredBy(lost, k))
    ensures OwedOk(owed + {k}, pending', lost, losses)
  {
    assert Unlocked(0);
    forall x | x in owed && x !in pending' ensures CoveredBy(lost, x) {
      assert x !in pending;
    }
  }

  /** A loss only ever moves up. */
  ghost predicate MovesUp(lost: map<string, Lost>, lost': map<string, Lost>) {
    forall x :: x in lost ==> x in lost' && Under(lost'[x].dir, lost[x].dir)
  }

  lemma {:induction false} OwedLoses(owed: set<Key>, pending: map<Key, Pending>, lost: map<string, Lost>,
      losses: Losses, export_: string, dir: Path, n: nat)
    requires OwedOk(owed, pending, lost, losses)
    ensures var lost' := MoreLost(lost, export_, dir, n);
      OwedOk(owed, pending, lost', MoreLosses(losses, export_, dir, n)) && MovesUp(lost, lost')
      && Under(lost'[export_].dir, dir)
  {
    assert Unlocked(0);
    LoseOk(lost, losses, export_, dir, n);
    AnsweredStays(owed, pending, lost, MoreLost(lost, export_, dir, n));
  }

  lemma {:induction false} AnsweredStays(owed: set<Key>, pending: map<Key, Pending>, lost: map<string, Lost>,
      lost': map<string, Lost>)
    requires Answered(owed, pending, lost) && MovesUp(lost, lost')
    ensures Answered(owed, pending, lost')
  {
    forall k | k in owed && k !in pending ensures CoveredBy(lost', k) {
      UnderUnder(lost'[k.export_].dir, lost[k.export_].dir, DirOf(k.path));
    }
  }

  lemma {:induction false} UnderUnder(a: Path, b: Path, c: Path)
    requires Under(a, b) && Under(b, c)
    ensures Under(a, c)
  {
    assert c[..|b|][..|a|] == c[..|a|];
  }

  /** An export's loss, with one more. */
  method Joined(lost: map<string, Lost>, export_: string, dir: Path, n: nat) returns (l: Lost)
    ensures lost[export_ := l] == MoreLost(lost, export_, dir, n)
  {
    if export_ !in lost {
      return Lost(n, dir);
    }
    var common := CommonDir(lost[export_].dir, dir);
    l := Lost(lost[export_].count + n, common);
  }

  lemma {:induction false} UnderSelf(lost: map<string, Lost>)
    ensures MovesUp(lost, lost)
  {
  }

  class Coalescer {
    const debounce: int
    const maxDelay: int
    const cap: nat
    var pending: map<Key, Pending>
    var lost: map<string, Lost>
    var seqNo: nat

    // What was lost since the last flush, by export.
    ghost var losses: Losses

    // The paths of events added and neither reported nor covered by a notice yet,
    // and the events of every path held.
    ghost var owed: set<Key>
    ghost var history: History

    ghost predicate Valid()
      reads this
    {
      HeldOk(pending, seqNo, history) && |pending| <= cap && OwedOk(owed, pending, lost, losses)
    }

    constructor (debounce: int, maxDelay: int, capacity: int)
      ensures Valid() && pending == map[] && lost == map[] && this.debounce > 0 && this.maxDelay > 0 && cap > 0
      ensures if debounce > 0 then this.debounce == debounce else this.debounce == DEFAULT_DEBOUNCE
      ensures if maxDelay > 0 then this.maxDelay == maxDelay else this.maxDelay == DEFAULT_MAX_DELAY
      ensures if capacity > 0 then cap == capacity else cap == DEFAULT_PENDING_CAP
    {
      this.debounce := if debounce <= 0 then DEFAULT_DEBOUNCE else debounce;
      this.maxDelay := if maxDelay <= 0 then DEFAULT_MAX_DELAY else maxDelay;
      cap := if capacity <= 0 then DEFAULT_PENDING_CAP else capacity;
      pending, lost, seqNo, losses, owed, history := map[], map[], 0, map[], {}, map[];
    }

    ghost function HeardOf(now: int, e: Event): Heard {
      Heard(e.op, e.dir, now)
    }

    /** One observed event: merged, kept, or lost under a directory. */
    method Add(now: int, e: Event)
      requires Valid()
      modifies this
      ensures Valid() && owed == old(owed) + {e.key}
      ensures history == if e.key in pending then Hearing(old(history), e.key, HeardOf(now, e)) else old(history)
      ensures e.key in old(pending) ==> pending == Merging(old(pending), e.key, e.op, e.dir, now) && seqNo == old(seqNo)
      ensures e.key !in old(pending) && |old(pending)| < cap ==>
        pending == old(pending)[e.key := Pending(e.op, e.dir, seqNo, now, now)] && seqNo == old(seqNo) + 1
      ensures e.key !in old(pending) && |old(pending)| >= cap ==>
        && pending == old(pending) && seqNo == old(seqNo) && CoveredBy(lost, e.key)
        && losses == MoreLosses(old(losses), e.key.export_, DirOf(e.key.path), 1)
      ensures e.key in pending ==> lost == old(lost) && losses == old(losses)
      ensures MovesUp(old(lost), lost)
    {
      if e.key in pending {
        Merge(now, e);
        UnderSelf(lost);
      } else if |pending| >= cap {
        Drop(e.key);
      } else {
        Keep(now, e);
        UnderSelf(lost);
      }
    }

    method Merge(now: int, e: Event)
      requires Valid() && e.key in pending
      modifies this`pending, this`owed, this`history
      ensures Valid() && owed == old(owed) + {e.key} && history == Hearing(old(history), e.key, HeardOf(now, e))
      ensures pending == Merging(old(pending), e.key, e.op, e.dir, now)
    {
      var next := Merging(pending, e.key, e.op, e.dir, now);
      MergingHolds(pending, seqNo, history, e.key, HeardOf(now, e));
      OwedMore(owed, pending, lost, losses, next, e.key);
      pending := next;
      owed, history := owed + {e.key}, Hearing(history, e.key, HeardOf(now, e));
    }

    method Keep(now: int, e: Event)
      requires Valid() && e.key !in pending && |pending| < cap
      modifies this`pending, this`owed, this`seqNo, this`history
      ensures Valid() && owed == old(owed) + {e.key} && seqNo == old(seqNo) + 1
        && history == Hearing(old(history), e.key, HeardOf(now, e))
      ensures pending == old(pending)[e.key := Pending(e.op, e.dir, seqNo, now, now)]
    {
      var p := Pending(e.op, e.dir, seqNo + 1, now, now);
      KeepingHolds(pending, seqNo, history, e.key, HeardOf(now, e));
      OwedMore(owed, pending, lost, losses, pending[e.key := p], e.key);
      seqNo, pending := seqNo + 1, pending[e.key := p];
      owed, history := owed + {e.key}, Hearing(history, e.key, HeardOf(now, e));
    }

    /** No room for a path: it is covered by a loss. */
    method Drop(k: Key)
      requires Valid()
      modifies this`lost, this`losses, this`owed
      ensures Valid() && owed == old(owed) + {k} && CoveredBy(lost, k)
      ensures losses == MoreLosses(old(losses), k.export_, DirOf(k.path), 1)
      ensures MovesUp(old(lost), lost)
    {
      Lose(k.export_, DirOf(k.path), 1);
      OwedMore(owed, pending, lost, losses, pending, k);
      owed := owed + {k};
    }

    /** What could not be kept, here or elsewhere: only how much, and the deepest
        directory above all of it. */
    method Lose(export_: string, dir: Path, n: nat)
      requires Valid()
      modifies this`lost, this`losses
      ensures Valid() && lost == MoreLost(old(lost), export_, dir, n)
        && losses == MoreLosses(old(losses), export_, dir, n)
      ensures Under(lost[export_].dir, dir) && MovesUp(old(lost), lost)
    {
      OwedLoses(owed, pending, lost, losses, export_, dir, n);
      losses := MoreLosses(losses, export_, dir, n);
      var l := Joined(lost, export_, dir, n);
      lost := lost[export_ := l];
    }

    predicate Due(now: int, p: Pending)
      reads this
    {
      now - p.last >= debounce || now - p.first >= maxDelay
    }

    ghost predicate SomeDue(t: int)
      reads this
    {
      Overdue(history, t, debounce, maxDelay) != {}
    }

    lemma {:induction false} DueIsOverdue(t: int)
      requires Valid()
      ensures SomeDue(t) <==> SomeHeld(t)
    {
      HeldTimes(pending, seqNo, history);
      if SomeHeld(t) {
        var k :| k in pending && Due(t, pending[k]);
        assert k in Overdue(history, t, debounce, maxDelay);
      } else {
        assert Overdue(history, t, debounce, maxDelay) == {};
      }
    }

    ghost predicate SomeHeld(t: int)
      reads this
    {
      exists k :: k in pending && Due(t, pending[k])
    }

    /** When to look again: from then on something is due, and not before. */
    method NextDue(now: int) returns (at: int, some: bool)
      requires Valid()
      ensures some <==> pending != map[]
      ensures some ==> at >= now && forall t :: t >= now ==> (SomeDue(t) <==> t >= at)
    {
      at, some := Earliest(now);
      forall t ensures SomeDue(t) <==> SomeHeld(t) {
        DueIsOverdue(t);
      }
    }

    method Earliest(now: int) returns (at: int, some: bool)
      requires Valid()
      ensures some <==> pending != map[]
      ensures some ==> at >= now && forall t :: t >= now ==> (SomeHeld(t) <==> t >= at)
    {
      at, some := now, false;
      ghost var who: Key := Key("", []);
      var left := pending.Keys;
      while left != {}
        invariant left <= pending.Keys && at >= now && (some <==> left != pending.Keys)
        invariant some ==> who in pending && forall t :: t >= at ==> Due(t, pending[who])
        invariant some ==> forall k, t :: k in pending && k !in left && t >= now && Due(t, pending[k]) ==> t >= at
        decreases |left|
      {
        var k :| k in left;
        var p := pending[k];
        var due := if p.first + maxDelay < p.last + debounce then p.first + maxDelay else p.last + debounce;
        if due < now {
          due := now;
        }
        if !some || due < at {
          at, some, who := due, true, k;
        }
        left := left - {k};
      }
    }

    /** Everything due, and a notice for every loss. */
    method Flush(now: int) returns (events: seq<Event>, notices: seq<Notice>)
      requires Valid()
      modifies this
      ensures Valid() && lost == map[] && losses == map[] && owed == old(owed) * pending.Keys
      ensures var ready := Overdue(old(history), now, debounce, maxDelay);
        && pending == old(pending) - ready && history == old(history) - ready
        && Reports(old(pending), old(history), ready, events)
      ensures Discharged(old(owed), old(losses), pending.Keys, events, notices) && Noted(old(lost), notices)
    {
      ghost var ready := Overdue(history, now, debounce, maxDelay);
      events := TakeDue(now);
      notices := TakeLost(old(pending), old(history), ready, events);
    }

    /** Takes what was lost, and what is owed no longer. */
    method TakeLost(ghost was: map<Key, Pending>, ghost heard: History, ghost ready: set<Key>, ghost events: seq<Event>)
      returns (notices: seq<Notice>)
      requires OwedOk(owed, was, lost, losses) && Reports(was, heard, ready, events) && pending == was - ready
      modifies this`lost, this`losses, this`owed
      ensures OwedOk(owed, pending, lost, losses)
      ensures lost == map[] && losses == map[] && owed == old(owed) * pending.Keys
      ensures Discharged(old(owed), old(losses), pending.Keys, events, notices) && Noted(old(lost), notices)
    {
      notices := Notices(lost);
      Settled(events, notices, was, lost, losses, owed, heard, ready);
      lost, losses, owed := map[], map[], owed * pending.Keys;
    }

    /** Takes what is due out of the pending events. */
    method TakeDue(now: int) returns (events: seq<Event>)
      requires Valid()
      modifies this`pending, this`history
      ensures HeldOk(pending, seqNo, history) && |pending| <= cap
      ensures var ready := Overdue(old(history), now, debounce, maxDelay);
        && pending == old(pending) - ready && history == old(history) - ready
        && Reports(old(pending), old(history), ready, events)
    {
      var ready := Ready(now);
      events := InOrder(pending, ready, seqNo, history);
      LeftHolds(pending, seqNo, history, ready);
      pending, history := pending - ready, history - ready;
    }

    method Ready(now: int) returns (ready: set<Key>)
      requires Valid()
      ensures ready == Overdue(history, now, debounce, maxDelay) && ready <= pending.Keys
    {
      HeldTimes(pending, seqNo, history);
      ready := set k | k in pending && Due(now, pending[k]);
    }
  }

  /** One notice for every loss, in the order of the exports' names. */
  ghost predicate Noted(lost: map<string, Lost>, notices: seq<Notice>) {
    && (forall x :: x in lost ==> Notice(x, lost[x].dir, lost[x].count) in notices)
    && (forall i :: 0 <= i < |notices| ==>
        && notices[i].export_ in lost
        && notices[i] == Notice(notices[i].export_, lost[notices[i].export_].dir, lost[notices[i].export_].count))
    && (forall i, j :: 0 <= i < j < |notices| ==>
        notices[i].export_ != notices[j].export_ && StringLe(notices[i].export_, notices[j].export_))
  }

  /** What is owed and no longer held was reported now, or a notice is above it. */
  lemma {:induction false} Answers(events: seq<Event>, notices: seq<Notice>, pending: map<Key, Pending>,
      lost: map<string, Lost>, k: Key)
    requires k in pending || CoveredBy(lost, k)
    requires k in pending ==> EventOf(pending, k) in events
    requires forall x :: x in lost ==> Notice(x, lost[x].dir, lost[x].count) in notices
    ensures Reported(events, k) || Noticed(notices, k)
  {
    if k in pending {
      assert EventOf(pending, k).key == k;
    } else {
      assert Notice(k.export_, lost[k.export_].dir, lost[k.export_].count) in notices;
    }
  }

  /** What was owed and is not held on is reported or covered by a notice, and the
      notices are what was lost. */
  ghost predicate Discharged(owed: set<Key>, losses: Losses, left: set<Key>, events: seq<Event>, notices: seq<Notice>)
  {
    && (forall k :: k in owed && k !in left ==> Reported(events, k) || Noticed(notices, k))
    && (forall i {:trigger notices[i]} :: 0 <= i < |notices| ==>
        && notices[i].export_ in losses
        && Covers(Lost(notices[i].dropped, notices[i].dir), losses[notices[i].export_]))
    && (forall x :: x in losses ==> exists i :: 0 <= i < |notices| && notices[i].export_ == x)
  }

  /** A flush answers for all that was owed and is not held on. */
  lemma {:induction false} Settled(events: seq<Event>, notices: seq<Notice>, pending: map<Key, Pending>,
      lost: map<string, Lost>, losses: Losses, owed: set<Key>, history: History, ready: set<Key>)
    requires OwedOk(owed, pending, lost, losses) && Reports(pending, history, ready, events) && Noted(lost, notices)
    ensures Discharged(owed, losses, (pending - ready).Keys, events, notices)
    ensures OwedOk(owed * (pending - ready).Keys, pending - ready, map[], map[])
  {
    assert Unlocked(0);
    NoticesCover(lost, losses, notices);
    forall k | k in owed && k !in pending - ready ensures Reported(events, k) || Noticed(notices, k) {
      Answers(events, notices, pending, lost, k);
    }
    forall x | x in losses ensures exists i :: 0 <= i < |notices| && notices[i].export_ == x {
      assert x in lost;
      var i :| 0 <= i < |notices| && notices[i] == Notice(x, lost[x].dir, lost[x].count);
      assert notices[i].export_ == x;
    }
  }

  lemma {:induction false} NoticesCover(lost: map<string, Lost>, losses: Losses, notices: seq<Notice>)
    requires LostOk(lost, losses) && Noted(lost, notices)
    ensures forall i {:trigger notices[i]} :: 0 <= i < |notices| ==>
      && notices[i].export_ in losses
      && Covers(Lost(notices[i].dropped, notices[i].dir), losses[notices[i].export_])
  {
    forall i | 0 <= i < |notices|
      ensures notices[i].export_ in losses
      ensures Covers(Lost(notices[i].dropped, notices[i].dir), losses[notices[i].export_])
    {
      assert Covers(lost[notices[i].export_], losses[notices[i].export_]);
    }
  }

  ghost predicate Reported(events: seq<Event>, k: Key) {
    exists e :: e in events && e.key == k
  }

  ghost predicate Noticed(notices: seq<Notice>, k: Key) {
    exists n :: n in notices && n.export_ == k.export_ && Under(n.dir, DirOf(k.path))
  }

  lemma {:induction false} FewerKeys(a: map<Key, Pending>, b: map<Key, Pending>)
    requires a.Keys <= b.Keys
    ensures |a| <= |b|
  {
    SmallerSet(a.Keys, b.Keys);
    assert |a.Keys| == |a| && |b.Keys| == |b|;
  }

  lemma {:induction false} SmallerSet(a: set<Key>, b: set<Key>)
    requires a <= b
    ensures |a| <= |b|
  {
    assert b == a + (b - a);
  }

  /** The ready events, by arrival. */
  method InOrder(pending: map<Key, Pending>, ready: set<Key>, ghost seqNo: nat, ghost history: History)
    returns (events: seq<Event>)
    requires HeldOk(pending, seqNo, history) && ready <= pending.Keys
    ensures Reports(pending, history, ready, events)
  {
    assert Unlocked(0);
    var keys := ByArrival(pending, ready, seqNo);
    events := [];
    var i := 0;
    while i < |keys|
      invariant 0 <= i <= |keys| && |events| == i
      invariant forall j ::
        0 <= j < i ==> keys[j] in ready && events[j] == EventOf(pending, keys[j]) && Says(events[j], history)
    {
      assert keys[i] in keys;
      ReportSays(pending, seqNo, history, keys[i]);
      events := events + [EventOf(pending, keys[i])];
      i := i + 1;
    }
    forall k | k in ready ensures EventOf(pending, k) in events {
      var j :| 0 <= j < |keys| && keys[j] == k;
      assert events[j] in events;
    }
  }

  method ByArrival(pending: map<Key, Pending>, ready: set<Key>, ghost seqNo: nat) returns (keys: seq<Key>)
    requires SeqsOk(pending, seqNo) && ready <= pending.Keys
    ensures (forall k :: k in keys <==> k in ready) && (forall i :: 0 <= i < |keys| ==> keys[i] in pending)
    ensures forall i, j :: 0 <= i < j < |keys| ==> pending[keys[i]].seqNo < pending[keys[j]].seqNo
  {
    var listed := Listed(ready);
    keys := Sort(listed, BySeq(pending));
    ArrivalOrder(pending, seqNo, listed, keys);
  }

  lemma {:induction false} ArrivalOrder(pending: map<Key, Pending>, seqNo: nat, listed: seq<Key>, keys: seq<Key>)
    requires SeqsOk(pending, seqNo) && Distinct(listed) && (forall k :: k in listed ==> k in pending)
      && keys == Sort(listed, BySeq(pending))
    ensures (forall k :: k in keys <==> k in listed) && (forall i :: 0 <= i < |keys| ==> keys[i] in pending)
    ensures forall i, j :: 0 <= i < j < |keys| ==> pending[keys[i]].seqNo < pending[keys[j]].seqNo
  {
    SortIsSorted(listed, BySeq(pending));
    DistinctFromMultiset(listed, keys);
    forall k ensures k in keys <==> k in listed {
      assert k in keys <==> k in multiset(keys);
      assert k in listed <==> k in multiset(listed);
    }
    forall i | 0 <= i < |keys| ensures keys[i] in pending {
      assert keys[i] in keys;
    }
    forall i, j | 0 <= i < j < |keys| ensures pending[keys[i]].seqNo < pending[keys[j]].seqNo {
      assert BySeq(pending)(keys[i], keys[j]) && Apart(pending, keys[i], keys[j]);
    }
  }

  method Listed(ready: set<Key>) returns (keys: seq<Key>)
    ensures Distinct(keys) && forall k :: k in keys <==> k in ready
  {
    keys := [];
    var left := ready;
    while left != {}
      invariant left <= ready && Distinct(keys) && forall k :: k in keys <==> k in ready && k !in left
      decreases |left|
    {
      var k :| k in left;
      keys := keys + [k];
      left := left - {k};
    }
  }

  method Notices(lost: map<string, Lost>) returns (notices: seq<Notice>)
    ensures Noted(lost, notices)
  {
    var exports := SortedSet(lost.Keys);
    notices := [];
    var i := 0;
    while i < |exports|
      invariant 0 <= i <= |exports| && |notices| == i
      invariant forall j ::
        0 <= j < i ==>
          exports[j] in lost && notices[j] == Notice(exports[j], lost[exports[j]].dir, lost[exports[j]].count)
    {
      assert exports[i] in exports;
      notices := notices + [Notice(exports[i], lost[exports[i]].dir, lost[exports[i]].count)];
      i := i + 1;
    }
    forall x | x in lost ensures Notice(x, lost[x].dir, lost[x].count) in notices {
      var j :| 0 <= j < |exports| && exports[j] == x;
      assert notices[j] in notices;
    }
  }
}
