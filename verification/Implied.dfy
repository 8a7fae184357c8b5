/** The deletions a directory the consumer removed or replaced implies: files
    under it that the fill sent, or that this machine had there when the removal
    was first seen, and that the consumer confirms are gone. */
module Implied {
  import opened Basics
  import opened ShareView
  import opened Decide
  import opened DecideLaws
  import opened Sorting

  const PRESENT_CHUNK := 1000

  /** A listing of a directory here, made for the removal at a time. */
  datatype Listing = Listing(at: int, paths: seq<string>)

  predicate Hides(c: Change) {
    c.replaced || c.deleted
  }

  /** The consumer lists the path as something other than a replaced directory. */
  ghost predicate Listed(cs: seq<Change>, p: string) {
    exists i :: 0 <= i < |cs| && cs[i].path == p && !cs[i].replaced
  }

  /** A directory the consumer removed or replaced, and when. */
  ghost predicate HiddenOf(cs: seq<Change>, dir: string, at: int) {
    exists i :: 0 <= i < |cs| && Hides(cs[i]) && cs[i].path == dir && cs[i].changed == at
  }

  /** The removal time a path carries: the earliest known above it, 0 when none is. */
  ghost predicate Earliest(p: string, hidden: map<string, int>, at: int) {
    && (at != 0 ==> exists dir :: Above(dir, p) && dir in hidden && hidden[dir] == at)
    && (forall dir :: Above(dir, p) && dir in hidden && hidden[dir] != 0 ==> at != 0 && at <= hidden[dir])
  }

  ghost predicate UnderHidden(p: string, hidden: map<string, int>) {
    exists dir :: Above(dir, p) && dir in hidden
  }

  ghost predicate HiddenOk(cs: seq<Change>, hidden: map<string, int>) {
    forall dir, at :: (dir in hidden && hidden[dir] == at) <==> HiddenOf(cs, dir, at)
  }

  lemma {:induction false} HiddenMore(cs: seq<Change>, c: Change)
    ensures forall dir, at :: HiddenOf(cs + [c], dir, at) <==>
      HiddenOf(cs, dir, at) || (Hides(c) && c.path == dir && c.changed == at)
  {
    forall dir, at
      ensures HiddenOf(cs + [c], dir, at) <==> HiddenOf(cs, dir, at) || (Hides(c) && c.path == dir && c.changed == at) {
      assert (cs + [c])[|cs|] == c;
      if HiddenOf(cs, dir, at) {
        var i :| 0 <= i < |cs| && Hides(cs[i]) && cs[i].path == dir && cs[i].changed == at;
        assert (cs + [c])[i] == cs[i];
      }
    }
  }

  method HiddenAt(cs: seq<Change>) returns (hidden: map<string, int>)
    requires DistinctChanges(cs)
    ensures HiddenOk(cs, hidden)
  {
    hidden := map[];
    var i := 0;
    while i < |cs|
      invariant 0 <= i <= |cs| && HiddenOk(cs[..i], hidden)
    {
      HiddenMore(cs[..i], cs[i]);
      assert cs[..i + 1] == cs[..i] + [cs[i]];
      assert forall at :: !HiddenOf(cs[..i], cs[i].path, at);
      if cs[i].replaced || cs[i].deleted {
        hidden := hidden[cs[i].path := cs[i].changed];
      }
      i := i + 1;
    }
    assert cs[..i] == cs;
  }

  method ListedPaths(cs: seq<Change>) returns (listed: set<string>)
    ensures forall p :: p in listed <==> Listed(cs, p)
  {
    listed := {};
    var i := 0;
    while i < |cs|
      invariant 0 <= i <= |cs|
        && forall p :: p in listed <==> exists j :: 0 <= j < i && cs[j].path == p && !cs[j].replaced
    {
      if !cs[i].replaced {
        listed := listed + {cs[i].path};
      }
      i := i + 1;
    }
  }

  /** Climbs from a path and keeps the earliest known time. */
  method EarliestHidden(p: string, hidden: map<string, int>) returns (at: int)
    requires Rooted(p)
    ensures Earliest(p, hidden, at)
  {
    at := 0;
    DirIsNext(p, p);
    StepsUp(p);
    var dir := Dir(p);
    while dir != "/" && dir != "."
      invariant Rooted(dir)
      invariant at != 0 ==> exists d :: Above(d, p) && d in hidden && hidden[d] == at
      invariant forall d ::
        Above(d, p) && d in hidden && hidden[d] != 0 ==>
          (at != 0 && at <= hidden[d]) || (dir != "/" && (d == dir || Above(d, dir)))
      invariant dir != "/" ==> Above(dir, p)
      decreases |dir|
    {
      if dir in hidden && hidden[dir] != 0 && (at == 0 || hidden[dir] < at) {
        at := hidden[dir];
      }
      StepsUp(dir);
      AllAbove(p, dir);
      DirIsNext(dir, dir);
      dir := Dir(dir);
    }
  }

  lemma {:induction false} StepsUp(p: string)
    requires Rooted(p)
    ensures forall d :: Above(d, p) <==> Dir(p) != "/" && (d == Dir(p) || Above(d, Dir(p)))
  {
    forall d ensures Above(d, p) <==> Dir(p) != "/" && (d == Dir(p) || Above(d, Dir(p))) {
      DirIsNext(p, d);
    }
  }

  lemma {:induction false} AllAbove(p: string, dir: string)
    requires Above(dir, p)
    ensures forall d :: Above(d, dir) ==> Above(d, p)
  {
    forall d | Above(d, dir) ensures Above(d, p) {
      AboveAbove(d, dir, p);
    }
  }

  /** Whether a directory above a path is hidden. */
  method IsUnderHidden(p: string, hidden: map<string, int>) returns (yes: bool)
    requires Rooted(p)
    ensures yes <==> UnderHidden(p, hidden)
  {
    StepsUp(p);
    DirIsNext(p, p);
    var dir := Dir(p);
    while dir != "/" && dir != "."
      invariant Rooted(dir) && (dir != "/" ==> Above(dir, p))
      invariant forall d :: Above(d, p) && d in hidden ==> dir != "/" && (d == dir || Above(d, dir))
      decreases |dir|
    {
      if dir in hidden {
        return true;
      }
      StepsUp(dir);
      AllAbove(p, dir);
      DirIsNext(dir, dir);
      dir := Dir(dir);
    }
    return false;
  }

  // ----- candidates

  /** A file the fill sent, under a removal, that the consumer does not list. */
  ghost predicate SentUnder(manifest: map<string, Baseline>, cs: seq<Change>, hidden: map<string, int>, p: string) {
    p in manifest && manifest[p].consumer == 0 && !Listed(cs, p) && UnderHidden(p, hidden)
  }

  method ReplacedDeletions(manifest: map<string, Baseline>, cs: seq<Change>) returns (out: seq<string>)
    requires DistinctChanges(cs) && forall p :: p in manifest ==> Rooted(p)
    ensures Sorted(out, StringLe) && Distinct(out)
    ensures forall hidden, p :: HiddenOk(cs, hidden) ==> (p in out <==> SentUnder(manifest, cs, hidden, p))
  {
    var hidden := HiddenAt(cs);
    var listed := ListedPaths(cs);
    var found: seq<string> := [];
    var left := manifest.Keys;
    while left != {}
      invariant left <= manifest.Keys && Distinct(found)
      invariant forall p :: p in found <==> p in manifest && p !in left && SentUnder(manifest, cs, hidden, p)
      decreases |left|
    {
      var p :| p in left;
      if p !in listed && manifest[p].consumer == 0 {
        var yes := IsUnderHidden(p, hidden);
        if yes {
          found := found + [p];
        }
      }
      left := left - {p};
    }
    out := SortDistinct(found);
    forall hidden', p | HiddenOk(cs, hidden') ensures p in out <==> SentUnder(manifest, cs, hidden', p) {
      HiddenUnique(cs, hidden, hidden');
    }
  }

  lemma {:induction false} HiddenUnique(cs: seq<Change>, a: map<string, int>, b: map<string, int>)
    requires HiddenOk(cs, a) && HiddenOk(cs, b)
    ensures a == b
  {
    forall dir ensures dir in a <==> dir in b {
      if dir in a { assert HiddenOf(cs, dir, a[dir]); }
      if dir in b { assert HiddenOf(cs, dir, b[dir]); }
    }
    forall dir | dir in a ensures a[dir] == b[dir] {
      assert HiddenOf(cs, dir, a[dir]);
    }
  }

  /** The consumer was asked about a candidate and does not have it. Candidates go
      in chunks; nothing after a chunk that failed counts. */
  ghost predicate ConfirmedGone(candidates: seq<string>, answers: seq<Option<set<string>>>, p: string) {
    exists i :: 0 <= i < |candidates| && candidates[i] == p && AnsweredGone(candidates, answers, i)
  }

  ghost predicate AnsweredGone(candidates: seq<string>, answers: seq<Option<set<string>>>, i: nat)
    requires i < |candidates|
  {
    && i / PRESENT_CHUNK < |answers|
    && (forall k :: 0 <= k <= i / PRESENT_CHUNK ==> answers[k].Some?)
    && candidates[i] !in answers[i / PRESENT_CHUNK].value
  }

  method ConfirmedAbsent(candidates: seq<string>, answers: seq<Option<set<string>>>) returns (gone: seq<string>)
    ensures (forall p :: p in gone <==> ConfirmedGone(candidates, answers, p))
      && (Distinct(candidates) ==> Distinct(gone))
  {
    gone := [];
    var i := 0;
    while i < |candidates| && i / PRESENT_CHUNK < |answers| && answers[i / PRESENT_CHUNK].Some?
      invariant 0 <= i <= |candidates|
      invariant forall k :: 0 <= k < |answers| && k * PRESENT_CHUNK < i ==> answers[k].Some?
      invariant forall p :: p in gone <==>
        exists j :: 0 <= j < i && candidates[j] == p && AnsweredGone(candidates, answers, j)
      invariant Distinct(candidates) ==> Distinct(gone)
      decreases |candidates| - i
    {
      assert forall k :: 0 <= k <= i / PRESENT_CHUNK ==> answers[k].Some?;
      if candidates[i] !in answers[i / PRESENT_CHUNK].value {
        assert Distinct(candidates) ==> candidates[i] !in gone;
        gone := gone + [candidates[i]];
      }
      assert AnsweredGone(candidates, answers, i) <==> candidates[i] !in answers[i / PRESENT_CHUNK].value;
      i := i + 1;
    }
    StopsThere(candidates, answers, i);
  }

  lemma {:induction false} StopsThere(candidates: seq<string>, answers: seq<Option<set<string>>>, i: nat)
    requires i <= |candidates|
    requires i == |candidates| || i / PRESENT_CHUNK >= |answers| || answers[i / PRESENT_CHUNK].None?
    ensures forall j :: i <= j < |candidates| ==> !AnsweredGone(candidates, answers, j)
  {
    forall j | i <= j < |candidates| ensures !AnsweredGone(candidates, answers, j) {
      assert j / PRESENT_CHUNK >= i / PRESENT_CHUNK;
    }
  }

  // ----- what this machine had there

  /** A path this machine had under a removal with a known time when it was first
      seen, still has, never sent, and the consumer does not list. */
  ghost predicate UnsentUnder(manifest: map<string, Baseline>, cs: seq<Change>, hidden: map<string, int>,
      walks: map<string, Listing>, here: set<string>, p: string)
  {
    && p !in manifest && !Listed(cs, p) && p in here
    && exists dir :: dir in hidden && WalkedFor(walks, dir, hidden[dir], p)
  }

  ghost predicate WalkedFor(walks: map<string, Listing>, dir: string, at: int, p: string) {
    at != 0 && dir in walks && walks[dir].at == at && p in walks[dir].paths
  }

  ghost predicate Candidate(manifest: map<string, Baseline>, cs: seq<Change>, hidden: map<string, int>,
      walks: map<string, Listing>, here: set<string>, p: string)
  {
    SentUnder(manifest, cs, hidden, p) || UnsentUnder(manifest, cs, hidden, walks, here, p)
  }

  /** Listings are of what lies under their directory. */
  ghost predicate WalksOk(walks: map<string, Listing>) {
    forall dir, p :: dir in walks && p in walks[dir].paths ==> Above(dir, p) && Rooted(p)
  }

  /** One directory is listed once for each removal of it. */
  ghost predicate WalkedOnce(hidden: map<string, int>, was: map<string, Listing>, walks: map<string, Listing>) {
    forall dir :: dir in was && dir in hidden && was[dir].at == hidden[dir] ==> dir in walks && walks[dir] == was[dir]
  }

  class Removals {
    var walks: map<string, Listing>

    ghost predicate Valid()
      reads this
    {
      WalksOk(walks)
    }

    constructor ()
      ensures Valid() && walks == map[]
    {
      walks := map[];
    }

    /** The listing made for a removal, by `now` the first time it is asked for. */
    method Walked(dir: string, at: int, now: seq<string>) returns (paths: seq<string>)
      requires Valid() && forall p :: p in now ==> Above(dir, p) && Rooted(p)
      modifies this
      ensures Valid() && dir in walks && walks[dir] == Listing(at, paths)
      ensures forall d :: d != dir ==> (d in walks <==> d in old(walks)) && (d in walks ==> walks[d] == old(walks)[d])
      ensures dir in old(walks) && old(walks)[dir].at == at ==> walks == old(walks)
    {
      if dir in walks && walks[dir].at == at {
        paths := walks[dir].paths;
        return;
      }
      walks := walks[dir := Listing(at, now)];
      paths := now;
    }

    /** What this machine has under the removals that the cache never held. */
    method UnheldUnder(manifest: map<string, Baseline>, cs: seq<Change>, hidden: map<string, int>,
        tree: map<string, seq<string>>, here: set<string>) returns (out: seq<string>)
      requires Valid() && forall dir, p :: dir in tree && p in tree[dir] ==> Above(dir, p) && Rooted(p)
      modifies this
      ensures Valid() && WalkedOnce(hidden, old(walks), walks)
      ensures forall p :: p in out <==> UnsentUnder(manifest, cs, hidden, walks, here, p)
    {
      var listed := ListedPaths(cs);
      out := [];
      var left := hidden.Keys;
      while left != {}
        invariant Valid() && left <= hidden.Keys
        invariant forall dir ::
          dir in left ==> (dir in walks <==> dir in old(walks)) && (dir in walks ==> walks[dir] == old(walks)[dir])
        invariant WalkedOnce(hidden, old(walks), walks)
        invariant forall p :: p in out <==>
          p !in manifest && p !in listed && p in here && FromDone(walks, hidden, left, p)
        decreases |left|
      {
        var dir :| dir in left;
        ghost var was, leftWas := walks, left;
        left := left - {dir};
        if hidden[dir] != 0 {
          var paths := Walked(dir, hidden[dir], if dir in tree then tree[dir] else []);
          out := out + Unlisted(manifest, listed, here, paths);
          DoneMore(was, walks, hidden, leftWas, dir);
        } else {
          DoneMore(was, walks, hidden, leftWas, dir);
        }
      }
    }

    /** The deletions the removals imply, confirmed by the consumer. */
    method ImpliedDeletions(manifest: map<string, Baseline>, cs: seq<Change>, tree: map<string, seq<string>>,
        here: set<string>, answers: seq<Option<set<string>>>)
      returns (out: seq<Change>, ghost hidden: map<string, int>, ghost candidates: seq<string>)
      requires Valid() && DistinctChanges(cs) && forall p :: p in manifest ==> Rooted(p)
      requires forall dir, p :: dir in tree && p in tree[dir] ==> Above(dir, p) && Rooted(p)
      modifies this
      ensures Valid() && HiddenOk(cs, hidden) && WalkedOnce(hidden, old(walks), walks) && Distinct(candidates)
      ensures forall p :: p in candidates <==> Candidate(manifest, cs, hidden, walks, here, p)
      ensures forall d ::
        d in out ==> ImpliedBy(manifest, cs, hidden, walks, here, d) && ConfirmedGone(candidates, answers, d.path)
      ensures forall p :: ConfirmedGone(candidates, answers, p) ==> exists d :: d in out && d.path == p
      ensures DistinctChanges(out)
        && (DistinctChanges(cs + out) <==>
          forall c :: c in cs && c.replaced ==> !ConfirmedGone(candidates, answers, c.path))
    {
      var hid := HiddenAt(cs);
      hidden := hid;
      var sent := ReplacedDeletions(manifest, cs);
      var unsent := UnheldUnder(manifest, cs, hid, tree, here);
      var found := SortCompact(sent + unsent);
      candidates := found;
      forall p ensures p in found <==> Candidate(manifest, cs, hid, walks, here, p) {
        assert p in found <==> p in sent || p in unsent;
      }
      AllRooted(manifest, cs, hid, walks, here);
      var gone := ConfirmedAbsent(found, answers);
      forall p | p in gone ensures Candidate(manifest, cs, hid, walks, here, p) {
        assert ConfirmedGone(found, answers, p);
        assert p in found;
      }
      out := Stamp(gone, hid);
      forall d | d in out
        ensures ImpliedBy(manifest, cs, hidden, walks, here, d) && ConfirmedGone(candidates, answers, d.path) {
        assert d.path in gone && Candidate(manifest, cs, hidden, walks, here, d.path);
      }
      ApartUnless(cs, out);
      assert forall d :: d in out ==> !Listed(cs, d.path);
    }
  }

  /** Each path gone as a deletion at the earliest removal above it. */
  method Stamp(gone: seq<string>, hidden: map<string, int>) returns (out: seq<Change>)
    requires forall p :: p in gone ==> Rooted(p)
    ensures forall d ::
      d in out ==> d.path in gone && d == Removal(d.path, d.changed) && Earliest(d.path, hidden, d.changed)
    ensures forall p :: p in gone ==> exists d :: d in out && d.path == p
    ensures Distinct(gone) ==> DistinctChanges(out)
  {
    out := [];
    var i := 0;
    while i < |gone|
      invariant 0 <= i <= |gone| && |out| == i && forall j :: 0 <= j < i ==> out[j].path == gone[j]
      invariant forall d ::
        d in out ==> d.path in gone && d == Removal(d.path, d.changed) && Earliest(d.path, hidden, d.changed)
    {
      assert gone[i] in gone;
      var at := EarliestHidden(gone[i], hidden);
      out := out + [Removal(gone[i], at)];
      i := i + 1;
    }
    forall p | p in gone ensures exists d :: d in out && d.path == p {
      var j :| 0 <= j < |gone| && gone[j] == p;
      assert out[j] in out;
    }
  }

  /** Two lists, each with every path once, together have one twice exactly if a path
      is in both. */
  lemma {:induction false} ApartUnless(cs: seq<Change>, out: seq<Change>)
    requires DistinctChanges(cs) && DistinctChanges(out)
    ensures DistinctChanges(cs + out) <==> forall c, d :: c in cs && d in out ==> c.path != d.path
  {
    var all := cs + out;
    if DistinctChanges(all) {
      forall c, d | c in cs && d in out ensures c.path != d.path {
        var i, j :| 0 <= i < |cs| && cs[i] == c && 0 <= j < |out| && out[j] == d;
        assert all[i] == c && all[|cs| + j] == d;
      }
    }
    if forall c, d :: c in cs && d in out ==> c.path != d.path {
      forall i, j | 0 <= i < j < |all| ensures all[i].path != all[j].path {
        if i < |cs| <= j {
          assert cs[i] in cs && out[j - |cs|] in out;
        }
      }
    }
  }

  lemma {:induction false} AllRooted(manifest: map<string, Baseline>, cs: seq<Change>, hidden: map<string, int>,
      walks: map<string, Listing>, here: set<string>)
    requires WalksOk(walks) && forall p :: p in manifest ==> Rooted(p)
    ensures forall p ::
      Candidate(manifest, cs, hidden, walks, here, p) ==> Rooted(p) && UnderHidden(p, hidden) && !Listed(cs, p)
  {
    forall p | UnsentUnder(manifest, cs, hidden, walks, here, p) ensures Rooted(p) && UnderHidden(p, hidden) {
      var dir :| dir in hidden && WalkedFor(walks, dir, hidden[dir], p);
      assert Above(dir, p);
    }
  }

  /** What a deletion has to be to be implied by the changes. */
  ghost predicate ImpliedBy(manifest: map<string, Baseline>, cs: seq<Change>, hidden: map<string, int>,
      walks: map<string, Listing>, here: set<string>, d: Change)
  {
    && d == Change(d.path, 0, 0, true, false, "", d.changed, false, NO_BITS)
    && UnderHidden(d.path, hidden) && !Listed(cs, d.path)
    && Earliest(d.path, hidden, d.changed)
    && Candidate(manifest, cs, hidden, walks, here, d.path)
  }

  function Removal(p: string, at: int): Change {
    Change(p, 0, 0, true, false, "", at, false, NO_BITS)
  }

  /** A file that goes by an implied deletion is still the one that was sent, or
      last changed here before the removal. */
  lemma {:induction false} ImpliedIsSafe(v: View, cs: seq<Change>, hidden: map<string, int>,
      walks: map<string, Listing>, here: set<string>, d: Change, a: Action)
    requires ImpliedBy(v.manifest, cs, hidden, walks, here, d)
    requires a in Decided(v, d) && d.path in v.local
    ensures a.kind == Delete || (a.kind == Conflict && !a.wins)
    ensures a.kind == Delete ==>
              || (d.path in v.manifest && Untouched(v.manifest[d.path], v.local[d.path]))
              || (d.path in v.ctimes && d.changed != 0 && ConsumerLater(d.changed, v.ctimes[d.path], v.skew, v.margin)
                  && forall dir :: Above(dir, d.path) && dir in hidden && hidden[dir] != 0 ==> d.changed <= hidden[dir])
  {
    OneIsLicensed(v, d);
    TouchShape(v, d);
    RemovalKinds(v, d);
  }

  lemma {:induction false} RemovalKinds(v: View, d: Change)
    requires d == Removal(d.path, d.changed) && d.path in v.local
    ensures forall a :: a in Decided(v, d) ==> a.kind == Delete || (a.kind == Conflict && !a.wins)
  {
  }

  // ----- sorted without repeats

  function Compact(s: seq<string>): (r: seq<string>)
    ensures forall p :: p in r <==> p in s
    ensures s != [] ==> r != [] && r[0] == s[0]
  {
    if |s| <= 1 then s
    else
      assert s == [s[0]] + s[1..];
      if s[0] == s[1] then Compact(s[1..]) else [s[0]] + Compact(s[1..])
  }

  lemma {:induction false} CompactDistinct(s: seq<string>, le: (string, string) -> bool)
    requires TotalOrder(le) && Sorted(s, le)
    ensures Distinct(Compact(s)) && Sorted(Compact(s), le)
  {
    if |s| > 1 {
      CompactDistinct(s[1..], le);
      if s[0] != s[1] {
        forall p | p in Compact(s[1..]) ensures p != s[0] && le(s[0], p) {
          var k :| 1 <= k < |s| && s[k] == p;
        }
      }
    }
  }

  method SortCompact(found: seq<string>) returns (out: seq<string>)
    ensures Sorted(out, StringLe) && Distinct(out) && forall p :: p in out <==> p in found
  {
    var s := Sort(found, StringLe);
    StringOrder();
    SortIsSorted(found, StringLe);
    CompactDistinct(s, StringLe);
    out := Compact(s);
    forall p ensures p in s <==> p in found {
      assert p in s <==> p in multiset(s);
      assert p in found <==> p in multiset(found);
    }
  }

  ghost predicate FromDone(walks: map<string, Listing>, hidden: map<string, int>, left: set<string>, p: string) {
    exists dir :: dir in hidden && dir !in left && WalkedFor(walks, dir, hidden[dir], p)
  }

  lemma {:induction false} DoneMore(was: map<string, Listing>, walks: map<string, Listing>, hidden: map<string, int>,
      left: set<string>, dir: string)
    requires dir in left && dir in hidden
    requires forall d :: d != dir ==> (d in walks <==> d in was) && (d in walks ==> walks[d] == was[d])
    ensures forall p :: FromDone(walks, hidden, left - {dir}, p) <==>
      FromDone(was, hidden, left, p) || WalkedFor(walks, dir, hidden[dir], p)
  {
    forall p
      ensures FromDone(walks, hidden, left - {dir}, p) <==>
        FromDone(was, hidden, left, p) || WalkedFor(walks, dir, hidden[dir], p) {
      if FromDone(walks, hidden, left - {dir}, p) {
        var d :| d in hidden && d !in left - {dir} && WalkedFor(walks, d, hidden[d], p);
        assert d != dir ==> WalkedFor(was, d, hidden[d], p);
      }
      if FromDone(was, hidden, left, p) {
        var d :| d in hidden && d !in left && WalkedFor(was, d, hidden[d], p);
        assert d != dir && WalkedFor(walks, d, hidden[d], p);
      }
    }
  }

  function Unlisted(manifest: map<string, Baseline>, listed: set<string>, here: set<string>,
      paths: seq<string>): (out: seq<string>)
    ensures forall p :: p in out <==> p in paths && p !in manifest && p !in listed && p in here
  {
    if paths == [] then [] else
    (if paths[0] !in manifest && paths[0] !in listed && paths[0] in here then [paths[0]] else [])
    + Unlisted(manifest, listed, here, paths[1..])
  }
}
