/** Which edits made here are withheld from the cache because the container wrote
    later, and whether write-back then agrees. */
module Invalidate {
  import opened Basics
  import opened ShareView
  import opened Decide
  import opened DecideLaws

  /** Sending the file here over a listed change loses nothing of the consumer's. */
  predicate FillsOwn(v: View, c: Change) {
    var p := c.path;
    if c.link != "" then false
    else if c.deleted && c.changed == 0 then p !in v.manifest
    else if c.deleted then p in v.ctimes && !ConsumerLater(c.changed, v.ctimes[p], v.skew, v.margin)
    else if p in v.manifest then Carries(v.manifest[p], c)
    else p in v.local && SameContent(c, v.local[p])
  }

  /** The consumer's own change, not a copy of this machine's. */
  predicate ConsumersOwn(v: View, c: Change) {
    !c.replaced && !c.dir && !FillsOwn(v, c)
  }

  /** An edit of the path is not sent, because the consumer changed it later. */
  predicate Withheld(v: View, c: Change) {
    && ConsumersOwn(v, c) && c.changed != 0 && c.path in v.ctimes
    && ConsumerLater(c.changed, v.ctimes[c.path], v.skew, v.margin)
  }

  /** A file of the list that this machine sent, or has as it is. */
  predicate OfThisMachine(v: View, c: Change) {
    && c.link == "" && !c.deleted
    && if c.path in v.manifest then Carries(v.manifest[c.path], c)
       else c.path in v.local && SameContent(c, v.local[c.path])
  }

  /** An edit is withheld exactly for a file, a link or a removal of the consumer's own
      that is known to be later here by more than the margin. */
  lemma {:induction false} WithheldExactly(v: View, c: Change)
    ensures Withheld(v, c) <==>
      && !c.replaced && !c.dir && c.changed != 0 && c.path in v.ctimes && !OfThisMachine(v, c)
      && c.changed - v.skew - v.ctimes[c.path] > v.margin
  {
  }

  predicate WithheldPath(v: View, changed: map<string, Change>, p: string)
    requires forall q :: q in changed ==> changed[q].path == q
  {
    p in changed && Withheld(v, changed[p])
  }

  /** The edited paths still to send, in order. Of a share whose changes are not
      carried back nothing is withheld, nor when the consumer cannot be asked. */
  method WithoutLaterConsumerChanges(v: View, ephemeral: bool, answer: Option<map<string, Change>>,
      entries: seq<string>) returns (out: seq<string>)
    requires answer.Some? ==> forall q :: q in answer.value ==> answer.value[q].path == q
    ensures forall p :: p in out <==> p in entries && (ephemeral || answer.None? || !WithheldPath(v, answer.value, p))
    ensures out == if ephemeral || answer.None? then entries else Sent(v, answer.value, entries)
  {
    if ephemeral || answer.None? {
      return entries;
    }
    var changed := answer.value;
    out := [];
    var i := 0;
    while i < |entries|
      invariant 0 <= i <= |entries| && out == Sent(v, changed, entries[..i])
      invariant forall p :: p in out <==> p in entries[..i] && !WithheldPath(v, changed, p)
    {
      var p := entries[i];
      assert entries[..i + 1] == entries[..i] + [p] && entries[..i + 1][..i] == entries[..i];
      if p !in changed || !ConsumersOwn(v, changed[p]) || changed[p].changed == 0 || p !in v.ctimes {
        out := out + [p];
      } else if !ConsumerLater(changed[p].changed, v.ctimes[p], v.skew, v.margin) {
        out := out + [p];
      }
      i := i + 1;
    }
    assert entries[..i] == entries;
  }

  ghost function Sent(v: View, changed: map<string, Change>, entries: seq<string>): seq<string>
    requires forall q :: q in changed ==> changed[q].path == q
  {
    if entries == [] then []
    else
      var p := entries[|entries| - 1];
      Sent(v, changed, entries[..|entries| - 1]) + if WithheldPath(v, changed, p) then [] else [p]
  }

  /** A change under a directory that is the container's own file or link. */
  predicate IsWork(v: View, dir: string, c: Change) {
    Above(dir, c.path) && !c.deleted && !c.replaced && !c.dir && !FillsOwn(v, c)
  }

  /** What counts as work: files and links under the directory that are there still and
      not this machine's. */
  lemma {:induction false} WorkExactly(v: View, dir: string, c: Change)
    ensures IsWork(v, dir, c) <==>
      Above(dir, c.path) && !c.deleted && !c.replaced && !c.dir && !OfThisMachine(v, c)
  {
  }

  ghost predicate HoldsWork(v: View, dir: string, cs: seq<Change>) {
    exists i :: 0 <= i < |cs| && IsWork(v, dir, cs[i])
  }

  method HoldsConsumerWork(v: View, dir: string, cs: seq<Change>) returns (holds: bool)
    ensures holds <==> HoldsWork(v, dir, cs)
  {
    var i := 0;
    while i < |cs|
      invariant 0 <= i <= |cs| && forall j :: 0 <= j < i ==> !IsWork(v, dir, cs[j])
    {
      if IsWork(v, dir, cs[i]) {
        return true;
      }
      i := i + 1;
    }
    return false;
  }

  /** The directories removed here that may be dropped from the cache: gone, with not
      even a link in their place, and holding nothing of the container's. None when
      the container cannot be asked; all that are gone in a share whose changes are
      not carried back. */
  method DroppableDirs(v: View, links: set<string>, ephemeral: bool, dirs: seq<string>, cs: Option<seq<Change>>)
    returns (out: seq<string>)
    ensures forall d :: d in out <==>
      d in dirs && d !in v.local && d !in links && (ephemeral || (cs.Some? && !HoldsWork(v, d, cs.value)))
  {
    out := [];
    if cs.None? && !ephemeral {
      return;
    }
    var i := 0;
    while i < |dirs|
      invariant 0 <= i <= |dirs|
      invariant forall d :: d in out <==>
        d in dirs[..i] && d !in v.local && d !in links && (ephemeral || !HoldsWork(v, d, cs.value))
    {
      assert dirs[..i + 1] == dirs[..i] + [dirs[i]];
      if dirs[i] !in v.local && dirs[i] !in links {
        var holds := false;
        if !ephemeral {
          holds := HoldsConsumerWork(v, dirs[i], cs.value);
        }
        if !holds {
          out := out + [dirs[i]];
        }
      }
      i := i + 1;
    }
    assert dirs[..i] == dirs;
  }

  /** Dropping such a directory loses nothing: of every file listed under it and gone
      here, write-back has nothing to bring. */
  lemma {:induction false} DropLosesNothing(v: View, dir: string, cs: seq<Change>, c: Change)
    requires !HoldsWork(v, dir, cs) && c in cs && Above(dir, c.path) && c.File() && c.path !in v.local
    ensures Decided(v, c) == []
  {
    var i :| 0 <= i < |cs| && cs[i] == c;
    assert !IsWork(v, dir, cs[i]);
  }

  /** The container's version goes over the file here, or already is the file's. */
  ghost predicate ContainerWins(v: View, c: Change) {
    exists a :: a in Decided(v, c) && (a.Writes() || a.kind == Chmod)
  }

  ghost predicate KeptHere(v: View, c: Change) {
    exists a :: a in Decided(v, c) && a.kind == Conflict && !a.wins
  }

  /** A withheld edit is never also kept here: write-back, in the same state, takes
      the container's version or finds that the contents agree. */
  lemma {:induction false} WithheldIsCarried(v: View, c: Change)
    requires c.File() && v.margin >= 0 && c.path in v.local && !v.local[c.path].isDir && Withheld(v, c)
    ensures !KeptHere(v, c)
    ensures ContainerWins(v, c) || SameContent(c, v.local[c.path])
  {
    var p := c.path;
    if SameContent(c, v.local[p]) {
      CopyWithheld(v, c);
    } else {
      var a := Decided(v, c)[0];
      assert a in Decided(v, c) && a.Writes();
    }
  }

  lemma {:induction false} CopyWithheld(v: View, c: Change)
    requires c.File() && c.path in v.local && !v.local[c.path].isDir && Withheld(v, c)
      && SameContent(c, v.local[c.path])
    ensures forall a :: a in Decided(v, c) ==> a.kind == Chmod || a.kind == Adopt
  {
  }

  /** A withheld deletion is carried out, except for a held file changed here,
      which is kept although its edit was withheld. */
  lemma {:induction false} WithheldDeletion(v: View, c: Change)
    requires c.deleted && c.link == "" && c.path in v.local && !v.local[c.path].isDir && Withheld(v, c)
    ensures KeptHere(v, c) <==> c.path in v.manifest && !Untouched(v.manifest[c.path], v.local[c.path])
  {
    var a := Decided(v, c)[0];
    assert Decided(v, c) == [a];
  }

  /** For a file both sides changed, with times known on both, invalidation and
      write-back name the same winner except in one window: a held file the
      consumer wrote later, but not by more than the margin, or one whose size and
      time still are the baseline's. */
  lemma {:induction false} SameWinner(v: View, c: Change)
    requires c.File() && v.margin >= 0 && c.path in v.local && !v.local[c.path].isDir
      && !SameContent(c, v.local[c.path])
    requires c.changed != 0 && c.path in v.ctimes && (c.path in v.manifest ==> !Carries(v.manifest[c.path], c))
    ensures var later := ConsumerLater(c.changed, v.ctimes[c.path], v.skew, 0);
            var byMargin := ConsumerLater(c.changed, v.ctimes[c.path], v.skew, v.margin);
            (Withheld(v, c) <==> ContainerWins(v, c)) <==>
            byMargin || c.path !in v.manifest || (!Untouched(v.manifest[c.path], v.local[c.path]) && !later)
  {
    var a := Decided(v, c)[0];
    assert Decided(v, c) == [a];
    assert a.kind == Conflict || a.kind == Write;
  }

  /** The window is there: the edit here replaces the container's version in the
      cache, while write-back would have the container's version replace the edit. */
  lemma {:induction false} WinnersDiffer(p: string)
    ensures var v :=
      View(map[p := Baseline(1, 0, 0)], {p}, map[p := Info(2, 5 * SECOND, NO_BITS, false)], map[p := 5 * SECOND], 0, 10,
      NO_BITS);
            var c := Change(p, 3, 7 * SECOND, false, false, "", 5 * SECOND + 10, false, NO_BITS);
            !Withheld(v, c) && ContainerWins(v, c)
  {
    var v :=
      View(map[p := Baseline(1, 0, 0)], {p}, map[p := Info(2, 5 * SECOND, NO_BITS, false)], map[p := 5 * SECOND], 0, 10,
      NO_BITS);
    var c := Change(p, 3, 7 * SECOND, false, false, "", 5 * SECOND + 10, false, NO_BITS);
    var a := Decided(v, c)[0];
    assert a in Decided(v, c) && a.Writes();
  }
}
