/** A whole pass while nobody else is at work: it carries out every decision but
    those something it names stands against, and a landing leaves what landed
    before it settled. */
module PassRun {
  import opened Basics
  import opened ShareView
  import opened Decide
  import opened DecideLaws
  import Links
  import Sorting
  import WP = WritePass

  /** What a decision looks at, and the symbolic links. */
  datatype State = State(v: View, links: map<string, WP.Symlink>)

  /** One action to carry out, with what comes with it: the time and the mode its
      file arrives with, the change time it leaves, what its link leads to. */
  datatype Work = Work(c: Change, a: Action, mod: int, perm: Mode, at: Option<int>, leads: Option<WP.Target>)

  predicate OfLink(w: Work) {
    w.a.kind == Link
  }

  /** A filesystem: what is above a path, or a link, is a directory. */
  ghost predicate FsOk(s: State) {
    forall q, p {:trigger Above(q, p)} ::
      (p in s.v.local || p in s.links) && Above(q, p) ==> q in s.v.local && s.v.local[q].isDir
  }

  /** Change times are of what is here. */
  ghost predicate TimesOk(v: View) {
    v.ctimes.Keys <= v.local.Keys
  }

  // ----- links

  /** What is decided about a reported link. */
  function LinkAgain(c: Change, s: State): Option<Action> {
    Links.DecideLink(s.v.manifest, c, WP.LinkAt(s.v.local, s.links, c.path))
  }

  predicate LinkSettled(c: Change, s: State) {
    LinkAgain(c, s).Some? ==> LinkAgain(c, s).value.kind != Link
  }

  /** The consumer has something there, as opposed to a removal. */
  predicate Lives(c: Change) {
    c.link != "" || c.replaced || c.dir || !c.deleted
  }

  /** The consumer reports something under a path it reports as a link: the list is
      of two moments. */
  ghost predicate UnderLink(cs: seq<Change>, c: Change) {
    Lives(c) && exists d :: d in cs && d.link != "" && Above(d.path, c.path)
  }

  // ----- what can stand against a change

  /** A file, or a link that leads nowhere, where a directory is needed. */
  ghost predicate Bars(s: State, q: string, p: string) {
    Above(q, p) && if q in s.v.local then !s.v.local[q].isDir else q in s.links
  }

  ghost predicate Blocked(s: State, p: string) {
    exists q :: Bars(s, q, p)
  }

  /** Something is in a directory, if only a link that leads nowhere. */
  ghost predicate StillHolds(s: State, p: string, q: string) {
    p in s.v.local && (q in s.v.local || q in s.links) && Above(p, q)
  }

  /** Nothing is at the path, and nothing can be put there: a file or a link that
      leads nowhere is in the way. */
  ghost predicate Barred(s: State, p: string) {
    p !in s.v.local && (Blocked(s, p) || p in s.links)
  }

  /** A new file whose execute bit is not the one reported, or a file nobody may
      read that was to be made executable. */
  ghost predicate BitLost(s0: State, w: Work, s: State) {
    WriteLanded(s0.v, w.c, w.a, w.perm, s.v) && !BitLands(s0.v, w.c, w.a, InfoAt(s0.v, w.c.path), w.perm)
  }

  /** Why an action that was tried is not done: a directory to go is a link, or
      still holds something; a directory, a file or a link cannot be put there; an
      execute bit does not land. */
  ghost predicate Stuck(s0: State, w: Work, s: State) {
    var p := w.c.path;
    match w.a.kind
    case Delete => w.a.dir && p in s.v.local && (p in s.links || exists q :: StillHolds(s, p, q))
    case Chmod => w.a.exec > 0 && p in s0.v.local && !Readable(s0.v.local[p].mode)
    case Mkdir => Barred(s, p)
    case Link => p !in s.v.local && p !in s.links && Blocked(s, p)
    case Adopt => false
    case _ => Barred(s, p) || BitLost(s0, w, s)
  }

  /** The input that a directory is kept for ever on: it holds a link that leads
      nowhere. Its removal is decided again every time and cannot be carried out, and
      the removal of the link is never decided, since nothing is seen there. */
  lemma {:induction false} LinkKeepsDir(s: State, w: Work, d: Change)
    requires s.v == View(map[], {}, map["/d" := Info(0, 0, NO_BITS, true)], map["/d" := 0], 0, 0, NO_BITS)
    requires s.links == map["/d/l" := WP.Symlink("nowhere", 0)]
    requires w.c == Change("/d", 0, 0, true, false, "", SECOND, false, NO_BITS) && Decided(s.v, w.c) == [w.a]
    requires d == Change("/d/l", 0, 0, true, false, "", SECOND, false, NO_BITS)
    ensures FsOk(s) && TimesOk(s.v) && w.a.Moves() && Stuck(s, w, s) && Decided(s.v, d) == []
  {
    assert "/d/l"[..2] == "/d" && Above("/d", "/d/l");
    assert StillHolds(s, "/d", "/d/l");
    forall q, p | (p in s.v.local || p in s.links) && Above(q, p) ensures q == "/d" {
      assert |q| == 2;
    }
  }

  // ----- what counts as settled

  /** The list names a file or a removal, and something under it: a directory has
      come to be there on the way to that, later than the change. */
  ghost predicate Overtaken(c: Change, s: State) {
    var p := c.path;
    && p in s.v.local && s.v.local[p].isDir
    && (p in s.v.ctimes ==> !ConsumerLater(c.changed, s.v.ctimes[p], s.v.skew, s.v.margin))
  }

  /** A removal of what is not here. */
  ghost predicate Vanished(c: Change, s: State) {
    !Lives(c) && c.path !in s.v.local
  }

  ghost predicate Settled(s0: State, c: Change, s: State) {
    if c.link != "" then LinkSettled(c, s) else Carried(s0.v, c, s.v) || Overtaken(c, s) || Vanished(c, s)
  }

  ghost predicate DoneOk(s0: State, cs: seq<Change>, w: Work, s: State) {
    UnderLink(cs, w.c) || Settled(s0, w.c, s) || Stuck(s0, w, s)
  }

  /** What a pass may be asked to do about a change. */
  ghost predicate Chosen(s0: State, w: Work) {
    if OfLink(w) then w.c.link != "" && LinkAgain(w.c, s0) == Some(w.a)
    else w.a in Decided(s0.v, w.c) && (w.a.Moves() || w.a.kind == Adopt)
  }

  ghost predicate Undone(s0: State, w: Work, s: State) {
    if OfLink(w) then !LinkSettled(w.c, s) else !Carried(s0.v, w.c, s.v)
  }

  /** What is stuck is not done. */
  lemma {:induction false} StuckIsLeft(s0: State, w: Work, s: State)
    requires Stuck(s0, w, s) && Chosen(s0, w)
    ensures Undone(s0, w, s)
  {
    if !OfLink(w) {
      KindShape(s0.v, w.c, w.a);
      if w.a.kind == Chmod {
        ChmodShape(s0.v, w.c, w.a);
      }
    }
  }

  /** What is settled moves nothing when it is decided again. */
  lemma {:induction false} SettledStays(s0: State, c: Change, s: State)
    requires Settled(s0, c, s) && s.v.skew == s0.v.skew && s.v.margin == s0.v.margin && s.v.exec == s0.v.exec
    ensures forall a :: a in Decided(s.v, c) ==> !a.Moves()
  {
    if c.link == "" && Carried(s0.v, c, s.v) {
      OneSettles(s0.v, c, s.v);
    }
  }

  // ----- one step, seen from the other paths

  /** At a path nothing changes, but that a directory may be made there on the way to
      the path of the step. */
  ghost predicate Kept(s: State, s': State, w: Work, q: string) {
    && (q in s.links <==> q in s'.links) && (q in s.links ==> s.links[q] == s'.links[q])
    && (q in s.v.local ==> q in s'.v.local && s'.v.local[q] == s.v.local[q] && SameTime(s, s', q))
    && (q !in s.v.local && q in s'.v.local ==> Came(s, s', w, q))
    && (q !in s.v.local && q !in s'.v.local ==> q !in s'.v.ctimes)
  }

  ghost predicate SameTime(s: State, s': State, q: string) {
    (q in s.v.ctimes <==> q in s'.v.ctimes) && (q in s.v.ctimes ==> s.v.ctimes[q] == s'.v.ctimes[q])
  }

  ghost predicate Came(s: State, s': State, w: Work, q: string) {
    && q in s'.v.local && s'.v.local[q].isDir && Above(q, w.c.path) && !Barred(s, q) && w.a.kind != Delete
    && (q in s'.v.ctimes ==> w.at == Some(s'.v.ctimes[q]))
  }

  /** What was seen through a link goes with it. */
  ghost predicate Cut(s': State, q: string) {
    q !in s'.v.local && q !in s'.links && q !in s'.v.ctimes
  }

  /** `cut` says that a link was landed. */
  ghost predicate Elsewhere(s: State, s': State, w: Work, cut: bool, q: string) {
    && BaseAt(s.v, q) == BaseAt(s'.v, q) && (q in s.v.recorded <==> q in s'.v.recorded)
    && if cut && Above(w.c.path, q) then Cut(s', q) else Kept(s, s', w, q)
  }

  /** At the path itself: only a deletion takes anything away, and it takes what is
      there; a link replaces only a link. */
  ghost predicate Here(s: State, s': State, w: Work) {
    var p, del := w.c.path, w.a.kind == Delete;
    && (p in s.v.recorded && p !in s'.v.recorded ==> del && p in s.v.local)
    && (!del && !OfLink(w) && p in s.v.local ==> p in s'.v.local && s'.v.local[p].isDir == s.v.local[p].isDir)
    && (!OfLink(w) && p in s.links && p !in s.v.local ==> p in s'.links && p !in s'.v.local)
    && (OfLink(w) && p in s.links ==> p in s'.links)
    && (OfLink(w) && p in s.v.local && p !in s.links ==> p in s'.v.local && s'.v.local[p] == s.v.local[p])
  }

  ghost predicate StepAt(s: State, s': State, w: Work, cut: bool) {
    && s'.v.skew == s.v.skew && s'.v.margin == s.v.margin && s'.v.exec == s.v.exec && Here(s, s', w)
      && (cut ==> OfLink(w))
    && (forall q {:trigger Elsewhere(s, s', w, cut, q)} :: q != w.c.path ==> Elsewhere(s, s', w, cut, q))
  }

  /** A step comes no earlier, by corrected clocks, than the changes it is for. */
  ghost predicate InTime(s: State, cs: seq<Change>, w: Work) {
    w.at.Some? ==> forall c :: c in cs ==> !ConsumerLater(c.changed, w.at.value, s.v.skew, s.v.margin)
  }

  /** A step of the pass over a list. */
  ghost predicate StepOf(s: State, s': State, cs: seq<Change>, w: Work, cut: bool) {
    && StepAt(s, s', w, cut) && FsOk(s) && TimesOk(s.v) && InTime(s, cs, w) && w.c in cs
      && (OfLink(w) ==> w.c.link != "")
  }

  // ----- what waits stays as it was

  /** All is as it was at the path. */
  ghost predicate Still(s0: State, s: State, p: string) {
    SameAt(s0.v, s.v, p) && (p in s0.links <==> p in s.links) && (p in s.links ==> s0.links[p] == s.links[p])
  }

  /** A change nothing was done about yet: all is as it was at its path, or a
      directory has come to be there, or what it removes went with a link. */
  ghost predicate Resting(s0: State, c: Change, s: State) {
    var p := c.path;
    && (Still(s0, s, p) || Vanished(c, s) || ((p !in s0.v.local || !Lives(c)) && p !in s.links && Overtaken(c, s)))
    && ((c.replaced || c.dir) && Held(s0.v.recorded, p) ==> p in s.v.local || Held(s.v.recorded, p))
  }

  ghost predicate AtRest(s0: State, cs: seq<Change>, c: Change, s: State) {
    UnderLink(cs, c) || Resting(s0, c, s)
  }

  /** Only a removal is cut off by a link. */
  lemma {:induction false} CutIsRemoval(s: State, s': State, cs: seq<Change>, w: Work, cut: bool, c: Change)
    requires StepOf(s, s', cs, w, cut) && c in cs && c.path != w.c.path && !UnderLink(cs, c)
    ensures if cut && Above(w.c.path, c.path) then Cut(s', c.path) && !Lives(c) else Kept(s, s', w, c.path)
    ensures BaseAt(s.v, c.path) == BaseAt(s'.v, c.path) && (c.path in s.v.recorded <==> c.path in s'.v.recorded)
  {
    assert Elsewhere(s, s', w, cut, c.path);
  }

  /** What the record holds at or under a path not here stays held: only the
      deletion of a file here takes a record away. */
  lemma {:induction false} HeldSteps(s: State, s': State, w: Work, cut: bool, q: string)
    requires StepAt(s, s', w, cut) && FsOk(s) && w.c.path != q && Kept(s, s', w, q)
    requires q in s.v.local || Held(s.v.recorded, q)
    ensures q in s'.v.local || Held(s'.v.recorded, q)
  {
    if q !in s.v.local {
      var r :| r in s.v.recorded && (r == q || Above(q, r));
      if r != w.c.path {
        assert Elsewhere(s, s', w, cut, r);
      }
      assert r in s'.v.recorded;
    }
  }

  lemma {:induction false} RestSteps(s0: State, c: Change, s: State, s': State, cs: seq<Change>, w: Work, cut: bool)
    requires AtRest(s0, cs, c, s) && StepOf(s, s', cs, w, cut) && c in cs && c.path != w.c.path
    ensures AtRest(s0, cs, c, s')
  {
    if !UnderLink(cs, c) {
      CutIsRemoval(s, s', cs, w, cut, c);
      if (c.replaced || c.dir) && Held(s0.v.recorded, c.path) {
        HeldSteps(s, s', w, cut, c.path);
      }
    }
  }

  /** A deletion leaves every other path as it was. */
  lemma {:induction false} StillSteps(s0: State, p: string, s: State, s': State, w: Work, cut: bool)
    requires Still(s0, s, p) && StepAt(s, s', w, cut) && w.a.kind == Delete && TimesOk(s.v) && p != w.c.path
    ensures Still(s0, s', p)
  {
    assert Elsewhere(s, s', w, cut, p);
  }

  // ----- what is done stays done

  lemma {:induction false} CarriedSteps(s0: State, c: Change, s: State, s': State, cs: seq<Change>, w: Work, cut: bool)
    requires Carried(s0.v, c, s.v) && s.v.exec == s0.v.exec && c.link == "" && !UnderLink(cs, c)
    requires StepOf(s, s', cs, w, cut) && c in cs && c.path != w.c.path
    ensures Settled(s0, c, s')
  {
    var p := c.path;
    CutIsRemoval(s, s', cs, w, cut, c);
    if Idle(s0.v, c) {
      QuietSteps(s0, c, s, s', cs, w, cut);
    } else {
      var a := Decided(s0.v, c)[0];
      KindShape(s0.v, c, a);
      if a.Writes() && Kept(s, s', w, p) {
        var perm :| BitLands(s0.v, c, a, InfoAt(s0.v, p), perm) && WriteLanded(s0.v, c, a, perm, s.v);
        assert WriteLanded(s0.v, c, a, perm, s'.v);
      }
    }
  }

  lemma {:induction false} QuietSteps(s0: State, c: Change, s: State, s': State, cs: seq<Change>, w: Work, cut: bool)
    requires Quiet(s0.v, c, s.v) && c.link == "" && !UnderLink(cs, c)
    requires StepOf(s, s', cs, w, cut) && c in cs && c.path != w.c.path
    ensures Quiet(s0.v, c, s'.v) || Overtaken(c, s') || Vanished(c, s')
  {
    CutIsRemoval(s, s', cs, w, cut, c);
    if c.replaced || c.dir {
      HeldSteps(s, s', w, cut, c.path);
    }
  }

  lemma {:induction false} SettledSteps(s0: State, c: Change, s: State, s': State, cs: seq<Change>, w: Work, cut: bool)
    requires Settled(s0, c, s) && s.v.exec == s0.v.exec && !UnderLink(cs, c)
    requires StepOf(s, s', cs, w, cut) && c in cs && c.path != w.c.path
    ensures Settled(s0, c, s')
  {
    if c.link == "" && Carried(s0.v, c, s.v) {
      CarriedSteps(s0, c, s, s', cs, w, cut);
    } else {
      CutIsRemoval(s, s', cs, w, cut, c);
    }
  }

  /** What kind of change each kind of action answers. */
  lemma {:induction false} KindShape(v: View, c: Change, a: Action)
    requires a in Decided(v, c)
    ensures c.link == "" && a.kind != Link && Decided(v, c) == [a]
    ensures a.kind == Delete ==> !Lives(c) && c.path in v.local && a.dir == v.local[c.path].isDir
    ensures a.kind == Adopt || a.kind == Chmod ==> c.path in v.local && !v.local[c.path].isDir
    ensures a.kind == Mkdir ==> c.path !in v.local
    ensures a.Writes() ==> c.File() && (c.path in v.local ==> !v.local[c.path].isDir)
  {
  }

  /** Deletions come first, each before the directories above it. */
  ghost predicate After(w: Work, next: Work) {
    w.c.path != next.c.path && (next.a.kind == Delete ==> w.a.kind == Delete && !Above(w.c.path, next.c.path))
  }

  lemma {:induction false} StuckSteps(s0: State, w: Work, s: State, s': State, cs: seq<Change>, next: Work, cut: bool)
    requires Stuck(s0, w, s) && Chosen(s0, w) && !UnderLink(cs, w.c) && w.c in cs
    requires StepOf(s, s', cs, next, cut) && After(w, next)
    ensures Stuck(s0, w, s') || Settled(s0, w.c, s')
  {
    CutIsRemoval(s, s', cs, next, cut, w.c);
    if !OfLink(w) {
      KindShape(s0.v, w.c, w.a);
    }
    if w.a.kind == Delete {
      if !(cut && Above(next.c.path, w.c.path)) && w.c.path !in s.links {
        HoldSteps(s, s', next, cut, w.c.path);
      }
    } else if Blocked(s, w.c.path) {
      BlockSteps(s, s', cs, next, cut, w.c);
    }
  }

  /** A directory that holds something holds something still. */
  lemma {:induction false} HoldSteps(s: State, s': State, w: Work, cut: bool, p: string)
    requires StepAt(s, s', w, cut) && FsOk(s) && p != w.c.path && (w.a.kind == Delete ==> !Above(p, w.c.path))
    requires Kept(s, s', w, p) && !(cut && Above(w.c.path, p)) && exists q :: StillHolds(s, p, q)
    ensures exists q :: StillHolds(s', p, q)
  {
    var q :| StillHolds(s, p, q);
    if q == w.c.path {
      assert StillHolds(s', p, q);
    } else {
      assert Elsewhere(s, s', w, cut, q);
      if cut && Above(w.c.path, q) {
        AboveLine(p, w.c.path, q);
        assert StillHolds(s', p, w.c.path);
      } else {
        assert StillHolds(s', p, q);
      }
    }
  }

  /** What is in the way of something the consumer has stays in its way. */
  lemma {:induction false} BlockSteps(s: State, s': State, cs: seq<Change>, w: Work, cut: bool, c: Change)
    requires StepOf(s, s', cs, w, cut) && w.a.kind != Delete && Lives(c) && !UnderLink(cs, c) && Blocked(s, c.path)
    ensures Blocked(s', c.path)
  {
    var q :| Bars(s, q, c.path);
    if q != w.c.path {
      assert Elsewhere(s, s', w, cut, q);
      if cut && Above(w.c.path, q) {
        AboveAbove(w.c.path, q, c.path);
      }
    }
    assert Bars(s', q, c.path);
  }

  // ----- each kind of step

  /** An action whose turn has come. */
  ghost predicate Ready(s0: State, cs: seq<Change>, w: Work, s: State) {
    && w.c in cs && Chosen(s0, w) && AtRest(s0, cs, w.c, s) && (w.a.kind == Delete ==> Still(s0, s, w.c.path))
    && FsOk(s) && TimesOk(s.v) && InTime(s, cs, w) && s.v.exec == s0.v.exec
    && (w.a.Writes() ==> w.mod == w.c.modTime || w.mod == Round(w.c.modTime))
  }

  /** What a step leaves. */
  ghost predicate Steps(s0: State, cs: seq<Change>, w: Work, s: State, s': State, cut: bool) {
    StepAt(s, s', w, cut) && DoneOk(s0, cs, w, s') && FsOk(s') && TimesOk(s'.v)
  }

  /** Nothing changes anywhere. */
  lemma {:induction false} NoStep(s: State, w: Work)
    requires TimesOk(s.v)
    ensures StepAt(s, s, w, false)
  {
    forall q | q != w.c.path ensures Elsewhere(s, s, w, false, q) {
    }
  }

  ghost function WithoutFile(s: State, p: string): State {
    State(
      s.v.(
        manifest := s.v.manifest - {p}, recorded := s.v.recorded - {p},
        local := s.v.local - {p}, ctimes := s.v.ctimes - {p}
      ),
      s.links - {p}
    )
  }

  lemma {:induction false} RemoveStep(s0: State, cs: seq<Change>, w: Work, s: State)
    requires Ready(s0, cs, w, s) && w.a.kind == Delete && !w.a.dir
    ensures StillAsSeen(w.a.seen, s.v.local, s.v.ctimes, s.links.Keys, w.c.path)
    ensures Steps(s0, cs, w, s, WithoutFile(s, w.c.path), false)
  {
    var p, s' := w.c.path, WithoutFile(s, w.c.path);
    KindShape(s0.v, w.c, w.a);
    OneIsLicensed(s0.v, w.c);
    forall q | q != p ensures Elsewhere(s, s', w, false, q) {
    }
  }

  ghost function WithoutDir(s: State, p: string): State {
    State(s.v.(local := s.v.local - {p}, ctimes := s.v.ctimes - {p}), s.links)
  }

  lemma {:induction false} RemoveDirStep(s0: State, cs: seq<Change>, w: Work, s: State, ok: bool)
    requires Ready(s0, cs, w, s) && w.a.kind == Delete && w.a.dir
    requires ok <==>
      w.c.path !in s.links
      && (w.c.path in s.v.local ==> s.v.local[w.c.path].isDir && WP.Empty(s.v.local, s.links, w.c.path))
    ensures Steps(s0, cs, w, s, if ok then WithoutDir(s, w.c.path) else s, false)
  {
    var p, s' := w.c.path, WithoutDir(s, w.c.path);
    KindShape(s0.v, w.c, w.a);
    NoStep(s, w);
    if ok {
      forall q | q != p ensures Elsewhere(s, s', w, false, q) {
      }
    } else if p !in s.links {
      var q :| (q in s.v.local || q in s.links) && Above(p, q);
      assert StillHolds(s, p, q);
    }
  }

  /** The directories missing above a path. */
  ghost predicate Missing(local: map<string, Info>, made: set<string>, p: string) {
    forall q {:trigger Above(q, p)} :: q in made <==> Above(q, p) && q !in local
  }

  lemma {:induction false} MadeApart(local: map<string, Info>, made: set<string>, p: string)
    requires Missing(local, made, p)
    ensures WP.MadeFor(made, p, local) && p !in made
  {
    assert !Above(p, p);
    forall q | q in made ensures Above(q, p) && q !in local {
    }
  }

  /** A way nothing bars is free at every directory of it. */
  lemma {:induction false} NotBarred(s: State, q: string, p: string)
    requires Above(q, p) && q !in s.v.local && !Blocked(s, p)
    ensures !Barred(s, q)
  {
    assert !Bars(s, q, p);
    forall r ensures !Bars(s, r, q) {
      if Above(r, q) {
        AboveAbove(r, q, p);
        assert !Bars(s, r, p);
      }
    }
  }

  lemma {:induction false} AboveMade(s: State, made: set<string>, p: string, r: string)
    requires Missing(s.v.local, made, p) && !Blocked(s, p) && Above(r, p)
    ensures r in made || (r in s.v.local && s.v.local[r].isDir)
  {
    assert !Bars(s, r, p);
  }

  /** The directories above a path, and nothing at it. */
  ghost function WithDirs(s: State, made: set<string>, dir: Info, at: Option<int>): State {
    State(s.v.(local := WP.WithDirs(s.v.local, made, dir), ctimes := WP.Stamp(s.v.ctimes, made, at)), s.links)
  }

  /** What is made on the way to a path nothing bars is a filesystem still. */
  lemma {:induction false} DirsStep(s: State, made: set<string>, dir: Info, w: Work)
    requires FsOk(s) && TimesOk(s.v) && Missing(s.v.local, made, w.c.path) && !Blocked(s, w.c.path) && dir.isDir
    requires w.a.kind != Delete
    ensures StepAt(s, WithDirs(s, made, dir, w.at), w, false)
    ensures FsOk(WithDirs(s, made, dir, w.at)) && TimesOk(WithDirs(s, made, dir, w.at).v)
    ensures forall r {:trigger Above(r, w.c.path)} :: Above(r, w.c.path) ==>
              r in WithDirs(s, made, dir, w.at).v.local && WithDirs(s, made, dir, w.at).v.local[r].isDir
  {
    var p, s' := w.c.path, WithDirs(s, made, dir, w.at);
    MadeApart(s.v.local, made, p);
    forall r | Above(r, p) ensures r in s'.v.local && s'.v.local[r].isDir {
      AboveMade(s, made, p, r);
    }
    forall r, x | (x in s'.v.local || x in s'.links) && Above(r, x) ensures r in s'.v.local && s'.v.local[r].isDir {
      if x in made {
        AboveAbove(r, x, p);
      }
    }
    forall q | q != p ensures Elsewhere(s, s', w, false, q) {
      if q in made {
        NotBarred(s, q, p);
      }
    }
  }

  /** A file or directory put at a path, with the directories above it. */
  ghost function With(s: State, made: set<string>, dir: Info, w: Work, info: Info, base: Option<Baseline>): State {
    var p := w.c.path;
    State(
      s.v.(
        local := WP.WithDirs(s.v.local, made, dir)[p := info],
        ctimes := WP.Stamp(s.v.ctimes, made + {p}, w.at),
        manifest := if base.Some? then s.v.manifest[p := base.value] else s.v.manifest,
        recorded := if base.Some? then s.v.recorded + {p} else s.v.recorded
      ),
      if base.Some? then s.links - {p} else s.links
    )
  }

  lemma {:induction false} WithStep(s: State, made: set<string>, dir: Info, w: Work, info: Info, base: Option<Baseline>)
    requires FsOk(s) && TimesOk(s.v) && Missing(s.v.local, made, w.c.path) && !Blocked(s, w.c.path) && dir.isDir
    requires w.a.kind != Delete && !OfLink(w) && !Barred(s, w.c.path)
    requires w.c.path in s.v.local ==> s.v.local[w.c.path].isDir == info.isDir
    ensures var s' := With(s, made, dir, w, info, base); StepAt(s, s', w, false) && FsOk(s') && TimesOk(s'.v)
  {
    var p, s', d := w.c.path, With(s, made, dir, w, info, base), WithDirs(s, made, dir, w.at);
    MadeApart(s.v.local, made, p);
    DirsStep(s, made, dir, w);
    forall q | q != p ensures Elsewhere(s, s', w, false, q) {
      assert Elsewhere(s, d, w, false, q);
    }
    forall r, x | (x in s'.v.local || x in s'.links) && Above(r, x) ensures r in s'.v.local && s'.v.local[r].isDir {
      assert x != p ==> x in d.v.local || x in d.links;
    }
  }

  lemma {:induction false} MakeDirStep(s0: State, cs: seq<Change>, w: Work, s: State, made: set<string>, dir: Info,
      ok: bool)
    requires Ready(s0, cs, w, s) && w.a.kind == Mkdir && Missing(s.v.local, made, w.c.path) && dir.isDir
    requires ok <==> StillAsSeen(w.a.seen, s.v.local, s.v.ctimes, s.links.Keys, w.c.path) && !Blocked(s, w.c.path)
    ensures Steps(s0, cs, w, s, if ok then With(s, made, dir, w, dir, None) else s, false)
  {
    KindShape(s0.v, w.c, w.a);
    OneIsLicensed(s0.v, w.c);
    NoStep(s, w);
    if ok {
      WithStep(s, made, dir, w, dir, None);
    }
  }

  ghost function WithMode(s: State, w: Work, mode: Mode): State
    requires w.c.path in s.v.local
  {
    var p := w.c.path;
    State(s.v.(local := s.v.local[p := s.v.local[p].(mode := mode)], ctimes := WP.Stamp(s.v.ctimes, {p}, w.at)),
      s.links)
  }

  lemma {:induction false} ChmodStep(s0: State, cs: seq<Change>, w: Work, s: State, ok: bool)
    requires Ready(s0, cs, w, s) && w.a.kind == Chmod
    requires ok <==> StillAsSeen(w.a.seen, s.v.local, s.v.ctimes, s.links.Keys, w.c.path)
    ensures ok ==> w.c.path in s.v.local
    ensures Steps(s0, cs, w, s, if ok then WithMode(s, w, WithExec(s.v.local[w.c.path].mode, w.a.exec)) else s, false)
  {
    KindShape(s0.v, w.c, w.a);
    ChmodShape(s0.v, w.c, w.a);
    OneIsLicensed(s0.v, w.c);
    NoStep(s, w);
    if ok {
      var s' := WithMode(s, w, WithExec(s.v.local[w.c.path].mode, w.a.exec));
      forall q | q != w.c.path ensures Elsewhere(s, s', w, false, q) {
      }
    }
  }

  ghost function WithBase(s: State, p: string, base: Baseline): State {
    State(s.v.(manifest := s.v.manifest[p := base], recorded := s.v.recorded + {p}), s.links)
  }

  ghost function BaseOf(s: State, w: Work): Baseline
    requires w.c.path in s.v.local
  {
    Baseline(s.v.local[w.c.path].size, s.v.local[w.c.path].mod, w.a.consumer)
  }

  lemma {:induction false} AdoptStep(s0: State, cs: seq<Change>, w: Work, s: State, ok: bool)
    requires Ready(s0, cs, w, s) && w.a.kind == Adopt
    requires ok <==> StillAsSeen(w.a.seen, s.v.local, s.v.ctimes, s.links.Keys, w.c.path)
    ensures ok ==> w.c.path in s.v.local
    ensures Steps(s0, cs, w, s, if ok then WithBase(s, w.c.path, BaseOf(s, w)) else s, false)
  {
    KindShape(s0.v, w.c, w.a);
    OneIsLicensed(s0.v, w.c);
    NoStep(s, w);
    if ok {
      var s' := WithBase(s, w.c.path, BaseOf(s, w));
      forall q | q != w.c.path ensures Elsewhere(s, s', w, false, q) {
      }
    }
  }

  /** The file a write leaves. */
  ghost function Arrived(s: State, w: Work): Info {
    var p := w.c.path;
    Info(w.c.size, w.mod, if p in s.v.local then WithExec(s.v.local[p].mode, w.a.exec) else w.perm, false)
  }

  /** What a write leaves: the file, nothing where something bars it, or only the
      directories above where the target is not as it was seen. */
  ghost function Written(s: State, w: Work, made: set<string>, dir: Info, ok: bool): State {
    if ok then With(s, made, dir, w, Arrived(s, w), Some(Baseline(w.c.size, w.mod, w.a.consumer)))
    else if Blocked(s, w.c.path) then s
    else WithDirs(s, made, dir, w.at)
  }

  lemma {:induction false} WriteStep(s0: State, cs: seq<Change>, w: Work, s: State, made: set<string>, dir: Info,
      ok: bool)
    requires Ready(s0, cs, w, s) && w.a.Writes() && Missing(s.v.local, made, w.c.path) && dir.isDir
    requires ok <==> && StillAsSeen(w.a.seen, s.v.local, s.v.ctimes, s.links.Keys, w.c.path) && !Blocked(s, w.c.path)
                     && (w.c.path in s.v.local ==> !s.v.local[w.c.path].isDir)
    ensures Steps(s0, cs, w, s, Written(s, w, made, dir, ok), false)
  {
    var p, s' := w.c.path, Written(s, w, made, dir, ok);
    KindShape(s0.v, w.c, w.a);
    OneIsLicensed(s0.v, w.c);
    NoStep(s, w);
    if ok {
      WithStep(s, made, dir, w, Arrived(s, w), Some(Baseline(w.c.size, w.mod, w.a.consumer)));
      WriteDone(s0, cs, w, s, s');
    } else if !Blocked(s, p) {
      DirsStep(s, made, dir, w);
    }
  }

  lemma {:induction false} WriteDone(s0: State, cs: seq<Change>, w: Work, s: State, s': State)
    requires Ready(s0, cs, w, s) && w.a.Writes() && w.a.kind != Link && s'.v.exec == s.v.exec
    requires StillAsSeen(w.a.seen, s.v.local, s.v.ctimes, s.links.Keys, w.c.path)
    requires w.c.path in s'.v.local && s'.v.local[w.c.path] == Arrived(s, w)
    requires BaseAt(s'.v, w.c.path) == Some(Baseline(w.c.size, w.mod, w.a.consumer))
    ensures DoneOk(s0, cs, w, s')
  {
    KindShape(s0.v, w.c, w.a);
    OneIsLicensed(s0.v, w.c);
    if !UnderLink(cs, w.c) {
      assert WriteLanded(s0.v, w.c, w.a, w.perm, s'.v);
    }
  }

  ghost function WithLink(s: State, w: Work, made: set<string>, dir: Info): State {
    var p := w.c.path;
    State(
      s.v.(
        local := WP.Relinked(WP.WithDirs(s.v.local, made, dir), p, WP.InfoOf(w.leads)),
        ctimes := WP.Relinked(WP.Stamp(s.v.ctimes, made, w.at), p, WP.TimeOf(w.leads)),
        manifest := s.v.manifest[p := Links.LinkBaseline(w.c.link, w.mod)],
        recorded := s.v.recorded + {p}
      ),
      WP.Relinked(s.links, p, Some(WP.Symlink(w.c.link, w.mod)))
    )
  }

  lemma {:induction false} LinkStep(s0: State, cs: seq<Change>, w: Work, s: State, made: set<string>, dir: Info,
      ok: bool)
    requires Ready(s0, cs, w, s) && OfLink(w) && Missing(s.v.local, made, w.c.path) && dir.isDir
    requires ok <==> WP.LinkAt(s.v.local, s.links, w.c.path) == w.a.linkSeen && !Blocked(s, w.c.path)
    ensures Steps(s0, cs, w, s, if ok then WithLink(s, w, made, dir) else s, ok)
  {
    Links.LinkIsLicensed(s0.v.manifest, w.c, WP.LinkAt(s0.v.local, s0.links, w.c.path));
    NoStep(s, w);
    if ok {
      LinkPut(s, w, made, dir);
    } else if !UnderLink(cs, w.c) && Blocked(s, w.c.path) {
      var q :| Bars(s, q, w.c.path);
    }
  }

  /** A link put at a path where nothing is, or a link. */
  lemma {:induction false} LinkPut(s: State, w: Work, made: set<string>, dir: Info)
    requires FsOk(s) && TimesOk(s.v) && Missing(s.v.local, made, w.c.path) && !Blocked(s, w.c.path) && dir.isDir
    requires OfLink(w) && w.c.link != "" && (w.c.path in s.v.local ==> w.c.path in s.links)
    ensures var s' := WithLink(s, w, made, dir);
      StepAt(s, s', w, true) && FsOk(s') && TimesOk(s'.v) && LinkSettled(w.c, s')
  {
    var p, s', d := w.c.path, WithLink(s, w, made, dir), WithDirs(s, made, dir, w.at);
    MadeApart(s.v.local, made, p);
    DirsStep(s, made, dir, w);
    forall q | q != p ensures Elsewhere(s, s', w, true, q) {
      assert Elsewhere(s, d, w, false, q);
    }
    forall r, x | (x in s'.v.local || x in s'.links) && Above(r, x) ensures r in s'.v.local && s'.v.local[r].isDir {
      assert x != p ==> (x in d.v.local || x in d.links) && !Above(p, x);
      assert r != p;
      if Above(p, r) {
        AboveAbove(p, r, x);
      }
    }
  }

  // ----- the pass itself

  ghost function StateOf(p: WP.WritePass): State
    reads p
  {
    State(p.Now(), p.links)
  }

  method CarryDelete(p: WP.WritePass, ghost s0: State, ghost cs: seq<Change>, w: Work)
    requires p.decidedOn == s0.v && Ready(s0, cs, w, StateOf(p)) && w.a.kind == Delete
    modifies p
    ensures Steps(s0, cs, w, old(StateOf(p)), StateOf(p), false)
  {
    ghost var s := StateOf(p);
    if w.a.dir {
      var ok := p.RemoveDir(w.c, w.a, WP.Done);
      RemoveDirStep(s0, cs, w, s, ok);
      assert StateOf(p) == if ok then WithoutDir(s, w.c.path) else s;
    } else {
      RemoveStep(s0, cs, w, s);
      var ok := p.Remove(w.c, w.a, WP.Done);
      assert StateOf(p) == WithoutFile(s, w.c.path);
    }
  }

  /** The directories to make above a path, and whether something bars it. */
  method Way(p: WP.WritePass, path: string) returns (made: set<string>, barred: bool)
    requires Rooted(path) && path != "/"
    ensures Missing(p.local, made, path) && (barred <==> Blocked(StateOf(p), path)) && WP.MadeFor(made, path, p.local)
  {
    var up := Climb(path);
    made := set q | q in up && q != path && q !in p.local;
    barred := exists q :: q in up && q != path && if q in p.local then !p.local[q].isDir else q in p.links;
    if barred {
      var q :| q in up && q != path && if q in p.local then !p.local[q].isDir else q in p.links;
      assert Bars(StateOf(p), q, path);
    }
  }

  lemma {:induction false} NoDirs(local: map<string, Info>, dir: Info, ctimes: map<string, int>, at: Option<int>)
    ensures WP.WithDirs(local, {}, dir) == local && WP.Stamp(ctimes, {}, at) == ctimes
  {
  }

  method CarryMkdir(p: WP.WritePass, ghost s0: State, ghost cs: seq<Change>, w: Work, dir: Info)
    requires p.decidedOn == s0.v && Ready(s0, cs, w, StateOf(p)) && w.a.kind == Mkdir
    requires Rooted(w.c.path) && w.c.path != "/" && dir.isDir
    modifies p
    ensures Steps(s0, cs, w, old(StateOf(p)), StateOf(p), false)
  {
    ghost var s := StateOf(p);
    var made, barred := Way(p, w.c.path);
    var making := if barred then {} else made;
    var ok := p.MakeDir(w.c, w.a, making, dir, w.at, if barred then WP.Failed else WP.Done);
    MakeDirStep(s0, cs, w, s, made, dir, ok);
    NoDirs(s.v.local, dir, s.v.ctimes, w.at);
    assert StateOf(p) == if ok then With(s, made, dir, w, dir, None) else s;
  }

  method CarryWrite(p: WP.WritePass, ghost s0: State, ghost cs: seq<Change>, w: Work, dir: Info)
    requires p.decidedOn == s0.v && Ready(s0, cs, w, StateOf(p)) && w.a.Writes()
    requires Rooted(w.c.path) && w.c.path != "/" && dir.isDir
    modifies p
    ensures Steps(s0, cs, w, old(StateOf(p)), StateOf(p), false)
  {
    ghost var s := StateOf(p);
    var made, barred := Way(p, w.c.path);
    var making, answer := if barred then {} else made, if barred then WP.Failed else WP.Done;
    var ok := p.Bring(w.c, w.a, w.c.size, w.mod, w.perm, making, dir, w.at, answer);
    WriteStep(s0, cs, w, s, made, dir, ok);
    NoDirs(s.v.local, dir, s.v.ctimes, w.at);
    assert StateOf(p) == Written(s, w, made, dir, ok);
  }

  method CarryLink(p: WP.WritePass, ghost s0: State, ghost cs: seq<Change>, w: Work, dir: Info)
    returns (ghost cut: bool)
    requires p.decidedOn == s0.v && Ready(s0, cs, w, StateOf(p)) && OfLink(w)
    requires Rooted(w.c.path) && w.c.path != "/" && dir.isDir
    modifies p
    ensures Steps(s0, cs, w, old(StateOf(p)), StateOf(p), cut)
  {
    ghost var s := StateOf(p);
    var made, barred := Way(p, w.c.path);
    LinkShape(s0, w);
    var ok := false;
    if !barred {
      ok := p.LandLink(w.c, w.a, w.mod, w.leads, made, dir, w.at, WP.Done);
    }
    LinkStep(s0, cs, w, s, made, dir, ok);
    assert StateOf(p) == if ok then WithLink(s, w, made, dir) else s;
    cut := ok;
  }

  lemma {:induction false} LinkShape(s0: State, w: Work)
    requires Chosen(s0, w) && OfLink(w)
    ensures Links.DecideLink(s0.v.manifest, w.c, w.a.linkSeen) == Some(w.a)
  {
  }

  method Carry(p: WP.WritePass, ghost s0: State, ghost cs: seq<Change>, w: Work, dir: Info) returns (ghost cut: bool)
    requires p.decidedOn == s0.v && Ready(s0, cs, w, StateOf(p)) && Rooted(w.c.path) && w.c.path != "/" && dir.isDir
    modifies p
    ensures Steps(s0, cs, w, old(StateOf(p)), StateOf(p), cut)
  {
    ghost var s := StateOf(p);
    cut := false;
    if OfLink(w) {
      cut := CarryLink(p, s0, cs, w, dir);
    } else if w.a.kind == Delete {
      CarryDelete(p, s0, cs, w);
    } else if w.a.kind == Mkdir {
      CarryMkdir(p, s0, cs, w, dir);
    } else if w.a.kind == Chmod {
      CarryMode(p, s0, cs, w);
    } else if w.a.kind == Adopt {
      var ok := p.AdoptCopy(w.c, w.a);
      AdoptStep(s0, cs, w, s, ok);
      assert StateOf(p) == if ok then WithBase(s, w.c.path, BaseOf(s, w)) else s;
    } else {
      CarryWrite(p, s0, cs, w, dir);
    }
  }

  method CarryMode(p: WP.WritePass, ghost s0: State, ghost cs: seq<Change>, w: Work)
    requires p.decidedOn == s0.v && Ready(s0, cs, w, StateOf(p)) && w.a.kind == Chmod
    modifies p
    ensures Steps(s0, cs, w, old(StateOf(p)), StateOf(p), false)
  {
    ghost var s := StateOf(p);
    var mode := if w.c.path in p.local then WithExec(p.local[w.c.path].mode, w.a.exec) else NO_BITS;
    ghost var seen := p.Unchanged(w.a, w.c.path);
    ChmodStep(s0, cs, w, s, seen);
    var ok := p.ChangeMode(w.c, w.a, mode, w.at, WP.Done);
    assert StateOf(p) == if seen then WithMode(s, w, mode) else s;
  }

  /** How far a pass is: what was tried is settled or stuck, the rest is at rest, and
      as it was until the deletions are over. */
  ghost predicate Progress(s0: State, cs: seq<Change>, past: seq<Work>, s: State) {
    && s.v.skew == s0.v.skew && s.v.margin == s0.v.margin && s.v.exec == s0.v.exec && FsOk(s) && TimesOk(s.v)
    && (forall w {:trigger DoneOk(s0, cs, w, s)} :: w in past ==> DoneOk(s0, cs, w, s))
    && (forall c {:trigger AtRest(s0, cs, c, s)} :: c in cs && !Tried(past, c.path) ==> AtRest(s0, cs, c, s))
    && (Deletions(past) ==>
      forall c {:trigger Still(s0, s, c.path)} :: c in cs && !Tried(past, c.path) ==> Still(s0, s, c.path))
  }

  ghost predicate Tried(work: seq<Work>, p: string) {
    exists w :: w in work && w.c.path == p
  }

  ghost predicate Deletions(work: seq<Work>) {
    forall w :: w in work ==> w.a.kind == Delete
  }

  lemma {:induction false} Progresses(s0: State, cs: seq<Change>, past: seq<Work>, w: Work, s: State, s': State,
      cut: bool)
    requires Progress(s0, cs, past, s) && Ready(s0, cs, w, s) && Steps(s0, cs, w, s, s', cut)
    requires forall x :: x in past ==> After(x, w) && x.c in cs && Chosen(s0, x)
    ensures Progress(s0, cs, past + [w], s')
  {
    assert StepOf(s, s', cs, w, cut);
    forall x | x in past + [w] ensures DoneOk(s0, cs, x, s') {
      if x in past {
        DoneSteps(s0, x, s, s', cs, w, cut);
      }
    }
    forall c | c in cs && !Tried(past + [w], c.path) ensures AtRest(s0, cs, c, s') {
      NotTried(past, w, c.path);
      RestSteps(s0, c, s, s', cs, w, cut);
    }
    if Deletions(past + [w]) {
      assert w in past + [w] && forall x :: x in past ==> x in past + [w];
      forall c | c in cs && !Tried(past + [w], c.path) ensures Still(s0, s', c.path) {
        NotTried(past, w, c.path);
        StillSteps(s0, c.path, s, s', w, cut);
      }
    }
  }

  lemma {:induction false} NotTried(past: seq<Work>, w: Work, p: string)
    requires !Tried(past + [w], p)
    ensures !Tried(past, p) && w.c.path != p
  {
    assert w in past + [w] && forall x :: x in past ==> x in past + [w];
  }

  lemma {:induction false} DoneSteps(s0: State, x: Work, s: State, s': State, cs: seq<Change>, w: Work, cut: bool)
    requires DoneOk(s0, cs, x, s) && StepOf(s, s', cs, w, cut) && s.v.exec == s0.v.exec
    requires After(x, w) && x.c in cs && Chosen(s0, x)
    ensures DoneOk(s0, cs, x, s')
  {
    if !UnderLink(cs, x.c) {
      if Settled(s0, x.c, s) {
        SettledSteps(s0, x.c, s, s', cs, w, cut);
      } else {
        StuckSteps(s0, x, s, s', cs, w, cut);
      }
    }
  }

  /** What a pass carries out: decisions of the list, deletions first and deepest
      first, each path once. */
  ghost predicate Planned(s0: State, cs: seq<Change>, work: seq<Work>) {
    && (forall w :: w in work ==> Item(s0, cs, w))
    && (forall i, j :: 0 <= i < j < |work| ==> After(work[i], work[j]))
  }

  /** A decision of the list, ready to be carried out. */
  ghost predicate Item(s0: State, cs: seq<Change>, w: Work) {
    && w.c in cs && Chosen(s0, w) && InTime(s0, cs, w)
    && (w.a.Writes() ==> w.mod == w.c.modTime || w.mod == Round(w.c.modTime))
  }

  /** Something is to be done about the change. */
  ghost predicate Asks(s0: State, c: Change) {
    if c.link != "" then !LinkSettled(c, s0) else !Idle(s0.v, c)
  }

  /** Why a change may still have something to move after the pass: the list has it
      under a link, it was not among those tried, or it is stuck. */
  ghost predicate Excused(s0: State, cs: seq<Change>, work: seq<Work>, c: Change, s: State) {
    || UnderLink(cs, c) || (Asks(s0, c) && !Tried(work, c.path))
    || exists w :: w in work && w.c == c && Stuck(s0, w, s)
  }

  /** A file the pass did not try. */
  ghost predicate Waiting(s0: State, cs: seq<Change>, work: seq<Work>, c: Change) {
    c.link == "" && Overwrites(s0.v, c) && !UnderLink(cs, c) && !Tried(work, c.path)
  }

  /** What the pass leaves to move, decided again. */
  ghost predicate Remains(c: Change, s: State) {
    if c.link != "" then !LinkSettled(c, s) else exists a :: a in Decided(s.v, c) && a.Moves()
  }

  /** A pass nobody disturbs: every change of the list is settled or excused, what is
      settled moves nothing when it is decided again, and what is stuck is not done. */
  method Run(p: WP.WritePass, ghost s0: State, cs: seq<Change>, work: seq<Work>, dir: Info)
    requires s0 == StateOf(p) && p.decidedOn == s0.v && FsOk(s0) && TimesOk(s0.v) && dir.isDir
    requires DistinctChanges(cs) && (forall c :: c in cs ==> Rooted(c.path) && c.path != "/") && Planned(s0, cs, work)
    modifies p
    ensures forall c :: c in cs ==> Settled(s0, c, StateOf(p)) || Excused(s0, cs, work, c, StateOf(p))
    ensures forall c :: c in cs && Remains(c, StateOf(p)) ==> Excused(s0, cs, work, c, StateOf(p))
    ensures forall w :: w in work && Stuck(s0, w, StateOf(p)) ==> Undone(s0, w, StateOf(p))
    ensures forall c :: c in cs && Waiting(s0, cs, work, c) ==> Remains(c, StateOf(p)) || Overtaken(c, StateOf(p))
    ensures FsOk(StateOf(p)) && TimesOk(p.Now())
  {
    var i := 0;
    while i < |work|
      invariant 0 <= i <= |work| && Progress(s0, cs, work[..i], StateOf(p))
    {
      ghost var s := StateOf(p);
      IsReady(s0, cs, work, i, s);
      ghost var cut := Carry(p, s0, cs, work[i], dir);
      Progresses(s0, cs, work[..i], work[i], s, StateOf(p), cut);
      assert work[..i + 1] == work[..i] + [work[i]];
      i := i + 1;
    }
    assert work[..i] == work;
    Ends(s0, cs, work, StateOf(p));
  }

  lemma {:induction false} IsReady(s0: State, cs: seq<Change>, work: seq<Work>, i: nat, s: State)
    requires Planned(s0, cs, work) && i < |work| && Progress(s0, cs, work[..i], s)
    ensures Ready(s0, cs, work[i], s) && forall x :: x in work[..i] ==> After(x, work[i]) && x.c in cs && Chosen(s0, x)
  {
    assert work[i] in work && Item(s0, cs, work[i]);
    forall x | x in work[..i] ensures After(x, work[i]) && x.c in cs && Chosen(s0, x) {
      var j :| 0 <= j < i && work[j] == x;
      assert x in work && Item(s0, cs, x);
    }
    assert !Tried(work[..i], work[i].c.path);
    assert AtRest(s0, cs, work[i].c, s);
    assert work[i].a.kind == Delete ==> Deletions(work[..i]);
  }

  /** A change that asked for nothing has nothing to move at the end. */
  lemma {:induction false} RestsQuiet(s0: State, c: Change, s: State)
    requires Resting(s0, c, s) && !Asks(s0, c)
    ensures Settled(s0, c, s)
  {
    if c.link == "" && (c.replaced || c.dir) {
      DirOutcome(s0.v, c);
    }
  }

  /** A file not tried still comes, unless a directory has come to be there. */
  lemma {:induction false} StillAsks(s0: State, c: Change, s: State)
    requires Resting(s0, c, s) && c.link == "" && Overwrites(s0.v, c)
    requires s.v.skew == s0.v.skew && s.v.margin == s0.v.margin && s.v.exec == s0.v.exec
    ensures Remains(c, s) || Overtaken(c, s)
  {
    var a := Decided(s0.v, c)[0];
    KindShape(s0.v, c, a);
    if Still(s0, s, c.path) {
      SameDecision(s0.v, c, s.v);
      assert a in Decided(s.v, c) && a.Moves();
    }
  }

  lemma {:induction false} Ends(s0: State, cs: seq<Change>, work: seq<Work>, s: State)
    requires DistinctChanges(cs) && Planned(s0, cs, work) && Progress(s0, cs, work, s)
    ensures forall c :: c in cs ==> Settled(s0, c, s) || Excused(s0, cs, work, c, s)
    ensures forall c :: c in cs && Remains(c, s) ==> Excused(s0, cs, work, c, s)
    ensures forall w :: w in work && Stuck(s0, w, s) ==> Undone(s0, w, s)
    ensures forall c :: c in cs && Waiting(s0, cs, work, c) ==> Remains(c, s) || Overtaken(c, s)
  {
    forall c | c in cs && Waiting(s0, cs, work, c) ensures Remains(c, s) || Overtaken(c, s) {
      assert AtRest(s0, cs, c, s);
      StillAsks(s0, c, s);
    }
    forall w | w in work && Stuck(s0, w, s) ensures Undone(s0, w, s) {
      assert Item(s0, cs, w);
      StuckIsLeft(s0, w, s);
    }
    forall c | c in cs ensures Settled(s0, c, s) || Excused(s0, cs, work, c, s) {
      if Tried(work, c.path) {
        var w :| w in work && w.c.path == c.path;
        assert Item(s0, cs, w);
        SameChange(cs, w.c, c);
        assert DoneOk(s0, cs, w, s);
      } else {
        assert AtRest(s0, cs, c, s);
        if !UnderLink(cs, c) && !Asks(s0, c) {
          RestsQuiet(s0, c, s);
        }
      }
    }
    forall c | c in cs && Remains(c, s) ensures Excused(s0, cs, work, c, s) {
      if Settled(s0, c, s) {
        SettledStays(s0, c, s);
      }
    }
  }

  lemma {:induction false} SameChange(cs: seq<Change>, c: Change, d: Change)
    requires DistinctChanges(cs) && c in cs && d in cs && c.path == d.path
    ensures c == d
  {
  }

  // ----- the order of a pass

  ghost predicate DistinctActions(actions: seq<Action>) {
    forall i, j :: 0 <= i < j < |actions| ==> actions[i].path != actions[j].path
  }

  /** What is decided for a change, link or not. */
  ghost function ActsOf(s0: State, c: Change): seq<Action> {
    if c.link == "" then Decided(s0.v, c) else if LinkAgain(c, s0).Some? then [LinkAgain(c, s0).value] else []
  }

  ghost predicate FromList(s0: State, cs: seq<Change>, a: Action) {
    exists c :: c in cs && c.path == a.path && a in ActsOf(s0, c)
  }

  /** The actions are what is decided for the changes, one at most for each. */
  ghost predicate ActsOk(s0: State, cs: seq<Change>, actions: seq<Action>) {
    && DistinctActions(actions)
    && (forall a :: a in actions ==> FromList(s0, cs, a))
    && (forall c :: c in cs && ActsOf(s0, c) != [] ==> ActsOf(s0, c)[0] in actions)
  }

  lemma {:induction false} DecidedActs(s0: State, cs: seq<Change>)
    requires DistinctChanges(cs)
    ensures var all := DecidedAll(s0.v, cs);
            && DistinctActions(all) && (forall a :: a in all ==> FromList(s0, cs, a) && a.kind != Link)
            && (forall c :: c in cs && Decided(s0.v, c) != [] ==> Decided(s0.v, c)[0] in all)
  {
    if cs != [] {
      var before, last := cs[..|cs| - 1], cs[|cs| - 1];
      DecidedActs(s0, before);
      OneAction(s0, cs, last);
      ActsMore(s0, before, last, DecidedAll(s0.v, before), Decided(s0.v, last));
    }
  }

  lemma {:induction false} OneAction(s0: State, cs: seq<Change>, c: Change)
    ensures forall a ::
      a in Decided(s0.v, c) ==> a in ActsOf(s0, c) && a.path == c.path && a.kind != Link && Decided(s0.v, c) == [a]
  {
    OneIsLicensed(s0.v, c);
    forall a | a in Decided(s0.v, c) ensures a in ActsOf(s0, c) && a.kind != Link && Decided(s0.v, c) == [a] {
      KindShape(s0.v, c, a);
    }
  }

  /** The actions of one change more. */
  lemma {:induction false} ActsMore(s0: State, before: seq<Change>, c: Change, first: seq<Action>, more: seq<Action>)
    requires DistinctChanges(before + [c]) && DistinctActions(first) && |more| <= 1
    requires (forall a :: a in first ==> FromList(s0, before, a))
      && (forall a :: a in more ==> a.path == c.path && a in ActsOf(s0, c))
    ensures DistinctActions(first + more) && forall a :: a in first + more ==> FromList(s0, before + [c], a)
  {
    var cs, all := before + [c], first + more;
    assert cs[|before|] == c && forall d :: d in before ==> d in cs;
    forall i | 0 <= i < |first| ensures first[i].path != c.path {
      assert FromList(s0, before, first[i]);
      var d :| d in before && d.path == first[i].path && first[i] in ActsOf(s0, d);
      var k :| 0 <= k < |before| && before[k] == d;
      assert cs[k] == d;
    }
    forall i, j | 0 <= i < j < |all| ensures all[i].path != all[j].path {
      if i < |first| <= j {
        assert more[j - |first|] in more;
      }
    }
  }

  /** What was read of the links of a list. */
  ghost predicate Read(s0: State, cs: seq<Change>, at: map<string, LinkState>) {
    forall c :: c in cs ==> Links.LinkHere(at, c.path) == WP.LinkAt(s0.v.local, s0.links, c.path)
  }

  lemma {:induction false} LinkActs(s0: State, cs: seq<Change>, at: map<string, LinkState>)
    requires DistinctChanges(cs) && Read(s0, cs, at)
    ensures var all := Links.LinksDecided(s0.v.manifest, cs, at);
            DistinctActions(all) && (forall a :: a in all ==> FromList(s0, cs, a))
  {
    if cs != [] {
      var before, last := cs[..|cs| - 1], cs[|cs| - 1];
      assert last in cs && forall d :: d in before ==> d in cs;
      assert cs == before + [last];
      LinkActs(s0, before, at);
      var d := Links.DecideLink(s0.v.manifest, last, Links.LinkHere(at, last.path));
      assert d == LinkAgain(last, s0);
      ActsMore(s0, before, last, Links.LinksDecided(s0.v.manifest, before, at), if d.Some? then [d.value] else []);
    }
  }

  lemma {:induction false} LinkActIn(s0: State, cs: seq<Change>, at: map<string, LinkState>, c: Change)
    requires Read(s0, cs, at) && c in cs && LinkAgain(c, s0).Some?
    ensures LinkAgain(c, s0).value in Links.LinksDecided(s0.v.manifest, cs, at)
  {
    var before, last := cs[..|cs| - 1], cs[|cs| - 1];
    assert forall d :: d in before ==> d in cs;
    if c != last {
      assert c in before;
      LinkActIn(s0, before, at, c);
    }
  }

  lemma {:induction false} LinkFrom(manifest: map<string, Baseline>, cs: seq<Change>, at: map<string, LinkState>,
      a: Action)
    requires a in Links.LinksDecided(manifest, cs, at)
    ensures exists c :: c in cs && c.path == a.path && c.link != ""
  {
    var before, last := cs[..|cs| - 1], cs[|cs| - 1];
    assert last in cs && forall d :: d in before ==> d in cs;
    if a in Links.LinksDecided(manifest, before, at) {
      LinkFrom(manifest, before, at, a);
    }
  }

  /** Decisions about files and those about links are of different changes. */
  lemma {:induction false} AllActs(s0: State, cs: seq<Change>, at: map<string, LinkState>)
    requires DistinctChanges(cs) && Read(s0, cs, at)
    ensures ActsOk(s0, cs, DecidedAll(s0.v, cs) + Links.LinksDecided(s0.v.manifest, cs, at))
  {
    var first, more := DecidedAll(s0.v, cs), Links.LinksDecided(s0.v.manifest, cs, at);
    DecidedActs(s0, cs);
    LinkActs(s0, cs, at);
    forall c | c in cs && ActsOf(s0, c) != [] ensures ActsOf(s0, c)[0] in first + more {
      if c.link != "" {
        LinkActIn(s0, cs, at, c);
      }
    }
    forall a, b | a in first && b in more ensures a.path != b.path {
      FromAChange(s0.v, cs, a);
      var c :| c in cs && a in Decided(s0.v, c);
      OneAction(s0, cs, c);
      KindShape(s0.v, c, a);
      LinkFrom(s0.v.manifest, cs, at, b);
      var d :| d in cs && d.path == b.path && d.link != "";
      if c.path == d.path {
        SameChange(cs, c, d);
      }
    }
    var all := first + more;
    forall i, j | 0 <= i < j < |all| ensures all[i].path != all[j].path {
      if i < |first| <= j {
        assert first[i] in first && more[j - |first|] in more;
      }
    }
  }

  /** How what a step brings turns out here: the time of a link or a file, the mode a
      new file has, the change time left, what a link leads to. */
  datatype Arrival = Arrival(mod: int, perm: Mode, at: Option<int>, leads: Option<WP.Target>)

  const PLAIN := Arrival(0, NO_BITS, None, None)

  function ArrivalAt(arrivals: map<string, Arrival>, p: string): Arrival {
    if p in arrivals then arrivals[p] else PLAIN
  }

  /** The work of an action. */
  function WorkOf(c: Change, a: Action, r: Arrival): Work {
    Work(c, a, if a.kind == Link then r.mod else c.modTime, r.perm, r.at, r.leads)
  }

  ghost predicate InTimeAll(s0: State, cs: seq<Change>, arrivals: map<string, Arrival>) {
    forall p, c :: p in arrivals && arrivals[p].at.Some? && c in cs ==>
      !ConsumerLater(c.changed, arrivals[p].at.value, s0.v.skew, s0.v.margin)
  }

  /** The changes and the actions, by path. */
  ghost predicate Indexed(s0: State, cs: seq<Change>, actions: seq<Action>, arrivals: map<string, Arrival>,
      m: map<string, Work>)
  {
    && (forall a :: a in actions ==> a.path in m && m[a.path].a == a)
    && (forall p :: p in m ==> Entered(s0, cs, arrivals, m[p]) && m[p].c.path == p && m[p].a in actions)
  }

  ghost predicate Entered(s0: State, cs: seq<Change>, arrivals: map<string, Arrival>, w: Work) {
    && w.c in cs && w.a in ActsOf(s0, w.c) && w.a.path == w.c.path
    && w == WorkOf(w.c, w.a, ArrivalAt(arrivals, w.c.path))
  }

  method Index(ghost s0: State, cs: seq<Change>, actions: seq<Action>, arrivals: map<string, Arrival>)
    returns (m: map<string, Work>)
    requires DistinctChanges(cs) && ActsOk(s0, cs, actions)
    ensures Indexed(s0, cs, actions, arrivals, m)
  {
    m := map[];
    var i := 0;
    while i < |actions|
      invariant 0 <= i <= |actions| && Indexed(s0, cs, actions[..i], arrivals, m)
    {
      assert actions[i] in actions;
      var w := Enter(s0, cs, actions[i], arrivals);
      IndexMore(s0, cs, actions[..i], arrivals, m, w);
      assert actions[..i + 1] == actions[..i] + [actions[i]];
      m := m[w.a.path := w];
      i := i + 1;
    }
    assert actions[..i] == actions;
  }

  method Enter(ghost s0: State, cs: seq<Change>, a: Action, arrivals: map<string, Arrival>) returns (w: Work)
    requires DistinctChanges(cs) && FromList(s0, cs, a)
    ensures Entered(s0, cs, arrivals, w) && w.a == a
  {
    var c := ChangeAt(cs, a.path);
    ActsAt(s0, cs, a, c);
    w := WorkOf(c, a, ArrivalAt(arrivals, c.path));
  }

  lemma {:induction false} ActsAt(s0: State, cs: seq<Change>, a: Action, c: Change)
    requires DistinctChanges(cs) && FromList(s0, cs, a) && c in cs && c.path == a.path
    ensures a in ActsOf(s0, c)
  {
    var d :| d in cs && d.path == a.path && a in ActsOf(s0, d);
    SameChange(cs, c, d);
  }

  lemma {:induction false} IndexMore(s0: State, cs: seq<Change>, actions: seq<Action>, arrivals: map<string, Arrival>,
      m: map<string, Work>, w: Work)
    requires Indexed(s0, cs, actions, arrivals, m) && Entered(s0, cs, arrivals, w)
    requires forall a :: a in actions ==> a.path != w.a.path
    ensures Indexed(s0, cs, actions + [w.a], arrivals, m[w.a.path := w])
  {
  }

  method ChangeAt(cs: seq<Change>, p: string) returns (c: Change)
    requires exists d :: d in cs && d.path == p
    ensures c in cs && c.path == p
  {
    var i := 0;
    while cs[i].path != p
      invariant 0 <= i < |cs| && forall k :: 0 <= k < i ==> cs[k].path != p
      decreases |cs| - i
    {
      i := i + 1;
    }
    c := cs[i];
  }

  /** The items of a list of paths, in its order. */
  method At(m: map<string, Work>, paths: seq<string>) returns (work: seq<Work>)
    requires forall p :: p in paths ==> p in m
    ensures Listed(m, paths, work)
  {
    work := [];
    var i := 0;
    while i < |paths|
      invariant 0 <= i <= |paths| && |work| == i && forall k :: 0 <= k < i ==> paths[k] in m && work[k] == m[paths[k]]
    {
      assert paths[i] in paths;
      work := work + [m[paths[i]]];
      i := i + 1;
    }
  }

  ghost predicate Listed(m: map<string, Work>, paths: seq<string>, work: seq<Work>) {
    |work| == |paths| && forall i :: 0 <= i < |work| ==> paths[i] in m && work[i] == m[paths[i]]
  }

  ghost predicate AnyAt(actions: seq<Action>, p: string, kinds: set<Kind>) {
    exists a :: a in actions && a.path == p && a.kind in kinds
  }

  /** The paths of the actions of some kinds, in the order of the list. */
  method OfKind(actions: seq<Action>, kinds: set<Kind>) returns (paths: seq<string>)
    requires DistinctActions(actions)
    ensures Sorting.Distinct(paths) && forall p :: p in paths <==> AnyAt(actions, p, kinds)
  {
    paths := [];
    var i := 0;
    while i < |actions|
      invariant 0 <= i <= |actions| && Sorting.Distinct(paths)
      invariant forall p :: p in paths <==> exists k :: 0 <= k < i && actions[k].path == p && actions[k].kind in kinds
    {
      if actions[i].kind in kinds {
        assert forall k :: 0 <= k < i ==> actions[k].path != actions[i].path;
        assert actions[i].path !in paths;
        paths := paths + [actions[i].path];
      }
      i := i + 1;
    }
  }

  lemma {:induction false} DeletedAre(actions: seq<Action>)
    requires DistinctActions(actions)
    ensures Sorting.Distinct(Links.DeletedPaths(actions))
    ensures forall p :: p in Links.DeletedPaths(actions) <==>
      exists a :: a in actions && a.path == p && a.kind == Delete
  {
    if actions != [] {
      var before, last := actions[..|actions| - 1], actions[|actions| - 1];
      DeletedAre(before);
      assert actions == before + [last];
      assert last.path !in Links.DeletedPaths(before);
    }
  }

  lemma {:induction false} DeletesAre(actions: seq<Action>, dels: seq<string>)
    requires DistinctActions(actions) && multiset(dels) == multiset(Links.DeletedPaths(actions))
    ensures Sorting.Distinct(dels) && forall p :: p in dels <==> AnyAt(actions, p, {Delete})
  {
    DeletedAre(actions);
    Sorting.DistinctFromMultiset(Links.DeletedPaths(actions), dels);
    forall p ensures p in dels <==> p in Links.DeletedPaths(actions) {
      assert p in dels <==> p in multiset(dels);
      assert p in Links.DeletedPaths(actions) <==> p in multiset(Links.DeletedPaths(actions));
    }
  }

  /** The paths of a pass, in order: deletions deepest first, then the rest. */
  ghost predicate Ordered(m: map<string, Work>, dels: seq<string>, rest: seq<string>) {
    && Sorting.Distinct(dels + rest) && Links.DeepestFirst(dels)
    && (forall p :: p in dels ==> p in m && m[p].a.kind == Delete)
    && (forall p :: p in rest ==> p in m && (m[p].a.Moves() || m[p].a.kind == Adopt) && m[p].a.kind != Delete)
  }

  /** What is entered and asks for something is an item. */
  lemma {:induction false} EnteredIsItem(s0: State, cs: seq<Change>, arrivals: map<string, Arrival>, w: Work)
    requires Entered(s0, cs, arrivals, w) && InTimeAll(s0, cs, arrivals) && (w.a.Moves() || w.a.kind == Adopt)
    ensures Item(s0, cs, w)
  {
    OneAction(s0, cs, w.c);
    if w.c.link != "" {
      Links.LinkIsLicensed(s0.v.manifest, w.c, WP.LinkAt(s0.v.local, s0.links, w.c.path));
    }
  }

  lemma {:induction false} OrderPlans(s0: State, cs: seq<Change>, actions: seq<Action>, arrivals: map<string, Arrival>,
      m: map<string, Work>, dels: seq<string>, rest: seq<string>, work: seq<Work>)
    requires Indexed(s0, cs, actions, arrivals, m) && InTimeAll(s0, cs, arrivals) && Ordered(m, dels, rest)
      && Listed(m, dels + rest, work)
    ensures Planned(s0, cs, work)
  {
    var paths := dels + rest;
    forall w | w in work ensures Item(s0, cs, w) {
      var i :| 0 <= i < |work| && work[i] == w;
      assert paths[i] in paths && Entered(s0, cs, arrivals, w);
      assert if i < |dels| then dels[i] in dels else rest[i - |dels|] in rest;
      EnteredIsItem(s0, cs, arrivals, w);
    }
    forall i, j | 0 <= i < j < |work| ensures After(work[i], work[j]) {
      assert paths[i] in m && paths[j] in m && paths[i] != paths[j];
      assert j >= |dels| ==> rest[j - |dels|] in rest;
      assert i < |dels| ==> dels[i] in dels;
    }
  }

  lemma {:induction false} JoinApart(a: seq<string>, b: seq<string>)
    requires Sorting.Distinct(a) && Sorting.Distinct(b) && forall x :: x in a ==> x !in b
    ensures Sorting.Distinct(a + b)
  {
    var c := a + b;
    forall i, j | 0 <= i < j < |c| ensures c[i] != c[j] {
      if i < |a| <= j {
        assert a[i] in a && b[j - |a|] in b;
      }
    }
  }

  /** The paths of a pass by its parts, in the order it takes them: deletions,
      directories and modes, links, copies to adopt, files asked for. */
  datatype Parts = Parts(dels: seq<string>, dirs: seq<string>, links: seq<string>, adopts: seq<string>,
      asked: seq<string>)
  {
    function Rest(): seq<string> {
      dirs + links + adopts + asked
    }

    ghost predicate Apart() {
      && Sorting.Distinct(dels) && Sorting.Distinct(dirs) && Sorting.Distinct(links) && Sorting.Distinct(adopts)
      && Sorting.Distinct(asked) && Links.DeepestFirst(dels)
    }
  }

  ghost predicate PartsOf(m: map<string, Work>, parts: Parts) {
    && parts.Apart()
    && (forall p :: p in parts.dels <==> p in m && m[p].a.kind == Delete)
    && (forall p :: p in parts.dirs <==> p in m && (m[p].a.kind == Mkdir || m[p].a.kind == Chmod))
    && (forall p :: p in parts.links <==> p in m && m[p].a.kind == Link)
    && (forall p :: p in parts.adopts <==> p in m && m[p].a.kind == Adopt)
    && (forall p :: p in parts.asked ==> p in m && m[p].a.Writes())
  }

  ghost predicate AskedFor(actions: seq<Action>, asked: seq<string>) {
    Sorting.Distinct(asked) && forall p :: p in asked ==> exists a :: a in actions && a.path == p && a.Writes()
  }

  method Split(ghost s0: State, ghost cs: seq<Change>, actions: seq<Action>, ghost arrivals: map<string, Arrival>,
      ghost m: map<string, Work>, asked: seq<string>)
    returns (parts: Parts)
    requires DistinctActions(actions) && Indexed(s0, cs, actions, arrivals, m) && AskedFor(actions, asked)
    ensures PartsOf(m, parts) && parts.asked == asked
  {
    var dels := Links.Deletes(actions);
    DeletesAre(actions, dels);
    var dirs := OfKind(actions, {Mkdir, Chmod});
    var links := OfKind(actions, {Link});
    var adopts := OfKind(actions, {Adopt});
    AnyIsIndexed(s0, cs, actions, arrivals, m, {Delete});
    AnyIsIndexed(s0, cs, actions, arrivals, m, {Mkdir, Chmod});
    AnyIsIndexed(s0, cs, actions, arrivals, m, {Link});
    AnyIsIndexed(s0, cs, actions, arrivals, m, {Adopt});
    parts := Parts(dels, dirs, links, adopts, asked);
  }

  lemma {:induction false} AnyIsIndexed(s0: State, cs: seq<Change>, actions: seq<Action>,
      arrivals: map<string, Arrival>, m: map<string, Work>, kinds: set<Kind>)
    requires Indexed(s0, cs, actions, arrivals, m)
    ensures forall p :: AnyAt(actions, p, kinds) <==> p in m && m[p].a.kind in kinds
  {
    forall p ensures AnyAt(actions, p, kinds) <==> p in m && m[p].a.kind in kinds {
      assert p in m ==> m[p].a in actions && m[p].a.path == p;
    }
  }

  lemma {:induction false} PartsOrdered(m: map<string, Work>, parts: Parts)
    requires PartsOf(m, parts)
    ensures Ordered(m, parts.dels, parts.Rest())
  {
    JoinApart(parts.dirs, parts.links);
    JoinApart(parts.dirs + parts.links, parts.adopts);
    JoinApart(parts.dirs + parts.links + parts.adopts, parts.asked);
    JoinApart(parts.dels, parts.Rest());
  }

  /** A change is in the index exactly if something was decided for it. */
  lemma {:induction false} IndexedAt(s0: State, cs: seq<Change>, actions: seq<Action>, arrivals: map<string, Arrival>,
      m: map<string, Work>, c: Change)
    requires DistinctChanges(cs) && ActsOk(s0, cs, actions) && Indexed(s0, cs, actions, arrivals, m) && c in cs
    ensures c.path in m <==> ActsOf(s0, c) != []
    ensures c.path in m ==> m[c.path].a == ActsOf(s0, c)[0]
  {
    OneAct(s0, c);
    if ActsOf(s0, c) != [] {
      var a := ActsOf(s0, c)[0];
      assert a in actions && a.path in m;
    }
    if c.path in m {
      EnteredIs(s0, cs, arrivals, m[c.path], c);
    }
  }

  lemma {:induction false} EnteredIs(s0: State, cs: seq<Change>, arrivals: map<string, Arrival>, w: Work, c: Change)
    requires DistinctChanges(cs) && Entered(s0, cs, arrivals, w) && c in cs && w.c.path == c.path
    ensures ActsOf(s0, c) != [] && w.a == ActsOf(s0, c)[0]
  {
    SameChange(cs, w.c, c);
    OneAct(s0, c);
  }

  lemma {:induction false} OneAct(s0: State, c: Change)
    ensures |ActsOf(s0, c)| <= 1 && (ActsOf(s0, c) != [] ==> ActsOf(s0, c)[0].path == c.path)
  {
    OneIsLicensed(s0.v, c);
  }

  lemma {:induction false} InParts(m: map<string, Work>, parts: Parts, p: string)
    requires PartsOf(m, parts)
    ensures p in parts.dels + parts.Rest() <==> p in m && (m[p].a.kind !in {Write, Conflict} || p in parts.asked)
    ensures p in parts.asked ==> p in m && m[p].a.Writes()
  {
    assert p in parts.dels + parts.Rest() <==>
      p in parts.dels || p in parts.dirs || p in parts.links || p in parts.adopts || p in parts.asked;
  }

  lemma {:induction false} TriedPaths(m: map<string, Work>, paths: seq<string>, work: seq<Work>, p: string)
    requires Listed(m, paths, work) && forall q :: q in m ==> m[q].c.path == q
    ensures Tried(work, p) <==> p in paths
  {
    if p in paths {
      var i :| 0 <= i < |paths| && paths[i] == p;
      assert work[i] in work;
    }
  }

  /** What is carried out for a change: whatever is decided, but a file only if it is
      asked for. */
  ghost predicate TriedOf(s0: State, asked: seq<string>, work: seq<Work>, c: Change) {
    Tried(work, c.path) <==> Asks(s0, c) && (c.link == "" && Overwrites(s0.v, c) ==> c.path in asked)
  }

  lemma {:induction false} TriedAre(s0: State, cs: seq<Change>, actions: seq<Action>, arrivals: map<string, Arrival>,
      m: map<string, Work>, parts: Parts, work: seq<Work>, c: Change)
    requires DistinctChanges(cs) && ActsOk(s0, cs, actions) && Indexed(s0, cs, actions, arrivals, m) && c in cs
    requires PartsOf(m, parts) && Listed(m, parts.dels + parts.Rest(), work)
    ensures TriedOf(s0, parts.asked, work, c)
  {
    TriedPaths(m, parts.dels + parts.Rest(), work, c.path);
    InParts(m, parts, c.path);
    IndexedAt(s0, cs, actions, arrivals, m, c);
    AsksKinds(s0, c);
  }

  /** Which decisions ask for something. */
  lemma {:induction false} AsksKinds(s0: State, c: Change)
    ensures Asks(s0, c) <==>
      ActsOf(s0, c) != [] && (ActsOf(s0, c)[0].kind !in {Write, Conflict} || ActsOf(s0, c)[0].Writes())
    ensures c.link == "" ==> (Overwrites(s0.v, c) <==> ActsOf(s0, c) != [] && ActsOf(s0, c)[0].Writes())
    ensures c.link != "" && ActsOf(s0, c) != [] ==> !ActsOf(s0, c)[0].Writes()
  {
  }

  /** The work of a pass, in its order. Every decision is in it but the files it does
      not ask for this time. */
  method Plan(ghost s0: State, cs: seq<Change>, actions: seq<Action>, asked: seq<string>,
      arrivals: map<string, Arrival>) returns (work: seq<Work>)
    requires DistinctChanges(cs) && ActsOk(s0, cs, actions) && AskedFor(actions, asked) && InTimeAll(s0, cs, arrivals)
    ensures Planned(s0, cs, work) && forall c :: c in cs ==> TriedOf(s0, asked, work, c)
  {
    var m := Index(s0, cs, actions, arrivals);
    var parts := Split(s0, cs, actions, arrivals, m, asked);
    PartsOrdered(m, parts);
    work := At(m, parts.dels + parts.Rest());
    OrderPlans(s0, cs, actions, arrivals, m, parts.dels, parts.Rest(), work);
    forall c | c in cs ensures TriedOf(s0, asked, work, c) {
      TriedAre(s0, cs, actions, arrivals, m, parts, work, c);
    }
  }

  /** Everything decided about a list. */
  method Actions(ghost s0: State, v: View, links: map<string, WP.Symlink>, cs: seq<Change>, ghost asked: seq<string>)
    returns (actions: seq<Action>)
    requires s0 == State(v, links) && DistinctChanges(cs) && (forall r :: r in v.recorded ==> Rooted(r) && r != "/")
    requires AskedFor(DecidedAll(v, cs), asked)
    ensures ActsOk(s0, cs, actions) && AskedFor(actions, asked)
  {
    var decided := DecideAll(v, cs);
    var at := map c | c in cs :: c.path := WP.LinkAt(v.local, links, c.path);
    var linked := Links.DecideLinks(v.manifest, cs, at);
    AllActs(s0, cs, at);
    AskedStill(decided, linked, asked);
    actions := decided + linked;
  }

  lemma {:induction false} AskedStill(actions: seq<Action>, more: seq<Action>, asked: seq<string>)
    requires AskedFor(actions, asked)
    ensures AskedFor(actions + more, asked)
  {
    forall p | p in asked ensures exists a :: a in actions + more && a.path == p && a.Writes() {
      var a :| a in actions && a.path == p && a.Writes();
      assert a in actions + more;
    }
  }

  /** A file the pass does not ask for this time. */
  ghost predicate NotAsked(s0: State, cs: seq<Change>, asked: seq<string>, c: Change) {
    c.link == "" && Overwrites(s0.v, c) && !UnderLink(cs, c) && c.path !in asked
  }

  /** What is left of a change after a pass: a file not asked for this time, something
      in its way, or a list that has it under a link. */
  ghost predicate Left(s0: State, cs: seq<Change>, asked: seq<string>, work: seq<Work>, c: Change, s: State) {
    || UnderLink(cs, c) || (c.link == "" && Overwrites(s0.v, c) && c.path !in asked)
    || exists w :: w in work && w.c == c && Stuck(s0, w, s)
  }

  /** Decide, put in order, carry out: once nobody else is at work, the same changes
      decided again leave nothing to move but files not asked for, what is stuck and
      what is listed under a link. */
  method Pass(v: View, links: map<string, WP.Symlink>, cs: seq<Change>, asked: seq<string>,
      arrivals: map<string, Arrival>, dir: Info)
    returns (p: WP.WritePass, work: seq<Work>)
    requires DistinctChanges(cs) && (forall c :: c in cs ==> Rooted(c.path) && c.path != "/")
    requires FsOk(State(v, links)) && TimesOk(v) && dir.isDir && (forall r :: r in v.recorded ==> Rooted(r) && r != "/")
    requires InTimeAll(State(v, links), cs, arrivals) && AskedFor(DecidedAll(v, cs), asked)
    ensures Planned(State(v, links), cs, work)
    ensures forall c :: c in cs && Remains(c, StateOf(p)) ==> Left(State(v, links), cs, asked, work, c, StateOf(p))
    ensures forall w :: w in work && Stuck(State(v, links), w, StateOf(p)) ==> Undone(State(v, links), w, StateOf(p))
    ensures forall c :: c in cs && NotAsked(State(v, links), cs, asked, c) ==>
      Remains(c, StateOf(p)) || Overtaken(c, StateOf(p))
  {
    p := new WP.WritePass(v, links);
    ghost var s0 := StateOf(p);
    var actions := Actions(s0, v, links, cs, asked);
    work := Plan(s0, cs, actions, asked, arrivals);
    Run(p, s0, cs, work, dir);
    forall c | c in cs && Remains(c, StateOf(p)) ensures Left(s0, cs, asked, work, c, StateOf(p)) {
      assert Excused(s0, cs, work, c, StateOf(p)) && TriedOf(s0, asked, work, c);
    }
    forall c | c in cs && NotAsked(s0, cs, asked, c) ensures Remains(c, StateOf(p)) || Overtaken(c, StateOf(p)) {
      assert TriedOf(s0, asked, work, c) && Waiting(s0, cs, work, c);
    }
  }
}
