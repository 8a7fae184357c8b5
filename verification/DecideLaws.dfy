/** What write-back promises whatever the changes, the clocks and the files: a
    file here goes only if it is still the one the consumer was given or the
    consumer wrote later; nothing is dropped silently; and a change that has
    landed is not decided again. */
module DecideLaws {
  import opened Basics
  import opened ShareView
  import opened Decide

  // ----- safety

  /** A file present here may be replaced, removed or have its mode changed. `ctime`
      is its change time as far as it was read. */
  predicate Licensed(v: View, base: Option<Baseline>, info: Info, ctime: Option<int>, c: Change) {
    || (base.Some? && info.size == base.value.size && info.mod == base.value.mod)
    || (ctime.Some? && c.changed != 0 && c.changed - v.skew - ctime.value > Need(v, base, info, c))
    || (ctime.Some? && base.None? && !c.deleted && c.changed == 0 && c.modTime - v.skew - ctime.value > v.margin)
    || (ctime.None? && base.Some? && !c.deleted && c.modTime - v.skew > info.mod)
  }

  /** How much later the consumer must be: nothing more for a held file both sides
      changed, the margin for everything else. */
  function Need(v: View, base: Option<Baseline>, info: Info, c: Change): int {
    if base.Some? && !info.isDir && !c.deleted && !SameContent(c, info) then 0 else v.margin
  }

  function BaseAt(v: View, p: string): Option<Baseline> {
    if p in v.manifest then Some(v.manifest[p]) else None
  }

  /** Replaces, removes or changes the mode of what is at its path. */
  predicate Touches(a: Action) {
    a.Writes() || a.kind == Delete || a.kind == Chmod
  }

  /** What an action says it saw is what is there. */
  predicate SeenIn(v: View, p: string, a: Action) {
    && a.path == p && a.seen.here == (p in v.local)
    && (a.seen.ctime.Some? ==> p in v.ctimes && a.seen.ctime.value == v.ctimes[p])
    && (p in v.local ==> a.seen.size == v.local[p].size && a.seen.mod == v.local[p].mod)
  }

  lemma {:induction false} OneIsLicensed(v: View, c: Change)
    ensures forall a :: a in Decided(v, c) && Touches(a) && c.path in v.local ==>
              Licensed(v, BaseAt(v, c.path), v.local[c.path], a.seen.ctime, c)
    ensures forall a :: a in Decided(v, c) ==> SeenIn(v, c.path, a)
  {
    var d := DecideOne(v, c, Held(v.recorded, c.path));
    if d.act.Some? && Touches(d.act.value) && c.path in v.local {
      if c.path in v.manifest && !v.local[c.path].isDir {
        if !c.deleted && SameContent(c, v.local[c.path]) {
          assert d == DecideCopy(v, c);
        } else {
          assert d == DecideHeld(v, c, v.manifest[c.path]);
        }
      }
    }
  }

  /** Every action comes from one of the changes. */
  lemma {:induction false} FromAChange(v: View, cs: seq<Change>, a: Action)
    requires a in DecidedAll(v, cs)
    ensures exists c :: c in cs && a in Decided(v, c)
  {
    var last := |cs| - 1;
    if a in Decided(v, cs[last]) {
      assert cs[last] in cs;
    } else {
      FromAChange(v, cs[..last], a);
    }
  }

  /** The safety of a whole decision, for every change list, skew and margin. */
  lemma {:induction false} AllLicensed(v: View, cs: seq<Change>, a: Action)
    requires a in DecidedAll(v, cs) && Touches(a) && a.path in v.local
    ensures exists c :: c in cs && c.path == a.path && Licensed(v, BaseAt(v, a.path), v.local[a.path], a.seen.ctime, c)
  {
    FromAChange(v, cs, a);
    var c :| c in cs && a in Decided(v, c);
    OneIsLicensed(v, c);
  }

  // ----- lists that name a path more than once

  /** The consumer's time that the last change of a path was held against this
      machine's by, 0 when none was. */
  ghost function LastAsked(v: View, cs: seq<Change>, p: string): int {
    if cs == [] then 0
    else
      var c := cs[|cs| - 1];
      if c.path == p && c.link == "" && !c.replaced then DecideOne(v, c, Held(v.recorded, p)).asked
      else LastAsked(v, cs[..|cs| - 1], p)
  }

  lemma {:induction false} NotedIsSeen(v: View, cs: seq<Change>, p: string)
    ensures p in Noted(v, cs) ==> Noted(v, cs)[p] == SeenOf(v, p, LastAsked(v, cs, p))
    ensures p !in Noted(v, cs) ==>
      LastAsked(v, cs, p) == 0 && forall c :: c in cs && c.path == p ==> c.link != "" || c.replaced
  {
    if cs != [] {
      NotedIsSeen(v, cs[..|cs| - 1], p);
    }
  }

  /** What one change asks for, marked with what was seen by a list. */
  ghost predicate MarkedFrom(v: View, c: Change, a: Action) {
    Decided(v, c) != [] && c.path == a.path && a == Decided(v, c)[0].(seen := a.seen)
  }

  lemma {:induction false} PlainFrom(v: View, cs: seq<Change>, plain: Action)
    requires plain in PlainAll(v, cs)
    ensures exists c :: c in cs && plain in Plain(DecideOne(v, c, Held(v.recorded, c.path)))
  {
    var last := |cs| - 1;
    if plain in Plain(DecideOne(v, cs[last], Held(v.recorded, cs[last].path))) {
      assert cs[last] in cs;
    } else {
      PlainFrom(v, cs[..last], plain);
    }
  }

  /** The safety of a decision over any list, paths repeated or not: every action is
      that of one of the changes, with its licence, and what it says it saw is there.
      It carries the change time its decision was by exactly if the last change of
      the path was decided by it too, or by none. */
  lemma {:induction false} MarkedLicensed(v: View, cs: seq<Change>, actions: seq<Action>, a: Action) returns (c: Change)
    requires AllMarked(actions, PlainAll(v, cs), Noted(v, cs)) && a in actions
    ensures c in cs && MarkedFrom(v, c, a) && SeenIn(v, c.path, a)
    ensures Touches(a) && c.path in v.local ==>
      Licensed(v, BaseAt(v, c.path), v.local[c.path], Decided(v, c)[0].seen.ctime, c)
    ensures a.seen == Decided(v, c)[0].seen <==>
            c.path !in v.ctimes
              || (DecideOne(v, c, Held(v.recorded, c.path)).asked != 0 <==> LastAsked(v, cs, c.path) != 0)
  {
    var k :| 0 <= k < |actions| && actions[k] == a;
    var plain := PlainAll(v, cs)[k];
    assert plain in PlainAll(v, cs);
    PlainFrom(v, cs, plain);
    c :| c in cs && plain in Plain(DecideOne(v, c, Held(v.recorded, c.path)));
    DecisionShape(v, c, Held(v.recorded, c.path));
    NotedIsSeen(v, cs, c.path);
    OneIsLicensed(v, c);
  }

  /** The input on which it does not: a removal decided by the change time, in a list
      that names the path again. */
  lemma {:induction false} RepeatLosesTime(p: string)
    ensures var v := View(map[], {}, map[p := Info(1, 0, NO_BITS, false)], map[p := 0], 0, 0, NO_BITS);
            var gone := Change(p, 0, 0, true, false, "", SECOND, false, NO_BITS);
            var dir := Change(p, 0, 0, false, false, "", 0, true, NO_BITS);
            && Does(v, gone, Delete) && Decided(v, gone)[0].seen.ctime == Some(0)
            && Noted(v, [gone, dir]) == map[p := SeenOf(v, p, 0)] && SeenOf(v, p, 0).ctime == None
  {
    var v := View(map[], {}, map[p := Info(1, 0, NO_BITS, false)], map[p := 0], 0, 0, NO_BITS);
    var gone := Change(p, 0, 0, true, false, "", SECOND, false, NO_BITS);
    var dir := Change(p, 0, 0, false, false, "", 0, true, NO_BITS);
    assert [gone, dir][..1] == [gone] && [gone][..0] == [];
    assert Noted(v, [gone]).Keys == {p};
    assert LastWriter(v, p, SECOND, 0) == ConsumerLast;
  }

  /** Whether this machine still has what was seen. A link that leads nowhere is
      something too. */
  predicate StillAsSeen(seen: Seen, local: map<string, Info>, ctimes: map<string, int>, links: set<string>, p: string) {
    if !seen.here then p !in local && p !in links
    else p in local && local[p].size == seen.size && local[p].mod == seen.mod
         && (seen.ctime.Some? ==> p in ctimes && ctimes[p] == seen.ctime.value)
  }

  /** A pass may run for minutes: what the check just before the touch lets
      through is licensed by the file as it is then. */
  lemma {:induction false} GuardKeepsLicence(v: View, c: Change, a: Action, local: map<string, Info>,
      ctimes: map<string, int>, links: set<string>)
    requires a in Decided(v, c) && Touches(a) && !a.dir && StillAsSeen(a.seen, local, ctimes, links, c.path)
      && c.path in local
    requires a.Writes() ==> !local[c.path].isDir
    ensures Licensed(v, BaseAt(v, c.path), local[c.path], a.seen.ctime, c)
    ensures a.seen.ctime.Some? ==> c.path in ctimes && ctimes[c.path] == a.seen.ctime.value
  {
    OneIsLicensed(v, c);
    TouchShape(v, c);
  }

  lemma {:induction false} TouchShape(v: View, c: Change)
    ensures forall a :: a in Decided(v, c) && Touches(a) && !a.dir && c.path in v.local ==> !v.local[c.path].isDir
    ensures forall a :: a in Decided(v, c) && a.kind == Delete ==> c.deleted
    ensures forall a :: a in Decided(v, c) && a.kind == Chmod && c.path in v.local ==> SameContent(c, v.local[c.path])
  {
  }

  // ----- who wins, exactly

  /** The consumer's change time is known, so is this machine's, and the consumer's
      is later by more than an amount. */
  predicate KnownLater(v: View, p: string, theirs: int, amount: int) {
    theirs != 0 && p in v.ctimes && theirs - v.skew - v.ctimes[p] > amount
  }

  /** A held file both sides changed is the consumer's: by the change times where
      both are known, by the modification times where not. */
  predicate HeldLater(v: View, c: Change, info: Info) {
    if c.changed != 0 && c.path in v.ctimes then KnownLater(v, c.path, c.changed, 0)
    else c.modTime - v.skew > info.mod
  }

  ghost predicate Does(v: View, c: Change, k: Kind) {
    Decided(v, c) != [] && Decided(v, c)[0].kind == k
  }

  ghost predicate Overwrites(v: View, c: Change) {
    Decided(v, c) != [] && Decided(v, c)[0].Writes() && Decided(v, c)[0].consumer == c.modTime
  }

  ghost predicate Keeps(v: View, c: Change) {
    Decided(v, c) != [] && Decided(v, c)[0].kind == Conflict && !Decided(v, c)[0].wins
  }

  /** The consumer's version of a file present here: when it replaces it, only its
      execute bit does, it is taken as a baseline, or it is kept out. */
  lemma {:induction false} FileOutcome(v: View, c: Change)
    requires c.File() && c.path in v.local && !v.local[c.path].isDir
    ensures var p, info := c.path, v.local[c.path];
            var copy, sent := SameContent(c, info), p in v.manifest;
            && (Overwrites(v, c) <==>
                !copy
                  && if sent
                  then !Carries(v.manifest[p], c) && (Untouched(v.manifest[p], info) || HeldLater(v, c, info))
                         else KnownLater(v, p, if c.changed != 0 then c.changed else c.modTime, v.margin))
            && (Does(v, c, Chmod) <==> copy && ExecFlip(c, info, v.exec) != 0 && KnownLater(v, p, c.changed, v.margin))
            && (Does(v, c, Adopt) <==> copy && ExecFlip(c, info, v.exec) == 0 && !sent)
            && (Keeps(v, c) <==> Decided(v, c) != [] && !Overwrites(v, c) && !Does(v, c, Chmod) && !Does(v, c, Adopt))
  {
    if c.path in v.manifest && !SameContent(c, v.local[c.path]) && !Carries(v.manifest[c.path], c) {
      assert DecideOne(v, c, Held(v.recorded, c.path)) == DecideHeld(v, c, v.manifest[c.path]);
    }
  }

  /** One this machine does not have: it comes, unless it is the version that was
      sent and is gone here, or the record of another session has it. */
  lemma {:induction false} NewFileOutcome(v: View, c: Change)
    requires c.File() && c.path !in v.local
    ensures Overwrites(v, c) <==>
      if c.path in v.manifest then !Carries(v.manifest[c.path], c) else c.path !in v.recorded
    ensures Overwrites(v, c) <==> Decided(v, c) != []
  {
  }

  /** A file the consumer deleted goes, or is kept. */
  lemma {:induction false} DeletionOutcome(v: View, c: Change)
    requires c.deleted && c.link == "" && !c.replaced && !c.dir && c.path in v.local && !v.local[c.path].isDir
    ensures Does(v, c, Delete) <==>
      if c.path in v.manifest then AsSent(v, c.path) else KnownLater(v, c.path, c.changed, v.margin)
    ensures Keeps(v, c) <==> !Does(v, c, Delete)
  {
  }

  /** A directory the consumer made or replaced is made where nothing is, unless
      it is what is left of one removed here; one it removed goes if it was last. */
  lemma {:induction false} DirOutcome(v: View, c: Change)
    requires c.link == "" && (c.replaced || c.dir || (c.path in v.local && v.local[c.path].isDir))
    ensures Does(v, c, Mkdir) <==> (c.replaced || c.dir) && c.path !in v.local && !Held(v.recorded, c.path)
    ensures Does(v, c, Delete) <==> !c.replaced && !c.dir && c.deleted && KnownLater(v, c.path, c.changed, v.margin)
    ensures Does(v, c, Delete) ==> Decided(v, c)[0].dir
    ensures Keeps(v, c) <==> !c.replaced && c.path in v.local && if c.dir then !v.local[c.path].isDir else !c.deleted
  {
  }

  /** What a person is told: that a time is not known only if it is not, and that
      they were later only if both are known and they were. */
  lemma {:induction false} ReasonIsTrue(v: View, c: Change)
    requires Keeps(v, c)
    ensures var why, p := Decided(v, c)[0].why, c.path;
            var theirs := if c.changed != 0 || c.deleted then c.changed else c.modTime;
            && (why == OldWorkspace ==> c.deleted && c.changed == 0)
            && (why == NoChangeTime ==> theirs == 0 || p !in v.ctimes)
            && (why == YouLater ==> p in v.ctimes && !KnownLater(v, p, theirs, v.margin) && !c.deleted)
            && (why == YouLaterDeleted ==>
              c.changed != 0 && p in v.ctimes && !KnownLater(v, p, c.changed, v.margin) && c.deleted)
            && (why == DirHere ==> p in v.local && v.local[p].isDir && !c.dir)
            && (why == FileHere ==> p in v.local && !v.local[p].isDir && c.dir)
            && (why == DeletedThereChangedHere ==>
              c.deleted && p in v.manifest && p in v.local && !Untouched(v.manifest[p], v.local[p]))
            && (why == BothChanged ==>
              p in v.manifest && p in v.local && !Untouched(v.manifest[p], v.local[p]) && !HeldLater(v, c, v.local[p]))
            && why != NoReason
  {
    if c.path in v.local && !v.local[c.path].isDir && c.File() && !SameContent(c, v.local[c.path])
      && c.path in v.manifest {
      assert DecideOne(v, c, Held(v.recorded, c.path)) == DecideHeld(v, c, v.manifest[c.path]);
    }
  }

  /** What an action carries along: the consumer's time of a version that is taken or
      weighed, an execute bit to set or clear only where a file here keeps its own bits,
      and no more. */
  predicate Carrying(v: View, c: Change, a: Action) {
    && a.path == c.path && a.link == "" && a.linkSeen == NO_LINK
    && a.consumer == (if a.Writes() || a.kind == Adopt || a.why == BothChanged then c.modTime else 0)
    && a.exec
      == (if (a.kind == Chmod || a.Writes()) && c.path in v.local then ExecFlip(c, v.local[c.path], v.exec) else 0)
    && (a.dir <==> a.kind == Delete && c.path in v.local && v.local[c.path].isDir)
    && (a.wins ==> a.kind == Conflict) && (a.kind != Conflict ==> a.why == NoReason)
  }

  lemma {:induction false} ActionCarries(v: View, c: Change)
    ensures forall a :: a in Decided(v, c) ==> Carrying(v, c, a)
  {
    var p, d := c.path, DecideOne(v, c, Held(v.recorded, c.path));
    if d.act.Some? {
      if p in v.local && !v.local[p].isDir {
        FileCarries(v, c);
      }
      assert Carrying(v, c, d.act.value);
    }
  }

  lemma {:induction false} FileCarries(v: View, c: Change)
    requires c.path in v.local && !v.local[c.path].isDir
    ensures DecideCopy(v, c).act.Some? ==> Carrying(v, c, DecideCopy(v, c).act.value)
    ensures DecideUnheld(v, c).act.Some? ==> Carrying(v, c, DecideUnheld(v, c).act.value)
    ensures forall b :: DecideHeld(v, c, b).act.Some? ==> Carrying(v, c, DecideHeld(v, c, b).act.value)
  {
  }

  /** The change time of this machine is looked at exactly where the two sides' times are
      held against each other and the consumer's is known. */
  lemma {:induction false} TimeIsAsked(v: View, c: Change)
    ensures forall a :: a in Decided(v, c) ==>
      (a.seen.ctime.Some? <==> c.path in v.ctimes && c.path in v.local && TimesCompared(v, c) != 0)
  {
    var p := c.path;
    if p in v.local && !v.local[p].isDir && c.link == "" && !c.replaced && !c.dir && p in v.manifest
      && !(!c.deleted && (SameContent(c, v.local[p]) || Carries(v.manifest[p], c))) {
      assert DecideOne(v, c, Held(v.recorded, p)) == DecideHeld(v, c, v.manifest[p]);
    }
  }

  /** What the baseline stands for is here still, or gone. */
  predicate AsSent(v: View, p: string) {
    && p in v.manifest
    && (p in v.local ==>
      !v.local[p].isDir && v.local[p].size == v.manifest[p].size && v.local[p].mod == v.manifest[p].mod)
  }

  /** The consumer's time that decides, 0 where none does. */
  function TimesCompared(v: View, c: Change): int
    requires c.path in v.local
  {
    var info := v.local[c.path];
    if c.replaced || c.dir || (info.isDir && !c.deleted) then 0
    else if info.isDir then c.changed
    else if !c.deleted && SameContent(c, info) then if ExecFlip(c, info, v.exec) != 0 then c.changed else 0
    else if c.path !in v.manifest then if c.deleted || c.changed != 0 then c.changed else c.modTime
    else if c.deleted || AsSent(v, c.path) then 0 else c.changed
  }

  // ----- nothing is lost silently

  /** The size and the time of another file, the time on either side maybe rounded to the
      second. */
  predicate IsCopy(c: Change, size: int, mod: int) {
    c.size == size && (c.modTime == mod || Rounds(c.modTime, mod) || Rounds(mod, c.modTime))
  }

  /** The version a baseline stands for: a copy of it, or what was carried back for it. */
  predicate IsVersion(c: Change, b: Baseline) {
    IsCopy(c, b.size, b.mod) || (c.size == b.size && b.consumer != 0 && c.modTime == b.consumer)
  }

  /** The consumer's file gets no action exactly when it is a copy of a held file
      here, the version its baseline stands for, or a file this machine deleted
      in another session. */
  lemma {:induction false} SilentExactly(v: View, c: Change)
    requires c.File()
    ensures Decided(v, c) == [] <==>
            (var p := c.path;
             if p in v.local then
               !v.local[p].isDir && p in v.manifest
                 && (if IsCopy(c, v.local[p].size, v.local[p].mod) then ExecFlip(c, v.local[p], v.exec) == 0
                 else IsVersion(c, v.manifest[p]))
             else
               if p in v.manifest then IsVersion(c, v.manifest[p]) else p in v.recorded)
  {
    if c.path in v.local {
      CopiedIsNear(c.modTime, v.local[c.path].mod);
    }
    if c.path in v.manifest {
      CopiedIsNear(c.modTime, v.manifest[c.path].mod);
    }
  }

  /** Another size, or a time more than half a second off. */
  predicate Apart(c: Change, size: int, mod: int) {
    c.size != size || 2 * c.modTime - 2 * mod > SECOND || 2 * mod - 2 * c.modTime > SECOND
  }

  /** A consumer's edit is answered: a file apart from the one here, and from the version
      its baseline stands for, always gets an action where the path is here or was sent. */
  lemma {:induction false} EditIsAnswered(v: View, c: Change)
    requires c.File() && (c.path in v.local || c.path in v.manifest)
    requires c.path in v.local ==> Apart(c, v.local[c.path].size, v.local[c.path].mod)
    requires c.path in v.manifest ==>
      && Apart(c, v.manifest[c.path].size, v.manifest[c.path].mod)
      && (c.size == v.manifest[c.path].size ==>
          v.manifest[c.path].consumer == 0 || c.modTime != v.manifest[c.path].consumer)
    ensures Decided(v, c) != [] && Decided(v, c)[0].kind != Adopt && Decided(v, c)[0].kind != Chmod
    ensures AsSent(v, c.path) ==> Overwrites(v, c)
  {
    if c.path in v.local {
      CopiedIsNear(c.modTime, v.local[c.path].mod);
    }
    if c.path in v.manifest {
      CopiedIsNear(c.modTime, v.manifest[c.path].mod);
    }
    if c.path in v.local && !v.local[c.path].isDir {
      FileOutcome(v, c);
    }
    SilentExactly(v, c);
  }

  /** What the record does hide: a version the consumer wrote of a file that an
      earlier session sent and that is gone here is dropped without a word. */
  lemma {:induction false} RecordHides(p: string)
    ensures var c := Change(p, 7, 5 * SECOND, false, false, "", 5 * SECOND, false, NO_BITS);
            Decided(View(map[], {p}, map[], map[], 0, 0, NO_BITS), c) == []
  {
  }

  // ----- convergence

  /** The file a write leaves: the consumer's size, its time whole or to the
      nanosecond, and the bits a file here keeps or a new one takes. */
  predicate LandedFile(c: Change, a: Action, was: Option<Info>, perm: Mode, now: Info) {
    && now.size == c.size && !now.isDir
    && (now.mod == c.modTime || now.mod == Round(c.modTime))
    && now.mode == (if was.Some? then WithExec(was.value.mode, a.exec) else perm)
  }

  /** The execute bit came over: always, unless a file nobody may read was to be
      made executable, or a new file arrived with another bit than was reported. */
  predicate BitLands(v: View, c: Change, a: Action, was: Option<Info>, perm: Mode) {
    if was.Some? then a.exec <= 0 || Readable(was.value.mode)
    else ModesKnown(c, v.exec) ==> Meet(c.mode, v.exec) == Runs(perm)
  }

  function InfoAt(v: View, p: string): Option<Info> {
    if p in v.local then Some(v.local[p]) else None
  }

  /** In v' a write of v has landed at the change's path, and the baseline with it. */
  ghost predicate WriteLanded(v: View, c: Change, a: Action, perm: Mode, v': View) {
    var p := c.path;
    && p in v'.local && LandedFile(c, a, InfoAt(v, p), perm, v'.local[p])
    && p in v'.manifest && v'.manifest[p] == Baseline(v'.local[p].size, v'.local[p].mod, a.consumer)
    && v'.exec == v.exec
  }

  /** A landed write is decided again as nothing exactly when its execute bit
      landed; otherwise only that bit is asked for or kept. */
  lemma {:induction false} WriteConverges(v: View, c: Change, a: Action, perm: Mode, v': View)
    requires a in Decided(v, c) && a.Writes() && WriteLanded(v, c, a, perm, v')
    ensures Decided(v', c) == [] <==> BitLands(v, c, a, InfoAt(v, c.path), perm)
    ensures forall b :: b in Decided(v', c) ==> b.kind == Chmod || (b.kind == Conflict && !b.wins)
  {
    WriteShape(v, c, a);
    FlipAfter(v, c, a, perm, v'.local[c.path]);
    LandedIsCopy(v, c, a, v');
  }

  /** However the bits came out, a file with the consumer's size and time is a
      copy from then on. */
  lemma {:induction false} LandedIsCopy(v: View, c: Change, a: Action, v': View)
    requires a in Decided(v, c) && a.Writes() && c.path in v'.local && c.path in v'.manifest
    requires var now := v'.local[c.path];
      now.size == c.size && !now.isDir && (now.mod == c.modTime || now.mod == Round(c.modTime))
    ensures Decided(v', c) == [] <==> ExecFlip(c, v'.local[c.path], v'.exec) == 0
    ensures forall b :: b in Decided(v', c) ==> b.kind == Chmod || (b.kind == Conflict && !b.wins)
  {
    WriteShape(v, c, a);
    RoundIsNearest(c.modTime);
    assert SameContent(c, v'.local[c.path]);
    CopyAgain(v', c);
  }

  lemma {:induction false} WriteShape(v: View, c: Change, a: Action)
    requires a in Decided(v, c) && a.Writes()
    ensures c.File()
    ensures c.path in v.local ==> !v.local[c.path].isDir && a.exec == ExecFlip(c, v.local[c.path], v.exec)
  {
  }

  lemma {:induction false} FlipAfter(v: View, c: Change, a: Action, perm: Mode, now: Info)
    requires LandedFile(c, a, InfoAt(v, c.path), perm, now)
    requires c.path in v.local ==> a.exec == ExecFlip(c, v.local[c.path], v.exec)
    ensures ExecFlip(c, now, v.exec) == 0 <==> BitLands(v, c, a, InfoAt(v, c.path), perm)
  {
    if c.path in v.local {
      FlipCloses(c, v.exec, v.local[c.path], now);
    }
  }

  lemma {:induction false} FlipCloses(c: Change, exec: Mode, was: Info, now: Info)
    requires now.mode == WithExec(was.mode, ExecFlip(c, was, exec))
    ensures ExecFlip(c, now, exec) == 0 <==> ExecFlip(c, was, exec) <= 0 || Readable(was.mode)
  {
  }

  /** A copy of a held file here is answered by its execute bit alone. */
  lemma {:induction false} CopyAgain(v: View, c: Change)
    requires c.File() && c.path in v.local && !v.local[c.path].isDir && SameContent(c, v.local[c.path])
    ensures c.path in v.manifest && ExecFlip(c, v.local[c.path], v.exec) == 0 ==> Decided(v, c) == []
    ensures ExecFlip(c, v.local[c.path], v.exec) == 0 ==> forall b :: b in Decided(v, c) ==> b.kind == Adopt
    ensures ExecFlip(c, v.local[c.path], v.exec) != 0 ==>
              |Decided(v, c)| == 1
                && (Decided(v, c)[0].kind == Chmod || (Decided(v, c)[0].kind == Conflict && !Decided(v, c)[0].wins))
  {
  }

  /** A chmod that landed is not asked for again exactly when the file can be read
      or the bit was cleared. */
  lemma {:induction false} ChmodConverges(v: View, c: Change, a: Action, v': View)
    requires a in Decided(v, c) && a.kind == Chmod && c.path in v.local
    requires c.path in v'.local && v'.local[c.path] == v.local[c.path].(mode := WithExec(v.local[c.path].mode, a.exec))
      && v'.exec == v.exec
    ensures (forall b :: b in Decided(v', c) ==> b.kind == Adopt) <==> a.exec < 0 || Readable(v.local[c.path].mode)
  {
    ChmodShape(v, c, a);
    FlipCloses(c, v.exec, v.local[c.path], v'.local[c.path]);
    CopyAgain(v', c);
  }

  /** The bit that does not land: a file nobody may read stays as it is under
      chmod +x, and the same change asks for the bit again. */
  lemma {:induction false} ChmodAsksAgain(p: string)
    ensures var x := Bits(false, false, true);
            var c := Change(p, 1, 9 * SECOND, false, false, "", 9 * SECOND, false, Mode(x, x, x));
            var info := Info(1, 9 * SECOND, NO_BITS, false);
            var v := View(map[], {}, map[p := info], map[p := 0], 0, 0, Mode(x, x, x));
            Does(v, c, Chmod) && WithExec(info.mode, Decided(v, c)[0].exec) == info.mode
  {
    var x := Bits(false, false, true);
    var c := Change(p, 1, 9 * SECOND, false, false, "", 9 * SECOND, false, Mode(x, x, x));
    var info := Info(1, 9 * SECOND, NO_BITS, false);
    assert MeetBits(x, x) && ExecFlip(c, info, Mode(x, x, x)) == 1;
  }

  lemma {:induction false} ChmodShape(v: View, c: Change, a: Action)
    requires a in Decided(v, c) && a.kind == Chmod
    ensures c.File() && c.path in v.local && !v.local[c.path].isDir && SameContent(c, v.local[c.path])
    ensures a.exec == ExecFlip(c, v.local[c.path], v.exec) && a.exec != 0
  {
  }

  /** An adopted copy is not asked about again. */
  lemma {:induction false} AdoptConverges(v: View, c: Change, a: Action, v': View)
    requires a in Decided(v, c) && a.kind == Adopt && c.path in v.local
    requires c.path in v'.local && v'.local[c.path] == v.local[c.path] && c.path in v'.manifest && v'.exec == v.exec
    ensures Decided(v', c) == []
  {
    AdoptShape(v, c, a);
    CopyAgain(v', c);
  }

  lemma {:induction false} AdoptShape(v: View, c: Change, a: Action)
    requires a in Decided(v, c) && a.kind == Adopt
    ensures c.File() && c.path in v.local && !v.local[c.path].isDir && SameContent(c, v.local[c.path])
    ensures ExecFlip(c, v.local[c.path], v.exec) == 0
  {
  }

  /** A deletion, of a file or a directory, is final. */
  lemma {:induction false} DeleteConverges(v: View, c: Change, a: Action, v': View)
    requires a in Decided(v, c) && a.kind == Delete
    requires c.path !in v'.local
    ensures Decided(v', c) == []
  {
  }

  /** A directory made is not made again. */
  lemma {:induction false} MkdirConverges(v: View, c: Change, a: Action, v': View)
    requires a in Decided(v, c) && a.kind == Mkdir
    requires c.path in v'.local && v'.local[c.path].isDir
    ensures Decided(v', c) == []
  {
  }

  // ----- a whole pass

  /** Nothing a decision about a file looks at is different at the path. */
  ghost predicate SameAt(v: View, v': View, p: string) {
    && InfoAt(v, p) == InfoAt(v', p) && BaseAt(v, p) == BaseAt(v', p)
    && (p in v.ctimes <==> p in v'.ctimes) && (p in v.ctimes ==> v.ctimes[p] == v'.ctimes[p])
    && (p in v.recorded <==> p in v'.recorded)
  }

  /** Still a directory at the path, no change time of it lower or newly known. */
  ghost predicate DirStays(v: View, v': View, p: string) {
    && p in v'.local && v'.local[p].isDir
    && (p in v'.ctimes ==> p in v.ctimes && v.ctimes[p] <= v'.ctimes[p])
  }

  /** A change of v that moves nothing has as little to move in v'. A directory the
      consumer has may have come into being here meanwhile, with files landed in
      it; a directory it removed may be gone. */
  ghost predicate Quiet(v: View, c: Change, v': View) {
    var p := c.path;
    if c.link != "" then true
    else if c.replaced || c.dir then p in v'.local || Held(v'.recorded, p)
    else if p in v.local && v.local[p].isDir then DirStays(v, v', p) || (c.deleted && p !in v'.local)
    else SameAt(v, v', p)
  }

  /** Nothing is done about the change: none was decided, or a version is kept. */
  ghost predicate Idle(v: View, c: Change) {
    Decided(v, c) == [] || Keeps(v, c)
  }

  /** What was decided for one change of v is done in v'. */
  ghost predicate Carried(v: View, c: Change, v': View) {
    var p := c.path;
    if Idle(v, c) then Quiet(v, c, v')
    else
      var a := Decided(v, c)[0];
      match a.kind
      case Delete => p !in v'.local
      case Mkdir => p in v'.local && v'.local[p].isDir
      case Chmod => p in v.local && p in v'.local
        && v'.local[p] == v.local[p].(mode := WithExec(v.local[p].mode, a.exec))
        && (a.exec < 0 || Readable(v.local[p].mode))
      case Adopt => p in v.local && p in v'.local && v'.local[p] == v.local[p] && p in v'.manifest
      case _ => exists perm :: BitLands(v, c, a, InfoAt(v, p), perm) && WriteLanded(v, c, a, perm, v')
  }

  /** Once every decision of a pass has landed, the same changes leave nothing to
      move. */
  lemma {:induction false} PassSettles(v: View, cs: seq<Change>, v': View)
    requires v'.skew == v.skew && v'.margin == v.margin && v'.exec == v.exec
    requires forall c :: c in cs ==> Carried(v, c, v')
    ensures forall a :: a in DecidedAll(v', cs) ==> !a.Moves()
  {
    forall a | a in DecidedAll(v', cs) ensures !a.Moves() {
      FromAChange(v', cs, a);
      var c :| c in cs && a in Decided(v', c);
      OneSettles(v, c, v');
    }
  }

  lemma {:induction false} OneSettles(v: View, c: Change, v': View)
    requires v'.skew == v.skew && v'.margin == v.margin && v'.exec == v.exec && Carried(v, c, v')
    ensures forall a :: a in Decided(v', c) ==> !a.Moves()
  {
    if Idle(v, c) {
      QuietStays(v, c, v');
    } else {
      var a := Decided(v, c)[0];
      assert a in Decided(v, c);
      ShapeOf(v, c, a);
      if a.Writes() {
        var perm :| BitLands(v, c, a, InfoAt(v, c.path), perm) && WriteLanded(v, c, a, perm, v');
        WriteConverges(v, c, a, perm, v');
      } else if a.kind == Delete {
        DeleteConverges(v, c, a, v');
      } else if a.kind == Mkdir {
        MkdirConverges(v, c, a, v');
      } else if a.kind == Chmod {
        ChmodConverges(v, c, a, v');
      } else {
        AdoptConverges(v, c, a, v');
      }
    }
  }

  lemma {:induction false} ShapeOf(v: View, c: Change, a: Action)
    requires a in Decided(v, c)
    ensures a.kind == Chmod || a.kind == Adopt ==> c.path in v.local
    ensures a.kind != Link
  {
  }

  lemma {:induction false} QuietStays(v: View, c: Change, v': View)
    requires v'.skew == v.skew && v'.margin == v.margin && v'.exec == v.exec && Idle(v, c) && Quiet(v, c, v')
    ensures forall a :: a in Decided(v', c) ==> !a.Moves()
  {
    if c.link == "" && !c.replaced && !c.dir && !(c.path in v.local && v.local[c.path].isDir) {
      SameDecision(v, c, v');
    }
  }

  lemma {:induction false} SameDecision(v: View, c: Change, v': View)
    requires v'.skew == v.skew && v'.margin == v.margin && v'.exec == v.exec && SameAt(v, v', c.path) && !c.replaced
      && !c.dir
    ensures Decided(v', c) == Decided(v, c)
  {
  }
}
