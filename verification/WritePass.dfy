/** One write-back pass over a share: what was decided, carried out path by path
    while this machine's files may change at any moment. The check of a path and
    the step that touches it are one step; what the filesystem answers is a
    parameter. */
module WritePass {
  import opened Basics
  import opened ShareView
  import opened Decide
  import opened DecideLaws
  import opened Links

  /** How the filesystem answered. */
  datatype Answer = Done | Gone | Failed

  /** A symbolic link's target and own time. */
  datatype Symlink = Symlink(target: string, mod: int)

  /** What a link leads to, and its change time if it can be read. */
  datatype Target = Target(info: Info, ctime: Option<int>)

  /** What is at a path, a link not followed. */
  function LinkAt(local: map<string, Info>, links: map<string, Symlink>, p: string): LinkState {
    if p in links then LinkState(true, true, links[p].target, links[p].mod)
    else if p in local then LinkState(true, false, "", local[p].mod)
    else NO_LINK
  }

  /** Directories made on the way to a path. */
  ghost predicate MadeFor(made: set<string>, p: string, local: map<string, Info>) {
    forall q :: q in made ==> Above(q, p) && q !in local
  }

  function WithDirs(local: map<string, Info>, made: set<string>, dir: Info): map<string, Info> {
    local + map q | q in made :: dir
  }

  /** Change times once some paths were made or changed at a time, if it can be read. */
  function Stamp(ctimes: map<string, int>, paths: set<string>, at: Option<int>): map<string, int> {
    if at.Some? then ctimes + map q | q in paths :: at.value else ctimes - paths
  }

  /** The paths under another, as through a link. */
  function Through<T>(m: map<string, T>, p: string): set<string> {
    set q | q in m && Above(p, q)
  }

  /** A map once a link is landed: what was seen through one it replaces is seen no
      more, and at its path is what it has for it, if anything. */
  function Relinked<T>(m: map<string, T>, p: string, at: Option<T>): map<string, T> {
    var rest := m - Through(m, p) - {p};
    if at.Some? then rest[p := at.value] else rest
  }

  function InfoOf(leads: Option<Target>): Option<Info> {
    if leads.Some? then Some(leads.value.info) else None
  }

  function TimeOf(leads: Option<Target>): Option<int> {
    if leads.Some? then leads.value.ctime else None
  }

  /** Where a link has landed is what it leads to, with its change time, or nothing; what
      lay under its path is gone, and everything else is as it was. */
  lemma {:induction false} LinkShows(local: map<string, Info>, ctimes: map<string, int>, p: string,
      leads: Option<Target>, q: string)
    ensures var now, times := Relinked(local, p, InfoOf(leads)), Relinked(ctimes, p, TimeOf(leads));
      if q == p then
        && (if leads.Some? then p in now && now[p] == leads.value.info else p !in now)
        && (if leads.Some? && leads.value.ctime.Some? then p in times && times[p] == leads.value.ctime.value
            else p !in times)
      else if Above(p, q) then q !in now && q !in times
      else (q in now <==> q in local) && (q in now ==> now[q] == local[q]) && (q in times <==> q in ctimes)
  {
  }

  /** The consumer's version as it was reported. */
  predicate AsReported(c: Change, info: Info) {
    info.size == c.size && !info.isDir && (info.mod == c.modTime || info.mod == Round(c.modTime))
  }

  /** Nothing is under a path, whether it leads anywhere or not. */
  predicate Empty(local: map<string, Info>, links: map<string, Symlink>, p: string) {
    (forall q :: q in local ==> !Above(p, q)) && (forall q :: q in links ==> !Above(p, q))
  }

  class WritePass {
    // What was decided from.
    ghost const decidedOn: View

    // `links` are the symbolic links; what one leads to, if anything, is in `local`.
    var local: map<string, Info>
    var ctimes: map<string, int>
    var links: map<string, Symlink>
    var manifest: map<string, Baseline>
    var recorded: set<string>
    var landed: nat

    /** A pass starts from what the decision saw. */
    constructor (v: View, links: map<string, Symlink>)
      ensures decidedOn == v && Now() == v && landed == 0 && this.links == links
    {
      decidedOn := v;
      local, ctimes, manifest, recorded, landed := v.local, v.ctimes, v.manifest, v.recorded, 0;
      this.links := links;
    }

    /** What a decision taken now would look at. */
    ghost function Now(): View
      reads this
    {
      View(manifest, recorded, local, ctimes, decidedOn.skew, decidedOn.margin, decidedOn.exec)
    }

    /** What the touched path's file had to be for it to be touched. */
    ghost predicate MayTouch(c: Change, a: Action)
      reads this
    {
      && c.path in local && Licensed(decidedOn, BaseAt(decidedOn, c.path), local[c.path], a.seen.ctime, c)
      && (a.seen.ctime.Some? ==> c.path in ctimes && ctimes[c.path] == a.seen.ctime.value)
    }

    /** Whether this machine still has at the path what was seen. */
    predicate Unchanged(a: Action, p: string)
      reads this
    {
      StillAsSeen(a.seen, local, ctimes, links.Keys, p)
    }

    /** Somebody else changes this machine's files, at any moment. */
    method ChangedByUser(local': map<string, Info>, ctimes': map<string, int>, links': map<string, Symlink>)
      modifies this`local, this`ctimes, this`links
      ensures local == local' && ctimes == ctimes' && links == links'
    {
      local, ctimes, links := local', ctimes', links';
    }

    /** Removes a file the consumer deleted, with its baseline and record. */
    method Remove(c: Change, a: Action, answer: Answer) returns (ok: bool)
      requires a in Decided(decidedOn, c) && a.kind == Delete && !a.dir
      modifies this`local, this`ctimes, this`links, this`manifest, this`recorded, this`landed
      ensures ok <==> old(Unchanged(a, c.path)) && (answer == Done || (answer == Gone && c.path !in old(local)))
      ensures if ok
        then local == old(local) - {c.path} && links == old(links) - {c.path} && manifest == old(manifest) - {c.path}
        && recorded == old(recorded) - {c.path}
              else local == old(local) && links == old(links) && manifest == old(manifest) && recorded == old(recorded)
      ensures ctimes == if ok then old(ctimes) - {c.path} else old(ctimes)
      ensures ok && c.path in old(local) ==> old(MayTouch(c, a))
      ensures landed == old(landed) + if ok then 1 else 0
      ensures ok ==> Decided(Now(), c) == []
    {
      ok := Unchanged(a, c.path) && (answer == Done || (answer == Gone && c.path !in local));
      if !ok {
        return;
      }
      if c.path in local {
        GuardKeepsLicence(decidedOn, c, a, local, ctimes, links.Keys);
      }
      OneIsLicensed(decidedOn, c);
      local, ctimes, links := local - {c.path}, ctimes - {c.path}, links - {c.path};
      Commit(c, a);
      landed := landed + 1;
      DeleteConverges(decidedOn, c, a, Now());
    }

    /** Removes a directory the consumer removed, only while nothing is in it, not even
        a link that leads nowhere. */
    method RemoveDir(c: Change, a: Action, answer: Answer) returns (ok: bool)
      requires a in Decided(decidedOn, c) && a.kind == Delete && a.dir
      modifies this`local, this`ctimes, this`landed
      ensures ok <==>
        c.path !in links
        && (c.path in old(local) ==> old(local)[c.path].isDir && answer == Done && Empty(old(local), links, c.path))
      ensures if ok then local == old(local) - {c.path} && ctimes == old(ctimes) - {c.path}
        else local == old(local) && ctimes == old(ctimes)
      ensures landed == old(landed) + if ok then 1 else 0
      ensures ok ==> Decided(Now(), c) == []
    {
      ok := c.path !in links
        && (c.path in local ==> local[c.path].isDir && answer == Done && Empty(local, links, c.path));
      if ok {
        local, ctimes := local - {c.path}, ctimes - {c.path};
        DeleteConverges(decidedOn, c, a, Now());
        landed := landed + 1;
      }
    }

    /** Makes a directory the consumer made; whatever came to be there first stays. */
    method MakeDir(c: Change, a: Action, made: set<string>, dir: Info, at: Option<int>, answer: Answer)
      returns (ok: bool)
      requires a in Decided(decidedOn, c) && a.kind == Mkdir && dir.isDir && MadeFor(made, c.path, local)
      modifies this`local, this`ctimes, this`landed
      ensures ok <==> old(Unchanged(a, c.path)) && answer == Done
      ensures local == if ok then WithDirs(old(local), made, dir)[c.path := dir]
                       else if old(Unchanged(a, c.path)) then WithDirs(old(local), made, dir) else old(local)
      ensures ctimes == if ok then Stamp(old(ctimes), made + {c.path}, at)
                        else if old(Unchanged(a, c.path)) then Stamp(old(ctimes), made, at) else old(ctimes)
      ensures forall q :: q in old(local) ==> q in local && local[q] == old(local)[q]
      ensures landed == old(landed) + if ok then 1 else 0
      ensures ok ==> Decided(Now(), c) == []
    {
      if !Unchanged(a, c.path) {
        return false;
      }
      OneIsLicensed(decidedOn, c);
      MkdirShape(decidedOn, c);
      local, ctimes := WithDirs(local, made, dir), Stamp(ctimes, if answer == Done then made + {c.path} else made, at);
      if answer != Done {
        return false;
      }
      local := local[c.path := dir];
      MkdirConverges(decidedOn, c, a, Now());
      landed := landed + 1;
      return true;
    }

    /** Gives a file the consumer's execute bit; `got` is the mode the filesystem then
        reports. A bit it does not keep is not a landing. */
    method ChangeMode(c: Change, a: Action, got: Mode, at: Option<int>, answer: Answer) returns (ok: bool)
      requires a in Decided(decidedOn, c) && a.kind == Chmod
      modifies this`local, this`ctimes, this`landed
      ensures ok <==> old(Unchanged(a, c.path)) && answer == Done && Runs(got) == (a.exec > 0)
      ensures if old(Unchanged(a, c.path)) && answer == Done
              then old(MayTouch(c, a)) && local == old(local)[c.path := old(local)[c.path].(mode := got)]
                && ctimes == Stamp(old(ctimes), {c.path}, at)
              else local == old(local) && ctimes == old(ctimes)
      ensures landed == old(landed) + if ok then 1 else 0
      ensures ok ==> forall b :: b in Decided(Now(), c) ==> !b.Moves()
    {
      ChmodShape(decidedOn, c, a);
      OneIsLicensed(decidedOn, c);
      if !Unchanged(a, c.path) || answer != Done {
        return false;
      }
      GuardKeepsLicence(decidedOn, c, a, local, ctimes, links.Keys);
      local, ctimes := local[c.path := local[c.path].(mode := got)], Stamp(ctimes, {c.path}, at);
      if Runs(got) != (a.exec > 0) {
        return false;
      }
      ChmodLanded(decidedOn, c, a, Now());
      landed := landed + 1;
      return true;
    }

    /** Makes a link the consumer made, over nothing or over a link write-back made
        and nobody has touched since. `leads` is what it leads to, if anything; what
        was seen through a link it replaces is seen no more. */
    method LandLink(c: Change, a: Action, mod: int, leads: Option<Target>, made: set<string>, dir: Info,
        at: Option<int>, answer: Answer) returns (ok: bool)
      requires a.kind == Link && DecideLink(decidedOn.manifest, c, a.linkSeen) == Some(a)
        && MadeFor(made, c.path, local)
      modifies this`local, this`ctimes, this`links, this`manifest, this`recorded, this`landed
      ensures ok <==> old(LinkAt(local, links, c.path)) == a.linkSeen && answer == Done
      ensures ok ==>
        if c.path in old(links)
        then BaseAt(decidedOn, c.path) == Some(LinkBaseline(old(links)[c.path].target, old(links)[c.path].mod))
        else c.path !in old(local)
      ensures if ok
        then links == Relinked(old(links), c.path, Some(Symlink(c.link, mod)))
        && manifest == old(manifest)[c.path := LinkBaseline(c.link, mod)] && recorded == old(recorded) + {c.path}
              else links == old(links) && manifest == old(manifest) && recorded == old(recorded)
      ensures if ok then local == Relinked(WithDirs(old(local), made, dir), c.path, InfoOf(leads))
              else if old(LinkAt(local, links, c.path)) == a.linkSeen then local == WithDirs(old(local), made, dir)
              else local == old(local)
      ensures if ok then ctimes == Relinked(Stamp(old(ctimes), made, at), c.path, TimeOf(leads))
              else if old(LinkAt(local, links, c.path)) == a.linkSeen then ctimes == Stamp(old(ctimes), made, at)
              else ctimes == old(ctimes)
      ensures landed == old(landed) + if ok then 1 else 0
      ensures ok ==> DecideLink(manifest, c, LinkAt(local, links, c.path)) == None
    {
      if LinkAt(local, links, c.path) != a.linkSeen {
        return false;
      }
      LinkIsLicensed(decidedOn.manifest, c, a.linkSeen);
      local, ctimes := WithDirs(local, made, dir), Stamp(ctimes, made, at);
      if answer != Done {
        return false;
      }
      PutLink(c, mod, leads);
      landed := landed + 1;
      return true;
    }

    /** The rename of a link over its path, and the baseline and record with it. */
    method PutLink(c: Change, mod: int, leads: Option<Target>)
      requires c.link != ""
      modifies this`local, this`ctimes, this`links, this`manifest, this`recorded
      ensures links == Relinked(old(links), c.path, Some(Symlink(c.link, mod)))
        && local == Relinked(old(local), c.path, InfoOf(leads))
      ensures ctimes == Relinked(old(ctimes), c.path, TimeOf(leads))
      ensures manifest == old(manifest)[c.path := LinkBaseline(c.link, mod)] && recorded == old(recorded) + {c.path}
      ensures DecideLink(manifest, c, LinkAt(local, links, c.path)) == None
    {
      local, ctimes := Relinked(local, c.path, InfoOf(leads)), Relinked(ctimes, c.path, TimeOf(leads));
      links := Relinked(links, c.path, Some(Symlink(c.link, mod)));
      manifest, recorded := manifest[c.path := LinkBaseline(c.link, mod)], recorded + {c.path};
    }

    /** Lands a file, whatever version arrived: written beside its target, then
        renamed over it unless the target changed. */
    method Land(c: Change, a: Action, size: int, mod: int, perm: Mode, made: set<string>, dir: Info, at: Option<int>,
        answer: Answer) returns (ok: bool)
      requires a in Decided(decidedOn, c) && a.Writes() && MadeFor(made, c.path, local) && dir.isDir
      modifies this`local, this`ctimes, this`links
      ensures ok <==>
        answer == Done && old(Unchanged(a, c.path)) && (c.path in old(local) ==> !old(local)[c.path].isDir)
      ensures ok && c.path in old(local) ==> old(MayTouch(c, a))
      ensures var now :=
        Info(size, mod, if c.path in old(local) then WithExec(old(local)[c.path].mode, a.exec) else perm, false);
              local == if ok then WithDirs(old(local), made, dir)[c.path := now] else WithDirs(old(local), made, dir)
      ensures links == if ok then old(links) - {c.path} else old(links)
      ensures ctimes == Stamp(old(ctimes), if ok then made + {c.path} else made, at)
      ensures forall q :: q in old(local) && (q != c.path || !ok) ==> q in local && local[q] == old(local)[q]
    {
      var was := local;
      local := WithDirs(local, made, dir);
      ok := answer == Done && StillAsSeen(a.seen, was, ctimes, links.Keys, c.path)
        && (c.path in was ==> !was[c.path].isDir);
      if ok && c.path in was {
        GuardKeepsLicence(decidedOn, c, a, was, ctimes, links.Keys);
      }
      ctimes := Stamp(ctimes, if ok then made + {c.path} else made, at);
      if !ok {
        return;
      }
      local :=
        local[c.path := Info(size, mod, if c.path in was then WithExec(was[c.path].mode, a.exec) else perm, false)];
      links := links - {c.path};
    }

    /** A file landed and its baseline taken, with nothing in between. */
    method Bring(c: Change, a: Action, size: int, mod: int, perm: Mode, made: set<string>, dir: Info, at: Option<int>,
        answer: Answer) returns (ok: bool)
      requires a in Decided(decidedOn, c) && a.Writes() && MadeFor(made, c.path, local) && dir.isDir
      modifies this`local, this`ctimes, this`links, this`manifest, this`recorded, this`landed
      ensures ok <==>
        answer == Done && old(Unchanged(a, c.path)) && (c.path in old(local) ==> !old(local)[c.path].isDir)
      ensures ok && c.path in old(local) ==> old(MayTouch(c, a))
      ensures var now :=
        Info(size, mod, if c.path in old(local) then WithExec(old(local)[c.path].mode, a.exec) else perm, false);
              local == if ok then WithDirs(old(local), made, dir)[c.path := now] else WithDirs(old(local), made, dir)
      ensures links == if ok then old(links) - {c.path} else old(links)
      ensures ctimes == Stamp(old(ctimes), if ok then made + {c.path} else made, at)
      ensures if ok
        then manifest == old(manifest)[c.path := Baseline(size, mod, a.consumer)]
        && recorded == old(recorded) + {c.path}
              else manifest == old(manifest) && recorded == old(recorded)
      ensures landed == old(landed) + if ok then 1 else 0
      ensures ok && AsReported(c, local[c.path]) ==>
        (Decided(Now(), c) == [] <==> ExecFlip(c, local[c.path], decidedOn.exec) == 0)
      ensures ok && AsReported(c, local[c.path]) ==>
        forall b :: b in Decided(Now(), c) ==> b.kind == Chmod || !b.Moves()
    {
      ok := Land(c, a, size, mod, perm, made, dir, at, answer);
      if ok {
        OneIsLicensed(decidedOn, c);
        Commit(c, a);
        landed := landed + 1;
      }
    }

    /** Takes a copy's baseline, if it is still as seen. */
    method AdoptCopy(c: Change, a: Action) returns (ok: bool)
      requires a in Decided(decidedOn, c) && a.kind == Adopt
      modifies this`manifest, this`recorded
      ensures ok <==> Unchanged(a, c.path)
      ensures if ok
        then c.path in local
        && manifest == old(manifest)[c.path := Baseline(local[c.path].size, local[c.path].mod, a.consumer)]
        && recorded == old(recorded) + {c.path}
              else manifest == old(manifest) && recorded == old(recorded)
      ensures ok ==>
        (Decided(Now(), c) == [] <==> !local[c.path].isDir && ExecFlip(c, local[c.path], decidedOn.exec) == 0)
      ensures ok ==> forall b :: b in Decided(Now(), c) ==> b.kind == Chmod || !b.Moves()
    {
      AdoptShape(decidedOn, c, a);
      OneIsLicensed(decidedOn, c);
      ok := Unchanged(a, c.path);
      if ok {
        Commit(c, a);
        if !local[c.path].isDir {
          CopyAgain(Now(), c);
        }
      }
    }

    /** Moves the baseline and the record with what landed. What is gone again by then
        has no baseline. */
    method Commit(c: Change, a: Action)
      requires a in Decided(decidedOn, c) && a.path == c.path && (a.kind == Delete || a.Writes() || a.kind == Adopt)
      modifies this`manifest, this`recorded
      ensures manifest == if a.kind == Delete || c.path !in local then old(manifest) - {c.path}
                          else old(manifest)[c.path := Baseline(local[c.path].size, local[c.path].mod, a.consumer)]
      ensures recorded == if a.kind == Delete then old(recorded) - {c.path} else old(recorded) + {c.path}
      ensures a.Writes() && c.path in local && AsReported(c, local[c.path]) ==>
        (Decided(Now(), c) == [] <==> ExecFlip(c, local[c.path], decidedOn.exec) == 0)
      ensures a.Writes() && c.path in local && AsReported(c, local[c.path]) ==>
        forall b :: b in Decided(Now(), c) ==> b.kind == Chmod || !b.Moves()
    {
      manifest := if a.kind == Delete || c.path !in local then manifest - {c.path}
                  else manifest[c.path := Baseline(local[c.path].size, local[c.path].mod, a.consumer)];
      recorded := if a.kind == Delete then recorded - {c.path} else recorded + {c.path};
      if a.Writes() && c.path in local && AsReported(c, local[c.path]) {
        LandedIsCopy(decidedOn, c, a, Now());
      }
    }
  }

  lemma {:induction false} MkdirShape(v: View, c: Change)
    ensures forall a :: a in Decided(v, c) && a.kind == Mkdir ==> c.path !in v.local
  {
  }

  lemma {:induction false} ChmodLanded(v: View, c: Change, a: Action, v': View)
    requires a in Decided(v, c) && a.kind == Chmod && c.path in v.local && v'.exec == v.exec
    requires c.path in v'.local && v'.local[c.path].size == v.local[c.path].size
      && v'.local[c.path].mod == v.local[c.path].mod
    requires Runs(v'.local[c.path].mode) == (a.exec > 0)
    ensures forall b :: b in Decided(v', c) ==> !b.Moves()
  {
    ChmodShape(v, c, a);
    if !v'.local[c.path].isDir {
      CopyAgain(v', c);
    }
  }
}
