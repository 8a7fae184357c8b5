/** The links a consumer made, and the order deletions are carried out in. */
module Links {
  import opened Basics
  import opened ShareView
  import opened Decide
  import Sorting

  /** Year 1, which a time that was never set reads as. */
  const ZERO_TIME := -62_135_596_800 * SECOND

  /** What a link is recorded as: the length of its target and its own time. */
  function LinkBaseline(target: string, mod: int): Baseline {
    Baseline(|target|, mod, 0)
  }

  function LinkHere(at: map<string, LinkState>, p: string): LinkState {
    if p in at then at[p] else NO_LINK
  }

  function DecideLink(manifest: map<string, Baseline>, c: Change, here: LinkState): Option<Action> {
    if c.link == "" then None
    else if !here.exists_ then Some(Act(c.path, Link).(link := c.link, linkSeen := here))
    else if here.isLink && here.target == c.link then None
    else if here.isLink && here.mod != ZERO_TIME && c.path in manifest
      && manifest[c.path] == LinkBaseline(here.target, here.mod) then
      Some(Act(c.path, Link).(link := c.link, linkSeen := here))
    else Some(Act(c.path, Conflict).(why := if here.isLink then LinkElsewhere else LinkOverFile))
  }

  /** What a link lands on is nothing, or a link write-back made and nobody has
      touched since; anything else is kept and said. */
  lemma {:induction false} LinkIsLicensed(manifest: map<string, Baseline>, c: Change, here: LinkState)
    requires c.link != ""
    ensures var d := DecideLink(manifest, c, here);
            && (d.Some? && d.value.kind == Link <==>
                !here.exists_ || (here.isLink && here.target != c.link && here.mod != ZERO_TIME && c.path in manifest
                                  && manifest[c.path] == Baseline(|here.target|, here.mod, 0)))
            && (d.None? <==> here.exists_ && here.isLink && here.target == c.link)
            && (d.Some? && d.value.kind != Link ==>
                d.value.kind == Conflict && !d.value.wins
                && d.value.why == if here.isLink then LinkElsewhere else LinkOverFile)
            && (d.Some? && d.value.kind == Link ==> d.value.link == c.link && d.value.linkSeen == here)
            && (d.Some? ==> d.value.path == c.path)
  {
  }

  /** The link a landing leaves agrees, and one the consumer points elsewhere
      afterwards still replaces it while nobody here touched it. */
  lemma {:induction false} LinkConverges(manifest: map<string, Baseline>, c: Change, mod: int, again: Change)
    requires c.link != "" && again.link != "" && again.path == c.path && mod != ZERO_TIME
    ensures var landed := LinkState(true, true, c.link, mod);
            var manifest' := manifest[c.path := LinkBaseline(c.link, mod)];
            && DecideLink(manifest', c, landed) == None
            && (again.link != c.link ==>
              DecideLink(manifest', again, landed).Some? && DecideLink(manifest', again, landed).value.kind == Link)
  {
  }

  ghost function LinksDecided(manifest: map<string, Baseline>, cs: seq<Change>,
      at: map<string, LinkState>): seq<Action>
  {
    if cs == [] then []
    else
      var d := DecideLink(manifest, cs[|cs| - 1], LinkHere(at, cs[|cs| - 1].path));
      LinksDecided(manifest, cs[..|cs| - 1], at) + if d.Some? then [d.value] else []
  }

  method DecideLinks(manifest: map<string, Baseline>, cs: seq<Change>, at: map<string, LinkState>)
    returns (actions: seq<Action>)
    ensures actions == LinksDecided(manifest, cs, at)
  {
    actions := [];
    var i := 0;
    while i < |cs|
      invariant 0 <= i <= |cs| && actions == LinksDecided(manifest, cs[..i], at)
    {
      assert cs[..i + 1][..i] == cs[..i];
      var d := DecideLink(manifest, cs[i], LinkHere(at, cs[i].path));
      if d.Some? {
        actions := actions + [d.value];
      }
      i := i + 1;
    }
    assert cs[..i] == cs;
  }

  // ----- deletions, deepest first

  function Slashes(p: string): nat {
    if p == "" then 0 else (if p[0] == '/' then 1 else 0) + Slashes(p[1..])
  }

  predicate DeeperFirst(a: string, b: string) {
    Slashes(a) >= Slashes(b)
  }

  lemma {:induction false} SlashesJoin(a: string, b: string)
    ensures Slashes(a + b) == Slashes(a) + Slashes(b)
  {
    if a == "" {
      assert a + b == b;
    } else {
      SlashesJoin(a[1..], b);
      assert (a + b)[1..] == a[1..] + b;
    }
  }

  /** With SlashesJoin: a slash counts one, anything else nothing. */
  lemma {:induction false} SlashesCount(c: char)
    ensures Slashes([c]) == if c == '/' then 1 else 0
    ensures Slashes("") == 0
  {
    assert [c][1..] == "";
  }

  lemma {:induction false} AboveIsShallower(dir: string, p: string)
    ensures Above(dir, p) ==> Slashes(dir) < Slashes(p)
  {
    if Above(dir, p) {
      var rest := p[|dir|..];
      SlashesJoin(dir, rest);
      assert p == dir + rest && rest[0] == '/';
    }
  }

  ghost predicate DeepestFirst(paths: seq<string>) {
    forall i, j :: 0 <= i < j < |paths| ==> !Above(paths[i], paths[j])
  }

  ghost function DeletedPaths(actions: seq<Action>): seq<string> {
    if actions == [] then [] else
    DeletedPaths(actions[..|actions| - 1])
    + if actions[|actions| - 1].kind == Delete then [actions[|actions| - 1].path] else []
  }

  /** The paths to remove, every path before the directories above it. */
  method Deletes(actions: seq<Action>) returns (out: seq<string>)
    ensures multiset(out) == multiset(DeletedPaths(actions)) && DeepestFirst(out)
    ensures forall i, j :: 0 <= i < j < |out| ==> Slashes(out[i]) >= Slashes(out[j])
    ensures out == Sorting.Sort(DeletedPaths(actions), DeeperFirst)
  {
    var found: seq<string> := [];
    var i := 0;
    while i < |actions|
      invariant 0 <= i <= |actions| && found == DeletedPaths(actions[..i])
    {
      assert actions[..i + 1][..i] == actions[..i];
      if actions[i].kind == Delete {
        found := found + [actions[i].path];
      }
      i := i + 1;
    }
    assert actions[..i] == actions;
    out := Sorting.Sort(found, DeeperFirst);
    Sorting.SortIsSorted(found, DeeperFirst);
    forall i, j | 0 <= i < j < |out| ensures !Above(out[i], out[j]) {
      assert DeeperFirst(out[i], out[j]);
      AboveIsShallower(out[i], out[j]);
    }
  }
}
