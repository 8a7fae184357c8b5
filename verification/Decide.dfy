/** What a consumer's changes mean for the files of this machine: last writer
    wins, each side compared with its own baseline where there is one. */
module Decide {
  import opened Basics
  import opened ShareView

  datatype Kind = Write | Delete | Conflict | Link | Mkdir | Chmod | Adopt

  /** Why a version is kept, or a conflict won. */
  datatype Reason =
    | NoReason | YouLater | YouLaterDeleted | NoChangeTime | OldWorkspace | DirHere | FileHere
    | DeletedThereChangedHere | DeletedHereChangedThere | BothChanged | LinkElsewhere | LinkOverFile

  /** This machine's state of a path when it was decided, with the change time if
      the decision read one. */
  datatype Seen = Seen(here: bool, size: int, mod: int, ctime: Option<int>)

  const NOT_HERE := Seen(false, 0, 0, None)

  /** What is at a path, not following a link. */
  datatype LinkState = LinkState(exists_: bool, isLink: bool, target: string, mod: int)

  const NO_LINK := LinkState(false, false, "", 0)

  datatype Action = Action(path: string, kind: Kind, wins: bool, why: Reason, link: string, consumer: int,
                           exec: int, dir: bool, seen: Seen, linkSeen: LinkState)
  {
    /** Replaces the contents of a file here, or makes one. */
    predicate Writes() {
      kind == Write || (kind == Conflict && wins)
    }

    /** Changes something here, as opposed to a version kept or a baseline taken. */
    predicate Moves() {
      kind != Adopt && (kind != Conflict || wins)
    }
  }

  function Act(p: string, kind: Kind): Action {
    Action(p, kind, false, NoReason, "", 0, 0, false, NOT_HERE, NO_LINK)
  }

  /** One decision, and the consumer's time that was held against this machine's
      change time (0 when none was). */
  datatype Decision = Decision(act: Option<Action>, asked: int)

  const NOTHING := Decision(None, 0)

  function Keep(p: string, why: Reason, asked: int): Decision {
    Decision(Some(Act(p, Conflict).(why := why)), asked)
  }

  datatype Last = NotKnown | ConsumerLast | HereLast

  function LastWriter(v: View, p: string, theirs: int, amount: int): Last {
    if theirs == 0 || p !in v.ctimes then NotKnown
    else if ConsumerLater(theirs, v.ctimes[p], v.skew, amount) then ConsumerLast
    else HereLast
  }

  /** A change with the size and time of the file here: only its execute bit can
      be news. */
  function DecideCopy(v: View, c: Change): Decision
    requires c.path in v.local
  {
    var p, flip := c.path, ExecFlip(c, v.local[c.path], v.exec);
    if flip != 0 then
      match LastWriter(v, p, c.changed, v.margin)
      case NotKnown => Keep(p, NoChangeTime, c.changed)
      case ConsumerLast => Decision(Some(Act(p, Chmod).(exec := flip)), c.changed)
      case HereLast => Keep(p, YouLater, c.changed)
    else if p !in v.manifest then Decision(Some(Act(p, Adopt).(consumer := c.modTime)), 0)
    else NOTHING
  }

  /** A file here the cache never held: the change times of both sides. */
  function DecideUnheld(v: View, c: Change): Decision
    requires c.path in v.local
  {
    var p := c.path;
    if c.deleted then
      match LastWriter(v, p, c.changed, v.margin)
      case NotKnown => Keep(p, if c.changed == 0 then OldWorkspace else NoChangeTime, c.changed)
      case ConsumerLast => Decision(Some(Act(p, Delete)), c.changed)
      case HereLast => Keep(p, YouLaterDeleted, c.changed)
    else
      var theirs := if c.changed != 0 then c.changed else c.modTime;
      match LastWriter(v, p, theirs, v.margin)
      case NotKnown => Keep(p, NoChangeTime, theirs)
      case ConsumerLast =>
        Decision(Some(Act(p, Write).(consumer := c.modTime, exec := ExecFlip(c, v.local[p], v.exec))), theirs)
      case HereLast => Keep(p, YouLater, theirs)
  }

  /** A file the cache holds, each side against the baseline. */
  function DecideHeld(v: View, c: Change, base: Baseline): Decision {
    var p := c.path;
    var here := p in v.local;
    var youChanged := !here || !Untouched(base, v.local[p]);
    if c.deleted then
      if !here then NOTHING
      else if youChanged then Keep(p, DeletedThereChangedHere, 0)
      else Decision(Some(Act(p, Delete)), 0)
    else if !here then
      Decision(Some(Act(p, Conflict).(wins := true, consumer := c.modTime, why := DeletedHereChangedThere)), 0)
    else if !youChanged then
      Decision(Some(Act(p, Write).(consumer := c.modTime, exec := ExecFlip(c, v.local[p], v.exec))), 0)
    else
      var wins :=
        match LastWriter(v, p, c.changed, 0)
        case NotKnown => c.modTime - v.skew > v.local[p].mod
        case ConsumerLast => true
        case HereLast => false;
      Decision(Some(Act(p, Conflict).(wins := wins, consumer := c.modTime, why := BothChanged,
                                      exec := if wins then ExecFlip(c, v.local[p], v.exec) else 0)), c.changed)
  }

  /** One change; `held` says whether the record has a path at it or under it. */
  function DecideOne(v: View, c: Change, held: bool): Decision {
    var p := c.path;
    var here, sent := p in v.local, p in v.manifest;
    if c.link != "" then NOTHING
    else if c.replaced then
      if !here && !held then Decision(Some(Act(p, Mkdir)), 0) else NOTHING
    else if c.dir then
      if !here then if !held then Decision(Some(Act(p, Mkdir)), 0) else NOTHING
      else if !v.local[p].isDir then Keep(p, FileHere, 0)
      else NOTHING
    else if here && v.local[p].isDir then
      if !c.deleted then Keep(p, DirHere, 0)
      else if LastWriter(v, p, c.changed, v.margin) == ConsumerLast
        then Decision(Some(Act(p, Delete).(dir := true)), c.changed)
      else Decision(None, c.changed)
    else if here && !c.deleted && SameContent(c, v.local[p]) then DecideCopy(v, c)
    else if sent && !c.deleted && Carries(v.manifest[p], c) then NOTHING
    else if !sent && !here then
      if !c.deleted && p !in v.recorded then Decision(Some(Act(p, Write).(consumer := c.modTime)), 0) else NOTHING
    else if !sent then DecideUnheld(v, c)
    else DecideHeld(v, c, v.manifest[p])
  }

  /** What was seen of a path, with the change time if one was asked for. */
  function SeenOf(v: View, p: string, asked: int): Seen {
    if p !in v.local then NOT_HERE.(ctime := if asked != 0 && p in v.ctimes then Some(v.ctimes[p]) else None)
    else Seen(true, v.local[p].size, v.local[p].mod, if asked != 0 && p in v.ctimes then Some(v.ctimes[p]) else None)
  }

  /** One change decided: nothing, or one action with what was seen. */
  ghost function Decided(v: View, c: Change): seq<Action> {
    var d := DecideOne(v, c, Held(v.recorded, c.path));
    if d.act.None? then [] else [d.act.value.(seen := SeenOf(v, c.path, d.asked))]
  }

  ghost function DecidedAll(v: View, cs: seq<Change>): seq<Action> {
    if cs == [] then [] else DecidedAll(v, cs[..|cs| - 1]) + Decided(v, cs[|cs| - 1])
  }

  // ----- the loops

  /** Every recorded path and every directory above one. */
  method Holding(recorded: set<string>) returns (holding: set<string>)
    requires forall r :: r in recorded ==> Rooted(r) && r != "/"
    ensures forall p :: p in holding <==> Held(recorded, p)
  {
    holding := {};
    var left := recorded;
    while left != {}
      invariant left <= recorded
      invariant forall p :: p in holding <==> Held(recorded - left, p)
      decreases |left|
    {
      var r :| r in left;
      var climb := Climb(r);
      HeldMore(recorded - left, r);
      assert recorded - (left - {r}) == recorded - left + {r};
      holding := holding + climb;
      left := left - {r};
    }
    assert recorded - left == recorded;
  }

  lemma {:induction false} HeldMore(recorded: set<string>, r: string)
    ensures forall p :: Held(recorded + {r}, p) <==> Held(recorded, p) || p == r || Above(p, r)
  {
    forall p ensures Held(recorded + {r}, p) <==> Held(recorded, p) || p == r || Above(p, r) {
      if Held(recorded, p) {
        var q :| q in recorded && (q == p || Above(p, q));
        assert q in recorded + {r};
      }
      if p == r || Above(p, r) {
        assert r in recorded + {r};
      }
    }
  }

  /** A path and the directories above it, climbed one by one. */
  method Climb(r: string) returns (up: set<string>)
    requires Rooted(r) && r != "/"
    ensures forall p :: p in up <==> p == r || Above(p, r)
  {
    up := {};
    var d := r;
    while d != "/" && d != "."
      invariant Rooted(d)
      invariant forall p :: p == r || Above(p, r) <==> p in up || (d != "/" && (p == d || Above(p, d)))
      decreases |d|
    {
      up := up + {d};
      forall p ensures Above(p, d) <==> Dir(d) != "/" && (p == Dir(d) || Above(p, Dir(d))) {
        DirIsNext(d, p);
      }
      DirIsNext(d, d);
      d := Dir(d);
    }
  }

  /** What each change asks for, not yet marked with what was seen. */
  ghost function PlainAll(v: View, cs: seq<Change>): seq<Action> {
    if cs == [] then []
    else PlainAll(v, cs[..|cs| - 1]) + Plain(DecideOne(v, cs[|cs| - 1], Held(v.recorded, cs[|cs| - 1].path)))
  }

  /** What was seen of each path, for the last change of it where a list has more. */
  ghost function Noted(v: View, cs: seq<Change>): map<string, Seen> {
    if cs == [] then map[]
    else
      var c := cs[|cs| - 1];
      NoteSeen(v, Noted(v, cs[..|cs| - 1]), c, DecideOne(v, c, Held(v.recorded, c.path)).asked)
  }

  function Marked(a: Action, seen: map<string, Seen>): Action {
    a.(seen := if a.path in seen then seen[a.path] else NOT_HERE)
  }

  ghost predicate AllMarked(actions: seq<Action>, plain: seq<Action>, seen: map<string, Seen>) {
    |actions| == |plain| && forall k :: 0 <= k < |plain| ==> actions[k] == Marked(plain[k], seen)
  }

  /** Decides every change, and marks each action with what was seen of its path.
      With every path once, each action is that of its change alone. */
  method DecideAll(v: View, cs: seq<Change>) returns (actions: seq<Action>)
    requires forall r :: r in v.recorded ==> Rooted(r) && r != "/"
    ensures AllMarked(actions, PlainAll(v, cs), Noted(v, cs))
    ensures DistinctChanges(cs) ==> actions == DecidedAll(v, cs)
  {
    actions := [];
    var seen: map<string, Seen> := map[];
    var holding: Option<set<string>> := None;
    var i := 0;
    while i < |cs|
      invariant 0 <= i <= |cs| && HoldingOk(holding, v.recorded)
      invariant actions == PlainAll(v, cs[..i]) && seen == Noted(v, cs[..i])
    {
      assert cs[..i + 1] == cs[..i] + [cs[i]];
      actions, seen, holding := DecideNext(v, cs[..i], cs[i], actions, seen, holding);
      i := i + 1;
    }
    assert cs[..i] == cs;
    actions := MarkSeen(actions, seen);
    if DistinctChanges(cs) {
      UnmarkedAll(v, cs);
      MarksAreFull(DecidedAll(v, cs), cs, PlainAll(v, cs), Noted(v, cs), actions);
    }
  }

  lemma {:induction false} UnmarkedAll(v: View, cs: seq<Change>)
    requires DistinctChanges(cs)
    ensures Unmarked(DecidedAll(v, cs), cs, PlainAll(v, cs), Noted(v, cs))
  {
    if cs != [] {
      var n := |cs| - 1;
      var before, c := cs[..n], cs[n];
      UnmarkedAll(v, before);
      FreshPath(cs, n);
      var d := DecideOne(v, c, Held(v.recorded, c.path));
      assert cs == before + [c];
      DecidedMore(v, before, c, d, Noted(v, before), Noted(v, cs));
      UnmarkedMore(DecidedAll(v, before), before, PlainAll(v, before), Noted(v, before), c, Plain(d), Decided(v, c),
        Noted(v, cs));
    }
  }

  lemma {:induction false} MarksAreFull(full: seq<Action>, cs: seq<Change>, plain: seq<Action>, seen: map<string, Seen>,
      actions: seq<Action>)
    requires Unmarked(full, cs, plain, seen) && AllMarked(actions, plain, seen)
    ensures actions == full
  {
    forall k | 0 <= k < |full| ensures actions[k] == full[k] {
      assert MarkOk(plain[k], full[k], seen);
    }
  }

  ghost predicate HoldingOk(holding: Option<set<string>>, recorded: set<string>) {
    holding.Some? ==> forall p :: p in holding.value <==> Held(recorded, p)
  }

  lemma {:induction false} FreshPath(cs: seq<Change>, i: nat)
    requires DistinctChanges(cs) && i < |cs|
    ensures !PathOf(cs[..i], cs[i].path)
  {
  }

  /** One turn of the loop. What the record holds is worked out on first use. */
  method DecideNext(v: View, ghost cs: seq<Change>, c: Change, actions: seq<Action>, seen: map<string, Seen>,
      holding: Option<set<string>>)
    returns (actions': seq<Action>, seen': map<string, Seen>, holding': Option<set<string>>)
    requires HoldingOk(holding, v.recorded) && forall r :: r in v.recorded ==> Rooted(r) && r != "/"
    requires actions == PlainAll(v, cs) && seen == Noted(v, cs)
    ensures HoldingOk(holding', v.recorded) && actions' == PlainAll(v, cs + [c]) && seen' == Noted(v, cs + [c])
  {
    holding' := holding;
    if holding.None? && (c.replaced || c.dir) {
      var h := Holding(v.recorded);
      holding' := Some(h);
    }
    var held := holding'.Some? && c.path in holding'.value;
    HeldOnlyForDirs(v, c, held);
    var d := DecideOne(v, c, held);
    seen' := NoteSeen(v, seen, c, d.asked);
    actions' := actions + Plain(d);
    assert (cs + [c])[..|cs|] == cs;
  }

  function Plain(d: Decision): seq<Action> {
    if d.act.Some? then [d.act.value] else []
  }

  /** Only a directory's decision looks at the record below it. */
  lemma {:induction false} HeldOnlyForDirs(v: View, c: Change, held: bool)
    requires c.replaced || c.dir ==> held == Held(v.recorded, c.path)
    ensures DecideOne(v, c, held) == DecideOne(v, c, Held(v.recorded, c.path))
  {
  }

  /** Actions as the loop collects them, what was seen kept aside by path. */
  ghost predicate Unmarked(full: seq<Action>, cs: seq<Change>, actions: seq<Action>, seen: map<string, Seen>) {
    && AllMarkOk(actions, full, seen)
    && (forall k :: 0 <= k < |actions| ==> PathOf(cs, actions[k].path))
    && (forall q :: q in seen ==> PathOf(cs, q))
  }

  ghost predicate AllMarkOk(plain: seq<Action>, full: seq<Action>, seen: map<string, Seen>) {
    |plain| == |full| && forall k :: 0 <= k < |plain| ==> MarkOk(plain[k], full[k], seen)
  }

  ghost predicate MarkOk(plain: Action, full: Action, seen: map<string, Seen>) {
    && plain == full.(seen := NOT_HERE)
    && full.seen == (if plain.path in seen then seen[plain.path] else NOT_HERE)
  }

  ghost predicate PathOf(cs: seq<Change>, p: string) {
    exists k :: 0 <= k < |cs| && cs[k].path == p
  }

  function NoteSeen(v: View, seen: map<string, Seen>, c: Change, asked: int): map<string, Seen> {
    if c.link == "" && !c.replaced then seen[c.path := SeenOf(v, c.path, asked)] else seen
  }

  /** A decision is about its change's path; a replaced directory's is not seen
      and needs nothing there. */
  lemma {:induction false} DecisionShape(v: View, c: Change, held: bool)
    ensures var d := DecideOne(v, c, held);
            && (d.act.Some? ==> d.act.value.path == c.path && d.act.value.seen == NOT_HERE && c.link == "")
            && (d.act.Some? && c.replaced ==> d.asked == 0 && c.path !in v.local)
  {
  }

  lemma {:induction false} DecidedMore(v: View, cs: seq<Change>, c: Change, d: Decision, seen: map<string, Seen>,
      seen': map<string, Seen>)
    requires d == DecideOne(v, c, Held(v.recorded, c.path)) && seen' == NoteSeen(v, seen, c, d.asked)
    requires c.path !in seen
    ensures DecidedAll(v, cs + [c]) == DecidedAll(v, cs) + Decided(v, c)
    ensures AllMarkOk(Plain(d), Decided(v, c), seen') && forall a :: a in Plain(d) ==> a.path == c.path
  {
    assert (cs + [c])[..|cs|] == cs;
    DecisionShape(v, c, Held(v.recorded, c.path));
    if d.act.Some? {
      assert MarkOk(d.act.value, Decided(v, c)[0], seen');
    }
  }

  lemma {:induction false} UnmarkedMore(full: seq<Action>, cs: seq<Change>, actions: seq<Action>,
      seen: map<string, Seen>, c: Change, plain: seq<Action>, more: seq<Action>, seen': map<string, Seen>)
    requires Unmarked(full, cs, actions, seen) && !PathOf(cs, c.path) && AllMarkOk(plain, more, seen')
    requires forall q :: q != c.path ==> (q in seen <==> q in seen') && (q in seen ==> seen[q] == seen'[q])
    requires forall a :: a in plain ==> a.path == c.path
    ensures Unmarked(full + more, cs + [c], actions + plain, seen')
  {
    MarksStay(cs, actions, full, seen, seen', c.path);
    PathOfMore(cs, c);
    forall k | 0 <= k < |actions + plain|
      ensures MarkOk((actions + plain)[k], (full + more)[k], seen') && PathOf(cs + [c], (actions + plain)[k].path) {
      if k < |actions| {
        assert MarkOk(actions[k], full[k], seen');
      } else {
        assert plain[k - |actions|] in plain && MarkOk(plain[k - |actions|], more[k - |actions|], seen');
      }
    }
  }

  lemma {:induction false} PathOfMore(cs: seq<Change>, c: Change)
    ensures forall p :: PathOf(cs + [c], p) <==> PathOf(cs, p) || p == c.path
  {
    forall p ensures PathOf(cs + [c], p) <==> PathOf(cs, p) || p == c.path {
      assert (cs + [c])[|cs|] == c;
      if PathOf(cs, p) {
        var k :| 0 <= k < |cs| && cs[k].path == p;
        assert (cs + [c])[k].path == p;
      }
    }
  }

  lemma {:induction false} MarksStay(cs: seq<Change>, plain: seq<Action>, full: seq<Action>, seen: map<string, Seen>,
      seen': map<string, Seen>, p: string)
    requires AllMarkOk(plain, full, seen) && !PathOf(cs, p)
    requires forall k :: 0 <= k < |plain| ==> PathOf(cs, plain[k].path)
    requires forall q :: q != p ==> (q in seen <==> q in seen') && (q in seen ==> seen[q] == seen'[q])
    ensures AllMarkOk(plain, full, seen')
  {
    forall k | 0 <= k < |plain| ensures MarkOk(plain[k], full[k], seen') {
      assert MarkOk(plain[k], full[k], seen) && PathOf(cs, plain[k].path);
    }
  }

  method MarkSeen(plain: seq<Action>, seen: map<string, Seen>) returns (actions: seq<Action>)
    ensures AllMarked(actions, plain, seen)
  {
    actions := plain;
    var i := 0;
    while i < |plain|
      invariant 0 <= i <= |plain| == |actions|
      invariant forall k :: 0 <= k < i ==> actions[k] == Marked(plain[k], seen)
      invariant forall k :: i <= k < |plain| ==> actions[k] == plain[k]
    {
      actions := actions[i := Marked(actions[i], seen)];
      i := i + 1;
    }
  }
}
