/** What write-back compares: the consumer's changes, the baselines the fill
    sent, and this machine's files. Times are nanoseconds; a time carried by a tar
    is rounded to the second. */
module ShareView {
  /** Permission bits of one class, and of owner, group and others. */
  datatype Bits = Bits(r: bool, w: bool, x: bool)
  datatype Mode = Mode(u: Bits, g: Bits, o: Bits)

  const NO_BITS := Mode(Bits(false, false, false), Bits(false, false, false), Bits(false, false, false))

  /** A file or directory of this machine. */
  datatype Info = Info(size: int, mod: int, mode: Mode, isDir: bool)

  /** The size and time a path had here when it was sent, and the consumer's own
      time of a version carried back (0 for what the fill sent). */
  datatype Baseline = Baseline(size: int, mod: int, consumer: int)

  /** One thing the consumer did. `replaced` is a directory that hides what was
      under it; `changed` is a time the consumer cannot set, 0 when not known. */
  datatype Change = Change(path: string, size: int, modTime: int, deleted: bool, replaced: bool,
                           link: string, changed: int, dir: bool, mode: Mode)
  {
    /** A file of the consumer's, as opposed to a link, a directory or a removal. */
    predicate File() {
      link == "" && !replaced && !dir && !deleted
    }
  }

  /** Everything a decision looks at. `ctimes` holds the change times this machine
      can read; `exec` is the mask of execute bits the consumer sees. */
  datatype View = View(manifest: map<string, Baseline>, recorded: set<string>, local: map<string, Info>,
                       ctimes: map<string, int>, skew: int, margin: int, exec: Mode)

  predicate DistinctChanges(cs: seq<Change>) {
    forall i, j :: 0 <= i < j < |cs| ==> cs[i].path != cs[j].path
  }

  // ----- times

  const SECOND := 1_000_000_000

  /** The nearest whole second, halfway up. */
  function Round(t: int): int {
    (t + SECOND / 2) / SECOND * SECOND
  }

  lemma {:induction false} RoundIsNearest(t: int)
    ensures Round(t) % SECOND == 0 && -(SECOND / 2) < Round(t) - t <= SECOND / 2
    ensures Round(Round(t)) == Round(t)
  {
    RoundNear(t);
    RoundNear(Round(t));
  }

  lemma {:induction false} RoundNear(t: int)
    ensures Round(t) % SECOND == 0 && -(SECOND / 2) < Round(t) - t <= SECOND / 2
    ensures t % SECOND == 0 ==> Round(t) == t
  {
    var q := (t + SECOND / 2) / SECOND;
    assert Round(t) == q * SECOND;
    assert (q * SECOND) % SECOND == 0;
  }

  /** The consumer's time is a copy of ours, on either side maybe rounded. */
  predicate CopiedTime(theirs: int, ours: int) {
    theirs == ours || theirs == Round(ours) || Round(theirs) == ours
  }

  /** A whole second no more than half a second off, halfway up. */
  predicate Rounds(whole: int, t: int) {
    whole % SECOND == 0 && 2 * whole - 2 * t <= SECOND && 2 * t - 2 * whole < SECOND
  }

  lemma {:induction false} RoundsIsRound(whole: int, t: int)
    ensures Rounds(whole, t) <==> whole == Round(t)
  {
    RoundNear(t);
    var q := (t + SECOND / 2) / SECOND;
    if Rounds(whole, t) {
      assert whole == whole / SECOND * SECOND;
      assert whole / SECOND == q;
    }
  }

  /** A copied time is the same to the nanosecond, or one of the two is the whole second
      nearest to the other; so it is never more than half a second off. */
  lemma {:induction false} CopiedIsNear(theirs: int, ours: int)
    ensures CopiedTime(theirs, ours) <==> theirs == ours || Rounds(theirs, ours) || Rounds(ours, theirs)
    ensures CopiedTime(theirs, ours) ==> 2 * theirs - 2 * ours <= SECOND && 2 * ours - 2 * theirs <= SECOND
  {
    RoundsIsRound(theirs, ours);
    RoundsIsRound(ours, theirs);
  }

  predicate SameContent(c: Change, info: Info) {
    c.size == info.size && CopiedTime(c.modTime, info.mod)
  }

  /** The change is the version the baseline stands for. */
  predicate Carries(b: Baseline, c: Change) {
    c.size == b.size && ((b.consumer != 0 && c.modTime == b.consumer) || CopiedTime(c.modTime, b.mod))
  }

  /** The file here is still what the baseline recorded. */
  predicate Untouched(b: Baseline, info: Info) {
    info.size == b.size && info.mod == b.mod
  }

  /** Later than ours by more than `amount`, once the skew is taken off. */
  predicate ConsumerLater(theirs: int, ours: int, skew: int, amount: int) {
    theirs - skew > ours + amount
  }

  // ----- execute bits

  predicate Runs(mode: Mode) {
    mode.u.x || mode.g.x || mode.o.x
  }

  predicate Readable(mode: Mode) {
    mode.u.r || mode.g.r || mode.o.r
  }

  /** Some bit is set in both. */
  predicate Meet(a: Mode, b: Mode) {
    MeetBits(a.u, b.u) || MeetBits(a.g, b.g) || MeetBits(a.o, b.o)
  }

  predicate MeetBits(a: Bits, b: Bits) {
    (a.r && b.r) || (a.w && b.w) || (a.x && b.x)
  }

  /** Both modes are known, so their execute bits can be compared. */
  predicate ModesKnown(c: Change, exec: Mode) {
    exec != NO_BITS && c.changed != 0
  }

  /** +1 to set the execute bit here, -1 to clear it, 0 when both agree or modes
      are not known. */
  function ExecFlip(c: Change, info: Info, exec: Mode): int {
    if !ModesKnown(c, exec) || Meet(c.mode, exec) == Runs(info.mode) then 0
    else if Meet(c.mode, exec) then 1
    else -1
  }

  /** The bits chmod +x and chmod -x leave a file with: executable where it can be
      read, or nowhere. */
  function WithExec(perm: Mode, exec: int): Mode {
    if exec > 0
      then Mode(perm.u.(x := perm.u.x || perm.u.r), perm.g.(x := perm.g.x || perm.g.r),
        perm.o.(x := perm.o.x || perm.o.r))
    else if exec < 0 then Mode(perm.u.(x := false), perm.g.(x := false), perm.o.(x := false))
    else perm
  }

  /** Bit i of a mode's octal number, others' execute bit the lowest. */
  predicate Bit(m: Mode, i: int) {
    var bits := if i >= 6 then m.u else if i >= 3 then m.g else m.o;
    0 <= i < 9 && if i % 3 == 2 then bits.r else if i % 3 == 1 then bits.w else bits.x
  }

  lemma {:induction false} EachBit(m: Mode)
    ensures Bit(m, 0) == m.o.x && Bit(m, 1) == m.o.w && Bit(m, 2) == m.o.r
    ensures Bit(m, 3) == m.g.x && Bit(m, 4) == m.g.w && Bit(m, 5) == m.g.r
    ensures Bit(m, 6) == m.u.x && Bit(m, 7) == m.u.w && Bit(m, 8) == m.u.r
  {
  }

  /** To meet is to have a bit in common. */
  lemma {:induction false} MeetInABit(a: Mode, b: Mode)
    ensures Meet(a, b) <==> exists i :: Bit(a, i) && Bit(b, i)
  {
    EachBit(a);
    EachBit(b);
    if i :| Bit(a, i) && Bit(b, i) {
      assert if i >= 6 then MeetBits(a.u, b.u) else if i >= 3 then MeetBits(a.g, b.g) else MeetBits(a.o, b.o);
    }
  }

  /** To run is to have an execute bit, to be readable to have a read bit. */
  lemma {:induction false} RunsByABit(m: Mode)
    ensures Runs(m) <==> exists i :: Bit(m, i) && i % 3 == 0
    ensures Readable(m) <==> exists i :: Bit(m, i) && i % 3 == 2
  {
    EachBit(m);
  }

  /** chmod +x adds an execute bit where there is a read bit and takes nothing away, and
      chmod -x takes the execute bits and nothing else. */
  lemma {:induction false} ExecBits(perm: Mode, exec: int, i: int)
    ensures exec > 0 ==> (Bit(WithExec(perm, exec), i) <==> Bit(perm, i) || (i % 3 == 0 && Bit(perm, i + 2)))
    ensures exec < 0 ==> (Bit(WithExec(perm, exec), i) <==> Bit(perm, i) && i % 3 != 0)
    ensures exec == 0 ==> (Bit(WithExec(perm, exec), i) <==> Bit(perm, i))
  {
    assert Bit(perm, 0) == perm.o.x && Bit(perm, 3) == perm.g.x && Bit(perm, 6) == perm.u.x;
    assert Bit(perm, 2) == perm.o.r && Bit(perm, 5) == perm.g.r && Bit(perm, 8) == perm.u.r;
  }

  // ----- paths

  /** A directory above a path, the share's root left out. */
  predicate Above(dir: string, p: string) {
    0 < |dir| < |p| && dir != "/" && dir == p[..|dir|] && p[|dir|] == '/'
  }

  lemma {:induction false} AboveGoesOn(dir: string, p: string)
    ensures Above(dir, p) <==> dir != "" && dir != "/" && exists rest: string :: p == dir + "/" + rest
  {
    if Above(dir, p) {
      assert p == dir + "/" + p[|dir| + 1..];
    }
  }

  lemma {:induction false} AboveAbove(r: string, q: string, p: string)
    requires Above(r, q) && Above(q, p)
    ensures Above(r, p)
  {
    assert q[..|r|] == p[..|q|][..|r|] == p[..|r|];
    assert q[|r|] == p[..|q|][|r|];
  }

  /** Two directories above one path lie in one line. */
  lemma {:induction false} AboveLine(r: string, q: string, p: string)
    requires Above(r, p) && Above(q, p) && r != q
    ensures Above(r, q) || Above(q, r)
  {
    if |r| < |q| {
      assert q[..|r|] == p[..|q|][..|r|] == r && q[|r|] == p[|r|];
    } else if |q| < |r| {
      assert r[..|q|] == p[..|r|][..|q|] == q && r[|q|] == p[|q|];
    }
  }

  function LastSlash(p: string): (i: int)
    ensures -1 <= i < |p|
    ensures i >= 0 ==> p[i] == '/'
    ensures forall k :: i < k < |p| ==> p[k] != '/'
  {
    if p == "" then -1
    else if p[|p| - 1] == '/' then |p| - 1
    else LastSlash(p[..|p| - 1])
  }

  /** The directory a clean path is in. */
  function Dir(p: string): (d: string)
    ensures d != "/" && d != "." ==> |d| < |p| && Above(d, p)
  {
    var i := LastSlash(p);
    if i < 0 then "." else if i == 0 then "/" else p[..i]
  }

  /** Climbing from a rooted path meets exactly the directories above it. */
  lemma {:induction false} DirIsNext(p: string, dir: string)
    requires p != "" && p[0] == '/'
    ensures Above(dir, p) <==> Dir(p) != "/" && (dir == Dir(p) || Above(dir, Dir(p)))
    ensures Dir(p) != "."
    ensures Dir(p)[0] == '/'
  {
    var d := Dir(p);
    if Above(dir, p) {
      assert |dir| <= LastSlash(p);
      assert d == p[..LastSlash(p)];
      if |dir| < |d| {
        assert d[|dir|] == p[|dir|] && d[..|dir|] == p[..|dir|];
      }
    }
    if d != "/" && Above(dir, d) {
      assert d[..|dir|] == p[..|dir|] && d[|dir|] == p[|dir|];
    }
  }

  predicate Rooted(p: string) {
    p != "" && p[0] == '/'
  }

  /** A recorded path at p or under it. */
  ghost predicate Held(recorded: set<string>, p: string) {
    exists r :: r in recorded && (r == p || Above(p, r))
  }
}
