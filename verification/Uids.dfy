/** The record of uids: a name's uid decides its port and owns its files, so no uid
    may ever go to two names, across releases and restarts. */
module Uids {
  /** The entry that keeps the highest uid of a released name. No account can be
      called this. */
  const RELEASED := "-released"

  /** Nobody's uid is above the highest on record, and no uid was two names'. */
  ghost predicate UidsOk(file: map<string, int>, ever: set<(string, int)>) {
    && (forall n :: n in file && n != RELEASED ==> (n, file[n]) in ever)
    && (forall e :: e in ever ==> Covered(file, e.1))
    && (forall e, f :: e in ever && f in ever && e.1 == f.1 ==> e.0 == f.0)
  }

  /** Some entry of the record is at least this. */
  ghost predicate Covered(file: map<string, int>, uid: int) {
    exists n :: n in file && uid <= file[n]
  }

  /** One above the highest on record, and at least the base. */
  method NextUid(uids: map<string, int>, base: int) returns (uid: int)
    ensures uid >= base && (forall n :: n in uids ==> uids[n] < uid)
    ensures uid == base || exists n :: n in uids && uids[n] == uid - 1
  {
    var highest := base - 1;
    var left := uids.Keys;
    while left != {}
      invariant left <= uids.Keys && highest >= base - 1
      invariant forall n :: n in uids && n !in left ==> uids[n] <= highest
      invariant highest == base - 1 || exists n :: n in uids && uids[n] == highest
      decreases |left|
    {
      var n :| n in left;
      if uids[n] > highest {
        highest := uids[n];
      }
      left := left - {n};
    }
    uid := highest + 1;
  }

  /** A new name takes a uid above everything on record. */
  lemma {:induction false} GrantKeeps(file: map<string, int>, ever: set<(string, int)>, name: string, uid: int)
    requires UidsOk(file, ever) && name !in file && name != RELEASED && forall n :: n in file ==> file[n] < uid
    ensures UidsOk(file[name := uid], ever + {(name, uid)})
  {
    var file' := file[name := uid];
    forall e | e in ever + {(name, uid)} ensures Covered(file', e.1) {
      if e in ever {
        assert Covered(file, e.1);
        var n :| n in file && e.1 <= file[n];
        assert n in file' && e.1 <= file'[n];
      } else {
        assert name in file';
      }
    }
    forall e | e in ever ensures e.1 < uid {
      assert Covered(file, e.1);
    }
  }

  /** A released name leaves its uid spent. */
  lemma {:induction false} ReleaseKeeps(file: map<string, int>, ever: set<(string, int)>, name: string, mark: int)
    requires UidsOk(file, ever) && name in file && name != RELEASED
    requires mark >= file[name] && (RELEASED in file ==> mark >= file[RELEASED])
    ensures UidsOk((file - {name})[RELEASED := mark], ever)
  {
    var file' := (file - {name})[RELEASED := mark];
    forall e | e in ever ensures Covered(file', e.1) {
      assert Covered(file, e.1);
      var n :| n in file && e.1 <= file[n];
      var m := if n == name then RELEASED else n;
      assert m in file' && e.1 <= file'[m];
    }
  }

  /** Names on record keep their uids, and each of the names given has one. A new one is
      above every uid on record, the next after another or the base, and higher than
      those of the names before it. */
  ghost predicate Granted(was: map<string, int>, now: map<string, int>, base: int, names: seq<string>) {
    && now.Keys == was.Keys + (set n | n in names) && (forall n :: n in was ==> now[n] == was[n])
    && (forall n {:trigger NextAfter(was, now, base, n)} :: n in now && n !in was ==> NextAfter(was, now, base, n))
    && (forall j {:trigger Highest(was, now, names, j)} :: 0 <= j < |names| ==> Highest(was, now, names, j))
  }

  ghost predicate NextAfter(was: map<string, int>, now: map<string, int>, base: int, name: string)
    requires name in now
  {
    && now[name] >= base && (forall n :: n in was ==> was[n] < now[name])
    && (now[name] == base || exists n :: n in now && now[n] == now[name] - 1)
  }

  ghost predicate Highest(was: map<string, int>, now: map<string, int>, names: seq<string>, j: nat)
    requires j < |names|
  {
    names[j] in now && (names[j] !in was && names[j] !in names[..j] ==>
      forall i :: 0 <= i < j ==> names[i] in now && now[names[i]] < now[names[j]])
  }

  lemma {:induction false} GrantsOne(was: map<string, int>, now: map<string, int>, base: int, names: seq<string>,
      name: string, uid: int)
    requires Granted(was, now, base, names) && name !in now && uid >= base && (forall n :: n in now ==> now[n] < uid)
    requires uid == base || exists n :: n in now && now[n] == uid - 1
    ensures Granted(was, now[name := uid], base, names + [name])
  {
    var next, all := now[name := uid], names + [name];
    forall n | n in next && n !in was ensures NextAfter(was, next, base, n) {
      NextStays(was, now, base, name, uid, n);
    }
    forall j | 0 <= j < |all| ensures Highest(was, next, all, j) {
      if j < |names| {
        assert Highest(was, now, names, j) && all[..j] == names[..j];
      } else {
        forall i | 0 <= i < j ensures all[i] in now {
          assert Highest(was, now, names, i) && all[i] == names[i];
        }
      }
    }
    assert (set n | n in all) == (set n | n in names) + {name};
  }

  lemma {:induction false} NextStays(was: map<string, int>, now: map<string, int>, base: int, name: string, uid: int,
      n: string)
    requires was.Keys <= now.Keys && (forall m :: m in was ==> now[m] == was[m]) && name !in now
    requires uid >= base && (forall m :: m in now ==> now[m] < uid)
    requires uid == base || exists m :: m in now && now[m] == uid - 1
    requires n in now[name := uid] && (n in now ==> NextAfter(was, now, base, n))
    ensures NextAfter(was, now[name := uid], base, n)
  {
    var next := now[name := uid];
    if next[n] != base {
      var m :| m in now && now[m] == next[n] - 1;
      assert m in next && next[m] == next[n] - 1;
    }
  }

  lemma {:induction false} GrantsKnown(was: map<string, int>, now: map<string, int>, base: int, names: seq<string>,
      name: string)
    requires Granted(was, now, base, names) && name in now
    ensures Granted(was, now, base, names + [name])
  {
    var all := names + [name];
    forall j | 0 <= j < |all| ensures Highest(was, now, all, j) {
      if j < |names| {
        assert Highest(was, now, names, j) && all[..j] == names[..j];
      } else {
        assert all[..j] == names;
      }
    }
    assert (set n | n in all) == (set n | n in names) + {name};
  }

  /** One name more, with its uid. */
  method GrantNext(ghost file: map<string, int>, base: int, uids: map<string, int>, ghost names: seq<string>,
      name: string,
      ghost pairs: set<(string, int)>)
    returns (uids': map<string, int>, ghost pairs': set<(string, int)>)
    requires UidsOk(uids, pairs) && Granted(file, uids, base, names) && name != RELEASED
    ensures UidsOk(uids', pairs') && Granted(file, uids', base, names + [name]) && pairs <= pairs'
    ensures uids' == file ==> uids' == uids && pairs' == pairs
  {
    uids', pairs' := uids, pairs;
    if name !in uids {
      var uid := NextUid(uids, base);
      GrantKeeps(uids, pairs, name, uid);
      GrantsOne(file, uids, base, names, name, uid);
      uids', pairs' := uids[name := uid], pairs + {(name, uid)};
      assert name in uids' && name !in file;
    } else {
      GrantsKnown(file, uids, base, names, name);
    }
  }

  /** Every name with its uid, new ones in the order given. */
  method GrantAll(file: map<string, int>, base: int, names: seq<string>, ghost ever: set<(string, int)>)
    returns (uids: map<string, int>, ghost pairs: set<(string, int)>)
    requires UidsOk(file, ever) && RELEASED !in names
    ensures UidsOk(uids, pairs) && ever <= pairs && (uids == file ==> pairs == ever)
    ensures Granted(file, uids, base, names)
  {
    uids, pairs := file, ever;
    var i := 0;
    assert names[..0] == [];
    while i < |names|
      invariant 0 <= i <= |names| && UidsOk(uids, pairs) && ever <= pairs && (uids == file ==> pairs == ever)
      invariant Granted(file, uids, base, names[..i])
    {
      assert names[..i + 1] == names[..i] + [names[i]];
      uids, pairs := GrantNext(file, base, uids, names[..i], names[i], pairs);
      i := i + 1;
    }
    assert names[..i] == names;
  }

  class UidMap {
    const base: int
    var file: map<string, int>

    // Every (name, uid) that was ever on file.
    ghost var ever: set<(string, int)>

    ghost predicate Valid()
      reads this
    {
      UidsOk(file, ever)
    }

    /** A record some earlier run left, with no uid twice. */
    constructor (base: int, file: map<string, int>)
      requires forall m, n :: m in file && n in file && file[m] == file[n] ==> m == n || m == RELEASED || n == RELEASED
      ensures Valid() && this.file == file && this.base == base
    {
      this.base, this.file := base, file;
      ever := set n | n in file && n != RELEASED :: (n, file[n]);
      new;
      forall e | e in ever ensures Covered(file, e.1) {
        assert e.0 in file && e.1 <= file[e.0];
      }
    }

    /** Gives every name found its uid, in order, and writes the record before
        anything is made of it. */
    method Allocate(names: seq<string>, saved: bool) returns (ok: bool, uids: map<string, int>)
      requires Valid() && RELEASED !in names
      modifies this
      ensures Valid() && old(ever) <= ever
      ensures ok <==> saved || forall n :: n in names ==> n in old(file)
      ensures if ok then uids == file && Granted(old(file), file, base, names)
        else file == old(file) && ever == old(ever)
    {
      ghost var pairs;
      uids, pairs := GrantAll(file, base, names, ever);
      if uids != file {
        if !saved {
          return false, file;
        }
        file, ever := uids, pairs;
      }
      ok := true;
    }

    /** The name's entry is gone, every other name has its uid, and the highest uid ever
        released is kept. */
    ghost predicate Released(was: map<string, int>, name: string)
      reads this
    {
      && name in was && file.Keys == was.Keys - {name} + {RELEASED}
      && (forall n :: n in was && n != name && n != RELEASED ==> file[n] == was[n])
      && file[RELEASED] >= was[name] && (RELEASED in was ==> file[RELEASED] >= was[RELEASED])
      && (file[RELEASED] == was[name] || file[RELEASED] == 0 || (RELEASED in was && file[RELEASED] == was[RELEASED]))
    }

    /** Lets a name be asked for again; its uid is never given out again. */
    method Release(name: string, saved: bool) returns (ok: bool)
      requires Valid() && name != RELEASED
      modifies this`file
      ensures Valid() && (ok <==> name in old(file) && saved)
      ensures if ok then name !in file && Released(old(file), name) else file == old(file)
    {
      if name !in file || !saved {
        return false;
      }
      var was := if RELEASED in file then file[RELEASED] else 0;
      var mark := if file[name] > was then file[name] else was;
      ReleaseKeeps(file, ever, name, mark);
      file := (file - {name})[RELEASED := mark];
      return true;
    }

    /** No uid was ever on file for two names. */
    lemma {:induction false} NeverTwice(m: string, n: string, uid: int)
      requires Valid() && (m, uid) in ever && (n, uid) in ever
      ensures m == n
    {
    }
  }
}
