/** Single-use enrolment tokens: one file each, claimed by renaming it. Each method
    is one link, rename, remove or listing, so any order of calls is an
    interleaving of agents that share the directory. */
module Tokens {

  /** A token's file, or a claim of it under a name of its own. */
  datatype Name = Tok(id: string) | Claim(id: string, nonce: string)

  datatype Token = Token(hash: string, expires: int)

  /** No token has two files, be they its own or a claim. */
  ghost predicate OneFile(files: map<Name, Token>) {
    forall f, g :: f in files && g in files && f.id == g.id ==> f == g
  }

  ghost predicate IdUsed(files: map<Name, Token>, id: string) {
    exists f :: f in files && f.id == id
  }

  /** The files of every other token. */
  function Without(files: map<Name, Token>, id: string): map<Name, Token> {
    map f | f in files && f.id != id :: files[f]
  }

  /** A link puts a token's file where none is. */
  function Linked(files: map<Name, Token>, id: string, t: Token): map<Name, Token> {
    if Tok(id) in files then files else files[Tok(id) := t]
  }

  /** A rename takes whatever stood at its target with it. */
  function Renamed(files: map<Name, Token>, from: Name, to: Name): map<Name, Token>
    requires from in files
  {
    (files - {from})[to := files[from]]
  }

  /** Minting an id keeps one file per token exactly when no claim of that id is
      out: the link refuses only a token's own name. */
  lemma {:induction false} MintNeedsFresh(files: map<Name, Token>, id: string, t: Token)
    requires OneFile(files)
    ensures OneFile(Linked(files, id, t)) <==> forall nonce :: Claim(id, nonce) !in files
  {
    var after := Linked(files, id, t);
    if Tok(id) in files {
      forall nonce ensures Claim(id, nonce) !in files {
        assert Claim(id, nonce) in files ==> Tok(id) == Claim(id, nonce);
      }
    } else if nonce :| Claim(id, nonce) in files {
      assert Tok(id) in after && Claim(id, nonce) in after;
    }
  }

  /** The input: a claim is out, and its id is minted again. */
  lemma {:induction false} MintedTwice(id: string, nonce: string, t: Token, again: Token)
    ensures var files := map[Claim(id, nonce) := t];
            OneFile(files) && !OneFile(Linked(files, id, again))
              && Linked(files, id, again).Keys == {Claim(id, nonce), Tok(id)}
  {
    var files := map[Claim(id, nonce) := t];
    assert Claim(id, nonce) in files;
    MintNeedsFresh(files, id, again);
  }

  lemma {:induction false} RenameKeepsOne(files: map<Name, Token>, from: Name, to: Name)
    requires OneFile(files) && from in files && to.id == from.id
    ensures OneFile(Renamed(files, from, to))
      && forall id :: IdUsed(Renamed(files, from, to), id) <==> IdUsed(files, id)
  {
    forall id ensures IdUsed(Renamed(files, from, to), id) <==> IdUsed(files, id) {
      if IdUsed(files, id) {
        var f :| f in files && f.id == id;
        assert (if f == from then to else f) in Renamed(files, from, to);
      }
    }
  }

  /** Every token minted and not over has a file. */
  ghost predicate Kept(files: map<Name, Token>, minted: set<string>, ended: set<string>) {
    forall id {:trigger IdUsed(files, id)} :: id in minted && id !in ended <==> IdUsed(files, id)
  }

  lemma {:induction false} DeleteEnds(files: map<Name, Token>, minted: set<string>, ended: set<string>, f: Name)
    requires OneFile(files) && Kept(files, minted, ended) && f in files
    ensures OneFile(files - {f}) && Kept(files - {f}, minted, ended + {f.id}) && f.id in minted && f.id !in ended
  {
    assert IdUsed(files, f.id);
    var files' := files - {f};
    forall id ensures id in minted && id !in ended + {f.id} <==> IdUsed(files', id) {
      assert IdUsed(files, id) <==> id in minted && id !in ended;
      if IdUsed(files, id) && id != f.id {
        var g :| g in files && g.id == id;
        assert g in files';
      }
    }
  }

  lemma {:induction false} MintKeeps(files: map<Name, Token>, minted: set<string>, ended: set<string>, id: string,
      t: Token)
    requires OneFile(files) && Kept(files, minted, ended) && id !in minted && id !in ended
    ensures OneFile(files[Tok(id) := t]) && Kept(files[Tok(id) := t], minted + {id}, ended)
  {
    var files' := files[Tok(id) := t];
    assert !IdUsed(files, id);
    forall x ensures x in minted + {id} && x !in ended <==> IdUsed(files', x) {
      assert IdUsed(files, x) <==> x in minted && x !in ended;
      if x == id {
        assert Tok(id) in files';
      } else if IdUsed(files, x) {
        var g :| g in files && g.id == x;
        assert g in files';
      }
    }
  }

  /** A revocation under way: whether it has listed the directory, which of the
      listed claims are still to be removed, whether a remove has found a file. */
  datatype Revocation = Revocation(id: string, listed: bool, left: set<Name>, found: bool)

  /** What a revocation has come to. If its token had a file when it began, then it
      has found one, or a claim it listed is still to be removed, or the token is
      over all the same, or the token escaped it. */
  ghost predicate RevocationOk(k: Revocation, live: bool, escaped: bool, minted: set<string>, ended: set<string>) {
    && (k.found ==> k.id in ended) && (live ==> k.id in minted)
    && (forall f :: f in k.left ==> f.Claim? && f.id == k.id) && (forall f, g :: f in k.left && g in k.left ==> f == g)
    && (escaped ==> live && k.listed && !k.found && k.left == {})
    && (live && k.listed ==> k.found || k.left != {} || k.id in ended || escaped)
    && (!k.listed ==> k.left == {})
  }

  ghost predicate RevocationsOk(revokes: map<nat, Revocation>, live: set<nat>, escaped: set<nat>, minted: set<string>,
      ended: set<string>)
  {
    forall r {:trigger RevocationOk(revokes[r], r in live, r in escaped, minted, ended)} ::
      r in revokes ==> RevocationOk(revokes[r], r in live, r in escaped, minted, ended)
  }

  /** A token that is over stays so for every revocation. */
  lemma {:induction false} RevocationsStay(revokes: map<nat, Revocation>, live: set<nat>, escaped: set<nat>,
      minted: set<string>, ended: set<string>, minted': set<string>, ended': set<string>)
    requires RevocationsOk(revokes, live, escaped, minted, ended) && minted <= minted' && ended <= ended'
    ensures RevocationsOk(revokes, live, escaped, minted', ended')
  {
    forall r | r in revokes ensures RevocationOk(revokes[r], r in live, r in escaped, minted', ended') {
      assert RevocationOk(revokes[r], r in live, r in escaped, minted, ended);
    }
  }

  lemma {:induction false} RevocationMoves(revokes: map<nat, Revocation>, live: set<nat>, escaped: set<nat>,
      minted: set<string>, ended: set<string>, r: nat, k: Revocation, live': set<nat>, escaped': set<nat>)
    requires RevocationsOk(revokes, live, escaped, minted, ended)
      && RevocationOk(k, r in live', r in escaped', minted, ended)
    requires live' - {r} == live - {r} && escaped' - {r} == escaped - {r}
    ensures RevocationsOk(revokes[r := k], live', escaped', minted, ended)
  {
    var revokes' := revokes[r := k];
    forall x | x in revokes' ensures RevocationOk(revokes'[x], x in live', x in escaped', minted, ended) {
      if x != r {
        assert x in live - {r} <==> x in live' - {r};
        assert x in escaped - {r} <==> x in escaped' - {r};
        assert RevocationOk(revokes[x], x in live, x in escaped, minted, ended);
      }
    }
  }

  class Store {
    var files: map<Name, Token>

    // Ids ever minted; ids whose file was deleted; redemptions that were
    // completed.
    ghost var minted: set<string>
    ghost var ended: set<string>
    ghost var redeemed: multiset<string>

    // Revocations under way; those whose token had a file when they began; those
    // whose token was put back out of their sight.
    var revokes: map<nat, Revocation>
    ghost var live: set<nat>
    ghost var escaped: set<nat>

    ghost predicate Valid()
      reads this
    {
      && OneFile(files) && Kept(files, minted, ended) && ended <= minted
      && (forall id :: redeemed[id] <= 1 && (id in redeemed ==> id in ended))
      && RevocationsOk(revokes, live, escaped, minted, ended)
    }

    constructor ()
      ensures Valid() && files == map[] && minted == {} && ended == {} && revokes == map[]
    {
      files, minted, ended, redeemed := map[], {}, {}, multiset{};
      revokes, live, escaped := map[], {}, {};
    }

    /** A new token. The link refuses an id that has a file of its own, and the
        caller draws another. */
    method Mint(id: string, t: Token) returns (ok: bool)
      requires Valid() && (id in minted ==> Tok(id) in files)
      modifies this`files, this`minted
      ensures Valid() && (ok <==> Tok(id) !in old(files)) && (ok ==> id !in old(minted))
      ensures files == Linked(old(files), id, t) && minted == old(minted) + {id}
    {
      assert Tok(id) in files ==> IdUsed(files, id);
      if Tok(id) in files {
        assert minted + {id} == minted;
        return false;
      }
      MintKeeps(files, minted, ended, id, t);
      RevocationsStay(revokes, live, escaped, minted, ended, minted + {id}, ended);
      files, minted := files[Tok(id) := t], minted + {id};
      return true;
    }

    /** Claims a token. Of all who try, one finds the file. */
    method Take(id: string, nonce: string) returns (ok: bool)
      requires Valid()
      modifies this`files
      ensures Valid() && (ok <==> Tok(id) in old(files))
      ensures ok ==>
        id !in ended && Claim(id, nonce) in files && files[Claim(id, nonce)] == old(files)[Tok(id)] && Tok(id) !in files
      ensures files == if ok then Renamed(old(files), Tok(id), Claim(id, nonce)) else old(files)
    {
      if Tok(id) !in files {
        return false;
      }
      assert IdUsed(files, id);
      RenameKeepsOne(files, Tok(id), Claim(id, nonce));
      files := Renamed(files, Tok(id), Claim(id, nonce));
      return true;
    }

    /** The claim is what is redeemed: its hash and its life are looked at on the
        claimed file, and one that does not match goes back. */
    method Checked(id: string, nonce: string, hash: string, now: int) returns (ok: bool)
      requires Valid()
      modifies this`files
      ensures Valid()
      ensures ok <==>
        Claim(id, nonce) in old(files) && old(files)[Claim(id, nonce)].hash == hash
        && now < old(files)[Claim(id, nonce)].expires
      ensures files
        == if ok || Claim(id, nonce) !in old(files) then old(files) else Renamed(old(files), Claim(id, nonce), Tok(id))
    {
      var at := Claim(id, nonce);
      ok := at in files && files[at].hash == hash && now < files[at].expires;
      if !ok {
        var back := Restore(id, nonce);
      }
    }

    /** Puts a claimed token back. */
    method Restore(id: string, nonce: string) returns (ok: bool)
      requires Valid()
      modifies this`files
      ensures Valid() && (ok <==> Claim(id, nonce) in old(files)) && (ok ==> id !in ended)
      ensures files == if ok then Renamed(old(files), Claim(id, nonce), Tok(id)) else old(files)
    {
      if Claim(id, nonce) !in files {
        return false;
      }
      assert IdUsed(files, id);
      RenameKeepsOne(files, Claim(id, nonce), Tok(id));
      files := Renamed(files, Claim(id, nonce), Tok(id));
      return true;
    }

    /** Deletes a claimed token: it has been redeemed, once for all. */
    method Done(id: string, nonce: string) returns (ok: bool)
      requires Valid()
      modifies this`files, this`ended, this`redeemed
      ensures Valid() && (ok <==> Claim(id, nonce) in old(files))
      ensures if ok
        then id !in old(ended) && id !in old(redeemed) && redeemed == old(redeemed) + multiset{id}
        && ended == old(ended) + {id} && files == old(files) - {Claim(id, nonce)}
              else redeemed == old(redeemed) && ended == old(ended) && files == old(files)
    {
      ok := Delete(Claim(id, nonce));
      if ok {
        redeemed := redeemed + multiset{id};
      }
    }

    /** One remove, of a revocation or a sweep: whatever file of a token goes, the
        token is over. */
    method Delete(f: Name) returns (found: bool)
      requires Valid()
      modifies this`files, this`ended
      ensures Valid() && (found <==> f in old(files)) && files == old(files) - {f}
      ensures ended == if found then old(ended) + {f.id} else old(ended)
      ensures found ==> f.id !in old(ended) && !IdUsed(files, f.id)
    {
      found := f in files;
      if found {
        DeleteEnds(files, minted, ended, f);
        RevocationsStay(revokes, live, escaped, minted, ended, minted, ended + {f.id});
        assert IdUsed(files - {f}, f.id) <==> f.id in minted && f.id !in ended + {f.id};
        files, ended := files - {f}, ended + {f.id};
      }
    }

    /** A revocation begins by removing the token's own file. */
    method RevokeStart(r: nat, id: string)
      requires Valid() && r !in revokes
      modifies this`files, this`ended, this`revokes, this`live, this`escaped
      ensures Valid() && r in revokes && revokes == old(revokes)[r := Revocation(id, false, {}, Tok(id) in old(files))]
      ensures files == old(files) - {Tok(id)} && old(ended) <= ended <= old(ended) + {id}
      ensures (r in live <==> IdUsed(old(files), id)) && r !in escaped
    {
      ghost var had := IdUsed(files, id);
      assert had <==> id in minted && id !in ended;
      var found := Delete(Tok(id));
      Go(r, Revocation(id, false, {}, found), had, false);
    }

    /** Records where a revocation stands. */
    method Go(r: nat, k: Revocation, ghost had: bool, ghost lost: bool)
      requires Valid() && RevocationOk(k, had, lost, minted, ended)
      modifies this`revokes, this`live, this`escaped
      ensures Valid() && revokes == old(revokes)[r := k] && (r in live <==> had) && (r in escaped <==> lost)
    {
      ghost var live' := if had then live + {r} else live - {r};
      ghost var escaped' := if lost then escaped + {r} else escaped - {r};
      assert live' - {r} == live - {r} && escaped' - {r} == escaped - {r};
      RevocationMoves(revokes, live, escaped, minted, ended, r, k, live', escaped');
      revokes, live, escaped := revokes[r := k], live', escaped';
    }

    /** It lists the claims there are. A token put back since the first remove
        stands under its own name again, and escapes. */
    method RevokeList(r: nat)
      requires Valid() && r in revokes && !revokes[r].listed
      modifies this`revokes, this`live, this`escaped
      ensures Valid() && r in revokes && revokes == old(revokes)[r := revokes[r]] && (r in live <==> r in old(live))
      ensures var k := old(revokes)[r];
        revokes[r] == k.(listed := true, left := set f | f in files && f.Claim? && f.id == k.id)
      ensures r in escaped <==> r in live && Tok(old(revokes)[r].id) in files
    {
      var k := revokes[r];
      assert RevocationOk(k, r in live, r in escaped, minted, ended);
      var left := set f | f in files && f.Claim? && f.id == k.id;
      ListedCase(k.id, left);
      Go(r, k.(listed := true, left := left), r in live, r in live && Tok(k.id) in files);
    }

    /** What a listing finds of a token: its claim, or nothing while it stands under
        its own name or is over. */
    lemma {:induction false} ListedCase(id: string, left: set<Name>)
      requires Valid() && left == set f | f in files && f.Claim? && f.id == id
      ensures forall f, g :: f in left && g in left ==> f == g
      ensures id in minted ==> id in ended || left != {} || Tok(id) in files
      ensures Tok(id) in files ==> left == {} && id !in ended
    {
      if Tok(id) in files {
        assert IdUsed(files, id);
        forall f ensures f !in left {
          assert f in left ==> f == Tok(id);
        }
      } else if id in minted && id !in ended {
        assert IdUsed(files, id);
        var f :| f in files && f.id == id;
        assert f in left;
      }
    }

    /** It removes the claim it listed. One put back meanwhile escapes. */
    method RevokeNext(r: nat, f: Name)
      requires Valid() && r in revokes && f in revokes[r].left
      modifies this`files, this`ended, this`revokes, this`live, this`escaped
      ensures Valid() && files == old(files) - {f} && r in revokes && revokes == old(revokes)[r := revokes[r]]
        && (r in live <==> r in old(live))
      ensures var k := old(revokes)[r]; revokes[r] == k.(left := k.left - {f}, found := k.found || f in old(files))
      ensures f.id == revokes[r].id
        && (r in escaped <==> r in live && !revokes[r].found && IdUsed(files, revokes[r].id))
    {
      var k := revokes[r];
      assert RevocationOk(k, r in live, r in escaped, minted, ended);
      assert k.left == {f};
      var found := Delete(f);
      assert IdUsed(files, k.id) <==> k.id in minted && k.id !in ended;
      Go(r, k.(left := k.left - {f}, found := k.found || found), r in live,
        r in live && !k.found && !found && IdUsed(files, k.id));
    }

    /** The answer. Success means the token is over. "No token", for a token that
        had a file when the revocation began, means that somebody else ended it or
        that it escaped, which it did only if the answer is "no token". */
    method RevokeEnd(r: nat) returns (ok: bool)
      requires Valid() && r in revokes && revokes[r].listed && revokes[r].left == {}
      modifies this`revokes
      ensures Valid() && revokes == old(revokes) - {r} && ok == old(revokes)[r].found
      ensures ok ==> old(revokes)[r].id in ended && !IdUsed(files, old(revokes)[r].id)
      ensures !ok && r in live && r !in escaped ==> old(revokes)[r].id in ended && !IdUsed(files, old(revokes)[r].id)
      ensures r in escaped ==> !ok && r in live
    {
      var k := revokes[r];
      assert RevocationOk(k, r in live, r in escaped, minted, ended);
      assert IdUsed(files, k.id) <==> k.id in minted && k.id !in ended;
      ok := k.found;
      RevocationsLess(revokes, live, escaped, minted, ended, r);
      revokes := revokes - {r};
    }

    /** Removes what was listed, one after the other with nothing in between. */
    method RevokeListed(r: nat)
      requires Valid() && r in revokes && revokes[r].listed && r !in escaped
        && forall f :: f in revokes[r].left ==> f in files
      modifies this`files, this`ended, this`revokes, this`live, this`escaped
      ensures Valid() && r in revokes && r !in escaped && files == old(files) - old(revokes)[r].left
      ensures var k := old(revokes)[r]; revokes == old(revokes)[r := k.(left := {}, found := k.found || k.left != {})]
    {
      ghost var was, left := files, revokes[r].left;
      assert left - left == {} && was - {} == was;
      while revokes[r].left != {}
        invariant Valid() && r in revokes && r !in escaped && revokes[r].left <= left
          && files == was - (left - revokes[r].left)
        invariant revokes == old(revokes)[r := revokes[r]]
          && revokes[r] == old(revokes)[r].(left := revokes[r].left, found := revokes[r].found)
        invariant forall f :: f in revokes[r].left ==> f in files
        invariant revokes[r].found || revokes[r].left != {} <==> old(revokes)[r].found || old(revokes)[r].left != {}
        decreases |revokes[r].left|
      {
        var f :| f in revokes[r].left;
        assert left - (revokes[r].left - {f}) == (left - revokes[r].left) + {f};
        RevokeNext(r, f);
      }
      assert left - {} == left;
    }

    /** With nothing in between, a revocation succeeds exactly when the token had a
        file, and leaves none. */
    method Revoke(r: nat, id: string) returns (ok: bool)
      requires Valid() && r !in revokes
      modifies this`files, this`ended, this`revokes, this`live, this`escaped
      ensures Valid() && (ok <==> IdUsed(old(files), id)) && files == Without(old(files), id) && revokes == old(revokes)
    {
      RevokeStart(r, id);
      RevokeList(r);
      ListedAll(id, old(files), files, revokes[r].left);
      RevokeListed(r);
      ok := RevokeEnd(r);
    }

    /** Once a token is over, no step of anybody succeeds on it. */
    lemma {:induction false} OverForGood(id: string)
      requires Valid() && id in ended
      ensures Tok(id) !in files && forall nonce :: Claim(id, nonce) !in files
    {
      assert !IdUsed(files, id);
    }
  }

  lemma {:induction false} ListedAll(id: string, was: map<Name, Token>, files: map<Name, Token>, left: set<Name>)
    requires files == was - {Tok(id)} && left == set f | f in files && f.Claim? && f.id == id
    ensures (Tok(id) in was || left != {} <==> IdUsed(was, id)) && files - left == Without(was, id)
  {
    if f :| f in was && f.id == id {
      assert f == Tok(id) || f in left;
    }
  }

  lemma {:induction false} RevocationsLess(revokes: map<nat, Revocation>, live: set<nat>, escaped: set<nat>,
      minted: set<string>, ended: set<string>, r: nat)
    requires RevocationsOk(revokes, live, escaped, minted, ended)
    ensures RevocationsOk(revokes - {r}, live, escaped, minted, ended)
  {
    var revokes' := revokes - {r};
    forall x | x in revokes' ensures RevocationOk(revokes'[x], x in live, x in escaped, minted, ended) {
      assert RevocationOk(revokes[x], x in live, x in escaped, minted, ended);
    }
  }

  /** The race: a claim put back between the first remove and the listing. The
      answer is "no token", and the token lives. */
  method RevokeMisses(id: string, nonce: string, t: Token) returns (s: Store, ok: bool)
    ensures s.Valid() && !ok && Tok(id) in s.files && id !in s.ended
  {
    s := new Store();
    var minted := s.Mint(id, t);
    var taken := s.Take(id, nonce);
    s.RevokeStart(0, id);
    var back := s.Restore(id, nonce);
    s.RevokeList(0);
    s.ListedCase(id, s.revokes[0].left);
    ok := s.RevokeEnd(0);
  }
}
