/** Accounts enrolled by key files, provisioned in the background and published
    when ready. Each method is one hold of a lock, or one call of the provisioner,
    so any order of calls is an interleaving of syncs, provisioning and purges. */
module Accounts {
  import opened Basics
  import opened Uids
  import Sorting

  /** One account's file in one directory. */
  datatype FileId = FileId(dir: string, account: string)

  /** The key files a sync read, each with its keys, or none if it holds no usable
      one. */
  type Listing = map<FileId, Option<set<string>>>

  ghost predicate ListingOk(listing: Listing) {
    forall id :: id in listing ==> id.account != RELEASED && (listing[id].Some? ==> listing[id].value != {})
  }

  datatype Account = Account(uid: int, sources: map<string, set<string>>, unix: string) {
    predicate Enrolled() {
      sources != map[]
    }
  }

  /** What a directory's file contributed to an account. */
  function SourceOf(accounts: map<string, Account>, id: FileId): set<string> {
    if id.account in accounts && id.dir in accounts[id.account].sources then accounts[id.account].sources[id.dir]
      else {}
  }

  /** A file with no usable key may be in the middle of a save: the first time, it
      contributes what it did before. */
  function Contribution(accounts: map<string, Account>, unusable: set<FileId>, id: FileId,
      parsed: Option<set<string>>): set<string>
  {
    if parsed.Some? then parsed.value else if id in unusable then {} else SourceOf(accounts, id)
  }

  ghost predicate HasSource(found: map<string, map<string, set<string>>>, id: FileId) {
    id.account in found && id.dir in found[id.account]
  }

  /** What the files read so far enrol, by account and directory. */
  ghost predicate FoundOk(accounts: map<string, Account>, unusable: set<FileId>, listing: Listing, done: set<FileId>,
      found: map<string, map<string, set<string>>>)
    requires done <= listing.Keys
  {
    && (forall id :: HasSource(found, id) <==> id in done && Contribution(accounts, unusable, id, listing[id]) != {})
    && (forall id ::
      HasSource(found, id) && id in listing ==>
        found[id.account][id.dir] == Contribution(accounts, unusable, id, listing[id]))
    && (forall n :: n in found ==> found[n] != map[] && n != RELEASED)
  }

  /** Reads the files one by one. */
  method Gather(accounts: map<string, Account>, unusable: set<FileId>, listing: Listing)
    returns (found: map<string, map<string, set<string>>>, bad: set<FileId>)
    requires ListingOk(listing)
    ensures FoundOk(accounts, unusable, listing, listing.Keys, found)
      && bad == set id | id in listing && listing[id].None?
  {
    found, bad := map[], {};
    var left := listing.Keys;
    while left != {}
      invariant left <= listing.Keys && FoundOk(accounts, unusable, listing, listing.Keys - left, found)
      invariant bad == set id | id in listing && id !in left && listing[id].None?
      decreases |left|
    {
      var id :| id in left;
      found := Read(accounts, unusable, listing, listing.Keys - left, id, found);
      assert listing.Keys - (left - {id}) == listing.Keys - left + {id};
      if listing[id].None? {
        bad := bad + {id};
      }
      left := left - {id};
    }
    assert listing.Keys - left == listing.Keys;
  }

  method Read(accounts: map<string, Account>, unusable: set<FileId>, listing: Listing, ghost done: set<FileId>,
      id: FileId, found: map<string, map<string, set<string>>>)
    returns (found': map<string, map<string, set<string>>>)
    requires ListingOk(listing) && done <= listing.Keys && id in listing && id !in done
      && FoundOk(accounts, unusable, listing, done, found)
    ensures FoundOk(accounts, unusable, listing, done + {id}, found')
  {
    var src := Contribution(accounts, unusable, id, listing[id]);
    found' := if src != {} then WithSource(found, id, src) else found;
    forall x ensures HasSource(found', x) <==> HasSource(found, x) || (x == id && src != {}) {
    }
    forall x | HasSource(found, x) && x != id ensures found'[x.account][x.dir] == found[x.account][x.dir] {
    }
  }

  function WithSource(found: map<string, map<string, set<string>>>, id: FileId, src: set<string>)
    : map<string, map<string, set<string>>>
  {
    found[id.account := (if id.account in found then found[id.account] else map[])[id.dir := src]]
  }

  /** The accounts published next: what the files say for every account that is
      provisioned, and nobody's keys for an account no file enrols. */
  function Published(accounts: map<string, Account>, provisioned: map<string, string>, uids: map<string, int>,
      found: map<string, map<string, set<string>>>): map<string, Account>
    requires found.Keys <= uids.Keys
  {
    map n | n in accounts.Keys + (found.Keys * provisioned.Keys) ::
      if n in found && n in provisioned then Account(uids[n], found[n], provisioned[n])
      else if n in found then accounts[n]
      else accounts[n].(sources := map[])
  }

  /** An account with keys is provisioned, and published under its unix name. Sources
      are never empty. */
  ghost predicate AccountsOk(accounts: map<string, Account>, provisioned: map<string, string>) {
    forall n ::
      n in accounts ==>
        (accounts[n].Enrolled() ==> n in provisioned && accounts[n].unix == provisioned[n])
        && forall d :: d in accounts[n].sources ==> accounts[n].sources[d] != {}
  }

  /** Every account published, with keys or without, has the uid on record. */
  ghost predicate UidsHeld(accounts: map<string, Account>, file: map<string, int>) {
    forall n :: n in accounts ==> n != RELEASED && n in file && file[n] == accounts[n].uid
  }

  /** The keys the accounts have after a sync: from a file of a provisioned account
      what the file contributes, and nothing else. */
  ghost predicate Reflects(now: map<string, Account>, was: map<string, Account>, unusable: set<FileId>,
      provisioned: map<string, string>, listing: Listing)
  {
    forall id ::
      SourceOf(now, id)
      == if id.account in provisioned && id in listing then Contribution(was, unusable, id, listing[id]) else {}
  }

  /** The accounts being provisioned after a sync: those before it, every account a
      usable file enrols that is not provisioned, and no other. */
  ghost predicate Provisions(now: set<string>, was: set<string>, provisioned: map<string, string>, listing: Listing) {
    && was <= now
    && (forall id :: id in listing && listing[id].Some? ==> id.account in provisioned || id.account in now)
    && (forall n :: n in now ==> n in was || (n !in provisioned && exists id :: id in listing && id.account == n))
  }

  lemma {:induction false} FoundProvisions(accounts: map<string, Account>, unusable: set<FileId>, listing: Listing,
      found: map<string, map<string, set<string>>>, provisioning: set<string>, provisioned: map<string, string>)
    requires ListingOk(listing) && FoundOk(accounts, unusable, listing, listing.Keys, found)
    ensures Provisions(provisioning + (set n | n in found && n !in provisioned), provisioning, provisioned, listing)
  {
    forall id | id in listing && listing[id].Some? ensures id.account in found {
      assert HasSource(found, id);
    }
    forall n | n in found ensures exists id :: id in listing && id.account == n {
      var d :| d in found[n];
      assert HasSource(found, FileId(d, n));
    }
  }

  lemma {:induction false} PublishedOk(accounts: map<string, Account>, unusable: set<FileId>, listing: Listing,
      provisioned: map<string, string>, uids: map<string, int>, found: map<string, map<string, set<string>>>)
    requires AccountsOk(accounts, provisioned) && FoundOk(accounts, unusable, listing, listing.Keys, found)
      && found.Keys <= uids.Keys
    ensures AccountsOk(Published(accounts, provisioned, uids, found), provisioned)
    ensures Reflects(Published(accounts, provisioned, uids, found), accounts, unusable, provisioned, listing)
  {
    var next := Published(accounts, provisioned, uids, found);
    forall n | n in next
      ensures (next[n].Enrolled() ==> n in provisioned && next[n].unix == provisioned[n])
        && forall d :: d in next[n].sources ==> next[n].sources[d] != {} {
      if n in found && n in provisioned {
        forall d | d in found[n] ensures found[n][d] != {} {
          assert HasSource(found, FileId(d, n));
        }
      }
    }
    forall id
      ensures SourceOf(next, id)
        == if id.account in provisioned && id in listing then Contribution(accounts, unusable, id, listing[id])
        else {} {
      assert HasSource(found, id) <==> id in listing && Contribution(accounts, unusable, id, listing[id]) != {};
    }
  }

  lemma {:induction false} PublishedUids(accounts: map<string, Account>, provisioned: map<string, string>,
      uids: map<string, int>, found: map<string, map<string, set<string>>>)
    requires UidsHeld(accounts, uids) && found.Keys <= uids.Keys && RELEASED !in found
    ensures UidsHeld(Published(accounts, provisioned, uids, found), uids)
    ensures accounts.Keys <= Published(accounts, provisioned, uids, found).Keys
    ensures (forall n :: n in found ==> found[n] != map[]) ==>
      Grows(accounts, Published(accounts, provisioned, uids, found))
  {
  }

  /** No account goes, and one that is new has keys. */
  ghost predicate Grows(was: map<string, Account>, now: map<string, Account>) {
    was.Keys <= now.Keys && forall n :: n in now ==> n in was || now[n].Enrolled()
  }

  lemma {:induction false} SwapOk(accounts: map<string, Account>, unusable: set<FileId>, listing: Listing,
      provisioned: map<string, string>, uids: map<string, int>, found: map<string, map<string, set<string>>>,
      provisioning: set<string>)
    requires AccountsOk(accounts, provisioned) && UidsHeld(accounts, uids) && found.Keys <= uids.Keys
    requires ListingOk(listing) && FoundOk(accounts, unusable, listing, listing.Keys, found)
    ensures var next := Published(accounts, provisioned, uids, found);
      && AccountsOk(next, provisioned) && UidsHeld(next, uids) && Grows(accounts, next)
      && Reflects(next, accounts, unusable, provisioned, listing)
    ensures Provisions(provisioning + (set n | n in found && n !in provisioned), provisioning, provisioned, listing)
  {
    PublishedOk(accounts, unusable, listing, provisioned, uids, found);
    PublishedUids(accounts, provisioned, uids, found);
    FoundProvisions(accounts, unusable, listing, found, provisioning, provisioned);
  }

  /** An account without keys need not be provisioned. */
  lemma {:induction false} AccountsWithout(accounts: map<string, Account>, provisioned: map<string, string>,
      name: string)
    requires AccountsOk(accounts, provisioned) && (name in accounts ==> !accounts[name].Enrolled())
    ensures AccountsOk(accounts, provisioned - {name})
  {
  }

  /** Who has a unix user: every account noted or about to be, unless a purge took
      the user between Ensure and the note of it, and never one so overtaken. */
  ghost predicate UsersOk(noted: set<string>, returned: set<string>, provisioning: set<string>, ensured: set<string>,
      users: set<string>, overtaken: set<string>)
  {
    && noted + returned <= ensured && returned <= provisioning && noted !! returned
    && noted + returned <= users + overtaken && users !! overtaken
  }

  class Store {
    const uids: UidMap
    var provisioned: map<string, string>
    var provisioning: set<string>
    var accounts: map<string, Account>
    var unusable: set<FileId>

    // Accounts Ensure has succeeded for in this process; those whose Ensure has
    // returned and is not noted yet; unix users made or adopted and not removed;
    // accounts whose user a purge took between Ensure and the note of it; the
    // purge under way, which keeps Ensure out; whether an Ensure for the name it
    // purges had returned, unnoted, when it began; whether no purge so far began
    // for an account that was being provisioned.
    ghost var ensured: set<string>
    ghost var returned: set<string>
    ghost var users: set<string>
    ghost var overtaken: set<string>
    ghost var purging: Option<string>
    ghost var racing: bool
    ghost var spaced: bool

    ghost predicate Valid()
      reads this, uids
    {
      && uids.Valid() && AccountsOk(accounts, provisioned) && UidsHeld(accounts, uids.file)
      && UsersOk(provisioned.Keys, returned, provisioning, ensured, users, overtaken)
      && (purging.Some? ==> (racing <==> purging.value in provisioned.Keys + returned))
      && (spaced ==> overtaken == {} && (purging.Some? ==> !racing))
    }

    constructor (uids: UidMap)
      requires uids.Valid()
      ensures Valid() && this.uids == uids && provisioned == map[] && provisioning == {} && accounts == map[]
        && unusable == {}
      ensures purging == None && returned == {} && users == {} && overtaken == {} && spaced
    {
      this.uids := uids;
      provisioned, provisioning, accounts, unusable := map[], {}, map[], {};
      ensured, returned, users, overtaken, purging, racing, spaced := {}, {}, {}, {}, None, false, true;
    }

    /** Brings the accounts into line with the files, or, when a directory or the
        record cannot be read or written, changes nothing here. An account has a key
        from a file exactly if it is provisioned and the file has the key, or holds
        none for the first time and had it before. */
    method Swap(listing: Listing, readable: bool, saved: bool) returns (ok: bool)
      requires Valid() && ListingOk(listing)
      modifies this`provisioning, this`accounts, this`unusable, uids
      ensures Valid() && (saved && readable ==> ok) && (ok ==> readable)
      ensures !ok ==> accounts == old(accounts) && provisioning == old(provisioning) && unusable == old(unusable)
      ensures ok ==> unusable == set id | id in listing && listing[id].None?
      ensures ok ==>
        Grows(old(accounts), accounts) && Reflects(accounts, old(accounts), old(unusable), provisioned, listing)
      ensures ok ==> Provisions(provisioning, old(provisioning), provisioned, listing)
    {
      if !readable {
        return false;
      }
      var next, more, bad;
      ok, next, more, bad := Prepare(listing, saved);
      if ok {
        provisioning, accounts, unusable := more, next, bad;
      }
    }

    /** What the files make of the accounts, with the uids allocated. */
    method Prepare(listing: Listing, saved: bool)
      returns (ok: bool, next: map<string, Account>, more: set<string>, bad: set<FileId>)
      requires Valid() && ListingOk(listing)
      modifies uids
      ensures Valid() && (saved ==> ok)
      ensures ok ==> AccountsOk(next, provisioned) && UidsHeld(next, uids.file) && Grows(accounts, next)
      ensures ok ==>
        Reflects(next, accounts, unusable, provisioned, listing) && Provisions(more, provisioning, provisioned, listing)
      ensures ok ==> bad == set id | id in listing && listing[id].None?
    {
      var found;
      found, bad := Gather(accounts, unusable, listing);
      var names := Sorting.SortedSet(found.Keys);
      var given;
      ok, given := AllocateFor(names, saved);
      next := if ok then Published(accounts, provisioned, given, found) else accounts;
      more := provisioning + set n | n in found && n !in provisioned;
      if ok {
        SwapOk(accounts, unusable, listing, provisioned, given, found, provisioning);
      }
    }

    /** Uids for the names found; an account published keeps its own. */
    method AllocateFor(names: seq<string>, saved: bool) returns (ok: bool, given: map<string, int>)
      requires Valid() && RELEASED !in names
      modifies uids
      ensures Valid() && (saved ==> ok) && (ok ==> given == uids.file && forall n :: n in names ==> n in given)
    {
      ok, given := uids.Allocate(names, saved);
    }

    /** The provisioner has made or adopted an account's user, or failed. Never while
        a purge is under way. */
    method Ensured(name: string, ok: bool)
      requires Valid() && name in provisioning && name !in provisioned && name !in returned && purging == None
      modifies this`ensured, this`returned, this`users, this`overtaken
      ensures Valid()
      ensures returned == old(returned) + (if ok then {name} else {})
      ensures users == old(users) + (if ok then {name} else {})
      ensures overtaken == old(overtaken) - (if ok then {name} else {})
    {
      if ok {
        ensured, returned, users, overtaken := ensured + {name}, returned + {name}, users + {name}, overtaken - {name};
      }
    }

    /** The background notes what Ensure settled on. The next sync publishes it. */
    method Note(name: string, unix: string)
      requires Valid() && name in returned
      modifies this`provisioned, this`returned
      ensures Valid() && provisioned == old(provisioned)[name := unix] && returned == old(returned) - {name}
    {
      provisioned, returned := provisioned[name := unix], returned - {name};
    }

    /** Published or failed: the account may be provisioned afresh by a later sync. */
    method Finish(name: string)
      requires Valid() && name in provisioning && name !in returned
      modifies this`provisioning
      ensures Valid() && provisioning == old(provisioning) - {name}
    {
      provisioning := provisioning - {name};
    }

    /** A purge begins, for an account without keys. It races an Ensure exactly if
        one has returned for the name and is not noted, which can be only while the
        account is being provisioned. */
    method PurgeBegins(name: string) returns (ok: bool)
      requires Valid() && purging == None
      modifies this`provisioned, this`purging, this`racing, this`spaced
      ensures Valid() && (ok <==> name in accounts && !accounts[name].Enrolled())
      ensures if ok then provisioned == old(provisioned) - {name} && purging == Some(name)
        else provisioned == old(provisioned) && purging == None
      ensures ok ==> (racing <==> name in returned) && (name !in provisioning ==> !racing)
      ensures spaced == (old(spaced) && (ok ==> name !in provisioning))
    {
      if name !in accounts || accounts[name].Enrolled() {
        return false;
      }
      AccountsWithout(accounts, provisioned, name);
      provisioned, purging := provisioned - {name}, Some(name);
      racing, spaced := name in returned, spaced && name !in provisioning;
      return true;
    }

    /** The home and the unix user go, unless removing the user fails, and Ensure
        may run again. An account is overtaken exactly if its user went and the
        purge raced its Ensure. */
    method PurgeEnds(removed: bool)
      requires Valid() && purging.Some?
      modifies this`users, this`overtaken, this`purging
      ensures Valid() && purging == None && users == if removed then old(users) - {old(purging).value} else old(users)
      ensures overtaken == if removed && racing then old(overtaken) + {old(purging).value} else old(overtaken)
    {
      if removed {
        if racing {
          overtaken := overtaken + {purging.value};
        }
        users := users - {purging.value};
      }
      purging := None;
    }

    /** Drops the uid of a name whose account was never made. A name anything still
        holds is kept. */
    method ReleaseName(name: string, fileThere: bool, saved: bool)
      requires Valid() && name != RELEASED
      modifies uids
      ensures Valid()
      ensures var free := name !in accounts && name !in provisioned && name !in provisioning && !fileThere;
        if free && saved && name in old(uids.file)
        then name !in uids.file && uids.Released(old(uids.file), name)
        else uids.file == old(uids.file)
    {
      if name in provisioned || name in accounts || name in provisioning || fileThere {
        return;
      }
      var ok := uids.Release(name, saved);
    }

    /** What every state promises of an account published with keys: it has been
        provisioned in this process, under a uid that is its own for good; its unix
        user is there exactly if no purge overtook its Ensure; and so it is there
        if every purge began while its account was not being provisioned. */
    lemma {:induction false} PublishedIsProvisioned(n: string)
      requires Valid() && n in accounts && accounts[n].Enrolled()
      ensures n in provisioned && accounts[n].unix == provisioned[n] && n in ensured
      ensures n in uids.file && uids.file[n] == accounts[n].uid && (n, accounts[n].uid) in uids.ever
      ensures n in users <==> n !in overtaken
      ensures spaced ==> n in users
    {
      assert n in provisioned.Keys + returned;
    }

    /** A key goes only with its file, with a rewrite of it, or after two reads in a
        row found no usable key. */
    lemma {:induction false} KeysGoOnlyIf(was: map<string, Account>, unusableWas: set<FileId>, listing: Listing,
        id: FileId, key: string)
      requires AccountsOk(was, provisioned) && key in SourceOf(was, id)
      requires Reflects(accounts, was, unusableWas, provisioned, listing)
      ensures key in SourceOf(accounts, id) || id !in listing || (listing[id].Some? && key !in listing[id].value)
        || (listing[id].None? && id in unusableWas)
    {
    }
  }

  /** A file enrols an account that is not provisioned: it is provisioned and
      published. */
  method Enrol(s: Store, dir: string, name: string, key: string)
    requires s.Valid() && name != RELEASED && s.purging == None && s.provisioned == map[] && s.provisioning == {}
      && s.returned == {}
    modifies s, s.uids
    ensures s.Valid() && s.purging == None && name in s.accounts && s.provisioned.Keys == {name} && s.provisioning == {}
      && s.returned == {}
    ensures SourceOf(s.accounts, FileId(dir, name)) == {key}
  {
    StartEnrol(s, dir, name, key);
    s.Ensured(name, true);
    s.Note(name, name);
    Republish(s, dir, name, key);
    s.Finish(name);
  }

  method StartEnrol(s: Store, dir: string, name: string, key: string)
    requires s.Valid() && name != RELEASED && s.purging == None && s.provisioned == map[] && s.provisioning == {}
      && s.returned == {}
    modifies s, s.uids
    ensures s.Valid() && s.purging == None && s.provisioned == map[] && s.provisioning == {name} && s.returned == {}
    ensures old(s.accounts).Keys <= s.accounts.Keys && forall n :: n in s.accounts ==> !s.accounts[n].Enrolled()
  {
    var enrols: Listing := map[FileId(dir, name) := Some({key})];
    var ok := s.Swap(enrols, true, true);
    assert FileId(dir, name) in enrols && enrols[FileId(dir, name)].Some?;
  }

  /** The window is there: enrolled, purged, enrolled again, and purged once more
      between Ensure and the note of it, an account is published with keys and has
      no unix user. */
  method PurgeOvertakes(uids: UidMap, dir: string, name: string, key: string) returns (s: Store)
    requires uids.Valid() && name != RELEASED
    modifies uids
    ensures s.Valid() && key in SourceOf(s.accounts, FileId(dir, name)) && name !in s.users
  {
    s := new Store(uids);
    Enrol(s, dir, name, key);
    RevokeAndPurge(s, name);
    EnrolOvertaken(s, dir, name, key);
  }

  method EnrolOvertaken(s: Store, dir: string, name: string, key: string)
    requires s.Valid() && name != RELEASED && s.purging == None && name in s.accounts && s.provisioned == map[]
      && s.provisioning == {} && s.returned == {}
    modifies s, s.uids
    ensures s.Valid() && key in SourceOf(s.accounts, FileId(dir, name)) && name !in s.users
  {
    StartEnrol(s, dir, name, key);
    s.Ensured(name, true);
    PurgeThenNote(s, name);
    Republish(s, dir, name, key);
  }

  method Republish(s: Store, dir: string, name: string, key: string)
    requires s.Valid() && name != RELEASED && name in s.provisioned
    modifies s`provisioning, s`accounts, s`unusable, s.uids
    ensures s.Valid() && SourceOf(s.accounts, FileId(dir, name)) == {key} && s.provisioning == old(s.provisioning)
      && name in s.accounts
  {
    var ok := s.Swap(map[FileId(dir, name) := Some({key})], true, true);
  }

  method RevokeAndPurge(s: Store, name: string)
    requires s.Valid() && s.purging == None && name in s.accounts && s.provisioned.Keys == {name}
      && s.provisioning == {} && s.returned == {}
    modifies s, s.uids
    ensures s.Valid() && s.purging == None && name in s.accounts && s.provisioned == map[] && s.provisioning == {}
      && s.returned == {}
  {
    var ok := s.Swap(map[], true, true);
    NoSources(s.accounts, name);
    ok := s.PurgeBegins(name);
    s.PurgeEnds(true);
  }

  method PurgeThenNote(s: Store, name: string)
    requires s.Valid() && s.purging == None && name in s.accounts && !s.accounts[name].Enrolled() && name in s.returned
    modifies s
    ensures s.Valid() && name in s.provisioned && name !in s.users && s.accounts == old(s.accounts)
  {
    var ok := s.PurgeBegins(name);
    s.PurgeEnds(true);
    s.Note(name, name);
  }

  lemma {:induction false} NoSources(accounts: map<string, Account>, name: string)
    requires name in accounts && (forall d :: d in accounts[name].sources ==> accounts[name].sources[d] != {})
    requires forall d :: SourceOf(accounts, FileId(d, name)) == {}
    ensures !accounts[name].Enrolled()
  {
    forall d ensures d !in accounts[name].sources {
      assert SourceOf(accounts, FileId(d, name)) == {};
    }
  }
}
