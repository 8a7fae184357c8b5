/** The uid-to-port mapping of a workspace. */
module PortMapping {
  datatype Result = Ok(value: int) | Err

  const MAX_PORT := 65535

  datatype Mapping = Mapping(uidBase: int, portBase: int) {
    predicate Usable() {
      uidBase >= 0 && 1 <= portBase <= MAX_PORT
    }

    function PortForUid(uid: int): Result {
      if !Usable() || uid < uidBase then Err
      else if portBase + uid - uidBase > MAX_PORT then Err
      else Ok(portBase + uid - uidBase)
    }

    function UidForPort(port: int): Result {
      if !Usable() || port < portBase || port > MAX_PORT then Err
      else Ok(uidBase + port - portBase)
    }
  }

  /** Each is the other's inverse, on all of both ranges. */
  lemma {:induction false} Inverse(m: Mapping, uid: int, port: int)
    ensures m.PortForUid(uid) == Ok(port) <==> m.UidForPort(port) == Ok(uid)
  {
  }

  /** With a base from 0 up and a first port that is one, the first uid has the first
      port and one uid more is one port more, up to the last port; otherwise nobody has
      any. */
  lemma {:induction false} InStep(m: Mapping, uid: int)
    ensures if m.uidBase >= 0 && 1 <= m.portBase <= 65535
      then m.Usable() && m.PortForUid(m.uidBase) == Ok(m.portBase) && m.PortForUid(m.uidBase - 1) == Err
      else m.PortForUid(uid) == Err && m.UidForPort(uid) == Err
    ensures m.PortForUid(uid).Ok? && m.PortForUid(uid + 1).Ok? ==>
      m.PortForUid(uid + 1).value == m.PortForUid(uid).value + 1
    ensures m.PortForUid(uid).Ok? && m.PortForUid(uid + 1).Err? ==> m.PortForUid(uid).value == 65535
  {
  }

  /** No two uids share a port, and no two ports a uid. */
  lemma {:induction false} OneToOne(m: Mapping, a: int, b: int)
    ensures m.PortForUid(a).Ok? && m.PortForUid(a) == m.PortForUid(b) ==> a == b
    ensures m.UidForPort(a).Ok? && m.UidForPort(a) == m.UidForPort(b) ==> a == b
  {
    if m.PortForUid(a).Ok? && m.PortForUid(a) == m.PortForUid(b) {
      Inverse(m, a, m.PortForUid(a).value);
      Inverse(m, b, m.PortForUid(a).value);
    }
    if m.UidForPort(a).Ok? && m.UidForPort(a) == m.UidForPort(b) {
      Inverse(m, m.UidForPort(a).value, a);
      Inverse(m, m.UidForPort(a).value, b);
    }
  }
}

/** Which port serves which machine of an account. Each method is one hold of the
    lock; the question asked between the record and the decision is answered by any
    number, so any order of calls is an interleaving of sessions. */
module Ports {
  import opened Basics
  import opened PortMapping

  datatype Key = Key(account: string, client: string)

  datatype Entry = Entry(port: int, ephemeral: bool, token: nat)

  const NO_ENTRY := Entry(0, false, 0)

  /** No two machines have one port. */
  ghost predicate PortsDistinct(record: map<Key, Entry>) {
    forall j, k :: j in record && k in record && record[j].port == record[k].port ==> j == k
  }

  /** The tokens handed out this run, each to one machine, once. */
  ghost predicate TokensOk(record: map<Key, Entry>, next: nat, given: map<nat, Key>) {
    && (forall t :: t in given <==> 1 <= t <= next)
    && (forall k :: k in record && record[k].token != 0 ==> record[k].token in given && given[record[k].token] == k)
  }

  predicate Taken(record: map<Key, Entry>, port: int) {
    exists k :: k in record && record[k].port == port
  }

  /** A port that somebody who does not derive it may be given. */
  predicate Free(m: Mapping, reserved: set<int>, port: int) {
    m.portBase <= port <= MAX_PORT && (m.UidForPort(port).Ok? ==> m.UidForPort(port).value !in reserved)
  }

  /** In range, and not what an account that exists derives. */
  lemma {:induction false} FreeIsNobodys(m: Mapping, reserved: set<int>, port: int)
    requires m.Usable()
    ensures Free(m, reserved, port) <==>
      m.portBase <= port <= MAX_PORT && forall uid :: uid in reserved ==> m.PortForUid(uid) != Ok(port)
  {
    if m.UidForPort(port).Ok? {
      Inverse(m, m.UidForPort(port).value, port);
    }
    forall uid | uid in reserved && m.PortForUid(uid) == Ok(port) ensures m.UidForPort(port) == Ok(uid) {
      Inverse(m, uid, port);
    }
  }

  /** Nobody's, and every one above it is somebody's. */
  ghost predicate Highest(m: Mapping, record: map<Key, Entry>, reserved: set<int>, port: int) {
    && !Taken(record, port) && Free(m, reserved, port)
    && forall q :: port < q <= MAX_PORT ==> Taken(record, q) || !Free(m, reserved, q)
  }

  /** The port of a new machine: the one its volumes expect if it is free and nobody's,
      else the account's own for a lasting machine if nobody has it, else the highest
      one free. */
  ghost predicate Given(m: Mapping, record: map<Key, Entry>, reserved: set<int>, base: int, want: int, ephemeral: bool,
      port: int)
  {
    if want != 0 && !Taken(record, want) && Free(m, reserved, want) then port == want
    else if !ephemeral && !Taken(record, base) then port == base
    else Highest(m, record, reserved, port)
  }

  /** What is on file for the next run: the lasting assignments. */
  function Lasting(record: map<Key, Entry>): map<Key, Entry> {
    map k | k in record && !record[k].ephemeral :: Entry(record[k].port, false, 0)
  }

  /** Whether an account has been given a port: the record decides, and the formula
      only where the record is silent. */
  ghost predicate OwnsPort(m: Mapping, record: map<Key, Entry>, account: string, uid: int, port: int) {
    if Taken(record, port) then exists k :: k in record && record[k].port == port && k.account == account
    else m.PortForUid(uid) == Ok(port)
  }

  /** No port is two accounts', as long as accounts have uids of their own. */
  lemma {:induction false} OneOwner(m: Mapping, record: map<Key, Entry>, a: string, uidA: int, b: string, uidB: int,
      port: int)
    requires PortsDistinct(record) && (a != b ==> uidA != uidB)
    requires OwnsPort(m, record, a, uidA, port) && OwnsPort(m, record, b, uidB, port)
    ensures a == b
  {
    OneToOne(m, uidA, uidB);
  }

  class Ports {
    const mapping: Mapping
    var loaded: bool
    var record: map<Key, Entry>
    var next: nat

    // The record on disk, and every token handed out this run with its machine.
    var file: map<Key, Entry>
    ghost var given: map<nat, Key>

    ghost predicate Valid()
      reads this
    {
      PortsDistinct(record) && PortsDistinct(file) && TokensOk(record, next, given) && file == Lasting(file)
    }

    constructor (mapping: Mapping, file: map<Key, Entry>)
      requires PortsDistinct(file) && file == Lasting(file)
      ensures Valid() && this.mapping == mapping && this.file == file && !loaded && record == map[] && next == 0
    {
      this.mapping, this.file, loaded, record, next, given := mapping, file, false, map[], 0, map[];
    }

    /** The record as the next step finds it, or nothing where it cannot be read. */
    function Known(readable: bool): map<Key, Entry>
      reads this
    {
      if loaded then record else if readable then file else map[]
    }

    /** Reads the record once; a read that failed is tried again. */
    method Load(readable: bool) returns (ok: bool)
      requires Valid()
      modifies this`loaded, this`record
      ensures Valid() && (ok <==> old(loaded) || readable) && loaded == ok
      ensures record == old(Known(readable))
    {
      if loaded {
        return true;
      }
      record := map[];
      if !readable {
        return false;
      }
      record := file;
      loaded := true;
      return true;
    }

    /** What the record has for a machine. */
    method Lookup(key: Key, readable: bool) returns (ok: bool, known: bool, e: Entry)
      requires Valid()
      modifies this`loaded, this`record
      ensures Valid() && record == old(Known(readable)) && (ok <==> old(loaded) || readable) && loaded == ok
      ensures ok ==> (known <==> key in record) && (known ==> e == record[key])
      ensures !ok ==> !known
    {
      known, e := false, NO_ENTRY;
      ok := Load(readable);
      if ok && key in record {
        known, e := true, record[key];
      }
    }

    /** The first port from the top that nobody has and no account derives. */
    method Allocate(reserved: set<int>) returns (port: int)
      requires mapping.Usable()
      ensures port == 0 ==>
        forall q :: mapping.portBase <= q <= MAX_PORT ==> Taken(record, q) || !Free(mapping, reserved, q)
      ensures port != 0 ==> Highest(mapping, record, reserved, port)
    {
      port := MAX_PORT;
      while port >= mapping.portBase
        invariant mapping.portBase - 1 <= port <= MAX_PORT
        invariant forall q ::
          port < q <= MAX_PORT && mapping.portBase <= q ==> Taken(record, q) || !Free(mapping, reserved, q)
        decreases port
      {
        if !Taken(record, port) && Free(mapping, reserved, port) {
          return;
        }
        port := port - 1;
      }
      port := 0;
    }

    /** Chooses a machine's port and records it, in one hold. The hint may be stale
        by now. A port that is not the account's own is one no account derives. */
    method Decide(key: Key, base: int, want: int, ephemeral: bool, reserved: set<int>, readable: bool, saved: bool)
      returns (ok: bool, e: Entry)
      requires Valid() && mapping.Usable() && (!ephemeral ==> mapping.portBase <= base <= MAX_PORT)
      modifies this
      ensures Valid() && loaded == (old(loaded) || readable) && (ok ==> loaded)
      ensures key in old(Known(readable)) ==> ok && e == old(Known(readable))[key]
      ensures ok && key !in old(Known(readable)) ==>
        record == old(Known(readable))[key := e] && e.ephemeral == ephemeral && e.token == next == old(next) + 1
      ensures ok && key !in old(Known(readable)) ==>
        Given(mapping, old(Known(readable)), reserved, base, want, ephemeral, e.port)
      ensures !ok || key in old(Known(readable)) ==> record == old(Known(readable)) && next == old(next)
      ensures !ok && loaded ==>
        && (!ephemeral ==> Taken(record, base))
        && forall q :: mapping.portBase <= q <= MAX_PORT ==> Taken(record, q) || !Free(mapping, reserved, q)
      ensures file
        == if ok && saved && !ephemeral && key !in old(Known(readable)) then Lasting(record) else old(file)
    {
      e := NO_ENTRY;
      ok := Load(readable);
      if !ok {
        return;
      }
      if key in record {
        e := record[key];
        return;
      }
      var port := 0;
      if want != 0 && !Taken(record, want) && Free(mapping, reserved, want) {
        port := want;
      }
      if port == 0 && !ephemeral && !Taken(record, base) {
        port := base;
      }
      if port == 0 {
        port := Allocate(reserved);
        if port == 0 {
          return false, NO_ENTRY;
        }
      }
      e := Assign(key, port, ephemeral);
      if !ephemeral {
        Save(saved);
      }
    }

    /** Records a port under a new token. */
    method Assign(key: Key, port: int, ephemeral: bool) returns (e: Entry)
      requires Valid() && key !in record && !Taken(record, port)
      modifies this`record, this`next, this`given
      ensures Valid() && next == old(next) + 1 && e == Entry(port, ephemeral, next) && record == old(record)[key := e]
      ensures given == old(given)[next := key]
    {
      next := next + 1;
      e := Entry(port, ephemeral, next);
      record := record[key := e];
      given := given[next := key];
    }

    method Save(saved: bool)
      requires Valid()
      modifies this`file
      ensures Valid() && file == if saved then Lasting(record) else old(file)
    {
      if saved {
        file := Lasting(record);
      }
    }

    /** Gives a run back the port it had before a restart, if it still can be. */
    method Hold(key: Key, port: int, reserved: set<int>, readable: bool) returns (token: nat, ok: bool)
      requires Valid()
      modifies this`loaded, this`record, this`next, this`given
      ensures Valid()
      ensures var known := old(Known(readable));
        ok <==>
          (old(loaded) || readable)
          && if key in known then known[key].ephemeral && known[key].port == port
             else !Taken(known, port) && Free(mapping, reserved, port)
      ensures if ok then key in record && record[key] == Entry(port, true, token) else token == 0
      ensures next == if ok && key !in old(Known(readable)) then old(next) + 1 else old(next)
      ensures record
        == if ok && key !in old(Known(readable)) then old(Known(readable))[key := Entry(port, true, token)]
        else old(Known(readable))
    {
      token := 0;
      ok := Load(readable);
      if !ok {
        return;
      }
      if key in record {
        ok := record[key].ephemeral && record[key].port == port;
        token := if ok then record[key].token else 0;
        return;
      }
      ok := !Taken(record, port) && Free(mapping, reserved, port);
      if ok {
        var e := Assign(key, port, true);
        token := e.token;
      }
    }

    /** Gives a run's port up, for the token it was last given with alone: a token
        of an earlier hold frees nothing. */
    method FreeRun(key: Key, token: nat) returns (freed: bool)
      requires Valid()
      modifies this`record
      ensures Valid() && record == if freed then old(record) - {key} else old(record)
      ensures freed <==>
        key in old(record) && old(record)[key].ephemeral && token != 0 && old(record)[key].token == token
      ensures freed ==> token in given && given[token] == key
    {
      freed := key in record && record[key].ephemeral && token != 0 && record[key].token == token;
      if freed {
        record := record - {key};
      }
    }

    /** Drops a purged account's machines; its runs keep their ports. */
    method Forget(account: string, readable: bool, saved: bool) returns (ok: bool)
      requires Valid()
      modifies this`loaded, this`record, this`file
      ensures Valid() && (ok <==> old(loaded) || readable) && loaded == ok
      ensures var was := old(Known(readable));
        record == map k | k in was && (k.account != account || was[k].ephemeral) :: was[k]
      ensures file == if saved && record != old(Known(readable)) then Lasting(record) else old(file)
    {
      ok := Load(readable);
      if !ok {
        return;
      }
      var kept := map k | k in record && (k.account != account || record[k].ephemeral) :: record[k];
      if kept != record {
        record := kept;
        Save(saved);
      }
    }

    /** Whether an account may be forwarded a port. */
    method Owns(account: string, uid: int, port: int, readable: bool) returns (yes: bool)
      requires Valid()
      modifies this`loaded, this`record
      ensures Valid() && record == old(Known(readable))
      ensures yes <==> (old(loaded) || readable) && OwnsPort(mapping, record, account, uid, port)
    {
      var ok := Load(readable);
      if !ok {
        return false;
      }
      var left := record.Keys;
      while left != {}
        invariant left <= record.Keys && forall k :: k in record && k !in left ==> record[k].port != port
        decreases |left|
      {
        var k :| k in left;
        if record[k].port == port {
          return k.account == account;
        }
        left := left - {k};
      }
      yes := mapping.PortForUid(uid) == Ok(port);
    }

    /** The agent restarts: what is left is the record. */
    method Restart()
      requires Valid()
      modifies this
      ensures Valid() && !loaded && file == old(file) && record == map[] && next == 0
    {
      loaded, record, next, given := false, map[], 0, map[];
    }
  }

  /** A new machine's port after a restart: a lasting one whose port was written has it
      again; of a run, and of one that could not be written, nothing new is known. */
  method PortAfterRestart(p: Ports, key: Key, base: int, want: int, ephemeral: bool, reserved: set<int>, saved: bool)
    returns (ok: bool, e: Entry, known: bool, again: Entry)
    requires p.Valid() && p.mapping.Usable() && (!ephemeral ==> p.mapping.portBase <= base <= MAX_PORT)
    requires key !in p.Known(true)
    modifies p
    ensures p.Valid()
    ensures known <==> (ok && saved && !ephemeral) || key in old(p.file)
    ensures known ==> again == if ok && saved && !ephemeral then Entry(e.port, false, 0) else old(p.file)[key]
    ensures forall k :: k in p.record ==> !p.record[k].ephemeral
  {
    ok, e := p.Decide(key, base, want, ephemeral, reserved, true, saved);
    p.Restart();
    var read;
    read, known, again := p.Lookup(key, true);
  }

  /** A session of a machine asks for its port: the account's own where the machine has
      no name, else what is on record, else what is decided. */
  method For(p: Ports, account: string, uid: int, client: string, want: Option<int>, reserved: set<int>, readable: bool,
      saved: bool)
    returns (port: Result)
    requires p.Valid() && p.mapping.Usable()
    modifies p
    ensures p.Valid()
    ensures p.mapping.PortForUid(uid).Err? ==> port == Err
    ensures p.mapping.PortForUid(uid).Ok? && client == "" ==> port == p.mapping.PortForUid(uid)
    ensures p.mapping.PortForUid(uid).Err? || client == "" ==> unchanged(p)
    ensures var known := old(p.Known(readable));
      p.mapping.PortForUid(uid).Ok? && client != "" && (old(p.loaded) || readable) ==>
        if Key(account, client) in known then port == Ok(known[Key(account, client)].port) && p.record == known
        else if want.None? then port == Err && p.record == known
        else port.Ok? ==>
          && Given(p.mapping, known, reserved, p.mapping.PortForUid(uid).value, want.value, false, port.value)
          && Key(account, client) in p.record && p.record[Key(account, client)].port == port.value
    ensures p.mapping.PortForUid(uid).Ok? && client != "" && !old(p.loaded) && !readable ==> port == Err
  {
    var base := p.mapping.PortForUid(uid);
    if base.Err? || client == "" {
      return base;
    }
    var key := Key(account, client);
    var ok, known, e := p.Lookup(key, readable);
    if !ok {
      return Err;
    }
    if known {
      return Ok(e.port);
    }
    if want.None? {
      return Err;
    }
    ok, e := p.Decide(key, base.value, want.value, false, reserved, readable, saved);
    port := if ok then Ok(e.port) else Err;
  }
}
