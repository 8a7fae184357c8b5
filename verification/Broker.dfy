/** The Hyper-V service: operations of many callers on machines, one lock per
    name, ownership in one file. Each method is one step of one operation, under a
    mutex or a call that may fail, so any order of calls is an interleaving. */
module Broker {
  import opened Basics

  /** Where an operation stands. It waits for its name's lock, holds it, has checked
      ownership, found the name free, recorded it, failed to build, destroyed the
      machine, or has let the lock's channel go. */
  datatype Stage = Waiting | Locked | Owned | Clear | Recorded | Failed | Gone | Leaving

  /** One operation: on a name, for a caller, through a lock object. A purge acts
      for the owner it read before it had the lock. */
  datatype Task = Task(name: string, sid: string, purge: bool, lock: nat, stage: Stage)

  predicate Holding(k: Task) {
    k.stage != Waiting && k.stage != Leaving
  }

  /** A lock object: the name it was made for, who refers to it, whether its channel
      is taken. */
  datatype Lock = Lock(name: string, refs: nat, taken: bool)

  // ----- the locks

  ghost predicate LockOk(byName: map<string, nat>, l: Lock, id: nat, users: set<nat>, holder: Option<nat>,
      tasks: map<nat, Task>)
  {
    && l.refs == |users|
    && (forall t :: t in users <==> t in tasks && tasks[t].lock == id)
    && (users != {} ==> l.name in byName && byName[l.name] == id)
    && (forall t :: t in users ==> tasks[t].name == l.name && (Holding(tasks[t]) <==> holder == Some(t)))
    && (l.taken <==> holder.Some?) && (holder.Some? ==> holder.value in users)
  }

  ghost predicate LocksOk(byName: map<string, nat>, locks: seq<Lock>, users: seq<set<nat>>, holders: seq<Option<nat>>,
      tasks: map<nat, Task>)
  {
    && |users| == |locks| && |holders| == |locks|
    && (forall n :: n in byName ==> byName[n] < |locks| && locks[byName[n]].name == n)
    && (forall t :: t in tasks ==> tasks[t].lock < |locks|)
    && (forall id: nat {:trigger LockOk(byName, locks[id], id, users[id], holders[id], tasks)} ::
      id < |locks| ==> LockOk(byName, locks[id], id, users[id], holders[id], tasks))
  }

  /** At most one operation holds a name. */
  lemma {:induction false} OneHolder(byName: map<string, nat>, locks: seq<Lock>, users: seq<set<nat>>,
      holders: seq<Option<nat>>, tasks: map<nat, Task>, t: nat, u: nat)
    requires LocksOk(byName, locks, users, holders, tasks) && t in tasks && u in tasks && t != u
    requires Holding(tasks[t]) && Holding(tasks[u])
    ensures tasks[t].name != tasks[u].name
  {
    var i, j := tasks[t].lock, tasks[u].lock;
    assert LockOk(byName, locks[i], i, users[i], holders[i], tasks);
    assert LockOk(byName, locks[j], j, users[j], holders[j], tasks);
    assert t in users[i] && u in users[j];
  }

  /** A step of one task that changes only its own stage. */
  lemma {:induction false} StageMoves(byName: map<string, nat>, locks: seq<Lock>, users: seq<set<nat>>,
      holders: seq<Option<nat>>, tasks: map<nat, Task>, t: nat, to: Stage)
    requires LocksOk(byName, locks, users, holders, tasks) && t in tasks && Holding(tasks[t])
      && Holding(tasks[t].(stage := to))
    ensures LocksOk(byName, locks, users, holders, tasks[t := tasks[t].(stage := to)])
  {
    var tasks' := tasks[t := tasks[t].(stage := to)];
    forall id: nat | id < |locks| ensures LockOk(byName, locks[id], id, users[id], holders[id], tasks') {
      assert LockOk(byName, locks[id], id, users[id], holders[id], tasks);
    }
  }

  /** A change of one lock object and of one task that uses it. */
  lemma {:induction false} OneLock(byName: map<string, nat>, locks: seq<Lock>, users: seq<set<nat>>,
      holders: seq<Option<nat>>, tasks: map<nat, Task>, byName': map<string, nat>, id: nat, l: Lock, us: set<nat>,
      h: Option<nat>, tasks': map<nat, Task>, t: nat)
    requires LocksOk(byName, locks, users, holders, tasks) && id < |locks| && l.name == locks[id].name
    requires forall u :: u != t ==> (u in tasks <==> u in tasks') && (u in tasks ==> tasks[u] == tasks'[u])
    requires (t in tasks ==> tasks[t].lock == id) && (t in tasks' ==> tasks'[t].lock == id)
    requires byName' == byName || (byName' == byName - {l.name} && l.name in byName && byName[l.name] == id)
    requires LockOk(byName', l, id, us, h, tasks')
    ensures LocksOk(byName', locks[id := l], users[id := us], holders[id := h], tasks')
  {
    var locks', users', holders' := locks[id := l], users[id := us], holders[id := h];
    forall i: nat | i < |locks'| ensures LockOk(byName', locks'[i], i, users'[i], holders'[i], tasks') {
      if i != id {
        assert LockOk(byName, locks[i], i, users[i], holders[i], tasks);
      }
    }
  }

  lemma {:induction false} JoinOk(byName: map<string, nat>, locks: seq<Lock>, users: seq<set<nat>>,
      holders: seq<Option<nat>>, tasks: map<nat, Task>, t: nat, k: Task, l: Lock)
    requires LocksOk(byName, locks, users, holders, tasks) && t !in tasks && k.stage == Waiting && k.name in byName
      && byName[k.name] == k.lock
    requires l == locks[k.lock].(refs := locks[k.lock].refs + 1)
    ensures LocksOk(byName, locks[k.lock := l], users[k.lock := users[k.lock] + {t}],
      holders[k.lock := holders[k.lock]], tasks[t := k])
  {
    var id := k.lock;
    assert LockOk(byName, locks[id], id, users[id], holders[id], tasks);
    OneLock(byName, locks, users, holders, tasks, byName, id, l, users[id] + {t}, holders[id], tasks[t := k], t);
  }

  lemma {:induction false} TakeOk(byName: map<string, nat>, locks: seq<Lock>, users: seq<set<nat>>,
      holders: seq<Option<nat>>, tasks: map<nat, Task>, t: nat, l: Lock, tasks': map<nat, Task>)
    requires LocksOk(byName, locks, users, holders, tasks) && t in tasks && tasks[t].stage == Waiting
      && !locks[tasks[t].lock].taken
    requires l == locks[tasks[t].lock].(taken := true) && tasks' == tasks[t := tasks[t].(stage := Locked)]
    ensures var id := tasks[t].lock;
      LocksOk(byName, locks[id := l], users[id := users[id]], holders[id := Some(t)], tasks')
  {
    var id := tasks[t].lock;
    assert LockOk(byName, locks[id], id, users[id], holders[id], tasks);
    OneLock(byName, locks, users, holders, tasks, byName, id, l, users[id], Some(t), tasks', t);
  }

  lemma {:induction false} LetGoOk(byName: map<string, nat>, locks: seq<Lock>, users: seq<set<nat>>,
      holders: seq<Option<nat>>, tasks: map<nat, Task>, t: nat, l: Lock, tasks': map<nat, Task>)
    requires LocksOk(byName, locks, users, holders, tasks) && t in tasks && Holding(tasks[t])
    requires l == locks[tasks[t].lock].(taken := false) && tasks' == tasks[t := tasks[t].(stage := Leaving)]
    ensures var id := tasks[t].lock;
      LocksOk(byName, locks[id := l], users[id := users[id]], holders[id := None], tasks')
  {
    var id := tasks[t].lock;
    assert LockOk(byName, locks[id], id, users[id], holders[id], tasks);
    OneLock(byName, locks, users, holders, tasks, byName, id, l, users[id], None, tasks', t);
  }

  lemma {:induction false} ReleaseOk(byName: map<string, nat>, locks: seq<Lock>, users: seq<set<nat>>,
      holders: seq<Option<nat>>, tasks: map<nat, Task>, t: nat, us: set<nat>)
    requires LocksOk(byName, locks, users, holders, tasks) && t in tasks && !Holding(tasks[t])
      && us == users[tasks[t].lock] - {t}
    ensures locks[tasks[t].lock].refs > 0
    ensures var id := tasks[t].lock; var l := locks[id].(refs := locks[id].refs - 1);
      LocksOk(if l.refs == 0 then byName - {l.name} else byName, locks[id := l], users[id := us],
        holders[id := holders[id]], tasks - {t})
  {
    var id := tasks[t].lock;
    assert LockOk(byName, locks[id], id, users[id], holders[id], tasks);
    assert t in users[id];
    var l := locks[id].(refs := locks[id].refs - 1);
    var byName' := if l.refs == 0 then byName - {l.name} else byName;
    OneLock(byName, locks, users, holders, tasks, byName', id, l, us, holders[id], tasks - {t}, t);
  }

  // ----- what the operations rely on

  function FoldChar(c: char): char {
    if 'A' <= c <= 'Z' then c - 'A' + 'a' else c
  }

  /** A SID without regard to the case of its letters. */
  function Fold(sid: string): string {
    if sid == "" then "" else [FoldChar(sid[0])] + Fold(sid[1..])
  }

  /** The same letter but for its case, or the same character. */
  predicate SameLetter(c: char, d: char) {
    c == d || ('A' <= c <= 'Z' && d as int == c as int + 32) || ('A' <= d <= 'Z' && c as int == d as int + 32)
  }

  /** Two SIDs fold alike exactly if they differ in the case of letters alone. */
  lemma {:induction false} FoldsAlike(a: string, b: string)
    ensures Fold(a) == Fold(b) <==> |a| == |b| && forall i :: 0 <= i < |a| ==> SameLetter(a[i], b[i])
  {
    if a == "" || b == "" {
      assert a != "" ==> Fold(a) != "";
      assert b != "" ==> Fold(b) != "";
    } else {
      FoldsAlike(a[1..], b[1..]);
      assert Fold(a) == Fold(b) <==> FoldChar(a[0]) == FoldChar(b[0]) && Fold(a[1..]) == Fold(b[1..]) by {
        assert Fold(a)[0] == FoldChar(a[0]) && Fold(a)[1..] == Fold(a[1..]);
        assert Fold(b)[0] == FoldChar(b[0]) && Fold(b)[1..] == Fold(b[1..]);
      }
      if |a| == |b| && SameLetter(a[0], b[0]) && forall i :: 0 <= i < |a[1..]| ==> SameLetter(a[1..][i], b[1..][i]) {
        forall i | 0 <= i < |a| ensures SameLetter(a[i], b[i]) {
          assert i > 0 ==> a[i] == a[1..][i - 1] && b[i] == b[1..][i - 1];
        }
      }
    }
  }

  /** The machine is recorded for the operation's caller. */
  predicate OwnerIs(records: map<string, string>, k: Task) {
    k.name in records && Fold(records[k.name]) == Fold(k.sid)
  }

  /** What an operation that holds its name may count on. */
  ghost predicate TaskOk(k: Task, records: map<string, string>, built: set<string>) {
    && (k.stage in {Owned, Recorded, Failed} ==> OwnerIs(records, k) && !k.purge)
    && (k.stage == Clear ==> k.name !in records && !k.purge)
    && (k.stage == Gone ==> k.name !in built)
  }

  /** What an operation on a machine is told. */
  datatype Answer = Yours | NotYours | AbsentUnowned | Failure

  class Broker {
    // name -> the SID it belongs to, as the file has it
    var records: map<string, string>
    var byName: map<string, nat>
    var locks: seq<Lock>
    var tasks: map<nat, Task>

    // Machines the service has begun to build and not since destroyed.
    ghost var built: set<string>
    ghost var users: seq<set<nat>>
    ghost var holders: seq<Option<nat>>

    ghost predicate Valid()
      reads this
    {
      && LocksOk(byName, locks, users, holders, tasks)
      && (forall t :: t in tasks ==> TaskOk(tasks[t], records, built))
      && built <= records.Keys
    }

    constructor (records: map<string, string>)
      ensures Valid() && this.records == records && tasks == map[] && built == {}
    {
      this.records, byName, locks, tasks := records, map[], [], map[];
      built, users, holders := {}, [], [];
    }

    /** The service stops and starts again: operations and locks are gone, the
        record and the machines are not. */
    method Restart()
      requires Valid()
      modifies this`byName, this`locks, this`tasks, this`users, this`holders
      ensures Valid() && tasks == map[] && byName == map[]
    {
      byName, locks, tasks, users, holders := map[], [], map[], [], [];
    }

    /** One operation per name, whatever lock objects came and went. */
    lemma {:induction false} Exclusive(t: nat, u: nat)
      requires Valid() && t in tasks && u in tasks && t != u && Holding(tasks[t]) && Holding(tasks[u])
      ensures tasks[t].name != tasks[u].name
    {
      OneHolder(byName, locks, users, holders, tasks, t, u);
    }

    /** An operation asks for its name's lock, made if there is none. */
    method Enter(t: nat, name: string, sid: string, purge: bool)
      requires Valid() && t !in tasks
      modifies this`byName, this`locks, this`tasks, this`users, this`holders
      ensures Valid() && t in tasks && tasks == old(tasks)[t := tasks[t]]
      ensures tasks[t].name == name && tasks[t].sid == sid && tasks[t].purge == purge && tasks[t].stage == Waiting
    {
      if name !in byName {
        NewLock(name);
      }
      Join(t, Task(name, sid, purge, byName[name], Waiting));
    }

    /** Refers to the lock there is. */
    method Join(t: nat, k: Task)
      requires Valid() && t !in tasks && k.stage == Waiting && k.name in byName && byName[k.name] == k.lock
      modifies this`locks, this`tasks, this`users, this`holders
      ensures Valid() && tasks == old(tasks)[t := k]
    {
      var id := k.lock;
      var l := locks[id].(refs := locks[id].refs + 1);
      JoinOk(byName, locks, users, holders, tasks, t, k, l);
      locks, users, holders, tasks := locks[id := l], users[id := users[id] + {t}], holders[id := holders[id]],
        tasks[t := k];
    }

    method NewLock(name: string)
      requires Valid() && name !in byName
      modifies this`byName, this`locks, this`users, this`holders
      ensures Valid() && name in byName && byName[name] < |locks|
    {
      AddLock(byName, locks, users, holders, tasks, name);
      byName, locks, users, holders := byName[name := |locks|], locks + [Lock(name, 0, false)], users + [{}],
        holders + [None];
    }

    /** The lock's channel is free and taken. */
    method Take(t: nat) returns (ok: bool)
      requires Valid() && t in tasks && tasks[t].stage == Waiting
      modifies this`locks, this`tasks, this`users, this`holders
      ensures Valid() && tasks == if ok then old(tasks)[t := old(tasks)[t].(stage := Locked)] else old(tasks)
      ensures ok <==> forall u :: u in tasks && u != t && tasks[u].name == tasks[t].name ==> !Holding(tasks[u])
    {
      var id := tasks[t].lock;
      if locks[id].taken {
        SomeoneHolds(t);
        return false;
      }
      var l, tasks' := locks[id].(taken := true), tasks[t := tasks[t].(stage := Locked)];
      TakeOk(byName, locks, users, holders, tasks, t, l, tasks');
      locks, users, holders, tasks := locks[id := l], users[id := users[id]], holders[id := Some(t)], tasks';
      AloneWith(t);
      return true;
    }

    /** Lets the channel go: whatever was done, the name is free again. */
    method LetGo(t: nat)
      requires Valid() && t in tasks && Holding(tasks[t])
      modifies this`locks, this`tasks, this`users, this`holders
      ensures Valid() && tasks == old(tasks)[t := old(tasks)[t].(stage := Leaving)]
    {
      var id := tasks[t].lock;
      var l, tasks' := locks[id].(taken := false), tasks[t := tasks[t].(stage := Leaving)];
      LetGoOk(byName, locks, users, holders, tasks, t, l, tasks');
      locks, users, holders, tasks := locks[id := l], users[id := users[id]], holders[id := None], tasks';
    }

    /** Gives the reference up, after the lock or instead of it. The last one
        discards the lock object. */
    method Release(t: nat)
      requires Valid() && t in tasks && !Holding(tasks[t])
      modifies this`byName, this`locks, this`tasks, this`users, this`holders
      ensures Valid() && tasks == old(tasks) - {t}
    {
      var id := tasks[t].lock;
      ghost var us := users[id] - {t};
      ReleaseOk(byName, locks, users, holders, tasks, t, us);
      var l := locks[id].(refs := locks[id].refs - 1);
      var byName' := if l.refs == 0 then byName - {l.name} else byName;
      byName, locks, users, holders, tasks := byName', locks[id := l], users[id := us], holders[id := holders[id]],
        tasks - {t};
    }

    // ----- under the name's lock

    method Move(t: nat, to: Stage)
      requires Valid() && t in tasks && Holding(tasks[t]) && Holding(tasks[t].(stage := to))
        && TaskOk(tasks[t].(stage := to), records, built)
      modifies this`tasks
      ensures Valid() && tasks == old(tasks)[t := old(tasks)[t].(stage := to)]
    {
      StageMoves(byName, locks, users, holders, tasks, t, to);
      tasks := tasks[t := tasks[t].(stage := to)];
    }

    /** Whether the caller may act on the machine: recorded for the caller, recorded
        for another, in neither the record nor Hyper-V, or in Hyper-V and not
        recorded, which nobody may have. */
    method Access(t: nat, readable: bool, look: Option<bool>) returns (answer: Answer)
      requires Valid() && t in tasks && tasks[t].stage == Locked && !tasks[t].purge
      modifies this`tasks
      ensures Valid() && (answer == Yours <==> readable && OwnerIs(records, old(tasks[t])))
      ensures answer == NotYours <==>
        readable && (if old(tasks[t]).name in records then !OwnerIs(records, old(tasks[t])) else look == Some(true))
      ensures answer == AbsentUnowned <==> readable && old(tasks[t]).name !in records && look == Some(false)
      ensures tasks == if answer == Yours then old(tasks)[t := old(tasks)[t].(stage := Owned)] else old(tasks)
    {
      if !readable {
        return Failure;
      }
      if tasks[t].name in records {
        if !OwnerIs(records, tasks[t]) {
          return NotYours;
        }
        Move(t, Owned);
        return Yours;
      }
      match look {
        case None => answer := Failure;
        case Some(there) => answer := if there then NotYours else AbsentUnowned;
      }
    }

    /** Start, Stop or Retract reaches Hyper-V: for the recorded owner. */
    method Act(t: nat) returns (ghost owner: string)
      requires Valid() && t in tasks && tasks[t].stage == Owned
      ensures OwnerIs(records, tasks[t]) && owner == tasks[t].sid
    {
      assert TaskOk(tasks[t], records, built);
      owner := tasks[t].sid;
    }

    /** A create finds its name in neither the record nor Hyper-V. */
    method CheckFree(t: nat, absent: bool) returns (free: bool)
      requires Valid() && t in tasks && tasks[t].stage == Locked && !tasks[t].purge
      modifies this`tasks
      ensures Valid() && (free <==> absent && old(tasks[t]).name !in records)
      ensures tasks == if free then old(tasks)[t := old(tasks)[t].(stage := Clear)] else old(tasks)
    {
      free := absent && tasks[t].name !in records;
      if free {
        Move(t, Clear);
      }
    }

    /** The record is written before anything is built. */
    method Put(t: nat, saved: bool)
      requires Valid() && t in tasks && tasks[t].stage == Clear
      modifies this`records, this`tasks
      ensures Valid()
      ensures if saved
        then records == old(records)[old(tasks[t]).name := old(tasks[t]).sid]
        && tasks == old(tasks)[t := old(tasks)[t].(stage := Recorded)]
              else records == old(records) && tasks == old(tasks)
    {
      if !saved {
        return;
      }
      AloneWith(t);
      StageMoves(byName, locks, users, holders, tasks, t, Recorded);
      records, tasks := records[tasks[t].name := tasks[t].sid], tasks[t := tasks[t].(stage := Recorded)];
    }

    lemma {:induction false} SomeoneHolds(t: nat)
      requires Valid() && t in tasks && tasks[t].stage == Waiting
      requires tasks[t].lock < |locks| && locks[tasks[t].lock].taken
      ensures exists u :: u in tasks && u != t && tasks[u].name == tasks[t].name && Holding(tasks[u])
    {
      var id := tasks[t].lock;
      assert LockOk(byName, locks[id], id, users[id], holders[id], tasks);
      assert t in users[id] && holders[id].value in users[id];
    }

    /** Every other operation on the same name is outside the lock. */
    lemma {:induction false} AloneWith(t: nat)
      requires Valid() && t in tasks && Holding(tasks[t])
      ensures forall u :: u in tasks && u != t && tasks[u].name == tasks[t].name ==> !Holding(tasks[u])
    {
      forall u | u in tasks && u != t && tasks[u].name == tasks[t].name ensures !Holding(tasks[u]) {
        if Holding(tasks[u]) {
          Exclusive(t, u);
        }
      }
    }

    /** The machine is built, or part of it is. Only for the recorded owner. */
    method Build(t: nat, started: bool, ok: bool)
      requires Valid() && t in tasks && tasks[t].stage == Recorded && (ok ==> started)
      modifies this`tasks, this`built
      ensures Valid() && OwnerIs(records, old(tasks[t]))
      ensures tasks == old(tasks)[t := old(tasks)[t].(stage := if ok then Owned else Failed)]
      ensures built == if started then old(built) + {old(tasks[t]).name} else old(built)
    {
      AloneWith(t);
      assert TaskOk(tasks[t], records, built);
      if started {
        built := built + {tasks[t].name};
      }
      Move(t, if ok then Owned else Failed);
    }

    /** Destroy reaches Hyper-V: for the recorded owner, or for a purge. */
    method Destroy(t: nat, ok: bool)
      requires Valid() && t in tasks
        && (tasks[t].stage == Owned || tasks[t].stage == Failed || (tasks[t].purge && tasks[t].stage == Locked))
      modifies this`tasks, this`built
      ensures Valid() && (!old(tasks[t]).purge ==> OwnerIs(records, old(tasks[t])))
      ensures if ok
        then built == old(built) - {old(tasks[t]).name} && tasks == old(tasks)[t := old(tasks)[t].(stage := Gone)]
              else built == old(built) && tasks == old(tasks)
    {
      assert TaskOk(tasks[t], records, built);
      if ok {
        built := built - {tasks[t].name};
        Move(t, Gone);
      }
    }

    /** The record goes only after the machine, and only while it is still the one
        the operation acted for. */
    method RemoveRecord(t: nat, saved: bool)
      requires Valid() && t in tasks && tasks[t].stage == Gone
      modifies this`records
      ensures Valid()
      ensures records
        == if saved && OwnerIs(old(records), tasks[t]) then old(records) - {tasks[t].name} else old(records)
    {
      if !saved || !OwnerIs(records, tasks[t]) {
        return;
      }
      AloneWith(t);
      assert TaskOk(tasks[t], records, built);
      records := records - {tasks[t].name};
    }
  }

  const PER_CALLER := 2
  const PER_ADMIN := 4

  /** Administrators count apart, so members never lock them out. */
  function SlotKey(sid: string, admin: bool): string {
    if admin then "admin:" + sid else sid
  }

  /** Two callers count together only if they are one caller in one role, a SID that
      itself begins as an administrator's key apart. */
  lemma {:induction false} SlotsApart(a: string, x: bool, b: string, y: bool)
    ensures SlotKey(a, x) == SlotKey(b, y) <==>
      if x == y then a == b else if x then b == "admin:" + a else a == "admin:" + b
  {
    if x && y && SlotKey(a, x) == SlotKey(b, y) {
      assert SlotKey(a, x)[6..] == a && SlotKey(b, y)[6..] == b;
    }
  }

  /** How many operations a caller has running. */
  class Slots {
    var inflight: map<string, nat>
    ghost var running: multiset<string>

    ghost predicate Valid()
      reads this
    {
      forall key :: (key in inflight <==> key in running) && (key in inflight ==> inflight[key] == running[key])
    }

    constructor ()
      ensures Valid() && running == multiset{}
    {
      inflight, running := map[], multiset{};
    }

    /** Takes a slot while the caller has fewer than its limit running. */
    method Acquire(sid: string, admin: bool) returns (ok: bool)
      requires Valid()
      modifies this
      ensures Valid() && (ok <==> old(running)[SlotKey(sid, admin)] < if admin then PER_ADMIN else PER_CALLER)
      ensures running == if ok then old(running) + multiset{SlotKey(sid, admin)} else old(running)
    {
      var key, limit := SlotKey(sid, admin), if admin then PER_ADMIN else PER_CALLER;
      var n := if key in inflight then inflight[key] else 0;
      if n >= limit {
        return false;
      }
      inflight, running := inflight[key := n + 1], running + multiset{key};
      return true;
    }

    method GiveBack(key: string)
      requires Valid() && key in running
      modifies this
      ensures Valid() && running == old(running) - multiset{key}
    {
      var n := inflight[key] - 1;
      inflight := if n <= 0 then inflight - {key} else inflight[key := n];
      running := running - multiset{key};
    }
  }

  lemma {:induction false} AddLock(byName: map<string, nat>, locks: seq<Lock>, users: seq<set<nat>>,
      holders: seq<Option<nat>>, tasks: map<nat, Task>, name: string)
    requires LocksOk(byName, locks, users, holders, tasks) && name !in byName
    ensures LocksOk(byName[name := |locks|], locks + [Lock(name, 0, false)], users + [{}], holders + [None], tasks)
  {
    var locks', users', holders' := locks + [Lock(name, 0, false)], users + [{}], holders + [None];
    forall i: nat | i < |locks'| ensures LockOk(byName[name := |locks|], locks'[i], i, users'[i], holders'[i], tasks) {
      if i < |locks| {
        assert LockOk(byName, locks[i], i, users[i], holders[i], tasks);
      }
    }
  }
}
