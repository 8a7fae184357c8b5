/** Requests that share one descriptor, each with an offset of its own, against
    requests that each have a private descriptor of the same file. */
module SharedFile {

  type Byte = b: int | 0 <= b < 256 witness 0

  /** A file as the kernel keeps it: writing past the end fills with zeros. */
  function WriteAt(data: seq<Byte>, off: nat, p: seq<Byte>): seq<Byte> {
    if p == [] then data
    else if off > |data| then data + seq(off - |data|, _ => 0) + p
    else data[..off] + p + (if off + |p| < |data| then data[off + |p|..] else [])
  }

  function ReadFrom(data: seq<Byte>, off: nat, n: nat): seq<Byte> {
    if off >= |data| then [] else if off + n <= |data| then data[off..off + n] else data[off..]
  }

  function Resized(data: seq<Byte>, size: nat): seq<Byte> {
    if size <= |data| then data[..size] else data + seq(size - |data|, _ => 0)
  }

  /** A byte of a file written at an offset: what was written there, what was there
      before, or a zero in between. */
  lemma {:induction false} WriteAtByte(data: seq<Byte>, off: nat, p: seq<Byte>, k: nat)
    requires k < |WriteAt(data, off, p)| && p != []
    ensures WriteAt(data, off, p)[k] == if off <= k < off + |p| then p[k - off] else if k < |data| then data[k] else 0
    ensures |WriteAt(data, off, p)| == if off + |p| > |data| then off + |p| else |data|
  {
  }

  /** A read gives the bytes from its offset on, as many as asked for or as there are. */
  lemma {:induction false} ReadFromByte(data: seq<Byte>, off: nat, n: nat, k: nat)
    ensures |ReadFrom(data, off, n)| == if off >= |data| then 0 else if |data| - off < n then |data| - off else n
    ensures k < |ReadFrom(data, off, n)| ==> ReadFrom(data, off, n)[k] == data[off + k]
  {
  }

  /** What was written is what is read back. */
  lemma {:induction false} ReadsWhatWasWritten(data: seq<Byte>, off: nat, p: seq<Byte>)
    ensures ReadFrom(WriteAt(data, off, p), off, |p|) == p
  {
    if p != [] {
      forall k: nat | k < |p| ensures WriteAt(data, off, p)[off + k] == p[k] {
        SizeAfter(data, off, p);
        WriteAtByte(data, off, p, off + k);
      }
      SizeAfter(data, off, p);
    }
  }

  /** A file cut or filled to a size keeps its bytes up to it, and zeros follow. */
  lemma {:induction false} ResizedByte(data: seq<Byte>, size: nat, k: nat)
    ensures |Resized(data, size)| == size
    ensures k < size ==> Resized(data, size)[k] == if k < |data| then data[k] else 0
  {
  }

  /** Writes that do not overlap can land in either order. */
  lemma {:induction false} WritesCommute(data: seq<Byte>, a: nat, p: seq<Byte>, b: nat, q: seq<Byte>)
    requires p != [] && q != [] && (a + |p| <= b || b + |q| <= a)
    ensures WriteAt(WriteAt(data, a, p), b, q) == WriteAt(WriteAt(data, b, q), a, p)
  {
    var x, y := WriteAt(WriteAt(data, a, p), b, q), WriteAt(WriteAt(data, b, q), a, p);
    SizeAfter(data, a, p);
    SizeAfter(data, b, q);
    SizeAfter(WriteAt(data, a, p), b, q);
    SizeAfter(WriteAt(data, b, q), a, p);
    forall k: nat | k < |x| ensures x[k] == y[k] {
      ByteAfterTwo(data, a, p, b, q, k);
      ByteAfterTwo(data, b, q, a, p, k);
    }
  }

  lemma {:induction false} SizeAfter(data: seq<Byte>, off: nat, p: seq<Byte>)
    requires p != []
    ensures |WriteAt(data, off, p)| == if off + |p| > |data| then off + |p| else |data|
  {
  }

  lemma {:induction false} ByteAfterTwo(data: seq<Byte>, a: nat, p: seq<Byte>, b: nat, q: seq<Byte>, k: nat)
    requires p != [] && q != [] && k < |WriteAt(WriteAt(data, a, p), b, q)|
    ensures WriteAt(WriteAt(data, a, p), b, q)[k] ==
            if b <= k < b + |q| then q[k - b] else if a <= k < a + |p| then p[k - a] else if k < |data| then data[k]
              else 0
  {
    var mid := WriteAt(data, a, p);
    WriteAtByte(mid, b, q, k);
    SizeAfter(data, a, p);
    if !(b <= k < b + |q|) && k < |mid| {
      WriteAtByte(data, a, p, k);
    }
  }

  // ----- one request's operations

  /** An operation, with how much of it the kernel carried out. */
  datatype Op = Write(p: seq<Byte>, done: nat) | Read(n: nat, done: nat) | ReadAt(n: nat, start: nat)
              | Seek(off: int, whence: int) | Truncate(size: nat)

  datatype Answer = Count(n: int) | Data(bytes: seq<Byte>) | At(pos: int) | Error

  /** The file, the descriptor's own position, and each request's offset. */
  datatype Shared = Shared(data: seq<Byte>, pos: nat, offsets: map<nat, int>)

  /** The file, and each request's private descriptor position. */
  datatype Private = Private(data: seq<Byte>, positions: map<nat, nat>)

  function AtMost(a: nat, b: nat): nat {
    if a < b then a else b
  }

  /** A descriptor's own operations. An offset from the end, or from the start or
      the current position, that comes out negative is refused. */
  function Descriptor(data: seq<Byte>, pos: nat, op: Op): (seq<Byte>, nat, Answer) {
    match op
    case Write(p, done) =>
      var n := AtMost(done, |p|);
      (WriteAt(data, pos, p[..n]), pos + n, Count(n))
    case Read(n, done) =>
      var got := ReadFrom(data, pos, AtMost(n, done));
      (data, pos + |got|, Data(got))
    case ReadAt(n, off) => (data, pos, Data(ReadFrom(data, off, n)))
    case Seek(off, whence) =>
      var to := if whence == 0 then off else if whence == 1 then pos + off else |data| + off;
      if to < 0 || !(0 <= whence <= 2) then (data, pos, Error) else (data, to, At(to))
    case Truncate(size) => (Resized(data, size), pos, Count(0))
  }

  /** Of a transfer as much is done as the kernel carries out, and all of it if that is
      enough. */
  lemma {:induction false} TransfersAre(data: seq<Byte>, pos: nat, p: seq<Byte>, n: nat, done: nat)
    ensures done >= |p| ==>
      Descriptor(data, pos, Op.Write(p, done)) == (WriteAt(data, pos, p), pos + |p|, Count(|p|))
    ensures done < |p| ==>
      Descriptor(data, pos, Op.Write(p, done)) == (WriteAt(data, pos, p[..done]), pos + done, Count(done))
    ensures Descriptor(data, pos, Op.Read(n, done)).2 == Data(ReadFrom(data, pos, if done < n then done else n))
  {
    assert p[..|p|] == p;
  }

  /** One operation of a request through the shared descriptor: seek and transfer
      under one lock, or the request's own offset moved. */
  function ThroughShared(s: Shared, r: nat, op: Op): (Shared, Answer)
    requires r in s.offsets
  {
    var off := s.offsets[r];
    match op
    case Seek(d, 0) => (s.(offsets := s.offsets[r := d]), At(d))
    case Seek(d, 1) => (s.(offsets := s.offsets[r := off + d]), At(off + d))
    case Seek(_, _) =>
      var (data, pos, answer) := Descriptor(s.data, s.pos, op);
      (Shared(data, pos, if answer.At? then s.offsets[r := pos] else s.offsets), answer)
    case ReadAt(_, _) => (s, Descriptor(s.data, s.pos, op).2)
    case Truncate(_) => (s.(data := Descriptor(s.data, s.pos, op).0), Count(0))
    case _ =>
      if off < 0 then (s, Error)
      else
        var (data, pos, answer) := Descriptor(s.data, off, op);
        (Shared(data, pos, s.offsets[r := pos]), answer)
  }

  function ThroughPrivate(s: Private, r: nat, op: Op): (Private, Answer)
    requires r in s.positions
  {
    var (data, pos, answer) := Descriptor(s.data, s.positions[r], op);
    (Private(data, s.positions[r := pos]), answer)
  }

  /** An open file of the operating system. */
  class OpenFile {
    var data: seq<Byte>
    var pos: nat
  }

  /** One request's view of a shared descriptor. The lock on the descriptor makes
      each method one step. */
  class SharedFile {
    const fd: OpenFile
    var offset: int
    var closed: bool
    ghost var released: nat

    constructor (fd: OpenFile)
      ensures this.fd == fd && offset == 0 && !closed && released == 0
    {
      this.fd := fd;
      offset, closed, released := 0, false, 0;
    }

    ghost function State(): Shared
      reads this, fd
    {
      Shared(fd.data, fd.pos, map[0 := offset])
    }

    method Write(p: seq<Byte>, done: nat) returns (answer: Answer)
      modifies this`offset, fd
      ensures (State(), answer) == ThroughShared(old(State()), 0, Op.Write(p, done))
    {
      if offset < 0 {
        return Error;
      }
      fd.pos := offset;
      var n := AtMost(done, |p|);
      fd.data, fd.pos := WriteAt(fd.data, fd.pos, p[..n]), fd.pos + n;
      offset := offset + n;
      answer := Count(n);
      assert map[0 := old(offset)][0 := offset] == map[0 := offset];
    }

    method Read(n: nat, done: nat) returns (answer: Answer)
      modifies this`offset, fd`pos
      ensures (State(), answer) == ThroughShared(old(State()), 0, Op.Read(n, done))
    {
      if offset < 0 {
        return Error;
      }
      fd.pos := offset;
      var got := ReadFrom(fd.data, fd.pos, AtMost(n, done));
      fd.pos := fd.pos + |got|;
      offset := offset + |got|;
      answer := Data(got);
      assert map[0 := old(offset)][0 := offset] == map[0 := offset];
    }

    method Seek(off: int, whence: int) returns (answer: Answer)
      modifies this`offset, fd`pos
      ensures (State(), answer) == ThroughShared(old(State()), 0, Op.Seek(off, whence))
    {
      if whence == 0 {
        offset := off;
      } else if whence == 1 {
        offset := offset + off;
      } else {
        if whence != 2 || |fd.data| + off < 0 {
          return Error;
        }
        fd.pos := |fd.data| + off;
        offset := fd.pos;
      }
      answer := At(offset);
      assert map[0 := old(offset)][0 := offset] == map[0 := offset];
    }

    method Truncate(size: nat) returns (answer: Answer)
      modifies fd`data
      ensures (State(), answer) == ThroughShared(old(State()), 0, Op.Truncate(size))
    {
      fd.data := Resized(fd.data, size);
      answer := Count(0);
    }

    /** Gives the descriptor back, once. */
    method Close()
      modifies this`closed, this`released
      ensures closed && released == if old(closed) then old(released) else old(released) + 1
    {
      if closed {
        return;
      }
      closed := true;
      released := released + 1;
    }
  }

  /** Same file, and every request where its private descriptor would be. */
  ghost predicate Agree(s: Shared, t: Private) {
    && s.data == t.data && s.offsets.Keys == t.positions.Keys
    && forall r :: r in s.offsets ==> s.offsets[r] == t.positions[r]
  }

  /** A seek from the start or the current offset to before the start. */
  predicate SeeksBack(off: int, op: Op) {
    op.Seek? && ((op.whence == 0 && op.off < 0) || (op.whence == 1 && off + op.off < 0))
  }

  /** One operation has the same answer and the same effect exactly when it does not
      seek to before the start of the file. */
  lemma {:induction false} StepAgrees(s: Shared, t: Private, r: nat, op: Op)
    requires Agree(s, t) && r in s.offsets
    ensures (ThroughShared(s, r, op).1 == ThroughPrivate(t, r, op).1
             && Agree(ThroughShared(s, r, op).0, ThroughPrivate(t, r, op).0))
            <==> !SeeksBack(s.offsets[r], op)
  {
  }

  /** An input on which the two differ: a seek to before the start. */
  lemma {:induction false} SeekingBackDiffers(data: seq<Byte>, r: nat)
    ensures var s, t, op := Shared(data, 0, map[r := 0]), Private(data, map[r := 0]), Op.Seek(-1, 0);
            Agree(s, t)
              && !(ThroughShared(s, r, op).1 == ThroughPrivate(t, r, op).1
              && Agree(ThroughShared(s, r, op).0, ThroughPrivate(t, r, op).0))
  {
    StepAgrees(Shared(data, 0, map[r := 0]), Private(data, map[r := 0]), r, Op.Seek(-1, 0));
  }

  datatype Call = Call(r: nat, op: Op)

  function RunShared(s: Shared, calls: seq<Call>): (Shared, seq<Answer>)
    requires forall c :: c in calls ==> c.r in s.offsets
    decreases |calls|
  {
    if calls == [] then (s, [])
    else
      var last := calls[|calls| - 1];
      var (before, answers) := RunShared(s, calls[..|calls| - 1]);
      if last.r !in before.offsets then (before, answers)
      else var (after, a) := ThroughShared(before, last.r, last.op); (after, answers + [a])
  }

  function RunPrivate(t: Private, calls: seq<Call>): (Private, seq<Answer>)
    requires forall c :: c in calls ==> c.r in t.positions
    decreases |calls|
  {
    if calls == [] then (t, [])
    else
      var last := calls[|calls| - 1];
      var (before, answers) := RunPrivate(t, calls[..|calls| - 1]);
      if last.r !in before.positions then (before, answers)
      else var (after, a) := ThroughPrivate(before, last.r, last.op); (after, answers + [a])
  }

  /** No call of the run, as it is made through the shared descriptor, seeks back. */
  ghost predicate NoneSeeksBack(s: Shared, calls: seq<Call>)
    requires forall c :: c in calls ==> c.r in s.offsets
  {
    forall k :: 0 <= k < |calls| ==> MadeForward(s, calls, k)
  }

  ghost predicate MadeForward(s: Shared, calls: seq<Call>, k: nat)
    requires k < |calls| && forall c :: c in calls ==> c.r in s.offsets
  {
    var before := RunShared(s, calls[..k]).0;
    calls[k].r in before.offsets ==> !SeeksBack(before.offsets[calls[k].r], calls[k].op)
  }

  /** Every interleaving of requests over one shared descriptor answers and leaves
      the file as private descriptors would, whatever the others do. */
  lemma {:induction false} RunsAgree(s: Shared, t: Private, calls: seq<Call>)
    requires Agree(s, t) && (forall c :: c in calls ==> c.r in s.offsets) && NoneSeeksBack(s, calls)
    ensures RunShared(s, calls).1 == RunPrivate(t, calls).1 && Agree(RunShared(s, calls).0, RunPrivate(t, calls).0)
  {
    if calls != [] {
      var n := |calls| - 1;
      forall k | 0 <= k < n ensures MadeForward(s, calls[..n], k) {
        assert MadeForward(s, calls, k) && calls[..n][..k] == calls[..k];
      }
      RunsAgree(s, t, calls[..n]);
      assert MadeForward(s, calls, n);
      var before, beforeP := RunShared(s, calls[..n]).0, RunPrivate(t, calls[..n]).0;
      if calls[n].r in before.offsets {
        StepAgrees(before, beforeP, calls[n].r, calls[n].op);
      }
    }
  }

  /** And only those: if a run answers as it would over private descriptors, no call
      of it sought to before the start. */
  lemma {:induction false} OnlyForwardRunsAgree(s: Shared, t: Private, calls: seq<Call>)
    requires Agree(s, t) && (forall c :: c in calls ==> c.r in s.offsets)
    requires RunShared(s, calls).1 == RunPrivate(t, calls).1
    ensures NoneSeeksBack(s, calls)
  {
    if calls != [] {
      var n := |calls| - 1;
      var before, answers := calls[..n], RunShared(s, calls).1;
      SameKeys(s, t, calls);
      assert RunShared(s, before).1 == answers[..n] && RunPrivate(t, before).1 == answers[..n];
      OnlyForwardRunsAgree(s, t, before);
      RunsAgree(s, t, before);
      LastForward(RunShared(s, before).0, RunPrivate(t, before).0, calls[n].r, calls[n].op);
      ForwardMore(s, calls);
    }
  }

  lemma {:induction false} LastForward(s: Shared, t: Private, r: nat, op: Op)
    requires Agree(s, t) && (r in s.offsets ==> ThroughShared(s, r, op).1 == ThroughPrivate(t, r, op).1)
    ensures r in s.offsets ==> !SeeksBack(s.offsets[r], op)
  {
    if r in s.offsets && SeeksBack(s.offsets[r], op) {
      StepAnswers(s, t, r, op);
    }
  }

  lemma {:induction false} ForwardMore(s: Shared, calls: seq<Call>)
    requires calls != [] && (forall c :: c in calls ==> c.r in s.offsets)
    requires NoneSeeksBack(s, calls[..|calls| - 1]) && MadeForward(s, calls, |calls| - 1)
    ensures NoneSeeksBack(s, calls)
  {
    var before := calls[..|calls| - 1];
    forall k | 0 <= k < |calls| ensures MadeForward(s, calls, k) {
      if k < |before| {
        assert MadeForward(s, before, k) && before[..k] == calls[..k];
      }
    }
  }

  /** No call adds or takes a request. */
  lemma {:induction false} SameKeys(s: Shared, t: Private, calls: seq<Call>)
    requires s.offsets.Keys == t.positions.Keys && forall c :: c in calls ==> c.r in s.offsets
    ensures RunShared(s, calls).0.offsets.Keys == s.offsets.Keys
      && RunPrivate(t, calls).0.positions.Keys == s.offsets.Keys
    ensures |RunShared(s, calls).1| == |calls| && |RunPrivate(t, calls).1| == |calls|
    ensures calls != [] ==> RunShared(s, calls).1[..|calls| - 1] == RunShared(s, calls[..|calls| - 1]).1
    ensures calls != [] ==> RunPrivate(t, calls).1[..|calls| - 1] == RunPrivate(t, calls[..|calls| - 1]).1
  {
    if calls != [] {
      SameKeys(s, t, calls[..|calls| - 1]);
    }
  }

  /** A seek to before the start shows in the answer. */
  lemma {:induction false} StepAnswers(s: Shared, t: Private, r: nat, op: Op)
    requires Agree(s, t) && r in s.offsets && SeeksBack(s.offsets[r], op)
    ensures ThroughShared(s, r, op).1 != ThroughPrivate(t, r, op).1
  {
  }
}
