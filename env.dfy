/**
 * The abstract environment every copier runs against.
 *
 * Every system call, library call and user callback is an oracle. A `World`
 * carries a script: the replies the system gives to the calls in the order
 * they are made, and the answers the callback gives in the order it is asked.
 * Each call or question takes the next item of its script and is appended to
 * the log together with the reply, so the log is the observable behaviour of
 * a run. A run that needs an item the script does not hold ends as
 * `OutOfScript`: it had not returned within the scripted prefix. Loops that
 * retry for ever in the library therefore end here on the length of the
 * script.
 *
 * The few calls whose effect the library relies on (reads and writes of file
 * contents, the truncation and preallocation of the destination, the target of
 * a symbolic link, the stat snapshot and the extended attributes of the source)
 * act on `Fs`; every other call is only logged.
 */
module Env {
  import opened Common
  import opened Errors

  type byte = bv8

  datatype Option<T> = None | Some(value: T)

  // error numbers, with their Linux values
  const EPERM: nat := 1
  const ENOENT: nat := 2
  const EINTR: nat := 4
  const ENOMEM: nat := 12
  const EACCES: nat := 13
  const EXDEV: nat := 18
  const EINVAL: nat := 22
  const ENODATA: nat := 61
  const EOPNOTSUPP: nat := 95
  const ENOTSUP: nat := 95  // the same number as EOPNOTSUPP on Linux

  /** A timestamp as struct timespec holds it. */
  datatype Time = Time(sec: int, nsec: int)

  /** The fields of struct stat the library reads. */
  datatype Snapshot = Snapshot(mode: Mode, uid: int, gid: int, size: int, rdev: nat, atime: Time, mtime: Time)

  /** ACL_TYPE_ACCESS and ACL_TYPE_DEFAULT. */
  datatype AclKind = Access | Default

  /**
   * Every call the library makes. Paths and buffer sizes are the arguments
   * the caller passes; `Time` arguments are None for UTIME_OMIT.
   */
  datatype Call =
    | Open(path: string)
    | Creat(path: string, mode: Mode)
    | OpenWrite(path: string, mode: Mode)     // open(O_WRONLY | O_CREAT) without truncation
    | Close(path: string)
    | Read
    | Write(bytes: seq<byte>)
    | Fallocate(length: int)
    | Lseek
    | Ftruncate(length: int)
    | Readlink(path: string, size: nat)
    | Symlink(target: string, path: string)
    | Alloc(size: nat)
    | Lstat(path: string)
    | Mkdir(path: string, mode: Mode)
    | Mkfifo(path: string, mode: Mode)
    | Mknod(path: string, mode: Mode, dev: nat)
    | Socket
    | Bind(path: string)
    | Lchown(path: string, uid: int, gid: int)
    | Fchmodat(path: string, mode: Mode)
    | Utimensat(path: string, atime: Option<Time>, mtime: Option<Time>)
    | ListXattr(path: string, size: nat)
    | GetXattr(path: string, name: seq<byte>, size: nat)
    | SetXattr(path: string, name: seq<byte>, value: seq<byte>)
    | GetCap(path: string)
    | SetCap(path: string)
    | GetAcl(path: string, kind: AclKind)
    | SetAcl(path: string, kind: AclKind)
    | CloneStream(source: string, dest: string)
    | Link(source: string, dest: string)
    | Rename(source: string, dest: string)
    | Unlink(path: string)

  /** What a call gives back: success with a count, or failure with an errno. */
  datatype Reply = Ok(n: nat) | Fail(errno: nat)

  /** The progress record handed to the callback. */
  datatype Progress =
    | Data(offset: int, size: int)            // copying file contents (current stream copier)
    | Position(pos: int)                      // copying file contents (older stream copier)
    | LinkTarget(length: int, target: Option<string>)
    | Device(rdev: nat)
    | Moving(source: string)
    | Linking(source: string)
    | Unset                                   // a record the caller filled no field of

  /**
   * One observable step. `fatal` is the hint the move and dedup copiers pass
   * to their callback; the others pass none and record false.
   */
  datatype Event =
    | Did(call: Call, reply: Reply)
    | Asked(state: CopyError, progress: Progress, fatal: bool, answer: bool)

  /**
   * The parts of the file system the library's logic depends on:
   * the unread part of the open source file, the destination file and the
   * write position of its descriptor, the target of the source symlink, the
   * source's stat snapshot, its raw extended-attribute name list and values.
   */
  datatype Fs = Fs(
    data: seq<byte>,
    dest: seq<byte>,
    pos: nat,
    target: string,
    stat: Snapshot,
    xattrList: seq<byte>,
    xattrs: map<seq<byte>, seq<byte>>)

  datatype World = World(calls: seq<Reply>, answers: seq<bool>, log: seq<Event>, fs: Fs)

  /**
   * How a copier returned: with a code and the errno it leaves for the caller
   * (0 where the code carries none), or not within the script.
   */
  datatype Out = OutOfScript | Exit(err: CopyError, errno: int)

  /** How a copier returned, and the world it left. */
  datatype Done = Done(out: Out, w: World)

  /** The termination measure: every retry consumes part of the script. */
  function Size(w: World): nat
  {
    |w.calls| + |w.answers|
  }

  /** Takes the next reply, logs the call with the reply it had, and installs the new file system. */
  function Perform(w: World, call: Call, reply: Reply, fs: Fs): (w': World)
    requires w.calls != []
    ensures Size(w') < Size(w) && w'.answers == w.answers
    ensures w'.log == w.log + [Did(call, reply)] && w'.fs == fs
  {
    w.(calls := w.calls[1..], log := w.log + [Did(call, reply)], fs := fs)
  }

  /** A call that changes nothing the model tracks. */
  function Invoke(w: World, call: Call): (w': World)
    requires w.calls != []
    ensures Size(w') < Size(w) && w'.answers == w.answers && w'.fs == w.fs
    ensures w'.log == w.log + [Did(call, w.calls[0])]
  {
    Perform(w, call, w.calls[0], w.fs)
  }

  /** Asks the callback; its answer is `w.answers[0]` (true for nonzero). */
  function Ask(w: World, state: CopyError, progress: Progress, fatal: bool): (w': World)
    requires w.answers != []
    ensures Size(w') < Size(w) && w'.calls == w.calls && w'.fs == w.fs
    ensures w'.log == w.log + [Asked(state, progress, fatal, w.answers[0])]
  {
    w.(answers := w.answers[1..], log := w.log + [Asked(state, progress, fatal, w.answers[0])])
  }

  function Min(a: int, b: int): int
  {
    if a < b then a else b
  }

  function Zeros(n: nat): (z: seq<byte>)
    ensures |z| == n && forall i :: 0 <= i < n ==> z[i] == 0
  {
    if n == 0 then [] else Zeros(n - 1) + [0]
  }

  /**
   * The file `d` after writing `b` at offset `p`: bytes before `p` kept (a gap
   * reads as zeros), `b` over the next |b| bytes, the rest kept. Writing
   * nothing changes nothing.
   */
  function Put(d: seq<byte>, p: nat, b: seq<byte>): (r: seq<byte>)
    ensures |r| == if b == [] then |d| else if p + |b| > |d| then p + |b| else |d|
  {
    if b == [] then d
    else
      var head := if p <= |d| then d[..p] else d + Zeros(p - |d|);
      var tail := if p + |b| <= |d| then d[p + |b|..] else [];
      head + b + tail
  }

  /** ftruncate: the file cut or zero-extended to `n` bytes. */
  function Resize(d: seq<byte>, n: nat): (r: seq<byte>)
    ensures |r| == n
    ensures forall i :: 0 <= i < n && i < |d| ==> r[i] == d[i]
  {
    if n <= |d| then d[..n] else d + Zeros(n - |d|)
  }

  /** posix_fallocate(fd, 0, n): the file extended with zeros to at least `n` bytes. */
  function Extend(d: seq<byte>, n: nat): (r: seq<byte>)
    ensures |r| == if n > |d| then n else |d|
    ensures r[..|d|] == d
  {
    if n <= |d| then d else d + Zeros(n - |d|)
  }

  /**
   * How many bytes read(fd, buf, BufferSize) takes when the script says `n`:
   * 0 exactly at end of file, otherwise between 1 and what the buffer and the
   * file allow.
   */
  function ReadCount(n: nat, data: seq<byte>): (k: nat)
    ensures k <= |data| && k <= BufferSize
    ensures k == 0 <==> data == []
  {
    if data == [] then 0
    else if n == 0 then 1
    else Min(n, Min(BufferSize, |data|))
  }

  /** Writing two pieces one after the other is writing them joined. */
  lemma PutPut(d: seq<byte>, p: nat, a: seq<byte>, b: seq<byte>)
    ensures Put(Put(d, p, a), p + |a|, b) == Put(d, p, a + b)
  {
    if a == [] {
      assert a + b == b;
    } else if b == [] {
      assert a + b == a;
    } else {
      PutPutBoth(d, p, a, b);
    }
  }

  /** PutPut when neither piece is empty: the first write's tail loses its first |b| bytes to the second. */
  lemma PutPutBoth(d: seq<byte>, p: nat, a: seq<byte>, b: seq<byte>)
    requires a != [] && b != []
    ensures Put(Put(d, p, a), p + |a|, b) == Put(d, p, a + b)
  {
    PutShape(d, p, a);
    SecondWrite(d, p, a, b, Put(d, p, a));
  }

  /** A non-empty write, spelled out. */
  lemma PutShape(d: seq<byte>, p: nat, b: seq<byte>)
    requires b != []
    ensures Put(d, p, b) == Resize(d, p) + b + Beyond(d, p + |b|)
  {
  }

  /** The second write of PutPutBoth, on the file `d1` the first one left. */
  lemma SecondWrite(d: seq<byte>, p: nat, a: seq<byte>, b: seq<byte>, d1: seq<byte>)
    requires b != [] && d1 == Resize(d, p) + a + Beyond(d, p + |a|)
    ensures Put(d1, p + |a|, b) == Put(d, p, a + b)
  {
    WrittenAfter(d, p, a, b, d1);
    WrittenJoined(d, p, a, b);
  }

  /** The second write leaves the original head, both pieces, and what lay beyond both. */
  lemma WrittenAfter(d: seq<byte>, p: nat, a: seq<byte>, b: seq<byte>, d1: seq<byte>)
    requires b != [] && d1 == Resize(d, p) + a + Beyond(d, p + |a|)
    ensures Put(d1, p + |a|, b) == Resize(d, p) + (a + b) + Beyond(d, p + |a| + |b|)
  {
    PutShape(d1, p + |a|, b);
    ResizeCut(Resize(d, p), a, Beyond(d, p + |a|));
    BeyondCut(d, p, a, |b|);
    Regroup(Resize(d, p), a, b, Beyond(d, p + |a| + |b|));
  }

  /** One write of both pieces, spelled out. */
  lemma WrittenJoined(d: seq<byte>, p: nat, a: seq<byte>, b: seq<byte>)
    requires b != []
    ensures Put(d, p, a + b) == Resize(d, p) + (a + b) + Beyond(d, p + |a| + |b|)
  {
    PutShape(d, p, a + b);
  }

  /** Concatenation regrouped. */
  lemma Regroup(h: seq<byte>, a: seq<byte>, b: seq<byte>, t: seq<byte>)
    ensures h + a + b + t == h + (a + b) + t
  {
  }

  /** What lies in `d` beyond offset `e`. */
  function Beyond(d: seq<byte>, e: nat): seq<byte>
  {
    if e <= |d| then d[e..] else []
  }

  /** Cutting `h + a + t` right after `a`. */
  lemma ResizeCut(h: seq<byte>, a: seq<byte>, t: seq<byte>)
    ensures Resize(h + a + t, |h| + |a|) == h + a
  {
    assert (h + a + t)[..|h| + |a|] == h + a;
  }

  /** What lies beyond a second write placed right after a first one is what lay beyond both in the original file. */
  lemma BeyondCut(d: seq<byte>, p: nat, a: seq<byte>, k: nat)
    requires k > 0
    ensures Beyond(Resize(d, p) + a + Beyond(d, p + |a|), p + |a| + k) == Beyond(d, p + |a| + k)
  {
    var t := Beyond(d, p + |a|);
    var d1 := Resize(d, p) + a + t;
    if p + |a| + k <= |d| {
      assert d1[p + |a| + k..] == t[k..];
    }
  }

  /** Writing the whole file from offset 0 over a file no longer than it leaves exactly what was written. */
  lemma PutCovers(d: seq<byte>, b: seq<byte>)
    requires |d| <= |b|
    ensures Put(d, 0, b) == b
  {
  }

  /** The log of making `calls` in order when the script replies `replies`. */
  function Replayed(calls: seq<Call>, replies: seq<Reply>): (log: seq<Event>)
    requires |calls| == |replies|
    ensures |log| == |calls|
  {
    if calls == [] then []
    else Replayed(calls[..|calls| - 1], replies[..|replies| - 1]) + [Did(calls[|calls| - 1], replies[|replies| - 1])]
  }

  /** `w` is `w0` after the first `n` calls of `plan` and nothing else. */
  predicate Made(w0: World, w: World, plan: seq<Call>, n: nat)
  {
    && n <= |plan| && n <= |w0.calls|
    && w.calls == w0.calls[n..] && w.answers == w0.answers && w.fs == w0.fs
    && w.log == w0.log + Replayed(plan[..n], w0.calls[..n])
  }

  lemma MadeNone(w0: World, plan: seq<Call>)
    ensures Made(w0, w0, plan, 0)
  {
  }

  /** Making the next planned call. */
  lemma MadeNext(w0: World, w: World, plan: seq<Call>, n: nat)
    requires Made(w0, w, plan, n) && n < |plan| && w.calls != []
    ensures Made(w0, Invoke(w, plan[n]), plan, n + 1)
  {
    assert plan[..n + 1][..n] == plan[..n];
    assert w0.calls[..n + 1][..n] == w0.calls[..n];
    assert w0.calls[n] == w.calls[0];
    assert w0.calls[n + 1..] == w.calls[1..];
  }

  /** `w` is `w0` later: its log extends `w0`'s. */
  predicate Extends(w0: World, w: World)
  {
    |w0.log| <= |w.log| && w.log[..|w0.log|] == w0.log
  }

  /** The events appended since `w0`. */
  function Added(w0: World, w: World): seq<Event>
    requires Extends(w0, w)
  {
    w.log[|w0.log|..]
  }

  lemma ExtendsTrans(w0: World, w1: World, w2: World)
    requires Extends(w0, w1) && Extends(w1, w2)
    ensures Extends(w0, w2)
  {
    assert w2.log[..|w0.log|] == w2.log[..|w1.log|][..|w0.log|];
  }
}
