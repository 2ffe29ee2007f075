/**
 * copyfile_copy_xattr: copy the extended attributes of the source to the
 * destination. The source's name list is fetched (into a larger buffer when
 * it does not fit the initial one) and walked as consecutive NUL-terminated
 * names; each selected name's value is read (growing the data buffer when
 * needed) and set on the destination. A failure for one attribute is
 * remembered if it is the first and the walk goes on; a destination without
 * xattr support (ENOTSUP on the set) ends the walk.
 */
module Xattr {
  import opened Common
  import opened Errors
  import opened Env

  /** The size of the initial list and data buffers: half the copy buffer. */
  const InitialBufSize: nat := BufferSize / 2

  const UserNs: seq<byte> := [0x75, 0x73, 0x65, 0x72, 0x2e]                    // "user."
  const TrustedNs: seq<byte> := [0x74, 0x72, 0x75, 0x73, 0x74, 0x65, 0x64, 0x2e]  // "trusted."

  /**
   * Which names the walk copies: `Exact` is the test the library makes
   * (a name equal to "user." or "trusted."), `Prefix` the namespace test it
   * evidently means.
   */
  datatype Filter = Exact | Prefix

  predicate Selected(filter: Filter, name: seq<byte>)
  {
    match filter
    case Exact => name == UserNs || name == TrustedNs
    case Prefix => UserNs <= name || TrustedNs <= name
  }

  /** strchr(n, 0): where the name starting at `i` ends (its NUL, or the end of the list). */
  function NameEnd(list: seq<byte>, i: nat): (k: nat)
    requires i <= |list|
    ensures i <= k <= |list| && (k < |list| ==> list[k] == 0)
    ensures forall j :: i <= j < k ==> list[j] != 0
    decreases |list| - i
  {
    if i == |list| || list[i] == 0 then i else NameEnd(list, i + 1)
  }

  /** Where the next name starts: just past the NUL. */
  function NextName(list: seq<byte>, i: nat): (j: nat)
    requires i < |list|
    ensures i < j <= |list|
  {
    var k := NameEnd(list, i);
    if k < |list| then k + 1 else |list|
  }

  /** The names of the list from position `i` on, in order. */
  function Names(list: seq<byte>, i: nat): seq<seq<byte>>
    requires i <= |list|
    decreases |list| - i
  {
    if i == |list| then [] else [list[i..NameEnd(list, i)]] + Names(list, NextName(list, i))
  }

  /** The value of an attribute of the source (a listed name always has one). */
  function Value(fs: Fs, name: seq<byte>): seq<byte>
  {
    if name in fs.xattrs then fs.xattrs[name] else []
  }

  /** The walk's state: the first error with its errno, the data buffer's size, the world. */
  datatype Acc = Acc(ret: CopyError, errno: int, dataSize: nat, w: World)

  /** A failure is recorded only when no earlier one was. */
  function Keep(acc: Acc, err: CopyError, errno: int, w: World): (a: Acc)
    ensures a.w == w && a.dataSize == acc.dataSize
    ensures acc.ret != NoError ==> a.ret == acc.ret && a.errno == acc.errno
    ensures acc.ret == NoError ==> a.ret == err && a.errno == errno
  {
    if acc.ret == NoError then acc.(ret := err, errno := errno, w := w) else acc.(w := w)
  }

  /** After one attribute: go on, leave the loop (`break`), or the script ran out. */
  datatype Step = Next(acc: Acc) | Broke(acc: Acc) | Stuck(w: World)

  /**
   * One selected attribute: ask its size, grow the data buffer when the
   * value does not fit, then transfer it. A failed size query or allocation
   * records its error and skips the attribute.
   */
  function CopyOne(source: string, dest: string, name: seq<byte>, acc: Acc): (s: Step)
    ensures s.Next? || s.Broke? ==> s.acc.w.fs == acc.w.fs && Extends(acc.w, s.acc.w) && |s.acc.w.log| > |acc.w.log|
    ensures s.Stuck? ==> s.w.fs == acc.w.fs && Extends(acc.w, s.w)
  {
    var w := acc.w;
    var v := Value(w.fs, name);
    if w.calls == [] then Stuck(w)
    else if w.calls[0].Fail? then Next(Keep(acc, XattrGetError, w.calls[0].errno, Invoke(w, GetXattr(source, name, 0))))
    else
      var w1 := Perform(w, GetXattr(source, name, 0), Ok(|v|), w.fs);
      var s := if |v| <= acc.dataSize then Transfer(source, dest, name, acc.(w := w1))
        else if w1.calls == [] then Stuck(w1)
        else if w1.calls[0].Fail? then Next(Keep(acc, MallocError, w1.calls[0].errno, Invoke(w1, Alloc(|v|))))
        else Transfer(source, dest, name, acc.(dataSize := |v|, w := Invoke(w1, Alloc(|v|))));
      ExtendsTrans(w, w1, if s.Stuck? then s.w else s.acc.w);
      s
  }

  /**
   * Read the value into the data buffer and set it on the destination. A
   * failed read records XATTR_GET; a failed set records XATTR_SET and, for
   * ENOTSUP, leaves the loop.
   */
  function Transfer(source: string, dest: string, name: seq<byte>, a: Acc): (s: Step)
    ensures s.Next? || s.Broke? ==> s.acc.w.fs == a.w.fs && Extends(a.w, s.acc.w) && |s.acc.w.log| > |a.w.log|
    ensures s.Stuck? ==> s.w.fs == a.w.fs && Extends(a.w, s.w)
  {
    var w := a.w;
    var v := Value(w.fs, name);
    if w.calls == [] then Stuck(w)
    else if w.calls[0].Fail? then Next(Keep(a, XattrGetError, w.calls[0].errno, Invoke(w, GetXattr(source, name, a.dataSize))))
    else
      var w1 := Perform(w, GetXattr(source, name, a.dataSize), Ok(|v|), w.fs);
      if w1.calls == [] then Stuck(w1)
      else if w1.calls[0].Fail? then
        var failed := Keep(a, XattrSetError, w1.calls[0].errno, Invoke(w1, SetXattr(dest, name, v)));
        if w1.calls[0].errno == ENOTSUP then Broke(failed) else Next(failed)
      else Next(a.(w := Perform(w1, SetXattr(dest, name, v), Ok(0), w1.fs)))
  }

  /** The return: the first error with its saved errno, or success. */
  function Finish(acc: Acc): Done
  {
    Done(Exit(acc.ret, if acc.ret == NoError then 0 else acc.errno), acc.w)
  }

  /** The `for` loop over the names from position `i` of the list. */
  function Walk(source: string, dest: string, filter: Filter, list: seq<byte>, i: nat, acc: Acc): (d: Done)
    requires i <= |list|
    ensures Extends(acc.w, d.w) && d.w.fs == acc.w.fs
    decreases |list| - i
  {
    if i == |list| then Finish(acc)
    else
      var name := list[i..NameEnd(list, i)];
      if !Selected(filter, name) then Walk(source, dest, filter, list, NextName(list, i), acc)
      else
        match CopyOne(source, dest, name, acc)
        case Stuck(w) => Done(OutOfScript, w)
        case Broke(a) => Finish(a)
        case Next(a) => Walk(source, dest, filter, list, NextName(list, i), a)
  }

  /** copyfile_copy_xattr: ask the list's size (ENOTSUP: nothing to copy), then fetch and walk it. */
  function CopyXattrSpec(source: string, dest: string, filter: Filter, w: World): (d: Done)
  {
    if w.calls == [] then Done(OutOfScript, w)
    else if w.calls[0].Fail? then
      var w1 := Invoke(w, ListXattr(source, 0));
      if w.calls[0].errno == ENOTSUP then Done(Exit(NoError, 0), w1) else Done(Exit(XattrListError, w.calls[0].errno), w1)
    else Fetch(source, dest, filter, Perform(w, ListXattr(source, 0), Ok(|w.fs.xattrList|), w.fs))
  }

  /** Allocate a list buffer when the list exceeds the initial one, then fetch and walk. */
  function Fetch(source: string, dest: string, filter: Filter, w: World): (d: Done)
  {
    var list := w.fs.xattrList;
    if |list| <= InitialBufSize then FetchWalk(source, dest, filter, InitialBufSize, w)
    else if w.calls == [] then Done(OutOfScript, w)
    else if w.calls[0].Fail? then Done(Exit(MallocError, w.calls[0].errno), Invoke(w, Alloc(|list|)))
    else FetchWalk(source, dest, filter, |list|, Invoke(w, Alloc(|list|)))
  }

  /** Fetch the list into a buffer of `size` bytes and walk it. */
  function FetchWalk(source: string, dest: string, filter: Filter, size: nat, w: World): (d: Done)
  {
    var list := w.fs.xattrList;
    if w.calls == [] then Done(OutOfScript, w)
    else if w.calls[0].Fail? then Done(Exit(XattrListError, w.calls[0].errno), Invoke(w, ListXattr(source, size)))
    else Walk(source, dest, filter, list, 0, Acc(NoError, 0, InitialBufSize, Perform(w, ListXattr(source, size), Ok(|list|), w.fs)))
  }

  /** copyfile_copy_xattr as the C code runs it (with the namespace test as a parameter). */
  method CopyXattr(source: string, dest: string, filter: Filter, w0: World) returns (d: Done)
    ensures d == CopyXattrSpec(source, dest, filter, w0)
  {
    var w := w0;
    var list := w.fs.xattrList;
    if w.calls == [] { return Done(OutOfScript, w); }
    var reply := w.calls[0];
    if reply.Fail? {
      w := Invoke(w, ListXattr(source, 0));
      if reply.errno == ENOTSUP { return Done(Exit(NoError, 0), w); }
      return Done(Exit(XattrListError, reply.errno), w);
    }
    w := Perform(w, ListXattr(source, 0), Ok(|list|), w.fs);
    var listBufSize := InitialBufSize;
    if |list| > listBufSize {
      if w.calls == [] { return Done(OutOfScript, w); }
      reply := w.calls[0];
      w := Invoke(w, Alloc(|list|));
      if reply.Fail? { return Done(Exit(MallocError, reply.errno), w); }
      listBufSize := |list|;
    }
    if w.calls == [] { return Done(OutOfScript, w); }
    reply := w.calls[0];
    if reply.Fail? { return Done(Exit(XattrListError, reply.errno), Invoke(w, ListXattr(source, listBufSize))); }
    w := Perform(w, ListXattr(source, listBufSize), Ok(|list|), w.fs);
    var start := Acc(NoError, 0, InitialBufSize, w);
    var ret := NoError;
    var savedErrno := 0;
    var dataBufSize := InitialBufSize;
    var n := 0;
    while n < |list|
      invariant n <= |list|
      invariant Walk(source, dest, filter, list, n, Acc(ret, savedErrno, dataBufSize, w)) == Walk(source, dest, filter, list, 0, start)
      decreases |list| - n
    {
      var acc := Acc(ret, savedErrno, dataBufSize, w);
      var name := list[n..NameEnd(list, n)];
      var next := NextName(list, n);
      if Selected(filter, name) {
        var s := CopyAttribute(source, dest, name, acc);
        if s.Stuck? { return Done(OutOfScript, s.w); }
        ret, savedErrno, dataBufSize, w := s.acc.ret, s.acc.errno, s.acc.dataSize, s.acc.w;
        if s.Broke? { break; }
      }
      n := next;
    }
    return Finish(Acc(ret, savedErrno, dataBufSize, w));
  }

  /** The body of the loop for one selected name. */
  method CopyAttribute(source: string, dest: string, name: seq<byte>, acc: Acc) returns (s: Step)
    ensures s == CopyOne(source, dest, name, acc)
  {
    var w := acc.w;
    var v := Value(w.fs, name);
    if w.calls == [] { return Stuck(w); }
    var reply := w.calls[0];
    if reply.Fail? {
      return Next(Keep(acc, XattrGetError, reply.errno, Invoke(w, GetXattr(source, name, 0))));
    }
    w := Perform(w, GetXattr(source, name, 0), Ok(|v|), w.fs);
    var size := acc.dataSize;
    if |v| > size {
      if w.calls == [] { return Stuck(w); }
      reply := w.calls[0];
      w := Invoke(w, Alloc(|v|));
      if reply.Fail? { return Next(Keep(acc, MallocError, reply.errno, w)); }
      size := |v|;
    }
    s := TransferValue(source, dest, name, acc.(dataSize := size, w := w));
  }

  /** Reading and setting the value, as the C code runs it. */
  method TransferValue(source: string, dest: string, name: seq<byte>, a: Acc) returns (s: Step)
    ensures s == Transfer(source, dest, name, a)
  {
    var w := a.w;
    var v := Value(w.fs, name);
    if w.calls == [] { return Stuck(w); }
    var reply := w.calls[0];
    if reply.Fail? {
      return Next(Keep(a, XattrGetError, reply.errno, Invoke(w, GetXattr(source, name, a.dataSize))));
    }
    w := Perform(w, GetXattr(source, name, a.dataSize), Ok(|v|), w.fs);
    if w.calls == [] { return Stuck(w); }
    reply := w.calls[0];
    if reply.Fail? {
      var failed := Keep(a, XattrSetError, reply.errno, Invoke(w, SetXattr(dest, name, v)));
      if reply.errno == ENOTSUP { return Broke(failed); }
      return Next(failed);
    }
    return Next(a.(w := Perform(w, SetXattr(dest, name, v), Ok(0), w.fs)));
  }

  /**
   * The list phase: ENOTSUP on the size query is success with nothing
   * copied, another failure of it or of the fetch is XATTR_LIST, and a
   * failed allocation of a list longer than the initial buffer is MALLOC.
   */
  lemma XattrListPhase(source: string, dest: string, filter: Filter, w: World, e: nat)
    ensures w.calls != [] && w.calls[0] == Fail(ENOTSUP) ==>
      CopyXattrSpec(source, dest, filter, w) == Done(Exit(NoError, 0), Invoke(w, ListXattr(source, 0)))
    ensures w.calls != [] && w.calls[0] == Fail(e) && e != ENOTSUP ==>
      CopyXattrSpec(source, dest, filter, w).out == Exit(XattrListError, e)
    ensures |w.calls| >= 2 && w.calls[0].Ok? && |w.fs.xattrList| > InitialBufSize && w.calls[1] == Fail(e) ==>
      CopyXattrSpec(source, dest, filter, w).out == Exit(MallocError, e)
    ensures |w.calls| >= 2 && w.calls[0].Ok? && |w.fs.xattrList| <= InitialBufSize && w.calls[1] == Fail(e) ==>
      CopyXattrSpec(source, dest, filter, w).out == Exit(XattrListError, e)
  {
  }

  /** The state with no error recorded. */
  function Clean(acc: Acc): Acc
  {
    acc.(ret := NoError, errno := 0)
  }

  /** An error already recorded changes neither the calls of one attribute nor the buffer; it stays the one recorded. */
  lemma OneKeeps(source: string, dest: string, name: seq<byte>, acc: Acc)
    requires acc.ret != NoError
    ensures var s := CopyOne(source, dest, name, acc); var s0 := CopyOne(source, dest, name, Clean(acc));
      && s.Stuck? == s0.Stuck? && s.Broke? == s0.Broke?
      && (s.Stuck? ==> s.w == s0.w)
      && (!s.Stuck? ==> Clean(s.acc) == Clean(s0.acc) && s.acc.ret == acc.ret && s.acc.errno == acc.errno)
  {
    var w := acc.w;
    if w.calls != [] && w.calls[0].Ok? {
      var v := Value(w.fs, name);
      var w1 := Perform(w, GetXattr(source, name, 0), Ok(|v|), w.fs);
      if |v| <= acc.dataSize {
        assert Clean(acc).(w := w1) == Clean(acc.(w := w1));
        TransferKeeps(source, dest, name, acc.(w := w1));
      } else if w1.calls != [] && w1.calls[0].Ok? {
        var a := acc.(dataSize := |v|, w := Invoke(w1, Alloc(|v|)));
        assert Clean(acc).(dataSize := |v|, w := Invoke(w1, Alloc(|v|))) == Clean(a);
        TransferKeeps(source, dest, name, a);
      }
    }
  }

  /** The same for the read and the set of one value. */
  lemma TransferKeeps(source: string, dest: string, name: seq<byte>, a: Acc)
    requires a.ret != NoError
    ensures var s := Transfer(source, dest, name, a); var s0 := Transfer(source, dest, name, Clean(a));
      && s.Stuck? == s0.Stuck? && s.Broke? == s0.Broke?
      && (s.Stuck? ==> s.w == s0.w)
      && (!s.Stuck? ==> Clean(s.acc) == Clean(s0.acc) && s.acc.ret == a.ret && s.acc.errno == a.errno)
  {
  }

  /**
   * First error wins: once an error is recorded, the rest of the walk makes
   * exactly the calls it would make without it, and returns that first error
   * with its errno.
   */
  lemma {:induction false} XattrFirstErrorKept(source: string, dest: string, filter: Filter, list: seq<byte>, i: nat, acc: Acc)
    requires i <= |list| && acc.ret != NoError
    ensures var d := Walk(source, dest, filter, list, i, acc); var d0 := Walk(source, dest, filter, list, i, Clean(acc));
      && d.w == d0.w && d.out.Exit? == d0.out.Exit?
      && (d.out.Exit? ==> d.out == Exit(acc.ret, acc.errno))
    decreases |list| - i
  {
    if i < |list| {
      var name := list[i..NameEnd(list, i)];
      var next := NextName(list, i);
      if !Selected(filter, name) {
        XattrFirstErrorKept(source, dest, filter, list, next, acc);
      } else {
        OneKeeps(source, dest, name, acc);
        var s := CopyOne(source, dest, name, acc);
        var s0 := CopyOne(source, dest, name, Clean(acc));
        if s.Next? {
          XattrFirstErrorKept(source, dest, filter, list, next, s.acc);
          if s0.acc.ret != NoError {
            XattrFirstErrorKept(source, dest, filter, list, next, s0.acc);
          } else {
            assert s0.acc == Clean(s.acc);
          }
        }
      }
    }
  }

  /** The set of one attribute's value on the destination, as a successful run logs it. */
  function Copied(dest: string, fs: Fs, name: seq<byte>): Event
  {
    Did(SetXattr(dest, name, Value(fs, name)), Ok(0))
  }

  /** An attribute copied without any failure has its value set on the destination. */
  lemma OneCopies(source: string, dest: string, name: seq<byte>, acc: Acc)
    requires acc.ret == NoError
    ensures var s := CopyOne(source, dest, name, acc);
      s.Next? && s.acc.ret == NoError ==> Copied(dest, acc.w.fs, name) in s.acc.w.log
  {
  }

  /**
   * A walk that ends without error has set every selected name of the list,
   * from position `i` on, on the destination with exactly the source's value.
   */
  lemma {:induction false} WalkCopies(source: string, dest: string, filter: Filter, list: seq<byte>, i: nat, acc: Acc)
    requires i <= |list| && acc.ret == NoError
    ensures var d := Walk(source, dest, filter, list, i, acc);
      d.out == Exit(NoError, 0) ==>
        forall n :: n in Names(list, i) && Selected(filter, n) ==> Copied(dest, acc.w.fs, n) in d.w.log
    decreases |list| - i
  {
    if i < |list| {
      var name := list[i..NameEnd(list, i)];
      var next := NextName(list, i);
      var d := Walk(source, dest, filter, list, i, acc);
      assert Names(list, i) == [name] + Names(list, next);
      if !Selected(filter, name) {
        WalkCopies(source, dest, filter, list, next, acc);
      } else {
        var s := CopyOne(source, dest, name, acc);
        if s.Next? {
          if s.acc.ret != NoError {
            XattrFirstErrorKept(source, dest, filter, list, next, s.acc);
          } else {
            OneCopies(source, dest, name, acc);
            WalkCopies(source, dest, filter, list, next, s.acc);
            assert d.w.log[..|s.acc.w.log|] == s.acc.w.log;
            if d.out == Exit(NoError, 0) {
              assert Copied(dest, acc.w.fs, name) in d.w.log by {
                var j :| 0 <= j < |s.acc.w.log| && s.acc.w.log[j] == Copied(dest, acc.w.fs, name);
                assert d.w.log[j] == s.acc.w.log[j];
              }
            }
          }
        }
      }
    }
  }

  /**
   * The headline property: when the source's list could be read and the
   * copy returns success, every selected attribute of the source is set on
   * the destination under the same name with exactly its value.
   */
  lemma XattrCopiesSelected(source: string, dest: string, filter: Filter, w: World)
    requires w.calls != [] && w.calls[0].Ok?
    ensures var d := CopyXattrSpec(source, dest, filter, w);
      d.out == Exit(NoError, 0) ==>
        forall n :: n in Names(w.fs.xattrList, 0) && Selected(filter, n) ==> Copied(dest, w.fs, n) in d.w.log
  {
    var list := w.fs.xattrList;
    var w1 := Perform(w, ListXattr(source, 0), Ok(|list|), w.fs);
    var big := |list| > InitialBufSize;
    if !big || (w1.calls != [] && w1.calls[0].Ok?) {
      var size := if big then |list| else InitialBufSize;
      var w2 := if big then Invoke(w1, Alloc(|list|)) else w1;
      if w2.calls != [] && w2.calls[0].Ok? {
        WalkCopies(source, dest, filter, list, 0, Acc(NoError, 0, InitialBufSize, Perform(w2, ListXattr(source, size), Ok(|list|), w2.fs)));
      }
    }
  }

  /**
   * What the walk may do to an attribute: get and set only selected names,
   * set only on the destination and only the source's value.
   */
  predicate Allowed(filter: Filter, dest: string, fs: Fs, e: Event)
  {
    && (e.Did? && e.call.GetXattr? ==> Selected(filter, e.call.name))
    && (e.Did? && e.call.SetXattr? ==> Selected(filter, e.call.name) && e.call.path == dest && e.call.value == Value(fs, e.call.name))
  }

  /** A set that failed because the destination does not support extended attributes. */
  predicate UnsupportedSet(e: Event)
  {
    e.Did? && e.call.SetXattr? && e.reply == Fail(ENOTSUP)
  }

  /** The world a step leaves, whatever its kind. */
  function StepWorld(s: Step): World
  {
    if s.Stuck? then s.w else s.acc.w
  }

  /** Since `w0`, every event is allowed and no set failed with ENOTSUP. */
  predicate Kept(filter: Filter, dest: string, fs: Fs, w0: World, w: World)
  {
    && Extends(w0, w)
    && (forall e :: e in w.log[|w0.log|..] ==> Allowed(filter, dest, fs, e))
    && (forall j :: |w0.log| <= j < |w.log| ==> !UnsupportedSet(w.log[j]))
  }

  lemma KeptNone(filter: Filter, dest: string, fs: Fs, w: World)
    ensures Kept(filter, dest, fs, w, w)
  {
    assert w.log[|w.log|..] == [];
  }

  lemma KeptAppend(filter: Filter, dest: string, fs: Fs, w0: World, w: World, e: Event, w': World)
    requires Kept(filter, dest, fs, w0, w) && w'.log == w.log + [e]
    requires Allowed(filter, dest, fs, e) && !UnsupportedSet(e)
    ensures Kept(filter, dest, fs, w0, w')
  {
    assert w'.log[|w0.log|..] == w.log[|w0.log|..] + [e];
    assert w'.log[..|w0.log|] == w.log[..|w0.log|];
  }

  /** Appended events are the events of the first part followed by those of the second. */
  lemma AddedJoin(w0: World, w1: World, w2: World)
    requires Extends(w0, w1) && Extends(w1, w2)
    ensures w2.log[|w0.log|..] == w1.log[|w0.log|..] + w2.log[|w1.log|..]
  {
    assert w2.log[..|w1.log|] == w1.log;
  }

  lemma KeptJoin(filter: Filter, dest: string, fs: Fs, w0: World, w1: World, w2: World)
    requires Kept(filter, dest, fs, w0, w1) && Kept(filter, dest, fs, w1, w2)
    ensures Kept(filter, dest, fs, w0, w2)
  {
    ExtendsTrans(w0, w1, w2);
    AddedJoin(w0, w1, w2);
    forall j | |w0.log| <= j < |w1.log|
      ensures w2.log[j] == w1.log[j]
    {
      assert w2.log[..|w1.log|] == w1.log;
    }
  }

  /** Since `w0`, every event is allowed and only the last may be a set that failed with ENOTSUP. */
  predicate Settled(filter: Filter, dest: string, fs: Fs, w0: World, w: World)
  {
    && Extends(w0, w)
    && (forall e :: e in w.log[|w0.log|..] ==> Allowed(filter, dest, fs, e))
    && (forall j :: |w0.log| <= j < |w.log| - 1 ==> !UnsupportedSet(w.log[j]))
  }

  lemma SettledLast(filter: Filter, dest: string, fs: Fs, w0: World, w: World, e: Event, w': World)
    requires Kept(filter, dest, fs, w0, w) && w'.log == w.log + [e] && Allowed(filter, dest, fs, e)
    ensures Settled(filter, dest, fs, w0, w')
  {
    assert w'.log[|w0.log|..] == w.log[|w0.log|..] + [e];
    assert w'.log[..|w0.log|] == w.log[..|w0.log|];
  }

  lemma KeptSettled(filter: Filter, dest: string, fs: Fs, w0: World, w1: World, w2: World)
    requires Kept(filter, dest, fs, w0, w1) && Settled(filter, dest, fs, w1, w2)
    ensures Settled(filter, dest, fs, w0, w2)
  {
    ExtendsTrans(w0, w1, w2);
    AddedJoin(w0, w1, w2);
    forall j | |w0.log| <= j < |w1.log|
      ensures w2.log[j] == w1.log[j]
    {
      assert w2.log[..|w1.log|] == w1.log;
    }
  }

  /**
   * A transfer of a selected name keeps to the rules; only when it leaves
   * the loop is its last call a set that failed with ENOTSUP.
   */
  lemma TransferEvents(source: string, dest: string, filter: Filter, name: seq<byte>, a: Acc)
    requires Selected(filter, name)
    ensures var s := Transfer(source, dest, name, a);
      && Settled(filter, dest, a.w.fs, a.w, StepWorld(s))
      && (!s.Broke? ==> Kept(filter, dest, a.w.fs, a.w, StepWorld(s)))
  {
    var w := a.w;
    var fs := w.fs;
    var v := Value(fs, name);
    KeptNone(filter, dest, fs, w);
    if w.calls != [] {
      var e1 := if w.calls[0].Fail? then Did(GetXattr(source, name, a.dataSize), w.calls[0])
        else Did(GetXattr(source, name, a.dataSize), Ok(|v|));
      var w1 := if w.calls[0].Fail? then Invoke(w, GetXattr(source, name, a.dataSize)) else Perform(w, GetXattr(source, name, a.dataSize), Ok(|v|), w.fs);
      KeptAppend(filter, dest, fs, w, w, e1, w1);
      if w.calls[0].Ok? && w1.calls != [] {
        var e2 := if w1.calls[0].Fail? then Did(SetXattr(dest, name, v), w1.calls[0]) else Did(SetXattr(dest, name, v), Ok(0));
        var w2 := if w1.calls[0].Fail? then Invoke(w1, SetXattr(dest, name, v)) else Perform(w1, SetXattr(dest, name, v), Ok(0), w1.fs);
        SettledLast(filter, dest, fs, w, w1, e2, w2);
        if w1.calls[0] != Fail(ENOTSUP) {
          KeptAppend(filter, dest, fs, w, w1, e2, w2);
        }
      } else {
        KeptSettled(filter, dest, fs, w, w1, w1);
      }
    } else {
      KeptSettled(filter, dest, fs, w, w, w);
    }
  }

  /** The last event of a log that has one. */
  function Last(w: World): Event
    requires w.log != []
  {
    w.log[|w.log| - 1]
  }

  /** One selected attribute keeps to the rules, as its transfer does. */
  lemma OneEvents(source: string, dest: string, filter: Filter, name: seq<byte>, acc: Acc)
    requires Selected(filter, name)
    ensures var s := CopyOne(source, dest, name, acc);
      && Settled(filter, dest, acc.w.fs, acc.w, StepWorld(s))
      && (!s.Broke? ==> Kept(filter, dest, acc.w.fs, acc.w, StepWorld(s)))
  {
    var w := acc.w;
    var fs := w.fs;
    var v := Value(fs, name);
    KeptNone(filter, dest, fs, w);
    if w.calls != [] {
      var e1 := if w.calls[0].Fail? then Did(GetXattr(source, name, 0), w.calls[0]) else Did(GetXattr(source, name, 0), Ok(|v|));
      var w1 := if w.calls[0].Fail? then Invoke(w, GetXattr(source, name, 0)) else Perform(w, GetXattr(source, name, 0), Ok(|v|), w.fs);
      KeptAppend(filter, dest, fs, w, w, e1, w1);
      if w.calls[0].Ok? {
        if |v| <= acc.dataSize {
          TransferEvents(source, dest, filter, name, acc.(w := w1));
          KeptSettled(filter, dest, fs, w, w1, StepWorld(Transfer(source, dest, name, acc.(w := w1))));
          if !Transfer(source, dest, name, acc.(w := w1)).Broke? {
            KeptJoin(filter, dest, fs, w, w1, StepWorld(Transfer(source, dest, name, acc.(w := w1))));
          }
        } else if w1.calls != [] {
          var w2 := Invoke(w1, Alloc(|v|));
          KeptAppend(filter, dest, fs, w, w1, Did(Alloc(|v|), w1.calls[0]), w2);
          if w1.calls[0].Ok? {
            var t := Transfer(source, dest, name, acc.(dataSize := |v|, w := w2));
            TransferEvents(source, dest, filter, name, acc.(dataSize := |v|, w := w2));
            KeptSettled(filter, dest, fs, w, w2, StepWorld(t));
            if !t.Broke? {
              KeptJoin(filter, dest, fs, w, w2, StepWorld(t));
            }
          }
        }
      }
    }
  }

  /**
   * The walk touches only selected names, sets only the source's values on
   * the destination, and makes no call after a set failed with ENOTSUP.
   */
  lemma {:induction false} WalkOnlySelected(source: string, dest: string, filter: Filter, list: seq<byte>, i: nat, acc: Acc)
    requires i <= |list|
    ensures Settled(filter, dest, acc.w.fs, acc.w, Walk(source, dest, filter, list, i, acc).w)
    decreases |list| - i
  {
    var d := Walk(source, dest, filter, list, i, acc);
    KeptNone(filter, dest, acc.w.fs, acc.w);
    if i < |list| {
      var name := list[i..NameEnd(list, i)];
      var next := NextName(list, i);
      if !Selected(filter, name) {
        WalkOnlySelected(source, dest, filter, list, next, acc);
      } else {
        OneEvents(source, dest, filter, name, acc);
        var s := CopyOne(source, dest, name, acc);
        if s.Next? {
          WalkOnlySelected(source, dest, filter, list, next, s.acc);
          KeptSettled(filter, dest, acc.w.fs, acc.w, s.acc.w, d.w);
        }
      }
    }
  }

  /** Fetching the list and walking it keep to the rules. */
  lemma FetchEvents(source: string, dest: string, filter: Filter, w: World)
    ensures Settled(filter, dest, w.fs, w, Fetch(source, dest, filter, w).w)
  {
    var list := w.fs.xattrList;
    KeptNone(filter, dest, w.fs, w);
    if |list| <= InitialBufSize {
      FetchWalkEvents(source, dest, filter, InitialBufSize, w);
    } else if w.calls != [] {
      var w1 := Invoke(w, Alloc(|list|));
      KeptAppend(filter, dest, w.fs, w, w, Did(Alloc(|list|), w.calls[0]), w1);
      FetchWalkEvents(source, dest, filter, |list|, w1);
      KeptSettled(filter, dest, w.fs, w, w1, FetchWalk(source, dest, filter, |list|, w1).w);
    }
  }

  lemma FetchWalkEvents(source: string, dest: string, filter: Filter, size: nat, w: World)
    ensures Settled(filter, dest, w.fs, w, FetchWalk(source, dest, filter, size, w).w)
  {
    var list := w.fs.xattrList;
    KeptNone(filter, dest, w.fs, w);
    if w.calls != [] {
      KeptAppend(filter, dest, w.fs, w, w, Did(ListXattr(source, size), w.calls[0]), Invoke(w, ListXattr(source, size)));
      var w1 := Perform(w, ListXattr(source, size), Ok(|list|), w.fs);
      KeptAppend(filter, dest, w.fs, w, w, Did(ListXattr(source, size), Ok(|list|)), w1);
      WalkOnlySelected(source, dest, filter, list, 0, Acc(NoError, 0, InitialBufSize, w1));
      KeptSettled(filter, dest, w.fs, w, w1, Walk(source, dest, filter, list, 0, Acc(NoError, 0, InitialBufSize, w1)).w);
    }
  }

  /**
   * Over a whole copy: calls on attributes concern selected names only, each
   * value set is the source's and goes to the destination, and a set failing
   * with ENOTSUP is the last call made.
   */
  lemma XattrOnlySelected(source: string, dest: string, filter: Filter, w: World)
    ensures Settled(filter, dest, w.fs, w, CopyXattrSpec(source, dest, filter, w).w)
  {
    KeptNone(filter, dest, w.fs, w);
    if w.calls != [] {
      var w1 := Invoke(w, ListXattr(source, 0));
      KeptAppend(filter, dest, w.fs, w, w, Did(ListXattr(source, 0), w.calls[0]), w1);
      if w.calls[0].Ok? {
        var w1' := Perform(w, ListXattr(source, 0), Ok(|w.fs.xattrList|), w.fs);
        KeptAppend(filter, dest, w.fs, w, w, Did(ListXattr(source, 0), Ok(|w.fs.xattrList|)), w1');
        FetchEvents(source, dest, filter, w1');
        KeptSettled(filter, dest, w.fs, w, w1', Fetch(source, dest, filter, w1').w);
      }
    }
  }

  /** "user.foo": an attribute of the user namespace. */
  const UserFoo: seq<byte> := UserNs + [0x66, 0x6f, 0x6f]

  /** A source whose only extended attribute is user.foo, with a one-byte value. */
  function OneAttribute(): Fs
  {
    Fs([], [], 0, "", Snapshot(0, 0, 0, 0, 0, Time(0, 0), Time(0, 0)), UserFoo + [0], map[UserFoo := [1]])
  }

  /** The one name of the list is user.foo. */
  lemma OneName()
    ensures var list := OneAttribute().xattrList;
      |list| == 9 && NameEnd(list, 0) == 8 && NextName(list, 0) == 9 && list[0..8] == UserFoo
      && Names(list, 0) == [UserFoo]
      && !Selected(Exact, UserFoo) && Selected(Prefix, UserFoo)
  {
    var list := UserFoo + [0];
    assert NameEnd(list, 8) == 8;
    assert NameEnd(list, 7) == 8 && NameEnd(list, 6) == 8 && NameEnd(list, 5) == 8;
    assert NameEnd(list, 4) == 8 && NameEnd(list, 3) == 8 && NameEnd(list, 2) == 8 && NameEnd(list, 1) == 8;
    assert list[0..8] == UserFoo;
    assert UserFoo[..5] == UserNs;
    assert UserFoo != TrustedNs && UserFoo != UserNs;
  }

  /** The script of the counterexample: every call succeeds. */
  function Succeeding(): World
  {
    World([Ok(0), Ok(0), Ok(0), Ok(0), Ok(0)], [], [], OneAttribute())
  }

  /**
   * The name test as written compares whole names with "user." and
   * "trusted.", so an ordinary attribute such as user.foo is never copied:
   * the copy succeeds after listing without a single attribute call.
   */
  lemma FilterCounterexample(source: string, dest: string)
    ensures var w := Succeeding();
      CopyXattrSpec(source, dest, Exact, w)
        == Done(Exit(NoError, 0), w.(calls := w.calls[2..], log := [Did(ListXattr(source, 0), Ok(9)), Did(ListXattr(source, InitialBufSize), Ok(9))]))
  {
    OneName();
    var w := Succeeding();
    var w1 := Perform(w, ListXattr(source, 0), Ok(9), w.fs);
    var w2 := Perform(w1, ListXattr(source, InitialBufSize), Ok(9), w1.fs);
    var acc := Acc(NoError, 0, InitialBufSize, w2);
    assert Walk(source, dest, Exact, w.fs.xattrList, 0, acc) == Walk(source, dest, Exact, w.fs.xattrList, 9, acc);
  }

  /** With the namespace test, user.foo is copied. */
  lemma FilterCorrected(source: string, dest: string)
    ensures var d := CopyXattrSpec(source, dest, Prefix, Succeeding());
      d.out == Exit(NoError, 0) && Copied(dest, OneAttribute(), UserFoo) in d.w.log
  {
    OneName();
    var w := Succeeding();
    var w1 := Perform(w, ListXattr(source, 0), Ok(9), w.fs);
    var w2 := Perform(w1, ListXattr(source, InitialBufSize), Ok(9), w1.fs);
    var acc := Acc(NoError, 0, InitialBufSize, w2);
    var s := CopyOne(source, dest, UserFoo, acc);
    assert s.Next? && s.acc.ret == NoError;
    XattrCopiesSelected(source, dest, Prefix, w);
  }

  /**
   * As written, the only attributes the copy ever sets are ones literally
   * named "user." or "trusted.".
   */
  lemma AsWrittenSetsOnlyBareNames(source: string, dest: string, w: World)
    ensures var d := CopyXattrSpec(source, dest, Exact, w);
      forall e :: e in d.w.log[|w.log|..] && e.Did? && e.call.SetXattr? ==> e.call.name in {UserNs, TrustedNs}
  {
    XattrOnlySelected(source, dest, Exact, w);
  }

  /** Copying extended attributes leaves the file system's contents as they were. */
  lemma XattrKeepsFiles(source: string, dest: string, filter: Filter, w: World)
    ensures CopyXattrSpec(source, dest, filter, w).w.fs == w.fs
  {
  }
}
