/**
 * copyfile_copy_acl: copy the access ACL and then the default ACL of the
 * source to the destination. A symbolic link is left alone (the library has
 * no link-aware ACL calls in this configuration). A file system without ACL
 * support ends the copy with success; the first other failure is the one
 * reported, after both types have been tried.
 */
module Acl {
  import opened Common
  import opened Errors
  import opened Env

  /** ACL_TYPE_ACCESS, then ACL_TYPE_DEFAULT. */
  const Kinds: seq<AclKind> := [Access, Default]

  /** The loop state: the first error with its saved errno, and the world. */
  datatype Acc = Acc(ret: CopyError, errno: int, w: World)

  /** The failure of a call is recorded only when no earlier one was. */
  function Keep(acc: Acc, err: CopyError, errno: int, w: World): (a: Acc)
    ensures a.w == w
    ensures acc.ret != NoError ==> a.ret == acc.ret && a.errno == acc.errno
    ensures acc.ret == NoError ==> a.ret == err && a.errno == errno
  {
    if acc.ret == NoError then Acc(err, errno, w) else acc.(w := w)
  }

  /** After one type: go on, or return (EOPNOTSUPP, or the script ran out). */
  datatype Turn = Next(acc: Acc) | Quit(d: Done)

  /**
   * One iteration for the i-th type: get the source's ACL; if there is one,
   * set it on the destination (a failure is recorded as ACL_SET); otherwise
   * EOPNOTSUPP returns success at once, EACCES on the default type is
   * ignored, and any other failure is recorded as ACL_GET.
   */
  function TypeTurn(source: string, dest: string, i: nat, acc: Acc): (t: Turn)
    requires i < 2
  {
    var w := acc.w;
    if w.calls == [] then Quit(Done(OutOfScript, w))
    else
      var got := w.calls[0];
      var w1 := Invoke(w, GetAcl(source, Kinds[i]));
      if got.Ok? then
        if w1.calls == [] then Quit(Done(OutOfScript, w1))
        else
          var put := w1.calls[0];
          var w2 := Invoke(w1, SetAcl(dest, Kinds[i]));
          if put.Fail? then Next(Keep(acc, AclSetError, put.errno, w2)) else Next(acc.(w := w2))
      else if got.errno == EOPNOTSUPP then Quit(Done(Exit(NoError, 0), w1))
      else if i > 0 && got.errno == EACCES then Next(acc.(w := w1))
      else Next(Keep(acc, AclGetError, got.errno, w1))
  }

  /** The `for` loop over the types from the i-th on, then the return with the first error. */
  function Types(source: string, dest: string, i: nat, acc: Acc): (d: Done)
    requires i <= 2
    decreases 2 - i
  {
    if i == 2 then Done(Exit(acc.ret, acc.errno), acc.w)
    else
      match TypeTurn(source, dest, i, acc)
      case Quit(d) => d
      case Next(a) => Types(source, dest, i + 1, a)
  }

  /** copyfile_copy_acl: lstat when no snapshot is given, leave a symlink alone, then both types. */
  function CopyAclSpec(source: string, dest: string, st: Option<Snapshot>, w: World): (d: Done)
  {
    if st.None? && w.calls == [] then Done(OutOfScript, w)
    else if st.None? && w.calls[0].Fail? then Done(Exit(StatError, w.calls[0].errno), Invoke(w, Lstat(source)))
    else
      var w1 := if st.None? then Invoke(w, Lstat(source)) else w;
      var snapshot := if st.None? then w.fs.stat else st.value;
      if IsSymlink(snapshot.mode) then Done(Exit(NoError, 0), w1)
      else Types(source, dest, 0, Acc(NoError, 0, w1))
  }

  /** copyfile_copy_acl as the C code runs it. */
  method CopyAcl(source: string, dest: string, st: Option<Snapshot>, w0: World) returns (d: Done)
    ensures d == CopyAclSpec(source, dest, st, w0)
  {
    var w := w0;
    var snapshot: Snapshot;
    if st.None? {
      if w.calls == [] { return Done(OutOfScript, w); }
      var reply := w.calls[0];
      w := Invoke(w, Lstat(source));
      if reply.Fail? { return Done(Exit(StatError, reply.errno), w); }
      snapshot := w0.fs.stat;
    } else {
      snapshot := st.value;
    }
    if IsSymlink(snapshot.mode) { return Done(Exit(NoError, 0), w); }
    var start := w;
    var ret := NoError;
    var savedErrno := 0;
    for i := 0 to 2
      invariant Types(source, dest, i, Acc(ret, savedErrno, w)) == Types(source, dest, 0, Acc(NoError, 0, start))
    {
      if w.calls == [] { return Done(OutOfScript, w); }
      var got := w.calls[0];
      w := Invoke(w, GetAcl(source, Kinds[i]));
      if got.Ok? {
        if w.calls == [] { return Done(OutOfScript, w); }
        var put := w.calls[0];
        w := Invoke(w, SetAcl(dest, Kinds[i]));
        if put.Fail? && ret == NoError {
          ret, savedErrno := AclSetError, put.errno;
        }
      } else if got.errno == EOPNOTSUPP {
        return Done(Exit(NoError, 0), w);
      } else if i > 0 && got.errno == EACCES {
        // ACL_TYPE_DEFAULT on a file that is not a directory
      } else if ret == NoError {
        ret, savedErrno := AclGetError, got.errno;
      }
    }
    return Done(Exit(ret, savedErrno), w);
  }

  /** A symbolic link is left untouched; without a snapshot a failing lstat is STAT. */
  lemma AclSkips(source: string, dest: string, st: Option<Snapshot>, w: World)
    ensures st.Some? && IsSymlink(st.value.mode) ==> CopyAclSpec(source, dest, st, w) == Done(Exit(NoError, 0), w)
    ensures st.None? && w.calls != [] && w.calls[0].Fail? ==>
      CopyAclSpec(source, dest, st, w) == Done(Exit(StatError, w.calls[0].errno), Invoke(w, Lstat(source)))
  {
  }

  /**
   * The code a logged call records when it fails: a failed set is ACL_SET;
   * a failed get is ACL_GET unless it is EOPNOTSUPP or EACCES on the default
   * type.
   */
  function Recorded(e: Event): (r: Option<Out>)
    ensures r.Some? ==> e.Did? && e.reply.Fail? && r.value.Exit? && r.value.errno == e.reply.errno
  {
    if e.Did? && e.reply.Fail? then
      match e.call
      case SetAcl(_, _) => Some(Exit(AclSetError, e.reply.errno))
      case GetAcl(_, kind) =>
        if e.reply.errno == EOPNOTSUPP || (kind == Default && e.reply.errno == EACCES) then None
        else Some(Exit(AclGetError, e.reply.errno))
      case _ => None
    else None
  }

  /** The first recorded failure among `events`, or success. */
  function FirstRecorded(events: seq<Event>): (o: Out)
    ensures o.Exit? && o.err in {NoError, AclGetError, AclSetError}
    ensures o.err == NoError ==> o.errno == 0
  {
    if events == [] then Exit(NoError, 0)
    else if Recorded(events[0]).Some? then Recorded(events[0]).value
    else FirstRecorded(events[1..])
  }

  /** Some get of the source's ACLs reported EOPNOTSUPP. */
  predicate NotSupported(source: string, events: seq<Event>)
  {
    Did(GetAcl(source, Access), Fail(EOPNOTSUPP)) in events || Did(GetAcl(source, Default), Fail(EOPNOTSUPP)) in events
  }

  /** The result the C code promises, read off the calls it made. */
  function Expected(source: string, events: seq<Event>): Out
  {
    if NotSupported(source, events) then Exit(NoError, 0) else FirstRecorded(events)
  }

  lemma {:induction false} FirstRecordedJoin(a: seq<Event>, b: seq<Event>)
    ensures FirstRecorded(a + b) == if FirstRecorded(a).err != NoError then FirstRecorded(a) else FirstRecorded(b)
  {
    if a != [] {
      assert (a + b)[0] == a[0];
      assert (a + b)[1..] == a[1..] + b;
      FirstRecordedJoin(a[1..], b);
    } else {
      assert a + b == b;
    }
  }

  /** The accumulated error is the first one recorded in what was logged since `w0`. */
  predicate Tracks(source: string, w0: World, acc: Acc)
  {
    && Extends(w0, acc.w)
    && !NotSupported(source, acc.w.log[|w0.log|..])
    && Exit(acc.ret, acc.errno) == FirstRecorded(acc.w.log[|w0.log|..])
  }

  /** The state after logging `e`: its failure is recorded if it records one. */
  function Advance(acc: Acc, e: Event, w: World): Acc
  {
    if Recorded(e).Some? then Keep(acc, Recorded(e).value.err, Recorded(e).value.errno, w) else acc.(w := w)
  }

  lemma LogOne(source: string, w0: World, acc: Acc, e: Event, w: World)
    requires Tracks(source, w0, acc) && w.log == acc.w.log + [e]
    ensures |w0.log| <= |w.log| && w.log[..|w0.log|] == w0.log
    ensures w.log[|w0.log|..] == acc.w.log[|w0.log|..] + [e]
    ensures NotSupported(source, w.log[|w0.log|..]) <==>
      e == Did(GetAcl(source, Access), Fail(EOPNOTSUPP)) || e == Did(GetAcl(source, Default), Fail(EOPNOTSUPP))
    ensures !NotSupported(source, w.log[|w0.log|..]) ==> Tracks(source, w0, Advance(acc, e, w))
  {
    var pre := acc.w.log[|w0.log|..];
    assert w.log[|w0.log|..] == pre + [e];
    FirstRecordedJoin(pre, [e]);
  }

  lemma TurnTracks(source: string, dest: string, i: nat, w0: World, acc: Acc)
    requires i < 2 && Tracks(source, w0, acc)
    ensures var t := TypeTurn(source, dest, i, acc);
      && (t.Next? ==> Tracks(source, w0, t.acc))
      && (t.Quit? && t.d.out.Exit? ==>
            t.d.out == Exit(NoError, 0) && |w0.log| <= |t.d.w.log| && NotSupported(source, t.d.w.log[|w0.log|..]))
  {
    var w := acc.w;
    if w.calls != [] {
      var got := w.calls[0];
      var w1 := Invoke(w, GetAcl(source, Kinds[i]));
      var e1 := Did(GetAcl(source, Kinds[i]), got);
      LogOne(source, w0, acc, e1, w1);
      if got.Ok? {
        if w1.calls != [] {
          var w2 := Invoke(w1, SetAcl(dest, Kinds[i]));
          var e2 := Did(SetAcl(dest, Kinds[i]), w1.calls[0]);
          SetTurn(source, dest, i, acc);
          LogOne(source, w0, acc.(w := w1), e2, w2);
        }
      } else if got.errno != EOPNOTSUPP {
        GetTurn(source, dest, i, acc);
      } else {
        assert Kinds[i] == Access || Kinds[i] == Default;
      }
    }
  }

  /** A get that succeeds: the set follows, and the iteration goes on with what it records. */
  lemma SetTurn(source: string, dest: string, i: nat, acc: Acc)
    requires i < 2 && acc.w.calls != [] && acc.w.calls[0].Ok? && |acc.w.calls| >= 2
    ensures var w1 := Invoke(acc.w, GetAcl(source, Kinds[i]));
      && Recorded(Did(GetAcl(source, Kinds[i]), acc.w.calls[0])).None?
      && TypeTurn(source, dest, i, acc)
         == Next(Advance(acc.(w := w1), Did(SetAcl(dest, Kinds[i]), acc.w.calls[1]), Invoke(w1, SetAcl(dest, Kinds[i]))))
  {
  }

  /** A failed get: the iteration goes on with what the failure records. */
  lemma GetTurn(source: string, dest: string, i: nat, acc: Acc)
    requires i < 2 && acc.w.calls != [] && acc.w.calls[0].Fail? && acc.w.calls[0].errno != EOPNOTSUPP
    ensures var e := Did(GetAcl(source, Kinds[i]), acc.w.calls[0]); var w1 := Invoke(acc.w, GetAcl(source, Kinds[i]));
      TypeTurn(source, dest, i, acc) == Next(Advance(acc, e, w1))
  {
    assert i > 0 <==> Kinds[i] == Default;
  }

  lemma {:induction false} TypesExpected(source: string, dest: string, i: nat, w0: World, acc: Acc)
    requires i <= 2 && Tracks(source, w0, acc)
    ensures var d := Types(source, dest, i, acc);
      d.out.Exit? ==> |w0.log| <= |d.w.log| && d.out == Expected(source, d.w.log[|w0.log|..])
    decreases 2 - i
  {
    if i < 2 {
      TurnTracks(source, dest, i, w0, acc);
      match TypeTurn(source, dest, i, acc)
      case Quit(d) =>
      case Next(a) => TypesExpected(source, dest, i + 1, w0, a);
    }
  }

  /**
   * For a source that is not a symbolic link, the result is success when
   * some get reported EOPNOTSUPP, even after a recorded error, and otherwise
   * the first recorded failure with its errno.
   */
  lemma AclResult(source: string, dest: string, st: Snapshot, w: World)
    requires !IsSymlink(st.mode)
    ensures var d := CopyAclSpec(source, dest, Some(st), w);
      d.out.Exit? ==> |w.log| <= |d.w.log| && d.out == Expected(source, d.w.log[|w.log|..])
  {
    assert w.log[|w.log|..] == [];
    TypesExpected(source, dest, 0, w, Acc(NoError, 0, w));
  }

  /** One turn makes its get first. */
  lemma TurnBegins(source: string, dest: string, i: nat, acc: Acc)
    requires i < 2 && acc.w.calls != []
    ensures var t := TypeTurn(source, dest, i, acc);
      var log := if t.Next? then t.acc.w.log else t.d.w.log;
      acc.w.log + [Did(GetAcl(source, Kinds[i]), acc.w.calls[0])] <= log
  {
  }

  /**
   * Both types are tried, access first: the default type is reached unless
   * the access get reported EOPNOTSUPP.
   */
  lemma AclTypesInOrder(source: string, dest: string, st: Snapshot, w: World)
    requires !IsSymlink(st.mode) && |w.calls| >= 3
    ensures var d := CopyAclSpec(source, dest, Some(st), w);
      var first := Did(GetAcl(source, Access), w.calls[0]);
      && (w.calls[0].Ok? ==>
            w.log + [first, Did(SetAcl(dest, Access), w.calls[1]), Did(GetAcl(source, Default), w.calls[2])] <= d.w.log)
      && (w.calls[0].Fail? && w.calls[0].errno != EOPNOTSUPP ==>
            w.log + [first, Did(GetAcl(source, Default), w.calls[1])] <= d.w.log)
      && (w.calls[0] == Fail(EOPNOTSUPP) ==> d == Done(Exit(NoError, 0), Invoke(w, GetAcl(source, Access))))
  {
    var t := TypeTurn(source, dest, 0, Acc(NoError, 0, w));
    AccessTurn(source, dest, w);
    assert CopyAclSpec(source, dest, Some(st), w) == Types(source, dest, 0, Acc(NoError, 0, w));
    if t.Next? {
      DefaultReached(source, dest, t.acc);
      var first := Did(GetAcl(source, Access), w.calls[0]);
      if w.calls[0].Ok? {
        var second := Did(SetAcl(dest, Access), w.calls[1]);
        assert w.log + [first, second] + [Did(GetAcl(source, Default), w.calls[2])]
          == w.log + [first, second, Did(GetAcl(source, Default), w.calls[2])];
      } else {
        assert w.log + [first] + [Did(GetAcl(source, Default), w.calls[1])]
          == w.log + [first, Did(GetAcl(source, Default), w.calls[1])];
      }
    }
  }

  /** From the default iteration on, the default get is made first. */
  lemma DefaultReached(source: string, dest: string, a: Acc)
    requires a.w.calls != []
    ensures a.w.log + [Did(GetAcl(source, Default), a.w.calls[0])] <= Types(source, dest, 1, a).w.log
  {
    assert Kinds[1] == Default;
    TurnBegins(source, dest, 1, a);
    var t2 := TypeTurn(source, dest, 1, a);
    if t2.Next? {
      TypesExtend(source, dest, 2, t2.acc);
    }
  }

  /** What the access iteration leaves for the default one. */
  lemma AccessTurn(source: string, dest: string, w: World)
    requires |w.calls| >= 3
    ensures var t := TypeTurn(source, dest, 0, Acc(NoError, 0, w));
      && Kinds[1] == Default
      && (w.calls[0].Ok? ==>
            t.Next? && t.acc.w.calls == w.calls[2..]
            && t.acc.w.log == w.log + [Did(GetAcl(source, Access), w.calls[0]), Did(SetAcl(dest, Access), w.calls[1])])
      && (w.calls[0].Fail? && w.calls[0].errno != EOPNOTSUPP ==>
            t.Next? && t.acc.w.calls == w.calls[1..]
            && t.acc.w.log == w.log + [Did(GetAcl(source, Access), w.calls[0])])
  {
    assert Kinds[0] == Access;
  }

  /** The loop only appends to the log. */
  lemma {:induction false} TypesExtend(source: string, dest: string, i: nat, acc: Acc)
    requires i <= 2
    ensures Extends(acc.w, Types(source, dest, i, acc).w)
    decreases 2 - i
  {
    if i < 2 {
      match TypeTurn(source, dest, i, acc)
      case Quit(d) =>
      case Next(a) =>
        TypesExtend(source, dest, i + 1, a);
        ExtendsTrans(acc.w, a.w, Types(source, dest, i + 1, a).w);
    }
  }

  /** Copying ACLs leaves the file system's contents as they were. */
  lemma AclKeepsFiles(source: string, dest: string, st: Option<Snapshot>, w: World)
    ensures CopyAclSpec(source, dest, st, w).w.fs == w.fs
  {
    if !(st.None? && w.calls == []) && !(st.None? && w.calls[0].Fail?) {
      var w1 := if st.None? then Invoke(w, Lstat(source)) else w;
      TypesKeepFiles(source, dest, 0, Acc(NoError, 0, w1));
    }
  }

  /** The loop over the types keeps the file system's contents. */
  lemma {:induction false} TypesKeepFiles(source: string, dest: string, i: nat, acc: Acc)
    requires i <= 2
    ensures Types(source, dest, i, acc).w.fs == acc.w.fs
    decreases 2 - i
  {
    if i < 2 {
      TurnKeepsFiles(source, dest, i, acc);
      match TypeTurn(source, dest, i, acc)
      case Quit(d) =>
      case Next(a) => TypesKeepFiles(source, dest, i + 1, a);
    }
  }

  /** One turn keeps the file system's contents. */
  lemma TurnKeepsFiles(source: string, dest: string, i: nat, acc: Acc)
    requires i < 2
    ensures var t := TypeTurn(source, dest, i, acc);
      (if t.Next? then t.acc.w.fs else t.d.w.fs) == acc.w.fs
  {
  }
}
