/**
 * copyfile_copy_regular, current (copyfile-copy-regular.c) and older
 * (copyfile.c): open the source, create the destination, preallocate it when a
 * size is expected, copy the stream, cut the destination back to what was
 * written, close both descriptors; with a fixed precedence among the errors.
 */
module Regular {
  import opened Common
  import opened Errors
  import opened Env
  import opened Stream
  import opened StreamFacts
  import opened StreamPolicy

  /** After the opening steps: either the copier has already returned, or both files are open. */
  datatype Opening = Failed(out: Out, w: World) | Opened(preallocated: bool, w: World)

  /** What is left to do after the stream: the result so far, its errno, the world. */
  datatype Status = Status(ret: CopyError, errno: int, w: World)

  /**
   * open(source), creat(dest, perm_file), and posix_fallocate(fd_out, 0, size)
   * when `size` is nonzero, whose failure is ignored; a negative size is
   * refused with EINVAL. creat empties the destination and puts its
   * descriptor at 0.
   */
  function OpenFiles(source: string, dest: string, size: int, w: World): (r: Opening)
  {
    if w.calls == [] then Failed(OutOfScript, w)
    else if w.calls[0].Fail? then Failed(Exit(OpenSourceError, w.calls[0].errno), Invoke(w, Open(source)))
    else
      var w1 := Invoke(w, Open(source));
      if w1.calls == [] then Failed(OutOfScript, w1)
      else if w1.calls[0].Fail? then
        var w2 := Invoke(w1, Creat(dest, PermFile));
        if w2.calls == [] then Failed(OutOfScript, w2)
        else Failed(Exit(OpenDestError, w1.calls[0].errno), Invoke(w2, Close(source)))
      else
        var w2 := Perform(w1, Creat(dest, PermFile), w1.calls[0], w1.fs.(dest := [], pos := 0));
        if size == 0 then Opened(false, w2)
        else if w2.calls == [] then Failed(OutOfScript, w2)
        else if size < 0 then Opened(false, Perform(w2, Fallocate(size), Fail(EINVAL), w2.fs))
        else if w2.calls[0].Fail? then Opened(false, Invoke(w2, Fallocate(size)))
        else Opened(true, Perform(w2, Fallocate(size), w2.calls[0], w2.fs.(dest := Extend(w2.fs.dest, size))))
  }

  /**
   * ftruncate(fd_out, length): a failure replaces the result only when it is
   * NO_ERROR, and then with ftruncate's errno.
   */
  function Truncate(st: Status, length: int): (r: Status)
    ensures r.ret == st.ret || (st.ret == NoError && r.ret == TruncateError)
  {
    if st.w.calls == [] then st
    else if st.w.calls[0].Fail? then
      var w := Invoke(st.w, Ftruncate(length));
      if st.ret == NoError then Status(TruncateError, st.w.calls[0].errno, w) else st.(w := w)
    else
      var n: nat := if length < 0 then 0 else length;
      st.(w := Perform(st.w, Ftruncate(length), st.w.calls[0], st.w.fs.(dest := Resize(st.w.fs.dest, n))))
  }

  /**
   * The truncation step as the C code writes it: on failure the saved errno
   * becomes ftruncate's return value, not errno.
   */
  function TruncateAsWritten(st: Status, length: int): (r: Status)
    ensures r.ret == st.ret || (st.ret == NoError && r.ret == TruncateError)
  {
    if st.w.calls == [] then st
    else if st.w.calls[0].Fail? then
      var truncRet := -1;
      var w := Invoke(st.w, Ftruncate(length));
      if st.ret == NoError then Status(TruncateError, truncRet, w) else st.(w := w)
    else
      var n: nat := if length < 0 then 0 else length;
      st.(w := Perform(st.w, Ftruncate(length), st.w.calls[0], st.w.fs.(dest := Resize(st.w.fs.dest, n))))
  }

  /** As written, a TRUNCATE return leaves errno at -1, which is no error number, whatever ftruncate's errno was. */
  lemma TruncateErrnoAsWritten(st: Status, length: int)
    requires st.ret == NoError && st.w.calls != [] && st.w.calls[0].Fail?
    ensures TruncateAsWritten(st, length).ret == TruncateError
    ensures TruncateAsWritten(st, length).errno == -1
    ensures TruncateAsWritten(st, length).errno != Truncate(st, length).errno
  {
  }

  /** Corrected: a TRUNCATE return carries ftruncate's errno; otherwise the result and its errno are kept. */
  lemma TruncateReportsErrno(st: Status, length: int)
    requires st.w.calls != [] && st.w.calls[0].Fail?
    ensures var r := Truncate(st, length);
      && r.w == Invoke(st.w, Ftruncate(length))
      && (st.ret == NoError ==> r.ret == TruncateError && r.errno == st.w.calls[0].errno)
      && (st.ret != NoError ==> r.ret == st.ret && r.errno == st.errno)
  {
  }

  /**
   * close(fd_out), then close(fd_in): a failure of the first becomes WRITE
   * when there is no earlier error, and the function then returns at once,
   * with close's errno and the source left open; the second close's result
   * is ignored and the saved errno restored.
   */
  function CloseFiles(source: string, dest: string, st: Status): (r: Done)
  {
    if st.w.calls == [] then Done(OutOfScript, st.w)
    else
      var w := Invoke(st.w, Close(dest));
      if st.w.calls[0].Fail? && st.ret == NoError then Done(Exit(WriteError, st.w.calls[0].errno), w)
      else if w.calls == [] then Done(OutOfScript, w)
      else Done(Exit(st.ret, st.errno), Invoke(w, Close(source)))
  }

  /** The end of the current revision: truncate to the stream's offset when preallocated, then close. */
  function Finish(source: string, dest: string, preallocated: bool, offset: int, st: Status): (r: Done)
  {
    CloseFiles(source, dest, if preallocated then Truncate(st, offset) else st)
  }

  /** The end of the older revision: truncate to lseek(fd_out, 0, SEEK_CUR) when preallocated, then close. */
  function LegacyFinish(source: string, dest: string, preallocated: bool, st: Status): (r: Done)
  {
    if !preallocated then CloseFiles(source, dest, st)
    else if st.w.calls == [] then Done(OutOfScript, st.w)
    else if st.w.calls[0].Fail? then
      var w := Invoke(st.w, Lseek);
      CloseFiles(source, dest, if st.ret == NoError then Status(TruncateError, st.w.calls[0].errno, w) else st.(w := w))
    else
      var pos := st.w.fs.pos;
      CloseFiles(source, dest, Truncate(st.(w := Perform(st.w, Lseek, Ok(pos), st.w.fs)), pos))
  }

  /**
   * The end of the older revision as its C code writes it: after a
   * successful lseek the truncation stores ftruncate's return value as the
   * errno, as TruncateAsWritten does; every other branch is LegacyFinish's.
   */
  function LegacyFinishAsWritten(source: string, dest: string, preallocated: bool, st: Status): (r: Done)
    ensures st.ret != NoError && r.out.Exit? ==> r.out == Exit(st.ret, st.errno)
  {
    if preallocated && st.w.calls != [] && st.w.calls[0].Ok? then
      var pos := st.w.fs.pos;
      CloseFiles(source, dest, TruncateAsWritten(st.(w := Perform(st.w, Lseek, Ok(pos), st.w.fs)), pos))
    else LegacyFinish(source, dest, preallocated, st)
  }

  /**
   * The input that shows it in the older revision: the stream returned
   * NO_ERROR, lseek succeeds, ftruncate fails and close(fd_out) succeeds.
   * As written the copier returns TRUNCATE with errno -1; corrected, with
   * ftruncate's errno.
   */
  lemma LegacyTruncateErrno(source: string, dest: string, st: Status)
    requires st.ret == NoError
    requires |st.w.calls| >= 4 && st.w.calls[0].Ok? && st.w.calls[1].Fail? && st.w.calls[2].Ok?
    ensures LegacyFinishAsWritten(source, dest, true, st).out == Exit(TruncateError, -1)
    ensures LegacyFinish(source, dest, true, st).out == Exit(TruncateError, st.w.calls[1].errno)
    ensures LegacyFinishAsWritten(source, dest, true, st).w == LegacyFinish(source, dest, true, st).w
  {
  }

  /** copyfile_copy_regular, current revision: the stream starts at offset 0 and reports its size as `size`. */
  function Regular(source: string, dest: string, size: int, callback: bool, w: World): (r: Done)
  {
    match OpenFiles(source, dest, size, w)
    case Failed(out, w1) => Done(out, w1)
    case Opened(preallocated, w1) =>
      var e := Run(Setup(false, callback, size), 0, w1);
      if e.out.OutOfScript? then Done(OutOfScript, e.st.w)
      else Finish(source, dest, preallocated, e.st.offset, Status(e.out.err, e.out.errno, e.st.w))
  }

  /** copyfile_copy_regular, older revision. */
  function LegacyRegular(source: string, dest: string, size: int, callback: bool, w: World): (r: Done)
  {
    match OpenFiles(source, dest, size, w)
    case Failed(out, w1) => Done(out, w1)
    case Opened(preallocated, w1) =>
      var e := Run(Setup(true, callback, 0), 0, w1);
      if e.out.OutOfScript? then Done(OutOfScript, e.st.w)
      else LegacyFinish(source, dest, preallocated, Status(e.out.err, e.out.errno, e.st.w))
  }

  /** The opening steps both revisions share, as the C code runs them. */
  method OpenForCopy(source: string, dest: string, size: int, w0: World) returns (r: Opening)
    ensures r == OpenFiles(source, dest, size, w0)
  {
    var w := w0;
    if w.calls == [] { return Failed(OutOfScript, w); }
    var openReply := w.calls[0];
    w := Invoke(w, Open(source));
    if openReply.Fail? {
      return Failed(Exit(OpenSourceError, openReply.errno), w);
    }
    if w.calls == [] { return Failed(OutOfScript, w); }
    var created := w.calls[0];
    if created.Fail? {
      var holdErrno := created.errno;
      w := Invoke(w, Creat(dest, PermFile));
      if w.calls == [] { return Failed(OutOfScript, w); }
      w := Invoke(w, Close(source));
      return Failed(Exit(OpenDestError, holdErrno), w);
    }
    w := Perform(w, Creat(dest, PermFile), created, w.fs.(dest := [], pos := 0));
    var preallocated := false;
    if size != 0 {
      if w.calls == [] { return Failed(OutOfScript, w); }
      var allocReply := w.calls[0];
      if size < 0 {
        w := Perform(w, Fallocate(size), Fail(EINVAL), w.fs);
      } else if allocReply.Ok? {
        w := Perform(w, Fallocate(size), allocReply, w.fs.(dest := Extend(w.fs.dest, size)));
        preallocated := true;
      } else {
        w := Invoke(w, Fallocate(size));
      }
    }
    return Opened(preallocated, w);
  }

  /** ftruncate(fd_out, length) and its effect on the result, step by step, keeping ftruncate's errno (the corrected step). */
  method TruncateDest(ret0: CopyError, holdErrno0: int, length: int, w0: World)
    returns (ret: CopyError, holdErrno: int, w: World)
    ensures Status(ret, holdErrno, w) == Truncate(Status(ret0, holdErrno0, w0), length)
  {
    ret, holdErrno, w := ret0, holdErrno0, w0;
    if w.calls == [] { return; }
    var truncated := w.calls[0];
    if truncated.Fail? {
      w := Invoke(w, Ftruncate(length));
      if ret == NoError {
        ret, holdErrno := TruncateError, truncated.errno;
      }
    } else {
      var n: nat := if length < 0 then 0 else length;
      w := Perform(w, Ftruncate(length), truncated, w.fs.(dest := Resize(w.fs.dest, n)));
    }
  }

  /** The two closes, as the C code runs them. */
  method CloseBoth(source: string, dest: string, ret: CopyError, holdErrno: int, w0: World) returns (out: Out, w: World)
    ensures Done(out, w) == CloseFiles(source, dest, Status(ret, holdErrno, w0))
  {
    w := w0;
    if w.calls == [] { return OutOfScript, w; }
    var closed := w.calls[0];
    w := Invoke(w, Close(dest));
    if closed.Fail? && ret == NoError {
      return Exit(WriteError, closed.errno), w;
    }
    if w.calls == [] { return OutOfScript, w; }
    w := Invoke(w, Close(source));
    return Exit(ret, holdErrno), w;
  }

  /** The current revision step by step, with the corrected truncation errno. */
  method CopyRegular(source: string, dest: string, size: int, callback: bool, w0: World) returns (out: Out, w: World)
    ensures var e := Regular(source, dest, size, callback, w0); out == e.out && w == e.w
  {
    var opening := OpenForCopy(source, dest, size, w0);
    if opening.Failed? {
      return opening.out, opening.w;
    }
    var stream, stored;
    stream, stored, w := CopyStream(opening.w, Some(0), size, callback);
    if stream.OutOfScript? { return OutOfScript, w; }
    var offset := stored.value;
    var ret, holdErrno := stream.err, stream.errno;
    if opening.preallocated {
      ret, holdErrno, w := TruncateDest(ret, holdErrno, offset, w);
    }
    out, w := CloseBoth(source, dest, ret, holdErrno, w);
  }

  /** The older revision step by step, with the corrected truncation errno: the truncation length comes from lseek. */
  method LegacyCopyRegular(source: string, dest: string, size: int, callback: bool, w0: World) returns (out: Out, w: World)
    ensures var e := LegacyRegular(source, dest, size, callback, w0); out == e.out && w == e.w
  {
    var opening := OpenForCopy(source, dest, size, w0);
    if opening.Failed? {
      return opening.out, opening.w;
    }
    var stream;
    stream, w := LegacyCopyStream(opening.w, callback);
    if stream.OutOfScript? { return OutOfScript, w; }
    var ret, holdErrno := stream.err, stream.errno;
    if opening.preallocated {
      if w.calls == [] { return OutOfScript, w; }
      var seek := w.calls[0];
      if seek.Ok? {
        var pos := w.fs.pos;
        w := Perform(w, Lseek, Ok(pos), w.fs);
        ret, holdErrno, w := TruncateDest(ret, holdErrno, pos, w);
      } else {
        w := Invoke(w, Lseek);
        if ret == NoError {
          ret, holdErrno := TruncateError, seek.errno;
        }
      }
    }
    out, w := CloseBoth(source, dest, ret, holdErrno, w);
  }

  /** Opening succeeds with both files open, the destination empty or preallocated with zeros, the source untouched. */
  lemma OpenedFiles(source: string, dest: string, size: int, w: World)
    ensures match OpenFiles(source, dest, size, w)
      case Opened(preallocated, w1) =>
        && w1.fs.data == w.fs.data
        && w1.fs.pos == 0
        && w1.fs.dest == (if preallocated then Zeros(if size < 0 then 0 else size) else [])
        && (preallocated ==> size > 0)
      case Failed(out, w1) =>
        out.Exit? ==> out.err in {OpenSourceError, OpenDestError}
  {
    if w.calls != [] && w.calls[0].Ok? {
      var w1 := Invoke(w, Open(source));
      if w1.calls != [] && w1.calls[0].Ok? && size != 0 {
        assert Extend([], if size < 0 then 0 else size) == Zeros(if size < 0 then 0 else size);
      }
    }
  }

  /** Failure to open the source returns OPEN_SOURCE with open's errno and nothing else is attempted. */
  lemma SourceOpenFails(source: string, dest: string, size: int, callback: bool, w: World)
    requires w.calls != [] && w.calls[0].Fail?
    ensures var e := Regular(source, dest, size, callback, w);
      e.out == Exit(OpenSourceError, w.calls[0].errno) && e.w.log == w.log + [Did(Open(source), w.calls[0])]
  {
  }

  /** Failure to create the destination returns OPEN_DEST with creat's errno, after closing the source. */
  lemma DestCreateFails(source: string, dest: string, size: int, callback: bool, w: World)
    requires |w.calls| >= 3 && w.calls[0].Ok? && w.calls[1].Fail?
    ensures var e := Regular(source, dest, size, callback, w);
      && e.out == Exit(OpenDestError, w.calls[1].errno)
      && e.w.log == w.log + [Did(Open(source), w.calls[0]), Did(Creat(dest, PermFile), w.calls[1]), Did(Close(source), w.calls[2])]
  {
  }

  /**
   * The error precedence after the stream: an error of the stream is the
   * result, whatever truncation and closing do; TRUNCATE only replaces
   * NO_ERROR, and only when the destination was preallocated; WRITE from the
   * close only replaces NO_ERROR.
   */
  lemma FinishPrecedence(source: string, dest: string, preallocated: bool, offset: int, st: Status)
    ensures var e := Finish(source, dest, preallocated, offset, st);
      && (st.ret != NoError && e.out.Exit? ==> e.out == Exit(st.ret, st.errno))
      && (e.out.Exit? && e.out.err == TruncateError && st.ret != TruncateError ==> preallocated && st.ret == NoError)
      && (e.out.Exit? && e.out.err == WriteError && st.ret != WriteError ==> st.ret == NoError)
      && (st.ret == NoError && e.out.Exit? ==> e.out.err in {NoError, TruncateError, WriteError})
  {
    var t := if preallocated then Truncate(st, offset) else st;
    assert st.ret != NoError ==> t.ret == st.ret && t.errno == st.errno;
  }

  /** The same precedence in the older revision, where a failed lseek counts as a failed truncation. */
  lemma LegacyFinishPrecedence(source: string, dest: string, preallocated: bool, st: Status)
    ensures var e := LegacyFinish(source, dest, preallocated, st);
      && (st.ret != NoError && e.out.Exit? ==> e.out == Exit(st.ret, st.errno))
      && (e.out.Exit? && e.out.err == TruncateError && st.ret != TruncateError ==> preallocated && st.ret == NoError)
      && (e.out.Exit? && e.out.err == WriteError && st.ret != WriteError ==> st.ret == NoError)
  {
  }

  /** Preallocation is attempted only for a nonzero expected size. */
  lemma PreallocOnlyWhenSized(source: string, dest: string, w: World)
    ensures var r := OpenFiles(source, dest, 0, w);
      r.Opened? ==> !r.preallocated && |r.w.log| == |w.log| + 2
  {
  }

  /** The written prefix of a file written from offset 0 is what was written. */
  lemma PutFromStart(d: seq<byte>, b: seq<byte>)
    ensures |Put(d, 0, b)| >= |b| && Put(d, 0, b)[..|b|] == b
  {
    if b != [] {
      assert Put(d, 0, b)[..|b|] == ([] + b + (if |b| <= |d| then d[|b|..] else []))[..|b|];
    }
  }

  /** Closing leaves the files as they are, and returns NO_ERROR only when the result so far is NO_ERROR. */
  lemma CloseKeepsFiles(source: string, dest: string, st: Status)
    ensures var r := CloseFiles(source, dest, st);
      r.w.fs == st.w.fs && (r.out.Exit? ==> st.w.calls != []) && (r.out.Exit? && r.out.err == NoError ==> st.ret == NoError)
  {
  }

  /** A successful truncation to the written length of a file written from 0 leaves exactly what was written. */
  lemma TruncateToWritten(st: Status, data: seq<byte>, d0: seq<byte>)
    requires st.w.fs.dest == Put(d0, 0, data)
    ensures var t := Truncate(st, |data|); t.ret == NoError && t.w.calls != [] ==> t.w.fs.dest == data
  {
    PutFromStart(d0, data);
  }

  /**
   * The headline: a NO_ERROR return leaves the destination holding exactly
   * the source's contents, with or without preallocation; the final
   * truncation removes the preallocated tail.
   */
  lemma {:induction false} RegularCopies(source: string, dest: string, size: int, callback: bool, w: World)
    ensures var e := Regular(source, dest, size, callback, w);
      e.out.Exit? && e.out.err == NoError ==> e.w.fs.dest == w.fs.data
  {
    OpenedFiles(source, dest, size, w);
    match OpenFiles(source, dest, size, w)
    case Failed(_, _) =>
    case Opened(preallocated, w1) =>
      FinishCopies(source, dest, size, callback, preallocated, w1);
  }

  /**
   * The same for the older revision: a NO_ERROR return leaves the
   * destination holding exactly the source's contents; the truncation
   * length read back by lseek is the number of bytes written.
   */
  lemma {:induction false} LegacyRegularCopies(source: string, dest: string, size: int, callback: bool, w: World)
    ensures var e := LegacyRegular(source, dest, size, callback, w);
      e.out.Exit? && e.out.err == NoError ==> e.w.fs.dest == w.fs.data
  {
    OpenedFiles(source, dest, size, w);
    match OpenFiles(source, dest, size, w)
    case Failed(_, _) =>
    case Opened(preallocated, w1) =>
      LegacyFinishCopies(source, dest, size, callback, preallocated, w1);
  }

  /** The part of LegacyRegularCopies after opening. */
  lemma LegacyFinishCopies(source: string, dest: string, size: int, callback: bool, preallocated: bool, w1: World)
    requires w1.fs.pos == 0
    requires w1.fs.dest == (if preallocated then Zeros(if size < 0 then 0 else size) else [])
    ensures var e := Run(Setup(true, callback, 0), 0, w1);
      e.out.Exit? ==>
        var r := LegacyFinish(source, dest, preallocated, Status(e.out.err, e.out.errno, e.st.w));
        r.out.Exit? && r.out.err == NoError ==> r.w.fs.dest == w1.fs.data
  {
    var s := Setup(true, callback, 0);
    var e := Run(s, 0, w1);
    StreamCopiesInput(s, 0, w1);
    StreamExit(s, 0, w1);
    if e.out.Exit? {
      var st := Status(e.out.err, e.out.errno, e.st.w);
      var data := w1.fs.data;
      if !preallocated {
        CloseKeepsFiles(source, dest, st);
        if st.ret == NoError && st.w.calls != [] {
          PutCovers([], data);
        }
      } else if st.w.calls != [] && st.w.calls[0].Ok? {
        var pos := st.w.fs.pos;
        var st' := st.(w := Perform(st.w, Lseek, Ok(pos), st.w.fs));
        var t := Truncate(st', pos);
        CloseKeepsFiles(source, dest, t);
        if st.ret == NoError {
          assert pos == |data|;
          TruncateToWritten(st', data, w1.fs.dest);
        }
      } else if st.w.calls != [] {
        var w := Invoke(st.w, Lseek);
        CloseKeepsFiles(source, dest, if st.ret == NoError then Status(TruncateError, st.w.calls[0].errno, w) else st.(w := w));
      }
    }
  }

  /** The part of the headline after opening: stream, truncation and closing. */
  lemma FinishCopies(source: string, dest: string, size: int, callback: bool, preallocated: bool, w1: World)
    requires w1.fs.pos == 0
    requires w1.fs.dest == (if preallocated then Zeros(if size < 0 then 0 else size) else [])
    ensures var e := Run(Setup(false, callback, size), 0, w1);
      e.out.Exit? ==>
        var r := Finish(source, dest, preallocated, e.st.offset, Status(e.out.err, e.out.errno, e.st.w));
        r.out.Exit? && r.out.err == NoError ==> r.w.fs.dest == w1.fs.data
  {
    var s := Setup(false, callback, size);
    var e := Run(s, 0, w1);
    StreamCopiesInput(s, 0, w1);
    StreamExit(s, 0, w1);
    if e.out.Exit? {
      var st := Status(e.out.err, e.out.errno, e.st.w);
      var t := if preallocated then Truncate(st, e.st.offset) else st;
      CloseKeepsFiles(source, dest, t);
      if t.ret == NoError && t.w.calls != [] {
        var data := w1.fs.data;
        if preallocated {
          TruncateToWritten(st, data, w1.fs.dest);
        } else {
          PutCovers([], data);
        }
      }
    }
  }
}
