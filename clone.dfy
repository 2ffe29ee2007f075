/**
 * copyfile_clone_file: make the destination share the source's data
 * (a btrfs clone) when the source is a regular file. The clone itself is
 * copyfile_clone_stream, one ioctl whose success or failure is a scripted
 * reply; a successful clone gives the destination the source's contents.
 */
module Clone {
  import opened Common
  import opened Errors
  import opened Env
  import CopyFile

  /** copyfile_clone_stream: BTRFS_IOC_CLONE succeeds or gives IOCTL_CLONE with its errno. */
  function CloneStreamSpec(source: string, dest: string, w: World): (d: Done)
    requires w.calls != []
    ensures d.out.Exit? && d.out.err in {NoError, IoctlCloneError} && |d.w.log| == |w.log| + 1
    ensures d.out.err == NoError <==> w.calls[0].Ok?
  {
    var reply := w.calls[0];
    if reply.Ok? then Done(Exit(NoError, 0), Perform(w, CloneStream(source, dest), reply, w.fs.(dest := w.fs.data)))
    else Done(Exit(IoctlCloneError, reply.errno), Invoke(w, CloneStream(source, dest)))
  }

  /**
   * With both files open: clone, close the source (its result is ignored),
   * close the destination; a failing destination close turns a successful
   * clone into WRITE with close's errno; otherwise the clone's code and errno.
   */
  function Cloned(source: string, dest: string, w: World): (d: Done)
  {
    if w.calls == [] then Done(OutOfScript, w)
    else
      var c := CloneStreamSpec(source, dest, w);
      var w1 := c.w;
      if w1.calls == [] then Done(OutOfScript, w1)
      else
        var w2 := Invoke(w1, Close(source));
        if w2.calls == [] then Done(OutOfScript, w2)
        else
          var w3 := Invoke(w2, Close(dest));
          if w2.calls[0].Fail? && c.out.err == NoError then Done(Exit(WriteError, w2.calls[0].errno), w3)
          else Done(c.out, w3)
  }

  /** For a known snapshot: non-regular files are unsupported; else open both, then clone and close. */
  function CloneKnown(source: string, dest: string, st: Snapshot, w: World): (d: Done)
  {
    if FileType(st.mode) != S_IFREG then Done(Exit(Unsupported, 0), w)
    else if w.calls == [] then Done(OutOfScript, w)
    else if w.calls[0].Fail? then Done(Exit(OpenSourceError, w.calls[0].errno), Invoke(w, Open(source)))
    else
      var w1 := Invoke(w, Open(source));
      if w1.calls == [] then Done(OutOfScript, w1)
      else if w1.calls[0].Fail? then
        var w2 := Invoke(w1, OpenWrite(dest, PermFile));
        if w2.calls == [] then Done(OutOfScript, w2)
        else Done(Exit(OpenDestError, w1.calls[0].errno), Invoke(w2, Close(source)))
      else Cloned(source, dest, Invoke(w1, OpenWrite(dest, PermFile)))
  }

  /** copyfile_clone_file: lstat when no snapshot is given. */
  function CloneFileSpec(source: string, dest: string, st: Option<Snapshot>, w: World): (d: Done)
  {
    if st.Some? then CloneKnown(source, dest, st.value, w)
    else if w.calls == [] then Done(OutOfScript, w)
    else if w.calls[0].Fail? then Done(Exit(StatError, w.calls[0].errno), Invoke(w, Lstat(source)))
    else CloneKnown(source, dest, w.fs.stat, Invoke(w, Lstat(source)))
  }

  /** copyfile_clone_file as the C code runs it, threading `ret` and `ret_errno`. */
  method CloneFile(source: string, dest: string, st: Option<Snapshot>, w0: World) returns (d: Done)
    ensures d == CloneFileSpec(source, dest, st, w0)
  {
    var w := w0;
    var snapshot: Snapshot;
    if st.None? {
      if w.calls == [] { return Done(OutOfScript, w); }
      var statReply := w.calls[0];
      w := Invoke(w, Lstat(source));
      if statReply.Fail? { return Done(Exit(StatError, statReply.errno), w); }
      snapshot := w0.fs.stat;
    } else {
      snapshot := st.value;
    }
    if FileType(snapshot.mode) != S_IFREG {
      return Done(Exit(Unsupported, 0), w);
    }
    if w.calls == [] { return Done(OutOfScript, w); }
    var inReply := w.calls[0];
    w := Invoke(w, Open(source));
    if inReply.Fail? { return Done(Exit(OpenSourceError, inReply.errno), w); }
    if w.calls == [] { return Done(OutOfScript, w); }
    var outReply := w.calls[0];
    w := Invoke(w, OpenWrite(dest, PermFile));
    if outReply.Fail? {
      var holdErrno := outReply.errno;
      if w.calls == [] { return Done(OutOfScript, w); }
      w := Invoke(w, Close(source));
      return Done(Exit(OpenDestError, holdErrno), w);
    }
    if w.calls == [] { return Done(OutOfScript, w); }
    var c := CloneStreamSpec(source, dest, w);
    var ret := c.out.err;
    var retErrno := c.out.errno;
    w := c.w;
    if w.calls == [] { return Done(OutOfScript, w); }
    w := Invoke(w, Close(source));
    if w.calls == [] { return Done(OutOfScript, w); }
    var closeReply := w.calls[0];
    w := Invoke(w, Close(dest));
    if closeReply.Fail? && ret == NoError {
      return Done(Exit(WriteError, closeReply.errno), w);
    }
    return Done(Exit(ret, retErrno), w);
  }

  /** The file a clone works from: the given snapshot, else lstat's. */
  function Subject(st: Option<Snapshot>, w: World): Snapshot
  {
    CopyFile.Subject(st, w)
  }

  /** A non-regular source is UNSUPPORTED with nothing opened: at most the lstat was made. */
  lemma NotRegularUnsupported(source: string, dest: string, st: Option<Snapshot>, w: World)
    requires FileType(Subject(st, w).mode) != S_IFREG
    requires st.None? ==> w.calls != [] && w.calls[0].Ok?
    ensures var d := CloneFileSpec(source, dest, st, w);
      && d.out == Exit(Unsupported, 0)
      && d.w.log == w.log + (if st.None? then [Did(Lstat(source), w.calls[0])] else [])
  {
  }

  /**
   * WRITE is returned only after a successful clone; a failed clone returns
   * IOCTL_CLONE with the ioctl's errno whatever the closes do.
   */
  lemma CloneOutcome(source: string, dest: string, w: World)
    ensures var d := Cloned(source, dest, w);
      && (d.out.Exit? ==> d.out.err in {NoError, IoctlCloneError, WriteError} && |d.w.log| == |w.log| + 3)
      && (d.out.Exit? && d.out.err != IoctlCloneError <==> d.out.Exit? && w.calls[0].Ok?)
      && (d.out.Exit? && w.calls[0].Fail? ==> d.out == Exit(IoctlCloneError, w.calls[0].errno))
  {
  }

  /**
   * A clone that returns NO_ERROR has given the destination the opened
   * source's contents and closed both files, the destination successfully.
   */
  lemma CloneCopies(source: string, dest: string, w: World)
    ensures var d := Cloned(source, dest, w);
      d.out.Exit? && d.out.err == NoError ==>
        && d.w.fs.dest == w.fs.data
        && d.w.log == w.log + [Did(CloneStream(source, dest), w.calls[0]), Did(Close(source), w.calls[1]), Did(Close(dest), w.calls[2])]
        && w.calls[2].Ok?
  {
  }

  /**
   * A failure to open the destination returns OPEN_DEST with open's errno,
   * after closing the source.
   */
  lemma DestOpenFails(source: string, dest: string, st: Snapshot, w: World)
    requires FileType(st.mode) == S_IFREG
    requires |w.calls| >= 3 && w.calls[0].Ok? && w.calls[1].Fail?
    ensures var d := CloneFileSpec(source, dest, Some(st), w);
      && d.out == Exit(OpenDestError, w.calls[1].errno)
      && d.w.log == w.log + [Did(Open(source), w.calls[0]), Did(OpenWrite(dest, PermFile), w.calls[1]), Did(Close(source), w.calls[2])]
  {
  }

  /** The codes clone_file returns. */
  lemma CloneCodes(source: string, dest: string, st: Option<Snapshot>, w: World)
    ensures var d := CloneFileSpec(source, dest, st, w);
      d.out.Exit? ==> d.out.err in {NoError, StatError, Unsupported, OpenSourceError, OpenDestError, IoctlCloneError, WriteError}
  {
    if st.Some? {
      CloneKnownCodes(source, dest, st.value, w);
    } else if w.calls != [] && w.calls[0].Ok? {
      CloneKnownCodes(source, dest, w.fs.stat, Invoke(w, Lstat(source)));
    }
  }

  lemma CloneKnownCodes(source: string, dest: string, st: Snapshot, w: World)
    ensures var d := CloneKnown(source, dest, st, w);
      d.out.Exit? ==> d.out.err in {NoError, Unsupported, OpenSourceError, OpenDestError, IoctlCloneError, WriteError}
  {
    if FileType(st.mode) == S_IFREG && |w.calls| >= 2 && w.calls[0].Ok? && w.calls[1].Ok? {
      CloneOutcome(source, dest, Invoke(Invoke(w, Open(source)), OpenWrite(dest, PermFile)));
    }
  }

  /** A clone from a known snapshot that returns NO_ERROR leaves the opened file's contents at the destination. */
  lemma KnownCloneCopies(source: string, dest: string, st: Snapshot, w: World)
    ensures var d := CloneKnown(source, dest, st, w);
      d.out.Exit? && d.out.err == NoError ==> d.w.fs.dest == w.fs.data
  {
    if FileType(st.mode) == S_IFREG && |w.calls| >= 2 && w.calls[0].Ok? && w.calls[1].Ok? {
      CloneCopies(source, dest, Invoke(Invoke(w, Open(source)), OpenWrite(dest, PermFile)));
    }
  }
}
