/**
 * copyfile_create_special: create a directory, named pipe, device node or
 * UNIX socket at a path. The file type picks the call and the error code
 * reported when it fails; the callback is asked before the first attempt,
 * after each failure (0 means retry) and after success.
 */
module Special {
  import opened Common
  import opened Errors
  import opened Env

  /** sizeof(((struct sockaddr_un *) 0)->sun_path) on Linux. */
  const SunPathSize: nat := 108

  /** The arguments: the path (without its terminating NUL), the file type, the device number, whether a callback is given. */
  datatype Request = Request(path: string, ftype: Mode, devid: nat, callback: bool)

  /**
   * What one attempt does: a single creating call with its error code, the
   * socket/bind pair, or a return without any call.
   */
  datatype Plan = Node(call: Call, err: CopyError) | Sock | SockTooLong | Internal

  /** The type dispatch of the retry loop. */
  function PlanFor(q: Request): (p: Plan)
    ensures p.Node? ==> p.err in {MkdirError, MkfifoError, MknodError}
    ensures p.Node? && p.call.Mknod? ==> FileType(p.call.mode) == q.ftype && p.call.dev == q.devid
    ensures p.Node? ==> (p.call.Mkdir? || p.call.Mkfifo? || p.call.Mknod?) && p.call.path == q.path
    ensures p.Node? ==> BitsWithin(p.call.mode & !S_IFMT, PermDir)
    ensures p.SockTooLong? <==> q.ftype == S_IFSOCK && |q.path| + 1 > SunPathSize
    ensures p.Internal? <==> q.ftype !in {S_IFDIR, S_IFIFO, S_IFBLK, S_IFCHR, S_IFSOCK}
  {
    if q.ftype == S_IFDIR then Node(Mkdir(q.path, PermDir), MkdirError)
    else if q.ftype == S_IFIFO then Node(Mkfifo(q.path, PermFile), MkfifoError)
    else if q.ftype == S_IFBLK || q.ftype == S_IFCHR then Node(Mknod(q.path, q.ftype | PermFile, q.devid), MknodError)
    else if q.ftype == S_IFSOCK then (if |q.path| + 1 > SunPathSize then SockTooLong else Sock)
    else Internal
  }

  /** The progress record: the device number for block and character devices, nothing set otherwise. */
  function Record(q: Request): Progress
  {
    if q.ftype == S_IFBLK || q.ftype == S_IFCHR then Device(q.devid) else Unset
  }

  /** The outcome of one attempt: created, failed with a code and errno, or returned. */
  datatype Try = Made(w: World) | Failed(err: CopyError, errno: int, w: World) | Gave(d: Done)

  /**
   * One pass of the loop body. A socket is created, bound to the path and
   * closed; the close, which the C code does not check, may still replace the
   * errno of a failed bind.
   */
  function Attempt(q: Request, w: World): (t: Try)
    ensures !t.Gave? ==> Size(t.w) < Size(w) && t.w.answers == w.answers
    ensures t.Failed? ==> t.err in {MkdirError, MkfifoError, MknodError, SocketError, BindError}
    ensures t.Gave? ==> t.d.w.answers == w.answers && (t.d.out.Exit? ==> t.d.w == w)
  {
    match PlanFor(q)
    case Internal => Gave(Done(Exit(InternalError, 0), w))
    case SockTooLong => Gave(Done(Exit(SocketDestTooLong, 0), w))
    case Node(call, err) =>
      if w.calls == [] then Gave(Done(OutOfScript, w))
      else
        var reply := w.calls[0];
        var w1 := Invoke(w, call);
        if reply.Ok? then Made(w1) else Failed(err, reply.errno, w1)
    case Sock =>
      if w.calls == [] then Gave(Done(OutOfScript, w))
      else
        var socket := w.calls[0];
        var w1 := Invoke(w, Socket);
        if socket.Fail? then Failed(SocketError, socket.errno, w1)
        else if |w1.calls| < 2 then Gave(Done(OutOfScript, w1))
        else
          var bound := w1.calls[0];
          var closed := w1.calls[1];
          var w2 := Invoke(Invoke(w1, Bind(q.path)), Close(q.path));
          if bound.Ok? then Made(w2)
          else Failed(BindError, if closed.Fail? then closed.errno else bound.errno, w2)
  }

  /** After the node exists: the EOF callback may still abort. */
  function Finished(q: Request, w: World): (d: Done)
  {
    if !q.callback then Done(Exit(NoError, 0), w)
    else if w.answers == [] then Done(OutOfScript, w)
    else Done(Exit(if w.answers[0] then Aborted else NoError, 0), Ask(w, Eof, Record(q), false))
  }

  /** The `while (1)` loop: attempt; on failure return without a callback, else ask (0 retries). */
  function Loop(q: Request, w: World): (d: Done)
    decreases Size(w)
  {
    match Attempt(q, w)
    case Gave(d) => d
    case Made(w1) => Finished(q, w1)
    case Failed(err, errno, w1) =>
      if !q.callback then Done(Exit(err, errno), w1)
      else if w1.answers == [] then Done(OutOfScript, w1)
      else
        var w2 := Ask(w1, err, Record(q), false);
        if w1.answers[0] then Done(Exit(err, errno), w2) else Loop(q, w2)
  }

  /** copyfile_create_special: the start callback, then the loop. */
  function CreateSpecialSpec(q: Request, w: World): (d: Done)
  {
    if !q.callback then Loop(q, w)
    else if w.answers == [] then Done(OutOfScript, w)
    else
      var w1 := Ask(w, NoError, Record(q), false);
      if w.answers[0] then Done(Exit(Aborted, 0), w1) else Loop(q, w1)
  }

  /** copyfile_create_special as the C code runs it. */
  method CreateSpecial(q: Request, w0: World) returns (d: Done)
    ensures d == CreateSpecialSpec(q, w0)
  {
    var w := w0;
    var progress := Record(q);
    if q.callback {
      if w.answers == [] { return Done(OutOfScript, w); }
      var nonzero := w.answers[0];
      w := Ask(w, NoError, progress, false);
      if nonzero { return Done(Exit(Aborted, 0), w); }
    }
    while true
      invariant Loop(q, w) == CreateSpecialSpec(q, w0)
      decreases Size(w)
    {
      var t := Attempt(q, w);
      if t.Gave? { return t.d; }
      if t.Made? {
        w := t.w;
        break;
      }
      w := t.w;
      if !q.callback { return Done(Exit(t.err, t.errno), w); }
      if w.answers == [] { return Done(OutOfScript, w); }
      var nonzero := w.answers[0];
      w := Ask(w, t.err, progress, false);
      if nonzero { return Done(Exit(t.err, t.errno), w); }
    }
    if q.callback {
      if w.answers == [] { return Done(OutOfScript, w); }
      var nonzero := w.answers[0];
      w := Ask(w, Eof, progress, false);
      if nonzero { return Done(Exit(Aborted, 0), w); }
    }
    return Done(Exit(NoError, 0), w);
  }

  /** A nonzero answer to the start callback returns ABORTED before any call. */
  lemma StartAborts(q: Request, w: World)
    requires q.callback && w.answers != [] && w.answers[0]
    ensures var d := CreateSpecialSpec(q, w);
      d.out == Exit(Aborted, 0) && d.w.calls == w.calls && d.w.log == w.log + [Asked(NoError, Record(q), false, true)]
  {
  }

  /** The world the loop starts from once the start callback, if any, answered 0. */
  function Started(q: Request, w: World): World
    requires q.callback ==> w.answers != []
  {
    if q.callback then Ask(w, NoError, Record(q), false) else w
  }

  /**
   * The type dispatch as seen from outside: the first call is mkdir with
   * perm_dir, mkfifo with perm_file, or mknod with the type, perm_file and
   * the device number; when it fails and there is no callback, its error
   * code and errno are returned at once.
   */
  lemma NodeFailure(q: Request, w: World)
    requires !q.callback && w.calls != [] && w.calls[0].Fail?
    ensures var d := CreateSpecialSpec(q, w); var e := w.calls[0];
      && (q.ftype == S_IFDIR ==> d.out == Exit(MkdirError, e.errno) && d.w.log == w.log + [Did(Mkdir(q.path, PermDir), e)])
      && (q.ftype == S_IFIFO ==> d.out == Exit(MkfifoError, e.errno) && d.w.log == w.log + [Did(Mkfifo(q.path, PermFile), e)])
      && (q.ftype in {S_IFBLK, S_IFCHR} ==>
            d.out == Exit(MknodError, e.errno) && d.w.log == w.log + [Did(Mknod(q.path, q.ftype | PermFile, q.devid), e)])
  {
  }

  /**
   * A socket path that does not fit sun_path with its NUL returns
   * SOCKET_DEST_TOO_LONG without any call and without asking the callback
   * anything after the start question.
   */
  lemma SocketPathGuard(q: Request, w: World)
    requires q.ftype == S_IFSOCK && |q.path| + 1 > SunPathSize
    requires q.callback ==> w.answers != [] && !w.answers[0]
    ensures var d := CreateSpecialSpec(q, w);
      d.out == Exit(SocketDestTooLong, 0) && d.w == Started(q, w)
  {
  }

  /** Any type other than the five returns INTERNAL without any call. */
  lemma OtherTypesInternal(q: Request, w: World)
    requires q.ftype !in {S_IFDIR, S_IFIFO, S_IFBLK, S_IFCHR, S_IFSOCK}
    requires q.callback ==> w.answers != [] && !w.answers[0]
    ensures var d := CreateSpecialSpec(q, w);
      d.out == Exit(InternalError, 0) && d.w == Started(q, w)
  {
  }

  /**
   * For a socket, a failing socket() is SOCKET with its errno; a failing bind
   * is BIND, after the socket is closed, with the errno bind left when the
   * close succeeds.
   */
  lemma SocketFailures(q: Request, w: World)
    requires q.ftype == S_IFSOCK && |q.path| + 1 <= SunPathSize && !q.callback && w.calls != []
    ensures var d := CreateSpecialSpec(q, w);
      && (w.calls[0].Fail? ==> d.out == Exit(SocketError, w.calls[0].errno) && d.w.log == w.log + [Did(Socket, w.calls[0])])
      && (|w.calls| >= 3 && w.calls[0].Ok? && w.calls[1].Fail? && w.calls[2].Ok? ==>
            d.out == Exit(BindError, w.calls[1].errno)
            && d.w.log == w.log + [Did(Socket, w.calls[0]), Did(Bind(q.path), w.calls[1]), Did(Close(q.path), w.calls[2])])
  {
  }

  /** The call whose success means the node exists, as it appears in the log. */
  predicate Creates(q: Request, log: seq<Event>)
  {
    match PlanFor(q)
    case Node(call, _) => |log| >= 1 && log[|log| - 1].Did? && log[|log| - 1].call == call && log[|log| - 1].reply.Ok?
    case Sock => |log| >= 2 && log[|log| - 2] .Did? && log[|log| - 2].call == Bind(q.path) && log[|log| - 2].reply.Ok?
                 && log[|log| - 1].Did? && log[|log| - 1].call == Close(q.path)
    case _ => false
  }

  /**
   * How a loop ended, read off its log: NO_ERROR right after the creating
   * call succeeded (and, with a callback, the EOF question was answered 0);
   * ABORTED only on a nonzero answer to the EOF question; a creation error
   * only right after its failure without a callback, or after the callback
   * answered it nonzero.
   */
  predicate LoopExit(q: Request, out: Out, log: seq<Event>)
  {
    match out
    case OutOfScript => true
    case Exit(err, errno) =>
      if err == NoError then
        if q.callback then |log| >= 1 && log[|log| - 1] == Asked(Eof, Record(q), false, false) && Creates(q, log[..|log| - 1])
        else Creates(q, log)
      else if err == Aborted then
        q.callback && |log| >= 1 && Creates(q, log[..|log| - 1]) && log[|log| - 1] == Asked(Eof, Record(q), false, true)
      else if err in {InternalError, SocketDestTooLong} then PlanFor(q).Internal? || PlanFor(q).SockTooLong?
      else if err in {MkdirError, MkfifoError, MknodError, SocketError, BindError} then
        if q.callback then |log| >= 1 && log[|log| - 1] == Asked(err, Record(q), false, true)
        else |log| >= 1 && log[|log| - 1].Did?
      else false
  }

  /** A successful attempt ends its log with the creating call; a failed one with a call. */
  lemma AttemptLog(q: Request, w: World)
    ensures var t := Attempt(q, w);
      && (t.Made? ==> Creates(q, t.w.log))
      && (t.Failed? ==> |t.w.log| >= 1 && t.w.log[|t.w.log| - 1].Did?)
  {
  }

  /** The EOF question after a creation ends the run as LoopExit says. */
  lemma FinishedExit(q: Request, w: World)
    requires Creates(q, w.log)
    ensures var d := Finished(q, w); LoopExit(q, d.out, d.w.log)
  {
    if q.callback && w.answers != [] {
      var d := Finished(q, w);
      assert d.w.log[..|d.w.log| - 1] == w.log;
    }
  }

  /** Every way the loop returns satisfies LoopExit. */
  lemma {:induction false} LoopExits(q: Request, w: World)
    ensures var d := Loop(q, w); LoopExit(q, d.out, d.w.log)
    decreases Size(w)
  {
    var t := Attempt(q, w);
    AttemptLog(q, w);
    if t.Made? {
      FinishedExit(q, t.w);
    } else if t.Failed? && q.callback && t.w.answers != [] && !t.w.answers[0] {
      LoopExits(q, Ask(t.w, t.err, Record(q), false));
    }
  }

  /** Every way copyfile_create_special returns: the start question may abort, the rest is the loop's. */
  lemma SpecialExits(q: Request, w: World)
    ensures var d := CreateSpecialSpec(q, w);
      (d.out == Exit(Aborted, 0) && q.callback && w.answers != [] && w.answers[0])
      || LoopExit(q, d.out, d.w.log)
  {
    if !q.callback {
      LoopExits(q, w);
    } else if w.answers != [] && !w.answers[0] {
      LoopExits(q, Ask(w, NoError, Record(q), false));
    }
  }
}
