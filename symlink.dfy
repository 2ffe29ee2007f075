/**
 * copyfile_copy_symlink: read the link target into a buffer and create the
 * new link. The target is first read into a BufferSize stack buffer (when the
 * expected length fits), then into a heap buffer that doubles while it may,
 * is clamped once to the largest size readlink can report, and gives up with
 * SYMLINK_TARGET_TOO_LONG beyond that.
 */
module Symlink {
  import opened Common
  import opened Errors
  import opened Env

  // size_t and ssize_t on a 64-bit Linux target
  const SizeMax: nat := 0xFFFF_FFFF_FFFF_FFFF
  const SsizeMax: nat := 0x7FFF_FFFF_FFFF_FFFF

  /** The largest buffer the heap phase asks for: min(SIZE_MAX, SSIZE_MAX). */
  const MaxSize: nat := if SizeMax > SsizeMax then SsizeMax else SizeMax

  /** The arguments of a call: paths, the expected target length (a size_t), whether a callback is given. */
  datatype Request = Request(source: string, dest: string, expected: nat, callback: bool)

  /** The progress the callback receives before the target is known. */
  function Pending(q: Request): Progress
  {
    LinkTarget(q.expected, None)
  }

  /** The outcome of try_copy_symlink: a code with its errno, or the script ran out. */
  datatype Try = Tried(ret: CopyError, errno: int, w: World) | Untried(w: World)

  /**
   * try_copy_symlink(source, dest, buf, size): readlink places at most `size`
   * bytes of the target; if fewer than `size` came, the whole target was read
   * and the link is created with it; `size` bytes may be a truncated target
   * (EOF).
   */
  function TryCopy(q: Request, size: nat, w: World): (t: Try)
    ensures t.Tried? ==> Size(t.w) < Size(w) && t.ret in {NoError, ReadlinkError, SymlinkError, Eof}
    ensures t.w.fs == w.fs && t.w.answers == w.answers
  {
    if w.calls == [] then Untried(w)
    else if w.calls[0].Fail? then Tried(ReadlinkError, w.calls[0].errno, Invoke(w, Readlink(q.source, size)))
    else
      var rd := Min(|w.fs.target|, size);
      var w1 := Perform(w, Readlink(q.source, size), Ok(rd), w.fs);
      if rd < size then
        if w1.calls == [] then Untried(w1)
        else
          var created := w1.calls[0];
          var w2 := Invoke(w1, Symlink(w.fs.target[..rd], q.dest));
          if created.Fail? then Tried(SymlinkError, created.errno, w2) else Tried(NoError, 0, w2)
      else Tried(Eof, 0, w1)
  }

  /** After the link is created: the EOF callback, with the target, may still abort. */
  function Created(q: Request, w: World): (d: Done)
  {
    if !q.callback then Done(Exit(NoError, 0), w)
    else if w.answers == [] then Done(OutOfScript, w)
    else
      var w1 := Ask(w, Eof, LinkTarget(q.expected, Some(w.fs.target)), false);
      Done(Exit(if w.answers[0] then Aborted else NoError, 0), w1)
  }

  /** Where the stack phase left off: returned, or go on to the heap with `size` bytes. */
  datatype Stage = Returned(d: Done) | Grow(size: nat, w: World)

  /** The stack phase: try with BufferSize bytes; on an error ask whether to retry. */
  function StackLoop(q: Request, w: World): (r: Stage)
    ensures r.Grow? ==> r.size == 2 * BufferSize
    decreases Size(w)
  {
    match TryCopy(q, BufferSize, w)
    case Untried(w1) => Returned(Done(OutOfScript, w1))
    case Tried(ret, errno, w1) =>
      if ret == Eof then Grow(2 * BufferSize, w1)
      else if ret == NoError then Returned(Created(q, w1))
      else if !q.callback then Returned(Done(Exit(ret, errno), w1))
      else if w1.answers == [] then Returned(Done(OutOfScript, w1))
      else
        var w2 := Ask(w1, ret, Pending(q), false);
        if w1.answers[0] then Returned(Done(Exit(ret, errno), w2)) else StackLoop(q, w2)
  }

  /** The size after a possibly truncated read: doubled while below MaxSize / 2, else MaxSize. */
  function Grown(size: nat): nat
  {
    if size < MaxSize / 2 then size * 2 else MaxSize
  }

  /**
   * The heap phase with a buffer of `size` bytes: allocate (a failure is
   * retried when the callback answers 0), try, and on a possibly truncated
   * read grow the buffer, or give up once it is MaxSize bytes. A failed
   * readlink or symlink is retried when the callback answers 0 and returned
   * otherwise, as in the stack phase.
   */
  function HeapLoop(q: Request, size: nat, w: World): (d: Done)
    decreases Size(w)
  {
    if w.calls == [] then Done(OutOfScript, w)
    else if w.calls[0].Fail? then
      var errno := w.calls[0].errno;
      var w1 := Invoke(w, Alloc(size));
      if !q.callback then Done(Exit(MallocError, errno), w1)
      else if w1.answers == [] then Done(OutOfScript, w1)
      else
        var w2 := Ask(w1, MallocError, Pending(q), false);
        if w1.answers[0] then Done(Exit(MallocError, errno), w2) else HeapLoop(q, size, w2)
    else
      match TryCopy(q, size, Invoke(w, Alloc(size)))
      case Untried(w2) => Done(OutOfScript, w2)
      case Tried(ret, errno, w2) =>
        if ret == NoError then Created(q, w2)
        else if ret == Eof then
          if size != MaxSize then HeapLoop(q, Grown(size), w2)
          else Done(Exit(SymlinkTargetTooLong, 0), w2)
        else if !q.callback then Done(Exit(ret, errno), w2)
        else if w2.answers == [] then Done(OutOfScript, w2)
        else
          var w3 := Ask(w2, ret, Pending(q), false);
          if w2.answers[0] then Done(Exit(ret, errno), w3) else HeapLoop(q, size, w3)
  }

  /** The heap phase's first size: twice the stack buffer after it, else expected_length + 1 as a size_t. */
  function FirstHeapSize(expected: nat): nat
  {
    (expected + 1) % (SizeMax + 1)
  }

  /** copyfile_copy_symlink: the start callback, then the stack phase when the expected length fits, then the heap phase. */
  function CopySymlinkSpec(q: Request, w: World): (d: Done)
  {
    if q.callback && w.answers == [] then Done(OutOfScript, w)
    else if q.callback && w.answers[0] then Done(Exit(Aborted, 0), Ask(w, NoError, Pending(q), false))
    else
      var w1 := if q.callback then Ask(w, NoError, Pending(q), false) else w;
      if q.expected < BufferSize then
        match StackLoop(q, w1)
        case Returned(d) => d
        case Grow(size, w2) => HeapLoop(q, size, w2)
      else HeapLoop(q, FirstHeapSize(q.expected), w1)
  }

  /** try_copy_symlink as the C code runs it. */
  method TryCopySymlink(q: Request, size: nat, w0: World) returns (t: Try)
    ensures t == TryCopy(q, size, w0)
  {
    var w := w0;
    if w.calls == [] { return Untried(w); }
    var reply := w.calls[0];
    if reply.Fail? {
      return Tried(ReadlinkError, reply.errno, Invoke(w, Readlink(q.source, size)));
    }
    var rd := Min(|w.fs.target|, size);
    var buf := w.fs.target[..rd];
    w := Perform(w, Readlink(q.source, size), Ok(rd), w.fs);
    if rd < size {
      if w.calls == [] { return Untried(w); }
      var created := w.calls[0];
      w := Invoke(w, Symlink(buf, q.dest));
      if created.Fail? {
        return Tried(SymlinkError, created.errno, w);
      }
      return Tried(NoError, 0, w);
    }
    return Tried(Eof, 0, w);
  }

  /** The EOF callback after a created link, as the C code runs it. */
  method AfterCreate(q: Request, w0: World) returns (d: Done)
    ensures d == Created(q, w0)
  {
    var w := w0;
    if q.callback {
      if w.answers == [] { return Done(OutOfScript, w); }
      var nonzero := w.answers[0];
      w := Ask(w, Eof, LinkTarget(q.expected, Some(w.fs.target)), false);
      if nonzero { return Done(Exit(Aborted, 0), w); }
    }
    return Done(Exit(NoError, 0), w);
  }

  /** The `while (1)` loop over the stack buffer. */
  method StackPhase(q: Request, w0: World) returns (r: Stage)
    ensures r == StackLoop(q, w0)
  {
    var w := w0;
    while true
      invariant StackLoop(q, w) == StackLoop(q, w0)
      decreases Size(w)
    {
      var t := TryCopySymlink(q, BufferSize, w);
      if t.Untried? { return Returned(Done(OutOfScript, t.w)); }
      var ret := t.ret;
      w := t.w;
      if ret == Eof {
        return Grow(2 * BufferSize, w);
      }
      if ret == NoError {
        var d := AfterCreate(q, w);
        return Returned(d);
      }
      if !q.callback { return Returned(Done(Exit(ret, t.errno), w)); }
      if w.answers == [] { return Returned(Done(OutOfScript, w)); }
      var nonzero := w.answers[0];
      w := Ask(w, ret, Pending(q), false);
      if nonzero { return Returned(Done(Exit(ret, t.errno), w)); }
    }
  }

  /** The `while (1)` loop over the heap buffer, with its growth. */
  method HeapPhase(q: Request, size0: nat, w0: World) returns (d: Done)
    ensures d == HeapLoop(q, size0, w0)
  {
    var w := w0;
    var size: nat := size0;
    while true
      invariant HeapLoop(q, size, w) == HeapLoop(q, size0, w0)
      decreases Size(w)
    {
      if w.calls == [] { return Done(OutOfScript, w); }
      var allocReply := w.calls[0];
      w := Invoke(w, Alloc(size));
      if allocReply.Fail? {
        if q.callback && w.answers != [] && !w.answers[0] {
          w := Ask(w, MallocError, Pending(q), false);
          continue;
        }
        if q.callback {
          if w.answers == [] { return Done(OutOfScript, w); }
          w := Ask(w, MallocError, Pending(q), false);
        }
        return Done(Exit(MallocError, allocReply.errno), w);
      }
      var t := TryCopySymlink(q, size, w);
      if t.Untried? { return Done(OutOfScript, t.w); }
      w := t.w;
      if t.ret == NoError {
        d := AfterCreate(q, w);
        return;
      } else if t.ret == Eof {
        if size < MaxSize / 2 {
          size := size * 2;
        } else if size != MaxSize {
          size := MaxSize;
        } else {
          return Done(Exit(SymlinkTargetTooLong, 0), w);
        }
      } else {
        if !q.callback { return Done(Exit(t.ret, t.errno), w); }
        if w.answers == [] { return Done(OutOfScript, w); }
        var nonzero := w.answers[0];
        w := Ask(w, t.ret, Pending(q), false);
        if nonzero { return Done(Exit(t.ret, t.errno), w); }
      }
    }
  }

  /** copyfile_copy_symlink as the C code runs it. */
  method CopySymlink(q: Request, w0: World) returns (d: Done)
    ensures d == CopySymlinkSpec(q, w0)
  {
    var w := w0;
    if q.callback {
      if w.answers == [] { return Done(OutOfScript, w); }
      var nonzero := w.answers[0];
      w := Ask(w, NoError, Pending(q), false);
      if nonzero { return Done(Exit(Aborted, 0), w); }
    }
    var size: nat := BufferSize;
    if q.expected < size {
      var stage := StackPhase(q, w);
      if stage.Returned? { return stage.d; }
      size, w := stage.size, stage.w;
    } else {
      size := FirstHeapSize(q.expected);
    }
    d := HeapPhase(q, size, w);
  }
}
