/**
 * copyfile_copy_stream, in its current form (with an offset store) and in its
 * older form (which reports the number of bytes read), which share one loop:
 * read a buffer, write it out in as many pieces as write(2) takes, ask the
 * callback every CallbackOpCount iterations, and retry a failed call either on
 * EINTR (no callback) or when the callback answers 0.
 *
 * `Loop` is the reference semantics, one `Step` per iteration of either loop
 * of the C code; `CopyStream` and `LegacyCopyStream` are the two functions
 * written as the C code is, with their results proved equal to `Loop`'s.
 */
module Stream {
  import opened Common
  import opened Errors
  import opened Env

  /** What distinguishes a call: the revision (`legacy`), whether a callback is given, the expected size. */
  datatype Setup = Setup(legacy: bool, callback: bool, size: int)

  /**
   * Where the loop is: about to start an outer iteration, or in the write loop
   * with `pending` (the `rd` bytes at `bufp`) still to write. `opcount` is the
   * iteration counter of the progress callback.
   */
  datatype Phase = Top(opcount: nat) | Writing(opcount: nat, pending: seq<byte>)

  /**
   * The loop state: `offset` is progress.data.offset (bytes written, from the
   * stored start), `inPos` is in_pos of the older revision (bytes read).
   */
  datatype State = State(phase: Phase, offset: int, inPos: int, w: World)

  datatype Step = Stop(out: Out, st: State) | Next(st: State)

  /** How the copier ended, with the state it ended in. */
  datatype Ending = Ending(out: Out, st: State)

  /** The result of one read(2) or write(2): a count or -1, the errno, the bytes read. */
  datatype Io = Io(count: int, errno: nat, bytes: seq<byte>, w: World)

  /** The progress the callback receives. */
  function Report(s: Setup, offset: int, inPos: int): Progress
  {
    if s.legacy then Position(inPos) else Data(offset, s.size)
  }

  /** read(fd_in, buf, BufferSize): takes the next bytes of the source, or fails. */
  function DoRead(w: World): (r: Io)
    requires w.calls != []
    ensures Size(r.w) < Size(w) && r.w.answers == w.answers
    ensures r.count == -1 || (0 <= r.count <= BufferSize && r.count <= |w.fs.data| && r.bytes == w.fs.data[..r.count])
    ensures r.count == 0 <==> w.calls[0].Ok? && w.fs.data == []
    ensures r.count == -1 <==> w.calls[0].Fail?
  {
    match w.calls[0]
    case Fail(e) => Io(-1, e, [], Perform(w, Read, Fail(e), w.fs))
    case Ok(n) =>
      var k := ReadCount(n, w.fs.data);
      Io(k, 0, w.fs.data[..k], Perform(w, Read, Ok(k), w.fs.(data := w.fs.data[k..])))
  }

  /** write(fd_out, bytes, |bytes|): writes a prefix of `bytes` at the descriptor's position, or fails. */
  function DoWrite(w: World, bytes: seq<byte>): (r: Io)
    requires w.calls != []
    ensures Size(r.w) < Size(w) && r.w.answers == w.answers
    ensures r.count == -1 <==> w.calls[0].Fail?
    ensures -1 <= r.count <= |bytes|
  {
    match w.calls[0]
    case Fail(e) => Io(-1, e, [], Perform(w, Write(bytes), Fail(e), w.fs))
    case Ok(n) =>
      var k := Min(n, |bytes|);
      var fs := w.fs.(dest := Put(w.fs.dest, w.fs.pos, bytes[..k]), pos := w.fs.pos + k);
      Io(k, 0, [], Perform(w, Write(bytes), Ok(k), fs))
  }

  /**
   * After a failed read or write, in state `st` (whose world already holds the
   * failed call): retry iff the callback answers 0, or, without a callback,
   * iff errno is EINTR; otherwise return `err`.
   */
  function Retry(s: Setup, err: CopyError, errno: nat, st: State): (r: Step)
    ensures r.Next? ==> Size(r.st.w) <= Size(st.w)
  {
    if s.callback then
      if st.w.answers == [] then Stop(OutOfScript, st)
      else
        var w := Ask(st.w, err, Report(s, st.offset, st.inPos), false);
        if st.w.answers[0] then Stop(Exit(err, errno), st.(w := w)) else Next(st.(w := w))
    else if errno == EINTR then Next(st)
    else Stop(Exit(err, errno), st)
  }

  /** End of file: the final callback may still abort. */
  function AtEof(s: Setup, st: State): (r: Step)
    ensures r.Stop?
  {
    if s.callback then
      if st.w.answers == [] then Stop(OutOfScript, st)
      else
        var w := Ask(st.w, Eof, Report(s, st.offset, st.inPos), false);
        Stop(Exit(if st.w.answers[0] then Aborted else NoError, 0), st.(w := w))
    else Stop(Exit(NoError, 0), st)
  }

  /** The read half of an outer iteration, after the callback tick. */
  function ReadStep(s: Setup, opcount: nat, offset: int, inPos: int, w: World): (r: Step)
    ensures r.Next? ==> Size(r.st.w) < Size(w)
  {
    if w.calls == [] then Stop(OutOfScript, State(Top(opcount), offset, inPos, w))
    else
      var io := DoRead(w);
      if io.count == -1 then Retry(s, ReadError, io.errno, State(Top(opcount), offset, inPos, io.w))
      else if io.count == 0 then AtEof(s, State(Top(opcount), offset, inPos, io.w))
      else Next(State(Writing(opcount, io.bytes), offset, inPos + io.count, io.w))
  }

  /** An outer iteration: the callback tick, then the read. */
  function TopStep(s: Setup, opcount: nat, offset: int, inPos: int, w: World): (r: Step)
    ensures r.Next? ==> Size(r.st.w) < Size(w)
  {
    var opc := if s.callback then opcount + 1 else opcount;
    if s.callback && opc >= CallbackOpCount then
      if w.answers == [] then Stop(OutOfScript, State(Top(opc), offset, inPos, w))
      else
        var w1 := Ask(w, NoError, Report(s, offset, inPos), false);
        if w.answers[0] then Stop(Exit(Aborted, 0), State(Top(opc), offset, inPos, w1))
        else ReadStep(s, 0, offset, inPos, w1)
    else ReadStep(s, opc, offset, inPos, w)
  }

  /** An iteration of the write loop: write what is pending, keep the rest. */
  function WriteStep(s: Setup, opcount: nat, pending: seq<byte>, offset: int, inPos: int, w: World): (r: Step)
    requires pending != []
    ensures r.Next? ==> Size(r.st.w) < Size(w)
  {
    if w.calls == [] then Stop(OutOfScript, State(Writing(opcount, pending), offset, inPos, w))
    else
      var io := DoWrite(w, pending);
      if io.count == -1 then Retry(s, WriteError, io.errno, State(Writing(opcount, pending), offset, inPos, io.w))
      else Next(State(Writing(opcount, pending[io.count..]), offset + io.count, inPos, io.w))
  }

  /** One iteration of whichever loop the state is in; an empty write loop falls through to the outer one. */
  function StreamStep(s: Setup, st: State): (r: Step)
    ensures r.Next? ==> Size(r.st.w) < Size(st.w)
  {
    match st.phase
    case Top(opcount) => TopStep(s, opcount, st.offset, st.inPos, st.w)
    case Writing(opcount, pending) =>
      if pending == [] then TopStep(s, opcount, st.offset, st.inPos, st.w)
      else WriteStep(s, opcount, pending, st.offset, st.inPos, st.w)
  }

  /** The reference semantics: iterate until a step stops. */
  function Loop(s: Setup, st: State): (e: Ending)
    decreases Size(st.w)
  {
    match StreamStep(s, st)
    case Stop(out, st') => Ending(out, st')
    case Next(st') => Loop(s, st')
  }

  /** A run from the start: counter 0, offset from the store (or 0), nothing read. */
  function Run(s: Setup, offset: int, w: World): Ending
  {
    Loop(s, State(Top(0), offset, 0, w))
  }

  /** What `*offset_store` holds after the call, when there is one. */
  function Store(offsetStore: Option<int>, offset: int): Option<int>
  {
    if offsetStore.Some? then Some(offset) else None
  }

  function InitialOffset(offsetStore: Option<int>): int
  {
    if offsetStore.Some? then offsetStore.value else 0
  }

  /**
   * The inner loop, `while (rd > 0)`: writes `buf` out in as many pieces as
   * write(2) takes. Either the whole buffer is written and the outer loop goes
   * on (`!stopped`), or the copier stops with `out`, `rest` unwritten.
   */
  method WriteChunk(s: Setup, opcount: nat, buf: seq<byte>, offset0: int, inPos: int, w0: World)
    returns (stopped: bool, out: Out, rest: seq<byte>, offset: int, w: World)
    ensures !stopped ==> Loop(s, State(Writing(opcount, buf), offset0, inPos, w0))
                         == Loop(s, State(Top(opcount), offset, inPos, w))
    ensures stopped ==> Loop(s, State(Writing(opcount, buf), offset0, inPos, w0))
                        == Ending(out, State(Writing(opcount, rest), offset, inPos, w))
    ensures Size(w) <= Size(w0)
  {
    var bufp := 0;
    var rd := |buf|;
    offset, w := offset0, w0;
    while rd > 0
      invariant 0 <= rd && bufp + rd == |buf|
      invariant Loop(s, State(Writing(opcount, buf[bufp..]), offset, inPos, w))
                == Loop(s, State(Writing(opcount, buf), offset0, inPos, w0))
      invariant Size(w) <= Size(w0)
      decreases Size(w)
    {
      ghost var writing := State(Writing(opcount, buf[bufp..]), offset, inPos, w);
      assert StreamStep(s, writing) == WriteStep(s, opcount, buf[bufp..], offset, inPos, w);
      if w.calls == [] {
        return true, OutOfScript, buf[bufp..], offset, w;
      }
      var io := DoWrite(w, buf[bufp..]);
      var wr := io.count;
      w := io.w;
      if wr == -1 {
        var err := WriteError;
        var retry: bool;
        if s.callback {
          if w.answers == [] {
            return true, OutOfScript, buf[bufp..], offset, w;
          }
          retry := !w.answers[0];
          w := Ask(w, err, Report(s, offset, inPos), false);
        } else {
          retry := io.errno == EINTR;
        }
        if retry {
          continue;
        }
        return true, Exit(err, io.errno), buf[bufp..], offset, w;
      }
      assert buf[bufp..][wr..] == buf[bufp + wr..];
      rd := rd - wr;
      bufp := bufp + wr;
      offset := offset + wr;
      assert StreamStep(s, writing) == Next(State(Writing(opcount, buf[bufp..]), offset, inPos, w));
    }
    assert StreamStep(s, State(Writing(opcount, buf[bufp..]), offset, inPos, w))
      == StreamStep(s, State(Top(opcount), offset, inPos, w));
    return false, OutOfScript, [], offset, w;
  }

  /**
   * The outer loop, `while (1)`, and the end-of-file callback, shared by both
   * revisions: `s.legacy` only changes the progress the callback receives.
   * Returns the final offset (progress.data.offset) and bytes read (in_pos).
   */
  method CopyLoop(s: Setup, offset0: int, w0: World) returns (out: Out, offset: int, inPos: int, w: World)
    ensures var e := Run(s, offset0, w0);
      out == e.out && offset == e.st.offset && inPos == e.st.inPos && w == e.st.w
  {
    var opcount: nat := 0;
    offset, inPos, w := offset0, 0, w0;
    ghost var goal := Run(s, offset0, w0);
    while true
      invariant Loop(s, State(Top(opcount), offset, inPos, w)) == goal
      decreases Size(w)
    {
      ghost var top := State(Top(opcount), offset, inPos, w);
      if s.callback {
        opcount := opcount + 1;
        if opcount >= CallbackOpCount {
          if w.answers == [] {
            return OutOfScript, offset, inPos, w;
          }
          var nonzero := w.answers[0];
          w := Ask(w, NoError, Report(s, offset, inPos), false);
          if nonzero {
            return Exit(Aborted, 0), offset, inPos, w;
          }
          opcount := 0;
        }
      }
      assert StreamStep(s, top) == ReadStep(s, opcount, offset, inPos, w);
      if w.calls == [] {
        return OutOfScript, offset, inPos, w;
      }
      ghost var beforeRead := w;
      var io := DoRead(w);
      var rd := io.count;
      w := io.w;
      if rd == -1 {
        var err := ReadError;
        var retry: bool;
        if s.callback {
          if w.answers == [] {
            return OutOfScript, offset, inPos, w;
          }
          retry := !w.answers[0];
          w := Ask(w, err, Report(s, offset, inPos), false);
        } else {
          retry := io.errno == EINTR;
        }
        if retry {
          continue;
        }
        return Exit(err, io.errno), offset, inPos, w;
      } else if rd == 0 {
        break;
      }
      inPos := inPos + rd;
      assert ReadStep(s, opcount, offset, inPos - rd, beforeRead)
        == Next(State(Writing(opcount, io.bytes), offset, inPos, w));
      var stopped, stop, rest;
      stopped, stop, rest, offset, w := WriteChunk(s, opcount, io.bytes, offset, inPos, w);
      if stopped {
        return stop, offset, inPos, w;
      }
    }
    if s.callback {
      if w.answers == [] {
        return OutOfScript, offset, inPos, w;
      }
      var nonzero := w.answers[0];
      w := Ask(w, Eof, Report(s, offset, inPos), false);
      if nonzero {
        return Exit(Aborted, 0), offset, inPos, w;
      }
    }
    return Exit(NoError, 0), offset, inPos, w;
  }

  /**
   * copyfile_copy_stream, current revision (copyfile-copy-stream.c). The
   * offset starts from `*offset_store` when there is one and is stored back on
   * every return.
   */
  method CopyStream(w0: World, offsetStore: Option<int>, expectedSize: int, callback: bool)
    returns (out: Out, stored: Option<int>, w: World)
    ensures var e := Run(Setup(false, callback, expectedSize), InitialOffset(offsetStore), w0);
      out == e.out && w == e.st.w && stored == Store(offsetStore, e.st.offset)
  {
    var offset, inPos;
    out, offset, inPos, w := CopyLoop(Setup(false, callback, expectedSize), InitialOffset(offsetStore), w0);
    stored := Store(offsetStore, offset);
  }

  /** copyfile_copy_stream, older revision (copyfile.c): no offset store; progress is in_pos. */
  method LegacyCopyStream(w0: World, callback: bool) returns (out: Out, w: World)
    ensures var e := Run(Setup(true, callback, 0), 0, w0); out == e.out && w == e.st.w
  {
    var offset, inPos;
    out, offset, inPos, w := CopyLoop(Setup(true, callback, 0), 0, w0);
  }
}
