/**
 * What the stream copier guarantees, stated over the log of a run (`Added`,
 * the events a run appends) and the file system it leaves.
 */
module StreamFacts {
  import opened Common
  import opened Errors
  import opened Env
  import opened Stream

  /** Bytes a logged event wrote to the destination. */
  function WroteBy(ev: Event): nat
  {
    if ev.Did? && ev.call.Write? && ev.reply.Ok? then ev.reply.n else 0
  }

  /** Bytes a logged event took from the source. */
  function ReadBy(ev: Event): nat
  {
    if ev.Did? && ev.call.Read? && ev.reply.Ok? then ev.reply.n else 0
  }

  /** Sum of the counts of the successful writes in `log`. */
  function Written(log: seq<Event>): nat
  {
    if log == [] then 0 else Written(log[..|log| - 1]) + WroteBy(log[|log| - 1])
  }

  /** Sum of the counts of the successful reads in `log`. */
  function BytesRead(log: seq<Event>): nat
  {
    if log == [] then 0 else BytesRead(log[..|log| - 1]) + ReadBy(log[|log| - 1])
  }

  /** Every callback question carried the progress of the moment: bytes written from `offset0`, or bytes read. */
  predicate HonestReports(s: Setup, offset0: int, log: seq<Event>)
  {
    log == [] ||
    var before := log[..|log| - 1];
    var ev := log[|log| - 1];
    && HonestReports(s, offset0, before)
    && (ev.Asked? ==> ev.progress == Report(s, offset0 + Written(before), BytesRead(before)))
  }

  /** Only the contents, the write position and the unread source change. */
  predicate OnlyContents(f0: Fs, f: Fs)
  {
    f.(data := f0.data, dest := f0.dest, pos := f0.pos) == f0
  }

  /**
   * The files after `wrote` bytes were written and `read` bytes read: the
   * destination holds, from the starting position, exactly the first `wrote`
   * bytes of the source; the source has lost exactly the first `read` bytes.
   */
  predicate Holds(f0: Fs, f: Fs, wrote: nat, read: nat)
  {
    && wrote <= read <= |f0.data|
    && f.pos == f0.pos + wrote
    && f.data == f0.data[read..]
    && f.dest == Put(f0.dest, f0.pos, f0.data[..wrote])
    && OnlyContents(f0, f)
  }

  /**
   * The invariant of the copy: the destination holds, from the starting
   * position, exactly the first `Written` bytes of the source; the source has
   * lost exactly the first `BytesRead` bytes; what is read but not written is
   * the pending buffer; the offset and in_pos count those bytes.
   */
  predicate Accounts(s: Setup, w0: World, offset0: int, st: State)
  {
    Extends(w0, st.w) &&
    var log := Added(w0, st.w);
    var wrote := Written(log);
    var read := BytesRead(log);
    var f0 := w0.fs;
    && st.offset == offset0 + wrote
    && st.inPos == read
    && Holds(f0, st.w.fs, wrote, read)
    && HonestReports(s, offset0, log)
    && match st.phase
       case Top(_) => wrote == read
       case Writing(_, pending) => pending == f0.data[wrote..read]
  }

  /** Appending an event keeps the reports honest when a question carries the current counts. */
  lemma ReportsKeep(s: Setup, offset0: int, log: seq<Event>, ev: Event)
    requires HonestReports(s, offset0, log)
    requires ev.Asked? ==> ev.progress == Report(s, offset0 + Written(log), BytesRead(log))
    ensures HonestReports(s, offset0, log + [ev])
  {
    assert (log + [ev])[..|log|] == log;
  }

  lemma AddedSnoc(w0: World, w: World, w': World, ev: Event)
    requires Extends(w0, w) && w'.log == w.log + [ev]
    ensures Extends(w0, w') && Added(w0, w') == Added(w0, w) + [ev]
  {
    assert w'.log[..|w0.log|] == w.log[..|w0.log|];
  }

  /** Appending an event that neither reads nor writes keeps every count. */
  lemma QuietEvent(s: Setup, w0: World, offset0: int, st: State, w': World, ev: Event)
    requires Accounts(s, w0, offset0, st)
    requires w'.log == st.w.log + [ev] && w'.fs == st.w.fs
    requires WroteBy(ev) == 0 && ReadBy(ev) == 0
    requires ev.Asked? ==> ev.progress == Report(s, st.offset, st.inPos)
    ensures Accounts(s, w0, offset0, st.(w := w'))
  {
    AddedSnoc(w0, st.w, w', ev);
    var log := Added(w0, st.w);
    ReportsKeep(s, offset0, log, ev);
    assert (log + [ev])[..|log|] == log;
  }

  lemma RetryAccounts(s: Setup, w0: World, offset0: int, err: CopyError, errno: nat, st: State)
    requires Accounts(s, w0, offset0, st)
    ensures Accounts(s, w0, offset0, Retry(s, err, errno, st).st)
  {
    if s.callback && st.w.answers != [] {
      var ev := Asked(err, Report(s, st.offset, st.inPos), false, st.w.answers[0]);
      QuietEvent(s, w0, offset0, st, Ask(st.w, err, Report(s, st.offset, st.inPos), false), ev);
    }
  }

  lemma EofAccounts(s: Setup, w0: World, offset0: int, st: State)
    requires Accounts(s, w0, offset0, st)
    ensures Accounts(s, w0, offset0, AtEof(s, st).st)
  {
    if s.callback && st.w.answers != [] {
      var ev := Asked(Eof, Report(s, st.offset, st.inPos), false, st.w.answers[0]);
      QuietEvent(s, w0, offset0, st, Ask(st.w, Eof, Report(s, st.offset, st.inPos), false), ev);
    }
  }

  /** A successful read moves the next bytes of the source into the pending buffer. */
  lemma ReadAccounts(s: Setup, w0: World, offset0: int, opcount: nat, offset: int, inPos: int, w: World)
    requires Accounts(s, w0, offset0, State(Top(opcount), offset, inPos, w))
    ensures var r := ReadStep(s, opcount, offset, inPos, w);
      Accounts(s, w0, offset0, r.st)
      && (r.Stop? && r.out == Exit(NoError, 0) ==> r.st.phase.Top? && r.st.w.fs.data == [])
  {
    if w.calls != [] {
      var io := DoRead(w);
      if io.count <= 0 {
        ReadQuiet(s, w0, offset0, opcount, offset, inPos, w);
      } else {
        ReadMoves(s, w0, offset0, opcount, offset, inPos, w);
      }
    }
  }

  /** A failed read or the end of the source leaves the accounts as they were. */
  lemma ReadQuiet(s: Setup, w0: World, offset0: int, opcount: nat, offset: int, inPos: int, w: World)
    requires Accounts(s, w0, offset0, State(Top(opcount), offset, inPos, w))
    requires w.calls != [] && DoRead(w).count <= 0
    ensures var r := ReadStep(s, opcount, offset, inPos, w);
      Accounts(s, w0, offset0, r.st)
      && (r.Stop? && r.out == Exit(NoError, 0) ==> r.st.phase.Top? && r.st.w.fs.data == [])
  {
    var st := State(Top(opcount), offset, inPos, w);
    var io := DoRead(w);
    var ev := io.w.log[|io.w.log| - 1];
    assert io.w.log == w.log + [ev];
    QuietEvent(s, w0, offset0, st, io.w, ev);
    if io.count == -1 {
      RetryAccounts(s, w0, offset0, ReadError, io.errno, st.(w := io.w));
    } else {
      EofAccounts(s, w0, offset0, st.(w := io.w));
    }
  }

  lemma ReadMoves(s: Setup, w0: World, offset0: int, opcount: nat, offset: int, inPos: int, w: World)
    requires Accounts(s, w0, offset0, State(Top(opcount), offset, inPos, w))
    requires w.calls != [] && DoRead(w).count > 0
    ensures var io := DoRead(w);
      Accounts(s, w0, offset0, State(Writing(opcount, io.bytes), offset, inPos + io.count, io.w))
  {
    var io := DoRead(w);
    var log := Added(w0, w);
    var read := BytesRead(log);
    ReadLog(s, w0, offset0, w);
    assert io.w.fs == w.fs.(data := w.fs.data[io.count..]);
    HoldsAfterRead(w0.fs, w.fs, io.w.fs, read, io.count);
    AccountsWriting(s, w0, offset0, State(Writing(opcount, io.bytes), offset, inPos + io.count, io.w), read, read + io.count);
  }

  /** A successful read adds its count to what the log says was read, and nothing to what was written. */
  lemma ReadLog(s: Setup, w0: World, offset0: int, w: World)
    requires Extends(w0, w) && HonestReports(s, offset0, Added(w0, w))
    requires w.calls != [] && DoRead(w).count > 0
    ensures var io := DoRead(w); var log := Added(w0, w);
      && Extends(w0, io.w)
      && Written(Added(w0, io.w)) == Written(log)
      && BytesRead(Added(w0, io.w)) == BytesRead(log) + io.count
      && HonestReports(s, offset0, Added(w0, io.w))
  {
    var io := DoRead(w);
    var ev := Did(Read, Ok(io.count));
    assert io.w.log == w.log + [ev];
    LogCounts(s, w0, offset0, w, io.w, ev);
  }

  /** Appending an event that is not a question adds its counts to the log's, and keeps the reports honest. */
  lemma LogCounts(s: Setup, w0: World, offset0: int, w: World, w': World, ev: Event)
    requires Extends(w0, w) && HonestReports(s, offset0, Added(w0, w))
    requires w'.log == w.log + [ev] && !ev.Asked?
    ensures var log := Added(w0, w);
      && Extends(w0, w')
      && Written(Added(w0, w')) == Written(log) + WroteBy(ev)
      && BytesRead(Added(w0, w')) == BytesRead(log) + ReadBy(ev)
      && HonestReports(s, offset0, Added(w0, w'))
  {
    var log := Added(w0, w);
    AddedSnoc(w0, w, w', ev);
    ReportsKeep(s, offset0, log, ev);
    assert (log + [ev])[..|log|] == log;
  }

  /** Reading the next `k` source bytes when all read bytes are written makes them the pending ones. */
  lemma HoldsAfterRead(f0: Fs, f: Fs, f': Fs, read: nat, k: nat)
    requires Holds(f0, f, read, read) && k <= |f.data|
    requires f' == f.(data := f.data[k..])
    ensures Holds(f0, f', read, read + k) && f.data[..k] == f0.data[read..read + k]
  {
    assert f.data[..k] == f0.data[read..read + k];
    assert f.data[k..] == f0.data[read + k..];
  }

  /** A write of k bytes moves the first k pending bytes into the destination. */
  lemma WriteAccounts(s: Setup, w0: World, offset0: int, opcount: nat, pending: seq<byte>, offset: int, inPos: int, w: World)
    requires pending != []
    requires Accounts(s, w0, offset0, State(Writing(opcount, pending), offset, inPos, w))
    ensures var r := WriteStep(s, opcount, pending, offset, inPos, w);
      Accounts(s, w0, offset0, r.st) && !(r.Stop? && r.out == Exit(NoError, 0))
  {
    if w.calls != [] {
      if DoWrite(w, pending).count == -1 {
        WriteFails(s, w0, offset0, opcount, pending, offset, inPos, w);
      } else {
        WriteMoves(s, w0, offset0, opcount, pending, offset, inPos, w);
      }
    }
  }

  /** A failed write keeps the accounts, and the retry question carries the counts of the moment. */
  lemma WriteFails(s: Setup, w0: World, offset0: int, opcount: nat, pending: seq<byte>, offset: int, inPos: int, w: World)
    requires pending != []
    requires Accounts(s, w0, offset0, State(Writing(opcount, pending), offset, inPos, w))
    requires w.calls != [] && DoWrite(w, pending).count == -1
    ensures var io := DoWrite(w, pending);
      Accounts(s, w0, offset0, Retry(s, WriteError, io.errno, State(Writing(opcount, pending), offset, inPos, io.w)).st)
  {
    var st := State(Writing(opcount, pending), offset, inPos, w);
    var io := DoWrite(w, pending);
    var ev := Did(Write(pending), Fail(io.errno));
    assert io.w.log == w.log + [ev] && io.w.fs == w.fs;
    QuietEvent(s, w0, offset0, st, io.w, ev);
    RetryAccounts(s, w0, offset0, WriteError, io.errno, st.(w := io.w));
  }

  lemma WriteMoves(s: Setup, w0: World, offset0: int, opcount: nat, pending: seq<byte>, offset: int, inPos: int, w: World)
    requires pending != []
    requires Accounts(s, w0, offset0, State(Writing(opcount, pending), offset, inPos, w))
    requires w.calls != [] && DoWrite(w, pending).count >= 0
    ensures var io := DoWrite(w, pending);
      Accounts(s, w0, offset0, State(Writing(opcount, pending[io.count..]), offset + io.count, inPos, io.w))
  {
    var io := DoWrite(w, pending);
    var k := io.count;
    var log := Added(w0, w);
    var wrote := Written(log);
    var read := BytesRead(log);
    WriteLog(s, w0, offset0, pending, w);
    WriteFiles(w0.fs, pending, wrote, read, w);
    AccountsWriting(s, w0, offset0, State(Writing(opcount, pending[k..]), offset + k, inPos, io.w), wrote + k, read);
  }

  /** A successful write adds its count to what the log says was written, and nothing to what was read. */
  lemma WriteLog(s: Setup, w0: World, offset0: int, pending: seq<byte>, w: World)
    requires Extends(w0, w) && HonestReports(s, offset0, Added(w0, w))
    requires w.calls != [] && DoWrite(w, pending).count >= 0
    ensures var io := DoWrite(w, pending); var log := Added(w0, w);
      && Extends(w0, io.w)
      && Written(Added(w0, io.w)) == Written(log) + io.count
      && BytesRead(Added(w0, io.w)) == BytesRead(log)
      && HonestReports(s, offset0, Added(w0, io.w))
  {
    var io := DoWrite(w, pending);
    var ev := Did(Write(pending), Ok(io.count));
    assert io.w.log == w.log + [ev];
    LogCounts(s, w0, offset0, w, io.w, ev);
  }

  /** A successful write of the pending bytes moves them from pending to the destination. */
  lemma WriteFiles(f0: Fs, pending: seq<byte>, wrote: nat, read: nat, w: World)
    requires Holds(f0, w.fs, wrote, read) && pending == f0.data[wrote..read]
    requires w.calls != [] && DoWrite(w, pending).count >= 0
    ensures var io := DoWrite(w, pending); var k := io.count;
      && Holds(f0, io.w.fs, wrote + k, read) && pending[k..] == f0.data[wrote + k..read]
  {
    var io := DoWrite(w, pending);
    var f := w.fs;
    assert io.w.fs == f.(dest := Put(f.dest, f.pos, pending[..io.count]), pos := f.pos + io.count);
    HoldsAfterWrite(f0, f, io.w.fs, pending, wrote, read, io.count);
  }

  /** Writing the first `k` pending bytes at the write position keeps the files' invariant, `k` bytes further on. */
  lemma HoldsAfterWrite(f0: Fs, f: Fs, f': Fs, pending: seq<byte>, wrote: nat, read: nat, k: nat)
    requires Holds(f0, f, wrote, read) && pending == f0.data[wrote..read] && k <= |pending|
    requires f' == f.(dest := Put(f.dest, f.pos, pending[..k]), pos := f.pos + k)
    ensures Holds(f0, f', wrote + k, read) && pending[k..] == f0.data[wrote + k..read]
  {
    assert pending[..k] == f0.data[wrote..wrote + k];
    PutNext(f0.dest, f0.pos, f0.data, wrote, k, f.dest, pending[..k]);
    assert f'.dest == Put(f0.dest, f0.pos, f0.data[..wrote + k]);
    assert pending[k..] == f0.data[wrote + k..read];
  }

  /** The invariant for a writing state, from its parts. */
  lemma AccountsWriting(s: Setup, w0: World, offset0: int, st: State, wrote: nat, read: nat)
    requires st.phase.Writing? && Extends(w0, st.w)
    requires Written(Added(w0, st.w)) == wrote && BytesRead(Added(w0, st.w)) == read
    requires st.offset == offset0 + wrote && st.inPos == read
    requires Holds(w0.fs, st.w.fs, wrote, read) && HonestReports(s, offset0, Added(w0, st.w))
    requires st.phase.pending == w0.fs.data[wrote..read]
    ensures Accounts(s, w0, offset0, st)
  {
  }

  /** Writing the next `k` bytes of `data` after the first `wrote` extends what was written. */
  lemma PutNext(d: seq<byte>, p: nat, data: seq<byte>, wrote: nat, k: nat, d1: seq<byte>, piece: seq<byte>)
    requires wrote + k <= |data| && d1 == Put(d, p, data[..wrote]) && piece == data[wrote..wrote + k]
    ensures Put(d1, p + wrote, piece) == Put(d, p, data[..wrote + k])
  {
    assert data[..wrote] + data[wrote..wrote + k] == data[..wrote + k];
    PutPut(d, p, data[..wrote], data[wrote..wrote + k]);
  }

  lemma TopAccounts(s: Setup, w0: World, offset0: int, opcount: nat, offset: int, inPos: int, w: World)
    requires Accounts(s, w0, offset0, State(Top(opcount), offset, inPos, w))
    ensures var r := TopStep(s, opcount, offset, inPos, w);
      Accounts(s, w0, offset0, r.st)
      && (r.Stop? && r.out == Exit(NoError, 0) ==> r.st.phase.Top? && r.st.w.fs.data == [])
  {
    var st := State(Top(opcount), offset, inPos, w);
    var opc := if s.callback then opcount + 1 else opcount;
    if s.callback && opc >= CallbackOpCount {
      if w.answers != [] {
        var w1 := Ask(w, NoError, Report(s, offset, inPos), false);
        QuietEvent(s, w0, offset0, st, w1, Asked(NoError, Report(s, offset, inPos), false, w.answers[0]));
        if !w.answers[0] {
          ReadAccounts(s, w0, offset0, 0, offset, inPos, w1);
        }
      }
    } else {
      ReadAccounts(s, w0, offset0, opc, offset, inPos, w);
    }
  }

  lemma StepAccounts(s: Setup, w0: World, offset0: int, st: State)
    requires Accounts(s, w0, offset0, st)
    ensures var r := StreamStep(s, st);
      Accounts(s, w0, offset0, r.st)
      && (r.Stop? && r.out == Exit(NoError, 0) ==> r.st.phase.Top? && r.st.w.fs.data == [])
  {
    match st.phase
    case Top(opcount) => TopAccounts(s, w0, offset0, opcount, st.offset, st.inPos, st.w);
    case Writing(opcount, pending) =>
      if pending == [] {
        TopAccounts(s, w0, offset0, opcount, st.offset, st.inPos, st.w);
      } else {
        WriteAccounts(s, w0, offset0, opcount, pending, st.offset, st.inPos, st.w);
      }
  }

  lemma {:induction false} LoopAccounts(s: Setup, w0: World, offset0: int, st: State)
    requires Accounts(s, w0, offset0, st)
    ensures var e := Loop(s, st);
      Accounts(s, w0, offset0, e.st)
      && (e.out == Exit(NoError, 0) ==> e.st.phase.Top? && e.st.w.fs.data == [])
    decreases Size(st.w)
  {
    StepAccounts(s, w0, offset0, st);
    match StreamStep(s, st)
    case Stop(out, st') =>
    case Next(st') => LoopAccounts(s, w0, offset0, st');
  }

  /**
   * On every return (end of file, failed read or write, abort): the offset has
   * grown by exactly the bytes written and the write position with it; the
   * destination holds, from the starting position, the first that-many bytes
   * of the source, in order; the source lost exactly the bytes read; every
   * progress report was the count of the moment. Nothing else changed.
   */
  lemma StreamAccounting(s: Setup, offset0: int, w0: World)
    ensures var e := Run(s, offset0, w0);
      Extends(w0, e.st.w) &&
      var log := Added(w0, e.st.w);
      var f0 := w0.fs;
      var f := e.st.w.fs;
      && e.st.offset == offset0 + Written(log)
      && f.pos == f0.pos + Written(log)
      && e.st.inPos == BytesRead(log)
      && Written(log) <= BytesRead(log) <= |f0.data|
      && f.dest == Put(f0.dest, f0.pos, f0.data[..Written(log)])
      && f.data == f0.data[BytesRead(log)..]
      && OnlyContents(f0, f)
      && HonestReports(s, offset0, log)
  {
    var st := State(Top(0), offset0, 0, w0);
    assert Added(w0, w0) == [];
    LoopAccounts(s, w0, offset0, st);
  }

  /**
   * The headline property: a copy that returns NO_ERROR has written the whole
   * source, in order, from the destination's starting position; the source is
   * exhausted; the offset ends at its start plus the source length, and the
   * older revision's in_pos at the source length.
   */
  lemma StreamCopiesInput(s: Setup, offset0: int, w0: World)
    ensures var e := Run(s, offset0, w0);
      e.out == Exit(NoError, 0) ==>
        && e.st.w.fs.dest == Put(w0.fs.dest, w0.fs.pos, w0.fs.data)
        && e.st.w.fs.pos == w0.fs.pos + |w0.fs.data|
        && e.st.w.fs.data == []
        && e.st.offset == offset0 + |w0.fs.data|
        && e.st.inPos == |w0.fs.data|
  {
    var st := State(Top(0), offset0, 0, w0);
    assert Added(w0, w0) == [];
    LoopAccounts(s, w0, offset0, st);
    var e := Run(s, offset0, w0);
    if e.out == Exit(NoError, 0) {
      assert w0.fs.data[..|w0.fs.data|] == w0.fs.data;
    }
  }
}
