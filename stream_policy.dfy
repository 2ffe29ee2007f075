/**
 * The control policy of the stream copier: how each return looks in the log,
 * when a failed call is retried, the cadence of the periodic callback, and
 * what a destination that keeps accepting nothing does to the write loop.
 */
module StreamPolicy {
  import opened Common
  import opened Errors
  import opened Env
  import opened Stream

  /** A call to read(2). */
  predicate IsRead(ev: Event)
  {
    ev.Did? && ev.call.Read?
  }

  /** A call to write(2). */
  predicate IsWrite(ev: Event)
  {
    ev.Did? && ev.call.Write?
  }

  /**
   * The events a return with `err`/`errno` leaves at the end of the log:
   * NO_ERROR after end of file (and the EOF question answered 0); ABORTED
   * only after a nonzero answer to the periodic or the EOF question; READ or
   * WRITE with the errno of the failed call, after the callback answered
   * nonzero or, without one, when the errno is not EINTR.
   */
  predicate ExitShape(s: Setup, log: seq<Event>, err: CopyError, errno: int)
  {
    log != [] &&
    var last := log[|log| - 1];
    match err
    case NoError =>
      errno == 0 &&
      if s.callback then last.Asked? && last.state == Eof && !last.answer && !last.fatal
      else last == Did(Read, Ok(0))
    case Aborted =>
      errno == 0 && s.callback && last.Asked? && last.answer && !last.fatal
      && (last.state == NoError || last.state == Eof)
    case ReadError => FailedAndGaveUp(s, log, ReadError, errno) && IsRead(FailedCall(s, log))
    case WriteError => FailedAndGaveUp(s, log, WriteError, errno) && IsWrite(FailedCall(s, log))
    case _ => false
  }

  /** The failed call a READ or WRITE return reports: the last event, or the one before the callback's answer. */
  function FailedCall(s: Setup, log: seq<Event>): Event
    requires log != []
  {
    if s.callback && |log| >= 2 then log[|log| - 2] else log[|log| - 1]
  }

  predicate FailedAndGaveUp(s: Setup, log: seq<Event>, err: CopyError, errno: int)
    requires log != []
  {
    var last := log[|log| - 1];
    var failed := FailedCall(s, log);
    failed.Did? && failed.reply.Fail? && failed.reply.errno == errno &&
    if s.callback then |log| >= 2 && last.Asked? && last.state == err && last.answer && !last.fatal
    else errno != EINTR
  }

  lemma RetryShape(s: Setup, err: CopyError, st: State, call: Call)
    requires st.w.log != [] && st.w.log[|st.w.log| - 1].Did?
    requires var last := st.w.log[|st.w.log| - 1]; last.call == call && last.reply.Fail?
    requires err == ReadError ==> call.Read?
    requires err == WriteError ==> call.Write?
    requires err == ReadError || err == WriteError
    ensures var errno := st.w.log[|st.w.log| - 1].reply.errno;
      var r := Retry(s, err, errno, st);
      r.Stop? && r.out.Exit? ==> r.out == Exit(err, errno) && ExitShape(s, r.st.w.log, err, errno)
  {
  }

  lemma EofShape(s: Setup, st: State)
    requires st.w.log != [] && st.w.log[|st.w.log| - 1] == Did(Read, Ok(0))
    ensures var r := AtEof(s, st);
      r.out.Exit? ==> ExitShape(s, r.st.w.log, r.out.err, r.out.errno)
  {
  }

  lemma ReadShape(s: Setup, opcount: nat, offset: int, inPos: int, w: World)
    ensures var r := ReadStep(s, opcount, offset, inPos, w);
      r.Stop? && r.out.Exit? ==> ExitShape(s, r.st.w.log, r.out.err, r.out.errno)
  {
    if w.calls != [] {
      var io := DoRead(w);
      var st := State(Top(opcount), offset, inPos, io.w);
      if io.count == -1 {
        assert io.w.log == w.log + [Did(Read, Fail(io.errno))];
        RetryShape(s, ReadError, st, Read);
      } else if io.count == 0 {
        assert io.w.log == w.log + [Did(Read, Ok(0))];
        EofShape(s, st);
      }
    }
  }

  lemma TopShape(s: Setup, opcount: nat, offset: int, inPos: int, w: World)
    ensures var r := TopStep(s, opcount, offset, inPos, w);
      r.Stop? && r.out.Exit? ==> ExitShape(s, r.st.w.log, r.out.err, r.out.errno)
  {
    var opc := if s.callback then opcount + 1 else opcount;
    if s.callback && opc >= CallbackOpCount {
      if w.answers != [] && !w.answers[0] {
        ReadShape(s, 0, offset, inPos, Ask(w, NoError, Report(s, offset, inPos), false));
      }
    } else {
      ReadShape(s, opc, offset, inPos, w);
    }
  }

  lemma WriteShape(s: Setup, opcount: nat, pending: seq<byte>, offset: int, inPos: int, w: World)
    requires pending != []
    ensures var r := WriteStep(s, opcount, pending, offset, inPos, w);
      r.Stop? && r.out.Exit? ==> ExitShape(s, r.st.w.log, r.out.err, r.out.errno)
  {
    if w.calls != [] {
      var io := DoWrite(w, pending);
      if io.count == -1 {
        assert io.w.log == w.log + [Did(Write(pending), Fail(io.errno))];
        RetryShape(s, WriteError, State(Writing(opcount, pending), offset, inPos, io.w), Write(pending));
      }
    }
  }

  lemma StepShape(s: Setup, st: State)
    ensures var r := StreamStep(s, st);
      r.Stop? && r.out.Exit? ==> ExitShape(s, r.st.w.log, r.out.err, r.out.errno)
  {
    match st.phase
    case Top(opcount) => TopShape(s, opcount, st.offset, st.inPos, st.w);
    case Writing(opcount, pending) =>
      if pending == [] {
        TopShape(s, opcount, st.offset, st.inPos, st.w);
      } else {
        WriteShape(s, opcount, pending, st.offset, st.inPos, st.w);
      }
  }

  lemma {:induction false} LoopShape(s: Setup, st: State)
    ensures var e := Loop(s, st);
      e.out.Exit? ==> ExitShape(s, e.st.w.log, e.out.err, e.out.errno)
    decreases Size(st.w)
  {
    StepShape(s, st);
    match StreamStep(s, st)
    case Stop(_, _) =>
    case Next(st') => LoopShape(s, st');
  }

  /**
   * Every return of either stream copier is one of NO_ERROR, ABORTED, READ
   * or WRITE, and the log ends as `ExitShape` describes: a READ or WRITE
   * return carries the errno of the failed call and, without a callback,
   * that errno is not EINTR; ABORTED needs a callback that answered nonzero.
   */
  lemma StreamExit(s: Setup, offset: int, w: World)
    ensures var e := Run(s, offset, w);
      e.out.Exit? ==>
        && e.out.err in {NoError, Aborted, ReadError, WriteError}
        && ExitShape(s, e.st.w.log, e.out.err, e.out.errno)
  {
    LoopShape(s, State(Top(0), offset, 0, w));
  }

  /** A failed read is retried iff the callback answers 0 or, without a callback, iff errno is EINTR. */
  lemma ReadRetryPolicy(s: Setup, opcount: nat, offset: int, inPos: int, w: World)
    requires w.calls != [] && w.calls[0].Fail?
    requires s.callback ==> w.answers != []
    ensures var r := ReadStep(s, opcount, offset, inPos, w);
      && (r.Next? <==> if s.callback then !w.answers[0] else w.calls[0].errno == EINTR)
      && (r.Next? ==> r.st.phase == Top(opcount) && r.st.offset == offset && r.st.inPos == inPos)
      && (r.Stop? ==> r.out == Exit(ReadError, w.calls[0].errno))
  {
  }

  /** A failed write is retried (the same bytes again) iff the callback answers 0 or, without one, iff errno is EINTR. */
  lemma WriteRetryPolicy(s: Setup, opcount: nat, pending: seq<byte>, offset: int, inPos: int, w: World)
    requires pending != []
    requires w.calls != [] && w.calls[0].Fail?
    requires s.callback ==> w.answers != []
    ensures var r := WriteStep(s, opcount, pending, offset, inPos, w);
      && (r.Next? <==> if s.callback then !w.answers[0] else w.calls[0].errno == EINTR)
      && (r.Next? ==> r.st.phase == Writing(opcount, pending) && r.st.offset == offset)
      && (r.Stop? ==> r.out == Exit(WriteError, w.calls[0].errno))
  {
  }

  /** A short write is not an error: the unwritten suffix stays pending and the offset grows by the count. */
  lemma ShortWrite(s: Setup, opcount: nat, pending: seq<byte>, offset: int, inPos: int, w: World)
    requires pending != []
    requires w.calls != [] && w.calls[0].Ok?
    ensures var r := WriteStep(s, opcount, pending, offset, inPos, w);
      var k := Min(w.calls[0].n, |pending|);
      && r.Next?
      && r.st.phase == Writing(opcount, pending[k..])
      && r.st.offset == offset + k
      && r.st.w.fs.dest == Put(w.fs.dest, w.fs.pos, pending[..k])
  {
  }

  /** Calls to read(2) in `log`. */
  function Reads(log: seq<Event>): nat
  {
    if log == [] then 0 else Reads(log[..|log| - 1]) + (if IsRead(log[|log| - 1]) then 1 else 0)
  }

  /** Periodic callback questions (state NO_ERROR) in `log`. */
  function Ticks(log: seq<Event>): nat
  {
    if log == [] then 0
    else Ticks(log[..|log| - 1]) + (if log[|log| - 1].Asked? && log[|log| - 1].state == NoError then 1 else 0)
  }

  /**
   * The periodic callback keeps time with the iterations: it is asked after
   * every 63 + 64k reads and only then, and every read is preceded by as many
   * questions as 64-iteration periods have begun.
   */
  predicate Cadence(log: seq<Event>)
  {
    log == [] ||
    var before := log[..|log| - 1];
    var ev := log[|log| - 1];
    && Cadence(before)
    && (IsRead(ev) ==> Ticks(before) == (Reads(before) + 1) / CallbackOpCount)
    && (ev.Asked? && ev.state == NoError ==>
          Reads(before) % CallbackOpCount == CallbackOpCount - 1 && Ticks(before) == Reads(before) / CallbackOpCount)
  }

  /** `w` is a later state of `w0`: its log extends `w0`'s. */
  predicate Later(w0: World, w: World)
  {
    |w0.log| <= |w.log| && w.log[..|w0.log|] == w0.log
  }

  /** The events since `w0`. */
  function Since(w0: World, w: World): seq<Event>
    requires Later(w0, w)
  {
    w.log[|w0.log|..]
  }

  /** What the cadence lemmas carry from step to step: the counter is the reads since the last question. */
  predicate Counted(w0: World, st: State)
  {
    Later(w0, st.w) &&
    var log := Since(w0, st.w);
    && st.phase.opcount < CallbackOpCount
    && Reads(log) == CallbackOpCount * Ticks(log) + st.phase.opcount
    && Cadence(log)
  }

  /** After a step: a running state is `Counted`, and any state keeps the cadence. */
  predicate Stepped(w0: World, r: Step)
  {
    Later(w0, r.st.w) && Cadence(Since(w0, r.st.w)) && (r.Next? ==> Counted(w0, r.st))
  }

  lemma Snoc(w0: World, w: World, w': World, ev: Event)
    requires Later(w0, w) && w'.log == w.log + [ev]
    ensures Later(w0, w') && Since(w0, w') == Since(w0, w) + [ev]
    ensures (Since(w0, w) + [ev])[..|Since(w0, w)|] == Since(w0, w)
  {
    assert w'.log[..|w0.log|] == w.log[..|w0.log|];
  }

  /** An event that is neither a read nor a periodic question keeps the counts. */
  lemma CalmEvent(w0: World, st: State, w': World, ev: Event)
    requires Counted(w0, st)
    requires w'.log == st.w.log + [ev]
    requires !IsRead(ev) && !(ev.Asked? && ev.state == NoError)
    ensures Counted(w0, st.(w := w'))
  {
    Snoc(w0, st.w, w', ev);
  }

  lemma RetryCounted(s: Setup, w0: World, err: CopyError, errno: nat, st: State)
    requires Counted(w0, st) && err != NoError
    ensures Stepped(w0, Retry(s, err, errno, st))
  {
    if s.callback && st.w.answers != [] {
      CalmEvent(w0, st, Ask(st.w, err, Report(s, st.offset, st.inPos), false),
        Asked(err, Report(s, st.offset, st.inPos), false, st.w.answers[0]));
    }
  }

  lemma EofCounted(s: Setup, w0: World, st: State)
    requires Counted(w0, st)
    ensures Stepped(w0, AtEof(s, st))
  {
    if s.callback && st.w.answers != [] {
      CalmEvent(w0, st, Ask(st.w, Eof, Report(s, st.offset, st.inPos), false),
        Asked(Eof, Report(s, st.offset, st.inPos), false, st.w.answers[0]));
    }
  }

  /** The read of an iteration whose counter is now `opc`; the read brings the reads to the count the counter says. */
  lemma ReadCounted(s: Setup, w0: World, opc: nat, offset: int, inPos: int, w: World)
    requires Later(w0, w) && Cadence(Since(w0, w)) && opc < CallbackOpCount
    requires Reads(Since(w0, w)) + 1 == CallbackOpCount * Ticks(Since(w0, w)) + opc
    ensures Stepped(w0, ReadStep(s, opc, offset, inPos, w))
  {
    if w.calls != [] {
      var io := DoRead(w);
      ReadLogged(w0, opc, offset, inPos, w);
      var st := State(Top(opc), offset, inPos, io.w);
      if io.count == -1 {
        RetryCounted(s, w0, ReadError, io.errno, st);
      } else if io.count == 0 {
        EofCounted(s, w0, st);
      } else {
        assert Counted(w0, State(Writing(opc, io.bytes), offset, inPos + io.count, io.w));
      }
    }
  }

  /** The read itself brings the reads to the count the counter says, in the cadence. */
  lemma ReadLogged(w0: World, opc: nat, offset: int, inPos: int, w: World)
    requires Later(w0, w) && Cadence(Since(w0, w)) && opc < CallbackOpCount
    requires Reads(Since(w0, w)) + 1 == CallbackOpCount * Ticks(Since(w0, w)) + opc
    requires w.calls != []
    ensures Counted(w0, State(Top(opc), offset, inPos, DoRead(w).w))
  {
    var io := DoRead(w);
    var ev := Did(Read, if io.count == -1 then Fail(io.errno) else Ok(io.count));
    assert io.w.log == w.log + [ev];
    ReadEvent(w0, opc, offset, inPos, w, io.w, ev);
  }

  /** Appending a read at the count the counter says keeps the cadence and the counter. */
  lemma ReadEvent(w0: World, opc: nat, offset: int, inPos: int, w: World, w': World, ev: Event)
    requires Later(w0, w) && Cadence(Since(w0, w)) && opc < CallbackOpCount
    requires Reads(Since(w0, w)) + 1 == CallbackOpCount * Ticks(Since(w0, w)) + opc
    requires w'.log == w.log + [ev] && IsRead(ev)
    ensures Counted(w0, State(Top(opc), offset, inPos, w'))
  {
    var log := Since(w0, w);
    Period(Reads(log) + 1, Ticks(log), opc);
    Snoc(w0, w, w', ev);
    assert Reads(log + [ev]) == Reads(log) + 1;
    assert Ticks(log + [ev]) == Ticks(log);
  }

  lemma TopCounted(s: Setup, w0: World, opcount: nat, offset: int, inPos: int, w: World)
    requires s.callback
    requires Counted(w0, State(Top(opcount), offset, inPos, w))
    ensures Stepped(w0, TopStep(s, opcount, offset, inPos, w))
  {
    if opcount + 1 >= CallbackOpCount {
      if w.answers != [] {
        TickCounted(s, w0, opcount, offset, inPos, w);
      }
    } else {
      ReadCounted(s, w0, opcount + 1, offset, inPos, w);
    }
  }

  /** TopCounted when the periodic question is due and there is an answer. */
  lemma TickCounted(s: Setup, w0: World, opcount: nat, offset: int, inPos: int, w: World)
    requires s.callback && opcount + 1 >= CallbackOpCount && w.answers != []
    requires Counted(w0, State(Top(opcount), offset, inPos, w))
    ensures Stepped(w0, TopStep(s, opcount, offset, inPos, w))
  {
    var w1 := Ask(w, NoError, Report(s, offset, inPos), false);
    TickLogged(s, w0, opcount, offset, inPos, w);
    if !w.answers[0] {
      ReadCounted(s, w0, 0, offset, inPos, w1);
    }
  }

  /** A count of 64 t + o with o below 64 lies in period t. */
  lemma Period(n: nat, t: nat, o: nat)
    requires o < CallbackOpCount && n == CallbackOpCount * t + o
    ensures n / CallbackOpCount == t
  {
  }

  /** The periodic question comes after the 64th read since the last one, and starts a new period. */
  lemma TickLogged(s: Setup, w0: World, opcount: nat, offset: int, inPos: int, w: World)
    requires Counted(w0, State(Top(opcount), offset, inPos, w))
    requires opcount + 1 >= CallbackOpCount && w.answers != []
    ensures var w1 := Ask(w, NoError, Report(s, offset, inPos), false);
      && Later(w0, w1) && Cadence(Since(w0, w1))
      && Reads(Since(w0, w1)) + 1 == CallbackOpCount * Ticks(Since(w0, w1))
  {
    var log := Since(w0, w);
    var ev := Asked(NoError, Report(s, offset, inPos), false, w.answers[0]);
    var w1 := Ask(w, NoError, Report(s, offset, inPos), false);
    Snoc(w0, w, w1, ev);
    assert Reads(log + [ev]) == Reads(log);
    assert Ticks(log + [ev]) == Ticks(log) + 1;
    assert Reads(log) % CallbackOpCount == CallbackOpCount - 1 && Ticks(log) == Reads(log) / CallbackOpCount;
    assert Cadence(log + [ev]);
  }

  lemma WriteCounted(s: Setup, w0: World, opcount: nat, pending: seq<byte>, offset: int, inPos: int, w: World)
    requires pending != []
    requires Counted(w0, State(Writing(opcount, pending), offset, inPos, w))
    ensures Stepped(w0, WriteStep(s, opcount, pending, offset, inPos, w))
  {
    if w.calls != [] {
      var io := DoWrite(w, pending);
      var ev := Did(Write(pending), if io.count == -1 then Fail(io.errno) else Ok(io.count));
      assert io.w.log == w.log + [ev];
      var st := State(Writing(opcount, pending), offset, inPos, w);
      CalmEvent(w0, st, io.w, ev);
      if io.count == -1 {
        RetryCounted(s, w0, WriteError, io.errno, st.(w := io.w));
      }
    }
  }

  lemma StepCounted(s: Setup, w0: World, st: State)
    requires s.callback && Counted(w0, st)
    ensures Stepped(w0, StreamStep(s, st))
  {
    match st.phase
    case Top(opcount) => TopCounted(s, w0, opcount, st.offset, st.inPos, st.w);
    case Writing(opcount, pending) =>
      if pending == [] {
        TopCounted(s, w0, opcount, st.offset, st.inPos, st.w);
      } else {
        WriteCounted(s, w0, opcount, pending, st.offset, st.inPos, st.w);
      }
  }

  lemma {:induction false} LoopCounted(s: Setup, w0: World, st: State)
    requires s.callback && Counted(w0, st)
    ensures Later(w0, Loop(s, st).st.w) && Cadence(Since(w0, Loop(s, st).st.w))
    decreases Size(st.w)
  {
    StepCounted(s, w0, st);
    match StreamStep(s, st)
    case Stop(_, _) =>
    case Next(st') => LoopCounted(s, w0, st');
  }

  /**
   * With a callback, the periodic question (state NO_ERROR) comes exactly
   * once every CallbackOpCount iterations of the outer loop, each of which
   * makes one read: before the read that begins a new period of 64, and at
   * no other time.
   */
  lemma StreamCadence(s: Setup, offset: int, w: World)
    requires s.callback
    ensures var e := Run(s, offset, w);
      Later(w, e.st.w) && Cadence(Since(w, e.st.w))
  {
    assert Since(w, w) == [];
    LoopCounted(s, w, State(Top(0), offset, 0, w));
  }

  /** Writes that all succeed with count 0 make no progress; the write loop then never returns. */
  lemma {:induction false} ZeroWritesNeverReturn(s: Setup, opcount: nat, pending: seq<byte>, offset: int, inPos: int, w: World)
    requires pending != []
    requires forall i :: 0 <= i < |w.calls| ==> w.calls[i] == Ok(0)
    ensures Loop(s, State(Writing(opcount, pending), offset, inPos, w)).out == OutOfScript
    decreases |w.calls|
  {
    var st := State(Writing(opcount, pending), offset, inPos, w);
    if w.calls != [] {
      var io := DoWrite(w, pending);
      assert io.count == 0 && pending[0..] == pending;
      assert StreamStep(s, st) == Next(State(Writing(opcount, pending), offset, inPos, io.w));
      assert io.w.calls == w.calls[1..];
      ZeroWritesNeverReturn(s, opcount, pending, offset, inPos, io.w);
    }
  }
}
