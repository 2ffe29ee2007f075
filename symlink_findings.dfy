/**
 * Two defects of copyfile_copy_symlink, each modelled as written next to the
 * corrected behaviour the rest of the model uses.
 *
 * The heap phase decides whether to retry a failed readlink or symlink with
 * `!callback && callback(...)`: with a callback the test is false without
 * asking, so the call is retried for ever; without one the null callback is
 * called. The stack phase and the allocation failure use `!callback ||
 * callback(...)` and `callback && !callback(...)`, the intended policy.
 *
 * try_copy_symlink terminates the target with `buf[rd + 1] = 0`: the byte at
 * `rd`, which readlink left untouched, becomes part of the target unless it
 * happens to be 0, and when `rd` is one below the buffer size the write lands
 * past the buffer. The intended terminator is `buf[rd] = 0`.
 */
module SymlinkFindings {
  import opened Common
  import opened Errors
  import opened Env
  import opened Symlink
  import SymlinkFacts

  /** The heap phase as written: it returns, or it calls a null callback. */
  datatype AsWritten = Returns(d: Done) | CallsNull(w: World)

  /** The heap phase with the retry test of the C code. */
  function HeapLoopAsWritten(q: Request, size: nat, w: World): (r: AsWritten)
    decreases Size(w)
  {
    if w.calls == [] then Returns(Done(OutOfScript, w))
    else if w.calls[0].Fail? then
      var errno := w.calls[0].errno;
      var w1 := Invoke(w, Alloc(size));
      if !q.callback then Returns(Done(Exit(MallocError, errno), w1))
      else if w1.answers == [] then Returns(Done(OutOfScript, w1))
      else
        var w2 := Ask(w1, MallocError, Pending(q), false);
        if w1.answers[0] then Returns(Done(Exit(MallocError, errno), w2)) else HeapLoopAsWritten(q, size, w2)
    else
      match TryCopy(q, size, Invoke(w, Alloc(size)))
      case Untried(w2) => Returns(Done(OutOfScript, w2))
      case Tried(ret, errno, w2) =>
        if ret == NoError then Returns(Created(q, w2))
        else if ret == Eof then
          if size != MaxSize then HeapLoopAsWritten(q, Grown(size), w2)
          else Returns(Done(Exit(SymlinkTargetTooLong, 0), w2))
        else if !q.callback then CallsNull(w2)
        else HeapLoopAsWritten(q, size, w2)
  }

  /** The callback is asked nothing but allocation failures and the created target. */
  predicate NoErrorQuestions(log: seq<Event>)
  {
    forall i :: 0 <= i < |log| && log[i].Asked? ==> log[i].state in {MallocError, Eof}
  }

  lemma QuestionsJoin(a: seq<Event>, b: seq<Event>)
    requires NoErrorQuestions(a) && NoErrorQuestions(b)
    ensures NoErrorQuestions(a + b)
  {
    var ab := a + b;
    forall i | 0 <= i < |ab| && ab[i].Asked?
      ensures ab[i].state in {MallocError, Eof}
    {
      if i >= |a| { assert ab[i] == b[i - |a|]; }
    }
  }

  /**
   * As written, with a callback the heap phase never returns READLINK or
   * SYMLINK and never asks the callback about them: whatever the callback
   * would answer, a failing call is retried.
   */
  lemma {:induction false} AsWrittenNeverAsks(q: Request, size: nat, w: World)
    requires q.callback
    ensures var r := HeapLoopAsWritten(q, size, w);
      && r.Returns?
      && !(r.d.out.Exit? && r.d.out.err in {ReadlinkError, SymlinkError})
      && |w.log| <= |r.d.w.log| && r.d.w.log[..|w.log|] == w.log
      && NoErrorQuestions(r.d.w.log[|w.log|..])
    decreases Size(w), 1
  {
    var r := HeapLoopAsWritten(q, size, w);
    if w.calls == [] {
      assert r.d.w.log[|w.log|..] == [];
    } else {
      var w1 := Invoke(w, Alloc(size));
      var first := [Did(Alloc(size), w.calls[0])];
      assert NoErrorQuestions(first);
      if w.calls[0].Fail? {
        if w1.answers == [] {
          assert r.d.w.log[|w.log|..] == first;
        } else {
          var w2 := Ask(w1, MallocError, Pending(q), false);
          var asked := first + [Asked(MallocError, Pending(q), false, w1.answers[0])];
          assert NoErrorQuestions(asked);
          assert w2.log == w.log + asked;
          if w1.answers[0] {
            assert r.d.w.log[|w.log|..] == asked;
          } else {
            AsWrittenNeverAsks(q, size, w2);
            Split(w.log, asked, r.d.w.log);
            QuestionsJoin(asked, r.d.w.log[|w2.log|..]);
          }
        }
      } else {
        AsWrittenAfterAlloc(q, size, w);
      }
    }
  }

  /** AsWrittenNeverAsks after a successful allocation. */
  lemma {:induction false} AsWrittenAfterAlloc(q: Request, size: nat, w: World)
    requires q.callback && w.calls != [] && w.calls[0].Ok?
    ensures var r := HeapLoopAsWritten(q, size, w);
      && r.Returns?
      && !(r.d.out.Exit? && r.d.out.err in {ReadlinkError, SymlinkError})
      && |w.log| <= |r.d.w.log| && r.d.w.log[..|w.log|] == w.log
      && NoErrorQuestions(r.d.w.log[|w.log|..])
    decreases Size(w), 0
  {
    var r := HeapLoopAsWritten(q, size, w);
    var w1 := Invoke(w, Alloc(size));
    var t := TryCopy(q, size, w1);
    var added := t.w.log[|w.log|..];
    TryQuiet(q, size, w);
    if t.Untried? {
    } else if t.ret == NoError {
      if w.answers != [] {
        var last := [Asked(Eof, LinkTarget(q.expected, Some(t.w.fs.target)), false, t.w.answers[0])];
        assert r.d.w.log == t.w.log + last;
        Split(w.log, added, r.d.w.log);
        QuestionsJoin(added, last);
      }
    } else if t.ret == Eof && size != MaxSize {
      AsWrittenNeverAsks(q, Grown(size), t.w);
      Split(w.log, added, r.d.w.log);
      QuestionsJoin(added, r.d.w.log[|t.w.log|..]);
    } else if t.ret != Eof {
      AsWrittenNeverAsks(q, size, t.w);
      Split(w.log, added, r.d.w.log);
      QuestionsJoin(added, r.d.w.log[|t.w.log|..]);
    }
  }

  /** The allocation and one try add calls only, no question. */
  lemma TryQuiet(q: Request, size: nat, w: World)
    requires w.calls != []
    ensures var t := TryCopy(q, size, Invoke(w, Alloc(size)));
      && |w.log| <= |t.w.log| && t.w.log == w.log + t.w.log[|w.log|..]
      && NoErrorQuestions(t.w.log[|w.log|..])
  {
    var t := TryCopy(q, size, Invoke(w, Alloc(size)));
    var added := t.w.log[|w.log|..];
    assert t.w.log == w.log + added by {
      assert t.w.log[..|w.log|] == w.log;
    }
    assert forall i :: 0 <= i < |added| ==> added[i].Did?;
  }

  /** A log that extends `log + a` splits after `log` into `a` and the rest. */
  lemma Split(log: seq<Event>, a: seq<Event>, whole: seq<Event>)
    requires |log + a| <= |whole| && whole[..|log + a|] == log + a
    ensures |log| <= |whole| && whole[..|log|] == log
    ensures whole[|log|..] == a + whole[|log + a|..]
  {
    assert whole[..|log|] == (log + a)[..|log|];
  }

  /** The script that shows the defect: the allocation succeeds, readlink fails with EACCES, the callback would say stop. */
  function Witness(q: Request): World
  {
    World([Ok(0), Fail(EACCES)], [true], [], Fs([], [], 0, "target", Snapshot(0, 0, 0, 0, 0, Time(0, 0), Time(0, 0)), [], map[]))
  }

  /**
   * On that script the corrected heap phase asks the callback and returns
   * READLINK with EACCES; the code as written never asks, retries readlink and
   * has not returned when the script ends.
   */
  lemma HeapRetryCounterexample(q: Request)
    requires q.callback && q.expected >= BufferSize
    ensures HeapLoop(q, FirstHeapSize(q.expected), Witness(q)).out == Exit(ReadlinkError, EACCES)
    ensures HeapLoopAsWritten(q, FirstHeapSize(q.expected), Witness(q)) == Returns(Done(OutOfScript, Invoke(Invoke(Witness(q), Alloc(FirstHeapSize(q.expected))), Readlink(q.source, FirstHeapSize(q.expected)))))
  {
  }

  /** Without a callback the code as written calls the null callback as soon as readlink fails. */
  lemma NullCallbackCounterexample(q: Request, size: nat)
    requires !q.callback
    ensures HeapLoopAsWritten(q, size, Witness(q)).CallsNull?
    ensures HeapLoop(q, size, Witness(q)).out == Exit(ReadlinkError, EACCES)
  {
  }

  /** The corrected heap phase returns READLINK or SYMLINK only as ErrorAsked says. */
  lemma {:induction false} HeapErrorsAsked(q: Request, size: nat, w: World)
    ensures SymlinkFacts.ErrorAsked(q, HeapLoop(q, size, w))
    decreases Size(w), 1
  {
    if w.calls != [] {
      if w.calls[0].Fail? {
        AllocFailAsked(q, size, w);
      } else {
        TriedAsked(q, size, w);
      }
    }
  }

  /** HeapErrorsAsked when the allocation fails. */
  lemma {:induction false} AllocFailAsked(q: Request, size: nat, w: World)
    requires w.calls != [] && w.calls[0].Fail?
    ensures SymlinkFacts.ErrorAsked(q, HeapLoop(q, size, w))
    decreases Size(w), 0
  {
    var w1 := Invoke(w, Alloc(size));
    if q.callback && w1.answers != [] && !w1.answers[0] {
      HeapErrorsAsked(q, size, Ask(w1, MallocError, Pending(q), false));
    }
  }

  /** HeapErrorsAsked when the allocation succeeds and the copy is tried. */
  lemma {:induction false} TriedAsked(q: Request, size: nat, w: World)
    requires w.calls != [] && w.calls[0].Ok?
    ensures SymlinkFacts.ErrorAsked(q, HeapLoop(q, size, w))
    decreases Size(w), 0
  {
    var w1 := Invoke(w, Alloc(size));
    var t := TryCopy(q, size, w1);
    SymlinkFacts.TryFailLogged(q, size, w1);
    if t.Tried? {
      if t.ret == Eof && size != MaxSize {
        HeapErrorsAsked(q, Grown(size), t.w);
      } else if t.ret in {ReadlinkError, SymlinkError} && q.callback && t.w.answers != [] && !t.w.answers[0] {
        HeapErrorsAsked(q, size, Ask(t.w, t.ret, Pending(q), false));
      }
    }
  }

  /** The C string a buffer holds: everything before its first NUL. */
  function CString(buf: seq<char>): (s: string)
    ensures |s| <= |buf| && s == buf[..|s|] && '\0' !in s
  {
    if buf == [] || buf[0] == '\0' then [] else [buf[0]] + CString(buf[1..])
  }

  /** The terminator as written: `buf[rd + 1] = 0`, or None when that index is outside the buffer. */
  function TerminateAsWritten(buf: seq<char>, rd: nat): (r: Option<seq<char>>)
    ensures r.Some? <==> rd + 1 < |buf|
  {
    if rd + 1 < |buf| then Some(buf[rd + 1 := '\0']) else None
  }

  /** The intended terminator: `buf[rd] = 0`. */
  function Terminate(buf: seq<char>, rd: nat): (r: seq<char>)
    requires rd < |buf|
    ensures |r| == |buf| && r[rd] == '\0' && r[..rd] == buf[..rd]
  {
    buf[rd := '\0']
  }

  lemma {:induction false} CStringOfTerminated(target: string, rest: seq<char>)
    requires '\0' !in target
    ensures CString(target + ['\0'] + rest) == target
  {
    if target != [] {
      assert (target + ['\0'] + rest)[1..] == target[1..] + ['\0'] + rest;
      CStringOfTerminated(target[1..], rest);
    }
  }

  /**
   * With the intended terminator the string passed to symlink is exactly the
   * target readlink placed in the buffer, whatever the rest of the buffer
   * held; this is the target TryCopy links.
   */
  lemma TerminatedTarget(target: string, rest: seq<char>)
    requires '\0' !in target && rest != []
    ensures CString(Terminate(target + rest, |target|)) == target
  {
    var buf := target + rest;
    assert Terminate(buf, |target|) == target + ['\0'] + rest[1..];
    CStringOfTerminated(target, rest[1..]);
  }

  /**
   * As written, the byte after the target is kept: the two-byte target "ab"
   * read into a buffer whose next byte was 'x' becomes "abx". A target one
   * byte shorter than the buffer is terminated outside it.
   */
  lemma TerminatorCounterexample()
    ensures TerminateAsWritten("abxy", 2).Some?
    ensures CString(TerminateAsWritten("abxy", 2).value) == "abx" != "ab"
    ensures CString(Terminate("abxy", 2)) == "ab"
    ensures TerminateAsWritten("abx", 2).None?
  {
    assert TerminateAsWritten("abxy", 2).value == "abx" + ['\0'];
    CStringOfTerminated("abx", []);
    TerminatedTarget("ab", "xy");
  }
}
