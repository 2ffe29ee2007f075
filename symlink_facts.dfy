/**
 * What the symlink copier guarantees: the link it creates on NO_ERROR has
 * the whole target; the heap buffer never grows past MaxSize; giving up with
 * SYMLINK_TARGET_TOO_LONG happens only when MaxSize bytes were not enough;
 * the start callback can stop everything; and the stack phase asks the
 * callback about each failure before retrying it. The two defects of the C
 * code (the heap phase's callback test and the terminator) are stated in
 * SymlinkFindings.
 */
module SymlinkFacts {
  import opened Common
  import opened Errors
  import opened Env
  import opened Symlink

  /** The size a call asks for, for the allocation and readlink calls; 0 for the others. */
  function Requested(ev: Event): nat
  {
    if ev.Did? && ev.call.Alloc? then ev.call.size
    else if ev.Did? && ev.call.Readlink? then ev.call.size
    else 0
  }

  /** Every buffer size asked for in `log` is at most `bound`. */
  predicate SizesWithin(log: seq<Event>, bound: nat)
  {
    forall i :: 0 <= i < |log| ==> Requested(log[i]) <= bound
  }

  /** Growing never passes MaxSize, and a positive size below MaxSize strictly grows. */
  lemma GrownBounded(size: nat)
    ensures Grown(size) <= MaxSize
    ensures 0 < size < MaxSize ==> size < Grown(size)
  {
  }

  /** Logs that both keep a bound keep it together. */
  lemma WithinJoin(w0: World, w1: World, w2: World, bound: nat)
    requires Extends(w0, w1) && Extends(w1, w2)
    requires SizesWithin(w1.log[|w0.log|..], bound) && SizesWithin(w2.log[|w1.log|..], bound)
    ensures Extends(w0, w2) && SizesWithin(w2.log[|w0.log|..], bound)
  {
    ExtendsTrans(w0, w1, w2);
    var a := w1.log[|w0.log|..];
    var b := w2.log[|w1.log|..];
    assert w2.log[|w0.log|..] == a + b;
  }

  /** One event that asks for no buffer keeps any bound. */
  lemma WithinQuiet(w0: World, w: World, ev: Event, bound: nat)
    requires Requested(ev) == 0 && w.log == w0.log + [ev]
    ensures Extends(w0, w) && SizesWithin(w.log[|w0.log|..], bound)
  {
    assert w.log[|w0.log|..] == [ev];
  }

  /** try_copy_symlink appends to the log, starting with a readlink into `size` bytes, and asks for no more. */
  lemma TryCopyLog(q: Request, size: nat, w: World)
    ensures var t := TryCopy(q, size, w);
      && Extends(w, t.w) && SizesWithin(t.w.log[|w.log|..], size)
      && (w.calls != [] ==> |t.w.log| > |w.log| && t.w.log[|w.log|].Did? && t.w.log[|w.log|].call == Readlink(q.source, size))
  {
    var t := TryCopy(q, size, w);
    var added := t.w.log[|w.log|..];
    if w.calls != [] {
      assert t.w.log[..|w.log|] == w.log;
      assert forall i :: 0 <= i < |added| ==> Requested(added[i]) <= size;
    }
  }

  /** The EOF callback appends at most one question. */
  lemma CreatedLog(q: Request, w: World, bound: nat)
    ensures var d := Created(q, w); Extends(w, d.w) && SizesWithin(d.w.log[|w.log|..], bound) && d.w.fs == w.fs
  {
    var d := Created(q, w);
    if q.callback && w.answers != [] {
      WithinQuiet(w, d.w, Asked(Eof, LinkTarget(q.expected, Some(w.fs.target)), false, w.answers[0]), bound);
    } else {
      assert d.w.log[|w.log|..] == [];
    }
  }

  /** The larger of `size` and MaxSize. */
  function HeapBound(size: nat): nat
  {
    if size > MaxSize then size else MaxSize
  }

  /**
   * The heap phase only appends to the log, starting with an allocation of
   * `size` bytes, and never asks for more than `size` or MaxSize bytes,
   * whichever is larger: after the first size every size is at most MaxSize.
   */
  lemma {:induction false} HeapLog(q: Request, size: nat, w: World)
    ensures var d := HeapLoop(q, size, w);
      && Extends(w, d.w) && SizesWithin(d.w.log[|w.log|..], HeapBound(size))
      && (w.calls != [] ==> |d.w.log| > |w.log| && d.w.log[|w.log|] == Did(Alloc(size), w.calls[0]))
    decreases Size(w), 1
  {
    var d := HeapLoop(q, size, w);
    var bound := HeapBound(size);
    if w.calls == [] {
      assert d.w == w && w.log[|w.log|..] == [];
    } else {
      var w1 := Invoke(w, Alloc(size));
      assert w1.log[|w.log|..] == [Did(Alloc(size), w.calls[0])];
      if w.calls[0].Fail? {
        HeapAfterFailure(q, size, w);
      } else {
        HeapAfterAlloc(q, size, w);
      }
      WithinJoin(w, w1, d.w, bound);
      assert d.w.log[|w.log|] == d.w.log[..|w1.log|][|w.log|];
    }
  }

  /** HeapLog after a failed allocation. */
  lemma {:induction false} HeapAfterFailure(q: Request, size: nat, w: World)
    requires w.calls != [] && w.calls[0].Fail?
    ensures var w1 := Invoke(w, Alloc(size)); var d := HeapLoop(q, size, w);
      Extends(w1, d.w) && SizesWithin(d.w.log[|w1.log|..], HeapBound(size))
    decreases Size(w), 0
  {
    var w1 := Invoke(w, Alloc(size));
    var d := HeapLoop(q, size, w);
    var bound := HeapBound(size);
    if q.callback && w1.answers != [] {
      var w2 := Ask(w1, MallocError, Pending(q), false);
      WithinQuiet(w1, w2, Asked(MallocError, Pending(q), false, w1.answers[0]), bound);
      if !w1.answers[0] {
        HeapLog(q, size, w2);
        WithinJoin(w1, w2, d.w, bound);
      }
    } else {
      assert d.w == w1 && w1.log[|w1.log|..] == [];
    }
  }

  /** HeapLog after a successful allocation. */
  lemma {:induction false} HeapAfterAlloc(q: Request, size: nat, w: World)
    requires w.calls != [] && w.calls[0].Ok?
    ensures var w1 := Invoke(w, Alloc(size)); var d := HeapLoop(q, size, w);
      Extends(w1, d.w) && SizesWithin(d.w.log[|w1.log|..], HeapBound(size))
    decreases Size(w), 0
  {
    var w1 := Invoke(w, Alloc(size));
    var d := HeapLoop(q, size, w);
    var bound := HeapBound(size);
    TryCopyLog(q, size, w1);
    var t := TryCopy(q, size, w1);
    var w2 := t.w;
    if t.Tried? && t.ret == NoError {
      CreatedLog(q, w2, bound);
      WithinJoin(w1, w2, d.w, bound);
    } else if t.Tried? && t.ret == Eof && size != MaxSize {
      GrownBounded(size);
      HeapLog(q, Grown(size), w2);
      WithinJoin(w1, w2, d.w, bound);
    } else if t.Tried? && t.ret != NoError && t.ret != Eof && q.callback && w2.answers != [] {
      var w3 := Ask(w2, t.ret, Pending(q), false);
      WithinQuiet(w2, w3, Asked(t.ret, Pending(q), false, w2.answers[0]), bound);
      WithinJoin(w1, w2, w3, bound);
      if !w2.answers[0] {
        HeapLog(q, size, w3);
        WithinJoin(w1, w3, d.w, bound);
      }
    } else {
      assert d.w == w2;
    }
  }

  /** Where the stack phase leaves the world, whether it returned or goes on to the heap. */
  function StageWorld(r: Stage): World
  {
    if r.Returned? then r.d.w else r.w
  }

  /** The stack phase only appends to the log, starting with a readlink into BufferSize bytes, and asks for no more. */
  lemma {:induction false} StackLog(q: Request, w: World)
    ensures var r := StackLoop(q, w);
      && Extends(w, StageWorld(r)) && SizesWithin(StageWorld(r).log[|w.log|..], BufferSize)
      && (w.calls != [] ==> |StageWorld(r).log| > |w.log| && StageWorld(r).log[|w.log|].Did?
                            && StageWorld(r).log[|w.log|].call == Readlink(q.source, BufferSize))
      && (r.Grow? ==> r.w.fs == w.fs)
    decreases Size(w)
  {
    var r := StackLoop(q, w);
    var t := TryCopy(q, BufferSize, w);
    TryCopyLog(q, BufferSize, w);
    if t.Tried? {
      var w1 := t.w;
      if t.ret == NoError {
        CreatedLog(q, w1, BufferSize);
        WithinJoin(w, w1, StageWorld(r), BufferSize);
      } else if t.ret != Eof && q.callback && w1.answers != [] {
        var w2 := Ask(w1, t.ret, Pending(q), false);
        WithinQuiet(w1, w2, Asked(t.ret, Pending(q), false, w1.answers[0]), BufferSize);
        WithinJoin(w, w1, w2, BufferSize);
        if !w1.answers[0] {
          StackLog(q, w2);
          WithinJoin(w, w2, StageWorld(r), BufferSize);
        }
      }
      if w.calls != [] {
        assert StageWorld(r).log[|w.log|] == StageWorld(r).log[..|w1.log|][|w.log|];
      }
    }
  }

  /**
   * A READLINK or SYMLINK result comes right after the failing call when
   * there is no callback, or right after the callback answered nonzero to
   * that very error.
   */
  predicate ErrorAsked(q: Request, d: Done)
  {
    d.out.Exit? && d.out.err in {ReadlinkError, SymlinkError} ==>
      d.w.log != [] &&
      if q.callback then d.w.log[|d.w.log| - 1] == Asked(d.out.err, Pending(q), false, true)
      else d.w.log[|d.w.log| - 1].Did? && d.w.log[|d.w.log| - 1].reply.Fail? && d.w.log[|d.w.log| - 1].reply.errno == d.out.errno
  }

  /** A failed readlink or symlink is the last event of the attempt, with the errno it returned. */
  lemma TryFailLogged(q: Request, size: nat, w: World)
    ensures var t := TryCopy(q, size, w);
      t.Tried? && t.ret in {ReadlinkError, SymlinkError} ==>
        t.w.log != [] && t.w.log[|t.w.log| - 1].Did? && t.w.log[|t.w.log| - 1].reply.Fail?
        && t.w.log[|t.w.log| - 1].reply.errno == t.errno
  {
  }

  /**
   * The stack phase's retry policy: a READLINK or SYMLINK failure is
   * returned right after the failing call without a callback, and right
   * after a nonzero answer to that error with one.
   */
  lemma {:induction false} StackErrorsAsked(q: Request, w: World)
    ensures var r := StackLoop(q, w); r.Returned? ==> ErrorAsked(q, r.d)
    decreases Size(w)
  {
    var t := TryCopy(q, BufferSize, w);
    TryFailLogged(q, BufferSize, w);
    if t.Tried? && t.ret in {ReadlinkError, SymlinkError} && q.callback && t.w.answers != [] && !t.w.answers[0] {
      StackErrorsAsked(q, Ask(t.w, t.ret, Pending(q), false));
    }
  }

  /** A READLINK or SYMLINK failure that the callback answered 0 to. */
  predicate RetriedError(ev: Event)
  {
    ev.Asked? && ev.state in {ReadlinkError, SymlinkError} && !ev.answer
  }

  /** Every failure answered 0 is followed by a readlink into BufferSize bytes. */
  predicate Rereads(q: Request, ev: seq<Event>)
  {
    forall i :: 0 <= i < |ev| - 1 && RetriedError(ev[i]) ==> ev[i + 1].Did? && ev[i + 1].call == Readlink(q.source, BufferSize)
  }

  /**
   * The other half of the stack phase's retry policy: an answer of 0 to a
   * READLINK or SYMLINK failure is followed by a new readlink into the
   * BufferSize stack buffer, whenever anything follows.
   */
  lemma {:induction false} StackRereads(q: Request, w: World)
    ensures var r := StackLoop(q, w); Extends(w, StageWorld(r)) && Rereads(q, StageWorld(r).log[|w.log|..])
    decreases Size(w), 1
  {
    var t := TryCopy(q, BufferSize, w);
    if t.Tried? && t.ret in {ReadlinkError, SymlinkError} && q.callback && t.w.answers != [] && !t.w.answers[0] {
      RetryStackRereads(q, w);
    } else {
      EndStackRereads(q, w);
    }
  }

  /** StackRereads when the try fails and the callback answers 0. */
  lemma {:induction false} RetryStackRereads(q: Request, w: World)
    requires var t := TryCopy(q, BufferSize, w);
      t.Tried? && t.ret in {ReadlinkError, SymlinkError} && q.callback && t.w.answers != [] && !t.w.answers[0]
    ensures var r := StackLoop(q, w); Extends(w, StageWorld(r)) && Rereads(q, StageWorld(r).log[|w.log|..])
    decreases Size(w), 0
  {
    var t := TryCopy(q, BufferSize, w);
    TryCopyCalls(q, BufferSize, w);
    var w2 := Ask(t.w, t.ret, Pending(q), false);
    var r := StackLoop(q, w2);
    assert StackLoop(q, w) == r;
    StackRereads(q, w2);
    StackLog(q, w2);
    RetryRereads(q, w.log, t.w.log, Asked(t.ret, Pending(q), false, false), StageWorld(r).log);
  }

  /** StackRereads when the stack phase ends after this try. */
  lemma EndStackRereads(q: Request, w: World)
    requires var t := TryCopy(q, BufferSize, w);
      !(t.Tried? && t.ret in {ReadlinkError, SymlinkError} && q.callback && t.w.answers != [] && !t.w.answers[0])
    ensures var r := StackLoop(q, w); Extends(w, StageWorld(r)) && Rereads(q, StageWorld(r).log[|w.log|..])
  {
    var t := TryCopy(q, BufferSize, w);
    TryCopyCalls(q, BufferSize, w);
    var end := StageWorld(StackLoop(q, w));
    if t.Tried? && t.ret == NoError {
      CreatedLog(q, t.w, BufferSize);
    }
    assert |end.log| <= |t.w.log| + 1 && Extends(t.w, end);
    EndRereads(q, w.log, t.w.log, end.log);
  }

  /** Rereads for a run that ends after one try and at most one more event. */
  lemma EndRereads(q: Request, l0: seq<Event>, l1: seq<Event>, l2: seq<Event>)
    requires |l0| <= |l1| <= |l2| <= |l1| + 1 && l1[..|l0|] == l0 && l2[..|l1|] == l1
    requires forall i :: |l0| <= i < |l1| ==> l1[i].Did?
    ensures Rereads(q, l2[|l0|..])
  {
    var calls := l1[|l0|..];
    assert l2[|l0|..] == calls + l2[|l1|..];
    DidsThenOne(q, calls, l2[|l1|..]);
  }

  /** Rereads for a run that retries: a try, the answer 0, then a run from the readlink on. */
  lemma RetryRereads(q: Request, l0: seq<Event>, l1: seq<Event>, answer: Event, l2: seq<Event>)
    requires |l0| <= |l1| && l1[..|l0|] == l0
    requires forall i :: |l0| <= i < |l1| ==> l1[i].Did?
    requires |l1| + 1 <= |l2| && l2[..|l1| + 1] == l1 + [answer]
    requires Rereads(q, l2[|l1| + 1..])
    requires |l2| > |l1| + 1 ==> l2[|l1| + 1].Did? && l2[|l1| + 1].call == Readlink(q.source, BufferSize)
    ensures |l0| <= |l2| && l2[..|l0|] == l0 && Rereads(q, l2[|l0|..])
  {
    var calls := l1[|l0|..];
    var rest := l2[|l1| + 1..];
    assert l2 == l1 + [answer] + rest;
    assert l2[|l0|..] == calls + [answer] + rest;
    RereadsJoin(q, calls, answer, rest);
  }

  /** One try appends calls only. */
  lemma TryCopyCalls(q: Request, size: nat, w: World)
    ensures var t := TryCopy(q, size, w);
      Extends(w, t.w) && forall i :: |w.log| <= i < |t.w.log| ==> t.w.log[i].Did?
  {
  }

  /** Calls followed by at most one more event never break Rereads. */
  lemma DidsThenOne(q: Request, calls: seq<Event>, last: seq<Event>)
    requires forall i :: 0 <= i < |calls| ==> calls[i].Did?
    requires |last| <= 1
    ensures Rereads(q, calls + last)
  {
    var ev := calls + last;
    forall i | 0 <= i < |ev| - 1
      ensures !RetriedError(ev[i])
    {
      assert ev[i] == calls[i];
    }
  }

  /** Rereads across a retry: the calls of a try, the answer 0, then a run that begins with the readlink. */
  lemma RereadsJoin(q: Request, calls: seq<Event>, answer: Event, rest: seq<Event>)
    requires forall i :: 0 <= i < |calls| ==> calls[i].Did?
    requires Rereads(q, rest)
    requires rest != [] ==> rest[0].Did? && rest[0].call == Readlink(q.source, BufferSize)
    ensures Rereads(q, calls + [answer] + rest)
  {
    var ev := calls + [answer] + rest;
    forall i | 0 <= i < |ev| - 1 && RetriedError(ev[i])
      ensures ev[i + 1].Did? && ev[i + 1].call == Readlink(q.source, BufferSize)
    {
      if i == |calls| {
        assert ev[i + 1] == rest[0];
      } else if i > |calls| {
        assert ev[i] == rest[i - |calls| - 1] && ev[i + 1] == rest[i - |calls|];
      }
    }
  }

  /**
   * Every buffer size a run asks for (allocation or readlink) is at most
   * MaxSize, except an expected length of MaxSize or more, whose first
   * allocation asks for expected_length + 1 bytes before the clamp.
   */
  lemma SymlinkSizesBounded(q: Request, w: World)
    ensures var d := CopySymlinkSpec(q, w);
      Extends(w, d.w) && SizesWithin(d.w.log[|w.log|..], if q.expected < BufferSize then MaxSize else HeapBound(FirstHeapSize(q.expected)))
  {
    var d := CopySymlinkSpec(q, w);
    var bound := if q.expected < BufferSize then MaxSize else HeapBound(FirstHeapSize(q.expected));
    if q.callback && w.answers != [] {
      var w1 := Ask(w, NoError, Pending(q), false);
      WithinQuiet(w, w1, Asked(NoError, Pending(q), false, w.answers[0]), bound);
      if !w.answers[0] {
        Phases(q, w1);
        WithinJoin(w, w1, d.w, bound);
      }
    } else if !q.callback {
      Phases(q, w);
    } else {
      assert d.w.log[|w.log|..] == [];
    }
  }

  /** The two phases after the start question, with their bound. */
  lemma Phases(q: Request, w1: World)
    ensures var d := if q.expected < BufferSize then
        match StackLoop(q, w1) case Returned(d) => d case Grow(size, w2) => HeapLoop(q, size, w2)
      else HeapLoop(q, FirstHeapSize(q.expected), w1);
      Extends(w1, d.w) && SizesWithin(d.w.log[|w1.log|..], if q.expected < BufferSize then MaxSize else HeapBound(FirstHeapSize(q.expected)))
  {
    if q.expected < BufferSize {
      StackLog(q, w1);
      match StackLoop(q, w1)
      case Returned(d) =>
      case Grow(size, w2) =>
        HeapLog(q, size, w2);
        WithinJoin(w1, w2, HeapLoop(q, size, w2).w, MaxSize);
    } else {
      HeapLog(q, FirstHeapSize(q.expected), w1);
    }
  }

  /** SYMLINK_TARGET_TOO_LONG comes only after readlink filled a buffer of MaxSize bytes. */
  lemma {:induction false} TooLongOnlyAtMax(q: Request, size: nat, w: World)
    ensures var d := HeapLoop(q, size, w);
      d.out == Exit(SymlinkTargetTooLong, 0) ==>
        d.w.log != [] && d.w.log[|d.w.log| - 1] == Did(Readlink(q.source, MaxSize), Ok(MaxSize))
    decreases Size(w)
  {
    if w.calls != [] {
      var w1 := Invoke(w, Alloc(size));
      if w.calls[0].Fail? {
        if q.callback && w1.answers != [] && !w1.answers[0] {
          TooLongOnlyAtMax(q, size, Ask(w1, MallocError, Pending(q), false));
        }
      } else {
        var t := TryCopy(q, size, w1);
        if t.Tried? {
          if t.ret == Eof {
            if size != MaxSize {
              TooLongOnlyAtMax(q, Grown(size), t.w);
            } else {
              assert Min(|w1.fs.target|, size) == size;
            }
          } else if t.ret != NoError && q.callback && t.w.answers != [] && !t.w.answers[0] {
            TooLongOnlyAtMax(q, size, Ask(t.w, t.ret, Pending(q), false));
          }
        }
      }
    }
  }

  /** The link is created with the whole target: the last call, or the one before the EOF question answered 0. */
  predicate LinkMade(q: Request, target: string, log: seq<Event>)
  {
    if q.callback then
      |log| >= 2 && log[|log| - 2].Did? && log[|log| - 2].call == Symlink(target, q.dest) && log[|log| - 2].reply.Ok?
      && log[|log| - 1] == Asked(Eof, LinkTarget(q.expected, Some(target)), false, false)
    else
      |log| >= 1 && log[|log| - 1].Did? && log[|log| - 1].call == Symlink(target, q.dest) && log[|log| - 1].reply.Ok?
  }

  /** A NO_ERROR from try_copy_symlink means the link was made with the whole target, read in fewer than `size` bytes. */
  lemma TryCopyTarget(q: Request, size: nat, w: World)
    ensures var t := TryCopy(q, size, w);
      t.Tried? && t.ret == NoError ==>
        && |w.fs.target| < size
        && t.w.log != [] && t.w.log[|t.w.log| - 1].Did?
        && t.w.log[|t.w.log| - 1].call == Symlink(w.fs.target, q.dest)
        && t.w.log[|t.w.log| - 1].reply.Ok?
  {
    if w.calls != [] && w.calls[0].Ok? && Min(|w.fs.target|, size) < size {
      assert w.fs.target[..|w.fs.target|] == w.fs.target;
    }
  }

  lemma CreatedLink(q: Request, w: World)
    requires w.log != [] && w.log[|w.log| - 1].Did? && w.log[|w.log| - 1].call == Symlink(w.fs.target, q.dest)
    requires w.log[|w.log| - 1].reply.Ok?
    ensures var d := Created(q, w); d.out == Exit(NoError, 0) ==> LinkMade(q, w.fs.target, d.w.log) && d.w.fs == w.fs
  {
  }

  lemma {:induction false} StackMakesLink(q: Request, w: World)
    ensures var r := StackLoop(q, w);
      && (r.Returned? && r.d.out == Exit(NoError, 0) ==> LinkMade(q, w.fs.target, r.d.w.log))
      && (r.Grow? ==> r.w.fs == w.fs)
    decreases Size(w)
  {
    TryCopyTarget(q, BufferSize, w);
    var t := TryCopy(q, BufferSize, w);
    if t.Tried? {
      if t.ret == NoError {
        CreatedLink(q, t.w);
      } else if t.ret != Eof && q.callback && t.w.answers != [] && !t.w.answers[0] {
        StackMakesLink(q, Ask(t.w, t.ret, Pending(q), false));
      }
    }
  }

  lemma {:induction false} HeapMakesLink(q: Request, size: nat, w: World)
    ensures var d := HeapLoop(q, size, w);
      d.out == Exit(NoError, 0) ==> LinkMade(q, w.fs.target, d.w.log)
    decreases Size(w)
  {
    if w.calls != [] {
      var w1 := Invoke(w, Alloc(size));
      if w.calls[0].Fail? {
        if q.callback && w1.answers != [] && !w1.answers[0] {
          HeapMakesLink(q, size, Ask(w1, MallocError, Pending(q), false));
        }
      } else {
        TryCopyTarget(q, size, w1);
        var t := TryCopy(q, size, w1);
        if t.Tried? {
          if t.ret == NoError {
            CreatedLink(q, t.w);
          } else if t.ret == Eof {
            if size != MaxSize {
              HeapMakesLink(q, Grown(size), t.w);
            }
          } else if q.callback && t.w.answers != [] && !t.w.answers[0] {
            HeapMakesLink(q, size, Ask(t.w, t.ret, Pending(q), false));
          }
        }
      }
    }
  }

  /**
   * The headline: NO_ERROR means the new link was created with the source
   * link's whole target (never a truncated one), and, with a callback, that
   * the EOF question carrying that target was answered 0.
   */
  lemma SymlinkCopiesTarget(q: Request, w: World)
    ensures var d := CopySymlinkSpec(q, w);
      d.out == Exit(NoError, 0) ==> LinkMade(q, w.fs.target, d.w.log)
  {
    if !(q.callback && (w.answers == [] || w.answers[0])) {
      var w1 := if q.callback then Ask(w, NoError, Pending(q), false) else w;
      if q.expected < BufferSize {
        StackMakesLink(q, w1);
        match StackLoop(q, w1)
        case Returned(d) =>
        case Grow(size, w2) => HeapMakesLink(q, size, w2);
      } else {
        HeapMakesLink(q, FirstHeapSize(q.expected), w1);
      }
    }
  }

  /** A nonzero answer to the start callback returns ABORTED before any call is made. */
  lemma StartAborts(q: Request, w: World)
    requires q.callback && w.answers != [] && w.answers[0]
    ensures CopySymlinkSpec(q, w) == Done(Exit(Aborted, 0), Ask(w, NoError, Pending(q), false))
    ensures Ask(w, NoError, Pending(q), false).calls == w.calls
  {
  }

  /**
   * The first call after the start question: readlink into the stack buffer
   * when the expected length is below BufferSize, else an allocation of
   * expected_length + 1 bytes; a truncated stack read goes on with 2 * BufferSize.
   */
  lemma FirstCall(q: Request, w: World)
    requires w.calls != [] && (q.callback ==> w.answers != [] && !w.answers[0])
    ensures var d := CopySymlinkSpec(q, w);
      var k := |w.log| + (if q.callback then 1 else 0);
      && |d.w.log| > k && d.w.log[k].Did?
      && d.w.log[k].call == (if q.expected < BufferSize then Readlink(q.source, BufferSize) else Alloc(FirstHeapSize(q.expected)))
  {
    var w1 := if q.callback then Ask(w, NoError, Pending(q), false) else w;
    var d := CopySymlinkSpec(q, w);
    var k := |w.log| + (if q.callback then 1 else 0);
    assert |w1.log| == k;
    if q.expected < BufferSize {
      StackLog(q, w1);
      match StackLoop(q, w1)
      case Returned(_) =>
      case Grow(size, w2) =>
        HeapLog(q, size, w2);
        assert d.w.log[k] == d.w.log[..|w2.log|][k];
    } else {
      HeapLog(q, FirstHeapSize(q.expected), w1);
    }
  }
}
