/**
 * The retry loops the link and move copiers share: the `while (1)` loop
 * around link or rename, and the `while (unlink(path) ...)` loops. A failure
 * is shown to the callback, whose 0 means "try again"; without a callback
 * the first failure decides.
 */
module Retry {
  import opened Errors
  import opened Env

  /** How a loop ended: the call succeeded, it failed in a way that falls back to copying, or the copier returns. */
  datatype Tried = Succeeded(w: World) | Fallback(w: World) | Gave(out: Out, w: World)

  /**
   * The link/rename loop: `call` succeeds, or fails with an errno in
   * `fallback` (leave the loop, copy instead), or fails otherwise (return
   * `err`). A callback sees each failure with the hint "fatal" set when the
   * errno is not one to fall back on; a nonzero answer returns `err`, 0
   * falls back when the errno allows it and retries otherwise.
   */
  function Attempts(call: Call, err: CopyError, fallback: set<nat>, callback: bool, progress: Progress, w: World): (t: Tried)
    decreases Size(w)
  {
    if w.calls == [] then Gave(OutOfScript, w)
    else
      var reply := w.calls[0];
      var w1 := Invoke(w, call);
      if reply.Ok? then Succeeded(w1)
      else if callback then
        if w1.answers == [] then Gave(OutOfScript, w1)
        else
          var w2 := Ask(w1, err, progress, reply.errno !in fallback);
          if w1.answers[0] then Gave(Exit(err, reply.errno), w2)
          else if reply.errno in fallback then Fallback(w2)
          else Attempts(call, err, fallback, callback, progress, w2)
      else if reply.errno in fallback then Fallback(w1)
      else Gave(Exit(err, reply.errno), w1)
  }

  /** An unlink reply that ends the loop: success, or ENOENT when a missing file is fine. */
  predicate Gone(reply: Reply, tolerant: bool)
  {
    reply.Ok? || (tolerant && reply.errno == ENOENT)
  }

  /**
   * `while (unlink(path) && errno != ENOENT)` (the ENOENT test only when
   * `tolerant`): a failure returns `err`, unless the callback, told the
   * failure is fatal, answers 0, which retries.
   */
  function Unlinks(path: string, err: CopyError, tolerant: bool, callback: bool, progress: Progress, w: World): (t: Tried)
    ensures !t.Fallback?
    decreases Size(w)
  {
    if w.calls == [] then Gave(OutOfScript, w)
    else
      var reply := w.calls[0];
      var w1 := Invoke(w, Unlink(path));
      if Gone(reply, tolerant) then Succeeded(w1)
      else if !callback then Gave(Exit(err, reply.errno), w1)
      else if w1.answers == [] then Gave(OutOfScript, w1)
      else
        var w2 := Ask(w1, err, progress, true);
        if w1.answers[0] then Gave(Exit(err, reply.errno), w2)
        else Unlinks(path, err, tolerant, callback, progress, w2)
  }

  /** The link/rename loop as the C code runs it. */
  method AttemptLoop(call: Call, err: CopyError, fallback: set<nat>, callback: bool, progress: Progress, w0: World) returns (t: Tried)
    ensures t == Attempts(call, err, fallback, callback, progress, w0)
  {
    var w := w0;
    while true
      invariant Attempts(call, err, fallback, callback, progress, w) == Attempts(call, err, fallback, callback, progress, w0)
      decreases Size(w)
    {
      if w.calls == [] { return Gave(OutOfScript, w); }
      var reply := w.calls[0];
      w := Invoke(w, call);
      if reply.Ok? {
        return Succeeded(w);
      } else if callback {
        if w.answers == [] { return Gave(OutOfScript, w); }
        var nonzero := w.answers[0];
        w := Ask(w, err, progress, reply.errno !in fallback);
        if nonzero {
          return Gave(Exit(err, reply.errno), w);
        } else if reply.errno in fallback {
          return Fallback(w);
        }
      } else {
        if reply.errno in fallback {
          return Fallback(w);
        } else {
          return Gave(Exit(err, reply.errno), w);
        }
      }
    }
  }

  /** The unlink loop as the C code runs it. */
  method UnlinkLoop(path: string, err: CopyError, tolerant: bool, callback: bool, progress: Progress, w0: World) returns (t: Tried)
    ensures t == Unlinks(path, err, tolerant, callback, progress, w0)
  {
    var w := w0;
    while true
      invariant Unlinks(path, err, tolerant, callback, progress, w) == Unlinks(path, err, tolerant, callback, progress, w0)
      decreases Size(w)
    {
      if w.calls == [] { return Gave(OutOfScript, w); }
      var reply := w.calls[0];
      w := Invoke(w, Unlink(path));
      if Gone(reply, tolerant) { return Succeeded(w); }
      if callback {
        if w.answers == [] { return Gave(OutOfScript, w); }
        var nonzero := w.answers[0];
        w := Ask(w, err, progress, true);
        if nonzero { return Gave(Exit(err, reply.errno), w); }
      } else {
        return Gave(Exit(err, reply.errno), w);
      }
    }
  }

  /** The log ends with `ev`. */
  predicate EndsWith(w: World, ev: Event)
  {
    w.log != [] && w.log[|w.log| - 1] == ev
  }

  /** The log ends with `call`, whatever it gave back. */
  predicate EndsWithCall(w: World, call: Call)
  {
    w.log != [] && w.log[|w.log| - 1].Did? && w.log[|w.log| - 1].call == call
  }

  /** The reply of the call the log ends with. */
  function LastReply(w: World): Reply
    requires w.log != [] && w.log[|w.log| - 1].Did?
  {
    w.log[|w.log| - 1].reply
  }

  /** The event before the last is `call` failing with an errno that falls back. */
  predicate FailedBefore(w: World, call: Call, fallback: set<nat>)
  {
    && |w.log| >= 2 && w.log[|w.log| - 2].Did? && w.log[|w.log| - 2].call == call
    && w.log[|w.log| - 2].reply.Fail? && w.log[|w.log| - 2].reply.errno in fallback
  }

  /**
   * How the link/rename loop ends, read off the log it leaves: success right after a successful call; a fall-back right after
   * a failure with a fall-back errno, or right after the callback's 0 for
   * one; `err` with the errno of the failing call, either right after that
   * call (no callback, an errno that does not fall back) or right after the
   * callback's nonzero answer with the fatal hint matching the errno.
   */
  predicate AttemptEnd(call: Call, err: CopyError, fallback: set<nat>, callback: bool, progress: Progress, t: Tried)
  {
    && (t.Succeeded? ==> EndsWithCall(t.w, call) && LastReply(t.w).Ok?)
    && (t.Fallback? && callback ==> EndsWith(t.w, Asked(err, progress, false, false)) && FailedBefore(t.w, call, fallback))
    && (t.Fallback? && !callback ==> EndsWithCall(t.w, call) && LastReply(t.w).Fail? && LastReply(t.w).errno in fallback)
    && (t.Gave? && t.out.Exit? ==> t.out.err == err)
    && (t.Gave? && t.out.Exit? && callback ==> EndsWith(t.w, Asked(err, progress, t.out.errno !in fallback, true)))
    && (t.Gave? && t.out.Exit? && !callback ==>
          EndsWithCall(t.w, call) && LastReply(t.w).Fail? && LastReply(t.w).errno == t.out.errno
          && t.out.errno !in fallback)
  }

  /** The ends that do not retry. */
  lemma AttemptsFirst(call: Call, err: CopyError, fallback: set<nat>, callback: bool, progress: Progress, w: World)
    requires !(w.calls != [] && w.calls[0].Fail? && callback && w.answers != [] && !w.answers[0] && w.calls[0].errno !in fallback)
    ensures AttemptEnd(call, err, fallback, callback, progress, Attempts(call, err, fallback, callback, progress, w))
  {
    if w.calls != [] {
      var reply := w.calls[0];
      var w1 := Invoke(w, call);
      assert EndsWith(w1, Did(call, reply));
      if reply.Fail? && callback && w1.answers != [] {
        var w2 := Ask(w1, err, progress, reply.errno !in fallback);
        assert EndsWith(w2, Asked(err, progress, reply.errno !in fallback, w.answers[0]));
        assert w2.log[|w2.log| - 2] == Did(call, reply);
      }
    }
  }

  lemma {:induction false} AttemptsEnd(call: Call, err: CopyError, fallback: set<nat>, callback: bool, progress: Progress, w: World)
    ensures AttemptEnd(call, err, fallback, callback, progress, Attempts(call, err, fallback, callback, progress, w))
    decreases Size(w)
  {
    if w.calls != [] && w.calls[0].Fail? && callback && w.answers != [] && !w.answers[0] && w.calls[0].errno !in fallback {
      var w2 := Ask(Invoke(w, call), err, progress, true);
      AttemptsEnd(call, err, fallback, callback, progress, w2);
    } else {
      AttemptsFirst(call, err, fallback, callback, progress, w);
    }
  }

  /**
   * How an unlink loop ends: the file is gone right after the unlink that
   * removed it (or found it missing, when that is fine); `err` with the
   * errno of the failing unlink, right after it without a callback or right
   * after the callback's nonzero answer to the fatal failure.
   */
  predicate UnlinkEnd(path: string, err: CopyError, tolerant: bool, callback: bool, progress: Progress, t: Tried)
  {
    && (t.Succeeded? ==> EndsWithCall(t.w, Unlink(path)) && Gone(LastReply(t.w), tolerant))
    && (t.Gave? && t.out.Exit? ==> t.out.err == err)
    && (t.Gave? && t.out.Exit? && callback ==> EndsWith(t.w, Asked(err, progress, true, true)))
    && (t.Gave? && t.out.Exit? && !callback ==>
          EndsWithCall(t.w, Unlink(path)) && !Gone(LastReply(t.w), tolerant) && LastReply(t.w).errno == t.out.errno)
  }

  /** The ends that do not retry. */
  lemma UnlinksFirst(path: string, err: CopyError, tolerant: bool, callback: bool, progress: Progress, w: World)
    requires !(w.calls != [] && !Gone(w.calls[0], tolerant) && callback && w.answers != [] && !w.answers[0])
    ensures UnlinkEnd(path, err, tolerant, callback, progress, Unlinks(path, err, tolerant, callback, progress, w))
  {
    var t := Unlinks(path, err, tolerant, callback, progress, w);
    if w.calls != [] {
      var reply := w.calls[0];
      var w1 := Invoke(w, Unlink(path));
      if Gone(reply, tolerant) {
        assert t == Succeeded(w1);
      } else if !callback {
        assert t == Gave(Exit(err, reply.errno), w1);
      } else if w1.answers != [] {
        assert t == Gave(Exit(err, reply.errno), Ask(w1, err, progress, true));
      }
      UnlinkEndsAt(path, err, tolerant, callback, progress, reply, w1, t);
    }
  }

  /** One ending of the unlink loop, checked against the world after the unlink. */
  lemma UnlinkEndsAt(path: string, err: CopyError, tolerant: bool, callback: bool, progress: Progress, reply: Reply, w1: World, t: Tried)
    requires EndsWith(w1, Did(Unlink(path), reply))
    requires t.Succeeded? ==> t.w == w1 && Gone(reply, tolerant)
    requires t.Gave? && t.out.Exit? ==> t.out.err == err && !Gone(reply, tolerant) && t.out.errno == reply.errno
    requires t.Gave? && t.out.Exit? && !callback ==> t.w == w1
    requires t.Gave? && t.out.Exit? && callback ==> w1.answers != [] && w1.answers[0] && t.w == Ask(w1, err, progress, true)
    requires !t.Fallback?
    ensures UnlinkEnd(path, err, tolerant, callback, progress, t)
  {
  }

  lemma {:induction false} UnlinksEnd(path: string, err: CopyError, tolerant: bool, callback: bool, progress: Progress, w: World)
    ensures UnlinkEnd(path, err, tolerant, callback, progress, Unlinks(path, err, tolerant, callback, progress, w))
    decreases Size(w)
  {
    if w.calls != [] && !Gone(w.calls[0], tolerant) && callback && w.answers != [] && !w.answers[0] {
      var w2 := Ask(Invoke(w, Unlink(path)), err, progress, true);
      UnlinksEnd(path, err, tolerant, callback, progress, w2);
    } else {
      UnlinksFirst(path, err, tolerant, callback, progress, w);
    }
  }

  /** The link/rename loop leaves the file system's contents as they were. */
  lemma {:induction false} AttemptsKeepFiles(call: Call, err: CopyError, fallback: set<nat>, callback: bool, progress: Progress, w: World)
    ensures Attempts(call, err, fallback, callback, progress, w).w.fs == w.fs
    decreases Size(w)
  {
    if w.calls != [] && callback && w.answers != [] {
      AttemptsKeepFiles(call, err, fallback, callback, progress, Ask(Invoke(w, call), err, progress, w.calls[0].Fail? && w.calls[0].errno !in fallback));
    }
  }

  /** The unlink loop leaves the file system's contents as they were. */
  lemma {:induction false} UnlinksKeepFiles(path: string, err: CopyError, tolerant: bool, callback: bool, progress: Progress, w: World)
    ensures Unlinks(path, err, tolerant, callback, progress, w).w.fs == w.fs
    decreases Size(w)
  {
    if w.calls != [] && callback && w.answers != [] {
      UnlinksKeepFiles(path, err, tolerant, callback, progress, Ask(Invoke(w, Unlink(path)), err, progress, true));
    }
  }

  /** Both loops only append to the log. */
  lemma {:induction false} LoopsExtend(call: Call, path: string, err: CopyError, fallback: set<nat>, tolerant: bool, callback: bool, progress: Progress, w: World)
    ensures Extends(w, Attempts(call, err, fallback, callback, progress, w).w)
    ensures Extends(w, Unlinks(path, err, tolerant, callback, progress, w).w)
    decreases Size(w)
  {
    if w.calls != [] {
      var w1 := Invoke(w, call);
      assert Extends(w, w1);
      var u1 := Invoke(w, Unlink(path));
      assert Extends(w, u1);
      if callback && w.answers != [] {
        var w2 := Ask(w1, err, progress, w.calls[0].Fail? && w.calls[0].errno !in fallback);
        assert Extends(w1, w2);
        ExtendsTrans(w, w1, w2);
        LoopsExtend(call, path, err, fallback, tolerant, callback, progress, w2);
        ExtendsTrans(w, w2, Attempts(call, err, fallback, callback, progress, w2).w);
        var u2 := Ask(u1, err, progress, true);
        assert Extends(u1, u2);
        ExtendsTrans(w, u1, u2);
        LoopsExtend(call, path, err, fallback, tolerant, callback, progress, u2);
        ExtendsTrans(w, u2, Unlinks(path, err, tolerant, callback, progress, u2).w);
      }
    }
  }
}
