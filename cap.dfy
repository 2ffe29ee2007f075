/**
 * copyfile_copy_cap: copy the file capabilities of the source to the
 * destination. A source without capabilities (ENODATA) is copied as the
 * empty set; a file system without capability support (ENOTSUP) is not an
 * error but achieves nothing.
 */
module Cap {
  import opened Errors
  import opened Env
  import opened Flags

  /** Flags of 0 mean COPY_CAP. */
  function Requested(flags: set<Flag>): set<Flag>
  {
    if flags == {} then CapFlags else flags
  }

  /** A failure the capability library treats as "no capabilities": success or ENODATA. */
  predicate Empty(reply: Reply)
  {
    reply.Ok? || reply.errno == ENODATA
  }

  /** copyfile_copy_cap: cap_get_file on the source, then cap_set_file on the destination. */
  function CopyCapSpec(source: string, dest: string, flags: set<Flag>, w: World): (o: Outcome)
    ensures o.done <= Requested(flags) * CapFlags
    ensures o.out.Exit? ==> o.out.err in {NoError, CapGetError, CapSetError, Unsupported}
  {
    if CopyCap !in Requested(flags) then Outcome(Exit(Unsupported, 0), {}, w)
    else if w.calls == [] then Outcome(OutOfScript, {}, w)
    else
      var got := w.calls[0];
      var w1 := Invoke(w, GetCap(source));
      if !Empty(got) then
        if got.errno == ENOTSUP then Outcome(Exit(NoError, 0), {}, w1)
        else Outcome(Exit(CapGetError, got.errno), {}, w1)
      else if w1.calls == [] then Outcome(OutOfScript, {}, w1)
      else
        var put := w1.calls[0];
        var w2 := Invoke(w1, SetCap(dest));
        if !Empty(put) then Outcome(Exit(CapSetError, put.errno), {}, w2)
        else Outcome(Exit(NoError, 0), {CopyCap}, w2)
  }

  /** A request without COPY_CAP is UNSUPPORTED and makes no call; flags of 0 do ask for it. */
  lemma CapUnsupported(source: string, dest: string, flags: set<Flag>, w: World)
    ensures var o := CopyCapSpec(source, dest, flags, w);
      (o.out == Exit(Unsupported, 0) <==> CopyCap !in flags && flags != {})
      && (o.out == Exit(Unsupported, 0) ==> o.w == w)
  {
  }

  /**
   * The capabilities are copied exactly when COPY_CAP is requested and both
   * calls succeed or report an empty set; the log then holds the get on the
   * source followed by the set on the destination.
   */
  lemma CapCopied(source: string, dest: string, flags: set<Flag>, w: World)
    ensures var o := CopyCapSpec(source, dest, flags, w);
      (CopyCap in o.done <==>
        CopyCap in Requested(flags) && |w.calls| >= 2 && Empty(w.calls[0]) && Empty(w.calls[1]))
      && (CopyCap in o.done ==>
        o.out == Exit(NoError, 0) && o.w.log == w.log + [Did(GetCap(source), w.calls[0]), Did(SetCap(dest), w.calls[1])])
  {
  }

  /**
   * Each outcome and the replies that lead to it: ENOTSUP on the get is
   * success with nothing achieved, any other failure of the get (but
   * ENODATA) is CAP_GET, a failure of the set (but ENODATA) is CAP_SET.
   */
  lemma CapErrors(source: string, dest: string, flags: set<Flag>, w: World, e: nat)
    requires CopyCap in Requested(flags)
    ensures var o := CopyCapSpec(source, dest, flags, w);
      && (o.out == Exit(CapGetError, e) <==> w.calls != [] && w.calls[0] == Fail(e) && e != ENODATA && e != ENOTSUP)
      && (o.out == Exit(CapSetError, e) <==> |w.calls| >= 2 && Empty(w.calls[0]) && w.calls[1] == Fail(e) && e != ENODATA)
      && (o.out == Exit(NoError, 0) && o.done == {} <==> w.calls != [] && w.calls[0] == Fail(ENOTSUP))
  {
  }
}
