/**
 * copyfile_move_file: rename the source to the destination; across
 * filesystems (EXDEV) remove whatever is at the destination, archive the
 * source there and, when that succeeded, remove the source.
 */
module Move {
  import opened Common
  import opened Errors
  import opened Env
  import opened Flags
  import opened Retry
  import Archive

  /** The errno that makes rename fall back to copying. */
  const CrossDevice: set<nat> := {EXDEV}

  /** The EOF callback after the move is done: the only thing that can still say ABORTED. */
  function Announce(callback: bool, progress: Progress, w: World): (t: Tried)
    ensures t.Succeeded? || t == Gave(Exit(Aborted, 0), t.w) || t == Gave(OutOfScript, w)
  {
    if !callback then Succeeded(w)
    else if w.answers == [] then Gave(OutOfScript, w)
    else
      var w1 := Ask(w, Eof, progress, false);
      if w.answers[0] then Gave(Exit(Aborted, 0), w1) else Succeeded(w1)
  }

  /** After a successful rename or link: ALL_METADATA achieved, then the EOF callback. */
  function Renamed(callback: bool, progress: Progress, w: World): (o: Outcome)
    ensures o.done == AllMetadata
  {
    match Announce(callback, progress, w)
    case Succeeded(w1) => Outcome(Exit(NoError, 0), AllMetadata, w1)
    case Fallback(w1) => Outcome(OutOfScript, AllMetadata, w1)
    case Gave(out, w1) => Outcome(out, AllMetadata, w1)
  }

  /**
   * Removing the source after a successful copy: the archive's outcome,
   * unless the source cannot be unlinked, which returns UNLINK_SOURCE
   * (as soon as the callback says so, or at once without one). The copy is
   * not undone.
   */
  function RemoveSource(source: string, callback: bool, progress: Progress, a: Outcome): (o: Outcome)
    ensures o.done == a.done
  {
    var u := Unlinks(source, UnlinkSourceError, false, callback, progress, a.w);
    if u.Gave? then Outcome(u.out, a.done, u.w) else a.(w := u.w)
  }

  /**
   * The cross-device path: unlink the destination (ENOENT is fine), archive
   * the source with ALL_METADATA and no snapshot, and remove the source only
   * if that succeeded.
   */
  function Relocate(source: string, dest: string, callback: bool, progress: Progress, w: World): (o: Outcome)
  {
    var u := Unlinks(dest, UnlinkDestError, true, callback, progress, w);
    if u.Gave? then Outcome(u.out, {}, u.w)
    else
      var a := Archive.ArchiveSpec(source, dest, None, AllMetadata, callback, u.w);
      if Archive.Succeeded(a.out) then RemoveSource(source, callback, progress, a) else a
  }

  /** The start callback: a nonzero answer aborts before anything is done. */
  function Start(callback: bool, progress: Progress, w: World): (t: Tried)
    ensures t.Succeeded? || t == Gave(Exit(Aborted, 0), t.w) || t == Gave(OutOfScript, w)
  {
    if !callback then Succeeded(w)
    else if w.answers == [] then Gave(OutOfScript, w)
    else
      var w1 := Ask(w, NoError, progress, false);
      if w.answers[0] then Gave(Exit(Aborted, 0), w1) else Succeeded(w1)
  }

  /** copyfile_move_file. */
  function MoveSpec(source: string, dest: string, callback: bool, w: World): Outcome
  {
    var progress := Moving(source);
    var s := Start(callback, progress, w);
    if !s.Succeeded? then Outcome(s.out, {}, s.w)
    else
      match Attempts(Rename(source, dest), RenameError, CrossDevice, callback, progress, s.w)
      case Gave(out, w2) => Outcome(out, {}, w2)
      case Succeeded(w2) => Renamed(callback, progress, w2)
      case Fallback(w2) => Relocate(source, dest, callback, progress, w2)
  }

  /** The callback calls around a finished or starting move, as the C code makes them. */
  method AskCallback(state: CopyError, callback: bool, progress: Progress, w0: World) returns (t: Tried)
    requires state in {NoError, Eof}
    ensures state == NoError ==> t == Start(callback, progress, w0)
    ensures state == Eof ==> t == Announce(callback, progress, w0)
  {
    if !callback { return Succeeded(w0); }
    if w0.answers == [] { return Gave(OutOfScript, w0); }
    var nonzero := w0.answers[0];
    var w := Ask(w0, state, progress, false);
    if nonzero { return Gave(Exit(Aborted, 0), w); }
    return Succeeded(w);
  }

  /** The cross-device path as the C code runs it. */
  method RelocateFile(source: string, dest: string, callback: bool, progress: Progress, w0: World) returns (o: Outcome)
    ensures o == Relocate(source, dest, callback, progress, w0)
  {
    var u := UnlinkLoop(dest, UnlinkDestError, true, callback, progress, w0);
    if u.Gave? { return Outcome(u.out, {}, u.w); }
    var ret := Archive.ArchiveSpec(source, dest, None, AllMetadata, callback, u.w);
    if Archive.Succeeded(ret.out) {
      var r := UnlinkLoop(source, UnlinkSourceError, false, callback, progress, ret.w);
      if r.Gave? {
        ret := Outcome(r.out, ret.done, r.w);
      } else {
        ret := ret.(w := r.w);
      }
    }
    return ret;
  }

  /** The end of a successful rename or link as the C code runs it. */
  method AfterRename(callback: bool, progress: Progress, w0: World) returns (o: Outcome)
    ensures o == Renamed(callback, progress, w0)
  {
    var e := AskCallback(Eof, callback, progress, w0);
    if e.Succeeded? { return Outcome(Exit(NoError, 0), AllMetadata, e.w); }
    return Outcome(e.out, AllMetadata, e.w);
  }

  /** copyfile_move_file as the C code runs it. */
  method MoveFile(source: string, dest: string, callback: bool, w0: World) returns (o: Outcome)
    ensures o == MoveSpec(source, dest, callback, w0)
  {
    var progress := Moving(source);
    var s := AskCallback(NoError, callback, progress, w0);
    if !s.Succeeded? { return Outcome(s.out, {}, s.w); }
    var t := AttemptLoop(Rename(source, dest), RenameError, CrossDevice, callback, progress, s.w);
    if t.Gave? {
      o := Outcome(t.out, {}, t.w);
    } else if t.Succeeded? {
      o := AfterRename(callback, progress, t.w);
    } else {
      o := RelocateFile(source, dest, callback, progress, t.w);
    }
  }

  /** A nonzero start callback returns ABORTED before rename is tried, with nothing achieved. */
  lemma StartAborts(source: string, dest: string, callback: bool, w: World)
    requires callback && w.answers != [] && w.answers[0]
    ensures var o := MoveSpec(source, dest, callback, w);
      o == Outcome(Exit(Aborted, 0), {}, o.w) && o.w.calls == w.calls && o.w.log == w.log + [Asked(NoError, Moving(source), false, true)]
  {
  }

  /**
   * The first rename succeeding: ALL_METADATA is achieved, nothing is
   * copied or removed, and only the EOF callback can turn the result into
   * ABORTED.
   */
  lemma RenameSucceeds(source: string, dest: string, callback: bool, w: World)
    requires !callback || (w.answers != [] && !w.answers[0])
    requires w.calls != [] && w.calls[0].Ok?
    ensures var o := MoveSpec(source, dest, callback, w);
      && o.done == AllMetadata
      && (o.out.Exit? ==> o.out.err in {NoError, Aborted})
      && (o.out.Exit? && o.out.err == Aborted ==> callback && EndsWith(o.w, Asked(Eof, Moving(source), false, true)))
      && o.w.fs == w.fs
  {
    var progress := Moving(source);
    var s := Start(callback, progress, w);
    assert s.Succeeded? && s.w.calls == w.calls && s.w.fs == w.fs;
    var w2 := Invoke(s.w, Rename(source, dest));
    assert Attempts(Rename(source, dest), RenameError, CrossDevice, callback, progress, s.w) == Succeeded(w2);
  }

  /**
   * Removing the source keeps the copy and its metadata result, and starts
   * with an unlink of the source.
   */
  lemma RemoveKeepsCopy(source: string, callback: bool, progress: Progress, a: Outcome)
    ensures var o := RemoveSource(source, callback, progress, a);
      && o.done == a.done && o.w.fs == a.w.fs && Extends(a.w, o.w)
      && (a.w.calls != [] ==> |o.w.log| > |a.w.log| && o.w.log[|a.w.log|] == Did(Unlink(source), a.w.calls[0]))
  {
    UnlinksKeepFiles(source, UnlinkSourceError, false, callback, progress, a.w);
    LoopsExtend(Rename(source, source), source, UnlinkSourceError, CrossDevice, false, callback, progress, a.w);
    if a.w.calls != [] {
      UnlinkFirstEvent(source, UnlinkSourceError, false, callback, progress, a.w);
    }
  }

  /** Some event of `events` is an unlink of `source`. */
  predicate UnlinksSource(source: string, events: seq<Event>)
  {
    exists i :: 0 <= i < |events| && events[i].Did? && events[i].call == Unlink(source)
  }

  /**
   * On the cross-device path the source is unlinked only after a
   * successful archive copy: when the destination cannot be cleared nothing
   * follows; after a failed copy nothing follows it either, and its result
   * stands; after a successful one the very next call is unlink(source),
   * and whatever it does the copy and its achieved flags stay.
   */
  lemma CopyBeforeRemove(source: string, dest: string, callback: bool, progress: Progress, w: World)
    ensures var u := Unlinks(dest, UnlinkDestError, true, callback, progress, w); var o := Relocate(source, dest, callback, progress, w);
      && (u.Gave? ==> o.out == u.out && o.done == {} && o.w.log == u.w.log)
      && (u.Succeeded? ==>
            var a := Archive.ArchiveSpec(source, dest, None, AllMetadata, callback, u.w);
            && Extends(a.w, o.w) && o.w.fs == a.w.fs && o.done == a.done
            && (UnlinksSource(source, o.w.log[|a.w.log|..]) <==> Archive.Succeeded(a.out) && a.w.calls != [])
            && (!Archive.Succeeded(a.out) ==> o.out == a.out)
            && (Archive.Succeeded(a.out) && a.w.calls != [] ==> o.w.log[|a.w.log|] == Did(Unlink(source), a.w.calls[0])))
  {
    var u := Unlinks(dest, UnlinkDestError, true, callback, progress, w);
    if u.Succeeded? {
      var a := Archive.ArchiveSpec(source, dest, None, AllMetadata, callback, u.w);
      var o := Relocate(source, dest, callback, progress, w);
      if Archive.Succeeded(a.out) {
        RemoveKeepsCopy(source, callback, progress, a);
        if a.w.calls != [] {
          assert o.w.log[|a.w.log|..][0] == Did(Unlink(source), a.w.calls[0]);
        } else {
          assert o.w.log[|a.w.log|..] == [];
        }
      } else {
        assert o.w.log[|a.w.log|..] == [];
      }
    }
  }

  /** The unlink loop starts with an unlink of its path. */
  lemma UnlinkFirstEvent(path: string, err: CopyError, tolerant: bool, callback: bool, progress: Progress, w: World)
    requires w.calls != []
    ensures var t := Unlinks(path, err, tolerant, callback, progress, w);
      |t.w.log| > |w.log| && t.w.log[|w.log|] == Did(Unlink(path), w.calls[0])
  {
    var w1 := Invoke(w, Unlink(path));
    if !Gone(w.calls[0], tolerant) && callback && w1.answers != [] && !w1.answers[0] {
      var w2 := Ask(w1, err, progress, true);
      LoopsExtend(Rename(path, path), path, err, {}, tolerant, callback, progress, w2);
      assert w2.log[|w.log|] == Did(Unlink(path), w.calls[0]);
      var t := Unlinks(path, err, tolerant, callback, progress, w2);
      assert t.w.log[..|w2.log|] == w2.log;
    }
  }

  /**
   * The final `while (unlink(source))` loop as written: a failure sets
   * UNLINK_SOURCE (without a callback, or when the callback answers
   * nonzero) and the loop goes on; only a successful unlink leaves it, with
   * whatever `ret` then holds.
   */
  function RemoveSourceAsWritten(source: string, callback: bool, progress: Progress, ret: Out, w: World): (d: Done)
    ensures d.w.fs == w.fs
    decreases Size(w)
  {
    if w.calls == [] then Done(OutOfScript, w)
    else
      var reply := w.calls[0];
      var w1 := Invoke(w, Unlink(source));
      if reply.Ok? then Done(ret, w1)
      else if !callback then RemoveSourceAsWritten(source, callback, progress, Exit(UnlinkSourceError, reply.errno), w1)
      else if w1.answers == [] then Done(OutOfScript, w1)
      else
        var w2 := Ask(w1, UnlinkSourceError, progress, true);
        var ret' := if w1.answers[0] then Exit(UnlinkSourceError, reply.errno) else ret;
        RemoveSourceAsWritten(source, callback, progress, ret', w2)
  }

  /** As written, the loop never returns while unlink keeps failing: however long the script, it runs out. */
  lemma {:induction false} NeverGivesUp(source: string, callback: bool, progress: Progress, ret: Out, w: World)
    requires forall i :: 0 <= i < |w.calls| ==> w.calls[i].Fail?
    ensures RemoveSourceAsWritten(source, callback, progress, ret, w).out == OutOfScript
    decreases Size(w)
  {
    if w.calls != [] {
      var w1 := Invoke(w, Unlink(source));
      assert forall i :: 0 <= i < |w1.calls| ==> w1.calls[i] == w.calls[i + 1];
      if !callback {
        NeverGivesUp(source, callback, progress, Exit(UnlinkSourceError, w.calls[0].errno), w1);
      } else if w1.answers != [] {
        var w2 := Ask(w1, UnlinkSourceError, progress, true);
        var ret' := if w1.answers[0] then Exit(UnlinkSourceError, w.calls[0].errno) else ret;
        NeverGivesUp(source, callback, progress, ret', w2);
      }
    }
  }

  /**
   * The inputs that show it: one EACCES and no callback leaves the loop
   * as written spinning (here, running out of script), where the corrected
   * loop returns UNLINK_SOURCE; an EACCES answered nonzero and then a
   * successful unlink returns UNLINK_SOURCE although the source is gone,
   * where the corrected loop stops at the answer and makes no second unlink.
   */
  lemma RemoveSourceCounterexample(source: string, progress: Progress, done: set<Flag>, fs: Fs)
    ensures var w := World([Fail(EACCES)], [], [], fs);
      && RemoveSourceAsWritten(source, false, progress, Exit(NoError, 0), w).out == OutOfScript
      && RemoveSource(source, false, progress, Outcome(Exit(NoError, 0), done, w)).out == Exit(UnlinkSourceError, EACCES)
    ensures var w := World([Fail(EACCES), Ok(0)], [true], [], fs);
      && RemoveSourceAsWritten(source, true, progress, Exit(NoError, 0), w)
           == Done(Exit(UnlinkSourceError, EACCES), World([], [], [Did(Unlink(source), Fail(EACCES)), Asked(UnlinkSourceError, progress, true, true), Did(Unlink(source), Ok(0))], fs))
      && RemoveSource(source, true, progress, Outcome(Exit(NoError, 0), done, w))
           == Outcome(Exit(UnlinkSourceError, EACCES), done, World([Ok(0)], [], [Did(Unlink(source), Fail(EACCES)), Asked(UnlinkSourceError, progress, true, true)], fs))
  {
  }

  /**
   * The corrected loop gives up on a failed unlink of the source: at once
   * without a callback, and as soon as the callback answers nonzero, each
   * time with UNLINK_SOURCE and that unlink's errno.
   */
  lemma RemoveSourceGivesUp(source: string, callback: bool, progress: Progress, a: Outcome)
    requires a.w.calls != [] && a.w.calls[0].Fail?
    requires callback ==> a.w.answers != [] && a.w.answers[0]
    ensures var o := RemoveSource(source, callback, progress, a);
      && o.out == Exit(UnlinkSourceError, a.w.calls[0].errno)
      && o.done == a.done
      && |o.w.log| == |a.w.log| + (if callback then 2 else 1)
  {
  }
}
