/**
 * copyfile_move_file_dedup: clone a known duplicate of the source to the
 * destination, copy the source's metadata onto it and remove the source;
 * failing the clone, move as copyfile_move_file does, except that after a
 * successful rename the source name is unlinked too (it survives a rename
 * onto a hard link of itself).
 */
module MoveDedup {
  import opened Common
  import opened Errors
  import opened Env
  import opened Flags
  import opened Retry
  import CopyFile
  import Clone
  import Metadata
  import Archive
  import Move

  /** After a successful rename: ALL_METADATA, the EOF callback, then the source name is unlinked (ENOENT is fine). */
  function RenamedThenUnlinked(source: string, callback: bool, progress: Progress, w: World): (o: Outcome)
    ensures o.done == AllMetadata
  {
    match Move.Announce(callback, progress, w)
    case Succeeded(w1) =>
      var u := Unlinks(source, UnlinkSourceError, true, callback, progress, w1);
      if u.Gave? then Outcome(u.out, AllMetadata, u.w) else Outcome(Exit(NoError, 0), AllMetadata, u.w)
    case Fallback(w1) => Outcome(OutOfScript, AllMetadata, w1)
    case Gave(out, w1) => Outcome(out, AllMetadata, w1)
  }

  /** The clone succeeded: copy the metadata from the real source, and remove the source if that succeeded. */
  function ClonedThenRemoved(source: string, dest: string, st: Snapshot, callback: bool, progress: Progress, w: World): (o: Outcome)
  {
    var ret := Metadata.CopyMetadataSpec(source, dest, Some(st), AllMetadata, w);
    if Archive.Succeeded(ret.out) then Move.RemoveSource(source, callback, progress, ret) else ret
  }

  /** copyfile_move_file_dedup. */
  function MoveDedupSpec(source: string, dest: string, dup: string, st: Option<Snapshot>, callback: bool, w: World): (o: Outcome)
  {
    if st.None? && w.calls == [] then Outcome(OutOfScript, {}, w)
    else if st.None? && w.calls[0].Fail? then Outcome(Exit(StatError, w.calls[0].errno), {}, Invoke(w, Lstat(source)))
    else
      var snapshot := CopyFile.Subject(st, w);
      var w1 := if st.None? then Invoke(w, Lstat(source)) else w;
      var progress := Moving(source);
      var s := Move.Start(callback, progress, w1);
      if !s.Succeeded? then Outcome(s.out, {}, s.w)
      else
        var c := Clone.CloneFileSpec(dup, dest, Some(snapshot), s.w);
        if c.out.OutOfScript? then Outcome(OutOfScript, {}, c.w)
        else if Archive.Succeeded(c.out) then ClonedThenRemoved(source, dest, snapshot, callback, progress, c.w)
        else
          match Attempts(Rename(source, dest), RenameError, Move.CrossDevice, callback, progress, c.w)
          case Gave(out, w2) => Outcome(out, {}, w2)
          case Succeeded(w2) => RenamedThenUnlinked(source, callback, progress, w2)
          case Fallback(w2) => Move.Relocate(source, dest, callback, progress, w2)
  }

  /** The end of a successful rename as the C code runs it. */
  method AfterRenameDedup(source: string, callback: bool, progress: Progress, w0: World) returns (o: Outcome)
    ensures o == RenamedThenUnlinked(source, callback, progress, w0)
  {
    var e := Move.AskCallback(Eof, callback, progress, w0);
    if !e.Succeeded? { return Outcome(e.out, AllMetadata, e.w); }
    var u := UnlinkLoop(source, UnlinkSourceError, true, callback, progress, e.w);
    if u.Gave? { return Outcome(u.out, AllMetadata, u.w); }
    return Outcome(Exit(NoError, 0), AllMetadata, u.w);
  }

  /** The clone branch as the C code runs it, with the final unlink of the source. */
  method CloneBranch(source: string, dest: string, st: Snapshot, callback: bool, progress: Progress, w0: World) returns (o: Outcome)
    ensures o == ClonedThenRemoved(source, dest, st, callback, progress, w0)
  {
    var ret := Metadata.CopyMetadata(source, dest, Some(st), AllMetadata, w0);
    if Archive.Succeeded(ret.out) {
      var r := UnlinkLoop(source, UnlinkSourceError, false, callback, progress, ret.w);
      if r.Gave? {
        ret := Outcome(r.out, ret.done, r.w);
      } else {
        ret := ret.(w := r.w);
      }
    }
    return ret;
  }

  /** copyfile_move_file_dedup as the C code runs it. */
  method MoveFileDedup(source: string, dest: string, dup: string, st: Option<Snapshot>, callback: bool, w0: World) returns (o: Outcome)
    ensures o == MoveDedupSpec(source, dest, dup, st, callback, w0)
  {
    var w := w0;
    var snapshot: Snapshot;
    if st.None? {
      if w.calls == [] { return Outcome(OutOfScript, {}, w); }
      var statReply := w.calls[0];
      w := Invoke(w, Lstat(source));
      if statReply.Fail? { return Outcome(Exit(StatError, statReply.errno), {}, w); }
      snapshot := w0.fs.stat;
    } else {
      snapshot := st.value;
    }
    var progress := Moving(source);
    var s := Move.AskCallback(NoError, callback, progress, w);
    if !s.Succeeded? { return Outcome(s.out, {}, s.w); }
    var c := Clone.CloneFile(dup, dest, Some(snapshot), s.w);
    if c.out.OutOfScript? { return Outcome(OutOfScript, {}, c.w); }
    if c.out.err == NoError {
      o := CloneBranch(source, dest, snapshot, callback, progress, c.w);
      return;
    }
    var t := AttemptLoop(Rename(source, dest), RenameError, Move.CrossDevice, callback, progress, c.w);
    if t.Gave? {
      o := Outcome(t.out, {}, t.w);
    } else if t.Succeeded? {
      o := AfterRenameDedup(source, callback, progress, t.w);
    } else {
      o := Move.RelocateFile(source, dest, callback, progress, t.w);
    }
  }

  /** Without a snapshot, a failed lstat returns STAT before the start callback is asked. */
  lemma StatBeforeStart(source: string, dest: string, dup: string, callback: bool, w: World)
    requires w.calls != [] && w.calls[0].Fail?
    ensures var o := MoveDedupSpec(source, dest, dup, None, callback, w);
      && o.out == Exit(StatError, w.calls[0].errno) && o.done == {}
      && o.w.answers == w.answers && o.w.log == w.log + [Did(Lstat(source), w.calls[0])]
  {
  }

  /**
   * After a successful clone: a failed metadata copy is returned as it is
   * and the source stays; a successful one is followed by removing the
   * source, which keeps the cloned contents and the metadata result.
   */
  lemma CloneThenRemove(source: string, dest: string, st: Snapshot, callback: bool, progress: Progress, w: World)
    ensures var ret := Metadata.CopyMetadataSpec(source, dest, Some(st), AllMetadata, w);
      var o := ClonedThenRemoved(source, dest, st, callback, progress, w);
      && o.done == ret.done && o.done <= AllMetadata
      && o.w.fs == w.fs
      && (!Archive.Succeeded(ret.out) ==> o == ret)
      && (Archive.Succeeded(ret.out) && ret.w.calls != [] ==> |o.w.log| > |ret.w.log| && o.w.log[|ret.w.log|] == Did(Unlink(source), ret.w.calls[0]))
  {
    var ret := Metadata.CopyMetadataSpec(source, dest, Some(st), AllMetadata, w);
    Metadata.MetadataWithin(source, dest, Some(st), AllMetadata, w);
    Metadata.MetadataKeepsFiles(source, dest, Some(st), AllMetadata, w);
    Move.RemoveKeepsCopy(source, callback, progress, ret);
  }

  /**
   * After a successful rename: ALL_METADATA is achieved whatever follows;
   * NO_ERROR means the last call was an unlink of the source name that
   * removed it or found it already gone, and the other codes are ABORTED
   * (from the EOF callback) and UNLINK_SOURCE.
   */
  lemma RenameThenUnlink(source: string, callback: bool, progress: Progress, w: World)
    ensures var o := RenamedThenUnlinked(source, callback, progress, w);
      && o.done == AllMetadata && o.w.fs == w.fs
      && (o.out.Exit? ==> o.out.err in {NoError, Aborted, UnlinkSourceError})
      && (o.out == Exit(NoError, 0) ==> EndsWithCall(o.w, Unlink(source)) && Gone(LastReply(o.w), true))
  {
    var a := Move.Announce(callback, progress, w);
    if a.Succeeded? {
      UnlinksEnd(source, UnlinkSourceError, true, callback, progress, a.w);
      UnlinksKeepFiles(source, UnlinkSourceError, true, callback, progress, a.w);
    }
  }
}
