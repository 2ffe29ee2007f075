/**
 * copyfile_link_file_dedup: clone a known duplicate of the source to the
 * destination and copy the source's metadata onto it; failing that, replace
 * the destination with a hard link to the source (retrying per the
 * callback), and archive the source there when no link can be made.
 */
module LinkDedup {
  import opened Common
  import opened Errors
  import opened Env
  import opened Flags
  import opened Retry
  import CopyFile
  import Clone
  import Metadata
  import Archive
  import Link
  import Move

  /** After the clone failed: start callback, one unlink of the destination, the link loop, and the fallback. */
  function Linked(source: string, dest: string, st: Snapshot, callback: bool, w: World): (o: Outcome)
  {
    var progress := Linking(source);
    var s := Move.Start(callback, progress, w);
    if !s.Succeeded? then Outcome(s.out, {}, s.w)
    else if s.w.calls == [] then Outcome(OutOfScript, {}, s.w)
    else
      var reply := s.w.calls[0];
      var w1 := Invoke(s.w, Unlink(dest));
      if !Gone(reply, true) then Outcome(Exit(UnlinkDestError, reply.errno), {}, w1)
      else
        match Attempts(Link(source, dest), LinkError, Link.LinkFallback, callback, progress, w1)
        case Gave(out, w2) => Outcome(out, {}, w2)
        case Succeeded(w2) => Move.Renamed(callback, progress, w2)
        case Fallback(w2) => Archive.ArchiveSpec(source, dest, Some(st), AllMetadata, callback, w2)
  }

  /** copyfile_link_file_dedup: lstat when no snapshot is given, then the clone from `dup`. */
  function LinkDedupSpec(source: string, dest: string, dup: string, st: Option<Snapshot>, callback: bool, w: World): (o: Outcome)
  {
    if st.None? && w.calls == [] then Outcome(OutOfScript, {}, w)
    else if st.None? && w.calls[0].Fail? then Outcome(Exit(StatError, w.calls[0].errno), {}, Invoke(w, Lstat(source)))
    else
      var snapshot := CopyFile.Subject(st, w);
      var w1 := if st.None? then Invoke(w, Lstat(source)) else w;
      var c := Clone.CloneFileSpec(dup, dest, Some(snapshot), w1);
      if c.out.OutOfScript? then Outcome(OutOfScript, {}, c.w)
      else if Archive.Succeeded(c.out) then Metadata.CopyMetadataSpec(source, dest, Some(snapshot), AllMetadata, c.w)
      else Linked(source, dest, snapshot, callback, c.w)
  }

  /** The link attempts after the clone failed, as the C code runs them. */
  method LinkInstead(source: string, dest: string, st: Snapshot, callback: bool, w0: World) returns (o: Outcome)
    ensures o == Linked(source, dest, st, callback, w0)
  {
    var progress := Linking(source);
    var s := Move.AskCallback(NoError, callback, progress, w0);
    if !s.Succeeded? { return Outcome(s.out, {}, s.w); }
    var w := s.w;
    if w.calls == [] { return Outcome(OutOfScript, {}, w); }
    var reply := w.calls[0];
    w := Invoke(w, Unlink(dest));
    if reply.Fail? && reply.errno != ENOENT {
      return Outcome(Exit(UnlinkDestError, reply.errno), {}, w);
    }
    var t := AttemptLoop(Link(source, dest), LinkError, Link.LinkFallback, callback, progress, w);
    if t.Gave? {
      o := Outcome(t.out, {}, t.w);
    } else if t.Succeeded? {
      o := Move.AfterRename(callback, progress, t.w);
    } else {
      o := Archive.ArchiveSpec(source, dest, Some(st), AllMetadata, callback, t.w);
    }
  }

  /** copyfile_link_file_dedup as the C code runs it. */
  method LinkFileDedup(source: string, dest: string, dup: string, st: Option<Snapshot>, callback: bool, w0: World) returns (o: Outcome)
    ensures o == LinkDedupSpec(source, dest, dup, st, callback, w0)
  {
    var w := w0;
    var snapshot: Snapshot;
    if st.None? {
      if w.calls == [] { return Outcome(OutOfScript, {}, w); }
      var statReply := w.calls[0];
      w := Invoke(w, Lstat(source));
      if statReply.Fail? { return Outcome(Exit(StatError, statReply.errno), {}, w); }
      snapshot := w0.fs.stat;
    } else {
      snapshot := st.value;
    }
    var c := Clone.CloneFile(dup, dest, Some(snapshot), w);
    if c.out.OutOfScript? { return Outcome(OutOfScript, {}, c.w); }
    if c.out.err == NoError {
      o := Metadata.CopyMetadata(source, dest, Some(snapshot), AllMetadata, c.w);
    } else {
      o := LinkInstead(source, dest, snapshot, callback, c.w);
    }
  }

  /**
   * A successful clone is followed by the metadata copy from the real
   * source and nothing else: the destination keeps the duplicate's
   * contents, and only metadata results and codes can come back.
   */
  lemma CloneThenMetadata(source: string, dest: string, dup: string, st: Option<Snapshot>, callback: bool, w: World)
    requires st.None? ==> w.calls != [] && w.calls[0].Ok?
    requires Archive.Succeeded(Clone.CloneFileSpec(dup, dest, Some(CopyFile.Subject(st, w)), if st.None? then Invoke(w, Lstat(source)) else w).out)
    ensures var o := LinkDedupSpec(source, dest, dup, st, callback, w);
      && o.w.fs.dest == w.fs.data
      && o.done <= AllMetadata
      && (o.out.Exit? ==> o.out.err in {NoError, StatError, ChownError, ChmodError, UtimeError})
  {
    var snapshot := CopyFile.Subject(st, w);
    var w1 := if st.None? then Invoke(w, Lstat(source)) else w;
    var c := Clone.CloneFileSpec(dup, dest, Some(snapshot), w1);
    Clone.KnownCloneCopies(dup, dest, snapshot, w1);
    Metadata.MetadataWithin(source, dest, Some(snapshot), AllMetadata, c.w);
    Metadata.MetadataKeepsFiles(source, dest, Some(snapshot), AllMetadata, c.w);
  }

  /**
   * Unlike the move copiers, the destination is unlinked once: a failure
   * other than ENOENT returns UNLINK_DEST at once, with or without a
   * callback, and no link is tried.
   */
  lemma UnlinkDestOnce(source: string, dest: string, st: Snapshot, callback: bool, w: World)
    requires Move.Start(callback, Linking(source), w).Succeeded?
    requires var w1 := Move.Start(callback, Linking(source), w).w;
      w1.calls != [] && w1.calls[0].Fail? && w1.calls[0].errno != ENOENT
    ensures var w1 := Move.Start(callback, Linking(source), w).w; var o := Linked(source, dest, st, callback, w);
      && o == Outcome(Exit(UnlinkDestError, w1.calls[0].errno), {}, Invoke(w1, Unlink(dest)))
      && |o.w.log| == |w.log| + (if callback then 2 else 1)
  {
  }

  /**
   * After the destination is out of the way: a made link achieves
   * ALL_METADATA (only the EOF callback may still say ABORTED), a refusal
   * returns LINK with the refused link's errno right after it or after the
   * callback's nonzero answer, and EXDEV or EPERM archives with the same
   * snapshot.
   */
  lemma LinkLoopEnds(source: string, dest: string, st: Snapshot, callback: bool, w: World)
    ensures var progress := Linking(source);
      var t := Attempts(Link(source, dest), LinkError, Link.LinkFallback, callback, progress, w);
      var o := match t
        case Gave(out, w2) => Outcome(out, {}, w2)
        case Succeeded(w2) => Move.Renamed(callback, progress, w2)
        case Fallback(w2) => Archive.ArchiveSpec(source, dest, Some(st), AllMetadata, callback, w2);
      && AttemptEnd(Link(source, dest), LinkError, Link.LinkFallback, callback, progress, t)
      && (t.Succeeded? ==> o.done == AllMetadata && (o.out.Exit? ==> o.out.err in {NoError, Aborted}))
      && (t.Gave? ==> o.done == {} && (o.out.Exit? ==> o.out.err == LinkError))
      && (t.Fallback? ==> o.done <= AllMetadata)
  {
    var progress := Linking(source);
    var t := Attempts(Link(source, dest), LinkError, Link.LinkFallback, callback, progress, w);
    AttemptsEnd(Link(source, dest), LinkError, Link.LinkFallback, callback, progress, w);
    if t.Fallback? {
      Archive.ArchiveResult(source, dest, Some(st), AllMetadata, callback, t.w);
    }
  }
}
