/**
 * copyfile_link_file: make a hard link; when the file system refuses one
 * across devices (EXDEV) or for this file (EPERM), archive the source at the
 * destination instead.
 */
module Link {
  import opened Common
  import opened Errors
  import opened Env
  import opened Flags
  import CopyFile
  import Archive

  /** The errno values of link(2) that fall back to copying. */
  const LinkFallback: set<nat> := {EXDEV, EPERM}

  /** copyfile_link_file: no callback is made when the link is made. */
  function LinkFileSpec(source: string, dest: string, callback: bool, w: World): (o: Outcome)
  {
    if w.calls == [] then Outcome(OutOfScript, {}, w)
    else
      var reply := w.calls[0];
      var w1 := Invoke(w, Link(source, dest));
      if reply.Ok? then Outcome(Exit(NoError, 0), AllMetadata, w1)
      else if reply.errno !in LinkFallback then Outcome(Exit(LinkError, reply.errno), {}, w1)
      else Archive.ArchiveSpec(source, dest, None, AllMetadata, callback, w1)
  }

  /** A made link achieves ALL_METADATA at once: one call, no callback, no copy. */
  lemma LinkMade(source: string, dest: string, callback: bool, w: World)
    requires w.calls != [] && w.calls[0].Ok?
    ensures var o := LinkFileSpec(source, dest, callback, w);
      && o.out == Exit(NoError, 0) && o.done == AllMetadata
      && o.w.log == w.log + [Did(Link(source, dest), w.calls[0])]
      && o.w.answers == w.answers && o.w.fs == w.fs
  {
  }

  /** Any other link failure returns LINK with its errno, with nothing achieved and nothing else tried. */
  lemma LinkRefused(source: string, dest: string, callback: bool, w: World)
    requires w.calls != [] && w.calls[0].Fail? && w.calls[0].errno !in LinkFallback
    ensures var o := LinkFileSpec(source, dest, callback, w);
      && o.out == Exit(LinkError, w.calls[0].errno) && o.done == {}
      && o.w.log == w.log + [Did(Link(source, dest), w.calls[0])]
  {
  }

  /**
   * EXDEV or EPERM falls back to an archive copy with ALL_METADATA:
   * metadata is achieved only after the contents were copied,
   * and a regular file archived without error has the source's data at the
   * destination.
   */
  lemma LinkFallsBack(source: string, dest: string, callback: bool, w: World)
    requires w.calls != [] && w.calls[0].Fail? && w.calls[0].errno in LinkFallback
    ensures var o := LinkFileSpec(source, dest, callback, w); var w1 := Invoke(w, Link(source, dest));
      && o.done <= AllMetadata
      && (o.done != {} ==> Archive.Succeeded(CopyFile.CopyFileSpec(source, dest, None, callback, w1).out))
      && (FileType(w.fs.stat.mode) == S_IFREG && Archive.Succeeded(o.out) ==> o.w.fs.dest == w.fs.data)
  {
    var w1 := Invoke(w, Link(source, dest));
    Archive.ArchiveResult(source, dest, None, AllMetadata, callback, w1);
  }
}
