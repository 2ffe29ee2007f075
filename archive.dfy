/**
 * copyfile_archive_file: copy a file's contents, then its metadata, from
 * the same stat snapshot (taken with lstat when none is given). A failed
 * content copy returns its error with no metadata achieved.
 */
module Archive {
  import opened Common
  import opened Errors
  import opened Env
  import opened Flags
  import CopyFile
  import Metadata

  /** A copier returned NO_ERROR (the errno it leaves is not looked at). */
  predicate Succeeded(out: Out)
  {
    out.Exit? && out.err == NoError
  }

  /** copyfile_archive_file. */
  function ArchiveSpec(source: string, dest: string, st: Option<Snapshot>, flags: set<Flag>, callback: bool, w: World): Outcome
  {
    if st.None? && w.calls == [] then Outcome(OutOfScript, {}, w)
    else if st.None? && w.calls[0].Fail? then Outcome(Exit(StatError, w.calls[0].errno), {}, Invoke(w, Lstat(source)))
    else
      var snapshot := CopyFile.Subject(st, w);
      var w1 := if st.None? then Invoke(w, Lstat(source)) else w;
      var d := CopyFile.CopyFileSpec(source, dest, Some(snapshot), callback, w1);
      if !Succeeded(d.out) then Outcome(d.out, {}, d.w)
      else Metadata.CopyMetadataSpec(source, dest, Some(snapshot), flags, d.w)
  }

  /**
   * The archive copy is copy_file followed, when that succeeds, by
   * copy_metadata on the same snapshot; a failing copy_file is returned as
   * is, with no metadata achieved and no metadata call made.
   */
  lemma ArchiveComposes(source: string, dest: string, st: Option<Snapshot>, flags: set<Flag>, callback: bool, w: World)
    ensures var d := CopyFile.CopyFileSpec(source, dest, st, callback, w); var o := ArchiveSpec(source, dest, st, flags, callback, w);
      && (!Succeeded(d.out) ==> o == Outcome(d.out, {}, d.w))
      && (Succeeded(d.out) ==> o == Metadata.CopyMetadataSpec(source, dest, Some(CopyFile.Subject(st, w)), flags, d.w))
  {
  }

  /**
   * Only requested metadata is reported achieved, and only after the
   * contents were copied; a regular file archived without error has the
   * source's data at the destination.
   */
  lemma ArchiveResult(source: string, dest: string, st: Option<Snapshot>, flags: set<Flag>, callback: bool, w: World)
    ensures var d := CopyFile.CopyFileSpec(source, dest, st, callback, w); var o := ArchiveSpec(source, dest, st, flags, callback, w);
      && o.done <= Metadata.Requested(flags)
      && (o.done != {} ==> Succeeded(d.out))
      && (FileType(CopyFile.Subject(st, w).mode) == S_IFREG && Succeeded(o.out) ==> o.w.fs.dest == w.fs.data)
  {
    var d := CopyFile.CopyFileSpec(source, dest, st, callback, w);
    ArchiveComposes(source, dest, st, flags, callback, w);
    if Succeeded(d.out) {
      Metadata.MetadataWithin(source, dest, Some(CopyFile.Subject(st, w)), flags, d.w);
      Metadata.MetadataKeepsFiles(source, dest, Some(CopyFile.Subject(st, w)), flags, d.w);
      if FileType(CopyFile.Subject(st, w).mode) == S_IFREG {
        CopyFile.RegularCopied(source, dest, st, callback, w);
      }
    }
  }
}
