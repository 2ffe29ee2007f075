/**
 * copyfile_copy_file: copy a file's contents (a regular file's data, a
 * symlink's target, or a new special file of the same type), picked by the
 * file type of a stat snapshot, taken with lstat when none is given.
 */
module CopyFile {
  import opened Common
  import opened Errors
  import opened Env
  import Regular
  import Symlink
  import SymlinkFacts
  import Special

  /** off_t st_size converted to the size_t expected length: modulo 2^64. */
  function AsSize(size: int): (n: nat)
    ensures n <= Symlink.SizeMax
    ensures 0 <= size <= Symlink.SizeMax ==> n == size
  {
    size % (Symlink.SizeMax + 1)
  }

  /** The symlink copier's arguments for a snapshot. */
  function LinkRequest(source: string, dest: string, st: Snapshot, callback: bool): Symlink.Request
  {
    Symlink.Request(source, dest, AsSize(st.size), callback)
  }

  /** The special-file creator's arguments for a snapshot: the destination, the type and st_rdev. */
  function NodeRequest(dest: string, st: Snapshot, callback: bool): Special.Request
  {
    Special.Request(dest, FileType(st.mode), st.rdev, callback)
  }

  /** The `switch` on `st_mode & S_IFMT`. */
  function Dispatch(source: string, dest: string, st: Snapshot, callback: bool, w: World): Done
  {
    var ftype := FileType(st.mode);
    if ftype == S_IFREG then Regular.Regular(source, dest, st.size, callback, w)
    else if ftype == S_IFLNK then Symlink.CopySymlinkSpec(LinkRequest(source, dest, st, callback), w)
    else Special.CreateSpecialSpec(NodeRequest(dest, st, callback), w)
  }

  /** The snapshot the copy works from: the given one, else what lstat reports. */
  function Subject(st: Option<Snapshot>, w: World): Snapshot
  {
    if st.Some? then st.value else w.fs.stat
  }

  /** copyfile_copy_file. */
  function CopyFileSpec(source: string, dest: string, st: Option<Snapshot>, callback: bool, w: World): Done
  {
    if st.Some? then Dispatch(source, dest, st.value, callback, w)
    else if w.calls == [] then Done(OutOfScript, w)
    else if w.calls[0].Fail? then Done(Exit(StatError, w.calls[0].errno), Invoke(w, Lstat(source)))
    else Dispatch(source, dest, w.fs.stat, callback, Invoke(w, Lstat(source)))
  }

  /** A special file is created at the destination with the source's type and device number. */
  lemma SpecialCreated(source: string, dest: string, st: Option<Snapshot>, callback: bool, w: World)
    requires FileType(Subject(st, w).mode) !in {S_IFREG, S_IFLNK}
    ensures var d := CopyFileSpec(source, dest, st, callback, w); var q := NodeRequest(dest, Subject(st, w), callback);
      d.out.Exit? && d.out.err == NoError ==> Special.LoopExit(q, d.out, d.w.log) && q.path == dest && q.devid == Subject(st, w).rdev
  {
    var q := NodeRequest(dest, Subject(st, w), callback);
    if st.Some? {
      Special.SpecialExits(q, w);
    } else if w.calls != [] && w.calls[0].Ok? {
      Special.SpecialExits(q, Invoke(w, Lstat(source)));
    }
  }

  /** Without a snapshot, a failing lstat returns STAT with its errno and nothing else is done. */
  lemma StatFails(source: string, dest: string, callback: bool, w: World)
    requires w.calls != [] && w.calls[0].Fail?
    ensures var d := CopyFileSpec(source, dest, None, callback, w);
      d.out == Exit(StatError, w.calls[0].errno) && d.w.log == w.log + [Did(Lstat(source), w.calls[0])]
  {
  }

  /** A regular file copied without error leaves the destination holding the source's data. */
  lemma RegularCopied(source: string, dest: string, st: Option<Snapshot>, callback: bool, w: World)
    requires FileType(Subject(st, w).mode) == S_IFREG
    ensures var d := CopyFileSpec(source, dest, st, callback, w);
      d.out.Exit? && d.out.err == NoError ==> d.w.fs.dest == w.fs.data
  {
    var snapshot := Subject(st, w);
    if st.Some? {
      Regular.RegularCopies(source, dest, snapshot.size, callback, w);
    } else if w.calls != [] && w.calls[0].Ok? {
      Regular.RegularCopies(source, dest, snapshot.size, callback, Invoke(w, Lstat(source)));
    }
  }

  /** The largest buffer the symlink copier asks for, given the expected length. */
  function Bound(n: nat): nat
  {
    if n < BufferSize then Symlink.MaxSize else SymlinkFacts.HeapBound(Symlink.FirstHeapSize(n))
  }

  /**
   * A symlink is read with buffers sized from st_size: a size below the
   * stack buffer never asks for more than readlink can report, a larger one
   * never for more than the heap phase's bound for that size.
   */
  lemma SymlinkSized(source: string, dest: string, st: Option<Snapshot>, callback: bool, w: World)
    requires IsSymlink(Subject(st, w).mode)
    ensures var d := CopyFileSpec(source, dest, st, callback, w); var n := AsSize(Subject(st, w).size);
      Extends(w, d.w) && SymlinkFacts.SizesWithin(d.w.log[|w.log|..], Bound(n))
  {
    var q := LinkRequest(source, dest, Subject(st, w), callback);
    if st.Some? {
      SymlinkFacts.SymlinkSizesBounded(q, w);
    } else if w.calls != [] {
      var w1 := Invoke(w, Lstat(source));
      if w.calls[0].Ok? {
        SymlinkFacts.SymlinkSizesBounded(q, w1);
        SymlinkFacts.WithinQuiet(w, w1, Did(Lstat(source), w.calls[0]), Bound(q.expected));
        SymlinkFacts.WithinJoin(w, w1, CopyFileSpec(source, dest, st, callback, w).w, Bound(q.expected));
      } else {
        SymlinkFacts.WithinQuiet(w, w1, Did(Lstat(source), w.calls[0]), Bound(q.expected));
      }
    }
  }
}
