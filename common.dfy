/**
 * Build-time constants shared by the whole library: the intermediate buffer
 * size, the progress-callback cadence and the default permission bits, with
 * the file-type bits of st_mode they are combined with.
 *
 * Modes are 32-bit words (mode_t) holding the values IEEE Std 1003.1 gives
 * in <sys/stat.h> and that Linux uses.
 */
module Common {

  type Mode = bv32

  /** Size of the stack buffer of the stream copier and the symlink copier. */
  const BufferSize: nat := 4096

  /** The stream copier reports progress every this many loop iterations. */
  const CallbackOpCount: nat := 64

  // permission bits
  const S_IRWXU: Mode := 0x1C0  // 0700
  const S_IRWXG: Mode := 0x038  // 0070
  const S_IRWXO: Mode := 0x007  // 0007
  const S_IXUSR: Mode := 0x040  // 0100
  const S_IXGRP: Mode := 0x008  // 0010
  const S_IXOTH: Mode := 0x001  // 0001
  const S_ISUID: Mode := 0x800  // 04000
  const S_ISGID: Mode := 0x400  // 02000
  const S_ISVTX: Mode := 0x200  // 01000

  // file-type bits
  const S_IFMT: Mode   := 0xF000  // 0170000
  const S_IFSOCK: Mode := 0xC000  // 0140000
  const S_IFLNK: Mode  := 0xA000  // 0120000
  const S_IFREG: Mode  := 0x8000  // 0100000
  const S_IFBLK: Mode  := 0x6000  // 0060000
  const S_IFDIR: Mode  := 0x4000  // 0040000
  const S_IFCHR: Mode  := 0x2000  // 0020000
  const S_IFIFO: Mode  := 0x1000  // 0010000

  /** Default permissions of a created directory: rwx for everybody. */
  const PermDir: Mode := S_IRWXU | S_IRWXG | S_IRWXO

  /** Default permissions of a created file: those of a directory minus every execute bit. */
  const PermFile: Mode := PermDir & !(S_IXUSR | S_IXGRP | S_IXOTH)

  /** Every bit chmod may set: the directory default plus setuid, setgid and sticky. */
  const AllPermBits: Mode := PermDir | S_ISUID | S_ISGID | S_ISVTX

  /** `a` holds no bit that `b` lacks. */
  predicate BitsWithin(a: Mode, b: Mode)
  {
    a & !b == 0
  }

  /** The file-type part of a mode (`st_mode & S_IFMT`). */
  function FileType(mode: Mode): (t: Mode)
    ensures BitsWithin(t, S_IFMT)
  {
    mode & S_IFMT
  }

  predicate IsSymlink(mode: Mode)
  {
    FileType(mode) == S_IFLNK
  }

  /** The three permission defaults nest, and have the usual octal values. */
  lemma PermissionDefaults()
    ensures BitsWithin(PermFile, PermDir) && BitsWithin(PermDir, AllPermBits)
    ensures PermFile == PermDir & !(S_IXUSR | S_IXGRP | S_IXOTH)
    ensures PermFile == 0x1B6 && PermDir == 0x1FF && AllPermBits == 0xFFF  // 0666, 0777, 07777
    ensures AllPermBits & !PermDir == S_ISUID | S_ISGID | S_ISVTX
    ensures BitsWithin(AllPermBits, !S_IFMT)
  {
  }

  /** The build defaults of the two tuning constants. */
  lemma TuningDefaults()
    ensures BufferSize == 4096 && CallbackOpCount == 64
  {
  }
}
