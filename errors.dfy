/**
 * The closed set of outcome codes and the catalogue that maps each one to a
 * message for the user.
 */
module Errors {

  /**
   * copyfile_error_t. Each failure names the system call that failed; the
   * operating-system error number travels beside it. The three sentinels
   * (DomainMax, Eof, ErrorMax) mark ranges and the end of a stream, and
   * OutOfRange stands for any value a C caller may cast into the enum.
   */
  datatype CopyError =
    | NoError
    | OpenSourceError | OpenDestError | ReadError | WriteError | TruncateError
    | ReadlinkError | SymlinkError | MallocError | StatError
    | MkdirError | MkfifoError | MknodError | SocketError | BindError
    | ChownError | ChmodError | UtimeError
    | XattrListError | XattrGetError | XattrSetError
    | AclGetError | AclSetError | CapGetError | CapSetError
    | LinkError | RenameError | UnlinkSourceError | UnlinkDestError
    | IoctlCloneError
    | DomainMax
    | InternalError | SymlinkTargetTooLong | SocketDestTooLong | Unsupported
    | Aborted
    | Eof
    | ErrorMax
    | OutOfRange(raw: int)

  const UnknownMessage: string := "Unknown/invalid copyfile error"

  /** The codes the catalogue has a message of their own for. */
  predicate Described(e: CopyError)
  {
    !(e.ChownError? || e.ChmodError? || e.UtimeError? || e.IoctlCloneError?
      || e.DomainMax? || e.Eof? || e.ErrorMax? || e.OutOfRange?)
  }

  /**
   * copyfile_error_message: total. The properties of the catalogue are the
   * lemmas below, kept apart because string literals are costly to reason
   * about all at once.
   */
  function Message(e: CopyError): (m: string)
  {
    if !Described(e) then UnknownMessage else
    match e
    case NoError => "The operation completed successfully"
    case OpenSourceError => "Unable to open the source file"
    case OpenDestError => "Unable to open the destination file"
    case ReadError => "Unable to read the source file"
    case WriteError => "Unable to write the destination file"
    case TruncateError => "Unable to truncate the destination file"
    case ReadlinkError => "Unable to read the symbolic link target"
    case SymlinkError => "Unable to create a symbolic link"
    case MallocError => "Unable to allocate memory"
    case StatError => "Unable to obtain the stat() information for the source file"
    case MkdirError => "Unable to create a directory"
    case MkfifoError => "Unable to create a named pipe"
    case MknodError => "Unable to create a special file"
    case SocketError => "Unable to create a UNIX socket"
    case BindError => "Unable to bind a UNIX socket"
    case XattrListError => "Unable to list the extended attributes"
    case XattrGetError => "Unable to get the value of an extended attribute"
    case XattrSetError => "Unable to set the value of an extended attribute"
    case AclGetError => "Unable to get an ACL for the source file"
    case AclSetError => "Unable to set an ACL for the destination file"
    case CapGetError => "Unable to get the capabilities of the source file"
    case CapSetError => "Unable to set the capabilities of the destination file"
    case LinkError => "Unable to create a hard link"
    case RenameError => "Unable to atomically rename (move) the file"
    case UnlinkSourceError => "Unable to unlink source file (after moving)"
    case UnlinkDestError => "Unable to unlink destination file (before replacing)"
    case InternalError => "Internal libcopyfile error (please report!)"
    case SymlinkTargetTooLong => "The symbolic link target is too long for the platform (please report!)"
    case SocketDestTooLong => "The UNIX socket name is too long for the platform (please report!)"
    case Unsupported => "The requested operation is not supported by the platform"
    case Aborted => "The requested operation has been aborted by the user"
    case _ => UnknownMessage
  }

  /**
   * The length of each message of its own. Messages of different lengths
   * differ, so this table carries most of the distinctness proof.
   */
  function Length(e: CopyError): nat
  {
    match e
    case NoError => 36
    case OpenSourceError => 30
    case OpenDestError => 35
    case ReadError => 30
    case WriteError => 36
    case TruncateError => 39
    case ReadlinkError => 39
    case SymlinkError => 32
    case MallocError => 25
    case StatError => 59
    case MkdirError => 28
    case MkfifoError => 29
    case MknodError => 31
    case SocketError => 30
    case BindError => 28
    case XattrListError => 38
    case XattrGetError => 48
    case XattrSetError => 48
    case AclGetError => 40
    case AclSetError => 45
    case CapGetError => 49
    case CapSetError => 54
    case LinkError => 28
    case RenameError => 43
    case UnlinkSourceError => 43
    case UnlinkDestError => 52
    case InternalError => 43
    case SymlinkTargetTooLong => 70
    case SocketDestTooLong => 66
    case Unsupported => 56
    case Aborted => 52
    case _ => 30
  }

  /** Message lengths of the codes of the data-copying steps. */
  lemma StreamCodeLengths(e: CopyError)
    requires e.NoError? || e.OpenSourceError? || e.OpenDestError? || e.ReadError? || e.WriteError? || e.TruncateError?
    ensures |Message(e)| == Length(e)
  {
    match e
    case NoError =>
    case OpenSourceError =>
    case OpenDestError =>
    case ReadError =>
    case WriteError =>
    case TruncateError =>
  }

  /** Message lengths of the codes of the link and directory steps. */
  lemma NodeCodeLengths(e: CopyError)
    requires e.ReadlinkError? || e.SymlinkError? || e.MallocError? || e.StatError? || e.MkdirError? || e.MkfifoError?
    ensures |Message(e)| == Length(e)
  {
    match e
    case ReadlinkError =>
    case SymlinkError =>
    case MallocError =>
    case StatError =>
    case MkdirError =>
    case MkfifoError =>
  }

  /** Message lengths of the codes of the special-file steps. */
  lemma SpecialCodeLengths(e: CopyError)
    requires e.MknodError? || e.SocketError? || e.BindError?
    ensures |Message(e)| == Length(e)
  {
    match e
    case MknodError =>
    case SocketError =>
    case BindError =>
  }

  /** Message lengths of the codes of the link and rename steps. */
  lemma NameCodeLengths(e: CopyError)
    requires e.LinkError? || e.RenameError?
    ensures |Message(e)| == Length(e)
  {
    match e
    case LinkError =>
    case RenameError =>
  }

  /** Message lengths of the codes of the unlink steps. */
  lemma UnlinkCodeLengths(e: CopyError)
    requires e.UnlinkSourceError? || e.UnlinkDestError?
    ensures |Message(e)| == Length(e)
  {
    match e
    case UnlinkSourceError =>
    case UnlinkDestError =>
  }

  /** Message lengths of the extended-attribute codes. */
  lemma XattrCodeLengths(e: CopyError)
    requires e.XattrListError? || e.XattrGetError? || e.XattrSetError?
    ensures |Message(e)| == Length(e)
  {
    match e
    case XattrListError =>
    case XattrGetError =>
    case XattrSetError =>
  }

  /** Message lengths of the ACL codes. */
  lemma AclCodeLengths(e: CopyError)
    requires e.AclGetError? || e.AclSetError?
    ensures |Message(e)| == Length(e)
  {
    match e
    case AclGetError =>
    case AclSetError =>
  }

  /** Message lengths of the capability codes. */
  lemma CapCodeLengths(e: CopyError)
    requires e.CapGetError? || e.CapSetError?
    ensures |Message(e)| == Length(e)
  {
    match e
    case CapGetError =>
    case CapSetError =>
  }

  /** The message of a link target too long for the platform. */
  lemma TargetLimitLength()
    ensures |Message(SymlinkTargetTooLong)| == Length(SymlinkTargetTooLong)
  {
  }

  /** The message of a socket name too long for the platform. */
  lemma SocketLimitLength()
    ensures |Message(SocketDestTooLong)| == Length(SocketDestTooLong)
  {
  }

  /** Message lengths of the codes that report a defect or a missing feature. */
  lemma ReportCodeLengths(e: CopyError)
    requires e.InternalError? || e.Unsupported?
    ensures |Message(e)| == Length(e)
  {
    match e
    case InternalError =>
    case Unsupported =>
  }

  /** The message of an abort. */
  lemma AbortLength()
    ensures |Message(Aborted)| == Length(Aborted)
  {
  }

  /** The four uncatalogued codes, the three sentinels and any out-of-range value get the default message. */
  lemma DefaultMessage(e: CopyError)
    requires !Described(e)
    ensures Message(e) == UnknownMessage
  {
  }

  lemma UnknownMessageLength()
    ensures |UnknownMessage| == 30
  {
  }

  lemma MessageLength(e: CopyError)
    ensures |Message(e)| == Length(e)
  {
    if e.NoError? || e.OpenSourceError? || e.OpenDestError? || e.ReadError? || e.WriteError? || e.TruncateError? {
      StreamCodeLengths(e);
    } else if e.ReadlinkError? || e.SymlinkError? || e.MallocError? || e.StatError? || e.MkdirError? || e.MkfifoError? {
      NodeCodeLengths(e);
    } else if e.MknodError? || e.SocketError? || e.BindError? {
      SpecialCodeLengths(e);
    } else if e.LinkError? || e.RenameError? {
      NameCodeLengths(e);
    } else if e.UnlinkSourceError? || e.UnlinkDestError? {
      UnlinkCodeLengths(e);
    } else if e.XattrListError? || e.XattrGetError? || e.XattrSetError? {
      XattrCodeLengths(e);
    } else if e.AclGetError? || e.AclSetError? {
      AclCodeLengths(e);
    } else if e.CapGetError? || e.CapSetError? {
      CapCodeLengths(e);
    } else if e.SymlinkTargetTooLong? {
      TargetLimitLength();
    } else if e.SocketDestTooLong? {
      SocketLimitLength();
    } else if e.InternalError? || e.Unsupported? {
      ReportCodeLengths(e);
    } else if e.Aborted? {
      AbortLength();
    } else {
      DefaultMessage(e);
      UnknownMessageLength();
    }
  }

  /** Mkdir, Bind, Link: 28-character messages that still differ. */
  lemma Distinct28(a: CopyError, b: CopyError)
    requires Described(a) && Described(b) && a != b && Length(a) == Length(b) == 28
    ensures Message(a) != Message(b)
  {
    match a
    case MkdirError =>
    case BindError =>
    case LinkError =>
  }

  /** OpenSource, Read, Socket: 30-character messages that still differ. */
  lemma Distinct30(a: CopyError, b: CopyError)
    requires Described(a) && Described(b) && a != b && Length(a) == Length(b) == 30
    ensures Message(a) != Message(b)
  {
    match a
    case OpenSourceError =>
    case ReadError =>
    case SocketError =>
  }

  /** NoError, Write: 36-character messages that still differ. */
  lemma Distinct36(a: CopyError, b: CopyError)
    requires Described(a) && Described(b) && a != b && Length(a) == Length(b) == 36
    ensures Message(a) != Message(b)
  {
    match a
    case NoError =>
    case WriteError =>
  }

  /** Truncate, Readlink: 39-character messages that still differ. */
  lemma Distinct39(a: CopyError, b: CopyError)
    requires Described(a) && Described(b) && a != b && Length(a) == Length(b) == 39
    ensures Message(a) != Message(b)
  {
    match a
    case TruncateError =>
    case ReadlinkError =>
  }

  /** Rename, UnlinkSource, Internal: 43-character messages that still differ. */
  lemma Distinct43(a: CopyError, b: CopyError)
    requires Described(a) && Described(b) && a != b && Length(a) == Length(b) == 43
    ensures Message(a) != Message(b)
  {
    match a
    case RenameError =>
    case UnlinkSourceError =>
    case InternalError =>
  }

  /** XattrGet, XattrSet: 48-character messages that still differ. */
  lemma Distinct48(a: CopyError, b: CopyError)
    requires Described(a) && Described(b) && a != b && Length(a) == Length(b) == 48
    ensures Message(a) != Message(b)
  {
    match a
    case XattrGetError =>
    case XattrSetError =>
  }

  /** UnlinkDest, Aborted: 52-character messages that still differ. */
  lemma Distinct52(a: CopyError, b: CopyError)
    requires Described(a) && Described(b) && a != b && Length(a) == Length(b) == 52
    ensures Message(a) != Message(b)
  {
    match a
    case UnlinkDestError =>
    case Aborted =>
  }

  /** Only these seven lengths are shared by two described codes. */
  lemma SharedLengths(a: CopyError, b: CopyError)
    requires Described(a) && Described(b) && a != b && Length(a) == Length(b)
    ensures Length(a) in {28, 30, 36, 39, 43, 48, 52}
  {
  }

  /** A code with a case of its own never gets the default message. */
  lemma DescribedNotDefault(e: CopyError)
    requires Described(e)
    ensures Message(e) != UnknownMessage
  {
    MessageLength(e);
    if Length(e) == |UnknownMessage| {
      UnknownAmongShort(e);
    }
  }

  lemma UnknownAmongShort(e: CopyError)
    requires Described(e) && Length(e) == 30
    ensures 13 < |Message(e)|
    ensures Message(e) != UnknownMessage
  {
  }

  /** No two codes with a case of their own share a message. */
  lemma MessagesDistinct(a: CopyError, b: CopyError)
    requires Described(a) && Described(b) && a != b
    ensures Message(a) != Message(b)
  {
    MessageLength(a);
    MessageLength(b);
    if Length(a) != Length(b) {
      assert |Message(a)| != |Message(b)|;
    } else {
      SharedLengths(a, b);
      var n := Length(a);
      if n == 28 {
        Distinct28(a, b);
      } else if n == 30 {
        Distinct30(a, b);
      } else if n == 36 {
        Distinct36(a, b);
      } else if n == 39 {
        Distinct39(a, b);
      } else if n == 43 {
        Distinct43(a, b);
      } else if n == 48 {
        Distinct48(a, b);
      } else {
        Distinct52(a, b);
      }
    }
  }

  /** Success has its own message, which is not the default one. */
  lemma SuccessMessage()
    ensures Message(NoError) == "The operation completed successfully"
    ensures Message(NoError) != UnknownMessage
  {
  }
}
