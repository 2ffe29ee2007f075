# libcopyfile, modelled in Dafny

libcopyfile copies one file-system entry to another: regular files by
streaming, symbolic links, special files (directories, FIFOs, devices,
sockets), and metadata (owner, mode, times, extended attributes, ACLs and
capabilities). On top of these it builds composite operations:

- archive (contents, then metadata);
- link (a hard link, else an archive copy);
- move (a rename, else archive and unlink);
- dedup variants of link and move, which first try to clone a known duplicate.

Every operation reports a `copyfile_error_t` code. `errno` carries the
failing call's error. A caller-supplied callback may abort a running
operation or decide whether to retry a failed call.

The model is a set of Dafny modules, one per source file of the library:

- The system is a value `Env.World`. It holds:
  - the scripted replies of the system calls, in call order (`calls`);
  - the callback's scripted answers (`answers`, where true means nonzero);
  - the log of everything done (`log`);
  - the file contents the model tracks (`fs`): unread source bytes, the destination and its write offset, the symbolic-link target, the lstat snapshot, and the extended attributes.
- Each operation is specified by a function over this world. Where the C
  code loops, the function is a recursive loop over a one-step function.
  When the script runs out before the C code would return, the outcome is
  `OutOfScript`.
- Each operation also has a method written the way the C code runs it:
  `while` loops, the same branches, variables updated in place. The method's
  `ensures` ties its result to the specification function, and the loop
  invariants carry that proof.
- The properties of the library are lemmas about the specification
  functions: what a NO_ERROR return means for the destination, how each
  loop ends, which error codes and errno values come back, first-error-wins
  accumulation, the callback cadence, and the flags reported as achieved.

Errno values are Linux's: EPERM 1, ENOENT 2, EINTR 4, ENOMEM 12, EACCES 13,
EXDEV 18, ENODATA 61, EOPNOTSUPP = ENOTSUP 95. The metadata flags are
a set of atoms (user, group, mode, atime, mtime, xattr, cap, acl); the
masks the library tests (OWNER, TIMES, STAT, ALL_METADATA) are unions of
them.

Two revisions of the stream and regular-file copiers are modelled:
`src/copyfile-copy-stream.c` with `src/copyfile-copy-regular.c`, and the
older pair in `src/copyfile.c`. The two stream copiers share one loop,
parameterised by the progress each one reports.

Where the design description and the code differ, the model follows the code:

- A failed clone in the dedup operations falls back to linking or renaming the real source, not to a streaming copy.
- Capabilities: only a cap_get_file failing with ENOTSUP is silent success. A failing cap_set_file is CAP_SET unless its errno is ENODATA.
- Re-running set_stat with the flags it achieved repeats them, except when it achieved nothing: flags of 0 then mean COPY_STAT (`SetStat.RerunWithAchieved`).
- After a successful link fallback, the achieved flags are whatever the metadata copy achieved, which can be fewer than ALL_METADATA.
- The defects listed under Findings are each modelled twice: as the code writes them (the as-written members) and corrected. CopyFile, CopyMetadata, Archive, Link, Move and the dedup operations, and both regular-file copiers, are built on the corrected definitions: the truncation step keeps ftruncate's errno, the symbolic-link terminator goes at `buf[rd]`, the heap phase asks the callback as the stack phase does, the xattr filter is a namespace-prefix test, and the source-unlink loops give up on a failure the callback does not retry.

## Model

| member | source | states |
|---|---|---|
| Errors.MessagesDistinct | src/copyfile-error-message.c:12-122 | no two codes that have a case of their own share a message |
| Errors.DescribedNotDefault | src/copyfile-error-message.c:18-111 | a code with a case of its own never gets "Unknown/invalid copyfile error" |
| Errors.DefaultMessage | src/copyfile-error-message.c:14-121 | CHOWN, CHMOD, UTIME, IOCTL_CLONE, the three sentinels and out-of-range values all get the default message |
| Errors.SuccessMessage | src/copyfile-error-message.c:18-20 | NO_ERROR's message is "The operation completed successfully", not the default |
| Common.PermissionDefaults | src/common.h:24-52 | perm_file ⊆ perm_dir ⊆ all_perm_bits, with values 0666, 0777 and 07777; perm_file drops the execute bits; the extra bits are SUID, SGID and sticky |
| Common.FileType | src/copyfile-copy-file.c:30 | the file type of a mode lies within the S_IFMT bits |
| Flags.Groups | src/copyfile-copy-metadata.c:42-82 | the masks checked in turn (owner, xattr, cap, acl, stat) are disjoint groups covering every flag |
| Env.Put | src/copyfile-copy-stream.c:71 | a write at offset p leaves a file as long as the longer of the old file and p + the data; an empty write leaves the length unchanged |
| Env.PutPut | src/copyfile-copy-stream.c:69-95 | two consecutive writes equal one write of both pieces joined |
| Env.PutCovers | src/copyfile-copy-regular.c:48-63 | writing a whole file from offset 0 over a shorter file leaves exactly what was written |
| Env.Resize | src/copyfile-copy-regular.c:57 | ftruncate leaves exactly the given length, keeping the bytes that were there |
| Env.Extend | src/copyfile-copy-regular.c:44 | posix_fallocate leaves at least the given length and keeps the existing bytes |
| Env.ReadCount | src/copyfile-copy-stream.c:49 | read takes no more than the buffer and the bytes left, and 0 exactly at end of file |
| Stream.DoRead | src/copyfile-copy-stream.c:49-67 | a read fails (-1) exactly when the call fails; otherwise it takes the next bytes of the source, at most a buffer, and 0 exactly at end of file |
| Stream.DoWrite | src/copyfile-copy-stream.c:69-95 | a write returns -1 exactly when the call fails, otherwise at most the pending count |
| Stream.WriteChunk | src/copyfile-copy-stream.c:69-95 | the inner write loop computes what the step function computes on the same buffer |
| Stream.CopyLoop | src/copyfile-copy-stream.c:29-103 | the outer loop, run in place, ends exactly as the recursive specification says |
| Stream.CopyStream | src/copyfile-copy-stream.c:17-104 | the current copier's result and stored offset are the specification's, starting from `*offset_store` |
| Stream.LegacyCopyStream | src/copyfile.c:27-92 | the older copier's result is the specification's, with in_pos as progress |
| StreamFacts.StreamAccounting | src/copyfile-copy-stream.c:17-104 | on every return the offset grew by the bytes written; the destination holds that prefix of the source in order; the source lost the bytes read; every progress report was accurate |
| StreamFacts.StreamCopiesInput | src/copyfile-copy-stream.c:66-67 | a NO_ERROR return wrote the whole source in order from the starting position; the offset and in_pos end at the source length |
| StreamFacts.ReadAccounts | src/copyfile-copy-stream.c:49-67 | a read keeps the accounting invariant, and NO_ERROR there means the source is used up |
| StreamFacts.WriteAccounts | src/copyfile-copy-stream.c:69-95 | a write keeps the accounting invariant and never returns NO_ERROR |
| StreamFacts.LoopAccounts | src/copyfile-copy-stream.c:29-103 | the accounting invariant holds from any state the loop reaches to the loop's end |
| StreamPolicy.StreamExit | src/copyfile-copy-stream.c:17-104 | every return is NO_ERROR, ABORTED, READ or WRITE; READ/WRITE carry the failed call's errno (not EINTR without a callback); ABORTED follows a nonzero answer |
| StreamPolicy.ReadRetryPolicy | src/copyfile-copy-stream.c:50-65 | a failed read is retried iff the callback answers 0 or, without one, errno is EINTR; else READ with its errno |
| StreamPolicy.WriteRetryPolicy | src/copyfile-copy-stream.c:72-87 | a failed write is retried with the same bytes iff the callback answers 0 or, without one, errno is EINTR; else WRITE |
| StreamPolicy.ShortWrite | src/copyfile-copy-stream.c:88-94 | a short write is no error: the unwritten suffix stays pending and the offset grows by the count |
| StreamPolicy.StreamCadence | src/copyfile-copy-stream.c:34-47 | with a callback, the periodic NO_ERROR question comes exactly once per 64 reads, before the read that starts a new period, and never otherwise |
| StreamPolicy.ZeroWritesNeverReturn | src/copyfile-copy-stream.c:69-95 | writes that keep returning 0 leave the write loop spinning: it never returns |
| StreamPolicy.LoopShape | src/copyfile-copy-stream.c:29-103 | every way the loop ends leaves a log of the shape its return code needs |
| StreamPolicy.LoopCounted | src/copyfile-copy-stream.c:34-49 | the cadence invariant holds from any reachable state to the loop's end |
| Regular.Truncate | src/copyfile-copy-regular.c:55-63 | truncation only ever turns NO_ERROR into TRUNCATE; any other result is kept |
| Regular.TruncateReportsErrno | src/copyfile-copy-regular.c:57-62 | a TRUNCATE result carries ftruncate's errno; any other result and its errno are kept |
| Regular.TruncateAsWritten | src/copyfile-copy-regular.c:57-62 | the step as written has the same code precedence as the corrected one (its errno differs, see TruncateErrnoAsWritten) |
| Regular.TruncateErrnoAsWritten | src/copyfile-copy-regular.c:61 | as written, a TRUNCATE return leaves errno -1, unlike the corrected step |
| Regular.OpenForCopy | src/copyfile-copy-regular.c:28-46 | opening, creating and preallocating, as run, give the specification's result |
| Regular.TruncateDest | src/copyfile-copy-regular.c:55-63 | the truncation step, as run, equals the corrected specification |
| Regular.CloseBoth | src/copyfile-copy-regular.c:66-71 | the closes, as run, equal the specification: a failed close of the destination turns NO_ERROR into WRITE |
| Regular.CopyRegular | src/copyfile-copy-regular.c:19-73 | the current copier, run step by step, gives the specification's result |
| Regular.LegacyCopyRegular | src/copyfile.c:94-156 | the older copier, run step by step and truncating to the lseek position, gives its specification's result, with the corrected truncation errno of Findings |
| Regular.OpenedFiles | src/copyfile-copy-regular.c:28-46 | after opening, the destination is empty or preallocated zeros and the source is untouched |
| Regular.SourceOpenFails | src/copyfile-copy-regular.c:28-30 | a failed open of the source returns OPEN_SOURCE with its errno and nothing else is tried |
| Regular.DestCreateFails | src/copyfile-copy-regular.c:32-41 | a failed creat returns OPEN_DEST with creat's errno, after closing the source |
| Regular.FinishPrecedence | src/copyfile-copy-regular.c:48-72 | a stream error wins over truncation and close; TRUNCATE only after preallocation and only over NO_ERROR; WRITE from the close only over NO_ERROR |
| Regular.LegacyFinishPrecedence | src/copyfile.c:128-154 | the same precedence in the older copier, where a failed lseek counts as a failed truncation |
| Regular.LegacyFinishAsWritten | src/copyfile.c:128-154 | the older copier's end as written still lets an earlier stream error and its errno stand |
| Regular.LegacyTruncateErrno | src/copyfile.c:131-139 | after a successful lseek and a failed ftruncate over NO_ERROR, the older copier as written returns TRUNCATE with errno -1, the corrected one with ftruncate's errno, with the same calls |
| Regular.LegacyRegularCopies | src/copyfile.c:94-156 | a NO_ERROR return of the older copier leaves the destination equal to the source, with or without preallocation; the lseek position is the number of bytes written |
| Regular.LegacyFinishCopies | src/copyfile.c:123-154 | the same after opening: stream, lseek, truncation and close together leave exactly the source's contents |
| Regular.PreallocOnlyWhenSized | src/copyfile-copy-regular.c:43-46 | posix_fallocate is called only for a nonzero expected size |
| Regular.CloseKeepsFiles | src/copyfile-copy-regular.c:66-68 | closing changes no file and gives NO_ERROR only when the result so far is NO_ERROR |
| Regular.TruncateToWritten | src/copyfile-copy-regular.c:57 | a successful truncation to the bytes written from 0 leaves exactly what was written, removing the preallocated tail |
| Regular.RegularCopies | src/copyfile-copy-regular.c:19-73 | a NO_ERROR return leaves the destination equal to the source, with or without preallocation |
| Regular.FinishCopies | src/copyfile-copy-regular.c:48-72 | the same after opening: stream, truncation and close together leave exactly the source's contents |
| Symlink.TryCopy | src/copyfile-copy-symlink.c:21-39 | one try returns NO_ERROR, READLINK, SYMLINK or EOF, uses up script, and changes neither the tracked contents nor the answers |
| Symlink.StackLoop | src/copyfile-copy-symlink.c:60-93 | the stack phase hands the heap phase exactly 2 × BUFFER_SIZE when it leaves; its retry policy is stated by SymlinkFacts.StackErrorsAsked and StackRereads |
| Symlink.TryCopySymlink | src/copyfile-copy-symlink.c:21-39 | try_copy_symlink, as run, equals its specification |
| Symlink.AfterCreate | src/copyfile-copy-symlink.c:72-80 | the EOF callback after a created link, as run, equals its specification |
| Symlink.StackPhase | src/copyfile-copy-symlink.c:64-90 | the stack loop, as run, equals its specification |
| Symlink.HeapPhase | src/copyfile-copy-symlink.c:106-160 | the heap loop with its buffer growth, as run, equals the corrected heap specification |
| Symlink.CopySymlink | src/copyfile-copy-symlink.c:42-168 | copyfile_copy_symlink, as run, equals its specification |
| SymlinkFacts.SymlinkCopiesTarget | src/copyfile-copy-symlink.c:42-168 | NO_ERROR means the new link holds the source's whole target, never a truncated one; with a callback, the EOF question with that target was answered 0 |
| SymlinkFacts.TryCopyTarget | src/copyfile-copy-symlink.c:24-35 | NO_ERROR from one try means the target was read whole in fewer bytes than the buffer, and linked |
| SymlinkFacts.TooLongOnlyAtMax | src/copyfile-copy-symlink.c:138-151 | SYMLINK_TARGET_TOO_LONG comes only after readlink filled a buffer of the maximum size |
| SymlinkFacts.SymlinkSizesBounded | src/copyfile-copy-symlink.c:92-104 | no buffer asked for exceeds the maximum size, except a first allocation of expected_length + 1 |
| SymlinkFacts.GrownBounded | src/copyfile-copy-symlink.c:140-151 | growing a buffer never passes the maximum, and a size below it strictly grows |
| SymlinkFacts.HeapLog | src/copyfile-copy-symlink.c:106-160 | the heap phase only appends to the log, starts with an allocation, and keeps to the size bound |
| SymlinkFacts.StackLog | src/copyfile-copy-symlink.c:64-90 | the stack phase only appends, starting with a readlink into BUFFER_SIZE bytes |
| SymlinkFacts.StackErrorsAsked | src/copyfile-copy-symlink.c:83-86 | the stack phase returns READLINK or SYMLINK right after the failing call without a callback, or right after a nonzero answer to that error |
| SymlinkFacts.StackRereads | src/copyfile-copy-symlink.c:64-87 | in the stack phase, an answer of 0 to a READLINK or SYMLINK failure is followed by a new readlink into BUFFER_SIZE bytes whenever anything follows |
| SymlinkFacts.TryCopyLog | src/copyfile-copy-symlink.c:24 | a try appends a readlink into exactly the buffer's size |
| SymlinkFacts.StartAborts | src/copyfile-copy-symlink.c:55-58 | a nonzero answer to the start callback returns ABORTED before any call |
| SymlinkFacts.FirstCall | src/copyfile-copy-symlink.c:60-95 | the first call is a readlink into the stack buffer when the expected length is below it, else an allocation of expected_length + 1 |
| SymlinkFindings.HeapErrorsAsked | src/copyfile-copy-symlink.c:153-159 | corrected: READLINK or SYMLINK comes right after the failure without a callback, or right after a nonzero answer to that error |
| SymlinkFindings.AsWrittenNeverAsks | src/copyfile-copy-symlink.c:153-159 | as written, with a callback the heap phase never asks about, nor returns, READLINK or SYMLINK |
| SymlinkFindings.HeapRetryCounterexample | src/copyfile-copy-symlink.c:156 | one EACCES from readlink: the corrected phase asks and returns READLINK; as written, the code retries until the script ends |
| SymlinkFindings.NullCallbackCounterexample | src/copyfile-copy-symlink.c:156 | without a callback, the code as written calls the null callback on the first failure |
| SymlinkFindings.TerminatedTarget | src/copyfile-copy-symlink.c:29-33 | terminating at buf[rd] hands symlink exactly the target read, whatever follows in the buffer |
| SymlinkFindings.TerminatorCounterexample | src/copyfile-copy-symlink.c:31 | terminating at buf[rd + 1] turns target "ab" into "abx", and writes outside a buffer one byte longer than the target |
| SymlinkFindings.TerminateAsWritten | src/copyfile-copy-symlink.c:31 | the terminator as written fits in the buffer only when rd + 1 is below its size |
| SymlinkFindings.Terminate | src/copyfile-copy-symlink.c:31 | the intended terminator keeps the buffer size and the rd bytes read, with a NUL at rd |
| SymlinkFindings.CString | src/copyfile-copy-symlink.c:33 | the string symlink receives is a NUL-free prefix of the buffer |
| Special.PlanFor | src/copyfile-create-special.c:51-109 | dispatch by type: mkdir, mkfifo or mknod on the path with MKDIR, MKFIFO or MKNOD, mknod with the type and device, modes within perm_dir; SOCKET_DEST_TOO_LONG exactly for a socket path that does not fit sun_path; INTERNAL exactly for other types (with assert() compiled out; see Left out) |
| Special.Attempt | src/copyfile-create-special.c:51-118 | a failed pass reports MKDIR, MKFIFO, MKNOD, SOCKET or BIND, and every pass that makes a call uses up script |
| Special.CreateSpecial | src/copyfile-create-special.c:23-126 | copyfile_create_special, as run, equals its specification |
| Special.StartAborts | src/copyfile-create-special.c:42-44 | a nonzero start answer returns ABORTED before any call |
| Special.NodeFailure | src/copyfile-create-special.c:53-74 | the first call matches the type; without a callback its failure returns its code and errno at once |
| Special.SocketPathGuard | src/copyfile-create-special.c:81-84 | a path that does not fit sun_path with its NUL returns SOCKET_DEST_TOO_LONG without any call |
| Special.OtherTypesInternal | src/copyfile-create-special.c:106-108 | any other type returns INTERNAL without any call (with assert() compiled out; see Left out) |
| Special.SocketFailures | src/copyfile-create-special.c:86-102 | a failing socket() is SOCKET with its errno; a failing bind is BIND after the socket is closed |
| Special.LoopExits | src/copyfile-create-special.c:46-119 | every exit of the retry loop is a creation or a failure the callback did not retry |
| Special.SpecialExits | src/copyfile-create-special.c:42-125 | every return: an abort at start, or one of the loop's exits followed by the EOF callback |
| CopyFile.AsSize | src/copyfile-copy-file.c:38-40 | st_size becomes a size no larger than SIZE_MAX, and a size that already fits is unchanged |
| CopyFile.StatFails | src/copyfile-copy-file.c:22-28 | without a snapshot, a failing lstat returns STAT with its errno and nothing else is done |
| CopyFile.RegularCopied | src/copyfile-copy-file.c:34-36 | a regular file copied without error leaves the destination equal to the source |
| CopyFile.SymlinkSized | src/copyfile-copy-file.c:38-40 | a symlink is read with buffers bounded by its st_size's bound |
| CopyFile.SpecialCreated | src/copyfile-copy-file.c:42-44 | any other type is created at the destination with the source's type and device number |
| SetStat.Apply | src/copyfile-set-stat.c:45-47 | a stage that goes on adds only its own flags or the unsupported ones; a stage that stops keeps the earlier flags and returns its error |
| SetStat.SetStat | src/copyfile-set-stat.c:21-175 | copyfile_set_stat, as run, equals its specification |
| SetStat.ModeThenTimes | src/copyfile-set-stat.c:58-174 | the chmod step and what follows, as run, equal the specification |
| SetStat.SetTimes | src/copyfile-set-stat.c:92-174 | the utimensat step, as run, equals the specification |
| SetStat.SetStatWithin | src/copyfile-set-stat.c:21-175 | achieved flags ⊆ requested ∩ STAT; the code is NO_ERROR (errno 0), CHOWN, CHMOD or UTIME |
| SetStat.SetStatOrder | src/copyfile-set-stat.c:32-172 | a run makes a prefix of the planned calls in the order owner, mode, times (all on NO_ERROR) and an error follows its failing call, whose errno is not EOPNOTSUPP |
| SetStat.SetStatAllOk | src/copyfile-set-stat.c:32-172 | every call succeeding achieves every requested kind |
| SetStat.SetStatUnsupported | src/copyfile-set-stat.c:45-131 | every call unsupported: NO_ERROR with only the owner counted as achieved |
| SetStat.SetStatErrorKeeps | src/copyfile-set-stat.c:45-131 | a hard error keeps what earlier stages achieved and nothing of its own stage or later ones |
| SetStat.ModeStageKeeps | src/copyfile-set-stat.c:58-131 | after the owner stage, a failed chmod or utimensat keeps exactly the owner flags already achieved |
| SetStat.RerunWithAchieved | src/copyfile-set-stat.c:27-28 | re-running with the achieved flags on a succeeding script achieves them again, unless they were none |
| SetStat.OwnerOnly | src/copyfile-set-stat.c:32-56 | asking for the owner alone achieves all of it whenever the result is success |
| SetStat.NoOwnerNoChown | src/copyfile-set-stat.c:32 | without the owner requested, lchown is never called and CHOWN never returned |
| SetStat.SetStatKeepsFiles | src/copyfile-set-stat.c:21-175 | set_stat leaves the file contents as they were |
| Xattr.NameEnd | src/copyfile-copy-xattr.c:72 | strchr(n, 0) finds the name's NUL or the end of the list, and nothing before it is NUL |
| Xattr.NextName | src/copyfile-copy-xattr.c:72 | the walk always moves forward, past the NUL |
| Xattr.Keep | src/copyfile-copy-xattr.c:85-89 | a failure is recorded only when no earlier one was |
| Xattr.CopyOne | src/copyfile-copy-xattr.c:79-107 | one attribute only appends to the log, at least one event, and keeps the file contents |
| Xattr.Transfer | src/copyfile-copy-xattr.c:109-131 | reading and setting one value only appends to the log and keeps the file contents |
| Xattr.Walk | src/copyfile-copy-xattr.c:72-132 | the walk only appends to the log and keeps the file contents |
| Xattr.CopyXattr | src/copyfile-copy-xattr.c:21-148 | copyfile_copy_xattr, as run, equals its specification |
| Xattr.CopyAttribute | src/copyfile-copy-xattr.c:74-131 | one iteration, as run, equals its specification |
| Xattr.TransferValue | src/copyfile-copy-xattr.c:109-131 | reading and setting one value, as run, equals its specification |
| Xattr.XattrListPhase | src/copyfile-copy-xattr.c:45-70 | ENOTSUP on listing is success with nothing copied; other list failures are XATTR_LIST; a failed large allocation is MALLOC |
| Xattr.XattrFirstErrorKept | src/copyfile-copy-xattr.c:82-126 | once an error is recorded, the rest of the walk makes the same calls and the first error and its errno are returned |
| Xattr.OneKeeps | src/copyfile-copy-xattr.c:79-118 | a recorded error changes neither one attribute's calls nor the buffer, and stays the one recorded |
| Xattr.TransferKeeps | src/copyfile-copy-xattr.c:109-131 | the same for the read and set of one value |
| Xattr.XattrCopiesSelected | src/copyfile-copy-xattr.c:72-143 | with the namespace test, success means every selected attribute is set on the destination with exactly the source's value |
| Xattr.WalkCopies | src/copyfile-copy-xattr.c:72-132 | a walk ending without error has set every selected name from its position on |
| Xattr.OneCopies | src/copyfile-copy-xattr.c:109-131 | an attribute copied without failure has its value set on the destination |
| Xattr.XattrOnlySelected | src/copyfile-copy-xattr.c:72-132 | calls concern selected names only; every value set is the source's; an ENOTSUP set is the last call |
| Xattr.WalkOnlySelected | src/copyfile-copy-xattr.c:72-132 | the same for the walk from any position |
| Xattr.XattrKeepsFiles | src/copyfile-copy-xattr.c:21-148 | copying extended attributes leaves the file contents as they were |
| Xattr.FilterCounterexample | src/copyfile-copy-xattr.c:76-77 | as written, a list holding only user.foo is copied successfully without one attribute call |
| Xattr.FilterCorrected | src/copyfile-copy-xattr.c:76-77 | with the namespace test, user.foo is copied |
| Xattr.AsWrittenSetsOnlyBareNames | src/copyfile-copy-xattr.c:76-77 | as written, the only names ever set are exactly "user." and "trusted." |
| Xattr.OneName | src/copyfile-copy-xattr.c:72-77 | the list "user.foo\0" holds one name, rejected by the test as written and accepted by the namespace test |
| Acl.Keep | src/copyfile-copy-acl.c:70-74 | a failure is recorded only when no earlier one was |
| Acl.CopyAcl | src/copyfile-copy-acl.c:25-100 | copyfile_copy_acl, as run, equals its specification |
| Acl.AclSkips | src/copyfile-copy-acl.c:35-49 | a symbolic link is left untouched; without a snapshot a failing lstat is STAT |
| Acl.Recorded | src/copyfile-copy-acl.c:61-90 | only a failed call is recorded, with that call's errno |
| Acl.FirstRecorded | src/copyfile-copy-acl.c:70-95 | the recorded result is NO_ERROR (errno 0), ACL_GET or ACL_SET |
| Acl.AclResult | src/copyfile-copy-acl.c:52-95 | for a non-link, success when a get reported EOPNOTSUPP (even after an error), else the first recorded failure with its errno |
| Acl.AclTypesInOrder | src/copyfile-copy-acl.c:18-22 | the access type is tried first, and the default type is reached unless the access get reported EOPNOTSUPP |
| Acl.AccessTurn | src/copyfile-copy-acl.c:52-91 | what the access iteration leaves for the default one |
| Acl.SetTurn | src/copyfile-copy-acl.c:61-77 | a successful get is followed by the set, whose failure is recorded |
| Acl.GetTurn | src/copyfile-copy-acl.c:78-90 | a failed get is recorded as the policy says |
| Acl.TurnBegins | src/copyfile-copy-acl.c:57-59 | every iteration begins with its get |
| Acl.TypesExpected | src/copyfile-copy-acl.c:52-95 | the loop's result is what the log it leaves predicts |
| Acl.AclKeepsFiles | src/copyfile-copy-acl.c:25-100 | copying ACLs leaves the file contents as they were |
| Cap.CopyCapSpec | src/copyfile-copy-cap.c:19-57 | copy_cap achieves at most the requested cap flag, and returns NO_ERROR, CAP_GET, CAP_SET or UNSUPPORTED |
| Cap.CapUnsupported | src/copyfile-copy-cap.c:27-30 | flags without COPY_CAP are UNSUPPORTED with no call; flags of 0 do ask for it |
| Cap.CapCopied | src/copyfile-copy-cap.c:36-52 | capabilities are copied exactly when requested and both calls succeed or report empty; the log is the get then the set |
| Cap.CapErrors | src/copyfile-copy-cap.c:36-47 | ENOTSUP on the get is success with nothing achieved; other get failures but ENODATA are CAP_GET; set failures but ENODATA are CAP_SET |
| Metadata.OwnerPhase | src/copyfile-copy-metadata.c:42-53 | the owner stage, as run, equals its specification |
| Metadata.XattrPhase | src/copyfile-copy-metadata.c:55-62 | the xattr stage, as run, equals its specification |
| Metadata.AclPhase | src/copyfile-copy-metadata.c:73-80 | the ACL stage, as run, equals its specification |
| Metadata.StatPhase | src/copyfile-copy-metadata.c:82-95 | the final stat stage, as run, equals its specification |
| Metadata.CopyMetadata | src/copyfile-copy-metadata.c:15-96 | copyfile_copy_metadata, as run stage by stage, equals its specification |
| Metadata.MetadataWithin | src/copyfile-copy-metadata.c:15-96 | the result holds only requested kinds; the code is STAT or one of set_stat's, never an xattr, cap or ACL error |
| Metadata.StagesTracked | src/copyfile-copy-metadata.c:42-80 | later stages run on what the owner stage left, never with an owner bit |
| Metadata.ChownStops | src/copyfile-copy-metadata.c:42-93 | CHOWN comes only from the owner stage: nothing achieved and nothing run after the lchown |
| Metadata.StagesChown | src/copyfile-copy-metadata.c:42-53 | a CHOWN error from the stages comes with nothing achieved and only the lchown logged |
| Metadata.DefaultAll | src/copyfile-copy-metadata.c:22-23 | flags of 0 copy all the metadata |
| Metadata.MetadataKeepsFiles | src/copyfile-copy-metadata.c:15-96 | the metadata copy leaves the file contents as they were |
| Clone.CloneStreamSpec | src/copyfile-clone-stream.c:18-29 | one ioctl: NO_ERROR exactly when it succeeds, otherwise IOCTL_CLONE |
| Clone.CloneFile | src/copyfile-clone-file.c:18-71 | copyfile_clone_file, as run with ret and ret_errno, equals its specification |
| Clone.NotRegularUnsupported | src/copyfile-clone-file.c:37-70 | a non-regular source is UNSUPPORTED with nothing opened |
| Clone.CloneOutcome | src/copyfile-clone-file.c:59-67 | WRITE only after a successful clone; a failed clone is IOCTL_CLONE with the ioctl's errno whatever the closes do |
| Clone.CloneCopies | src/copyfile-clone-file.c:44-67 | NO_ERROR means the destination got the source's contents, and the log is the clone, then both closes, the destination's succeeding |
| Clone.KnownCloneCopies | src/copyfile-clone-file.c:37-67 | the same from a given snapshot |
| Clone.DestOpenFails | src/copyfile-clone-file.c:48-57 | a failed open of the destination returns OPEN_DEST with open's errno, after closing the source |
| Clone.CloneCodes | src/copyfile-clone-file.c:18-71 | clone_file returns only NO_ERROR, STAT, UNSUPPORTED, OPEN_SOURCE, OPEN_DEST, IOCTL_CLONE or WRITE |
| Archive.ArchiveComposes | src/copyfile-archive-file.c:15-45 | archive is copy_file then, on success, copy_metadata on the same snapshot; a failed copy is returned with nothing achieved |
| Archive.ArchiveResult | src/copyfile-archive-file.c:36-44 | only requested metadata is achieved, only after the contents were copied; a regular file archived cleanly has the source's data |
| Link.LinkMade | src/copyfile-link-file.c:20-26 | a made link achieves ALL_METADATA with one call and no callback |
| Link.LinkRefused | src/copyfile-link-file.c:27-28 | any failure but EXDEV or EPERM returns LINK with its errno and nothing else |
| Link.LinkFallsBack | src/copyfile-link-file.c:30-32 | EXDEV or EPERM archives: metadata only after the copy, and a regular file's data at the destination on success |
| Retry.Unlinks | src/copyfile-move-file.c:61-71 | an unlink loop never ends in a fall-back to copying |
| Retry.AttemptLoop | src/copyfile-move-file.c:30-59 | the rename/link loop, as run, equals its specification |
| Retry.UnlinkLoop | src/copyfile-move-file.c:61-71 | the unlink loop, as run, equals its specification |
| Retry.AttemptsEnd | src/copyfile-move-file.c:30-59 | the loop ends in success right after the call, in fall-back after a fall-back errno (and the callback's 0), or in the error with the failing call's errno |
| Retry.UnlinksEnd | src/copyfile-move-file.c:61-71 | the unlink loop ends right after an unlink that removed the file (or found it missing), or with the error and the failing unlink's errno |
| Retry.AttemptsKeepFiles | src/copyfile-move-file.c:30-59 | the rename/link loop leaves the file contents as they were |
| Retry.UnlinksKeepFiles | src/copyfile-move-file.c:61-71 | the unlink loop leaves the file contents as they were |
| Retry.LoopsExtend | src/copyfile-move-file.c:30-71 | both loops only append to the log |
| Move.Start | src/copyfile-move-file.c:26-28 | the start callback lets the move go on, or returns ABORTED |
| Move.Announce | src/copyfile-move-file.c:37-41 | after a finished move, the EOF callback lets NO_ERROR stand or returns ABORTED |
| Move.Renamed | src/copyfile-move-file.c:32-42 | after a successful rename, ALL_METADATA is achieved whatever the callback says |
| Move.RemoveSource | src/copyfile-move-file.c:77-90 | removing the source never changes the flags the copy achieved |
| Move.AskCallback | src/copyfile-move-file.c:26-39 | the start and EOF callbacks, as run, equal their specification |
| Move.RelocateFile | src/copyfile-move-file.c:61-90 | the cross-device path, as run, equals its specification |
| Move.AfterRename | src/copyfile-move-file.c:34-41 | the end of a successful rename, as run, equals its specification |
| Move.MoveFile | src/copyfile-move-file.c:17-93 | copyfile_move_file, as run, equals its specification |
| Move.StartAborts | src/copyfile-move-file.c:26-28 | a nonzero start answer returns ABORTED before rename is tried, with nothing achieved |
| Move.RenameSucceeds | src/copyfile-move-file.c:32-42 | a first rename that succeeds achieves ALL_METADATA, copies and removes nothing; only the EOF callback can turn it into ABORTED |
| Move.CopyBeforeRemove | src/copyfile-move-file.c:56-90 | on the cross-device path the source is unlinked after the archive copy iff that copy succeeded (and calls remain), as the very next call; a failed copy is returned with nothing after it; a destination that cannot be cleared stops everything; the copy and its flags stay |
| Move.RemoveKeepsCopy | src/copyfile-move-file.c:77-90 | removing the source keeps the copy and its metadata result and starts with an unlink of the source |
| Move.UnlinkFirstEvent | src/copyfile-move-file.c:79 | the unlink loop starts with an unlink of its path |
| Move.RemoveSourceGivesUp | src/copyfile-move-file.c:79-89 | corrected: a failed unlink returns UNLINK_SOURCE with its errno, at once without a callback or after a nonzero answer |
| Move.RemoveSourceAsWritten | src/copyfile-move-file.c:79-89 | the loop as written leaves only after a successful unlink, whatever ret holds then |
| Move.NeverGivesUp | src/copyfile-move-file.c:79-89 | as written, the loop never returns while unlink keeps failing |
| Move.RemoveSourceCounterexample | src/copyfile-move-file.c:79-89 | one EACCES without a callback spins as written but returns UNLINK_SOURCE corrected; EACCES answered nonzero then a successful unlink returns UNLINK_SOURCE as written although the source is gone |
| LinkDedup.LinkFileDedup | src/copyfile-link-file-dedup.c:16-91 | copyfile_link_file_dedup, as run, equals its specification |
| LinkDedup.LinkInstead | src/copyfile-link-file-dedup.c:42-90 | the link attempts after a failed clone, as run, equal their specification |
| LinkDedup.CloneThenMetadata | src/copyfile-link-file-dedup.c:37-40 | a successful clone is followed only by the metadata copy: the destination keeps the duplicate's contents; only metadata codes come back |
| LinkDedup.UnlinkDestOnce | src/copyfile-link-file-dedup.c:52-53 | the destination is unlinked once: a failure other than ENOENT returns UNLINK_DEST at once, with or without a callback |
| LinkDedup.LinkLoopEnds | src/copyfile-link-file-dedup.c:55-90 | a made link achieves ALL_METADATA; a refusal returns LINK after the failure or a nonzero answer; EXDEV or EPERM archives with the snapshot |
| MoveDedup.MoveFileDedup | src/copyfile-move-file-dedup.c:16-130 | copyfile_move_file_dedup, as run, equals its specification |
| MoveDedup.CloneBranch | src/copyfile-move-file-dedup.c:47-49 | the clone branch with the source removal, as run, equals its specification |
| MoveDedup.AfterRenameDedup | src/copyfile-move-file-dedup.c:54-78 | the end of a successful rename, as run, equals its specification |
| MoveDedup.RenamedThenUnlinked | src/copyfile-move-file-dedup.c:54-78 | after a successful rename, ALL_METADATA is achieved whatever follows |
| MoveDedup.StatBeforeStart | src/copyfile-move-file-dedup.c:27-38 | without a snapshot, a failing lstat returns STAT before the start callback is asked |
| MoveDedup.CloneThenRemove | src/copyfile-move-file-dedup.c:47-49 | after a clone, a failed metadata copy is returned and the source stays; a successful one is followed by an unlink of the source, keeping the metadata result |
| MoveDedup.RenameThenUnlink | src/copyfile-move-file-dedup.c:54-78 | after a rename, NO_ERROR means the last call unlinked the source name or found it gone; the other codes are ABORTED and UNLINK_SOURCE |

## Left out

- I/O happens only through the scripted world. Real file descriptors, paths on disk and the kernel are not modelled: replies are script items, and the only effects tracked are the source data, the destination bytes, the write position, the link target, the snapshot and the xattr list.
- Memory management is not modelled: malloc/realloc/free, the stack buffers, and the leaks on early returns. An allocation is a call whose reply is success or failure.
- xattr: the model does not capture that the data buffer starts on the stack and is then passed to `realloc` (undefined behaviour in the C code).
- Descriptor leaks and double closes are not tracked. Closes are calls whose replies matter only where the code checks them.
- Concurrency: none exists in the library.
- Platform variants: the model assumes a Linux build with lchown, fchmodat, utimensat (HAVE_UTIMENSAT), posix_fallocate, S_IFLNK, S_IFSOCK, libattr, libacl, libcap, the btrfs ioctl and link(2). The `#else` branches are left out: chown, chmod, utimes/lutimes, utime, stat instead of lstat, acl_get_link_np, and the UNSUPPORTED returns of builds without a library.
- Clone.CloneStreamSpec: `src/copyfile-clone-stream.c` is modelled only as its ioctl reply. A successful clone gives the destination the source's contents.
- The dedup clones: there is one source data in the world. The duplicate being cloned stands for it, so the model does not distinguish the duplicate's contents from the source's.
- Rename and link are not applied to the tracked contents; only their replies and the log record them. The move and link lemmas speak of the contents the archive fallback writes.
- The result flags of rename, link and the dedup paths: the C code leaves `*result_flags` untouched on several error returns. The model reports `{}` there.
- The xattr and ACL stages of copy_metadata: `src/copyfile-copy-metadata.c` calls copyfile_copy_xattr and copyfile_copy_acl with a flags/done pair that their own definitions in this revision do not take. The model gives each stage's achieved flags as its requested flags when it returns NO_ERROR, and none otherwise.
- Errors.DefaultMessage: error-message.c has no case for CHOWN, CHMOD, UTIME or IOCTL_CLONE, so their message is the default one, as the code says.
- `src/copyfile.h` declares an older, smaller API; the model follows the function definitions.
- The callback's own effect on errno is not modelled: it is assumed to leave errno as the failed call set it.
- The xattr lengths the size queries report are taken from the tracked attribute values.
- An xattr name list whose last name lacks a NUL ends at the list's end.
- Wrap-around of `size_t`/`ssize_t` is modelled only for `st_size` (CopyFile.AsSize) and for the symlink size clamp at SSIZE_MAX. Other counts are unbounded integers.
- The write loop that spins on `write` returning 0 is captured as running out of script (StreamPolicy.ZeroWritesNeverReturn), not as a finding. POSIX does not return 0 for a nonzero count to a regular file.
- Special.PlanFor, Special.OtherTypesInternal: the model assumes assert() is compiled out (NDEBUG), so the default case of create_special returns INTERNAL. Without NDEBUG, `assert(not_reached)` aborts the process there instead. lstat never reports such a type, so only a direct create_special caller passing an invented mode reaches this case.
- `util/copyfile.c` (the command-line tool) is not part of this model.
- On the inputs listed under Findings, CopyFile, CopyMetadata, Archive, Link, Move, the dedup operations and both regular-file copiers do not reproduce the code as written: they run the corrected definitions. The as-written behaviour is stated only by the as-written members named there.
- The at_flags argument of fchmodat (AT_SYMLINK_NOFOLLOW for a symbolic link) is not recorded in the modelled call; the call carries the path and the permission bits.
- Progress reports carry counts and the symlink target. The callback_data argument and the exact union layout are left out.

## Findings

| source | as written | input that shows it | evidently intended | confidence | as-written member | corrected member |
|---|---|---|---|---|---|---|
| src/copyfile-copy-regular.c:57-62 | `hold_errno = trunc_ret` stores ftruncate's return value (-1) as the errno of a TRUNCATE error | any ftruncate failure after preallocation, e.g. EIO: errno becomes -1 | keep ftruncate's errno | high, not executed | Regular.TruncateAsWritten, Regular.TruncateErrnoAsWritten | Regular.Truncate, Regular.TruncateReportsErrno |
| src/copyfile.c:134-139 | the older copier repeats `hold_errno = trunc_ret`, storing ftruncate's -1 as the errno of a TRUNCATE error | preallocated destination, stream NO_ERROR, lseek succeeds, ftruncate fails with EIO: errno becomes -1 | keep ftruncate's errno | high, not executed | Regular.LegacyFinishAsWritten, Regular.LegacyTruncateErrno | Regular.LegacyFinish, Regular.LegacyRegularCopies |
| src/copyfile-copy-symlink.c:156 | `if (!callback && callback(...))` in the heap phase: with a callback, a READLINK/SYMLINK failure is retried forever without asking; without one, the null callback is called | readlink failing with EACCES in the heap phase, with and without a callback | `if (!callback \|\| callback(...))`, as in the stack phase at line 84 | high, not executed | SymlinkFindings.AsWrittenNeverAsks, SymlinkFindings.HeapRetryCounterexample, SymlinkFindings.NullCallbackCounterexample | Symlink.HeapPhase, SymlinkFindings.HeapErrorsAsked |
| src/copyfile-copy-symlink.c:31 | `buf[rd + 1] = 0` leaves the byte after the target in the string and writes past a buffer one byte longer than the target | target "ab" read into a buffer whose next byte is 'x': symlink gets "abx" | `buf[rd] = 0` | high, not executed | SymlinkFindings.TerminateAsWritten, SymlinkFindings.TerminatorCounterexample | SymlinkFindings.Terminate, SymlinkFindings.TerminatedTarget |
| src/copyfile-copy-xattr.c:76 | `strcmp(n, "user.") && strcmp(n, "trusted.")` skips every name except the bare prefixes | a source whose only attribute is user.foo: nothing is copied, NO_ERROR | a namespace-prefix test (`strncmp` with the prefix length) | high, not executed | Xattr.FilterCounterexample, Xattr.AsWrittenSetsOnlyBareNames | Xattr.FilterCorrected, Xattr.XattrCopiesSelected |
| src/copyfile-move-file.c:79-89, src/copyfile-move-file-dedup.c:116-126 | `while (unlink(source))` sets UNLINK_SOURCE but never leaves the loop on failure | unlink failing with EACCES and no callback: endless loop; with a callback answering nonzero, then a successful unlink: UNLINK_SOURCE although the source is gone | return UNLINK_SOURCE on a failure the callback does not retry, as the destination loop at lines 61-71 does | high, not executed | Move.RemoveSourceAsWritten, Move.NeverGivesUp, Move.RemoveSourceCounterexample | Move.RemoveSource, Move.RemoveSourceGivesUp |
