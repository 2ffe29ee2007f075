/**
 * The metadata flags: which kinds of metadata a caller asks to be copied and
 * which ones were copied. Each flag is one atom; the groups are the unions
 * the library tests with a single mask.
 */
module Flags {
  import opened Env

  datatype Flag = CopyUser | CopyGroup | CopyMode | CopyATime | CopyMTime | CopyXattr | CopyCap | CopyAcl

  const Owner: set<Flag> := {CopyUser, CopyGroup}
  const Times: set<Flag> := {CopyATime, CopyMTime}

  /** What copyfile_set_stat handles: owner, mode and times. */
  const StatFlags: set<Flag> := Owner + {CopyMode} + Times

  const XattrAll: set<Flag> := {CopyXattr}
  const CapFlags: set<Flag> := {CopyCap}
  const AclFlags: set<Flag> := {CopyAcl}

  const AllMetadata: set<Flag> := StatFlags + XattrAll + CapFlags + AclFlags

  /** What a metadata stage returns: the code (with errno), the flags it achieved, the world after. */
  datatype Outcome = Outcome(out: Out, done: set<Flag>, w: World)

  /** The groups are disjoint and together make up every flag. */
  lemma Groups(f: Flag)
    ensures f in AllMetadata
    ensures f in StatFlags <==> f in Owner || f == CopyMode || f in Times
    ensures Owner * Times == {} && CopyMode !in Owner + Times
    ensures StatFlags * (XattrAll + CapFlags + AclFlags) == {}
  {
  }
}
