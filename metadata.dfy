/**
 * copyfile_copy_metadata: copy the requested kinds of metadata in a fixed
 * order (the owner first, since changing it can change the mode; then the
 * extended attributes, the capabilities and the ACLs; then the rest of the
 * stat data). After each stage the kinds it achieved leave the remaining
 * request and join the result. Only an error of the owner stage or of the
 * final stat stage is returned; the other stages' errors are ignored.
 */
module Metadata {
  import opened Common
  import opened Errors
  import opened Env
  import opened Flags
  import SetStat
  import Xattr
  import Cap
  import Acl

  /** Flags of 0 mean COPY_ALL_METADATA. */
  function Requested(flags: set<Flag>): set<Flag>
  {
    if flags == {} then AllMetadata else flags
  }

  /** Some kind set_stat handles is still requested (`flags & COPYFILE_COPY_STAT`). */
  predicate WantsStat(flags: set<Flag>)
  {
    SetStat.WantsOwner(flags) || CopyMode in flags || SetStat.WantsTimes(flags)
  }

  /** Between stages: the kinds still to copy, the kinds achieved, the world; or the return. */
  datatype Stage = Go(flags: set<Flag>, result: set<Flag>, w: World) | Stop(o: Outcome)

  /** The flags a stage that copies `kinds` achieved: all of them when it returned success. */
  function Achieved(out: Out, kinds: set<Flag>): set<Flag>
  {
    if out == Exit(NoError, 0) then kinds else {}
  }

  /** The owner stage: set_stat with the owner bits alone; its error is returned. */
  function OwnerStage(dest: string, st: Snapshot, flags: set<Flag>, w: World): (s: Stage)
  {
    if !SetStat.WantsOwner(flags) then Go(flags, {}, w)
    else
      var o := SetStat.SetStatSpec(dest, st, flags * Owner, w);
      if o.out != Exit(NoError, 0) then Stop(o) else Go(flags - o.done, o.done, o.w)
  }

  /** The xattr stage: its result is ignored. */
  function XattrStage(source: string, dest: string, s: Stage): Stage
  {
    if s.Stop? || CopyXattr !in s.flags then s
    else
      var d := Xattr.CopyXattrSpec(source, dest, Xattr.Prefix, s.w);
      if d.out.OutOfScript? then Stop(Outcome(OutOfScript, s.result, d.w))
      else
        var done := Achieved(d.out, XattrAll);
        Go(s.flags - done, s.result + done, d.w)
  }

  /** The capability stage: its result is ignored. */
  function CapStage(source: string, dest: string, s: Stage): Stage
  {
    if s.Stop? || CopyCap !in s.flags then s
    else
      var o := Cap.CopyCapSpec(source, dest, s.flags, s.w);
      if o.out.OutOfScript? then Stop(Outcome(OutOfScript, s.result, o.w))
      else Go(s.flags - o.done, s.result + o.done, o.w)
  }

  /** The ACL stage: its result is ignored. */
  function AclStage(source: string, dest: string, st: Snapshot, s: Stage): Stage
  {
    if s.Stop? || CopyAcl !in s.flags then s
    else
      var d := Acl.CopyAclSpec(source, dest, Some(st), s.w);
      if d.out.OutOfScript? then Stop(Outcome(OutOfScript, s.result, d.w))
      else
        var done := Achieved(d.out, AclFlags);
        Go(s.flags - done, s.result + done, d.w)
  }

  /** The stat stage: set_stat with what is still requested; its error is returned. */
  function StatStage(dest: string, st: Snapshot, s: Stage): Outcome
  {
    if s.Stop? then s.o
    else if !WantsStat(s.flags) then Outcome(Exit(NoError, 0), s.result, s.w)
    else
      var o := SetStat.SetStatSpec(dest, st, s.flags, s.w);
      Outcome(o.out, s.result + o.done, o.w)
  }

  /** The stages in order, for a known snapshot. */
  function Stages(source: string, dest: string, st: Snapshot, flags: set<Flag>, w: World): Outcome
  {
    var owner := OwnerStage(dest, st, flags, w);
    StatStage(dest, st, AclStage(source, dest, st, CapStage(source, dest, XattrStage(source, dest, owner))))
  }

  /** copyfile_copy_metadata: default the flags, lstat when no snapshot is given, then the stages. */
  function CopyMetadataSpec(source: string, dest: string, st: Option<Snapshot>, flags: set<Flag>, w: World): (o: Outcome)
  {
    if st.Some? then Stages(source, dest, st.value, Requested(flags), w)
    else if w.calls == [] then Outcome(OutOfScript, {}, w)
    else if w.calls[0].Fail? then Outcome(Exit(StatError, w.calls[0].errno), {}, Invoke(w, Lstat(source)))
    else Stages(source, dest, w.fs.stat, Requested(flags), Invoke(w, Lstat(source)))
  }

  /** The owner stage as the C code runs it. */
  method OwnerPhase(dest: string, st: Snapshot, flags0: set<Flag>, w0: World) returns (s: Stage)
    ensures s == OwnerStage(dest, st, flags0, w0)
  {
    var flags := flags0;
    var result: set<Flag> := {};
    if SetStat.WantsOwner(flags) {
      var r := SetStat.SetStat(dest, st, flags * Owner, w0);
      flags := flags - r.done;
      result := result + r.done;
      if r.out != Exit(NoError, 0) { return Stop(Outcome(r.out, result, r.w)); }
      return Go(flags, result, r.w);
    }
    return Go(flags, result, w0);
  }

  /** The xattr stage as the C code runs it. */
  method XattrPhase(source: string, dest: string, s0: Stage) returns (s: Stage)
    ensures s == XattrStage(source, dest, s0)
  {
    s := s0;
    if s.Go? && CopyXattr in s.flags {
      var d := Xattr.CopyXattr(source, dest, Xattr.Prefix, s.w);
      if d.out.OutOfScript? { return Stop(Outcome(OutOfScript, s.result, d.w)); }
      var done := Achieved(d.out, XattrAll);
      s := Go(s.flags - done, s.result + done, d.w);
    }
  }

  /** The ACL stage as the C code runs it. */
  method AclPhase(source: string, dest: string, st: Snapshot, s0: Stage) returns (s: Stage)
    ensures s == AclStage(source, dest, st, s0)
  {
    s := s0;
    if s.Go? && CopyAcl in s.flags {
      var d := Acl.CopyAcl(source, dest, Some(st), s.w);
      if d.out.OutOfScript? { return Stop(Outcome(OutOfScript, s.result, d.w)); }
      var done := Achieved(d.out, AclFlags);
      s := Go(s.flags - done, s.result + done, d.w);
    }
  }

  /** The stat stage as the C code runs it. */
  method StatPhase(dest: string, st: Snapshot, s: Stage) returns (o: Outcome)
    ensures o == StatStage(dest, st, s)
  {
    if s.Stop? { return s.o; }
    if WantsStat(s.flags) {
      var r := SetStat.SetStat(dest, st, s.flags, s.w);
      return Outcome(r.out, s.result + r.done, r.w);
    }
    return Outcome(Exit(NoError, 0), s.result, s.w);
  }

  /** copyfile_copy_metadata as the C code runs it. */
  method CopyMetadata(source: string, dest: string, st: Option<Snapshot>, flags0: set<Flag>, w0: World) returns (o: Outcome)
    ensures o == CopyMetadataSpec(source, dest, st, flags0, w0)
  {
    var flags := flags0;
    if flags == {} {
      flags := AllMetadata;
    }
    var w := w0;
    var snapshot: Snapshot;
    if st.None? {
      if w.calls == [] { return Outcome(OutOfScript, {}, w); }
      var reply := w.calls[0];
      w := Invoke(w, Lstat(source));
      if reply.Fail? { return Outcome(Exit(StatError, reply.errno), {}, w); }
      snapshot := w0.fs.stat;
    } else {
      snapshot := st.value;
    }
    var s := OwnerPhase(dest, snapshot, flags, w);
    s := XattrPhase(source, dest, s);
    s := CapStage(source, dest, s);
    s := AclPhase(source, dest, snapshot, s);
    o := StatPhase(dest, snapshot, s);
  }

  /** Between stages, what is still requested is the request less what was achieved, and only requested kinds were achieved. */
  predicate Tracked(requested: set<Flag>, s: Stage)
  {
    match s
    case Go(flags, result, _) => result <= requested && flags == requested - result
    case Stop(o) =>
      && o.done <= requested
      && (o.out.Exit? ==> o.out.err in {ChownError, ChmodError, UtimeError})
  }

  lemma OwnerTracked(dest: string, st: Snapshot, requested: set<Flag>, w: World)
    ensures var s := OwnerStage(dest, st, requested, w);
      Tracked(requested, s) && (s.Go? ==> s.flags * Owner == {})
  {
    if SetStat.WantsOwner(requested) {
      SetStat.SetStatWithin(dest, st, requested * Owner, w);
      SetStat.OwnerOnly(dest, st, requested * Owner, w);
    }
  }

  lemma LaterTracked(source: string, dest: string, st: Snapshot, requested: set<Flag>, s: Stage)
    requires Tracked(requested, s) && (s.Go? ==> s.flags * Owner == {})
    ensures var x := XattrStage(source, dest, s);
      Tracked(requested, x) && (x.Go? ==> x.flags * Owner == {})
    ensures var c := CapStage(source, dest, s);
      Tracked(requested, c) && (c.Go? ==> c.flags * Owner == {})
    ensures var a := AclStage(source, dest, st, s);
      Tracked(requested, a) && (a.Go? ==> a.flags * Owner == {})
  {
  }

  /** The stage sequence: the later stages run on what the owner stage left, and never with an owner bit. */
  lemma StagesTracked(source: string, dest: string, st: Snapshot, requested: set<Flag>, w: World)
    ensures var s := AclStage(source, dest, st, CapStage(source, dest, XattrStage(source, dest, OwnerStage(dest, st, requested, w))));
      Tracked(requested, s) && (s.Go? ==> s.flags * Owner == {})
  {
    var s0 := OwnerStage(dest, st, requested, w);
    OwnerTracked(dest, st, requested, w);
    var s1 := XattrStage(source, dest, s0);
    LaterTracked(source, dest, st, requested, s0);
    var s2 := CapStage(source, dest, s1);
    LaterTracked(source, dest, st, requested, s1);
    LaterTracked(source, dest, st, requested, s2);
  }

  /**
   * The result holds only requested kinds, and the code returned is STAT or
   * one of set_stat's: the xattr, capability and ACL stages' errors are
   * never returned.
   */
  lemma MetadataWithin(source: string, dest: string, st: Option<Snapshot>, flags: set<Flag>, w: World)
    ensures var o := CopyMetadataSpec(source, dest, st, flags, w);
      && o.done <= Requested(flags)
      && (o.out.Exit? ==> o.out.err in {NoError, StatError, ChownError, ChmodError, UtimeError})
  {
    var requested := Requested(flags);
    if st.Some? || (w.calls != [] && w.calls[0].Ok?) {
      var snapshot := if st.Some? then st.value else w.fs.stat;
      var w1 := if st.Some? then w else Invoke(w, Lstat(source));
      StagesTracked(source, dest, snapshot, requested, w1);
      var s := AclStage(source, dest, snapshot, CapStage(source, dest, XattrStage(source, dest, OwnerStage(dest, snapshot, requested, w1))));
      if s.Go? && WantsStat(s.flags) {
        SetStat.SetStatWithin(dest, snapshot, s.flags, s.w);
      }
    }
  }

  /** A CHOWN error from the stages comes from the owner stage: nothing achieved, only the lchown made. */
  lemma StagesChown(source: string, dest: string, st: Snapshot, requested: set<Flag>, w: World)
    ensures var o := Stages(source, dest, st, requested, w);
      o.out.Exit? && o.out.err == ChownError ==> o.done == {} && |o.w.log| == |w.log| + 1
  {
    StagesTracked(source, dest, st, requested, w);
    var s0 := OwnerStage(dest, st, requested, w);
    var s := AclStage(source, dest, st, CapStage(source, dest, XattrStage(source, dest, s0)));
    if s.Go? && WantsStat(s.flags) {
      SetStat.NoOwnerNoChown(dest, st, s.flags, s.w);
    }
    if s0.Go? {
      assert s.Go? || s.o.out.OutOfScript?;
    } else if SetStat.WantsOwner(requested) {
      SetStat.SetStatErrorKeeps(dest, st, requested * Owner, w);
      assert SetStat.Requested(requested * Owner) == requested * Owner;
    }
  }

  /**
   * The final set_stat is asked for what is still requested, which never
   * includes the owner, so a CHOWN error comes from the owner stage alone:
   * nothing was achieved and nothing ran after the lchown.
   */
  lemma ChownStops(source: string, dest: string, st: Option<Snapshot>, flags: set<Flag>, w: World)
    ensures var o := CopyMetadataSpec(source, dest, st, flags, w);
      o.out.Exit? && o.out.err == ChownError ==>
        o.done == {} && |o.w.log| == |w.log| + (if st.None? then 2 else 1)
  {
    if st.Some? {
      StagesChown(source, dest, st.value, Requested(flags), w);
    } else if w.calls != [] && w.calls[0].Ok? {
      StagesChown(source, dest, w.fs.stat, Requested(flags), Invoke(w, Lstat(source)));
    }
  }

  /** Flags of 0 copy all the metadata. */
  lemma DefaultAll(source: string, dest: string, st: Option<Snapshot>, w: World)
    ensures CopyMetadataSpec(source, dest, st, {}, w) == CopyMetadataSpec(source, dest, st, AllMetadata, w)
  {
  }

  /** No stage changes file contents: the metadata copy leaves the file system as it found it. */
  lemma MetadataKeepsFiles(source: string, dest: string, st: Option<Snapshot>, flags: set<Flag>, w: World)
    ensures CopyMetadataSpec(source, dest, st, flags, w).w.fs == w.fs
  {
    var requested := Requested(flags);
    if st.Some? || (w.calls != [] && w.calls[0].Ok?) {
      var snapshot := if st.Some? then st.value else w.fs.stat;
      var w1 := if st.Some? then w else Invoke(w, Lstat(source));
      var s0 := OwnerStage(dest, snapshot, requested, w1);
      StageKeepsFiles(source, dest, snapshot, s0);
      var s1 := XattrStage(source, dest, s0);
      StageKeepsFiles(source, dest, snapshot, s1);
      var s2 := CapStage(source, dest, s1);
      StageKeepsFiles(source, dest, snapshot, s2);
      var s3 := AclStage(source, dest, snapshot, s2);
      if s3.Go? && WantsStat(s3.flags) {
        SetStat.SetStatKeepsFiles(dest, snapshot, s3.flags, s3.w);
      }
      if SetStat.WantsOwner(requested) {
        SetStat.SetStatKeepsFiles(dest, snapshot, requested * Owner, w1);
      }
    }
  }

  /** The world a stage left. */
  function StageWorld(s: Stage): World
  {
    if s.Go? then s.w else s.o.w
  }

  lemma StageKeepsFiles(source: string, dest: string, st: Snapshot, s: Stage)
    ensures StageWorld(XattrStage(source, dest, s)).fs == StageWorld(s).fs
    ensures StageWorld(CapStage(source, dest, s)).fs == StageWorld(s).fs
    ensures StageWorld(AclStage(source, dest, st, s)).fs == StageWorld(s).fs
  {
    if s.Go? {
      Xattr.XattrKeepsFiles(source, dest, Xattr.Prefix, s.w);
      Acl.AclKeepsFiles(source, dest, Some(st), s.w);
    }
  }
}
