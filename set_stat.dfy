/**
 * copyfile_set_stat: apply the owner, the permission bits and the
 * timestamps of a stat snapshot to a path, in that order, and report which
 * of the requested kinds were applied. A filesystem that does not support an
 * operation (EOPNOTSUPP) is not an error.
 */
module SetStat {
  import opened Common
  import opened Errors
  import opened Env
  import opened Flags

  /** Flags of 0 mean COPY_STAT. */
  function Requested(flags: set<Flag>): set<Flag>
  {
    if flags == {} then StatFlags else flags
  }

  /** Some half of the owner is requested (`flags & COPYFILE_COPY_OWNER`). */
  predicate WantsOwner(flags: set<Flag>)
  {
    CopyUser in flags || CopyGroup in flags
  }

  /** Some timestamp is requested (`flags & COPYFILE_COPY_TIMES`). */
  predicate WantsTimes(flags: set<Flag>)
  {
    CopyATime in flags || CopyMTime in flags
  }

  /** lchown with -1 ("unchanged") for the half of the owner that is not requested. */
  function OwnerCall(path: string, st: Snapshot, flags: set<Flag>): Call
  {
    Lchown(path, if CopyUser in flags then st.uid else -1, if CopyGroup in flags then st.gid else -1)
  }

  /** fchmodat with the permission bits of the snapshot. */
  function ModeCall(path: string, st: Snapshot): Call
  {
    Fchmodat(path, st.mode & AllPermBits)
  }

  /** utimensat with UTIME_OMIT (None) for a timestamp that is not requested. */
  function TimesCall(path: string, st: Snapshot, flags: set<Flag>): Call
  {
    Utimensat(path, if CopyATime in flags then Some(st.atime) else None, if CopyMTime in flags then Some(st.mtime) else None)
  }

  /** The calls a run makes when none fails, in order. */
  function Planned(path: string, st: Snapshot, flags: set<Flag>): (p: seq<Call>)
    ensures |p| <= 3
  {
    (if WantsOwner(flags) then [OwnerCall(path, st, flags)] else [])
    + (if CopyMode in flags then [ModeCall(path, st)] else [])
    + (if WantsTimes(flags) then [TimesCall(path, st, flags)] else [])
  }

  /** Between stages: go on with the flags achieved so far, or return. */
  datatype Stage = Go(done: set<Flag>, w: World) | Stop(o: Outcome)

  /**
   * One stage: make `call`; success adds `gained` to the achieved flags,
   * EOPNOTSUPP adds `unsupported` and goes on, any other failure returns `err`.
   */
  function Apply(call: Call, err: CopyError, gained: set<Flag>, unsupported: set<Flag>, done: set<Flag>, w: World): (s: Stage)
    ensures s.Go? ==> done <= s.done <= done + gained + unsupported
    ensures s.Stop? ==> s.o.done == done && (s.o.out.Exit? ==> s.o.out.err == err)
    ensures w.calls != [] ==> (s.Go? ==> s.w == Invoke(w, call)) && (s.Stop? ==> s.o.w == Invoke(w, call))
  {
    if w.calls == [] then Stop(Outcome(OutOfScript, done, w))
    else
      var reply := w.calls[0];
      var w1 := Invoke(w, call);
      if reply.Ok? then Go(done + gained, w1)
      else if reply.errno == EOPNOTSUPP then Go(done + unsupported, w1)
      else Stop(Outcome(Exit(err, reply.errno), done, w1))
  }

  /** The times stage and the return. */
  function TimesStage(path: string, st: Snapshot, flags: set<Flag>, done: set<Flag>, w: World): Outcome
  {
    if !WantsTimes(flags) then Outcome(Exit(NoError, 0), done, w)
    else
      match Apply(TimesCall(path, st, flags), UtimeError, flags * Times, {}, done, w)
      case Stop(o) => o
      case Go(d, w1) => Outcome(Exit(NoError, 0), d, w1)
  }

  /** The mode stage, then the times stage. */
  function ModeStage(path: string, st: Snapshot, flags: set<Flag>, done: set<Flag>, w: World): Outcome
  {
    if CopyMode !in flags then TimesStage(path, st, flags, done, w)
    else
      match Apply(ModeCall(path, st), ChmodError, {CopyMode}, {}, done, w)
      case Stop(o) => o
      case Go(d, w1) => TimesStage(path, st, flags, d, w1)
  }

  /** copyfile_set_stat: the owner stage (EOPNOTSUPP still counts it achieved), then mode, then times. */
  function SetStatSpec(path: string, st: Snapshot, flags0: set<Flag>, w: World): Outcome
  {
    var flags := Requested(flags0);
    if !WantsOwner(flags) then ModeStage(path, st, flags, {}, w)
    else
      match Apply(OwnerCall(path, st, flags), ChownError, flags * Owner, flags * Owner, {}, w)
      case Stop(o) => o
      case Go(d, w1) => ModeStage(path, st, flags, d, w1)
  }

  /** copyfile_set_stat as the C code runs it, accumulating the result flags. */
  method SetStat(path: string, st: Snapshot, flags0: set<Flag>, w0: World) returns (o: Outcome)
    ensures o == SetStatSpec(path, st, flags0, w0)
  {
    var flags := flags0;
    if flags == {} {
      flags := StatFlags;
    }
    var done: set<Flag> := {};
    var w := w0;
    if WantsOwner(flags) {
      if w.calls == [] { return Outcome(OutOfScript, done, w); }
      var reply := w.calls[0];
      w := Invoke(w, OwnerCall(path, st, flags));
      if reply.Fail? && reply.errno != EOPNOTSUPP {
        return Outcome(Exit(ChownError, reply.errno), done, w);
      }
      done := done + flags * Owner;
    }
    o := ModeThenTimes(path, st, flags, done, w);
  }

  /** The chmod step of copyfile_set_stat and what follows it. */
  method ModeThenTimes(path: string, st: Snapshot, flags: set<Flag>, done0: set<Flag>, w0: World) returns (o: Outcome)
    ensures o == ModeStage(path, st, flags, done0, w0)
  {
    var done := done0;
    var w := w0;
    if CopyMode in flags {
      if w.calls == [] { return Outcome(OutOfScript, done, w); }
      var reply := w.calls[0];
      w := Invoke(w, ModeCall(path, st));
      if reply.Ok? {
        done := done + {CopyMode};
      } else if reply.errno != EOPNOTSUPP {
        return Outcome(Exit(ChmodError, reply.errno), done, w);
      }
    }
    o := SetTimes(path, st, flags, done, w);
  }

  /** The utimensat step of copyfile_set_stat and the return. */
  method SetTimes(path: string, st: Snapshot, flags: set<Flag>, done: set<Flag>, w: World) returns (o: Outcome)
    ensures o == TimesStage(path, st, flags, done, w)
  {
    if WantsTimes(flags) {
      if w.calls == [] { return Outcome(OutOfScript, done, w); }
      var reply := w.calls[0];
      var w1 := Invoke(w, TimesCall(path, st, flags));
      if reply.Ok? {
        return Outcome(Exit(NoError, 0), done + flags * Times, w1);
      } else if reply.errno != EOPNOTSUPP {
        return Outcome(Exit(UtimeError, reply.errno), done, w1);
      }
      return Outcome(Exit(NoError, 0), done, w1);
    }
    return Outcome(Exit(NoError, 0), done, w);
  }

  /** The achieved flags are requested ones handled by set_stat, and the code is one of its four. */
  lemma SetStatWithin(path: string, st: Snapshot, flags0: set<Flag>, w: World)
    ensures var o := SetStatSpec(path, st, flags0, w);
      && o.done <= Requested(flags0) * StatFlags
      && (o.out.Exit? ==> o.out.err in {NoError, ChownError, ChmodError, UtimeError})
      && (o.out.Exit? && o.out.err == NoError ==> o.out.errno == 0)
  {
    var flags := Requested(flags0);
    if !WantsOwner(flags) {
      ModeWithin(path, st, flags, {}, w);
    } else {
      var a := Apply(OwnerCall(path, st, flags), ChownError, flags * Owner, flags * Owner, {}, w);
      if a.Go? {
        ModeWithin(path, st, flags, a.done, a.w);
      }
    }
  }

  /** SetStatWithin from the mode stage on. */
  lemma ModeWithin(path: string, st: Snapshot, flags: set<Flag>, done: set<Flag>, w: World)
    requires done <= flags * StatFlags
    ensures var o := ModeStage(path, st, flags, done, w);
      && o.done <= flags * StatFlags
      && (o.out.Exit? ==> o.out.err in {NoError, ChmodError, UtimeError})
      && (o.out.Exit? && o.out.err == NoError ==> o.out.errno == 0)
  {
    if CopyMode !in flags {
      TimesWithin(path, st, flags, done, w);
    } else {
      var a := Apply(ModeCall(path, st), ChmodError, {CopyMode}, {}, done, w);
      if a.Go? {
        TimesWithin(path, st, flags, a.done, a.w);
      }
    }
  }

  /** SetStatWithin for the times stage. */
  lemma TimesWithin(path: string, st: Snapshot, flags: set<Flag>, done: set<Flag>, w: World)
    requires done <= flags * StatFlags
    ensures var o := TimesStage(path, st, flags, done, w);
      && o.done <= flags * StatFlags
      && (o.out.Exit? ==> o.out.err in {NoError, UtimeError})
      && (o.out.Exit? && o.out.err == NoError ==> o.out.errno == 0)
  {
    assert flags * Times <= flags * StatFlags;
  }

  /** How many planned calls come before the mode call and before the times call. */
  function OwnerCount(flags: set<Flag>): nat
  {
    if WantsOwner(flags) then 1 else 0
  }

  function ModeCount(flags: set<Flag>): nat
  {
    OwnerCount(flags) + if CopyMode in flags then 1 else 0
  }

  lemma PlanShape(path: string, st: Snapshot, flags: set<Flag>)
    ensures var plan := Planned(path, st, flags);
      && |plan| == ModeCount(flags) + (if WantsTimes(flags) then 1 else 0)
      && (WantsOwner(flags) ==> plan[0] == OwnerCall(path, st, flags))
      && (CopyMode in flags ==> plan[OwnerCount(flags)] == ModeCall(path, st))
      && (WantsTimes(flags) ==> plan[ModeCount(flags)] == TimesCall(path, st, flags))
  {
  }

  /**
   * The shape of a run against its plan: it made the first n planned calls,
   * each logged with the reply the script gave, and nothing else; all of them
   * on NO_ERROR; on an error the n-th call failed with that errno, which is
   * not EOPNOTSUPP.
   */
  predicate Ordered(w0: World, o: Outcome, plan: seq<Call>)
  {
    var n := |o.w.log| - |w0.log|;
    && n >= 0 && Made(w0, o.w, plan, n)
    && (o.out == Exit(NoError, 0) ==> n == |plan|)
    && (o.out.Exit? && o.out.err != NoError ==>
          n >= 1 && w0.calls[n - 1].Fail? && w0.calls[n - 1].errno == o.out.errno && o.out.errno != EOPNOTSUPP)
  }

  /** A stage stopped at its k-th planned call, or before it, leaves an ordered run. */
  lemma StopOrdered(w0: World, w: World, plan: seq<Call>, k: nat,
                    err: CopyError, gained: set<Flag>, unsupported: set<Flag>, done: set<Flag>)
    requires Made(w0, w, plan, k) && k < |plan| && err != NoError
    requires Apply(plan[k], err, gained, unsupported, done, w).Stop?
    ensures Ordered(w0, Apply(plan[k], err, gained, unsupported, done, w).o, plan)
  {
    if w.calls != [] {
      MadeNext(w0, w, plan, k);
      assert w0.calls[k] == w.calls[0];
    }
  }

  lemma TimesOrder(w0: World, path: string, st: Snapshot, flags: set<Flag>, done: set<Flag>, w: World)
    requires Made(w0, w, Planned(path, st, flags), ModeCount(flags))
    ensures Ordered(w0, TimesStage(path, st, flags, done, w), Planned(path, st, flags))
  {
    var plan := Planned(path, st, flags);
    var k := ModeCount(flags);
    PlanShape(path, st, flags);
    if WantsTimes(flags) {
      var s := Apply(plan[k], UtimeError, flags * Times, {}, done, w);
      if s.Stop? {
        StopOrdered(w0, w, plan, k, UtimeError, flags * Times, {}, done);
      } else {
        MadeNext(w0, w, plan, k);
      }
    }
  }

  lemma ModeOrder(w0: World, path: string, st: Snapshot, flags: set<Flag>, done: set<Flag>, w: World)
    requires Made(w0, w, Planned(path, st, flags), OwnerCount(flags))
    ensures Ordered(w0, ModeStage(path, st, flags, done, w), Planned(path, st, flags))
  {
    var plan := Planned(path, st, flags);
    var k := OwnerCount(flags);
    PlanShape(path, st, flags);
    if CopyMode in flags {
      var s := Apply(plan[k], ChmodError, {CopyMode}, {}, done, w);
      if s.Stop? {
        StopOrdered(w0, w, plan, k, ChmodError, {CopyMode}, {}, done);
      } else {
        MadeNext(w0, w, plan, k);
        TimesOrder(w0, path, st, flags, s.done, s.w);
      }
    } else {
      TimesOrder(w0, path, st, flags, done, w);
    }
  }

  /**
   * The stages run in the order owner, mode, times: a run makes a prefix of
   * the planned calls (all of them on NO_ERROR) and returns an error right
   * after the call that failed, with an errno other than EOPNOTSUPP.
   */
  lemma SetStatOrder(path: string, st: Snapshot, flags0: set<Flag>, w: World)
    ensures Ordered(w, SetStatSpec(path, st, flags0, w), Planned(path, st, Requested(flags0)))
  {
    var flags := Requested(flags0);
    var plan := Planned(path, st, flags);
    MadeNone(w, plan);
    PlanShape(path, st, flags);
    if WantsOwner(flags) {
      var s := Apply(plan[0], ChownError, flags * Owner, flags * Owner, {}, w);
      if s.Stop? {
        StopOrdered(w, w, plan, 0, ChownError, flags * Owner, flags * Owner, {});
      } else {
        MadeNext(w, w, plan, 0);
        ModeOrder(w, path, st, flags, s.done, s.w);
      }
    } else {
      ModeOrder(w, path, st, flags, {}, w);
    }
  }

  /** Every call succeeds: every requested kind is achieved. */
  lemma SetStatAllOk(path: string, st: Snapshot, flags0: set<Flag>, w: World)
    requires |w.calls| >= 3 && w.calls[0].Ok? && w.calls[1].Ok? && w.calls[2].Ok?
    ensures var o := SetStatSpec(path, st, flags0, w);
      o.out == Exit(NoError, 0) && o.done == Requested(flags0) * StatFlags
  {
    var flags := Requested(flags0);
    var d1 := if WantsOwner(flags) then flags * Owner else {};
    var w1 := if WantsOwner(flags) then Invoke(w, OwnerCall(path, st, flags)) else w;
    assert SetStatSpec(path, st, flags0, w) == ModeStage(path, st, flags, d1, w1);
    var d2 := if CopyMode in flags then d1 + {CopyMode} else d1;
    var w2 := if CopyMode in flags then Invoke(w1, ModeCall(path, st)) else w1;
    assert w2.calls != [] && w2.calls[0].Ok?;
    assert ModeStage(path, st, flags, d1, w1) == TimesStage(path, st, flags, d2, w2);
  }

  /** Every call is unsupported: NO_ERROR, with only the owner counted as achieved. */
  lemma SetStatUnsupported(path: string, st: Snapshot, flags0: set<Flag>, w: World)
    requires |w.calls| >= 3 && w.calls[0] == Fail(EOPNOTSUPP) && w.calls[1] == Fail(EOPNOTSUPP) && w.calls[2] == Fail(EOPNOTSUPP)
    ensures var o := SetStatSpec(path, st, flags0, w);
      o.out == Exit(NoError, 0) && o.done == Requested(flags0) * Owner
  {
    var flags := Requested(flags0);
    var d1 := if WantsOwner(flags) then flags * Owner else {};
    var w1 := if WantsOwner(flags) then Invoke(w, OwnerCall(path, st, flags)) else w;
    assert SetStatSpec(path, st, flags0, w) == ModeStage(path, st, flags, d1, w1);
    var w2 := if CopyMode in flags then Invoke(w1, ModeCall(path, st)) else w1;
    assert w2.calls != [] && w2.calls[0] == Fail(EOPNOTSUPP);
    assert ModeStage(path, st, flags, d1, w1) == TimesStage(path, st, flags, d1, w2);
  }

  /**
   * A hard error keeps what the earlier stages achieved and nothing of its
   * own stage or the later ones.
   */
  lemma SetStatErrorKeeps(path: string, st: Snapshot, flags0: set<Flag>, w: World)
    ensures var o := SetStatSpec(path, st, flags0, w); var flags := Requested(flags0);
      && (o.out.Exit? && o.out.err == ChownError ==> o.done == {})
      && (o.out.Exit? && o.out.err == ChmodError ==> o.done == flags * Owner)
      && (o.out.Exit? && o.out.err == UtimeError ==> o.done * Times == {} && o.done * Owner == flags * Owner)
  {
    var flags := Requested(flags0);
    if !WantsOwner(flags) {
      assert flags * Owner == {};
      ModeStageKeeps(path, st, flags, {}, w);
    } else if w.calls != [] {
      var s := Apply(OwnerCall(path, st, flags), ChownError, flags * Owner, flags * Owner, {}, w);
      if s.Go? {
        assert s.done == flags * Owner;
        ModeStageKeeps(path, st, flags, s.done, s.w);
      }
    }
  }

  /** After the owner stage: a failed chmod or utimensat keeps exactly the owner flags achieved before it. */
  lemma ModeStageKeeps(path: string, st: Snapshot, flags: set<Flag>, done: set<Flag>, w: World)
    requires done <= Owner
    ensures var o := ModeStage(path, st, flags, done, w);
      && (o.out.Exit? ==> o.out.err != ChownError)
      && (o.out.Exit? && o.out.err == ChmodError ==> o.done == done)
      && (o.out.Exit? && o.out.err == UtimeError ==> o.done * Times == {} && o.done * Owner == done)
  {
    var d := if CopyMode in flags && w.calls != [] && w.calls[0].Ok? then done + {CopyMode} else done;
    assert d * Times == {} && d * Owner == done;
  }

  /**
   * Running set_stat again with the flags it achieved on a script where
   * everything succeeds achieves them again, unless nothing was achieved:
   * flags of 0 then mean COPY_STAT and the second run does more.
   */
  lemma RerunWithAchieved(path: string, st: Snapshot, flags0: set<Flag>, w: World, w': World)
    requires |w.calls| >= 3 && w.calls[0].Ok? && w.calls[1].Ok? && w.calls[2].Ok?
    requires |w'.calls| >= 3 && w'.calls[0].Ok? && w'.calls[1].Ok? && w'.calls[2].Ok?
    ensures var done := SetStatSpec(path, st, flags0, w).done;
      && (done != {} ==> SetStatSpec(path, st, done, w') == Outcome(Exit(NoError, 0), done, SetStatSpec(path, st, done, w').w))
      && (done == {} ==> SetStatSpec(path, st, done, w').done == StatFlags)
  {
    SetStatAllOk(path, st, flags0, w);
    var done := SetStatSpec(path, st, flags0, w).done;
    SetStatAllOk(path, st, done, w');
    if done != {} {
      assert Requested(done) * StatFlags == done;
    }
  }

  /** A request for the owner alone achieves all of it whenever it returns success. */
  lemma OwnerOnly(path: string, st: Snapshot, flags: set<Flag>, w: World)
    requires WantsOwner(flags) && CopyMode !in flags && !WantsTimes(flags)
    ensures var o := SetStatSpec(path, st, flags, w);
      o.out == Exit(NoError, 0) ==> o.done == flags * Owner
  {
  }

  /** Without the owner requested, lchown is never called: nothing of the owner is achieved and there is no CHOWN error. */
  lemma NoOwnerNoChown(path: string, st: Snapshot, flags: set<Flag>, w: World)
    requires flags != {} && !WantsOwner(flags)
    ensures var o := SetStatSpec(path, st, flags, w);
      o.done * Owner == {} && (o.out.Exit? ==> o.out.err != ChownError)
  {
    SetStatWithin(path, st, flags, w);
  }

  /** set_stat changes metadata only: the file system's contents are as before. */
  lemma SetStatKeepsFiles(path: string, st: Snapshot, flags0: set<Flag>, w: World)
    ensures SetStatSpec(path, st, flags0, w).w.fs == w.fs
  {
  }
}
