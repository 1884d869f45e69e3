/** What every run of the handoff protocol keeps, the unrefused Start included: the process tree, the verdicts,
    the event streams, the rollback copies, the commands sent and the answers given. */
module HandoffAlways {
  import opened Common
  import opened Handoff
  import opened HandoffInvariant
  import opened HandoffHistory
  import opened HandoffMessages
  import opened HandoffAnswers

  /** A process with an update in progress has its rollback copy until the update is committed. */
  ghost predicate Retaining(q: Process) {
    !q.stage.Gone? && !q.work.Idle? && !q.work.Supervising? ==> q.retained.Some?
  }

  ghost predicate Copied(s: State) {
    forall p: Pid :: p < |s.procs| ==> Retaining(s.procs[p])
  }

  ghost predicate Always(s: State) {
    Family(s) && Verdicts(s) && Events(s) && Copied(s) && Told(s) && Addressed(s) && Truthful(s)
  }

  lemma InitAlways(v: Version)
    ensures Always(Init(v))
  {
  }

  // ----- the process tree -----

  lemma SimilarFamily(s: State, t: State)
    requires Family(s) && AllSimilar(s, t)
    ensures Family(t)
  {
    forall p: Pid | p < |t.procs|
      ensures StageFits(t.procs[p]) && KinFits(t, p) && (t.procs[p].parent.Some? ==> t.procs[p].parent.value < p)
    {
      assert Similar(s.procs[p], t.procs[p]) && StageFits(s.procs[p]) && KinFits(s, p);
    }
  }

  lemma QuietFamily(s: State, step: Step)
    requires Family(s) && Enabled(s, step) && Quiet(step)
    ensures Family(Apply(s, step))
  {
    QuietSimilar(s, step);
    SimilarFamily(s, Apply(s, step));
  }

  /** Replacing one process by another of the same version and parent, which keeps its candidate or has none. */
  lemma ReplacedFamily(s: State, p: Pid, r: Process)
    requires Family(s) && p < |s.procs| && StageFits(r)
    requires r.version == s.procs[p].version && r.parent == s.procs[p].parent
    requires HasChild(r.work) && !r.stage.Gone? ==>
               !s.procs[p].stage.Gone? && HasChild(s.procs[p].work) && r.work.child == s.procs[p].work.child
    ensures Family(Put(s, p, r))
  {
    var t := Put(s, p, r);
    forall i: Pid | i < |t.procs|
      ensures StageFits(t.procs[i]) && KinFits(t, i) && (t.procs[i].parent.Some? ==> t.procs[i].parent.value < i)
    {
      assert StageFits(s.procs[i]) && KinFits(s, i);
    }
  }

  lemma SpawnFamily(s: State, step: Step)
    requires Family(s) && Enabled(s, step) && step.SpawnCandidate?
    ensures Family(Apply(s, step))
  {
    var t := Apply(s, step);
    forall i: Pid | i < |t.procs|
      ensures StageFits(t.procs[i]) && KinFits(t, i) && (t.procs[i].parent.Some? ==> t.procs[i].parent.value < i)
    {
      assert i < |s.procs| ==> StageFits(s.procs[i]) && KinFits(s, i);
    }
  }

  /** The other steps replace the acting process and, before it, its candidate. */
  lemma MovedFamily(s: State, step: Step)
    requires Family(s) && Enabled(s, step) && !Quiet(step) && !step.SpawnCandidate? && !TouchesChild(step)
    ensures Family(Apply(s, step))
  {
    assert StageFits(s.procs[step.p]) && KinFits(s, step.p);
    var t := Apply(s, step);
    assert t.procs == Put(s, step.p, t.procs[step.p]).procs;
    ReplacedFamily(s, step.p, t.procs[step.p]);
    SameFamily(Put(s, step.p, t.procs[step.p]), t);
  }

  lemma SameFamily(s: State, t: State)
    requires Family(s) && t.procs == s.procs
    ensures Family(t)
  {
    forall i: Pid | i < |t.procs|
      ensures KinFits(t, i)
    {
      assert KinFits(s, i);
    }
  }

  /** Replacing a candidate and then its parent. */
  lemma PairFamily(s: State, p: Pid, c: Pid, t: State)
    requires Family(s) && p < |s.procs| == |t.procs| && c < |s.procs| && c != p
    requires t.procs == s.procs[c := t.procs[c]][p := t.procs[p]] && StageFits(t.procs[c]) && StageFits(t.procs[p])
    requires t.procs[c].version == s.procs[c].version && t.procs[c].parent == s.procs[c].parent
    requires t.procs[p].version == s.procs[p].version && t.procs[p].parent == s.procs[p].parent
    requires t.procs[c].stage.Gone? || (!s.procs[c].stage.Gone? && t.procs[c].work == s.procs[c].work)
             || !HasChild(t.procs[c].work)
    requires HasChild(t.procs[p].work) && !t.procs[p].stage.Gone? ==>
               !s.procs[p].stage.Gone? && HasChild(s.procs[p].work) && t.procs[p].work.child == s.procs[p].work.child
    ensures Family(t)
  {
    var m := Put(s, c, t.procs[c]);
    ReplacedFamily(s, c, t.procs[c]);
    ReplacedFamily(m, p, t.procs[p]);
    SameFamily(Put(m, p, t.procs[p]), t);
  }

  lemma SentFamily(s: State, step: Step)
    requires Family(s) && Enabled(s, step) && (step.SendActivate? || step.HearConsumerAndCommit?)
    ensures Family(Apply(s, step))
  {
    assert StageFits(s.procs[step.p]) && KinFits(s, step.p);
    var c := s.procs[step.p].work.child;
    assert StageFits(s.procs[c]);
    PairFamily(s, step.p, c, Apply(s, step));
  }

  lemma KilledFamily(s: State, step: Step)
    requires Family(s) && Enabled(s, step)
    requires step.ReapAndRestore? || (step.CloseAndExit? && s.procs[step.p].work.Queued?)
    ensures Family(Apply(s, step))
  {
    assert StageFits(s.procs[step.p]) && KinFits(s, step.p);
    PairFamily(s, step.p, s.procs[step.p].work.child, Apply(s, step));
  }

  lemma FamilyKeeps(s: State, step: Step)
    requires Family(s) && Enabled(s, step)
    ensures Family(Apply(s, step))
  {
    if Quiet(step) {
      QuietFamily(s, step);
    } else if step.SpawnCandidate? {
      SpawnFamily(s, step);
    } else if !TouchesChild(step) {
      MovedFamily(s, step);
    } else if step.CloseAndExit? && s.procs[step.p].work.Idle? {
      StopIsExit(s, step);
      ReplacedFamily(s, step.p, Exited(s.procs[step.p], Exits(step)));
    } else if step.SendActivate? || step.HearConsumerAndCommit? {
      SentFamily(s, step);
    } else {
      KilledFamily(s, step);
    }
  }

  // ----- verdicts -----

  lemma VerdictsKeep(s: State, step: Step)
    requires Family(s) && Verdicts(s) && Enabled(s, step)
    ensures Verdicts(Apply(s, step))
  {
    if Quiet(step) {
      QuietVerdicts(s, step);
    } else if step.HearConsumerAndCommit? {
      CommitVerdicts(s, step);
    } else if step.ReapAndRestore? || (step.CloseAndExit? && s.procs[step.p].work.Queued?) {
      RollbackVerdicts(s, step);
    } else {
      if Ending(step) {
        StoppedSettled(s, step);
      } else if step.SpawnCandidate? || step.CloseAndHand? || step.SendActivate? {
        MovingSettled(s, step);
      } else {
        PreparingSettled(s, step);
      }
      SettledVerdicts(s, Apply(s, step));
    }
  }

  // ----- rollback copies -----

  /** The copy goes when the update does. */
  lemma OwnRetaining(s: State, step: Step)
    requires Enabled(s, step) && Retaining(s.procs[step.p]) && StageFits(s.procs[step.p])
    ensures Retaining(Apply(s, step).procs[step.p])
  {
    if Asking(step) {
      if step.AdvanceAsk? {
        AskSimilar(s.procs[step.p], step.p, step.id);
      }
    } else if Ending(step) {
      EndGone(s, step);
    } else if QuietCandidate(step) {
      QuietRetaining(s, step);
    } else if QuietServer(step) {
      ServerRetaining(s, step);
    }
  }

  lemma ServerRetaining(s: State, step: Step)
    requires Enabled(s, step) && Retaining(s.procs[step.p]) && QuietServer(step)
    ensures Retaining(Apply(s, step).procs[step.p])
  {
  }

  lemma EndGone(s: State, step: Step)
    requires Enabled(s, step) && Ending(step)
    ensures Apply(s, step).procs[step.p].stage.Gone?
  {
  }

  lemma QuietRetaining(s: State, step: Step)
    requires Enabled(s, step) && Retaining(s.procs[step.p]) && QuietCandidate(step)
    ensures Retaining(Apply(s, step).procs[step.p])
  {
  }

  lemma CopiedKeeps(s: State, step: Step)
    requires Family(s) && Copied(s) && Enabled(s, step)
    ensures Copied(Apply(s, step))
  {
    var t := Apply(s, step);
    forall i: Pid | i < |t.procs|
      ensures Retaining(t.procs[i])
    {
      if i == step.p {
        OwnRetaining(s, step);
      } else if i < |s.procs| {
        assert Retaining(s.procs[i]);
        if TouchesChild(step) {
          OtherProcess(s, step, i);
        } else {
          UntouchedProcess(s, step, i);
        }
      } else {
        SpawnedIdle(s, step);
      }
    }
  }

  // ----- every step, every run -----

  /** Every step the source takes keeps it, guarded or not. */
  lemma AlwaysKeeps(s: State, step: Step)
    requires Always(s) && Enabled(s, step)
    ensures Always(Apply(s, step))
  {
    FamilyKeeps(s, step);
    VerdictsKeep(s, step);
    StepEvents(s, step);
    CopiedKeeps(s, step);
    ToldKeeps(s, step);
    AddressedKeeps(s, step);
    TruthfulKeeps(s, step);
  }

  lemma {:induction false} AlwaysRuns(s: State, steps: seq<Step>, guarded: bool)
    requires Always(s) && Runs(s, steps, guarded)
    ensures Always(After(s, steps))
    decreases |steps|
  {
    if steps != [] {
      AlwaysKeeps(s, steps[0]);
      AlwaysRuns(Apply(s, steps[0]), steps[1..], guarded);
    }
  }
}
