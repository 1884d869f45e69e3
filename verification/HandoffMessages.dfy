/** Commands are really sent: a candidate that is committed, aborted or activated was told so. */
module HandoffMessages {
  import opened Common
  import opened Handoff
  import opened HandoffInvariant
  import opened HandoffHistory

  ghost predicate ToldCommit(q: Process) {
    Commit in q.inbox || q.disposition.Committed?
  }

  ghost predicate ToldAbort(q: Process) {
    Abort in q.inbox || q.disposition.Aborted? || q.stage.Gone?
  }

  ghost predicate ToldActivate(q: Process) {
    Activate in q.inbox || !(q.stage.Preflight? || q.stage.Waiting?)
  }

  /** What was told stays told: a command is unread or has had its effect. */
  ghost predicate StillTold(q: Process, r: Process) {
    (ToldCommit(q) ==> ToldCommit(r)) && (ToldAbort(q) ==> ToldAbort(r)) && (ToldActivate(q) ==> ToldActivate(r))
  }

  /** The supervisor of an update has sent what its progress says. */
  ghost predicate HasTold(s: State, p: Pid)
    requires p < |s.procs|
  {
    var w := s.procs[p].work;
    !s.procs[p].stage.Gone? && HasChild(w) && w.child < |s.procs| ==>
      && (w.RollingBack? ==> ToldAbort(s.procs[w.child]))
      && (w.Confirming? && w.progress > 0 ==> ToldActivate(s.procs[w.child]))
  }

  ghost predicate Told(s: State) {
    && (forall c <- s.commits :: c < |s.procs| && ToldCommit(s.procs[c]))
    && (forall p: Pid :: p < |s.procs| ==> HasTold(s, p))
  }

  lemma CandidateStillTold(s: State, step: Step)
    requires Enabled(s, step) && QuietCandidate(step)
    ensures StillTold(s.procs[step.p], Apply(s, step).procs[step.p])
  {
    if step.ReadActivate? || step.ReadVerdict? {
      ReadingStillTold(s, step);
    }
  }

  lemma ReadingStillTold(s: State, step: Step)
    requires Enabled(s, step) && (step.ReadActivate? || step.ReadVerdict?)
    ensures StillTold(s.procs[step.p], Apply(s, step).procs[step.p])
  {
    var q, r := s.procs[step.p], Apply(s, step).procs[step.p];
    assert q.inbox == [q.inbox[0]] + q.inbox[1..] && r.inbox == q.inbox[1..];
  }

  lemma EndStillTold(s: State, step: Step)
    requires Enabled(s, step) && Ending(step)
    ensures StillTold(s.procs[step.p], Apply(s, step).procs[step.p])
  {
  }

  lemma HandingStillTold(s: State, step: Step)
    requires Family(s) && Enabled(s, step) && (step.CloseAndHand? || step.ReapAndRestore?)
    ensures StillTold(s.procs[step.p], Apply(s, step).procs[step.p])
  {
  }

  lemma ServerStillTold(s: State, step: Step)
    requires Enabled(s, step) && QuietServer(step)
    ensures StillTold(s.procs[step.p], Apply(s, step).procs[step.p])
  {
  }

  lemma MovingStillTold(s: State, step: Step)
    requires Enabled(s, step) && ((Moving(step) && !step.CloseAndHand?) || step.HearConsumerAndCommit?)
    ensures StillTold(s.procs[step.p], Apply(s, step).procs[step.p])
  {
  }

  lemma OwnStillTold(s: State, step: Step)
    requires Family(s) && Enabled(s, step)
    ensures StillTold(s.procs[step.p], Apply(s, step).procs[step.p])
  {
    if Asking(step) {
      if step.AdvanceAsk? {
        AskSimilar(s.procs[step.p], step.p, step.id);
      }
      AskQuiet(s, step);
    } else if Ending(step) {
      EndStillTold(s, step);
    } else if QuietCandidate(step) {
      CandidateStillTold(s, step);
    } else if step.CloseAndHand? || step.ReapAndRestore? {
      HandingStillTold(s, step);
    } else if QuietServer(step) {
      ServerStillTold(s, step);
    } else {
      MovingStillTold(s, step);
    }
  }

  lemma AskQuiet(s: State, step: Step)
    requires Enabled(s, step) && Asking(step)
    ensures var q, r := s.procs[step.p], Apply(s, step).procs[step.p];
            r.inbox == q.inbox && r.disposition == q.disposition && r.stage == q.stage && r.work == q.work
  {
  }

  lemma OtherStillTold(s: State, step: Step, i: Pid)
    requires Family(s) && Enabled(s, step) && i < |s.procs| && i != step.p
    ensures var q, r := s.procs[i], Apply(s, step).procs[i];
            StillTold(q, r) && (r.stage.Gone? || (r.work == q.work && r.stage == q.stage))
  {
    if TouchesChild(step) {
      OtherProcess(s, step, i);
      MoreStillTold(s.procs[i], Apply(s, step).procs[i]);
    } else {
      UntouchedProcess(s, step, i);
    }
  }

  lemma MoreStillTold(q: Process, r: Process)
    requires (r == q.(heard := r.heard, inbox := r.inbox) && q.inbox <= r.inbox) || r == Exited(q, false)
    ensures StillTold(q, r) && (r.stage.Gone? || (r.work == q.work && r.stage == q.stage))
  {
  }

  lemma AllStillTold(s: State, step: Step, i: Pid)
    requires Family(s) && Enabled(s, step) && i < |s.procs|
    ensures StillTold(s.procs[i], Apply(s, step).procs[i])
  {
    if i == step.p {
      OwnStillTold(s, step);
    } else {
      OtherStillTold(s, step, i);
    }
  }

  /** The steps that tell a candidate something. */
  lemma TellsChild(s: State, step: Step)
    requires Family(s) && Enabled(s, step)
    requires step.PreparationAborted? || step.GiveUp? || step.SendActivate? || step.HearConsumerAndCommit?
    ensures var c := s.procs[step.p].work.child;
            && c < |s.procs| && c != step.p
            && (step.PreparationAborted? || step.GiveUp? ==> ToldAbort(Apply(s, step).procs[c]))
            && (step.SendActivate? ==> ToldActivate(Apply(s, step).procs[c]))
            && (step.HearConsumerAndCommit? ==> ToldCommit(Apply(s, step).procs[c]))
  {
    assert KinFits(s, step.p);
  }

  /** How the acting process's own work moves on. */
  lemma OwnProgress(s: State, step: Step)
    requires Family(s) && Enabled(s, step)
    ensures var w, n := s.procs[step.p].work, Apply(s, step).procs[step.p].work;
            && (n.RollingBack? && n != w ==> (step.PreparationAborted? || step.GiveUp?) && n.child == w.child)
            && (n.Confirming? && n.progress > 0 && n != w ==>
                  n.child == w.child && (step.SendActivate? || (w.Confirming? && w.progress > 0)))
  {
    if Asking(step) {
      AskQuiet(s, step);
    } else if Ending(step) {
      EndWork(s, step);
    } else if QuietCandidate(step) {
      CandidateWork(s, step);
    } else if QuietServer(step) {
      ServerProgress(s, step);
    }
  }

  lemma ServerProgress(s: State, step: Step)
    requires Enabled(s, step) && QuietServer(step)
    ensures var w, n := s.procs[step.p].work, Apply(s, step).procs[step.p].work;
            && (n.RollingBack? && n != w ==> (step.PreparationAborted? || step.GiveUp?) && n.child == w.child)
            && (n.Confirming? && n.progress > 0 && n != w ==> n.child == w.child && w.Confirming? && w.progress > 0)
  {
  }

  lemma EndWork(s: State, step: Step)
    requires Enabled(s, step) && Ending(step)
    ensures Apply(s, step).procs[step.p].work == s.procs[step.p].work
  {
  }

  lemma CandidateWork(s: State, step: Step)
    requires Enabled(s, step) && QuietCandidate(step)
    ensures Apply(s, step).procs[step.p].work == s.procs[step.p].work
  {
  }

  lemma OwnHasTold(s: State, step: Step)
    requires Family(s) && Told(s) && Enabled(s, step)
    ensures HasTold(Apply(s, step), step.p)
  {
    var t := Apply(s, step);
    var n := t.procs[step.p].work;
    assert HasTold(s, step.p) && KinFits(s, step.p);
    OwnProgress(s, step);
    if !t.procs[step.p].stage.Gone? && (n.RollingBack? || (n.Confirming? && n.progress > 0)) {
      if step.PreparationAborted? || step.GiveUp? || step.SendActivate? {
        TellsChild(s, step);
      } else {
        AllStillTold(s, step, n.child);
      }
    }
  }

  lemma OtherHasTold(s: State, step: Step, i: Pid)
    requires Family(s) && Told(s) && Enabled(s, step) && i < |s.procs| && i != step.p
    ensures HasTold(Apply(s, step), i)
  {
    assert HasTold(s, i) && KinFits(s, i);
    OtherStillTold(s, step, i);
    if HasChild(s.procs[i].work) && !s.procs[i].stage.Gone? {
      AllStillTold(s, step, s.procs[i].work.child);
    }
  }

  lemma CommitsTold(s: State, step: Step)
    requires Family(s) && Told(s) && Enabled(s, step)
    ensures forall c <- Apply(s, step).commits :: c < |Apply(s, step).procs| && ToldCommit(Apply(s, step).procs[c])
  {
    forall c | c in Apply(s, step).commits
      ensures c < |Apply(s, step).procs| && ToldCommit(Apply(s, step).procs[c])
    {
      if c in s.commits {
        AllStillTold(s, step, c);
      } else {
        NewCommit(s, step, c);
        TellsChild(s, step);
      }
    }
  }

  lemma NewCommit(s: State, step: Step, c: Pid)
    requires Enabled(s, step) && c in Apply(s, step).commits && c !in s.commits
    ensures step.HearConsumerAndCommit? && c == s.procs[step.p].work.child
  {
  }

  lemma ToldKeeps(s: State, step: Step)
    requires Family(s) && Told(s) && Enabled(s, step)
    ensures Told(Apply(s, step))
  {
    CommitsTold(s, step);
    forall i: Pid | i < |Apply(s, step).procs|
      ensures HasTold(Apply(s, step), i)
    {
      if i == step.p {
        OwnHasTold(s, step);
      } else if i < |s.procs| {
        OtherHasTold(s, step, i);
      } else {
        SpawnedIdle(s, step);
      }
    }
  }

  lemma SpawnedIdle(s: State, step: Step)
    requires Enabled(s, step) && |Apply(s, step).procs| > |s.procs|
    ensures var n := Apply(s, step).procs;
            |n| == |s.procs| + 1 && n[|s.procs|].work.Idle? && n[|s.procs|].asks == map[]
  {
  }
}
