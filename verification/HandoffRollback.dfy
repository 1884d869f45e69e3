/** What a rollback puts back, in every run the source allows. */
module HandoffRollback {
  import opened Common
  import opened Handoff
  import opened HandoffInvariant
  import opened HandoffAlways
  import opened HandoffRuns
  import opened HandoffBreach

  /** The steps by which a server takes its rollback copy, uses it or discards it. */
  ghost predicate Decides(step: Step, p: Pid) {
    && step.p == p
    && (step.StartAccepted? || step.PrepareFails? || step.PrepareCurrent? || step.ReapAndRestore?
        || step.CloseAndExit? || step.DropRetained?)
  }

  lemma CandidateCopy(s: State, step: Step)
    requires Enabled(s, step) && QuietCandidate(step)
    ensures Apply(s, step).procs[step.p].retained == s.procs[step.p].retained
  {
  }

  lemma OwnCopy(s: State, step: Step)
    requires Enabled(s, step) && !Decides(step, step.p)
    ensures Apply(s, step).procs[step.p].retained == s.procs[step.p].retained
  {
    if Asking(step) {
      if step.AdvanceAsk? {
        AskSimilar(s.procs[step.p], step.p, step.id);
      }
    } else if QuietCandidate(step) {
      CandidateCopy(s, step);
    }
  }

  lemma CopyKept(s: State, step: Step, p: Pid)
    requires Family(s) && Enabled(s, step) && p < |s.procs| && !Decides(step, p)
    ensures Apply(s, step).procs[p].retained == s.procs[p].retained
  {
    if p == step.p {
      OwnCopy(s, step);
    } else if TouchesChild(step) {
      OtherProcess(s, step, p);
    } else {
      UntouchedProcess(s, step, p);
    }
  }

  lemma {:induction false} RunKeepsCopy(s: State, steps: seq<Step>, p: Pid)
    requires Always(s) && Runs(s, steps, false) && p < |s.procs| && forall step <- steps :: !Decides(step, p)
    ensures p < |After(s, steps).procs| && After(s, steps).procs[p].retained == s.procs[p].retained
    decreases |steps|
  {
    if steps != [] {
      assert steps[0] in steps;
      CopyKept(s, steps[0], p);
      AlwaysKeeps(s, steps[0]);
      RunKeepsCopy(Apply(s, steps[0]), steps[1..], p);
    }
  }

  /** An update that ends without a commit puts back the very executable that was installed when the Start was
      accepted, whatever the updater wrote and whatever other servers did meanwhile. */
  lemma FailedUpdateRestores(s: State, p: Pid, steps: seq<Step>, last: Step)
    requires Reached(s) && Enabled(s, StartAccepted(p)) && Runs(Apply(s, StartAccepted(p)), steps, false)
    requires forall step <- steps :: !Decides(step, p)
    requires last.p == p && Enabled(After(Apply(s, StartAccepted(p)), steps), last)
    requires last.PrepareFails? || last.ReapAndRestore?
          || (last.CloseAndExit? && !After(Apply(s, StartAccepted(p)), steps).procs[p].work.Idle?)
    ensures Apply(After(Apply(s, StartAccepted(p)), steps), last).disk == s.disk
  {
    ReachedAlways(s);
    AlwaysKeeps(s, StartAccepted(p));
    RunKeepsCopy(Apply(s, StartAccepted(p)), steps, p);
    PutsBack(After(Apply(s, StartAccepted(p)), steps), last);
  }

  lemma PutsBack(s: State, step: Step)
    requires Enabled(s, step) && s.procs[step.p].retained.Some?
    requires step.PrepareFails? || step.ReapAndRestore? || (step.CloseAndExit? && !s.procs[step.p].work.Idle?)
    ensures Apply(s, step).disk == s.procs[step.p].retained.value
  {
  }

  /** A server that is not updating can always be stopped, and stopping it touches neither another process nor the
      installed executable. */
  lemma CanStop(s: State, p: Pid) returns (t: State)
    requires Alive(s, p) && s.procs[p].stage.Serving? && !s.procs[p].leaving && s.procs[p].work.Idle?
    ensures Leads(s, t) && |t.procs| == |s.procs| && t.procs[p].stage.Gone? && t.disk == s.disk
    ensures forall i: Pid :: i < |s.procs| && i != p ==> t.procs[i] == s.procs[i]
  {
    var m := Apply(s, Leave(p));
    assert m.procs[p] == s.procs[p].(leaving := true) && |m.procs| == |s.procs| && m.disk == s.disk;
    assert forall i: Pid :: i < |s.procs| && i != p ==> m.procs[i] == s.procs[i];
    var u := FinishAsks(m, p);
    t := StopNow(u, p);
    LeadsCons(s, Leave(p), t, true);
  }

  lemma StopNow(u: State, p: Pid) returns (t: State)
    requires Alive(u, p) && u.procs[p].stage.Serving? && u.procs[p].leaving && u.procs[p].work.Idle? && u.procs[p].asks == map[]
    ensures Leads(u, t) && |t.procs| == |u.procs| && t.procs[p].stage.Gone? && t.disk == u.disk
    ensures forall i: Pid :: i < |u.procs| && i != p ==> t.procs[i] == u.procs[i]
  {
    t := Apply(u, CloseAndExit(p, false));
    LeadsSelf(t, true);
    LeadsCons(u, CloseAndExit(p, false), t, true);
  }

  /** A rollback after the handoff gives the endpoint back: the old server can bind, serve and accept another Start. */
  lemma ServesAgain(s: State, p: Pid) returns (t: State)
    requires Reached(s) && Enabled(s, ReapAndRestore(p)) && s.procs[p].stage.Handing?
    ensures LeadsBy(s, t, false) && Bound(t, p) && t.procs[p].stage.Serving? && !t.procs[p].leaving
    ensures Enabled(t, StartAccepted(p)) && t.disk == s.procs[p].retained.value
  {
    ReachedAlways(s);
    assert KinFits(s, p);
    var m := Apply(s, ReapAndRestore(p));
    t := OpensAgain(m, p);
    LeadsCons(s, ReapAndRestore(p), t, false);
  }

  lemma OpensAgain(s: State, p: Pid) returns (t: State)
    requires Alive(s, p) && s.procs[p].stage.Binding? && s.procs[p].work.Idle? && !s.procs[p].watched
    ensures LeadsBy(s, t, false) && |t.procs| == |s.procs| && t.procs[p] == s.procs[p].(stage := Serving) && t.disk == s.disk
  {
    var m := Apply(s, Bind(p));
    t := Apply(m, Open(p));
    LeadsSelf(t, false);
    LeadsCons(m, Open(p), t, false);
    LeadsCons(s, Bind(p), t, false);
  }
}
