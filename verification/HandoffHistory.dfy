/** What no step of the handoff protocol ever forgets. */
module HandoffHistory {
  import opened Common
  import opened Handoff
  import opened HandoffInvariant

  /** A disposition is written once; histories only grow. */
  ghost predicate Remembers(q: Process, r: Process) {
    && r.version == q.version && r.parent == q.parent && q.events <= r.events
    && (!q.disposition.Pending? ==> r.disposition == q.disposition)
  }

  ghost predicate Extends(s: State, t: State) {
    && s.commits <= t.commits && s.rollbacks <= t.rollbacks && s.answers <= t.answers && s.requests <= t.requests
    && |s.procs| <= |t.procs|
    && (forall i: Pid :: i < |s.procs| ==> Remembers(s.procs[i], t.procs[i]))
  }

  lemma OwnRemembers(s: State, step: Step)
    requires Family(s) && Enabled(s, step)
    ensures Remembers(s.procs[step.p], Apply(s, step).procs[step.p])
  {
    if Asking(step) {
      AskingSimilar(s, step);
      if step.AdvanceAsk? {
        AskRemembers(s.procs[step.p], step.p, step.id);
      }
    } else if Ending(step) {
      EndRemembers(s, step);
    } else if QuietCandidate(step) {
      CandidateRemembers(s, step);
    } else if step.CloseAndHand? || step.ReapAndRestore? {
      HandingRemembers(s, step);
    } else {
      OwnSilent(s, step);
    }
  }

  lemma AskRemembers(q: Process, p: Pid, id: nat)
    requires id in q.asks && AskReady(q, q.asks[id])
    ensures Remembers(q, AskNext(q, p, id))
  {
  }

  lemma EndRemembers(s: State, step: Step)
    requires Enabled(s, step) && Ending(step)
    ensures Remembers(s.procs[step.p], Apply(s, step).procs[step.p])
  {
  }

  lemma CandidateRemembers(s: State, step: Step)
    requires Enabled(s, step) && QuietCandidate(step)
    ensures Remembers(s.procs[step.p], Apply(s, step).procs[step.p])
  {
  }

  lemma HandingRemembers(s: State, step: Step)
    requires Family(s) && Enabled(s, step) && (step.CloseAndHand? || step.ReapAndRestore?)
    ensures Remembers(s.procs[step.p], Apply(s, step).procs[step.p])
  {
  }

  lemma StepRecords(s: State, step: Step)
    requires Enabled(s, step)
    ensures s.commits <= Apply(s, step).commits && s.rollbacks <= Apply(s, step).rollbacks
    ensures s.answers <= Apply(s, step).answers && s.requests <= Apply(s, step).requests
  {
  }

  lemma StepExtends(s: State, step: Step)
    requires Family(s) && Enabled(s, step)
    ensures Extends(s, Apply(s, step))
  {
    StepRecords(s, step);
    forall i: Pid | i < |s.procs|
      ensures Remembers(s.procs[i], Apply(s, step).procs[i])
    {
      if i == step.p {
        OwnRemembers(s, step);
      } else if TouchesChild(step) {
        OtherProcess(s, step, i);
      } else {
        UntouchedProcess(s, step, i);
      }
    }
  }

  lemma ExtendsTransitive(s: State, m: State, t: State)
    requires Extends(s, m) && Extends(m, t)
    ensures Extends(s, t)
  {
    forall i: Pid | i < |s.procs|
      ensures Remembers(s.procs[i], t.procs[i])
    {
      assert Remembers(s.procs[i], m.procs[i]) && Remembers(m.procs[i], t.procs[i]);
    }
  }
}
