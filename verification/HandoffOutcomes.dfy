/** What becomes of candidates, of the confirmations they hold and of the servers that supervise them, in every run. */
module HandoffOutcomes {
  import opened Common
  import opened Handoff
  import opened HandoffInvariant
  import opened HandoffHistory
  import opened HandoffMessages
  import opened HandoffAnswers
  import opened HandoffAlways
  import opened HandoffRuns

  // ----- a process that is gone -----

  lemma GoneStays(s: State, step: Step, p: Pid)
    requires Family(s) && Enabled(s, step) && p < |s.procs| && s.procs[p].stage.Gone?
    ensures Apply(s, step).procs[p].stage.Gone? && (p in Apply(s, step).commits ==> p in s.commits)
  {
    if p in Apply(s, step).commits && p !in s.commits {
      NewCommit(s, step, p);
    }
    if p != step.p {
      if TouchesChild(step) {
        OtherProcess(s, step, p);
      } else {
        UntouchedProcess(s, step, p);
      }
    }
  }

  lemma {:induction false} GoneForGood(s: State, steps: seq<Step>, p: Pid)
    requires Always(s) && Runs(s, steps, false) && p < |s.procs| && s.procs[p].stage.Gone?
    ensures var t := After(s, steps);
            p < |t.procs| && t.procs[p].stage.Gone? && (p in t.commits ==> p in s.commits)
    decreases |steps|
  {
    if steps != [] {
      GoneStays(s, steps[0], p);
      AlwaysKeeps(s, steps[0]);
      GoneForGood(Apply(s, steps[0]), steps[1..], p);
    }
  }

  /** A candidate that fails to start reports it, and is never committed afterwards. */
  lemma FailedNeverCommitted(s: State, p: Pid, steps: seq<Step>)
    requires Reached(s) && Enabled(s, StartupFails(p)) && s.procs[p].parent.Some? && p !in s.commits
    requires Runs(Apply(s, StartupFails(p)), steps, false)
    ensures var t := After(Apply(s, StartupFails(p)), steps);
            p < |t.procs| && Failed in t.procs[p].events && p !in t.commits
  {
    ReachedAlways(s);
    var m := Apply(s, StartupFails(p));
    AlwaysKeeps(s, StartupFails(p));
    GoneForGood(m, steps, p);
    RunExtends(m, steps, false);
    var n := |s.procs[p].events|;
    assert m.procs[p].events[n] == Failed;
    assert Remembers(m.procs[p], After(m, steps).procs[p]);
    assert After(m, steps).procs[p].events[n] == Failed;
  }

  // ----- a confirmation that waits -----

  ghost predicate Waits(s: State, p: Pid, id: nat) {
    p < |s.procs| && id in s.procs[p].asks && s.procs[p].asks[id].Holding? && s.procs[p].disposition.Pending?
  }

  lemma AskWaits(q: Process, p: Pid, id: nat, k: nat)
    requires id in q.asks && AskReady(q, q.asks[id]) && k in q.asks && q.asks[k].Holding? && q.disposition.Pending?
    ensures k in AskNext(q, p, id).asks && AskNext(q, p, id).asks[k] == q.asks[k]
  {
  }

  lemma ListedWaits(s: State, step: Step, id: nat)
    requires Addressed(s) && Enabled(s, step) && Waits(s, step.p, id) && (step.NewAsk? || step.DropAsk?)
    requires step != DropAsk(step.p, id)
    ensures var r := Apply(s, step).procs[step.p];
            id in r.asks && r.asks[id] == s.procs[step.p].asks[id]
  {
    assert AddressedAt(s, step.p);
    assert AskAddressed(s, step.p, id);
  }

  lemma OwnWaits(s: State, step: Step, id: nat)
    requires Family(s) && Addressed(s) && Enabled(s, step) && Waits(s, step.p, id) && step != DropAsk(step.p, id)
    ensures var r := Apply(s, step).procs[step.p];
            r.stage.Gone? || !r.disposition.Pending? || (id in r.asks && r.asks[id].Holding?)
  {
    if step.AdvanceAsk? {
      AskWaits(s.procs[step.p], step.p, step.id, id);
    } else if Ending(step) {
      EndGone(s, step);
    } else if Asking(step) {
      ListedWaits(s, step, id);
    } else if QuietCandidate(step) {
      CandidateAsks(s, step);
    } else if step.CloseAndHand? || step.ReapAndRestore? {
      HandingAsks(s, step);
    } else {
      OwnSilent(s, step);
    }
  }

  lemma StepWaits(s: State, step: Step, p: Pid, id: nat)
    requires Family(s) && Addressed(s) && Enabled(s, step) && Waits(s, p, id) && step != DropAsk(p, id)
    ensures var r := Apply(s, step).procs[p];
            r.stage.Gone? || !r.disposition.Pending? || (id in r.asks && r.asks[id].Holding?)
  {
    if p == step.p {
      OwnWaits(s, step, id);
    } else if TouchesChild(step) {
      OtherProcess(s, step, p);
    } else {
      UntouchedProcess(s, step, p);
    }
  }

  /** The process is gone, or its verdict is there. */
  ghost predicate Decided(q: Process) {
    q.stage.Gone? || !q.disposition.Pending?
  }

  lemma {:induction false} StaysDecided(s: State, steps: seq<Step>, p: Pid)
    requires Always(s) && Runs(s, steps, false) && p < |s.procs| && Decided(s.procs[p])
    ensures p < |After(s, steps).procs| && Decided(After(s, steps).procs[p])
    decreases |steps|
  {
    if steps != [] {
      StepExtends(s, steps[0]);
      assert Remembers(s.procs[p], Apply(s, steps[0]).procs[p]);
      if s.procs[p].stage.Gone? {
        GoneStays(s, steps[0], p);
      }
      AlwaysKeeps(s, steps[0]);
      StaysDecided(Apply(s, steps[0]), steps[1..], p);
    }
  }

  /** A confirmation that waits is held until its candidate's verdict is there, unless the client goes away or the
      candidate ends: it is never refused early. */
  lemma {:induction false} HeldUntilDecided(s: State, steps: seq<Step>, p: Pid, id: nat)
    requires Always(s) && Runs(s, steps, false) && Waits(s, p, id) && DropAsk(p, id) !in steps
    ensures p < |After(s, steps).procs| && (Decided(After(s, steps).procs[p]) || Waits(After(s, steps), p, id))
    decreases |steps|
  {
    if steps != [] {
      assert steps[0] in steps;
      StepWaits(s, steps[0], p, id);
      AlwaysKeeps(s, steps[0]);
      var m := Apply(s, steps[0]);
      if Decided(m.procs[p]) {
        StaysDecided(m, steps[1..], p);
      } else {
        HeldUntilDecided(m, steps[1..], p, id);
      }
    }
  }

  // ----- a candidate that was aborted -----

  ghost predicate Unanswered(s: State, id: nat) {
    forall v: Version :: (id, v) !in s.answers
  }

  lemma AbortedAnswersNone(s: State, step: Step, id: nat)
    requires Addressed(s) && Enabled(s, step) && id < |s.requests| && Unanswered(s, id)
    requires s.requests[id].server < |s.procs| && s.procs[s.requests[id].server].disposition.Aborted?
    ensures Unanswered(Apply(s, step), id)
  {
    if step.AdvanceAsk? {
      assert AddressedAt(s, step.p);
      assert AskAddressed(s, step.p, step.id);
    } else {
      assert Apply(s, step).answers == s.answers;
    }
  }

  lemma {:induction false} AbortedNeverAnswers(s: State, steps: seq<Step>, id: nat)
    requires Always(s) && Runs(s, steps, false) && id < |s.requests| && Unanswered(s, id)
    requires s.requests[id].server < |s.procs| && s.procs[s.requests[id].server].disposition.Aborted?
    ensures Unanswered(After(s, steps), id)
    decreases |steps|
  {
    if steps != [] {
      var p := s.requests[id].server;
      AbortedAnswersNone(s, steps[0], id);
      StepExtends(s, steps[0]);
      assert Remembers(s.procs[p], Apply(s, steps[0]).procs[p]);
      AlwaysKeeps(s, steps[0]);
      AbortedNeverAnswers(Apply(s, steps[0]), steps[1..], id);
    }
  }

  /** A candidate that loses its parent before a verdict refuses every confirmation it has not answered, for good. */
  lemma OrphanNeverAnswers(s: State, p: Pid, id: nat, steps: seq<Step>)
    requires Reached(s) && Enabled(s, LoseParent(p)) && id < |s.requests| && s.requests[id].server == p && Unanswered(s, id)
    requires Runs(Apply(s, LoseParent(p)), steps, false)
    ensures Unanswered(After(Apply(s, LoseParent(p)), steps), id)
  {
    ReachedAlways(s);
    AlwaysKeeps(s, LoseParent(p));
    AbortedNeverAnswers(Apply(s, LoseParent(p)), steps, id);
  }

  // ----- a server that supervises -----

  /** Whoever is ended by another process is a candidate that is rolled back. */
  lemma KilledIsRolledBack(s: State, step: Step, p: Pid)
    requires Family(s) && Enabled(s, step) && Alive(s, p) && p != step.p && Apply(s, step).procs[p].stage.Gone?
    ensures p in Apply(s, step).rollbacks
  {
    if step.ReapAndRestore? || step.CloseAndExit? {
      assert KinFits(s, step.p);
    } else if step.HearPrepared? || step.HearReady? {
      HeardProcess(s, step, p);
    } else if TouchesChild(step) {
      ToldProcess(s, step, p);
    } else {
      UntouchedProcess(s, step, p);
    }
  }

  lemma SupervisorStep(s: State, step: Step, p: Pid)
    requires Family(s) && Enabled(s, step) && Alive(s, p) && s.procs[p].work.Supervising?
    requires step != Die(p) && Alive(s, s.procs[p].work.child)
    ensures var r := Apply(s, step).procs[p];
            r.work == s.procs[p].work && (r.stage.Gone? ==> p in Apply(s, step).rollbacks)
  {
    assert StageFits(s.procs[p]);
    if p != step.p {
      if Apply(s, step).procs[p].stage.Gone? {
        KilledIsRolledBack(s, step, p);
      }
      if TouchesChild(step) {
        OtherProcess(s, step, p);
      } else {
        UntouchedProcess(s, step, p);
      }
    }
  }

  /** A server that has handed over stays, as supervisor, for as long as its candidate lives, unless it is killed or
      itself rolled back. */
  lemma {:induction false} SupervisorStays(s: State, steps: seq<Step>, p: Pid)
    requires Always(s) && Runs(s, steps, false) && Alive(s, p) && s.procs[p].work.Supervising? && Die(p) !in steps
    ensures var (t, c) := (After(s, steps), s.procs[p].work.child);
            !Alive(t, c) || p in t.rollbacks || (Alive(t, p) && t.procs[p].work == Supervising(c))
    decreases |steps|
  {
    if steps != [] {
      assert steps[0] in steps;
      var (m, c) := (Apply(s, steps[0]), s.procs[p].work.child);
      assert KinFits(s, p);
      AlwaysKeeps(s, steps[0]);
      RunExtends(m, steps[1..], false);
      if !Alive(s, c) {
        GoneForGood(s, steps, c);
      } else {
        SupervisorStep(s, steps[0], p);
        if Alive(m, p) {
          SupervisorStays(m, steps[1..], p);
        }
      }
    }
  }

  // ----- what a supervisor has read -----

  /** How many of Prepared and Ready the supervisor of an update has read. */
  ghost function Read(w: Work): nat {
    match w
    case Announcing(_) => 1
    case Queued(_) => 1
    case Taken(_) => 1
    case Confirming(_, progress) => if progress < 2 then 1 else 2
    case Committing(_) => 2
    case Supervising(_) => 2
    case _ => 0
  }

  ghost predicate Reported(q: Process, n: nat) {
    && n <= |q.events| && (n > 0 ==> q.events[0] == Prepared(q.version)) && (n > 1 ==> q.events[1] == Ready(q.version))
  }

  ghost predicate HasRead(s: State, p: Pid)
    requires p < |s.procs|
  {
    var w := s.procs[p].work;
    !s.procs[p].stage.Gone? && HasChild(w) && w.child < |s.procs| ==> Reported(s.procs[w.child], Read(w))
  }

  ghost predicate AllRead(s: State) {
    forall p: Pid :: p < |s.procs| ==> HasRead(s, p)
  }

  /** How reading moves on: one report at a time, and only by hearing it. */
  lemma ReadsOn(s: State, step: Step)
    requires Family(s) && Enabled(s, step)
    ensures var w, n := s.procs[step.p].work, Apply(s, step).procs[step.p].work;
            HasChild(n) && Read(n) > 0 ==>
              && HasChild(w) && n.child == w.child
              && (Read(n) == Read(w) || (step.HearPrepared? && Read(n) == 1) || (step.HearReady? && Read(w) == 1 && Read(n) == 2))
  {
    if Asking(step) {
      if step.AdvanceAsk? {
        AskSimilar(s.procs[step.p], step.p, step.id);
      }
      AskQuiet(s, step);
    } else if Ending(step) {
      EndWork(s, step);
    } else if QuietCandidate(step) {
      CandidateWork(s, step);
    } else if QuietServer(step) {
      ServerReads(s, step);
    } else {
      MovingReads(s, step);
    }
  }

  lemma ServerReads(s: State, step: Step)
    requires Enabled(s, step) && QuietServer(step)
    ensures var w, n := s.procs[step.p].work, Apply(s, step).procs[step.p].work;
            HasChild(n) && Read(n) > 0 ==>
              && HasChild(w) && n.child == w.child
              && (Read(n) == Read(w) || (step.HearPrepared? && Read(n) == 1) || (step.HearReady? && Read(w) == 1 && Read(n) == 2))
  {
  }

  lemma MovingReads(s: State, step: Step)
    requires Enabled(s, step) && (Moving(step) || step.HearConsumerAndCommit? || step.ReapAndRestore?)
    ensures var w, n := s.procs[step.p].work, Apply(s, step).procs[step.p].work;
            HasChild(n) && Read(n) > 0 ==> HasChild(w) && n.child == w.child && Read(n) == Read(w)
  {
  }

  lemma OwnHasRead(s: State, step: Step)
    requires Family(s) && AllRead(s) && Enabled(s, step)
    ensures HasRead(Apply(s, step), step.p)
  {
    var t := Apply(s, step);
    var n := t.procs[step.p].work;
    assert HasRead(s, step.p) && KinFits(s, step.p);
    ReadsOn(s, step);
    StepExtends(s, step);
    if HasChild(n) && Read(n) > 0 {
      assert Remembers(s.procs[n.child], t.procs[n.child]);
    }
  }

  lemma OtherHasRead(s: State, step: Step, p: Pid)
    requires Family(s) && AllRead(s) && Enabled(s, step) && p < |s.procs| && p != step.p
    ensures HasRead(Apply(s, step), p)
  {
    assert HasRead(s, p) && KinFits(s, p);
    OtherStillTold(s, step, p);
    StepExtends(s, step);
    if HasChild(s.procs[p].work) && !s.procs[p].stage.Gone? {
      assert Remembers(s.procs[s.procs[p].work.child], Apply(s, step).procs[s.procs[p].work.child]);
    }
  }

  lemma ReadKeeps(s: State, step: Step)
    requires Family(s) && AllRead(s) && Enabled(s, step)
    ensures AllRead(Apply(s, step))
  {
    forall p: Pid | p < |Apply(s, step).procs|
      ensures HasRead(Apply(s, step), p)
    {
      if p == step.p {
        OwnHasRead(s, step);
      } else if p < |s.procs| {
        OtherHasRead(s, step, p);
      } else {
        SpawnedIdle(s, step);
      }
    }
  }

  lemma {:induction false} ReadRuns(s: State, steps: seq<Step>)
    requires Always(s) && AllRead(s) && Runs(s, steps, false)
    ensures AllRead(After(s, steps))
    decreases |steps|
  {
    if steps != [] {
      ReadKeeps(s, steps[0]);
      AlwaysKeeps(s, steps[0]);
      ReadRuns(Apply(s, steps[0]), steps[1..]);
    }
  }

  lemma ReachedRead(s: State)
    requires Reached(s)
    ensures AllRead(s)
  {
    var v: Version :| LeadsBy(Init(v), s, false);
    var steps: seq<Step> :| Runs(Init(v), steps, false) && After(Init(v), steps) == s;
    InitAlways(v);
    ReadRuns(Init(v), steps);
  }

  /** A server announces a restart, closes and hands over only with a candidate that has reported itself prepared under
      its own version, and waits for a consumer only with one that has reported itself ready. */
  lemma HandsToReported(s: State, p: Pid)
    requires Reached(s) && Alive(s, p)
    ensures var w := s.procs[p].work;
            && (w.Announcing? || w.Queued? || w.Taken? || w.Confirming? ==>
                  && w.child < |s.procs| && |s.procs[w.child].events| > 0
                  && s.procs[w.child].events[0] == Prepared(s.procs[w.child].version))
            && (w.Confirming? && w.progress >= 2 ==>
                  |s.procs[w.child].events| > 1 && s.procs[w.child].events[1] == Ready(s.procs[w.child].version))
  {
    ReachedRead(s);
    ReachedAlways(s);
    assert HasRead(s, p) && KinFits(s, p);
  }
}
