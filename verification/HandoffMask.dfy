/** A server whose serving loop is already leaving, or which runs the last version, can never take a handoff.
    Whatever update it starts can be masked out: what remains is a run of the guarded protocol. */
module HandoffMask {
  import opened Common
  import opened Handoff
  import opened HandoffInvariant

  /** The part of the invariant that decides who may bind the endpoint. */
  ghost predicate Core(s: State) {
    Shape(s) && Exclusive(s) && Copies(s)
  }

  lemma SimilarCore(s: State, t: State)
    requires Core(s) && AllSimilar(s, t)
    ensures Core(t)
  {
    SimilarShape(s, t);
    SimilarExclusive(s, t);
    SimilarCopies(s, t);
  }

  lemma QuietCore(s: State, step: Step)
    requires Core(s) && Enabled(s, step) && Quiet(step)
    ensures Core(Apply(s, step))
  {
    if Asking(step) {
      AskingSimilar(s, step);
    } else if QuietCandidate(step) {
      CandidateSimilar(s, step);
    } else if step.PreparationAborted? || step.GiveUp? || step.DropRetained? {
      AbortSimilar(s, step);
    } else {
      ProgressSimilar(s, step);
    }
    SimilarCore(s, Apply(s, step));
  }

  lemma ExitCore(s: State, p: Pid, failed: bool)
    requires Core(s) && Alive(s, p)
    ensures Core(Put(s, p, Exited(s.procs[p], failed)))
  {
    StoppedControl(s, Put(s, p, Exited(s.procs[p], failed)), p);
  }

  lemma EndCore(s: State, step: Step)
    requires Core(s) && Enabled(s, step) && Ending(step)
    ensures Core(Apply(s, step))
  {
    if step.CloseAndExit? && s.procs[step.p].work.Queued? {
      var c := s.procs[step.p].work.child;
      KillControl(s, c);
      StoppedControl(Put(s, c, Exited(s.procs[c], false)), Apply(s, step), step.p);
    } else {
      StopIsExit(s, step);
      ExitCore(s, step.p, Exits(step));
    }
  }

  /** Every guarded step keeps it, whatever the disk holds. */
  lemma CoreKeeps(s: State, step: Step)
    requires Core(s) && Enabled(s, step) && Guarded(s, step)
    ensures Core(Apply(s, step))
  {
    if Quiet(step) {
      QuietCore(s, step);
    } else if Ending(step) {
      EndCore(s, step);
    } else if step.SpawnCandidate? {
      SpawnShape(s, step);
      SpawnExclusive(s, step);
    } else if step.CloseAndHand? {
      CloseShape(s, step);
      CloseExclusive(s, step);
    } else if step.SendActivate? {
      ActivateShape(s, step);
      ActivateExclusive(s, step);
    } else if step.HearConsumerAndCommit? {
      CommitShape(s, step);
      CommitExclusive(s, step);
    } else if step.ReapAndRestore? {
      ReapShape(s, step);
      ReapExclusive(s, step);
    } else {
      PreparingShape(s, step);
      PreparingExclusive(s, step);
    }
  }

  // ----- masking one server's update -----

  ghost predicate Outdated(v: Version) {
    exists newer: Version :: Below(v, newer)
  }

  function Masked(q: Process): Process {
    q.(work := Idle, retained := None)
  }

  function Mask(s: State, p: Pid): State
    requires p < |s.procs|
  {
    Put(s, p, Masked(s.procs[p]))
  }

  /** `p` can start an update but never take it to a handoff. */
  ghost predicate Stuck(s: State, p: Pid) {
    && p < |s.procs|
    && var q := s.procs[p];
       (q.stage.Gone? ||
        (q.stage.Serving?
         && (if q.work.Idle? || q.work.Installing? then q.leaving || !Outdated(q.version)
             else q.leaving && p < q.work.child && (q.work.Spawned? || q.work.Announcing? || q.work.Queued? || q.work.RollingBack?))))
  }

  /** Steps of the masked update. */
  ghost predicate Hidden(s: State, step: Step) {
    || step.StartAccepted? || step.UpdaterWrites? || step.PrepareFails? || step.PrepareCurrent? || step.SpawnCandidate?
    || step.HearPrepared? || step.PreparationAborted? || step.AnnounceRestart? || step.ReapAndRestore?
    || (step.CloseAndExit? && step.p < |s.procs| && s.procs[step.p].work.Queued?)
  }

  /** The masked step agrees with the real one. */
  ghost predicate Commutes(s: State, p: Pid, step: Step)
    requires p < |s.procs| && Enabled(s, step)
  {
    && Enabled(Mask(s, p), step)
    && |Apply(s, step).procs| >= |s.procs|
    && Apply(Mask(s, p), step) == Mask(Apply(s, step), p)
  }

  lemma AskKeepsWork(q: Process, p: Pid, id: nat)
    requires id in q.asks && AskReady(q, q.asks[id])
    ensures var r := AskNext(q, p, id);
            r.stage == q.stage && r.work == q.work && r.leaving == q.leaving && r.version == q.version && r.retained == q.retained
  {
  }

  lemma AskMasked(q: Process, p: Pid, id: nat)
    requires id in q.asks && AskReady(q, q.asks[id])
    ensures AskNext(Masked(q), p, id) == Masked(AskNext(q, p, id))
  {
    match q.asks[id]
    case Asked(_, _) =>
    case Swapping =>
    case Notifying =>
    case Holding(_) =>
    case Replying(_) =>
  }

  lemma AdvanceCommutes(s: State, p: Pid, step: Step)
    requires Stuck(s, p) && Enabled(s, step) && step.p == p && step.AdvanceAsk?
    ensures Commutes(s, p, step) && Stuck(Apply(s, step), p)
  {
    AskKeepsWork(s.procs[p], p, step.id);
    AskMasked(s.procs[p], p, step.id);
  }

  lemma AskCommutes(s: State, p: Pid, step: Step)
    requires Stuck(s, p) && Enabled(s, step) && step.p == p && Asking(step)
    ensures Commutes(s, p, step) && Stuck(Apply(s, step), p)
  {
    if step.AdvanceAsk? {
      AdvanceCommutes(s, p, step);
    }
  }

  /** A stuck server that is not confirming anything only leaves, learns its verdict or ends. */
  lemma OwnSteps(s: State, p: Pid, step: Step)
    requires Stuck(s, p) && Enabled(s, step) && step.p == p && !Hidden(s, step) && !Asking(step)
    ensures step.Leave? || step.ReadVerdict? || step.LoseParent? || step.Die? || (step.CloseAndExit? && s.procs[p].work.Idle?)
  {
  }

  lemma OwnCommutes(s: State, p: Pid, step: Step)
    requires Stuck(s, p) && Enabled(s, step) && step.p == p && !Hidden(s, step)
    ensures Commutes(s, p, step) && Stuck(Apply(s, step), p)
  {
    if Asking(step) {
      AskCommutes(s, p, step);
    } else {
      OwnSteps(s, p, step);
      if Ending(step) {
        OwnEndCommutes(s, p, step);
      } else {
        OwnTurnCommutes(s, p, step);
      }
    }
  }

  lemma OwnEndCommutes(s: State, p: Pid, step: Step)
    requires Stuck(s, p) && Enabled(s, step) && step.p == p && (step.Die? || (step.CloseAndExit? && s.procs[p].work.Idle?))
    ensures Commutes(s, p, step) && Stuck(Apply(s, step), p)
  {
    assert Apply(Mask(s, p), step).procs == Mask(Apply(s, step), p).procs;
  }

  lemma OwnTurnCommutes(s: State, p: Pid, step: Step)
    requires Stuck(s, p) && Enabled(s, step) && step.p == p && (step.Leave? || step.ReadVerdict? || step.LoseParent?)
    ensures Commutes(s, p, step) && Stuck(Apply(s, step), p)
  {
    assert Apply(Mask(s, p), step).procs == Mask(Apply(s, step), p).procs;
  }

  /** A change of another process alone commutes with the mask. */
  lemma SingleMask(s: State, p: Pid, i: Pid, t: State, n: State)
    requires p < |s.procs| == |t.procs| && i < |s.procs| && i != p && t.procs == s.procs[i := t.procs[i]]
    requires n == t.(procs := Mask(s, p).procs[i := t.procs[i]])
    ensures n == Mask(t, p) && t.procs[p] == s.procs[p]
  {
    assert n.procs == Mask(t, p).procs;
  }

  lemma OtherAskCommutes(s: State, p: Pid, step: Step)
    requires Stuck(s, p) && Enabled(s, step) && step.p != p && Asking(step)
    ensures Commutes(s, p, step) && Stuck(Apply(s, step), p)
  {
    SingleMask(s, p, step.p, Apply(s, step), Apply(Mask(s, p), step));
  }

  lemma OtherCandidateCommutes(s: State, p: Pid, step: Step)
    requires Stuck(s, p) && Enabled(s, step) && step.p != p && QuietCandidate(step)
    ensures Commutes(s, p, step) && Stuck(Apply(s, step), p)
  {
    SingleMask(s, p, step.p, Apply(s, step), Apply(Mask(s, p), step));
  }

  lemma OtherServerCommutes(s: State, p: Pid, step: Step)
    requires Stuck(s, p) && Enabled(s, step) && step.p != p
    requires step.AnnounceRestart? || step.TakeHandoff? || step.Leave? || step.DropRetained? || step.CloseAndHand?
    ensures Commutes(s, p, step) && Stuck(Apply(s, step), p)
  {
    SingleMask(s, p, step.p, Apply(s, step), Apply(Mask(s, p), step));
  }

  lemma OtherEndCommutes(s: State, p: Pid, step: Step)
    requires Stuck(s, p) && Enabled(s, step) && step.p != p && (step.SuperviseEnds? || step.StartupFails? || step.Die?)
    ensures Commutes(s, p, step) && Stuck(Apply(s, step), p)
  {
    SingleMask(s, p, step.p, Apply(s, step), Apply(Mask(s, p), step));
  }

  lemma OtherInstallCommutes(s: State, p: Pid, step: Step)
    requires Stuck(s, p) && Enabled(s, step) && step.p != p
    requires step.StartAccepted? || step.UpdaterWrites? || step.PrepareFails? || step.PrepareCurrent? || step.SpawnCandidate?
    ensures Commutes(s, p, step) && Stuck(Apply(s, step), p)
  {
  }

  lemma OtherCommutes(s: State, p: Pid, step: Step)
    requires Stuck(s, p) && Enabled(s, step) && step.p != p && !TouchesChild(step)
    ensures Commutes(s, p, step) && Stuck(Apply(s, step), p)
  {
    if Asking(step) {
      OtherAskCommutes(s, p, step);
    } else if QuietCandidate(step) {
      OtherCandidateCommutes(s, p, step);
    } else if step.StartAccepted? || step.UpdaterWrites? || step.PrepareFails? || step.PrepareCurrent? || step.SpawnCandidate? {
      OtherInstallCommutes(s, p, step);
    } else if step.SuperviseEnds? || step.StartupFails? || step.Die? {
      OtherEndCommutes(s, p, step);
    } else {
      OtherServerCommutes(s, p, step);
    }
  }

  lemma HearPreparedCommutes(s: State, p: Pid, step: Step)
    requires Stuck(s, p) && Enabled(s, step) && step.p != p && step.HearPrepared?
    ensures Commutes(s, p, step) && Stuck(Apply(s, step), p)
  {
  }

  lemma HearReadyCommutes(s: State, p: Pid, step: Step)
    requires Stuck(s, p) && Enabled(s, step) && step.p != p && step.HearReady?
    ensures Commutes(s, p, step) && Stuck(Apply(s, step), p)
  {
  }

  lemma CommitCommutes(s: State, p: Pid, step: Step)
    requires Stuck(s, p) && Enabled(s, step) && step.p != p && step.HearConsumerAndCommit?
    ensures Commutes(s, p, step) && Stuck(Apply(s, step), p)
  {
  }

  lemma GiveUpCommutes(s: State, p: Pid, step: Step)
    requires Stuck(s, p) && Enabled(s, step) && step.p != p && step.GiveUp?
    ensures Commutes(s, p, step) && Stuck(Apply(s, step), p)
  {
  }

  lemma AbortCommutes(s: State, p: Pid, step: Step)
    requires Stuck(s, p) && Enabled(s, step) && step.p != p && step.PreparationAborted?
    ensures Commutes(s, p, step) && Stuck(Apply(s, step), p)
  {
  }

  lemma ActivateCommutes(s: State, p: Pid, step: Step)
    requires Stuck(s, p) && Enabled(s, step) && step.p != p && step.SendActivate?
    ensures Commutes(s, p, step) && Stuck(Apply(s, step), p)
  {
  }

  lemma ReapCommutes(s: State, p: Pid, step: Step)
    requires Stuck(s, p) && Enabled(s, step) && step.p != p && step.ReapAndRestore?
    ensures Commutes(s, p, step) && Stuck(Apply(s, step), p)
  {
  }

  lemma CloseCommutes(s: State, p: Pid, step: Step)
    requires Stuck(s, p) && Enabled(s, step) && step.p != p && step.CloseAndExit?
    ensures Commutes(s, p, step) && Stuck(Apply(s, step), p)
  {
  }

  lemma VisibleCommutes(s: State, p: Pid, step: Step)
    requires Stuck(s, p) && Enabled(s, step) && (step.p == p ==> !Hidden(s, step))
    ensures Commutes(s, p, step) && Stuck(Apply(s, step), p)
  {
    if step.p == p {
      OwnCommutes(s, p, step);
    } else if !TouchesChild(step) {
      OtherCommutes(s, p, step);
    } else if step.HearPrepared? {
      HearPreparedCommutes(s, p, step);
    } else if step.HearReady? {
      HearReadyCommutes(s, p, step);
    } else if step.HearConsumerAndCommit? {
      CommitCommutes(s, p, step);
    } else if step.SendActivate? {
      ActivateCommutes(s, p, step);
    } else if step.ReapAndRestore? {
      ReapCommutes(s, p, step);
    } else if step.CloseAndExit? {
      CloseCommutes(s, p, step);
    } else if step.GiveUp? {
      GiveUpCommutes(s, p, step);
    } else {
      AbortCommutes(s, p, step);
    }
  }

  // ----- the masked update itself -----

  /** The disk plays no part in it. */
  lemma CoreProcs(s: State, t: State)
    requires Core(s) && t.procs == s.procs
    ensures Core(t)
  {
    assert AllSimilar(s, t.(disk := s.disk));
    SimilarCore(s, t.(disk := s.disk));
    forall q: Pid | q < |t.procs|
      ensures ChildFits(t, q)
    {
      assert ChildFits(s, q);
    }
  }

  lemma InstallingHidden(s: State, p: Pid, step: Step)
    requires Stuck(s, p) && Enabled(s, step) && step.p == p
    requires step.StartAccepted? || step.UpdaterWrites? || step.PrepareFails? || step.PrepareCurrent? || step.AnnounceRestart?
    ensures Stuck(Apply(s, step), p) && Mask(Apply(s, step), p).procs == Mask(s, p).procs
  {
  }

  lemma SpawnHidden(s: State, p: Pid, step: Step)
    requires Stuck(s, p) && Enabled(s, step) && step.p == p && step.SpawnCandidate? && Core(Mask(s, p))
    ensures Stuck(Apply(s, step), p) && Core(Mask(Apply(s, step), p))
  {
    var m, n := Mask(s, p), Mask(Apply(s, step), p);
    assert n.procs == m.procs + [Fresh(s.disk, Some(p), Preflight)];
    forall q: Pid | q < |n.procs|
      ensures StageFits(n.procs[q]) && ChildFits(n, q)
    {
      assert q < |m.procs| ==> StageFits(m.procs[q]) && ChildFits(m, q);
    }
  }

  lemma ToldHidden(s: State, p: Pid, step: Step)
    requires Stuck(s, p) && Enabled(s, step) && step.p == p && (step.HearPrepared? || step.PreparationAborted?)
    ensures Stuck(Apply(s, step), p) && AllSimilar(Mask(s, p), Mask(Apply(s, step), p))
  {
  }

  lemma KilledHidden(s: State, p: Pid, step: Step)
    requires Stuck(s, p) && Enabled(s, step) && step.p == p
    requires step.ReapAndRestore? || (step.CloseAndExit? && s.procs[p].work.Queued?)
    ensures Stuck(Apply(s, step), p)
    ensures var m, c := Mask(s, p), s.procs[p].work.child;
            var k := Put(m, c, Exited(m.procs[c], false));
            Mask(Apply(s, step), p).procs
            == if step.ReapAndRestore? then k.procs else Put(k, p, Exited(k.procs[p], step.failed)).procs
  {
  }

  lemma HiddenKeeps(s: State, p: Pid, step: Step)
    requires Stuck(s, p) && Core(Mask(s, p)) && Enabled(s, step) && step.p == p && Hidden(s, step)
    ensures Stuck(Apply(s, step), p) && Core(Mask(Apply(s, step), p))
  {
    var m, n := Mask(s, p), Apply(s, step);
    if step.SpawnCandidate? {
      SpawnHidden(s, p, step);
    } else if step.HearPrepared? || step.PreparationAborted? {
      ToldHidden(s, p, step);
      SimilarCore(m, Mask(n, p));
    } else if step.ReapAndRestore? || step.CloseAndExit? {
      KilledHidden(s, p, step);
      var c := s.procs[p].work.child;
      var k := Put(m, c, Exited(m.procs[c], false));
      KillControl(m, c);
      if step.ReapAndRestore? {
        CoreProcs(k, Mask(n, p));
      } else {
        ExitCore(k, p, step.failed);
        CoreProcs(Put(k, p, Exited(k.procs[p], step.failed)), Mask(n, p));
      }
    } else {
      InstallingHidden(s, p, step);
      CoreProcs(m, Mask(n, p));
    }
  }

  // ----- masking several servers -----

  function MaskSet(s: State, masked: set<Pid>): State {
    s.(procs := seq(|s.procs|, i requires 0 <= i < |s.procs| => if i in masked then Masked(s.procs[i]) else s.procs[i]))
  }

  ghost predicate AllStuck(s: State, masked: set<Pid>) {
    forall p <- masked :: Stuck(s, p)
  }

  lemma MaskMore(s: State, masked: set<Pid>, p: Pid)
    requires p in masked && p < |s.procs|
    ensures MaskSet(s, masked) == Mask(MaskSet(s, masked - {p}), p)
  {
    assert MaskSet(s, masked).procs == Mask(MaskSet(s, masked - {p}), p).procs;
  }

  lemma MaskNone(s: State)
    ensures MaskSet(s, {}) == s
  {
    assert MaskSet(s, {}).procs == s.procs;
  }

  lemma UnmaskedStuck(s: State, masked: set<Pid>, p: Pid)
    requires p !in masked
    ensures Stuck(MaskSet(s, masked), p) <==> Stuck(s, p)
  {
    assert p < |s.procs| ==> MaskSet(s, masked).procs[p] == s.procs[p];
  }

  /** Masking commutes with every step that is not one of a masked update. */
  lemma {:induction false} SetCommutes(s: State, masked: set<Pid>, step: Step)
    requires AllStuck(s, masked) && Enabled(s, step) && (step.p in masked ==> !Hidden(s, step))
    ensures Enabled(MaskSet(s, masked), step)
    ensures Apply(MaskSet(s, masked), step) == MaskSet(Apply(s, step), masked) && AllStuck(Apply(s, step), masked)
    decreases masked
  {
    if masked == {} {
      MaskNone(s);
      MaskNone(Apply(s, step));
    } else {
      var p :| p in masked;
      var rest := masked - {p};
      assert masked == rest + {p};
      SetCommutes(s, rest, step);
      MaskedCommutes(s, rest, p, step);
      forall q | q in masked
        ensures Stuck(Apply(s, step), q)
      {
        assert q == p || q in rest;
      }
    }
  }

  lemma MaskedCommutes(s: State, rest: set<Pid>, p: Pid, step: Step)
    requires Stuck(s, p) && p !in rest && Enabled(s, step) && (step.p == p ==> !Hidden(s, step))
    requires Enabled(MaskSet(s, rest), step) && Apply(MaskSet(s, rest), step) == MaskSet(Apply(s, step), rest)
    ensures Enabled(MaskSet(s, rest + {p}), step)
    ensures Apply(MaskSet(s, rest + {p}), step) == MaskSet(Apply(s, step), rest + {p}) && Stuck(Apply(s, step), p)
  {
    var u := MaskSet(s, rest);
    UnmaskedStuck(s, rest, p);
    assert step.p == p ==> u.procs[p] == s.procs[p];
    VisibleCommutes(u, p, step);
    UnmaskedStuck(Apply(s, step), rest, p);
    assert rest + {p} - {p} == rest;
    MaskMore(s, rest + {p}, p);
    MaskMore(Apply(s, step), rest + {p}, p);
  }

  /** Masking hides no handoff: a stuck server has none. */
  lemma SetHanded(s: State, masked: set<Pid>, p: Pid)
    requires AllStuck(s, masked)
    ensures Handed(MaskSet(s, masked), p) == Handed(s, p)
  {
    if p < |s.procs| && s.procs[p].parent.Some? && s.procs[p].parent.value < |s.procs| {
      var q := s.procs[p].parent.value;
      assert q in masked ==> Stuck(s, q);
    }
  }

  /** The harmful Start: accepted by a server that its living parent may still roll back, whose serving loop has
      not chosen its outcome yet, while a newer version exists. */
  ghost predicate Harmful(s: State, step: Step) {
    step.StartAccepted? && Handed(s, step.p) && !s.procs[step.p].leaving && Outdated(s.procs[step.p].version)
  }

  lemma StartHidden(s: State, masked: set<Pid>, p: Pid)
    requires AllStuck(s, masked) && Core(MaskSet(s, masked)) && p !in masked
    requires Enabled(s, StartAccepted(p)) && (s.procs[p].leaving || !Outdated(s.procs[p].version))
    ensures AllStuck(Apply(s, StartAccepted(p)), masked + {p})
    ensures Core(MaskSet(Apply(s, StartAccepted(p)), masked + {p}))
  {
    var m, t := MaskSet(s, masked), Apply(s, StartAccepted(p));
    assert m.procs[p] == s.procs[p] && s.procs[p].retained.None?;
    forall q | q in masked + {p}
      ensures Stuck(t, q)
    {
      assert q != p ==> Stuck(s, q) && t.procs[q] == s.procs[q];
    }
    assert MaskSet(t, masked + {p}).procs == m.procs;
    CoreProcs(m, MaskSet(t, masked + {p}));
  }

  lemma OwnHidden(s: State, masked: set<Pid>, step: Step)
    requires AllStuck(s, masked) && Core(MaskSet(s, masked)) && Enabled(s, step) && step.p in masked && Hidden(s, step)
    ensures AllStuck(Apply(s, step), masked) && Core(MaskSet(Apply(s, step), masked))
  {
    var p, rest := step.p, masked - {step.p};
    SetCommutes(s, rest, step);
    var u := MaskSet(s, rest);
    UnmaskedStuck(s, rest, p);
    assert u.procs[p] == s.procs[p];
    MaskMore(s, masked, p);
    HiddenKeeps(u, p, step);
    MaskMore(Apply(s, step), masked, p);
    UnmaskedStuck(Apply(s, step), rest, p);
  }

  /** Every step but a harmful Start keeps the masked state inside the protocol. */
  lemma SetKeeps(s: State, masked: set<Pid>, step: Step) returns (more: set<Pid>)
    requires AllStuck(s, masked) && Core(MaskSet(s, masked)) && Enabled(s, step) && !Harmful(s, step)
    ensures AllStuck(Apply(s, step), more) && Core(MaskSet(Apply(s, step), more))
  {
    more := masked;
    if step.p in masked && Hidden(s, step) {
      OwnHidden(s, masked, step);
    } else if step.StartAccepted? && Handed(s, step.p) {
      StartHidden(s, masked, step.p);
      more := masked + {step.p};
    } else {
      SetCommutes(s, masked, step);
      SetHanded(s, masked, step.p);
      CoreKeeps(MaskSet(s, masked), step);
    }
  }

  /** Runs without a harmful Start. */
  ghost predicate HarmlessRuns(s: State, steps: seq<Step>)
    decreases |steps|
  {
    steps == [] || (Enabled(s, steps[0]) && !Harmful(s, steps[0]) && HarmlessRuns(Apply(s, steps[0]), steps[1..]))
  }

  lemma {:induction false} SetRuns(s: State, masked: set<Pid>, steps: seq<Step>) returns (more: set<Pid>)
    requires AllStuck(s, masked) && Core(MaskSet(s, masked)) && HarmlessRuns(s, steps)
    ensures AllStuck(After(s, steps), more) && Core(MaskSet(After(s, steps), more))
    decreases |steps|
  {
    more := masked;
    if steps != [] {
      var next := SetKeeps(s, masked, steps[0]);
      more := SetRuns(Apply(s, steps[0]), next, steps[1..]);
    }
  }

  /** So at most one process holds the endpoint. */
  lemma SetOneBound(s: State, masked: set<Pid>, a: Pid, b: Pid)
    requires Core(MaskSet(s, masked)) && Bound(s, a) && Bound(s, b)
    ensures a == b
  {
    var m := MaskSet(s, masked);
    assert Claims(m.procs[a]) && Claims(m.procs[b]);
  }
}
