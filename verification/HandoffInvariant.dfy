/** The inductive invariant of the handoff protocol and its preservation by every guarded step. */
module HandoffInvariant {
  import opened Common
  import opened Handoff

  /** `p` holds, or is about to be given, the right to bind the endpoint. */
  ghost predicate Claims(q: Process) {
    || q.stage.Binding? || q.stage.Opening? || q.stage.Serving?
    || ((q.stage.Preflight? || q.stage.Waiting?) && Activate in q.inbox)
    || HandChild(q).Some?
  }

  ghost predicate Unactivated(q: Process) {
    (q.stage.Preflight? || q.stage.Waiting? || q.stage.Gone?)
    && q.watched && q.disposition.Pending? && Activate !in q.inbox && Commit !in q.inbox
  }

  /** Work that is only possible before the endpoint is closed for the handoff. */
  ghost predicate EarlyWork(w: Work) {
    w.Spawned? || w.Announcing? || w.Queued? || w.Taken?
  }

  ghost predicate StageFits(q: Process) {
    match q.stage
    case Preflight => q.work.Idle? && q.watched && q.disposition.Pending? && q.parent.Some?
    case Waiting => q.work.Idle? && q.watched && q.disposition.Pending? && q.parent.Some?
    case Binding => q.work.Idle?
    case Opening => q.work.Idle?
    case Serving => q.work.Idle? || q.work.Installing? || EarlyWork(q.work) || q.work.RollingBack?
    case Handing => q.work.Confirming? || q.work.RollingBack? || q.work.Committing? || q.work.Supervising?
    case Gone => true
  }

  /** The candidate of a living process's current update is its own, and newer. */
  ghost predicate KinFits(s: State, p: Pid)
    requires p < |s.procs|
  {
    var q := s.procs[p];
    HasChild(q.work) && !q.stage.Gone? ==>
      && q.work.child < |s.procs|
      && s.procs[q.work.child].parent == Some(p)
      && Below(q.version, s.procs[q.work.child].version)
  }

  /** What a living process knows about the candidate of its current update. */
  ghost predicate ChildFits(s: State, p: Pid)
    requires p < |s.procs|
  {
    var q := s.procs[p];
    && KinFits(s, p)
    && (HasChild(q.work) && !q.stage.Gone? ==>
          var c := q.work.child;
          && (q.stage.Serving? || q.work == Confirming(c, 0) ==> Unactivated(s.procs[c]))
          && (HandChild(q).Some? ==>
                && s.procs[c].watched && Commit !in s.procs[c].inbox
                && !s.procs[c].disposition.Committed?
                && (s.procs[c].work.Idle? || s.procs[c].stage.Gone?)))
  }

  /** What every step keeps of the process tree, guarded or not. */
  ghost predicate Family(s: State) {
    && |s.procs| > 0
    && (forall p: Pid :: p < |s.procs| ==>
          && (s.procs[p].parent.Some? ==> s.procs[p].parent.value < p)
          && StageFits(s.procs[p])
          && KinFits(s, p))
  }

  ghost predicate Shape(s: State) {
    && |s.procs| > 0
    && (forall p: Pid :: p < |s.procs| ==>
          && (s.procs[p].parent.Some? ==> s.procs[p].parent.value < p)
          && StageFits(s.procs[p])
          && ChildFits(s, p))
  }

  lemma ShapeIsFamily(s: State)
    requires Shape(s)
    ensures Family(s)
  {
    forall p: Pid | p < |s.procs|
      ensures KinFits(s, p)
    {
      assert ChildFits(s, p);
    }
  }

  /** Two claims on the endpoint can only belong to a closed parent and the candidate it is confirming. */
  ghost predicate Exclusive(s: State) {
    forall a: Pid, b: Pid :: a < b < |s.procs| && Claims(s.procs[a]) && Claims(s.procs[b]) ==>
      HandChild(s.procs[a]) == Some(b)
  }

  /** An updater abandoned by a process that died may still write: then nobody claims the endpoint. */
  ghost predicate Orphans(s: State) {
    forall p: Pid, i: Pid ::
      p < |s.procs| && i < |s.procs| && s.procs[p].stage.Gone? && s.procs[p].work.Installing? ==>
        !Claims(s.procs[i])
  }

  /** The installed executable, as seen by the claimant that no living parent may still roll back. */
  ghost predicate DiskFits(s: State, p: Pid)
    requires p < |s.procs|
  {
    var q := s.procs[p];
    match q.work
    case Idle => s.disk == q.version && q.retained.None?
    case Installing => q.retained == Some(q.version)
    case _ => q.retained == Some(q.version) && q.work.child < |s.procs| && s.disk == s.procs[q.work.child].version
  }

  ghost predicate Disk(s: State) {
    forall p: Pid :: p < |s.procs| && Claims(s.procs[p]) && !Handed(s, p) ==> DiskFits(s, p)
  }

  /** Processes that own a rollback copy. */
  ghost predicate Copies(s: State) {
    forall p: Pid :: p < |s.procs| && !s.procs[p].stage.Gone? && s.procs[p].retained.Some? ==>
      !s.procs[p].work.Idle? && !s.procs[p].work.Supervising?
  }

  /** `c` was sent Commit: its parent is past the point of rolling back. */
  ghost predicate CommitFits(procs: seq<Process>, c: Pid) {
    && c < |procs|
    && procs[c].parent.Some?
    && procs[c].parent.value < |procs|
    && |procs[c].events| > 2 && procs[c].events[2] == ConsumerConnected
    && (var q := procs[procs[c].parent.value];
        && Below(q.version, procs[c].version)
        && (q.stage.Gone? || (q.stage.Handing? && (q.work == Committing(c) || q.work == Supervising(c)))))
  }

  ghost predicate Verdicts(s: State) {
    && s.commits !! s.rollbacks
    && (forall c <- s.commits :: CommitFits(s.procs, c))
    && (forall c <- s.rollbacks :: c < |s.procs| && s.procs[c].stage.Gone?)
    && (forall c: Pid :: c < |s.procs| && (s.procs[c].disposition.Committed? || Commit in s.procs[c].inbox) ==>
          c in s.commits)
  }

  ghost function Script(v: Version): seq<Event> {
    [Prepared(v), Ready(v), ConsumerConnected, ClientSucceeded]
  }

  /** A prefix of Prepared, Ready, ConsumerConnected, ClientSucceeded, optionally followed by Failed. */
  ghost predicate Stream(e: seq<Event>, v: Version) {
    var n := if |e| > 0 && e[|e| - 1].Failed? then |e| - 1 else |e|;
    n <= 4 && e[..n] == Script(v)[..n]
  }

  /** This task announced the consumer and has not finished. */
  ghost predicate Token(a: Ask) {
    a.Notifying? || (a.Holding? && a.notify) || (a.Replying? && a.notify)
  }

  /** What a process has reported, given how far it got. */
  ghost predicate ReportFits(q: Process) {
    && (q.parent.None? ==> q.events == [] && !q.watched)
    && Stream(q.events, q.version)
    && (ClientSucceeded in q.events ==> q.disposition.Committed?)
    && (!q.stage.Gone? ==> Failed !in q.events)
    && (q.stage.Preflight? ==> q.events == [])
    && (q.stage.Waiting? ==> |q.events| == 1)
    && (q.watched && (q.stage.Binding? || q.stage.Opening?) ==> |q.events| == 1)
    && (q.watched && q.stage.Serving? ==> |q.events| >= 2)
    && (!q.announced && !q.stage.Gone? ==> |q.events| <= 2)
  }

  /** At most one confirmation task announced the consumer, and it reports in order. */
  ghost predicate AsksFit(q: Process) {
    && (q.asks != map[] ==> q.stage.Serving?)
    && (forall i <- q.asks :: AskFits(q, q.asks[i]))
    && (forall i <- q.asks, j <- q.asks :: Token(q.asks[i]) && Token(q.asks[j]) ==> i == j)
  }

  ghost predicate AskFits(q: Process, a: Ask) {
    && (Token(a) ==> q.announced && |q.events| == if a.Notifying? then 2 else 3)
    && (a.Replying? ==> q.disposition.Committed?)
    && (!a.Asked? ==> q.watched)
  }

  ghost predicate EventsFit(q: Process) {
    ReportFits(q) && AsksFit(q)
  }

  ghost predicate Events(s: State) {
    forall p: Pid :: p < |s.procs| ==> EventsFit(s.procs[p])
  }

  ghost predicate Control(s: State) {
    Shape(s) && Exclusive(s) && Orphans(s) && Disk(s) && Copies(s)
  }

  ghost predicate Inv(s: State) {
    Control(s) && Verdicts(s) && Events(s)
  }

  lemma InitInv(v: Version)
    ensures Inv(Init(v))
  {
  }

  // ----- steps that leave every claim, candidate and copy where it was -----

  /** `r` differs from `q` only in ways the control invariants do not see. */
  ghost predicate Similar(q: Process, r: Process) {
    && r.version == q.version && r.parent == q.parent && r.watched == q.watched
    && q.events <= r.events
    && (|| r.stage == q.stage || (q.stage.Preflight? && r.stage.Waiting?)
        || (q.stage.Waiting? && r.stage.Binding? && q.inbox != [] && q.inbox[0].Activate? && q.work.Idle?)
        || (q.stage.Binding? && r.stage.Opening?) || (q.stage.Opening? && r.stage.Serving?))
    && SimilarWork(q, r)
    && SimilarControl(q, r)
  }

  ghost predicate SimilarWork(q: Process, r: Process) {
    if q.work.Committing? && r.work == Supervising(q.work.child) then
      q.stage.Handing? && r.retained.None?
    else
      && r.retained == q.retained
      && (|| r.work == q.work
          || (EarlyWork(q.work) && EarlyWork(r.work) && r.work.child == q.work.child)
          || ((EarlyWork(q.work) || q.work.Confirming?) && r.work == RollingBack(q.work.child))
          || (q.work.Confirming? && r.work == Confirming(q.work.child, 2)))
  }

  ghost predicate SimilarControl(q: Process, r: Process) {
    if r.inbox == q.inbox && r.disposition == q.disposition then q.stage.Waiting? ==> !r.stage.Binding?
    else if r.inbox == q.inbox + [Abort] then r.disposition == q.disposition && (q.stage.Waiting? ==> !r.stage.Binding?)
    else if q.stage.Waiting? then r.stage.Binding? && q.inbox != [] && r.inbox == q.inbox[1..] && r.disposition == q.disposition
    else
      && !q.stage.Preflight? && !q.stage.Gone?
      && (|| (r.inbox == q.inbox && r.disposition.Aborted?)
          || (q.inbox != [] && r.inbox == q.inbox[1..] && (r.disposition.Aborted? || q.inbox[0].Commit?)))
  }

  ghost predicate AllSimilar(s: State, t: State) {
    && t.disk == s.disk && |t.procs| == |s.procs|
    && (forall i: Pid :: i < |s.procs| ==> Similar(s.procs[i], t.procs[i]))
  }

  ghost predicate Asking(step: Step) {
    step.NewAsk? || step.AdvanceAsk? || step.DropAsk?
  }

  ghost predicate QuietServer(step: Step) {
    || step.HearPrepared? || step.AnnounceRestart? || step.TakeHandoff? || step.Leave? || step.HearReady?
    || step.PreparationAborted? || step.GiveUp? || step.DropRetained?
  }

  ghost predicate QuietCandidate(step: Step) {
    || step.FinishPreflight? || step.ReadActivate? || step.Bind? || step.Open?
    || step.ReadVerdict? || step.LoseParent?
  }

  ghost predicate Quiet(step: Step) {
    QuietServer(step) || QuietCandidate(step) || Asking(step)
  }

  lemma HearReadySimilar(s: State, step: Step)
    requires Family(s) && Enabled(s, step) && step.HearReady?
    ensures AllSimilar(s, Apply(s, step))
  {
  }

  lemma HearSimilar(s: State, step: Step)
    requires Family(s) && Enabled(s, step) && (step.HearPrepared? || step.HearReady?)
    ensures AllSimilar(s, Apply(s, step))
  {
    if step.HearReady? {
      HearReadySimilar(s, step);
    }
  }

  lemma ProgressSimilar(s: State, step: Step)
    requires Family(s) && Enabled(s, step)
    requires step.HearPrepared? || step.AnnounceRestart? || step.TakeHandoff? || step.Leave? || step.HearReady?
    ensures AllSimilar(s, Apply(s, step))
  {
    if step.HearPrepared? || step.HearReady? {
      HearSimilar(s, step);
    }
  }

  lemma DropSimilar(s: State, step: Step)
    requires Family(s) && Enabled(s, step) && step.DropRetained?
    ensures AllSimilar(s, Apply(s, step))
  {
  }

  lemma AbortSimilar(s: State, step: Step)
    requires Family(s) && Enabled(s, step) && (step.PreparationAborted? || step.GiveUp? || step.DropRetained?)
    ensures AllSimilar(s, Apply(s, step))
  {
    if step.DropRetained? {
      DropSimilar(s, step);
    }
  }

  lemma ReadVerdictSimilar(s: State, step: Step)
    requires Family(s) && Enabled(s, step) && step.ReadVerdict?
    ensures Similar(s.procs[step.p], Apply(s, step).procs[step.p])
  {
  }

  lemma VerdictSimilar(s: State, step: Step)
    requires Family(s) && Enabled(s, step) && (step.ReadVerdict? || step.LoseParent?)
    ensures AllSimilar(s, Apply(s, step))
  {
    if step.ReadVerdict? {
      ReadVerdictSimilar(s, step);
    }
  }

  lemma CandidateSimilar(s: State, step: Step)
    requires Family(s) && Enabled(s, step) && QuietCandidate(step)
    ensures AllSimilar(s, Apply(s, step))
  {
    if step.ReadVerdict? || step.LoseParent? {
      VerdictSimilar(s, step);
    }
  }

  lemma AskSimilar(q: Process, p: Pid, id: nat)
    requires id in q.asks && AskReady(q, q.asks[id])
    ensures Similar(q, AskNext(q, p, id))
  {
  }

  lemma AskingSimilar(s: State, step: Step)
    requires Enabled(s, step) && Asking(step)
    ensures AllSimilar(s, Apply(s, step))
  {
    if step.AdvanceAsk? {
      AskSimilar(s.procs[step.p], step.p, step.id);
    }
  }

  lemma SimilarShape(s: State, t: State)
    requires Shape(s) && AllSimilar(s, t)
    ensures Shape(t)
  {
    forall p: Pid | p < |t.procs|
      ensures StageFits(t.procs[p]) && ChildFits(t, p)
    {
      assert Similar(s.procs[p], t.procs[p]) && ChildFits(s, p);
    }
  }

  lemma SimilarClaims(s: State, t: State, p: Pid)
    requires Shape(s) && AllSimilar(s, t) && p < |s.procs|
    ensures Claims(t.procs[p]) == Claims(s.procs[p]) && HandChild(t.procs[p]) == HandChild(s.procs[p])
  {
    assert Similar(s.procs[p], t.procs[p]) && StageFits(s.procs[p]);
  }

  lemma SimilarHanded(s: State, t: State, p: Pid)
    requires Shape(s) && AllSimilar(s, t) && p < |s.procs|
    ensures Handed(t, p) == Handed(s, p)
  {
    assert Similar(s.procs[p], t.procs[p]);
    if s.procs[p].parent.Some? {
      SimilarClaims(s, t, s.procs[p].parent.value);
    }
  }

  lemma SimilarExclusive(s: State, t: State)
    requires Shape(s) && Exclusive(s) && AllSimilar(s, t)
    ensures Exclusive(t)
  {
    forall a: Pid, b: Pid | a < b < |t.procs| && Claims(t.procs[a]) && Claims(t.procs[b])
      ensures HandChild(t.procs[a]) == Some(b)
    {
      SimilarClaims(s, t, a);
      SimilarClaims(s, t, b);
    }
  }

  lemma SimilarCopies(s: State, t: State)
    requires Shape(s) && Copies(s) && AllSimilar(s, t)
    ensures Copies(t)
  {
    forall p: Pid | p < |t.procs| && !t.procs[p].stage.Gone? && t.procs[p].retained.Some?
      ensures !t.procs[p].work.Idle? && !t.procs[p].work.Supervising?
    {
      assert Similar(s.procs[p], t.procs[p]) && StageFits(s.procs[p]);
    }
  }

  lemma SimilarDisk(s: State, t: State)
    requires Shape(s) && Disk(s) && AllSimilar(s, t)
    ensures Disk(t)
  {
    forall p: Pid | p < |t.procs| && Claims(t.procs[p]) && !Handed(t, p)
      ensures DiskFits(t, p)
    {
      SimilarClaims(s, t, p);
      SimilarHanded(s, t, p);
      assert Similar(s.procs[p], t.procs[p]) && DiskFits(s, p) && ChildFits(s, p);
    }
  }

  // ----- who may move the disk -----

  /** A process with an update in progress is not itself being confirmed. */
  lemma WorkerNotHanded(s: State, p: Pid)
    requires Shape(s) && Alive(s, p) && !s.procs[p].work.Idle?
    ensures !Handed(s, p)
  {
    if s.procs[p].parent.Some? {
      assert ChildFits(s, s.procs[p].parent.value);
    }
  }

  /** A serving process that is not being confirmed is the only claimant. */
  lemma Alone(s: State, p: Pid, i: Pid)
    requires Shape(s) && Exclusive(s) && p < |s.procs| && i < |s.procs| && i != p
    requires s.procs[p].stage.Serving? && !Handed(s, p)
    ensures !Claims(s.procs[i])
  {
    assert ChildFits(s, i);
  }

  // ----- the end of a process -----

  /** `t` is `s` after process `p` has stopped, for whatever reason. */
  ghost predicate Stopped(s: State, t: State, p: Pid) {
    && Alive(s, p) && |t.procs| == |s.procs|
    && t.procs[p].stage.Gone?
    && (forall i: Pid :: i < |s.procs| && i != p ==> t.procs[i] == s.procs[i])
    && t.procs[p].version == s.procs[p].version && t.procs[p].parent == s.procs[p].parent
    && t.procs[p].watched == s.procs[p].watched && t.procs[p].disposition == s.procs[p].disposition
    && t.procs[p].inbox == s.procs[p].inbox
  }

  lemma StoppedControl(s: State, t: State, p: Pid)
    requires Shape(s) && Exclusive(s) && Copies(s) && Stopped(s, t, p)
    ensures Shape(t) && Exclusive(t) && Copies(t)
  {
    forall i: Pid | i < |t.procs|
      ensures ChildFits(t, i)
    {
      assert ChildFits(s, i);
    }
  }

  lemma StoppedDisk(s: State, t: State, p: Pid)
    requires Shape(s) && Exclusive(s) && Copies(s) && Disk(s) && Stopped(s, t, p) && t.disk == s.disk
    ensures Disk(t)
  {
    forall i: Pid | i < |t.procs| && Claims(t.procs[i]) && !Handed(t, i)
      ensures DiskFits(t, i)
    {
      if Handed(s, i) {
        WorkerNotHanded(s, p);
        assert DiskFits(s, p) && ChildFits(s, p);
      } else {
        assert DiskFits(s, i) && ChildFits(s, i);
      }
    }
  }

  /** Shutdown with a prepared candidate still queued: the candidate is killed and the binary restored. */
  lemma AbandonControl(s: State, step: Step)
    requires Control(s) && Enabled(s, step) && step.CloseAndExit? && s.procs[step.p].work.Queued?
    ensures Control(Apply(s, step))
  {
    var c := s.procs[step.p].work.child;
    KillControl(s, c);
    StoppedControl(Put(s, c, Exited(s.procs[c], false)), Apply(s, step), step.p);
    NobodyClaims(s, step);
  }

  lemma KillControl(s: State, c: Pid)
    requires Shape(s) && Exclusive(s) && Copies(s) && c < |s.procs|
    ensures var m := Put(s, c, Exited(s.procs[c], false)); Shape(m) && Exclusive(m) && Copies(m)
  {
    var m := Put(s, c, Exited(s.procs[c], false));
    if Alive(s, c) {
      StoppedControl(s, m, c);
    } else {
      assert m.procs[c] == s.procs[c].(asks := map[]);
      assert AllSimilar(s, m);
      SimilarShape(s, m);
      SimilarExclusive(s, m);
      SimilarCopies(s, m);
    }
  }

  lemma NobodyClaims(s: State, step: Step)
    requires Control(s) && Enabled(s, step) && step.CloseAndExit? && s.procs[step.p].work.Queued?
    ensures Orphans(Apply(s, step)) && Disk(Apply(s, step))
  {
    WorkerNotHanded(s, step.p);
    forall i: Pid | i < |s.procs|
      ensures !Claims(Apply(s, step).procs[i])
    {
      if i != step.p {
        Alone(s, step.p, i);
      }
    }
  }

  // ----- the steps that move claims, candidates and copies -----

  lemma StartShape(s: State, step: Step)
    requires Shape(s) && Enabled(s, step) && Guarded(s, step) && step.StartAccepted?
    ensures Shape(Apply(s, step))
  {
    var t := Apply(s, step);
    forall i: Pid | i < |t.procs|
      ensures StageFits(t.procs[i]) && ChildFits(t, i)
    {
      assert StageFits(s.procs[i]) && ChildFits(s, i);
    }
  }

  lemma PreparingShape(s: State, step: Step)
    requires Shape(s) && Enabled(s, step) && Guarded(s, step)
    requires step.StartAccepted? || step.UpdaterWrites? || step.PrepareFails? || step.PrepareCurrent?
    ensures Shape(Apply(s, step))
  {
    if step.StartAccepted? {
      StartShape(s, step);
    } else {
      var t := Apply(s, step);
      forall i: Pid | i < |t.procs|
        ensures StageFits(t.procs[i]) && ChildFits(t, i)
      {
        assert StageFits(s.procs[i]) && ChildFits(s, i);
      }
    }
  }

  lemma SpawnShape(s: State, step: Step)
    requires Shape(s) && Enabled(s, step)
    requires step.SpawnCandidate?
    ensures Shape(Apply(s, step))
  {
  }

  lemma CloseShape(s: State, step: Step)
    requires Shape(s) && Enabled(s, step)
    requires step.CloseAndHand?
    ensures Shape(Apply(s, step))
  {
  }

  lemma ActivateShape(s: State, step: Step)
    requires Shape(s) && Enabled(s, step)
    requires step.SendActivate?
    ensures Shape(Apply(s, step))
  {
  }

  lemma CommitShape(s: State, step: Step)
    requires Shape(s) && Enabled(s, step)
    requires step.HearConsumerAndCommit?
    ensures Shape(Apply(s, step))
  {
    var t := Apply(s, step);
    forall i: Pid | i < |t.procs|
      ensures StageFits(t.procs[i]) && ChildFits(t, i) && (t.procs[i].parent.Some? ==> t.procs[i].parent.value < i)
    {
      CommitFamilyAt(s, step, i);
      CommitChildAt(s, step, i);
    }
  }

  lemma CommitFamilyAt(s: State, step: Step, i: Pid)
    requires Shape(s) && Enabled(s, step) && step.HearConsumerAndCommit? && i < |s.procs|
    ensures var t := Apply(s, step);
            && |t.procs| == |s.procs| && StageFits(t.procs[i]) && KinFits(t, i)
            && (t.procs[i].parent.Some? ==> t.procs[i].parent.value < i)
  {
    assert StageFits(s.procs[i]) && ChildFits(s, i) && ChildFits(s, step.p);
  }

  lemma CommitChildAt(s: State, step: Step, i: Pid)
    requires Shape(s) && Enabled(s, step) && step.HearConsumerAndCommit? && i < |s.procs| == |Apply(s, step).procs|
    requires KinFits(Apply(s, step), i)
    ensures ChildFits(Apply(s, step), i)
  {
    var t := Apply(s, step);
    assert ChildFits(s, i) && ChildFits(s, step.p);
    if i != step.p && HasChild(s.procs[i].work) && !s.procs[i].stage.Gone? {
      var c := s.procs[i].work.child;
      assert t.procs[i].work == s.procs[i].work && t.procs[i].stage == s.procs[i].stage;
      assert c != s.procs[step.p].work.child;
      assert c != step.p ==> t.procs[c] == s.procs[c];
    }
  }

  lemma ReapShape(s: State, step: Step)
    requires Shape(s) && Enabled(s, step)
    requires step.ReapAndRestore?
    ensures Shape(Apply(s, step))
  {
    var c := s.procs[step.p].work.child;
    assert ChildFits(s, step.p);
    KilledShape(s, c);
    IdledShape(Put(s, c, Exited(s.procs[c], false)), step.p, Apply(s, step).procs[step.p]);
  }

  lemma KilledShape(s: State, c: Pid)
    requires Shape(s) && c < |s.procs|
    ensures Shape(Put(s, c, Exited(s.procs[c], false)))
  {
  }

  /** A rollback ends: the parent has no candidate any more. */
  lemma IdledShape(s: State, p: Pid, r: Process)
    requires Shape(s) && Alive(s, p) && s.procs[p].work.RollingBack? && r.work.Idle?
    requires r.version == s.procs[p].version && r.parent == s.procs[p].parent
    requires if s.procs[p].stage.Handing? then r.stage.Binding? else r.stage == s.procs[p].stage
    ensures Shape(Put(s, p, r))
  {
  }

  lemma PreparingExclusive(s: State, step: Step)
    requires Shape(s) && Exclusive(s) && Copies(s) && Enabled(s, step) && Guarded(s, step)
    requires step.StartAccepted? || step.UpdaterWrites? || step.PrepareFails? || step.PrepareCurrent?
    ensures Exclusive(Apply(s, step)) && Copies(Apply(s, step))
  {
  }

  lemma SpawnExclusive(s: State, step: Step)
    requires Shape(s) && Exclusive(s) && Copies(s) && Enabled(s, step)
    requires step.SpawnCandidate?
    ensures Exclusive(Apply(s, step)) && Copies(Apply(s, step))
  {
  }

  lemma CloseExclusive(s: State, step: Step)
    requires Shape(s) && Exclusive(s) && Copies(s) && Enabled(s, step)
    requires step.CloseAndHand?
    ensures Exclusive(Apply(s, step)) && Copies(Apply(s, step))
  {
  }

  lemma ActivateExclusive(s: State, step: Step)
    requires Shape(s) && Exclusive(s) && Copies(s) && Enabled(s, step)
    requires step.SendActivate?
    ensures Exclusive(Apply(s, step)) && Copies(Apply(s, step))
  {
  }

  lemma CommitExclusive(s: State, step: Step)
    requires Shape(s) && Exclusive(s) && Copies(s) && Enabled(s, step)
    requires step.HearConsumerAndCommit?
    ensures Exclusive(Apply(s, step)) && Copies(Apply(s, step))
  {
  }

  lemma ReapExclusive(s: State, step: Step)
    requires Shape(s) && Exclusive(s) && Copies(s) && Enabled(s, step)
    requires step.ReapAndRestore?
    ensures Exclusive(Apply(s, step)) && Copies(Apply(s, step))
  {
  }

  /** An undisturbed claimant keeps its view of the disk. */
  lemma DiskCarried(s: State, t: State, i: Pid)
    requires Shape(s) && Disk(s) && t.disk == s.disk && i < |s.procs| <= |t.procs|
    requires forall j: Pid :: j < |s.procs| ==> t.procs[j].version == s.procs[j].version
    requires Claims(s.procs[i]) && !Handed(s, i) && t.procs[i].retained == s.procs[i].retained
    requires t.procs[i].work == s.procs[i].work ||
             (HasChild(s.procs[i].work) && HasChild(t.procs[i].work) && t.procs[i].work.child == s.procs[i].work.child)
    ensures DiskFits(t, i)
  {
    assert DiskFits(s, i) && ChildFits(s, i);
  }

  lemma PreparingDisk(s: State, step: Step)
    requires Shape(s) && Exclusive(s) && Orphans(s) && Disk(s) && Copies(s) && Enabled(s, step) && Guarded(s, step)
    requires step.StartAccepted? || step.UpdaterWrites? || step.PrepareFails? || step.PrepareCurrent?
    ensures Disk(Apply(s, step))
  {
    var p := step.p;
    if Alive(s, p) {
      if !s.procs[p].work.Idle? {
        WorkerNotHanded(s, p);
      }
      forall i: Pid | i < |s.procs| && i != p
        ensures !Claims(s.procs[i])
      {
        Alone(s, p, i);
      }
    }
  }

  lemma SpawnDisk(s: State, step: Step)
    requires Shape(s) && Exclusive(s) && Disk(s) && Copies(s) && Enabled(s, step)
    requires step.SpawnCandidate?
    ensures Disk(Apply(s, step))
  {
    var t := Apply(s, step);
    WorkerNotHanded(s, step.p);
    forall i: Pid | i < |t.procs| && Claims(t.procs[i]) && !Handed(t, i)
      ensures DiskFits(t, i)
    {
      if i != step.p {
        DiskCarried(s, t, i);
      }
    }
  }

  lemma CloseDisk(s: State, step: Step)
    requires Shape(s) && Exclusive(s) && Disk(s) && Copies(s) && Enabled(s, step)
    requires step.CloseAndHand?
    ensures Disk(Apply(s, step))
  {
    var t := Apply(s, step);
    WorkerNotHanded(s, step.p);
    forall i: Pid | i < |t.procs| && Claims(t.procs[i]) && !Handed(t, i)
      ensures DiskFits(t, i)
    {
      if i != step.p {
        DiskCarried(s, t, i);
      }
    }
  }

  lemma ActivateDisk(s: State, step: Step)
    requires Shape(s) && Exclusive(s) && Disk(s) && Copies(s) && Enabled(s, step)
    requires step.SendActivate?
    ensures Disk(Apply(s, step))
  {
    var t := Apply(s, step);
    WorkerNotHanded(s, step.p);
    forall i: Pid | i < |t.procs| && Claims(t.procs[i]) && !Handed(t, i)
      ensures DiskFits(t, i)
    {
      if i != step.p {
        DiskCarried(s, t, i);
      }
    }
  }

  lemma CommitDisk(s: State, step: Step)
    requires Shape(s) && Exclusive(s) && Disk(s) && Copies(s) && Enabled(s, step)
    requires step.HearConsumerAndCommit?
    ensures Disk(Apply(s, step))
  {
    var t, c := Apply(s, step), s.procs[step.p].work.child;
    WorkerNotHanded(s, step.p);
    assert DiskFits(s, step.p) && ChildFits(s, step.p);
    forall i: Pid | i < |t.procs| && Claims(t.procs[i]) && !Handed(t, i)
      ensures DiskFits(t, i)
    {
      if i != c {
        DiskCarried(s, t, i);
      }
    }
  }

  lemma ReapDisk(s: State, step: Step)
    requires Shape(s) && Exclusive(s) && Disk(s) && Copies(s) && Enabled(s, step)
    requires step.ReapAndRestore?
    ensures Disk(Apply(s, step))
  {
    var p, t := step.p, Apply(s, step);
    WorkerNotHanded(s, p);
    assert ChildFits(s, p);
    forall i: Pid | i < |s.procs| && i != p
      ensures !Claims(t.procs[i])
    {
      if s.procs[p].stage.Serving? {
        Alone(s, p, i);
      }
      assert ChildFits(s, i);
    }
  }

  // ----- commits, rollbacks and answers -----

  ghost predicate PastCommit(q: Process, c: Pid) {
    q.stage.Handing? && (q.work == Committing(c) || q.work == Supervising(c))
  }

  /** `r` is `q` after a step that neither commits nor withdraws anything. */
  ghost predicate Settled(q: Process, r: Process, committed: bool) {
    && r.version == q.version && r.parent == q.parent && q.events <= r.events
    && (q.stage.Gone? ==> r.stage.Gone?)
    && (q.stage.Handing? && (q.work.Committing? || q.work.Supervising?) ==>
          r.stage.Gone? || PastCommit(r, q.work.child))
    && (r.disposition.Committed? || Commit in r.inbox ==> committed)
  }

  ghost predicate AllSettled(s: State, t: State) {
    && t.commits == s.commits && t.rollbacks == s.rollbacks
    && |s.procs| <= |t.procs|
    && (forall i: Pid :: i < |s.procs| ==> Settled(s.procs[i], t.procs[i], i in s.commits))
    && (forall i: Pid :: |s.procs| <= i < |t.procs| ==> t.procs[i].disposition.Pending? && t.procs[i].inbox == [])
  }

  lemma SettledVerdicts(s: State, t: State)
    requires Verdicts(s) && AllSettled(s, t)
    ensures Verdicts(t)
  {
    forall c | c in t.commits
      ensures CommitFits(t.procs, c)
    {
      assert CommitFits(s.procs, c) && Settled(s.procs[c], t.procs[c], true);
      var q := s.procs[c].parent.value;
      assert Settled(s.procs[q], t.procs[q], q in s.commits);
    }
    forall c | c in t.rollbacks
      ensures t.procs[c].stage.Gone?
    {
      assert Settled(s.procs[c], t.procs[c], c in s.commits);
    }
  }

  lemma SimilarSettled(s: State, t: State)
    requires Verdicts(s) && AllSimilar(s, t)
    ensures AllSettled(s, t.(commits := s.commits, rollbacks := s.rollbacks))
  {
    forall i: Pid | i < |s.procs|
      ensures Settled(s.procs[i], t.procs[i], i in s.commits)
    {
      assert Similar(s.procs[i], t.procs[i]);
    }
  }

  ghost predicate Moving(step: Step) {
    || step.StartAccepted? || step.UpdaterWrites? || step.PrepareFails? || step.PrepareCurrent?
    || step.SpawnCandidate? || step.CloseAndHand? || step.SendActivate?
  }

  lemma PreparingSettled(s: State, step: Step)
    requires Family(s) && Verdicts(s) && Enabled(s, step)
    requires step.StartAccepted? || step.UpdaterWrites? || step.PrepareFails? || step.PrepareCurrent?
    ensures AllSettled(s, Apply(s, step))
  {
  }

  lemma ActivateSettled(s: State, step: Step)
    requires Family(s) && Verdicts(s) && Enabled(s, step) && step.SendActivate?
    ensures AllSettled(s, Apply(s, step))
  {
  }

  lemma MovingSettled(s: State, step: Step)
    requires Family(s) && Verdicts(s) && Enabled(s, step)
    requires step.SpawnCandidate? || step.CloseAndHand? || step.SendActivate?
    ensures AllSettled(s, Apply(s, step))
  {
    if step.SendActivate? {
      ActivateSettled(s, step);
    }
  }

  lemma StoppedSettled(s: State, step: Step)
    requires Family(s) && Verdicts(s) && Enabled(s, step)
    requires step.SuperviseEnds? || step.StartupFails? || step.Die? || (step.CloseAndExit? && s.procs[step.p].work.Idle?)
    ensures AllSettled(s, Apply(s, step))
  {
    StopIsExit(s, step);
    ExitSettled(s, step.p, Exits(step));
  }

  /** Whether an ending step reports a failure. */
  ghost function Exits(step: Step): bool {
    step.StartupFails? || ((step.CloseAndExit? || step.SuperviseEnds?) && step.failed)
  }

  lemma StopIsExit(s: State, step: Step)
    requires Enabled(s, step)
    requires step.SuperviseEnds? || step.StartupFails? || step.Die? || (step.CloseAndExit? && s.procs[step.p].work.Idle?)
    ensures Apply(s, step) == Put(s, step.p, Exited(s.procs[step.p], Exits(step)))
  {
  }

  lemma ExitSettled(s: State, p: Pid, failed: bool)
    requires Verdicts(s) && p < |s.procs|
    ensures AllSettled(s, Put(s, p, Exited(s.procs[p], failed)))
  {
  }

  lemma CommitVerdicts(s: State, step: Step)
    requires Family(s) && Verdicts(s) && Enabled(s, step) && step.HearConsumerAndCommit?
    ensures Verdicts(Apply(s, step))
  {
    var t, c := Apply(s, step), s.procs[step.p].work.child;
    CommitNew(s, step);
    forall d | d in s.commits
      ensures CommitFits(t.procs, d)
    {
      CommitOld(s, step, d);
    }
    assert t.commits == s.commits + {c} && t.rollbacks == s.rollbacks;
    CommitOthers(s, step);
  }

  lemma CommitNew(s: State, step: Step)
    requires Family(s) && Verdicts(s) && Enabled(s, step) && step.HearConsumerAndCommit?
    ensures CommitFits(Apply(s, step).procs, s.procs[step.p].work.child) && s.procs[step.p].work.child !in s.rollbacks
  {
    assert KinFits(s, step.p);
  }

  lemma CommitOld(s: State, step: Step, d: Pid)
    requires Family(s) && Verdicts(s) && Enabled(s, step) && step.HearConsumerAndCommit? && d in s.commits
    ensures CommitFits(Apply(s, step).procs, d)
  {
    assert CommitFits(s.procs, d) && KinFits(s, step.p);
  }

  /** Sending Commit changes nothing else that verdicts depend on. */
  lemma CommitOthers(s: State, step: Step)
    requires Family(s) && Enabled(s, step) && step.HearConsumerAndCommit?
    ensures |Apply(s, step).procs| == |s.procs|
    ensures forall i: Pid :: i < |s.procs| ==>
              var q, r := s.procs[i], Apply(s, step).procs[i];
              && r.stage == q.stage && r.version == q.version && r.disposition == q.disposition
              && (i != s.procs[step.p].work.child ==> r.inbox == q.inbox)
  {
    assert KinFits(s, step.p);
  }

  lemma RollbackSettled(s: State, step: Step)
    requires Family(s) && Verdicts(s) && Enabled(s, step)
    requires step.ReapAndRestore? || (step.CloseAndExit? && s.procs[step.p].work.Queued?)
    ensures AllSettled(s, Apply(s, step).(rollbacks := s.rollbacks))
  {
    if step.ReapAndRestore? {
      ReapSettled(s, step);
    }
  }

  lemma ReapSettled(s: State, step: Step)
    requires Family(s) && Verdicts(s) && Enabled(s, step) && step.ReapAndRestore?
    ensures AllSettled(s, Apply(s, step).(rollbacks := s.rollbacks))
  {
  }

  lemma RolledBack(m: State, c: Pid)
    requires Verdicts(m) && c !in m.commits && c < |m.procs| && m.procs[c].stage.Gone?
    ensures Verdicts(m.(rollbacks := m.rollbacks + {c}))
  {
  }

  lemma RolledBackChild(s: State, step: Step)
    requires Family(s) && Verdicts(s) && Enabled(s, step)
    requires step.ReapAndRestore? || (step.CloseAndExit? && s.procs[step.p].work.Queued?)
    ensures var c := s.procs[step.p].work.child;
            && c !in s.commits && c < |s.procs| && Apply(s, step).procs[c].stage.Gone?
            && Apply(s, step).rollbacks == s.rollbacks + {c} && Apply(s, step).commits == s.commits
  {
    var c := s.procs[step.p].work.child;
    assert KinFits(s, step.p);
    assert c in s.commits ==> CommitFits(s.procs, c);
  }

  lemma RollbackVerdicts(s: State, step: Step)
    requires Family(s) && Verdicts(s) && Enabled(s, step)
    requires step.ReapAndRestore? || (step.CloseAndExit? && s.procs[step.p].work.Queued?)
    ensures Verdicts(Apply(s, step))
  {
    var m := Apply(s, step).(rollbacks := s.rollbacks);
    RollbackSettled(s, step);
    SettledVerdicts(s, m);
    RolledBackChild(s, step);
    RolledBack(m, s.procs[step.p].work.child);
  }

  lemma AskingVerdicts(s: State, step: Step)
    requires Verdicts(s) && Enabled(s, step) && Asking(step)
    ensures Verdicts(Apply(s, step))
  {
    AskingSimilar(s, step);
    SimilarSettled(s, Apply(s, step));
    AskRecords(s, step);
    SettledVerdicts(s, Apply(s, step));
  }

  // ----- event streams -----

  /** Steps that also touch the candidate of the acting process. */
  ghost predicate TouchesChild(step: Step) {
    || step.HearPrepared? || step.PreparationAborted? || step.GiveUp? || step.HearReady? || step.SendActivate?
    || step.HearConsumerAndCommit? || step.ReapAndRestore? || step.CloseAndExit?
  }

  lemma OtherProcess(s: State, step: Step, i: Pid)
    requires Family(s) && Enabled(s, step) && i < |s.procs| && i != step.p && TouchesChild(step)
    ensures var q, r := s.procs[i], Apply(s, step).procs[i];
            (r == q.(heard := r.heard, inbox := r.inbox) && q.inbox <= r.inbox) || r == Exited(q, false)
  {
    if step.ReapAndRestore? || step.CloseAndExit? {
      KilledProcess(s, step, i);
    } else if step.HearPrepared? || step.HearReady? {
      HeardProcess(s, step, i);
    } else {
      ToldProcess(s, step, i);
    }
  }

  lemma KilledProcess(s: State, step: Step, i: Pid)
    requires Family(s) && Enabled(s, step) && i < |s.procs| && i != step.p
    requires step.ReapAndRestore? || step.CloseAndExit?
    ensures Apply(s, step).procs[i] == s.procs[i] || Apply(s, step).procs[i] == Exited(s.procs[i], false)
  {
  }

  lemma HeardProcess(s: State, step: Step, i: Pid)
    requires Family(s) && Enabled(s, step) && i < |s.procs| && i != step.p && (step.HearPrepared? || step.HearReady?)
    ensures Apply(s, step).procs[i] == s.procs[i].(heard := Apply(s, step).procs[i].heard)
  {
  }

  lemma ToldProcess(s: State, step: Step, i: Pid)
    requires Family(s) && Enabled(s, step) && i < |s.procs| && i != step.p
    requires step.PreparationAborted? || step.GiveUp? || step.SendActivate? || step.HearConsumerAndCommit?
    ensures var q, r := s.procs[i], Apply(s, step).procs[i]; r == q.(heard := r.heard, inbox := r.inbox) && q.inbox <= r.inbox
  {
  }

  lemma UntouchedProcess(s: State, step: Step, i: Pid)
    requires Enabled(s, step) && i < |s.procs| && i != step.p && !TouchesChild(step)
    ensures Apply(s, step).procs[i] == s.procs[i]
  {
  }

  lemma OtherEvents(s: State, step: Step, i: Pid)
    requires Family(s) && Events(s) && Enabled(s, step) && i < |s.procs| && i != step.p
    ensures EventsFit(Apply(s, step).procs[i])
  {
    assert EventsFit(s.procs[i]);
    if TouchesChild(step) {
      EndEvents(s.procs[i], false);
      OtherProcess(s, step, i);
    } else {
      UntouchedProcess(s, step, i);
    }
  }

  lemma StreamGrows(e: seq<Event>, v: Version)
    requires Stream(e, v) && Failed !in e
    ensures |e| < 4 ==> Stream(e + [Script(v)[|e|]], v)
    ensures Stream(e + [Failed], v)
    ensures ClientSucceeded in e ==> |e| == 4
  {
    assert |e| < 4 ==> (e + [Script(v)[|e|]])[..|e| + 1] == Script(v)[..|e| + 1];
    assert (e + [Failed])[..|e|] == e;
    assert e == Script(v)[..|e|];
  }

  lemma AskReports(q: Process, p: Pid, id: nat)
    requires EventsFit(q) && id in q.asks && AskReady(q, q.asks[id])
    ensures ReportFits(AskNext(q, p, id))
  {
    assert AskFits(q, q.asks[id]);
    if Token(q.asks[id]) && !q.asks[id].Holding? {
      TokenReports(q, p, id);
    } else {
      var r := AskNext(q, p, id);
      assert r == q.(announced := r.announced, asks := r.asks);
    }
  }

  lemma TokenReports(q: Process, p: Pid, id: nat)
    requires ReportFits(q) && AsksFit(q) && id in q.asks && AskReady(q, q.asks[id])
    requires q.asks[id].Notifying? || q.asks[id] == Replying(true)
    ensures ReportFits(AskNext(q, p, id))
  {
    assert AskFits(q, q.asks[id]);
    StreamGrows(q.events, q.version);
  }

  lemma AskTokens(q: Process, p: Pid, id: nat)
    requires EventsFit(q) && id in q.asks && AskReady(q, q.asks[id])
    ensures AsksFit(AskNext(q, p, id))
  {
    var r := AskNext(q, p, id);
    assert AskFits(q, q.asks[id]);
    forall i | i in r.asks
      ensures AskFits(r, r.asks[i])
      ensures i != id ==> r.asks[i] == q.asks[i]
    {
      if i != id {
        assert AskFits(q, q.asks[i]) && !(Token(q.asks[i]) && Token(q.asks[id]));
      }
    }
    assert id in r.asks && Token(r.asks[id]) ==> Token(q.asks[id]) || q.asks[id].Swapping?;
  }

  lemma EndEvents(q: Process, failed: bool)
    requires EventsFit(q) && (failed ==> !q.stage.Gone?)
    ensures EventsFit(Exited(q, failed))
  {
    if failed {
      StreamGrows(q.events, q.version);
    }
  }

  ghost predicate Ending(step: Step) {
    step.CloseAndExit? || step.SuperviseEnds? || step.StartupFails? || step.Die?
  }

  /** `r` reports exactly what `q` reported. */
  ghost predicate SameReport(q: Process, r: Process) {
    && r.events == q.events && r.announced == q.announced && r.asks == q.asks && r.disposition == q.disposition
    && r.watched == q.watched && r.version == q.version && r.parent == q.parent && r.stage == q.stage
  }

  lemma OwnSilent(s: State, step: Step)
    requires Enabled(s, step)
    requires QuietServer(step) || step.StartAccepted? || step.UpdaterWrites? || step.PrepareFails? || step.PrepareCurrent?
          || step.SpawnCandidate? || step.SendActivate? || step.HearConsumerAndCommit?
    ensures SameReport(s.procs[step.p], Apply(s, step).procs[step.p])
  {
    if QuietServer(step) {
      OwnQuiet(s, step);
    } else if step.SpawnCandidate? || step.SendActivate? || step.HearConsumerAndCommit? {
      OwnSends(s, step);
    }
  }

  lemma OwnQuiet(s: State, step: Step)
    requires Enabled(s, step) && QuietServer(step)
    ensures SameReport(s.procs[step.p], Apply(s, step).procs[step.p])
  {
  }

  lemma OwnSends(s: State, step: Step)
    requires Enabled(s, step) && (step.SpawnCandidate? || step.SendActivate? || step.HearConsumerAndCommit?)
    ensures SameReport(s.procs[step.p], Apply(s, step).procs[step.p])
  {
  }

  lemma OwnStage(s: State, step: Step)
    requires Family(s) && Events(s) && Enabled(s, step)
    requires step.ReadActivate? || step.Bind? || step.CloseAndHand? || step.ReapAndRestore?
    ensures EventsFit(Apply(s, step).procs[step.p])
  {
    if step.CloseAndHand? || step.ReapAndRestore? {
      OwnHanding(s, step);
    } else {
      assert EventsFit(s.procs[step.p]) && StageFits(s.procs[step.p]);
    }
  }

  lemma OwnHanding(s: State, step: Step)
    requires Family(s) && Events(s) && Enabled(s, step) && (step.CloseAndHand? || step.ReapAndRestore?)
    ensures EventsFit(Apply(s, step).procs[step.p])
  {
    assert EventsFit(s.procs[step.p]) && StageFits(s.procs[step.p]);
  }

  lemma OwnReport(s: State, step: Step)
    requires Family(s) && Events(s) && Enabled(s, step) && (step.FinishPreflight? || step.Open?)
    ensures EventsFit(Apply(s, step).procs[step.p])
  {
    var q := s.procs[step.p];
    assert EventsFit(q) && StageFits(q);
    if q.watched {
      StreamGrows(q.events, q.version);
    }
  }

  lemma OwnVerdict(s: State, step: Step)
    requires Events(s) && Enabled(s, step) && (step.ReadVerdict? || step.LoseParent?)
    ensures EventsFit(Apply(s, step).procs[step.p])
  {
    var q, r := s.procs[step.p], Apply(s, step).procs[step.p];
    assert EventsFit(q);
    forall i | i in r.asks
      ensures AskFits(r, r.asks[i])
    {
      assert AskFits(q, q.asks[i]);
    }
  }

  lemma OwnEnd(s: State, step: Step)
    requires Events(s) && Enabled(s, step) && Ending(step)
    ensures EventsFit(Apply(s, step).procs[step.p])
  {
    var q := s.procs[step.p];
    assert EventsFit(q);
    EndEvents(q, Exits(step));
    if step.CloseAndExit? && q.work.Queued? {
      AbandonIsExit(s, step);
    } else {
      StopIsExit(s, step);
    }
  }

  lemma AbandonIsExit(s: State, step: Step)
    requires Enabled(s, step) && step.CloseAndExit? && s.procs[step.p].work.Queued?
    ensures Apply(s, step).procs[step.p] == Exited(s.procs[step.p], step.failed).(retained := None)
  {
  }

  lemma OwnAsk(s: State, step: Step)
    requires Events(s) && Enabled(s, step) && Asking(step)
    ensures EventsFit(Apply(s, step).procs[step.p])
  {
    var q := s.procs[step.p];
    assert EventsFit(q);
    if step.AdvanceAsk? {
      AskReports(q, step.p, step.id);
      AskTokens(q, step.p, step.id);
    } else {
      OwnListed(s, step);
    }
  }

  lemma OwnListed(s: State, step: Step)
    requires Events(s) && Enabled(s, step) && (step.NewAsk? || step.DropAsk?)
    ensures EventsFit(Apply(s, step).procs[step.p])
  {
    assert EventsFit(s.procs[step.p]);
    AskListed(s.procs[step.p], Apply(s, step).procs[step.p]);
  }

  /** Taking a request in or dropping one. */
  lemma AskListed(q: Process, r: Process)
    requires EventsFit(q) && r == q.(asks := r.asks) && (r.asks != map[] ==> q.stage.Serving?)
    requires forall i <- r.asks :: r.asks[i].Asked? || (i in q.asks && r.asks[i] == q.asks[i])
    ensures EventsFit(r)
  {
    forall i | i in r.asks
      ensures AskFits(r, r.asks[i])
    {
      assert i in q.asks ==> AskFits(q, q.asks[i]);
    }
  }

  lemma OwnEvents(s: State, step: Step)
    requires Family(s) && Events(s) && Enabled(s, step)
    ensures EventsFit(Apply(s, step).procs[step.p])
  {
    assert EventsFit(s.procs[step.p]);
    if Asking(step) {
      OwnAsk(s, step);
    } else if Ending(step) {
      OwnEnd(s, step);
    } else if step.FinishPreflight? || step.Open? {
      OwnReport(s, step);
    } else if step.ReadVerdict? || step.LoseParent? {
      OwnVerdict(s, step);
    } else if step.ReadActivate? || step.Bind? || step.CloseAndHand? || step.ReapAndRestore? {
      OwnStage(s, step);
    } else {
      OwnSilent(s, step);
    }
  }

  lemma NewProcess(s: State, step: Step)
    requires Enabled(s, step) && step.SpawnCandidate?
    ensures EventsFit(Apply(s, step).procs[|s.procs|])
  {
  }

  // ----- abandoned updaters -----

  /** A process that stops while its updater runs was the only claimant. */
  lemma StoppedOrphans(s: State, t: State, p: Pid)
    requires Shape(s) && Exclusive(s) && Orphans(s) && Stopped(s, t, p) && t.procs[p].work == s.procs[p].work
    ensures Orphans(t)
  {
    forall q: Pid, i: Pid | q < |t.procs| && i < |t.procs| && t.procs[q].stage.Gone? && t.procs[q].work.Installing?
      ensures !Claims(t.procs[i])
    {
      if q == p && i != p {
        WorkerNotHanded(s, p);
        Alone(s, p, i);
      }
    }
  }

  lemma SimilarOrphans(s: State, t: State)
    requires Shape(s) && Orphans(s) && AllSimilar(s, t)
    ensures Orphans(t)
  {
    forall q: Pid, i: Pid | q < |t.procs| && i < |t.procs| && t.procs[q].stage.Gone? && t.procs[q].work.Installing?
      ensures !Claims(t.procs[i])
    {
      SimilarClaims(s, t, i);
      assert Similar(s.procs[q], t.procs[q]) && StageFits(s.procs[q]);
    }
  }

  /** A step of a claimant that abandons no updater. */
  lemma ClaimantOrphans(s: State, step: Step)
    requires Shape(s) && Orphans(s) && Enabled(s, step) && Claims(s.procs[step.p])
    requires Moving(step) || step.HearConsumerAndCommit? || step.ReapAndRestore?
    ensures Orphans(Apply(s, step))
  {
    var t := Apply(s, step);
    forall q: Pid | q < |t.procs| && t.procs[q].stage.Gone?
      ensures !t.procs[q].work.Installing?
    {
      if step.ReapAndRestore? {
        ReapedIdle(s, step, q);
      } else {
        GoneBefore(s, step, q);
      }
    }
  }

  lemma GoneBefore(s: State, step: Step, q: Pid)
    requires Enabled(s, step) && (Moving(step) || step.HearConsumerAndCommit?)
    requires Alive(s, step.p) && q < |Apply(s, step).procs| && Apply(s, step).procs[q].stage.Gone?
    ensures q < |s.procs| && s.procs[q].stage.Gone? && Apply(s, step).procs[q].work == s.procs[q].work
  {
  }

  lemma ReapedIdle(s: State, step: Step, q: Pid)
    requires Shape(s) && Orphans(s) && Enabled(s, step) && step.ReapAndRestore? && Claims(s.procs[step.p])
    requires q < |Apply(s, step).procs| && Apply(s, step).procs[q].stage.Gone?
    ensures !Apply(s, step).procs[q].work.Installing?
  {
    assert ChildFits(s, step.p);
    assert q < |s.procs| && (s.procs[q].stage.Gone? || q == s.procs[step.p].work.child);
  }

  // ----- every guarded step -----

  lemma SimilarStep(s: State, t: State)
    requires Control(s) && AllSimilar(s, t)
    ensures Control(t)
  {
    SimilarShape(s, t);
    SimilarExclusive(s, t);
    SimilarOrphans(s, t);
    SimilarDisk(s, t);
    SimilarCopies(s, t);
  }

  lemma QuietSimilar(s: State, step: Step)
    requires Family(s) && Enabled(s, step) && Quiet(step)
    ensures AllSimilar(s, Apply(s, step))
  {
    if Asking(step) {
      AskingSimilar(s, step);
    } else if QuietCandidate(step) {
      CandidateSimilar(s, step);
    } else if step.PreparationAborted? || step.GiveUp? || step.DropRetained? {
      AbortSimilar(s, step);
    } else {
      ProgressSimilar(s, step);
    }
  }

  lemma QuietVerdicts(s: State, step: Step)
    requires Family(s) && Verdicts(s) && Enabled(s, step) && Quiet(step)
    ensures Verdicts(Apply(s, step))
  {
    if Asking(step) {
      AskingVerdicts(s, step);
    } else {
      QuietSimilar(s, step);
      SimilarSettled(s, Apply(s, step));
      QuietRecords(s, step);
      SettledVerdicts(s, Apply(s, step));
    }
  }

  lemma QuietStep(s: State, step: Step)
    requires Control(s) && Verdicts(s) && Enabled(s, step) && Quiet(step)
    ensures Control(Apply(s, step)) && Verdicts(Apply(s, step))
  {
    ShapeIsFamily(s);
    QuietSimilar(s, step);
    QuietVerdicts(s, step);
    SimilarStep(s, Apply(s, step));
  }

  lemma AskRecords(s: State, step: Step)
    requires Enabled(s, step) && Asking(step)
    ensures Apply(s, step).commits == s.commits && Apply(s, step).rollbacks == s.rollbacks
  {
  }

  lemma QuietRecords(s: State, step: Step)
    requires Enabled(s, step) && Quiet(step)
    ensures var t := Apply(s, step);
            t.commits == s.commits && t.rollbacks == s.rollbacks && (!Asking(step) ==> t.answers == s.answers)
  {
    if Asking(step) {
      AskRecords(s, step);
    } else if QuietCandidate(step) {
      CandidateRecords(s, step);
    }
  }

  lemma CandidateRecords(s: State, step: Step)
    requires Enabled(s, step) && QuietCandidate(step)
    ensures var t := Apply(s, step); t.commits == s.commits && t.rollbacks == s.rollbacks && t.answers == s.answers
  {
  }

  lemma StoppedStep(s: State, t: State, p: Pid)
    requires Control(s) && Stopped(s, t, p) && t.disk == s.disk && t.procs[p].work == s.procs[p].work
    ensures Control(t)
  {
    StoppedControl(s, t, p);
    StoppedOrphans(s, t, p);
    StoppedDisk(s, t, p);
  }

  lemma EndStep(s: State, step: Step)
    requires Control(s) && Verdicts(s) && Enabled(s, step) && Ending(step)
    ensures Control(Apply(s, step)) && Verdicts(Apply(s, step))
  {
    if step.CloseAndExit? && s.procs[step.p].work.Queued? {
      AbandonControl(s, step);
      RollbackVerdicts(s, step);
    } else {
      StoppedStep(s, Apply(s, step), step.p);
      StoppedSettled(s, step);
      SettledVerdicts(s, Apply(s, step));
    }
  }

  lemma MovingControl(s: State, step: Step)
    requires Control(s) && Enabled(s, step) && Guarded(s, step) && Moving(step)
    ensures Control(Apply(s, step))
  {
    assert StageFits(s.procs[step.p]);
    if Claims(s.procs[step.p]) {
      ClaimantOrphans(s, step);
    }
    if step.SpawnCandidate? {
      SpawnShape(s, step);
      SpawnExclusive(s, step);
      SpawnDisk(s, step);
    } else if step.CloseAndHand? {
      CloseShape(s, step);
      CloseExclusive(s, step);
      CloseDisk(s, step);
    } else if step.SendActivate? {
      ActivateShape(s, step);
      ActivateExclusive(s, step);
      ActivateDisk(s, step);
    } else {
      PreparingShape(s, step);
      PreparingExclusive(s, step);
      PreparingDisk(s, step);
    }
  }

  lemma MovingStep(s: State, step: Step)
    requires Control(s) && Verdicts(s) && Enabled(s, step) && Guarded(s, step) && Moving(step)
    ensures Control(Apply(s, step)) && Verdicts(Apply(s, step))
  {
    MovingControl(s, step);
    if step.SpawnCandidate? || step.CloseAndHand? || step.SendActivate? {
      MovingSettled(s, step);
    } else {
      PreparingSettled(s, step);
    }
    SettledVerdicts(s, Apply(s, step));
  }

  lemma DecidingStep(s: State, step: Step)
    requires Control(s) && Verdicts(s) && Enabled(s, step) && (step.HearConsumerAndCommit? || step.ReapAndRestore?)
    ensures Control(Apply(s, step)) && Verdicts(Apply(s, step))
  {
    assert StageFits(s.procs[step.p]);
    ClaimantOrphans(s, step);
    if step.HearConsumerAndCommit? {
      CommitShape(s, step);
      CommitExclusive(s, step);
      CommitDisk(s, step);
      CommitVerdicts(s, step);
    } else {
      ReapShape(s, step);
      ReapExclusive(s, step);
      ReapDisk(s, step);
      RollbackVerdicts(s, step);
    }
  }

  /** Every guarded step keeps the invariant. */
  lemma StepKeeps(s: State, step: Step)
    requires Inv(s) && Enabled(s, step) && Guarded(s, step)
    ensures Inv(Apply(s, step))
  {
    if Quiet(step) {
      QuietStep(s, step);
    } else if Ending(step) {
      EndStep(s, step);
    } else if Moving(step) {
      MovingStep(s, step);
    } else {
      DecidingStep(s, step);
    }
    StepEvents(s, step);
  }

  lemma StepEvents(s: State, step: Step)
    requires Family(s) && Events(s) && Enabled(s, step)
    ensures Events(Apply(s, step))
  {
    forall i: Pid | i < |Apply(s, step).procs|
      ensures EventsFit(Apply(s, step).procs[i])
    {
      if i == step.p {
        OwnEvents(s, step);
      } else if i < |s.procs| {
        OtherEvents(s, step, i);
      } else {
        NewProcess(s, step);
      }
    }
  }

  /** The invariant holds in every state of every guarded run. */
  lemma {:induction false} RunKeeps(s: State, steps: seq<Step>)
    requires Inv(s) && Runs(s, steps, true)
    ensures Inv(After(s, steps))
    decreases |steps|
  {
    if steps != [] {
      StepKeeps(s, steps[0]);
      RunKeeps(Apply(s, steps[0]), steps[1..]);
    }
  }
}
