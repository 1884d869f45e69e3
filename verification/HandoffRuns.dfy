/** What the runs of the handoff protocol guarantee, and the Start request that some of it does not survive. */
module HandoffRuns {
  import opened Common
  import opened Handoff
  import opened HandoffInvariant
  import opened HandoffHistory
  import opened HandoffMessages
  import opened HandoffAnswers
  import opened HandoffAlways

  /** `t` is reached from `s` by some run. */
  ghost predicate LeadsBy(s: State, t: State, guarded: bool) {
    exists steps: seq<Step> :: Runs(s, steps, guarded) && After(s, steps) == t
  }

  ghost predicate Leads(s: State, t: State) {
    LeadsBy(s, t, true)
  }

  /** Reached by guarded steps alone. */
  ghost predicate Reachable(s: State) {
    exists v: Version :: Leads(Init(v), s)
  }

  /** Reached by any steps the source takes. */
  ghost predicate Reached(s: State) {
    exists v: Version :: LeadsBy(Init(v), s, false)
  }

  lemma {:induction false} GuardedIsRun(s: State, steps: seq<Step>)
    requires Runs(s, steps, true)
    ensures Runs(s, steps, false)
    decreases |steps|
  {
    if steps != [] {
      GuardedIsRun(Apply(s, steps[0]), steps[1..]);
    }
  }

  lemma ReachableIsReached(s: State)
    requires Reachable(s)
    ensures Reached(s)
  {
    var v: Version :| Leads(Init(v), s);
    var steps: seq<Step> :| Runs(Init(v), steps, true) && After(Init(v), steps) == s;
    GuardedIsRun(Init(v), steps);
    assert LeadsBy(Init(v), s, false);
  }

  lemma LeadsAlways(s: State, t: State, guarded: bool)
    requires Always(s) && LeadsBy(s, t, guarded)
    ensures Always(t) && Extends(s, t)
  {
    var steps: seq<Step> :| Runs(s, steps, guarded) && After(s, steps) == t;
    AlwaysRuns(s, steps, guarded);
    RunExtends(s, steps, guarded);
  }

  lemma ReachedAlways(s: State)
    requires Reached(s)
    ensures Always(s)
  {
    var v: Version :| LeadsBy(Init(v), s, false);
    InitAlways(v);
    LeadsAlways(Init(v), s, false);
  }

  lemma LeadsKeeps(s: State, t: State)
    requires Inv(s) && Leads(s, t)
    ensures Inv(t) && Extends(s, t)
  {
    var steps: seq<Step> :| Runs(s, steps, true) && After(s, steps) == t;
    RunKeeps(s, steps);
    ShapeIsFamily(s);
    RunExtends(s, steps, true);
  }

  lemma ReachableInv(s: State)
    requires Reachable(s)
    ensures Inv(s)
  {
    var v: Version :| Leads(Init(v), s);
    InitInv(v);
    LeadsKeeps(Init(v), s);
  }

  // ----- nothing recorded is ever forgotten -----

  /** Along every run a disposition is written once, and nothing recorded is lost. */
  lemma {:induction false} RunExtends(s: State, steps: seq<Step>, guarded: bool)
    requires Family(s) && Runs(s, steps, guarded)
    ensures Extends(s, After(s, steps))
    decreases |steps|
  {
    if steps != [] {
      FamilyKeeps(s, steps[0]);
      StepExtends(s, steps[0]);
      RunExtends(Apply(s, steps[0]), steps[1..], guarded);
      ExtendsTransitive(s, Apply(s, steps[0]), After(s, steps));
    }
  }

  // ----- one endpoint -----

  lemma InvOneBound(s: State, a: Pid, b: Pid)
    requires Exclusive(s) && Bound(s, a) && Bound(s, b)
    ensures a == b
  {
    assert Claims(s.procs[a]) && Claims(s.procs[b]);
  }

  /** However long the chain of handoffs, at most one process has the endpoint bound. */
  lemma OneBound(s: State, a: Pid, b: Pid)
    requires Reachable(s) && Bound(s, a) && Bound(s, b)
    ensures a == b
  {
    ReachableInv(s);
    InvOneBound(s, a, b);
  }

  // ----- commitment is final -----

  /** Commit is sent only after Ready and then ConsumerConnected were reported.  From then on, in every
      later state, the candidate is not rolled back and its parent neither rebinds nor may. */
  lemma CommitStands(s: State, t: State, c: Pid)
    requires Reached(s) && LeadsBy(s, t, false) && c in s.commits
    ensures c < |s.procs| <= |t.procs|
    ensures [Prepared(s.procs[c].version), Ready(s.procs[c].version), ConsumerConnected] <= s.procs[c].events
    ensures c !in t.rollbacks
    ensures s.procs[c].parent.Some? && s.procs[c].parent.value < |t.procs|
    ensures !Claims(t.procs[s.procs[c].parent.value])
  {
    ReachedAlways(s);
    LeadsAlways(s, t, false);
    CommitReports(s, c);
    CommitRetires(t, c);
    assert Remembers(s.procs[c], t.procs[c]);
  }

  lemma StreamThree(e: seq<Event>, v: Version)
    requires Stream(e, v) && |e| > 2 && e[2] == ConsumerConnected
    ensures [Prepared(v), Ready(v), ConsumerConnected] <= e
  {
    var n := if e[|e| - 1].Failed? then |e| - 1 else |e|;
    assert e[..n] == Script(v)[..n] && n >= 3;
    assert e[0] == e[..n][0] && e[1] == e[..n][1];
  }

  lemma CommitReports(s: State, c: Pid)
    requires Verdicts(s) && Events(s) && c in s.commits
    ensures CommitFits(s.procs, c)
    ensures [Prepared(s.procs[c].version), Ready(s.procs[c].version), ConsumerConnected] <= s.procs[c].events
  {
    assert CommitFits(s.procs, c) && EventsFit(s.procs[c]);
    StreamThree(s.procs[c].events, s.procs[c].version);
  }

  lemma CommitRetires(s: State, c: Pid)
    requires Verdicts(s) && Events(s) && c in s.commits
    ensures c < |s.procs| && c !in s.rollbacks
    ensures s.procs[c].parent.Some? && s.procs[c].parent.value < |s.procs|
    ensures !Claims(s.procs[s.procs[c].parent.value])
  {
    assert CommitFits(s.procs, c);
  }

  /** Whatever an update's supervisor has decided, its candidate was told: Commit once it is committed, Abort
      while it is rolled back, Activate once its readiness is awaited; each unread or already obeyed. */
  lemma CommandsSent(s: State, p: Pid)
    requires Reached(s) && p < |s.procs|
    ensures p in s.commits ==> Commit in s.procs[p].inbox || s.procs[p].disposition.Committed?
    ensures var q := s.procs[p];
            !q.stage.Gone? && HasChild(q.work) ==>
              && q.work.child < |s.procs|
              && var c := s.procs[q.work.child];
                 && (q.work.RollingBack? ==> Abort in c.inbox || c.disposition.Aborted? || c.stage.Gone?)
                 && (q.work.Confirming? && q.work.progress > 0 ==> Activate in c.inbox || !(c.stage.Preflight? || c.stage.Waiting?))
  {
    ReachedAlways(s);
    assert HasTold(s, p) && KinFits(s, p);
  }

  /** A client that was told Committed(v) was told the truth for good: the operation it had asked about was
      committed, is never rolled back, and the process that serves it runs the version it had observed. */
  lemma CommittedStands(s: State, t: State, id: nat, v: Version)
    requires Reached(s) && LeadsBy(s, t, false) && (id, v) in s.answers
    ensures id < |s.requests|
    ensures var r := s.requests[id];
            && r.op in s.commits && r.op !in t.rollbacks && r.op < |t.procs|
            && t.procs[r.op].version == r.observed == v
  {
    ReachedAlways(s);
    LeadsAlways(s, t, false);
    assert AnswerFits(s, (id, v));
    assert Remembers(s.procs[s.requests[id].op], t.procs[s.requests[id].op]);
  }

  /** A request about another operation, or another version, than that of the server it reached is never answered
      Committed. */
  lemma MismatchNeverAnswered(s: State, id: nat, v: Version)
    requires Reached(s) && id < |s.requests| && s.requests[id].server < |s.procs|
    requires s.requests[id].op != s.requests[id].server
          || s.requests[id].observed != s.procs[s.requests[id].server].version
    ensures (id, v) !in s.answers
  {
    ReachedAlways(s);
    assert (id, v) in s.answers ==> AnswerFits(s, (id, v));
  }

  /** And one that matches is answered as soon as the candidate is committed. */
  lemma MatchIsAnswered(s: State, p: Pid, id: nat)
    requires Reached(s) && Alive(s, p) && id in s.procs[p].asks && s.procs[p].asks[id] == Asked(p, s.procs[p].version)
    requires s.procs[p].watched && s.procs[p].disposition.Committed?
    ensures Enabled(s, AdvanceAsk(p, id))
    ensures var held := Apply(s, AdvanceAsk(p, id));
            Enabled(held, AdvanceAsk(p, id)) && (id, s.procs[p].version) in Apply(held, AdvanceAsk(p, id)).answers
  {
    ReachedAlways(s);
    assert KinFits(s, p);
  }

  // ----- event streams -----

  /** Whatever the interleaving of confirmations, a candidate reports a prefix of Prepared, Ready,
      ConsumerConnected, ClientSucceeded, optionally followed by Failed; ClientSucceeded means that
      its parent sent Commit and that it was received. */
  lemma EventStream(s: State, p: Pid)
    requires Reached(s) && p < |s.procs|
    ensures Stream(s.procs[p].events, s.procs[p].version)
    ensures ClientSucceeded in s.procs[p].events ==> s.procs[p].disposition.Committed? && p in s.commits
  {
    ReachedAlways(s);
    assert EventsFit(s.procs[p]);
  }

  // ----- the installed executable -----

  /** A server with no update of its own, which no living parent may still roll back, runs exactly
      the installed version. */
  ghost predicate InstalledIsServing(s: State) {
    forall p: Pid :: Bound(s, p) && s.procs[p].work.Idle? && !Handed(s, p) ==> s.disk == s.procs[p].version
  }

  ghost predicate Settling(q: Process) {
    !q.stage.Gone? ==> q.work.Idle? || q.work.Supervising?
  }

  /** No preparation and no handoff is outstanding. */
  ghost predicate Quiescent(s: State) {
    forall p: Pid :: p < |s.procs| ==> Settling(s.procs[p])
  }

  lemma InvInstalled(s: State)
    requires Inv(s)
    ensures InstalledIsServing(s)
  {
    forall p: Pid | Bound(s, p) && s.procs[p].work.Idle? && !Handed(s, p)
      ensures s.disk == s.procs[p].version
    {
      assert DiskFits(s, p);
    }
  }

  lemma InstalledVersion(s: State, p: Pid)
    requires Reachable(s) && p < |s.procs|
    ensures InstalledIsServing(s)
    ensures Quiescent(s) && Bound(s, p) ==> s.disk == s.procs[p].version
    ensures Quiescent(s) && Alive(s, p) ==> s.procs[p].retained.None?
  {
    ReachableInv(s);
    InvInstalled(s);
    if Quiescent(s) {
      QuiescentNotHanded(s, p);
      QuiescentOwns(s, p);
    }
  }

  lemma QuiescentNotHanded(s: State, p: Pid)
    requires Quiescent(s) && p < |s.procs|
    ensures !Handed(s, p)
  {
    if s.procs[p].parent.Some? && s.procs[p].parent.value < |s.procs| {
      assert Settling(s.procs[s.procs[p].parent.value]);
    }
  }

  lemma QuiescentOwns(s: State, p: Pid)
    requires Shape(s) && Copies(s) && Quiescent(s) && p < |s.procs|
    ensures Bound(s, p) ==> s.procs[p].work.Idle?
    ensures Alive(s, p) ==> s.procs[p].retained.None?
  {
    assert Settling(s.procs[p]) && StageFits(s.procs[p]);
  }

  /** An update that ends without a commit leaves the version of the server that had started it installed. */
  lemma RollbackRestores(s: State, step: Step)
    requires Reachable(s) && Enabled(s, step)
    requires step.PrepareFails? || step.PrepareCurrent? || step.ReapAndRestore?
          || (step.CloseAndExit? && s.procs[step.p].work.Queued?)
    ensures Apply(s, step).disk == s.procs[step.p].version
    ensures Apply(s, step).procs[step.p].retained.None?
  {
    ReachableInv(s);
    CopyIsOwn(s, step.p);
    RestoresCopy(s, step);
  }

  /** The rollback copy of a server that is still updating is its own version. */
  lemma CopyIsOwn(s: State, p: Pid)
    requires Inv(s) && Alive(s, p)
    requires s.procs[p].work.Installing? || s.procs[p].work.RollingBack? || s.procs[p].work.Queued?
    ensures s.procs[p].retained == Some(s.procs[p].version)
  {
    WorkerNotHanded(s, p);
    assert StageFits(s.procs[p]);
    assert DiskFits(s, p);
  }

  lemma RestoresCopy(s: State, step: Step)
    requires Enabled(s, step) && s.procs[step.p].retained == Some(s.procs[step.p].version)
    requires step.PrepareFails? || step.PrepareCurrent? || step.ReapAndRestore?
          || (step.CloseAndExit? && s.procs[step.p].work.Queued?)
    ensures Apply(s, step).disk == s.procs[step.p].version
    ensures Apply(s, step).procs[step.p].retained.None?
  {
  }

  // ----- the chain of committed handoffs -----

  ghost function Rank(v: Version): nat {
    (v.major * 0x1_0000_0000 + v.minor) * 0x1_0000_0000 + v.patch
  }

  /** The order of versions is that of their numbers read as one. */
  lemma BelowIff(a: Version, b: Version)
    ensures Below(a, b) <==> Rank(a) < Rank(b)
  {
  }

  ghost predicate CommitChain(s: State, chain: seq<Pid>) {
    && (forall k :: 0 <= k < |chain| ==> chain[k] < |s.procs|)
    && (forall k :: 0 < k < |chain| ==> chain[k] in s.commits && s.procs[chain[k]].parent == Some(chain[k - 1]))
  }

  lemma {:induction false} ChainRises(s: State, chain: seq<Pid>, k: nat)
    requires Verdicts(s) && CommitChain(s, chain) && k < |chain|
    ensures Rank(s.procs[chain[k]].version) >= k
    ensures k > 0 ==> Below(s.procs[chain[k - 1]].version, s.procs[chain[k]].version)
  {
    if k > 0 {
      ChainRises(s, chain, k - 1);
      assert CommitFits(s.procs, chain[k]);
    }
  }

  /** Versions strictly increase along committed handoffs, so no chain of them is longer than the
      number of versions. */
  lemma ChainBounded(s: State, chain: seq<Pid>)
    requires Reached(s) && CommitChain(s, chain)
    ensures |chain| <= 0x1_0000_0000 * 0x1_0000_0000 * 0x1_0000_0000
    ensures forall k :: 0 < k < |chain| ==> Below(s.procs[chain[k - 1]].version, s.procs[chain[k]].version)
  {
    ReachedAlways(s);
    forall k | 0 < k < |chain|
      ensures Below(s.procs[chain[k - 1]].version, s.procs[chain[k]].version)
    {
      ChainRises(s, chain, k);
    }
    if chain != [] {
      ChainRises(s, chain, |chain| - 1);
    }
  }

  // ----- the Start request that is not refused -----

  /** The only unguarded step the source accepts is a Start taken by a candidate that has already read
      Abort (or lost its parent) but has not exited: refusing every disposition but Committed would do. */
  lemma UnguardedIsAborted(s: State, p: Pid)
    requires Inv(s) && Enabled(s, StartAccepted(p)) && Handed(s, p)
    ensures s.procs[p].watched && s.procs[p].disposition.Aborted?
  {
    assert ChildFits(s, s.procs[p].parent.value);
  }

  lemma RunCons(s: State, step: Step, rest: seq<Step>, guarded: bool)
    requires Enabled(s, step) && (guarded ==> Guarded(s, step)) && Runs(Apply(s, step), rest, guarded)
    ensures Runs(s, [step] + rest, guarded)
    ensures After(s, [step] + rest) == After(Apply(s, step), rest)
  {
    assert ([step] + rest)[1..] == rest;
  }

  lemma LeadsCons(s: State, step: Step, t: State, guarded: bool)
    requires Enabled(s, step) && (guarded ==> Guarded(s, step)) && LeadsBy(Apply(s, step), t, guarded)
    ensures LeadsBy(s, t, guarded)
  {
    var rest: seq<Step> :| Runs(Apply(s, step), rest, guarded) && After(Apply(s, step), rest) == t;
    RunCons(s, step, rest, guarded);
  }

  lemma LeadsSelf(s: State, guarded: bool)
    ensures LeadsBy(s, s, guarded)
  {
    assert Runs(s, [], guarded) && After(s, []) == s;
  }

  /** Some guarded continuation reaches a server whose version is not the installed one. */
  ghost predicate CanGoStale(s: State) {
    exists t: State :: Leads(s, t) && !InstalledIsServing(t)
  }

  lemma StaleCons(s: State, step: Step)
    requires Enabled(s, step) && Guarded(s, step) && CanGoStale(Apply(s, step))
    ensures CanGoStale(s)
  {
    var t: State :| Leads(Apply(s, step), t) && !InstalledIsServing(t);
    LeadsCons(s, step, t, true);
  }

  /** After the parent restored its own version, the abandoned updater of its candidate overwrites it. */
  lemma RebindingGoesStale(s: State, q: Pid, p: Pid)
    requires Alive(s, q) && s.procs[q].stage.Binding? && s.procs[q].work.Idle? && !Handed(s, q)
    requires p < |s.procs| && p != q && s.procs[p].work.Installing? && s.procs[p].version != s.procs[q].version
    ensures CanGoStale(s)
  {
    var s1 := Apply(s, Bind(q));
    var s2 := Apply(s1, UpdaterWrites(p, s.procs[p].version));
    assert Bound(s2, q) && !Handed(s2, q);
    LeadsSelf(s2, true);
    assert Leads(s2, s2) && !InstalledIsServing(s2);
    StaleCons(s1, UpdaterWrites(p, s.procs[p].version));
    StaleCons(s, Bind(q));
  }

  lemma RollbackGoesStale(s: State, q: Pid, p: Pid)
    requires Alive(s, q) && HandChild(s.procs[q]) == Some(p) && s.procs[q].retained.Some? && !Handed(s, q)
    requires Alive(s, p) && p != q && s.procs[q].parent != Some(p)
    requires s.procs[p].work.Installing? && s.procs[p].version != s.procs[q].version
    requires s.procs[q].work.RollingBack?
    ensures CanGoStale(s)
  {
    RebindingGoesStale(Apply(s, ReapAndRestore(q)), q, p);
    StaleCons(s, ReapAndRestore(q));
  }

  lemma UnguardedGoesStale(s: State, p: Pid)
    requires Inv(s) && Enabled(s, StartAccepted(p)) && Handed(s, p)
    ensures CanGoStale(Apply(s, StartAccepted(p)))
  {
    var q := s.procs[p].parent.value;
    assert ChildFits(s, q);
    WorkerNotHanded(s, q);
    assert DiskFits(s, q);
    HandedGoesStale(Apply(s, StartAccepted(p)), q, p);
  }

  lemma HandedGoesStale(s: State, q: Pid, p: Pid)
    requires Alive(s, q) && HandChild(s.procs[q]) == Some(p) && s.procs[q].retained.Some? && !Handed(s, q)
    requires Alive(s, p) && p != q && s.procs[q].parent != Some(p)
    requires s.procs[p].work.Installing? && s.procs[p].version != s.procs[q].version
    ensures CanGoStale(s)
  {
    if s.procs[q].work.Confirming? {
      RollbackGoesStale(Apply(s, GiveUp(q)), q, p);
      StaleCons(s, GiveUp(q));
    } else {
      RollbackGoesStale(s, q, p);
    }
  }

  /** Exactly when accepting a Start is harmless: if and only if no living parent may still roll the
      accepting server back. */
  lemma StartSafeIff(s: State, p: Pid)
    requires Reachable(s) && Enabled(s, StartAccepted(p))
    ensures CanGoStale(Apply(s, StartAccepted(p))) <==> Handed(s, p)
  {
    ReachableInv(s);
    if Handed(s, p) {
      UnguardedGoesStale(s, p);
    } else {
      var t := Apply(s, StartAccepted(p));
      StepKeeps(s, StartAccepted(p));
      forall u: State | Leads(t, u)
        ensures InstalledIsServing(u)
      {
        LeadsKeeps(t, u);
        InvInstalled(u);
      }
    }
  }

  // ----- an accepted Start can run through to the cut-over -----

  /** A server that accepted a Start has installed `newer` and started it. */
  function SpawnedBy(s: State, p: Pid, newer: Version): State
    requires p < |s.procs|
  {
    s.(procs := s.procs[p := s.procs[p].(work := Spawned(|s.procs|))] + [Fresh(newer, Some(p), Preflight)], disk := newer)
  }

  /** And its candidate is prepared. */
  function PreparedBy(s: State, p: Pid, newer: Version): State
    requires p < |s.procs|
  {
    s.(procs := s.procs[p := s.procs[p].(work := Announcing(|s.procs|))]
                + [Fresh(newer, Some(p), Waiting).(events := [Prepared(newer)], heard := 1)],
       disk := newer)
  }

  lemma CanHear(s: State, p: Pid, newer: Version, t: State, guarded: bool)
    requires Alive(s, p) && LeadsBy(PreparedBy(s, p, newer), t, guarded)
    ensures LeadsBy(SpawnedBy(s, p, newer), t, guarded)
  {
    var c, a := |s.procs|, SpawnedBy(s, p, newer);
    var b := Apply(a, FinishPreflight(c));
    assert b.procs[c].events == [Prepared(newer)];
    assert Apply(b, HearPrepared(p)).procs == PreparedBy(s, p, newer).procs;
    LeadsCons(b, HearPrepared(p), t, guarded);
    LeadsCons(a, FinishPreflight(c), t, guarded);
  }

  lemma CanPrepare(s: State, p: Pid, newer: Version, t: State, guarded: bool)
    requires Alive(s, p) && s.procs[p].work.Installing? && Below(s.procs[p].version, newer)
    requires LeadsBy(PreparedBy(s, p, newer), t, guarded)
    ensures LeadsBy(s, t, guarded)
  {
    CanHear(s, p, newer, t, guarded);
    var s1 := Apply(s, UpdaterWrites(p, newer));
    assert Apply(s1, SpawnCandidate(p)).procs == SpawnedBy(s, p, newer).procs;
    LeadsCons(s1, SpawnCandidate(p), t, guarded);
    LeadsCons(s, UpdaterWrites(p, newer), t, guarded);
  }

  /** The old server `p` has closed, and its candidate `c` is bound. */
  function CutOver(s: State, p: Pid, c: Pid): State
    requires p < |s.procs| && c < |s.procs|
  {
    Put(Put(s, p, s.procs[p].(stage := Handing, leaving := true, work := Confirming(c, 1))),
        c, s.procs[c].(stage := Opening))
  }

  lemma CanActivate(s: State, p: Pid, c: Pid, t: State, guarded: bool)
    requires Alive(s, p) && s.procs[p].stage.Handing? && s.procs[p].work == Confirming(c, 0)
    requires c < |s.procs| && c != p && s.procs[c].stage.Waiting? && s.procs[c].work.Idle? && s.procs[c].inbox == []
    requires s.procs[p].leaving && LeadsBy(CutOver(s, p, c), t, guarded)
    ensures LeadsBy(s, t, guarded)
  {
    var told := Apply(s, SendActivate(p));
    assert told.procs[c].inbox == [Activate];
    assert CutOver(s, p, c).procs == Put(told, c, told.procs[c].(inbox := [], stage := Opening)).procs;
    CanBind(told, c, t, guarded);
    LeadsCons(s, SendActivate(p), t, guarded);
  }

  lemma CanBind(s: State, c: Pid, t: State, guarded: bool)
    requires c < |s.procs| && s.procs[c].stage.Waiting? && s.procs[c].work.Idle? && s.procs[c].inbox == [Activate]
    requires LeadsBy(Put(s, c, s.procs[c].(inbox := [], stage := Opening)), t, guarded)
    ensures LeadsBy(s, t, guarded)
  {
    var s1 := Apply(s, ReadActivate(c));
    assert s1.procs[c].inbox == [];
    assert Apply(s1, Bind(c)).procs == Put(s, c, s.procs[c].(inbox := [], stage := Opening)).procs;
    LeadsCons(s1, Bind(c), t, guarded);
    LeadsCons(s, ReadActivate(c), t, guarded);
  }

  lemma CanCutOver(s: State, p: Pid, c: Pid, t: State, guarded: bool)
    requires Alive(s, p) && s.procs[p].stage.Serving? && !s.procs[p].leaving && s.procs[p].asks == map[]
    requires s.procs[p].work == Announcing(c)
    requires c < |s.procs| && c != p && s.procs[c].stage.Waiting? && s.procs[c].work.Idle? && s.procs[c].inbox == []
    requires LeadsBy(CutOver(s, p, c), t, guarded)
    ensures LeadsBy(s, t, guarded)
  {
    var s1 := Apply(s, AnnounceRestart(p));
    var s2 := Apply(s1, TakeHandoff(p));
    var s3 := Apply(s2, CloseAndHand(p));
    assert CutOver(s3, p, c).procs == CutOver(s, p, c).procs;
    CanActivate(s3, p, c, t, guarded);
    LeadsCons(s2, CloseAndHand(p), t, guarded);
    LeadsCons(s1, TakeHandoff(p), t, guarded);
    LeadsCons(s, AnnounceRestart(p), t, guarded);
  }

  /** A server whose loop still runs can hand over to any newer version. */
  lemma CanHandOff(s: State, p: Pid, newer: Version, t: State, guarded: bool)
    requires Alive(s, p) && s.procs[p].stage.Serving? && s.procs[p].work.Installing? && Below(s.procs[p].version, newer)
    requires !s.procs[p].leaving && s.procs[p].asks == map[]
    requires LeadsBy(CutOver(PreparedBy(s, p, newer), p, |s.procs|), t, guarded)
    ensures LeadsBy(s, t, guarded)
  {
    CanCutOver(PreparedBy(s, p, newer), p, |s.procs|, t, guarded);
    CanPrepare(s, p, newer, t, guarded);
  }

  // ----- a run with two endpoints -----

  /** The parent has timed out and sent Abort; its candidate has read it and still serves. */
  function Timeout(v1: Version, v2: Version): State {
    State([Fresh(v1, None, Handing).(leaving := true, work := RollingBack(1), retained := Some(v1)),
           Fresh(v2, Some(0), Serving).(disposition := Aborted, events := [Prepared(v2), Ready(v2)], heard := 1)],
          v2, {}, {}, [], {})
  }

  /** The candidate is bound and its parent waits for it. */
  function Opened(v1: Version, v2: Version): State {
    State([Fresh(v1, None, Handing).(leaving := true, work := Confirming(1, 1), retained := Some(v1)),
           Fresh(v2, Some(0), Opening).(events := [Prepared(v2)], heard := 1)],
          v2, {}, {}, [], {})
  }

  /** The parent has given up, and its candidate has not read the Abort yet. */
  function Refused(v1: Version, v2: Version): State {
    var timeout := Timeout(v1, v2);
    Put(timeout, 1, timeout.procs[1].(disposition := Pending, inbox := [Abort]))
  }

  lemma CanReadAbort(v1: Version, v2: Version, t: State, guarded: bool)
    requires LeadsBy(Timeout(v1, v2), t, guarded)
    ensures LeadsBy(Refused(v1, v2), t, guarded)
  {
    var a := Apply(Refused(v1, v2), ReadVerdict(1));
    assert a.procs[1] == Timeout(v1, v2).procs[1];
    assert a.procs == Timeout(v1, v2).procs;
    LeadsCons(Refused(v1, v2), ReadVerdict(1), t, guarded);
  }

  lemma CanGiveUp(v1: Version, v2: Version, t: State, guarded: bool)
    requires LeadsBy(Refused(v1, v2), t, guarded)
    ensures LeadsBy(Opened(v1, v2), t, guarded)
  {
    var a := Opened(v1, v2);
    var a1 := Apply(a, Open(1));
    assert a1.procs[1].events == [Prepared(v2), Ready(v2)];
    var a2 := Apply(a1, GiveUp(0));
    assert a2.procs[1].inbox == [Abort];
    assert a2.procs == Refused(v1, v2).procs;
    LeadsCons(a1, GiveUp(0), t, guarded);
    LeadsCons(a, Open(1), t, guarded);
  }

  /** A fresh server can come to that point by guarded steps alone. */
  lemma CanTimeOut(v1: Version, v2: Version, t: State, guarded: bool)
    requires Below(v1, v2) && LeadsBy(Timeout(v1, v2), t, guarded)
    ensures LeadsBy(Init(v1), t, guarded)
  {
    var started := Apply(Init(v1), StartAccepted(0));
    assert CutOver(PreparedBy(started, 0, v2), 0, 1).procs == Opened(v1, v2).procs;
    CanReadAbort(v1, v2, t, guarded);
    CanGiveUp(v1, v2, t, guarded);
    CanHandOff(started, 0, v2, t, guarded);
    LeadsCons(Init(v1), StartAccepted(0), t, guarded);
  }
}
