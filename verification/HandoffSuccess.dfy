/** An update can succeed: what the protocol makes possible, beside what it rules out. */
module HandoffSuccess {
  import opened Common
  import opened Handoff
  import opened HandoffInvariant
  import opened HandoffRuns
  import opened HandoffBreach

  lemma {:induction false} RunsOn(s: State, steps: seq<Step>, more: seq<Step>)
    requires Runs(s, steps, true) && Runs(After(s, steps), more, true)
    ensures Runs(s, steps + more, true) && After(s, steps + more) == After(After(s, steps), more)
    decreases |steps|
  {
    if steps == [] {
      assert steps + more == more;
    } else {
      assert (steps + more)[1..] == steps[1..] + more;
      RunsOn(Apply(s, steps[0]), steps[1..], more);
    }
  }

  lemma LeadsOn(s: State, m: State, t: State)
    requires Leads(s, m) && Leads(m, t)
    ensures Leads(s, t)
  {
    var steps: seq<Step> :| Runs(s, steps, true) && After(s, steps) == m;
    var more: seq<Step> :| Runs(m, more, true) && After(m, more) == t;
    RunsOn(s, steps, more);
  }

  lemma OneStep(s: State, step: Step) returns (t: State)
    requires Enabled(s, step) && Guarded(s, step)
    ensures Leads(s, t) && t == Apply(s, step)
  {
    t := Apply(s, step);
    LeadsSelf(t, true);
    LeadsCons(s, step, t, true);
  }

  /** The candidate `c` of `p` serves after reporting `events`, of which its parent has read `heard`. */
  ghost predicate Candidate(s: State, p: Pid, c: Pid, v: Version, events: seq<Event>, heard: nat) {
    && p < |s.procs| && c < |s.procs| && p != c && s.procs[p].stage.Handing?
    && s.procs[c] == Fresh(v, Some(p), Serving).(events := events, heard := heard)
  }

  lemma BecomesReady(s: State, p: Pid, c: Pid, v: Version) returns (t: State)
    requires p < |s.procs| && c < |s.procs| && p != c && s.procs[p].stage.Handing? && s.procs[p].work == Confirming(c, 1)
    requires s.procs[c] == Fresh(v, Some(p), Opening).(events := [Prepared(v)], heard := 1)
    ensures Leads(s, t) && Candidate(t, p, c, v, [Prepared(v), Ready(v)], 2) && t.procs[p].work == Confirming(c, 2)
    ensures t.disk == s.disk && t.requests == s.requests && t.procs[p].retained == s.procs[p].retained
  {
    var m := OneStep(s, Open(c));
    assert m.procs[c].events == [Prepared(v), Ready(v)];
    t := HearsIt(m, p, c, v);
    LeadsOn(s, m, t);
  }

  lemma HearsIt(s: State, p: Pid, c: Pid, v: Version) returns (t: State)
    requires Candidate(s, p, c, v, [Prepared(v), Ready(v)], 1) && s.procs[p].work == Confirming(c, 1)
    ensures Leads(s, t) && Candidate(t, p, c, v, [Prepared(v), Ready(v)], 2) && t.procs[p].work == Confirming(c, 2)
    ensures t.disk == s.disk && t.requests == s.requests && t.procs[p].retained == s.procs[p].retained
  {
    t := OneStep(s, HearReady(p));
  }

  lemma Advances(s: State, c: Pid, id: nat) returns (t: State)
    requires Alive(s, c) && s.procs[c].work.Idle? && id in s.procs[c].asks && AskReady(s.procs[c], s.procs[c].asks[id])
    ensures Leads(s, t) && |t.procs| == |s.procs| && t.procs[c] == AskNext(s.procs[c], c, id)
    ensures forall i: Pid :: i < |s.procs| && i != c ==> t.procs[i] == s.procs[i]
    ensures t.disk == s.disk && t.requests == s.requests && t.commits == s.commits && s.answers <= t.answers
    ensures Answers(s.procs[c], id) ==> (id, s.procs[c].version) in t.answers
  {
    t := OneStep(s, AdvanceAsk(c, id));
  }

  /** The first confirmation, stage by stage. */
  lemma FirstAsk(q: Process, c: Pid, id: nat)
    requires q.watched && q.disposition.Pending? && !q.announced && q.asks == map[id := Asked(c, q.version)]
    ensures AskNext(q, c, id) == q.(asks := map[id := Swapping])
    ensures var swapped := q.(announced := true, asks := map[id := Notifying]);
            && AskNext(q.(asks := map[id := Swapping]), c, id) == swapped
            && AskNext(swapped, c, id) == swapped.(events := q.events + [ConsumerConnected], asks := map[id := Holding(true)])
  {
    assert map[id := Asked(c, q.version)][id := Swapping] == map[id := Swapping];
    assert map[id := Swapping][id := Notifying] == map[id := Notifying];
    assert map[id := Notifying][id := Holding(true)] == map[id := Holding(true)];
  }

  lemma Announces(s: State, p: Pid, c: Pid, id: nat) returns (t: State)
    requires p < |s.procs| && p != c && Alive(s, c) && s.procs[c].work.Idle? && s.procs[c].watched
    requires s.procs[c].disposition.Pending? && !s.procs[c].announced
    requires s.procs[c].asks == map[id := Asked(c, s.procs[c].version)]
    ensures Leads(s, t) && |t.procs| == |s.procs| && t.procs[p] == s.procs[p] && t.disk == s.disk && t.requests == s.requests
    ensures t.procs[c] == s.procs[c].(announced := true, events := s.procs[c].events + [ConsumerConnected],
                                      asks := map[id := Holding(true)])
  {
    FirstAsk(s.procs[c], c, id);
    var s1 := Advances(s, c, id);
    var s2 := Advances(s1, c, id);
    t := Advances(s2, c, id);
    LeadsOn(s1, s2, t);
    LeadsOn(s, s1, t);
  }

  /** The first client to ask announces the consumer. */
  lemma ClientAsks(s: State, p: Pid, c: Pid, v: Version) returns (t: State)
    requires Candidate(s, p, c, v, [Prepared(v), Ready(v)], 2)
    ensures Leads(s, t) && |t.procs| == |s.procs| && t.procs[p] == s.procs[p] && t.disk == s.disk
    ensures t.requests == s.requests + [Request(c, c, v)]
    ensures t.procs[c] == s.procs[c].(announced := true, events := [Prepared(v), Ready(v)] + [ConsumerConnected],
                                      asks := map[|s.requests| := Holding(true)])
  {
    var id := |s.requests|;
    var m := OneStep(s, NewAsk(c, id, c, v));
    t := Announces(m, p, c, id);
    LeadsOn(s, m, t);
  }

  /** The parent hears of it and commits, and the candidate reads that. */
  lemma ParentCommits(s: State, p: Pid, c: Pid) returns (t: State)
    requires p < |s.procs| && c < |s.procs| && p != c && Alive(s, p) && s.procs[p].work == Confirming(c, 2)
    requires s.procs[c].stage.Serving? && s.procs[c].work.Idle? && s.procs[c].inbox == [] && s.procs[c].parent.Some?
    requires s.procs[c].disposition.Pending? && s.procs[c].heard == 2
    requires |s.procs[c].events| == 3 && s.procs[c].events[2] == ConsumerConnected
    ensures Leads(s, t) && |t.procs| == |s.procs| && t.requests == s.requests && t.disk == s.disk && c in t.commits
    ensures t.procs[p] == s.procs[p].(work := Committing(c))
    ensures t.procs[c] == s.procs[c].(heard := 3, disposition := Committed)
  {
    var m := OneStep(s, HearConsumerAndCommit(p));
    assert m.procs[c] == s.procs[c].(heard := 3, inbox := [Commit]);
    t := ReadsCommit(m, p, c);
    LeadsOn(s, m, t);
  }

  lemma ReadsCommit(s: State, p: Pid, c: Pid) returns (t: State)
    requires p < |s.procs| && p != c && Alive(s, c) && s.procs[c].stage.Serving? && s.procs[c].work.Idle?
    requires s.procs[c].parent.Some? && s.procs[c].inbox == [Commit] && s.procs[c].disposition.Pending?
    ensures Leads(s, t) && |t.procs| == |s.procs| && t.procs[p] == s.procs[p] && t.commits == s.commits
    ensures t.procs[c] == s.procs[c].(disposition := Committed, inbox := []) && t.requests == s.requests && t.disk == s.disk
  {
    t := OneStep(s, ReadVerdict(c));
  }

  /** A confirmation that announced the consumer, once the verdict is there. */
  lemma LastAsk(q: Process, c: Pid, id: nat)
    requires q.disposition.Committed? && q.asks == map[id := Holding(true)]
    ensures var replying := q.(asks := map[id := Replying(true)]);
            && AskNext(q, c, id) == replying
            && AskNext(replying, c, id) == q.(asks := map[], events := q.events + [ClientSucceeded])
  {
    assert map[id := Holding(true)][id := Replying(true)] == map[id := Replying(true)];
    assert map[id := Replying(true)] - {id} == map[];
  }

  /** The client is told, and the parent learns that too. */
  lemma ClientIsTold(s: State, c: Pid, id: nat) returns (t: State)
    requires c < |s.procs| && s.procs[c].stage.Serving? && s.procs[c].work.Idle? && s.procs[c].disposition.Committed?
    requires s.procs[c].asks == map[id := Holding(true)]
    ensures Leads(s, t) && |t.procs| == |s.procs| && t.requests == s.requests && t.commits == s.commits && t.disk == s.disk
    ensures (id, s.procs[c].version) in t.answers && forall i: Pid :: i < |s.procs| && i != c ==> t.procs[i] == s.procs[i]
    ensures t.procs[c] == s.procs[c].(asks := map[], events := s.procs[c].events + [ClientSucceeded])
  {
    LastAsk(s.procs[c], c, id);
    var m := Advances(s, c, id);
    t := Advances(m, c, id);
    LeadsOn(s, m, t);
  }

  /** What a successful update comes to. */
  ghost predicate Succeeded(t: State, p: Pid, c: Pid, v: Version) {
    && p < |t.procs| && c < |t.procs| && c in t.commits && t.disk == v
    && t.procs[c].version == v && t.procs[c].stage.Serving? && t.procs[c].disposition.Committed? && t.procs[c].asks == map[]
    && t.procs[c].events == [Prepared(v), Ready(v), ConsumerConnected, ClientSucceeded]
    && t.procs[p].stage.Handing? && t.procs[p].work == Supervising(c) && t.procs[p].retained.None?
    && exists id :: 0 <= id < |t.requests| && t.requests[id] == Request(c, c, v) && (id, v) in t.answers
  }

  lemma ConfirmsAndCommits(s: State, p: Pid, c: Pid, v: Version) returns (t: State)
    requires p < |s.procs| && c < |s.procs| && p != c && s.procs[p].stage.Handing? && s.procs[p].work == Confirming(c, 1)
    requires s.procs[c] == Fresh(v, Some(p), Opening).(events := [Prepared(v)], heard := 1) && s.disk == v
    ensures Leads(s, t) && Succeeded(t, p, c, v)
  {
    var s1 := BecomesReady(s, p, c, v);
    var s2 := ClientAsks(s1, p, c, v);
    var s3 := ParentCommits(s2, p, c);
    var s4 := ClientIsTold(s3, c, |s1.requests|);
    t := Settles(s4, p, c, v, |s1.requests|);
    LeadsOn(s3, s4, t);
    LeadsOn(s2, s3, t);
    LeadsOn(s1, s2, t);
    LeadsOn(s, s1, t);
  }

  /** The parent discards its copy. */
  lemma Settles(s: State, p: Pid, c: Pid, v: Version, id: nat) returns (t: State)
    requires p < |s.procs| && c < |s.procs| && p != c && s.procs[p].stage.Handing? && s.procs[p].work == Committing(c)
    requires c in s.commits && s.disk == v && s.procs[c].version == v && s.procs[c].stage.Serving?
    requires s.procs[c].disposition.Committed? && s.procs[c].asks == map[]
    requires s.procs[c].events == [Prepared(v), Ready(v), ConsumerConnected, ClientSucceeded]
    requires id < |s.requests| && s.requests[id] == Request(c, c, v) && (id, v) in s.answers
    ensures Leads(s, t) && Succeeded(t, p, c, v)
  {
    t := OneStep(s, DropRetained(p));
    assert t.requests[id] == Request(c, c, v) && (id, v) in t.answers;
  }

  /** Every server that may take a Start can be updated to every newer version, whatever the other processes are doing:
      the candidate serves, its client is told Committed, and nobody keeps a rollback copy of this update. */
  lemma UpdateCanSucceed(s: State, p: Pid, newer: Version) returns (t: State)
    requires Enabled(s, StartAccepted(p)) && Guarded(s, StartAccepted(p)) && !s.procs[p].leaving
    requires Below(s.procs[p].version, newer)
    ensures Leads(s, t) && Succeeded(t, p, |s.procs|, newer)
  {
    var c := |s.procs|;
    var s1 := OneStep(s, StartAccepted(p));
    var s2 := FinishAsks(s1, p);
    var s3 := PreparedBy(s2, p, newer);
    var s4 := CutOver(s3, p, c);
    t := ConfirmsAndCommits(s4, p, c, newer);
    CanCutOver(s3, p, c, t, true);
    CanPrepare(s2, p, newer, t, true);
    LeadsOn(s, s1, t);
  }
}
