/** Whom a Committed reply answers: the request that asked about that very operation and version. */
module HandoffAnswers {
  import opened Common
  import opened Handoff
  import opened HandoffInvariant
  import opened HandoffHistory
  import opened HandoffMessages

  /** A confirmation task serves the request it was opened for, and gets past its first test only if that
      request names this very candidate and its version. */
  ghost predicate AskAddressed(s: State, p: Pid, id: nat)
    requires p < |s.procs| && id in s.procs[p].asks
  {
    && id < |s.requests| && s.requests[id].server == p
    && match s.procs[p].asks[id]
       case Asked(op, observed) => op == s.requests[id].op && observed == s.requests[id].observed
       case _ => s.requests[id].op == p && s.requests[id].observed == s.procs[p].version
  }

  ghost predicate Addressed(s: State) {
    forall p: Pid :: p < |s.procs| ==> AddressedAt(s, p)
  }

  ghost predicate AddressedAt(s: State, p: Pid)
    requires p < |s.procs|
  {
    forall id <- s.procs[p].asks :: AskAddressed(s, p, id)
  }

  /** A Committed reply was given by the candidate that the request asked about, and names the version that the
      request observed and that the candidate runs. */
  ghost predicate AnswerFits(s: State, a: (nat, Version)) {
    && a.0 < |s.requests|
    && var r := s.requests[a.0];
       r.server == r.op && r.op in s.commits && r.op < |s.procs| && a.1 == r.observed == s.procs[r.op].version
  }

  ghost predicate Truthful(s: State) {
    forall a <- s.answers :: AnswerFits(s, a)
  }

  lemma AskMoves(q: Process, p: Pid, id: nat)
    requires id in q.asks && AskReady(q, q.asks[id])
    ensures var r := AskNext(q, p, id);
            && r.version == q.version
            && (forall k <- r.asks :: k in q.asks && (k != id ==> r.asks[k] == q.asks[k]) && (r.asks[k].Asked? ==> r.asks[k] == q.asks[k]))
            && (id in r.asks && q.asks[id].Asked? ==> q.asks[id].op == p && q.asks[id].observed == q.version)
  {
  }

  lemma AdvanceAddressed(s: State, step: Step)
    requires Enabled(s, step) && step.AdvanceAsk? && AddressedAt(s, step.p)
    ensures AddressedAt(Apply(s, step), step.p)
  {
    AskMoves(s.procs[step.p], step.p, step.id);
    var t := Apply(s, step);
    forall k | k in t.procs[step.p].asks
      ensures AskAddressed(t, step.p, k)
    {
      assert AskAddressed(s, step.p, k);
    }
  }

  lemma ListedAddressed(s: State, step: Step)
    requires Enabled(s, step) && (step.NewAsk? || step.DropAsk?) && AddressedAt(s, step.p)
    ensures AddressedAt(Apply(s, step), step.p)
  {
    var t := Apply(s, step);
    forall k | k in t.procs[step.p].asks
      ensures AskAddressed(t, step.p, k)
    {
      if !(step.NewAsk? && k == step.id) {
        assert AskAddressed(s, step.p, k);
      }
    }
  }

  /** No other step opens or changes a confirmation. */
  lemma OwnAsksKept(s: State, step: Step)
    requires Family(s) && Enabled(s, step) && !Asking(step)
    ensures var q, r := s.procs[step.p], Apply(s, step).procs[step.p];
            r.version == q.version && (r.asks == q.asks || r.asks == map[])
    ensures Apply(s, step).requests == s.requests && Apply(s, step).answers == s.answers
  {
    QuietLists(s, step);
    if Ending(step) {
      EndAsks(s, step);
    } else if QuietCandidate(step) {
      CandidateAsks(s, step);
    } else if step.CloseAndHand? || step.ReapAndRestore? {
      HandingAsks(s, step);
    } else {
      OwnSilent(s, step);
    }
  }

  lemma QuietLists(s: State, step: Step)
    requires Enabled(s, step) && !Asking(step)
    ensures Apply(s, step).requests == s.requests && Apply(s, step).answers == s.answers
  {
    if QuietCandidate(step) {
      CandidateLists(s, step);
    } else if QuietServer(step) {
      ServerLists(s, step);
    }
  }

  lemma CandidateLists(s: State, step: Step)
    requires Enabled(s, step) && QuietCandidate(step)
    ensures Apply(s, step).requests == s.requests && Apply(s, step).answers == s.answers
  {
  }

  lemma ServerLists(s: State, step: Step)
    requires Enabled(s, step) && QuietServer(step)
    ensures Apply(s, step).requests == s.requests && Apply(s, step).answers == s.answers
  {
  }

  lemma EndAsks(s: State, step: Step)
    requires Enabled(s, step) && Ending(step)
    ensures Apply(s, step).procs[step.p].asks == map[] && Apply(s, step).procs[step.p].version == s.procs[step.p].version
  {
  }

  lemma CandidateAsks(s: State, step: Step)
    requires Enabled(s, step) && QuietCandidate(step)
    ensures Apply(s, step).procs[step.p].asks == s.procs[step.p].asks
    ensures Apply(s, step).procs[step.p].version == s.procs[step.p].version
  {
  }

  lemma HandingAsks(s: State, step: Step)
    requires Family(s) && Enabled(s, step) && (step.CloseAndHand? || step.ReapAndRestore?)
    ensures Apply(s, step).procs[step.p].asks == s.procs[step.p].asks
    ensures Apply(s, step).procs[step.p].version == s.procs[step.p].version
  {
  }

  lemma OtherAsksKept(s: State, step: Step, i: Pid)
    requires Family(s) && Enabled(s, step) && i < |s.procs| && i != step.p
    ensures var q, r := s.procs[i], Apply(s, step).procs[i];
            r.version == q.version && (r.asks == q.asks || r.asks == map[])
  {
    if TouchesChild(step) {
      OtherProcess(s, step, i);
    } else {
      UntouchedProcess(s, step, i);
    }
  }

  lemma KeptAddressed(s: State, t: State, i: Pid)
    requires i < |s.procs| && i < |t.procs| && AddressedAt(s, i) && s.requests <= t.requests
    requires t.procs[i].version == s.procs[i].version && (t.procs[i].asks == s.procs[i].asks || t.procs[i].asks == map[])
    ensures AddressedAt(t, i)
  {
    forall k | k in t.procs[i].asks
      ensures AskAddressed(t, i, k)
    {
      assert AskAddressed(s, i, k);
    }
  }

  lemma AddressedKeeps(s: State, step: Step)
    requires Family(s) && Addressed(s) && Enabled(s, step)
    ensures Addressed(Apply(s, step))
  {
    var t := Apply(s, step);
    StepRecords(s, step);
    forall i: Pid | i < |t.procs|
      ensures AddressedAt(t, i)
    {
      if i >= |s.procs| {
        SpawnedIdle(s, step);
      } else if i != step.p {
        OtherAsksKept(s, step, i);
        KeptAddressed(s, t, i);
      } else if step.AdvanceAsk? {
        AdvanceAddressed(s, step);
      } else if Asking(step) {
        ListedAddressed(s, step);
      } else {
        OwnAsksKept(s, step);
        KeptAddressed(s, t, i);
      }
    }
  }

  lemma NewAnswer(s: State, step: Step, a: (nat, Version))
    requires Verdicts(s) && Addressed(s) && Enabled(s, step) && a in Apply(s, step).answers && a !in s.answers
    ensures AnswerFits(s, a)
  {
    if Asking(step) {
      assert step.AdvanceAsk? && a == (step.id, s.procs[step.p].version) && Answers(s.procs[step.p], step.id);
      assert AddressedAt(s, step.p);
      assert AskAddressed(s, step.p, step.id);
    } else {
      QuietLists(s, step);
    }
  }

  lemma TruthfulKeeps(s: State, step: Step)
    requires Family(s) && Verdicts(s) && Addressed(s) && Truthful(s) && Enabled(s, step)
    ensures Truthful(Apply(s, step))
  {
    var t := Apply(s, step);
    StepExtends(s, step);
    forall a | a in t.answers
      ensures AnswerFits(t, a)
    {
      if a !in s.answers {
        NewAnswer(s, step, a);
      }
      assert AnswerFits(s, a);
      assert Remembers(s.procs[s.requests[a.0].op], t.procs[s.requests[a.0].op]);
    }
  }
}
