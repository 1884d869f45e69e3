/** Exactly when an accepted Start can lead to two processes that hold the endpoint. */
module HandoffBreach {
  import opened Common
  import opened Handoff
  import opened HandoffInvariant
  import opened HandoffAlways
  import opened HandoffRuns
  import opened HandoffMask

  ghost predicate Doubled(t: State, a: Pid, b: Pid) {
    a != b && Bound(t, a) && Bound(t, b)
  }

  /** Reached without a harmful Start. */
  ghost predicate HarmlessLeads(s: State, t: State) {
    exists steps: seq<Step> :: HarmlessRuns(s, steps) && After(s, steps) == t
  }

  ghost predicate HarmlessReached(s: State) {
    exists v: Version :: HarmlessLeads(Init(v), s)
  }

  /** Some continuation of the accepted Start doubles the endpoint, without another harmful one. */
  ghost predicate CanDoubleHarmlessly(s: State, p: Pid)
    requires Enabled(s, StartAccepted(p))
  {
    exists t: State, a: Pid, b: Pid :: HarmlessLeads(Apply(s, StartAccepted(p)), t) && Doubled(t, a, b)
  }

  /** Even without another unguarded one. */
  ghost predicate CanDoubleAfter(s: State, p: Pid)
    requires Enabled(s, StartAccepted(p))
  {
    exists t: State, a: Pid, b: Pid :: Leads(Apply(s, StartAccepted(p)), t) && Doubled(t, a, b)
  }

  // ----- when it can -----

  /** `u` is `s` except for the confirmations that process `p` serves and what it reported for them. */
  ghost predicate SameButAsks(s: State, u: State, p: Pid) {
    && p < |s.procs| == |u.procs| && u.disk == s.disk
    && (forall i: Pid :: i < |s.procs| && i != p ==> u.procs[i] == s.procs[i])
    && u.procs[p] == s.procs[p].(asks := u.procs[p].asks, events := u.procs[p].events, announced := u.procs[p].announced)
  }

  /** Everything reachable from `u` is reachable from `s`. */
  ghost predicate Covers(s: State, u: State) {
    forall t: State :: Leads(u, t) ==> Leads(s, t)
  }

  lemma StepCovers(s: State, step: Step)
    requires Enabled(s, step) && Guarded(s, step)
    ensures Covers(s, Apply(s, step))
  {
    forall t: State | Leads(Apply(s, step), t)
      ensures Leads(s, t)
    {
      LeadsCons(s, step, t, true);
    }
  }

  lemma DropCovers(s: State, p: Pid, id: nat) returns (u: State)
    requires Alive(s, p) && !HasChild(s.procs[p].work) && id in s.procs[p].asks
    requires s.procs[p].asks[id].Asked? || s.procs[p].asks[id].Holding? || s.procs[p].asks[id].Replying?
    ensures Covers(s, u) && SameButAsks(s, u, p) && u.procs[p].asks == s.procs[p].asks - {id}
  {
    u := Apply(s, DropAsk(p, id));
    StepCovers(s, DropAsk(p, id));
  }

  /** A confirmation between two of its own actions takes the next one. */
  lemma AdvanceCovers(s: State, p: Pid, id: nat) returns (u: State)
    requires Alive(s, p) && !HasChild(s.procs[p].work) && id in s.procs[p].asks
    requires s.procs[p].asks[id].Swapping? || s.procs[p].asks[id].Notifying?
    ensures Covers(s, u) && SameButAsks(s, u, p) && id in u.procs[p].asks
    ensures u.procs[p].asks[id].Holding? || (s.procs[p].asks[id].Swapping? && u.procs[p].asks[id].Notifying?)
    ensures u.procs[p].asks - {id} == s.procs[p].asks - {id}
  {
    u := Apply(s, AdvanceAsk(p, id));
    StepCovers(s, AdvanceAsk(p, id));
  }

  lemma FinishAsk(s: State, p: Pid, id: nat) returns (u: State)
    requires Alive(s, p) && !HasChild(s.procs[p].work) && id in s.procs[p].asks
    ensures Covers(s, u) && SameButAsks(s, u, p) && u.procs[p].asks == s.procs[p].asks - {id}
    decreases if s.procs[p].asks[id].Swapping? then 2 else if s.procs[p].asks[id].Notifying? then 1 else 0
  {
    var ask := s.procs[p].asks[id];
    if ask.Swapping? || ask.Notifying? {
      var m := AdvanceCovers(s, p, id);
      u := FinishAsk(m, p, id);
    } else {
      u := DropCovers(s, p, id);
    }
  }

  /** All confirmations of a server can be finished. */
  lemma {:induction false} FinishAsks(s: State, p: Pid) returns (u: State)
    requires Alive(s, p) && !HasChild(s.procs[p].work)
    ensures Covers(s, u) && SameButAsks(s, u, p) && u.procs[p].asks == map[]
    decreases |s.procs[p].asks|
  {
    if s.procs[p].asks == map[] {
      return s;
    }
    var id :| id in s.procs[p].asks;
    var m := FinishAsk(s, p, id);
    assert |m.procs[p].asks| < |s.procs[p].asks| by {
      assert m.procs[p].asks.Keys == s.procs[p].asks.Keys - {id};
    }
    u := FinishAsks(m, p);
  }

  lemma ReapRebinds(s: State, q: Pid, p: Pid) returns (t: State)
    requires Alive(s, q) && p < |s.procs| && p != q && s.procs[q].stage.Handing? && s.procs[q].work == RollingBack(p)
    requires s.procs[q].retained.Some?
    ensures Leads(s, t) && Bound(t, q)
    ensures |t.procs| == |s.procs| && forall i: Pid :: i < |s.procs| && i != p && i != q ==> t.procs[i] == s.procs[i]
  {
    var m := Apply(s, ReapAndRestore(q));
    assert m.procs[q].stage.Binding? && m.procs[q].work.Idle? && |m.procs| == |s.procs|;
    assert forall i: Pid :: i < |s.procs| && i != p && i != q ==> m.procs[i] == s.procs[i];
    t := Apply(m, Bind(q));
    assert forall i: Pid :: i < |m.procs| && i != q ==> t.procs[i] == m.procs[i];
    LeadsSelf(t, true);
    LeadsCons(m, Bind(q), t, true);
    LeadsCons(s, ReapAndRestore(q), t, true);
  }

  /** Whatever its candidate does, a parent that has not committed can reap it and bind again. */
  lemma ParentRebinds(s: State, q: Pid, p: Pid) returns (t: State)
    requires Alive(s, q) && p < |s.procs| && p != q && HandChild(s.procs[q]) == Some(p) && s.procs[q].retained.Some?
    ensures Leads(s, t) && Bound(t, q)
    ensures |t.procs| == |s.procs| && forall i: Pid :: i < |s.procs| && i != p && i != q ==> t.procs[i] == s.procs[i]
  {
    if s.procs[q].work.RollingBack? {
      t := ReapRebinds(s, q, p);
    } else {
      var m := Apply(s, GiveUp(q));
      t := ReapRebinds(m, q, p);
      LeadsCons(s, GiveUp(q), t, true);
    }
  }

  /** The candidate cuts over to one of its own, and then its parent comes back. */
  lemma CutOverDoubles(s: State, q: Pid, p: Pid, newer: Version) returns (t: State)
    requires Alive(s, p) && s.procs[p].stage.Serving? && s.procs[p].work.Installing? && Below(s.procs[p].version, newer)
    requires !s.procs[p].leaving && s.procs[p].asks == map[]
    requires Alive(s, q) && p != q && HandChild(s.procs[q]) == Some(p) && s.procs[q].retained.Some?
    ensures Leads(s, t) && Doubled(t, q, |s.procs|)
  {
    var c := |s.procs|;
    var b := CutOver(PreparedBy(s, p, newer), p, c);
    assert b.procs[q] == s.procs[q] && Bound(b, c);
    t := ParentRebinds(b, q, p);
    assert t.procs[c] == b.procs[c];
    CanHandOff(s, p, newer, t, true);
  }

  lemma HandedCanDouble(s: State, p: Pid, newer: Version)
    requires Always(s) && Enabled(s, StartAccepted(p)) && Handed(s, p)
    requires !s.procs[p].leaving && Below(s.procs[p].version, newer)
    ensures CanDoubleAfter(s, p)
  {
    var q := s.procs[p].parent.value;
    assert Retaining(s.procs[q]);
    var started := Apply(s, StartAccepted(p));
    var u := FinishAsks(started, p);
    var t := CutOverDoubles(u, q, p, newer);
    assert Leads(started, t);
  }

  // ----- a concrete run -----

  /** Two processes can hold the endpoint: the parent times out, its candidate reads Abort but accepts a Start
      and cuts over to a candidate of its own, and only then is it reaped. */
  lemma TwoBound(v1: Version, v2: Version, v3: Version)
    requires Below(v1, v2) && Below(v2, v3)
    ensures exists t: State :: LeadsBy(Init(v1), t, false) && Bound(t, 0) && Bound(t, 2)
  {
    var a := Timeout(v1, v2);
    var started := Apply(a, StartAccepted(1));
    var t := CutOverDoubles(started, 0, 1, v3);
    var steps: seq<Step> :| Runs(started, steps, true) && After(started, steps) == t;
    GuardedIsRun(started, steps);
    LeadsCons(a, StartAccepted(1), t, false);
    CanTimeOut(v1, v2, t, false);
    assert Bound(t, 0) && Bound(t, 2);
  }

  // ----- when it cannot -----

  lemma {:induction false} GuardedIsHarmless(s: State, steps: seq<Step>)
    requires Runs(s, steps, true)
    ensures HarmlessRuns(s, steps)
    decreases |steps|
  {
    if steps != [] {
      GuardedIsHarmless(Apply(s, steps[0]), steps[1..]);
    }
  }

  lemma {:induction false} HarmlessIsRun(s: State, steps: seq<Step>)
    requires HarmlessRuns(s, steps)
    ensures Runs(s, steps, false)
    decreases |steps|
  {
    if steps != [] {
      HarmlessIsRun(Apply(s, steps[0]), steps[1..]);
    }
  }

  /** What holds of a state reached without a harmful Start, with the updates of some servers masked. */
  lemma HarmlessMasked(s: State) returns (masked: set<Pid>)
    requires HarmlessReached(s)
    ensures Always(s) && AllStuck(s, masked) && Core(MaskSet(s, masked))
  {
    var v: Version :| HarmlessLeads(Init(v), s);
    var steps: seq<Step> :| HarmlessRuns(Init(v), steps) && After(Init(v), steps) == s;
    HarmlessIsRun(Init(v), steps);
    InitAlways(v);
    AlwaysRuns(Init(v), steps, false);
    InitInv(v);
    MaskNone(Init(v));
    masked := SetRuns(Init(v), {}, steps);
  }

  /** In every run without a harmful Start at most one process has the endpoint bound. */
  lemma HarmlessOneBound(s: State, a: Pid, b: Pid)
    requires HarmlessReached(s) && Bound(s, a) && Bound(s, b)
    ensures a == b
  {
    var masked := HarmlessMasked(s);
    SetOneBound(s, masked, a, b);
  }

  lemma ReachableIsHarmless(s: State)
    requires Reachable(s)
    ensures HarmlessReached(s)
  {
    var v: Version :| Leads(Init(v), s);
    var steps: seq<Step> :| Runs(Init(v), steps, true) && After(Init(v), steps) == s;
    GuardedIsHarmless(Init(v), steps);
    assert HarmlessLeads(Init(v), s);
  }

  /** And after one that is not harmful it stays so. */
  lemma HarmlessCannotDouble(s: State, p: Pid, t: State, a: Pid, b: Pid)
    requires HarmlessReached(s) && Enabled(s, StartAccepted(p)) && !Harmful(s, StartAccepted(p))
    requires HarmlessLeads(Apply(s, StartAccepted(p)), t)
    ensures !Doubled(t, a, b)
  {
    var masked := HarmlessMasked(s);
    var more := SetKeeps(s, masked, StartAccepted(p));
    var steps: seq<Step> :| HarmlessRuns(Apply(s, StartAccepted(p)), steps) && After(Apply(s, StartAccepted(p)), steps) == t;
    var last := SetRuns(Apply(s, StartAccepted(p)), more, steps);
    if Bound(t, a) && Bound(t, b) {
      SetOneBound(t, last, a, b);
    }
  }

  /** So the endpoint is in danger exactly at the harmful Starts: in every state that a run reaches without one,
      an accepted Start can lead to two processes that hold the endpoint if and only if it is harmful, whether the
      continuation may hold further harmless Starts or only guarded ones. */
  lemma StartDoublesIff(s: State, p: Pid)
    requires HarmlessReached(s) && Enabled(s, StartAccepted(p))
    ensures CanDoubleAfter(s, p) <==> Harmful(s, StartAccepted(p))
    ensures CanDoubleHarmlessly(s, p) <==> Harmful(s, StartAccepted(p))
  {
    var started := Apply(s, StartAccepted(p));
    forall t: State | Leads(started, t)
      ensures HarmlessLeads(started, t)
    {
      var steps: seq<Step> :| Runs(started, steps, true) && After(started, steps) == t;
      GuardedIsHarmless(started, steps);
    }
    if Harmful(s, StartAccepted(p)) {
      var _ := HarmlessMasked(s);
      var newer: Version :| Below(s.procs[p].version, newer);
      HandedCanDouble(s, p, newer);
    } else {
      forall t: State, a: Pid, b: Pid | HarmlessLeads(started, t)
        ensures !Doubled(t, a, b)
      {
        HarmlessCannotDouble(s, p, t, a, b);
      }
    }
  }
}
