/** What the discovery reconciler has done, as seen from outside, and what it promises about it. */
module DiscoveryTrace {
  import opened Common

  datatype Machine = Machine(id: string, target: string)

  /** The persisted ownership state. */
  datatype Saved = Saved(seen: set<string>, pending: map<string, string>, managed: map<string, string>)

  const EMPTY := Saved({}, map[], map[])

  datatype Event =
    | Restart                                  // a new worker: nothing remembered but the saved state
    | Crash                                    // the worker stopped at an arbitrary point
    | Reset                                    // a failed check or a disabled plugin
    | CheckBegins(generation: string, complete: bool, listed: set<string>)
    | CheckEnds(generation: string)
    | Listing(machines: seq<Machine>)
    | Readiness(endpoint: string, ready: bool) // what the readiness source answered
    | ReadinessFailed(endpoint: string)
    | Added(endpoint: string, profile: string, display: string)
    | AddFailed(endpoint: string)
    | Removed(endpoint: string, profile: string)
    | RemoveFailed(endpoint: string, profile: string)
    | Notified(endpoint: string, display: string)
    | NoticeDeferred(endpoint: string, display: string) // not accepted, or the call failed
    | SaveOk
    | SaveFailed

  type Trace = seq<Event>

  ghost function Front(t: Trace): Trace
    requires t != []
  {
    t[..|t| - 1]
  }

  ghost function Last(t: Trace): Event
    requires t != []
  {
    t[|t| - 1]
  }

  /** What `b` has beyond `a`. */
  ghost function Since(a: Trace, b: Trace): Trace {
    if |a| <= |b| then b[|a|..] else []
  }

  // ----- readings of a trace -----

  ghost function Adds(t: Trace, e: string): nat {
    if t == [] then 0 else Adds(Front(t), e) + if Last(t).Added? && Last(t).endpoint == e then 1 else 0
  }

  ghost function Removes(t: Trace, e: string): nat {
    if t == [] then 0 else Removes(Front(t), e) + if Last(t).Removed? && Last(t).endpoint == e then 1 else 0
  }

  ghost function Notices(t: Trace, e: string): nat {
    if t == [] then 0 else Notices(Front(t), e) + if Last(t).Notified? && Last(t).endpoint == e then 1 else 0
  }

  /** Something happened that no successful save has recorded yet. */
  ghost predicate Unsaved(t: Trace) {
    t != [] &&
    match Last(t)
    case Added(_, _, _) => true
    case Removed(_, _) => true
    case Notified(_, _) => true
    case SaveOk => false
    case _ => Unsaved(Front(t))
  }

  /** A save failed, or the worker crashed before it could save. */
  ghost predicate Broken(t: Trace) {
    t != [] && (Broken(Front(t)) || Last(t).SaveFailed? || (Last(t).Crash? && Unsaved(Front(t))))
  }

  /** The generation of the last check of this worker that ran to its end. */
  ghost function LastGeneration(t: Trace): Option<string> {
    if t == [] || Last(t).Restart? then None
    else if Last(t).CheckEnds? then Some(Last(t).generation)
    else LastGeneration(Front(t))
  }

  ghost function LastListing(t: Trace): seq<Machine> {
    if t == [] then [] else if Last(t).Listing? then Last(t).machines else LastListing(Front(t))
  }

  /** A complete check, of a generation other than the last one checked, that does not list `e`. */
  ghost predicate MissedBy(before: Trace, v: Event, e: string) {
    v.CheckBegins? && v.complete && LastGeneration(before) != Some(v.generation) && e !in v.listed
  }

  /** What makes the reconciler forget earlier absences of `e`. */
  ghost predicate Forgets(before: Trace, v: Event, e: string) {
    || v.Restart? || v.Reset?
    || (v.CheckBegins? && !v.complete)
    || (v.CheckBegins? && LastGeneration(before) != Some(v.generation) && e in v.listed)
  }

  /** Consecutive checks missing `e` so far. */
  ghost function Absences(t: Trace, e: string): nat {
    if t == [] || Forgets(Front(t), Last(t), e) then 0
    else Absences(Front(t), e) + if MissedBy(Front(t), Last(t), e) then 1 else 0
  }

  // ----- what is promised -----

  function ToLower(c: char): char {
    if 'A' <= c <= 'Z' then c - 'A' + 'a' else c
  }

  function Lowercase(s: string): (r: string)
    ensures |r| == |s|
    ensures forall i :: 0 <= i < |s| ==> r[i] as int == s[i] as int + if 65 <= s[i] as int <= 90 then 32 else 0
  {
    seq(|s|, i requires 0 <= i < |s| => ToLower(s[i]))
  }

  function Target(endpoint: string): string {
    "attached-" + endpoint
  }

  /** The listing shows this profile under this endpoint's target. */
  predicate Shows(machines: seq<Machine>, endpoint: string, profile: string) {
    exists i :: 0 <= i < |machines| && machines[i].id == profile
      && Lowercase(machines[i].target) == Lowercase(Target(endpoint))
  }

  predicate Listed(machines: seq<Machine>, endpoint: string) {
    exists i :: 0 <= i < |machines| && Lowercase(machines[i].target) == Target(endpoint)
  }

  /** An add for this endpoint returned this profile. */
  ghost predicate AddedAs(t: Trace, e: string, profile: string) {
    exists i :: 0 <= i < |t| && t[i].Added? && t[i].endpoint == e && t[i].profile == profile
  }

  /** An add for this endpoint was made under this display name. */
  ghost predicate Labelled(t: Trace, e: string, display: string) {
    exists i :: 0 <= i < |t| && t[i].Added? && t[i].endpoint == e && t[i].display == display
  }

  lemma StillAdded(t: Trace, v: Event)
    ensures forall e: string, p: string :: AddedAs(t, e, p) ==> AddedAs(t + [v], e, p)
    ensures forall e: string, d: string :: Labelled(t, e, d) ==> Labelled(t + [v], e, d)
  {
    forall e: string, p: string | AddedAs(t, e, p)
      ensures AddedAs(t + [v], e, p)
    {
      var i :| 0 <= i < |t| && t[i].Added? && t[i].endpoint == e && t[i].profile == p;
      assert (t + [v])[i] == t[i];
    }
    forall e: string, d: string | Labelled(t, e, d)
      ensures Labelled(t + [v], e, d)
    {
      var i :| 0 <= i < |t| && t[i].Added? && t[i].endpoint == e && t[i].display == d;
      assert (t + [v])[i] == t[i];
    }
  }

  ghost predicate BalancedFor(t: Trace, e: string) {
    Removes(t, e) <= Adds(t, e) <= Removes(t, e) + 1 && Notices(t, e) <= Adds(t, e)
  }

  ghost predicate LastOk(t: Trace)
    requires t != []
  {
    && (Last(t).Removed? ==>
          var e, p := Last(t).endpoint, Last(t).profile;
          && AddedAs(Front(t), e, p)
          && Shows(LastListing(Front(t)), e, p)
          && Absences(Front(t), e) >= 3)
    && (Last(t).Added? ==>
          && !Listed(LastListing(Front(t)), Last(t).endpoint)
          && Front(t) != [] && Last(Front(t)) == Readiness(Last(t).endpoint, true))
    && (Last(t).Notified? ==> Labelled(Front(t), Last(t).endpoint, Last(t).display))
    && (!Broken(t) ==> forall e: string :: BalancedFor(t, e))
  }

  /** Only a host that was just found ready, and that the registry does not list, is added; every removal is of a
      profile the reconciler itself added and still sees, after three absences; and while saves succeed nothing is
      added or announced twice. */
  ghost predicate Trustworthy(t: Trace) {
    t == [] || (Trustworthy(Front(t)) && LastOk(t))
  }

  lemma {:induction false} TrustworthyAt(t: Trace, n: nat)
    requires Trustworthy(t) && n <= |t|
    ensures Trustworthy(t[..n])
  {
    if n == |t| {
      assert t[..n] == t;
    } else {
      TrustworthyAt(Front(t), n);
      assert Front(t)[..n] == t[..n];
    }
  }

  /** A trace with `Absences(t, e) > 0` ends with a miss that nothing after it forgets. */
  lemma {:induction false} LatestMiss(t: Trace, e: string) returns (k: nat)
    requires Absences(t, e) > 0
    ensures k < |t| && MissedBy(t[..k], t[k], e) && Absences(t[..k], e) == Absences(t, e) - 1
    ensures !Forgets(t[..k], t[k], e)
    ensures forall j :: k < j < |t| ==> !Forgets(t[..j], t[j], e)
  {
    if MissedBy(Front(t), Last(t), e) {
      k := |t| - 1;
    } else {
      k := LatestMiss(Front(t), e);
      assert forall j :: 0 <= j < |t| ==> Front(t)[..j] == t[..j];
      assert t[..|t| - 1] == Front(t);
    }
  }

  /** Three absences mean three distinct checks missing `e`, each of a new generation, and since the
      first of them no restart, failed check, incomplete report or new report listing `e`. */
  lemma ThreeMisses(t: Trace, e: string) returns (a: nat, b: nat, c: nat)
    requires Absences(t, e) >= 3
    ensures a < b < c < |t|
    ensures MissedBy(t[..a], t[a], e) && MissedBy(t[..b], t[b], e) && MissedBy(t[..c], t[c], e)
    ensures forall j :: a <= j < |t| ==> !Forgets(t[..j], t[j], e)
  {
    c := LatestMiss(t, e);
    b := LatestMiss(t[..c], e);
    assert t[..c][..b] == t[..b];
    a := LatestMiss(t[..b], e);
    assert t[..b][..a] == t[..a];
    forall j | a <= j < |t|
      ensures !Forgets(t[..j], t[j], e)
    {
      if j < b {
        assert t[..b][..j] == t[..j];
      } else if j < c {
        assert t[..c][..j] == t[..j];
      }
    }
  }

  /** Every removal, wherever it stands in a run: an earlier add returned that very profile, the latest
      listing shows it under the endpoint's target, and three checks in a row had missed the endpoint. */
  lemma RemovalJustified(t: Trace, k: nat, e: string, p: string) returns (i: nat, a: nat, b: nat, c: nat)
    requires Trustworthy(t) && k < |t| && t[k] == Removed(e, p)
    ensures i < k && t[i].Added? && t[i].endpoint == e && t[i].profile == p
    ensures exists m :: 0 <= m < |LastListing(t[..k])| && LastListing(t[..k])[m].id == p
              && Lowercase(LastListing(t[..k])[m].target) == Lowercase("attached-" + e)
    ensures a < b < c < k && MissedBy(t[..a], t[a], e) && MissedBy(t[..b], t[b], e) && MissedBy(t[..c], t[c], e)
    ensures forall j :: a <= j < k ==> !Forgets(t[..j], t[j], e)
  {
    var before := t[..k];
    RemovalOk(t, k, e, p);
    i :| 0 <= i < |before| && before[i].Added? && before[i].endpoint == e && before[i].profile == p;
    a, b, c := ThreeMisses(before, e);
    assert before[..a] == t[..a] && before[..b] == t[..b] && before[..c] == t[..c];
    assert forall j :: a <= j < k ==> before[..j] == t[..j] && before[j] == t[j];
  }

  lemma RemovalOk(t: Trace, k: nat, e: string, p: string)
    requires Trustworthy(t) && k < |t| && t[k] == Removed(e, p)
    ensures AddedAs(t[..k], e, p) && Shows(LastListing(t[..k]), e, p) && Absences(t[..k], e) >= 3
  {
    TrustworthyAt(t, k + 1);
    assert t[..k + 1] == t[..k] + [t[k]];
    Appended(t[..k], t[k]);
    assert LastOk(t[..k + 1]);
  }

  /** Every add, wherever it stands in a run: the readiness source had just answered yes for that endpoint, and the
      latest listing showed no machine under its target. */
  lemma AddJustified(t: Trace, k: nat)
    requires Trustworthy(t) && k < |t| && t[k].Added?
    ensures k > 0 && t[k - 1] == Readiness(t[k].endpoint, true)
    ensures forall m :: 0 <= m < |LastListing(t[..k])| ==>
              Lowercase(LastListing(t[..k])[m].target) != "attached-" + t[k].endpoint
  {
    TrustworthyAt(t, k + 1);
    assert t[..k + 1] == t[..k] + [t[k]];
    Appended(t[..k], t[k]);
    assert LastOk(t[..k + 1]);
  }

  /** Every notice announces an earlier add of its endpoint, under the name it was added with. */
  lemma NoticeJustified(t: Trace, k: nat) returns (i: nat)
    requires Trustworthy(t) && k < |t| && t[k].Notified?
    ensures i < k && t[i].Added? && t[i].endpoint == t[k].endpoint && t[i].display == t[k].display
  {
    TrustworthyAt(t, k + 1);
    assert t[..k + 1] == t[..k] + [t[k]];
    Appended(t[..k], t[k]);
    assert LastOk(t[..k + 1]);
    var before := t[..k];
    i :| 0 <= i < |before| && before[i].Added? && before[i].endpoint == t[k].endpoint && before[i].display == t[k].display;
  }

  lemma {:induction false} BrokenStays(t: Trace, n: nat)
    requires !Broken(t) && n <= |t|
    ensures !Broken(t[..n])
  {
    if n == |t| {
      assert t[..n] == t;
    } else {
      BrokenStays(Front(t), n);
      assert Front(t)[..n] == t[..n];
    }
  }

  lemma {:induction false} CountsBetween(t: Trace, i: nat, j: nat, e: string)
    requires i <= j <= |t| && forall k :: i <= k < j ==> !(t[k].Removed? && t[k].endpoint == e)
    ensures Removes(t[..j], e) == Removes(t[..i], e) && Adds(t[..i], e) <= Adds(t[..j], e)
  {
    if i < j {
      CountsBetween(t, i, j - 1, e);
      assert Front(t[..j]) == t[..j - 1] && Last(t[..j]) == t[j - 1];
    }
  }

  /** Two adds with no removal between them. */
  lemma AddedTwice(t: Trace, i: nat, j: nat, e: string)
    requires i < j < |t| && t[i].Added? && t[i].endpoint == e && t[j].Added? && t[j].endpoint == e
    requires forall k :: i <= k < j + 1 ==> !(t[k].Removed? && t[k].endpoint == e)
    ensures Adds(t[..j + 1], e) >= Adds(t[..i], e) + 2 && Removes(t[..j + 1], e) == Removes(t[..i], e)
  {
    CountsBetween(t, i, j + 1, e);
    assert Front(t[..j + 1]) == t[..j] && Last(t[..j + 1]) == t[j];
    assert Front(t[..i + 1]) == t[..i] && Last(t[..i + 1]) == t[i];
    CountsBetween(t, i + 1, j, e);
  }

  /** While saves succeed, an endpoint is added again only after the reconciler itself removed it: a
      profile that the user deleted or replaced is never brought back. */
  lemma DeletionStands(t: Trace, i: nat, j: nat, e: string)
    requires Trustworthy(t) && !Broken(t) && i < j < |t|
    requires t[i].Added? && t[i].endpoint == e && t[j].Added? && t[j].endpoint == e
    ensures exists k :: i < k < j && t[k].Removed? && t[k].endpoint == e
  {
    Balanced(t, i, e);
    Balanced(t, j + 1, e);
    if forall k :: i < k < j ==> !(t[k].Removed? && t[k].endpoint == e) {
      AddedTwice(t, i, j, e);
      assert false;
    }
  }

  lemma Balanced(t: Trace, n: nat, e: string)
    requires Trustworthy(t) && !Broken(t) && n <= |t|
    ensures BalancedFor(t[..n], e)
  {
    TrustworthyAt(t, n);
    BrokenStays(t, n);
  }

  // ----- the saved state agrees with the trace -----

  /** Ownership is only ever claimed for profiles that were really added. */
  ghost predicate Founded(s: Saved, t: Trace) {
    && s.pending.Keys <= s.managed.Keys <= s.seen
    && (forall e <- s.managed :: AddedAs(t, e, s.managed[e]))
    && (forall e <- s.pending :: Labelled(t, e, s.pending[e]))
  }

  ghost predicate Entry(s: Saved, t: Trace, e: string) {
    && BalancedFor(t, e)
    && (e in s.managed ==> Adds(t, e) == Removes(t, e) + 1)
    && (e !in s.seen ==> Adds(t, e) == Removes(t, e))
    && (e in s.pending ==> Notices(t, e) < Adds(t, e))
  }

  ghost predicate Agrees(s: Saved, t: Trace) {
    Founded(s, t) && (!Broken(t) ==> forall e: string :: Entry(s, t, e))
  }

  /** Events that neither add, remove, announce nor break anything. */
  ghost predicate Neutral(v: Event) {
    !v.Added? && !v.Removed? && !v.Notified? && !v.SaveFailed? && !v.Crash?
  }

  lemma Appended(t: Trace, v: Event)
    ensures Front(t + [v]) == t && Last(t + [v]) == v
  {
  }

  lemma NeutralKeeps(s: Saved, t: Trace, v: Event)
    requires Agrees(s, t) && Trustworthy(t) && Neutral(v)
    ensures Agrees(s, t + [v]) && Trustworthy(t + [v])
    ensures Broken(t + [v]) == Broken(t)
  {
    Appended(t, v);
    StillAdded(t, v);
    forall e: string | !Broken(t)
      ensures Entry(s, t + [v], e) && BalancedFor(t + [v], e)
    {
      assert Entry(s, t, e);
    }
  }

  /** The worker stops; what counts is what was saved. */
  lemma CrashKeeps(s: Saved, t: Trace, v: Event)
    requires Founded(s, t) && (!Unsaved(t) ==> Agrees(s, t)) && Trustworthy(t) && (v.Crash? || v.SaveFailed?)
    ensures Agrees(s, t + [v]) && Trustworthy(t + [v])
    ensures v.SaveFailed? ==> Broken(t + [v])
  {
    Appended(t, v);
    StillAdded(t, v);
    forall e: string | !Broken(t + [v])
      ensures Entry(s, t + [v], e) && BalancedFor(t + [v], e)
    {
      assert Entry(s, t, e);
    }
  }

  lemma AddKeeps(s: Saved, t: Trace, e: string, profile: string, display: string)
    requires Agrees(s, t) && Trustworthy(t) && e !in s.seen && !Listed(LastListing(t), e)
    requires t != [] && Last(t) == Readiness(e, true)
    ensures var v := t + [Added(e, profile, display)];
            && Agrees(Saved(s.seen + {e}, s.pending[e := display], s.managed[e := profile]), v)
            && Trustworthy(v) && Founded(s, v) && Unsaved(v)
  {
    var v := t + [Added(e, profile, display)];
    var next := Saved(s.seen + {e}, s.pending[e := display], s.managed[e := profile]);
    Appended(t, Added(e, profile, display));
    StillAdded(t, Added(e, profile, display));
    assert v[|t|] == Added(e, profile, display);
    forall x: string | !Broken(v)
      ensures Entry(next, v, x) && BalancedFor(v, x)
    {
      assert Entry(s, t, x);
    }
  }

  lemma RemoveKeeps(s: Saved, t: Trace, e: string)
    requires Agrees(s, t) && Trustworthy(t) && e in s.managed
    requires Shows(LastListing(t), e, s.managed[e]) && Absences(t, e) >= 3
    ensures var v := t + [Removed(e, s.managed[e])];
            && Agrees(Saved(s.seen - {e}, s.pending - {e}, s.managed - {e}), v)
            && Trustworthy(v) && Founded(s, v) && Unsaved(v)
  {
    var v := t + [Removed(e, s.managed[e])];
    var next := Saved(s.seen - {e}, s.pending - {e}, s.managed - {e});
    Appended(t, Removed(e, s.managed[e]));
    StillAdded(t, Removed(e, s.managed[e]));
    forall x: string | !Broken(v)
      ensures Entry(next, v, x) && BalancedFor(v, x)
    {
      assert Entry(s, t, x);
    }
  }

  lemma NotifyKeeps(s: Saved, t: Trace, e: string)
    requires Agrees(s, t) && Trustworthy(t) && e in s.pending
    ensures var v := t + [Notified(e, s.pending[e])];
            && Agrees(s.(pending := s.pending - {e}), v)
            && Trustworthy(v) && Founded(s, v) && Unsaved(v)
  {
    var v := t + [Notified(e, s.pending[e])];
    Appended(t, Notified(e, s.pending[e]));
    StillAdded(t, Notified(e, s.pending[e]));
    forall x: string | !Broken(v)
      ensures Entry(s.(pending := s.pending - {e}), v, x) && BalancedFor(v, x)
    {
      assert Entry(s, t, x);
    }
  }

  /** Forgetting an entry's ownership, when the user deleted or replaced its profile. */
  lemma DropKeeps(s: Saved, t: Trace, e: string)
    requires Agrees(s, t)
    ensures Agrees(s.(managed := s.managed - {e}, pending := s.pending - {e}), t)
  {
    var next := s.(managed := s.managed - {e}, pending := s.pending - {e});
    forall x: string | !Broken(t)
      ensures Entry(next, t, x)
    {
      assert Entry(s, t, x);
    }
  }

  lemma SeenKeeps(s: Saved, t: Trace, e: string)
    requires Agrees(s, t)
    ensures Agrees(s.(seen := s.seen + {e}), t)
  {
    forall x: string | !Broken(t)
      ensures Entry(s.(seen := s.seen + {e}), t, x)
    {
      assert Entry(s, t, x);
    }
  }

  // ----- what the absence counters depend on -----

  /** Events outside the checking loop itself. */
  ghost predicate Quiet(v: Event) {
    !v.Restart? && !v.Reset? && !v.CheckBegins? && !v.CheckEnds?
  }

  /** The events of the checking loop, in order. */
  ghost function Checks(t: Trace): Trace {
    if t == [] then [] else if Quiet(Last(t)) then Checks(Front(t)) else Checks(Front(t)) + [Last(t)]
  }

  /** `b` is no shorter, and has the same checks. */
  ghost predicate SameChecks(a: Trace, b: Trace) {
    |a| <= |b| && Checks(a) == Checks(b)
  }

  ghost predicate SameView(a: Trace, b: Trace) {
    SameChecks(a, b) && LastListing(a) == LastListing(b)
  }

  lemma {:induction false} ReadsChecks(t: Trace, e: string)
    ensures Absences(t, e) == Absences(Checks(t), e) && LastGeneration(t) == LastGeneration(Checks(t))
  {
    if t != [] {
      ReadsChecks(Front(t), e);
      if !Quiet(Last(t)) {
        Appended(Checks(Front(t)), Last(t));
      }
    }
  }

  /** Absences and the last generation are read from the checks alone. */
  lemma SameReadings(a: Trace, b: Trace)
    requires SameChecks(a, b)
    ensures LastGeneration(a) == LastGeneration(b) && forall e: string :: Absences(a, e) == Absences(b, e)
  {
    forall e: string
      ensures LastGeneration(a) == LastGeneration(b) && Absences(a, e) == Absences(b, e)
    {
      ReadsChecks(a, e);
      ReadsChecks(b, e);
    }
    ReadsChecks(a, "");
    ReadsChecks(b, "");
  }

  lemma QuietKeeps(t: Trace, v: Event)
    requires Quiet(v)
    ensures if v.Listing? then SameChecks(t, t + [v]) else SameView(t, t + [v])
  {
    Appended(t, v);
  }
}
