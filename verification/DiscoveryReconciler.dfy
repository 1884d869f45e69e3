/** The reconciler itself. */
module DiscoveryReconciler {
  import opened Common
  import opened DiscoveryTrace
  import opened Discovery

  type Retry = map<string, (nat, nat)> // deadline and failures so far

  function Key(retry: Retry, h: Host): Option<(nat, nat)> {
    if h.endpointId in retry then Some(retry[h.endpointId]) else None
  }

  /** Untried hosts come first, then the earliest deadline. */
  predicate AtMost(a: Option<(nat, nat)>, b: Option<(nat, nat)>) {
    a.None? || (b.Some? && (a.value.0 < b.value.0 || (a.value.0 == b.value.0 && a.value.1 <= b.value.1)))
  }

  function Insert(h: Host, sorted: seq<Host>, retry: Retry): seq<Host> {
    if sorted == [] || AtMost(Key(retry, h), Key(retry, sorted[0])) then [h] + sorted
    else [sorted[0]] + Insert(h, sorted[1..], retry)
  }

  /** The stable sort by retry key. */
  function SortByRetry(hosts: seq<Host>, retry: Retry): seq<Host> {
    if hosts == [] then [] else Insert(hosts[0], SortByRetry(hosts[1..], retry), retry)
  }

  ghost predicate Ordered(hosts: seq<Host>, retry: Retry) {
    forall i, j :: 0 <= i < j < |hosts| ==> AtMost(Key(retry, hosts[i]), Key(retry, hosts[j]))
  }

  lemma {:induction false} InsertOrders(h: Host, sorted: seq<Host>, retry: Retry)
    requires Ordered(sorted, retry)
    ensures Ordered(Insert(h, sorted, retry), retry)
    ensures multiset(Insert(h, sorted, retry)) == multiset(sorted) + multiset{h}
  {
    if sorted == [] || AtMost(Key(retry, h), Key(retry, sorted[0])) {
    } else {
      InsertOrders(h, sorted[1..], retry);
      var rest := Insert(h, sorted[1..], retry);
      assert sorted == [sorted[0]] + sorted[1..];
      forall j | 0 <= j < |rest|
        ensures AtMost(Key(retry, sorted[0]), Key(retry, rest[j]))
      {
        assert rest[j] in multiset(rest);
        assert rest[j] == h || rest[j] in sorted[1..];
      }
    }
  }

  /** The candidates are the reported hosts, untried ones first, then by deadline and failures. */
  lemma CandidatesInOrder(hosts: seq<Host>, retry: Retry)
    ensures multiset(SortByRetry(hosts, retry)) == multiset(hosts)
    ensures var sorted := SortByRetry(hosts, retry);
            forall i, j :: 0 <= i < j < |sorted| ==>
              var (a, b) := (sorted[i].endpointId, sorted[j].endpointId);
              a !in retry || (b in retry && (retry[a].0 < retry[b].0 || (retry[a].0 == retry[b].0 && retry[a].1 <= retry[b].1)))
  {
    SortOrders(hosts, retry);
    var sorted := SortByRetry(hosts, retry);
    assert forall i, j :: 0 <= i < j < |sorted| ==> AtMost(Key(retry, sorted[i]), Key(retry, sorted[j]));
  }

  lemma {:induction false} SortOrders(hosts: seq<Host>, retry: Retry)
    ensures Ordered(SortByRetry(hosts, retry), retry)
    ensures multiset(SortByRetry(hosts, retry)) == multiset(hosts)
  {
    if hosts != [] {
      SortOrders(hosts[1..], retry);
      InsertOrders(hosts[0], SortByRetry(hosts[1..], retry), retry);
      assert hosts == [hosts[0]] + hosts[1..];
    }
  }

  lemma {:induction false} InsertDistinct(h: Host, sorted: seq<Host>, retry: Retry)
    requires Distinct(sorted) && (forall x <- sorted :: x.endpointId != h.endpointId)
    ensures Distinct(Insert(h, sorted, retry))
    ensures forall x :: x in Insert(h, sorted, retry) <==> x == h || x in sorted
  {
    if sorted == [] || AtMost(Key(retry, h), Key(retry, sorted[0])) {
    } else {
      InsertDistinct(h, sorted[1..], retry);
      var rest := Insert(h, sorted[1..], retry);
      assert sorted == [sorted[0]] + sorted[1..];
      forall j | 0 <= j < |rest|
        ensures rest[j].endpointId != sorted[0].endpointId
      {
        assert rest[j] in rest;
      }
    }
  }

  lemma {:induction false} SortDistinct(hosts: seq<Host>, retry: Retry)
    requires Distinct(hosts)
    ensures Distinct(SortByRetry(hosts, retry))
    ensures forall x :: x in SortByRetry(hosts, retry) <==> x in hosts
  {
    if hosts != [] {
      var rest := SortByRetry(hosts[1..], retry);
      SortDistinct(hosts[1..], retry);
      assert hosts == [hosts[0]] + hosts[1..];
      InsertDistinct(hosts[0], rest, retry);
    }
  }

  lemma SortValidates(hosts: seq<Host>, retry: Retry)
    requires Validated(hosts)
    ensures Validated(SortByRetry(hosts, retry)) && Ordered(SortByRetry(hosts, retry), retry)
    ensures forall x :: x in SortByRetry(hosts, retry) <==> x in hosts
  {
    SortOrders(hosts, retry);
    SortDistinct(hosts, retry);
  }

  function Retained<V>(m: map<string, V>, keys: set<string>): map<string, V> {
    map e <- m | e in keys :: m[e]
  }

  // ----- absences -----

  function Misses(missing: map<string, nat>, e: string): nat {
    if e in missing then missing[e] else 0
  }

  /** One more miss, saturating at the counter's width. */
  function Bump(misses: nat): nat {
    if misses < MAX_COUNT then misses + 1 else MAX_COUNT
  }

  /** No counter runs ahead of what really happened. */
  ghost predicate Counted(missing: map<string, nat>, t: Trace) {
    forall e <- missing :: missing[e] <= Absences(t, e)
  }

  /** This check has just missed every endpoint outside `ids`, and no counter knows it yet. */
  ghost predicate Behind(missing: map<string, nat>, ids: set<string>, t: Trace) {
    forall e :: e !in ids ==> Misses(missing, e) + 1 <= Absences(t, e)
  }

  /** What pruning has done once all owned entries but `rest` were visited. */
  ghost predicate Pruned(rest: set<string>, ids: set<string>, machines: seq<Machine>, managed0: map<string, string>,
                         managed: map<string, string>, missing0: map<string, nat>, missing: map<string, nat>) {
    && rest <= managed.Keys <= managed0.Keys && missing.Keys <= managed.Keys
    && (forall e <- managed :: managed[e] == managed0[e] && (e in rest || Shows(machines, e, managed0[e])))
    && (forall e <- managed :: e !in rest ==> (e in missing <==> e !in ids))
    && (forall e <- rest :: Misses(missing, e) == Misses(missing0, e))
    && (forall e <- missing :: e in rest || missing[e] == Bump(Misses(missing0, e)))
  }

  ghost predicate Decided(e: string, ids: set<string>, machines: seq<Machine>, managed: map<string, string>,
                          managed': map<string, string>, missing: map<string, nat>, missing': map<string, nat>) {
    && e in managed && missing' - {e} == missing - {e}
    && managed' == (if e in managed' then managed else managed - {e})
    && (e in managed' ==> Shows(machines, e, managed[e]))
    && (e in missing' <==> e in managed' && e !in ids)
    && (e in missing' ==> missing'[e] == Bump(Misses(missing, e)))
  }

  lemma PrunedStep(rest: set<string>, ids: set<string>, machines: seq<Machine>, managed0: map<string, string>,
                   managed: map<string, string>, managed': map<string, string>,
                   missing0: map<string, nat>, missing: map<string, nat>, missing': map<string, nat>, e: string)
    requires Pruned(rest, ids, machines, managed0, managed, missing0, missing) && e in rest
    requires Decided(e, ids, machines, managed, managed', missing, missing')
    ensures Pruned(rest - {e}, ids, machines, managed0, managed', missing0, missing')
  {
    forall x | x in missing' && x != e
      ensures x in missing && missing[x] == missing'[x]
    {
      assert x in missing' - {e};
    }
    forall x | x in missing && x != e
      ensures x in missing' && missing[x] == missing'[x]
    {
      assert x in missing - {e};
    }
  }

  lemma PrunedStart(ids: set<string>, machines: seq<Machine>, managed: map<string, string>, missing: map<string, nat>)
    ensures Pruned(managed.Keys, ids, machines, managed, managed, missing, Retained(missing, managed.Keys))
  {
  }

  /** What the visit of an owned entry came to: given up because the listing no longer shows it, removed, or kept;
      an entry that is kept with three misses could not be removed. */
  ghost predicate Resolved(e: string, profile: string, kept: bool, machines: seq<Machine>, missing: map<string, nat>,
                           events: Trace) {
    && (!kept ==> !Shows(machines, e, profile) || Removed(e, profile) in events)
    && (e in missing && missing[e] >= 3 ==> RemoveFailed(e, profile) in events)
  }

  ghost predicate AllResolved(rest: set<string>, managed0: map<string, string>, managed: map<string, string>,
                              machines: seq<Machine>, missing: map<string, nat>, events: Trace) {
    forall e <- managed0 :: e in rest || Resolved(e, managed0[e], e in managed, machines, missing, events)
  }

  lemma ResolvedStep(rest: set<string>, managed0: map<string, string>, managed: map<string, string>,
                     managed': map<string, string>, machines: seq<Machine>, missing: map<string, nat>,
                     missing': map<string, nat>, start: Trace, before: Trace, after: Trace, e: string)
    requires AllResolved(rest, managed0, managed, machines, missing, Since(start, before))
    requires |start| <= |before| && before <= after && e in managed0
    requires Resolved(e, managed0[e], e in managed', machines, missing', Since(before, after))
    requires managed' - {e} == managed - {e} && missing' - {e} == missing - {e}
    ensures AllResolved(rest - {e}, managed0, managed', machines, missing', Since(start, after))
  {
    assert Since(start, after) == Since(start, before) + Since(before, after);
    forall x | x in managed0 && x != e && x !in rest
      ensures Resolved(x, managed0[x], x in managed', machines, missing', Since(start, after))
    {
      assert x in managed' <==> x in managed' - {e};
      assert x in managed <==> x in managed - {e};
      assert x in missing' ==> x in missing' - {e} && x in missing;
    }
  }

  lemma ResolvedSince(managed0: map<string, string>, managed: map<string, string>, machines: seq<Machine>,
                      missing: map<string, nat>, start: Trace, before: Trace, after: Trace)
    requires AllResolved({}, managed0, managed, machines, missing, Since(before, after))
    requires |start| <= |before| <= |after|
    ensures AllResolved({}, managed0, managed, machines, missing, Since(start, after))
  {
    SinceLonger(start, before, after);
  }

  lemma PrunedCounts(ids: set<string>, machines: seq<Machine>, managed0: map<string, string>,
                     managed: map<string, string>, missing0: map<string, nat>, missing: map<string, nat>, t: Trace)
    requires Pruned({}, ids, machines, managed0, managed, missing0, missing) && Behind(missing0, ids, t)
    ensures Counted(missing, t)
  {
  }

  // ----- one poll -----

  /** Does another report entry carry the same label? */
  function LabelCount(hosts: seq<Host>, lowered: string): nat {
    if hosts == [] then 0
    else LabelCount(hosts[..|hosts| - 1], lowered) + if Lowercase(hosts[|hosts| - 1].host) == lowered then 1 else 0
  }

  function Targets(machines: seq<Machine>): set<string> {
    set m <- machines :: Lowercase(m.target)
  }

  /** The host is in the registry already, under its own target or under its label. */
  predicate Present(host: Host, hosts: seq<Host>, targets: set<string>) {
    var lowered := Lowercase(host.host);
    || host.sshTarget in targets
    || (LabelCount(hosts, lowered) == 1 && !IsEndpoint(lowered) && "attached-" + lowered in targets)
  }

  /** Where a label occurs. */
  ghost function Positions(hosts: seq<Host>, lowered: string): set<int> {
    set i | 0 <= i < |hosts| && Lowercase(hosts[i].host) == lowered
  }

  lemma LastPosition(hosts: seq<Host>, n: nat, lowered: string)
    requires |hosts| == n + 1
    ensures n !in Positions(hosts[..n], lowered)
    ensures Positions(hosts, lowered) ==
              if Lowercase(hosts[n].host) == lowered then Positions(hosts[..n], lowered) + {n} else Positions(hosts[..n], lowered)
  {
    assert forall i :: 0 <= i < n ==> hosts[..n][i] == hosts[i];
  }

  /** How often a label occurs. */
  lemma {:induction false} LabelCountIs(hosts: seq<Host>, lowered: string)
    ensures LabelCount(hosts, lowered) == |set i | 0 <= i < |hosts| && Lowercase(hosts[i].host) == lowered|
  {
    if hosts == [] {
      assert Positions(hosts, lowered) == {};
    } else {
      LabelCountIs(hosts[..|hosts| - 1], lowered);
      LastPosition(hosts, |hosts| - 1, lowered);
    }
    assert LabelCount(hosts, lowered) == |Positions(hosts, lowered)|;
  }

  /** When a host counts as registered: under its own target, or under its label if no other reported host has that
      label and the label is no endpoint identity. */
  lemma PresentIff(host: Host, hosts: seq<Host>, machines: seq<Machine>)
    ensures Present(host, hosts, Targets(machines)) <==>
              || (exists m <- machines :: Lowercase(m.target) == host.sshTarget)
              || (&& |set i | 0 <= i < |hosts| && Lowercase(hosts[i].host) == Lowercase(host.host)| == 1
                  && !IsEndpoint(Lowercase(host.host))
                  && exists m <- machines :: Lowercase(m.target) == "attached-" + Lowercase(host.host))
  {
    LabelCountIs(hosts, Lowercase(host.host));
  }

  /** A host whose label is its own is shown under it; otherwise at most 60 characters of it, with the first eight of
      the endpoint. */
  lemma DisplayIs(host: Host, hosts: seq<Host>)
    requires IsEndpoint(host.endpointId)
    ensures |set i | 0 <= i < |hosts| && Lowercase(hosts[i].host) == Lowercase(host.host)| == 1 ==> Display(host, hosts) == host.host
    ensures |set i | 0 <= i < |hosts| && Lowercase(hosts[i].host) == Lowercase(host.host)| != 1 ==>
              exists n :: 0 <= n <= |host.host| && n <= 60 && (n == 60 || n == |host.host|)
                && Display(host, hosts) == host.host[..n] + " (" + host.endpointId[..8] + ")"
  {
    LabelCountIs(hosts, Lowercase(host.host));
    if LabelCount(hosts, Lowercase(host.host)) != 1 {
      var n := if |host.host| > 60 then 60 else |host.host|;
      assert Display(host, hosts) == host.host[..n] + " (" + host.endpointId[..8] + ")";
    }
  }

  lemma ListedIsPresent(host: Host, hosts: seq<Host>, machines: seq<Machine>)
    requires host.sshTarget == Target(host.endpointId) && Listed(machines, host.endpointId)
    ensures Present(host, hosts, Targets(machines))
  {
    var i :| 0 <= i < |machines| && Lowercase(machines[i].target) == Target(host.endpointId);
    assert machines[i] in machines;
  }

  function Display(host: Host, hosts: seq<Host>): string
    requires IsEndpoint(host.endpointId)
  {
    if LabelCount(hosts, Lowercase(host.host)) == 1 then host.host
    else (if |host.host| > 60 then host.host[..60] else host.host) + " (" + host.endpointId[..8] + ")"
  }

  function Power2(n: nat): nat {
    if n == 0 then 1 else 2 * Power2(n - 1)
  }

  /** The interval doubled for each failure so far, but for four at most, and capped. */
  function Backoff(failures: nat): (seconds: nat)
    ensures 30 <= seconds <= 300
    ensures seconds == Least(30 * Power2(Least(failures, 4)), 300)
  {
    if failures == 0 then 30 else if failures == 1 then 60 else if failures == 2 then 120
    else if failures == 3 then 240 else 300
  }

  function Least(a: nat, b: nat): nat {
    if a <= b then a else b
  }

  function Failures(retry: Retry, e: string): nat {
    if e in retry then retry[e].1 else 0
  }

  /** Hosts of the report that are neither known nor waiting for a retry. */
  function Untried(hosts: seq<Host>, seen: set<string>, retry: Retry): set<string> {
    Ids(hosts) - seen - retry.Keys
  }

  /** An attempt: when it was made and for which endpoint. */
  datatype Attempt = Attempt(endpoint: string, time: nat)

  /** The attempt did not come before the host's retry deadline. */
  ghost predicate Due(retry: Retry, a: Attempt) {
    a.endpoint in retry ==> retry[a.endpoint].0 <= a.time
  }

  /** The next attempt is at least one interval away. */
  ghost predicate Cooled(retry: Retry, a: Attempt) {
    a.endpoint in retry && a.time + 30 <= retry[a.endpoint].0
  }

  ghost function Endpoints(attempted: seq<Attempt>): set<string> {
    set a <- attempted :: a.endpoint
  }

  /** The attempts made so far lie in the past. */
  ghost predicate Past(attempted: seq<Attempt>, clock: nat) {
    forall a <- attempted :: a.time <= clock
  }

  ghost predicate UntriedFirst(attempted: seq<Attempt>, retry: Retry) {
    forall i, j :: 0 <= i < j < |attempted| && attempted[j].endpoint !in retry ==> attempted[i].endpoint !in retry
  }

  ghost predicate Firsts(attempted: seq<Attempt>, retry: Retry) {
    forall a <- attempted :: a.endpoint !in retry
  }

  /** The attempts made among the first `n` candidates. */
  ghost predicate Made(c: seq<Host>, n: nat, seen0: set<string>, retry0: Retry, retry: Retry, attempted: seq<Attempt>) {
    && n <= |c| && |attempted| <= 4 && retry.Keys == retry0.Keys + Endpoints(attempted)
    && (forall a <- attempted :: Due(retry0, a) && Cooled(retry, a) && a.endpoint !in seen0)
    && Endpoints(attempted) <= Ids(c[..n])
    && (forall i, j :: 0 <= i < j < |attempted| ==> attempted[i].endpoint != attempted[j].endpoint)
    && UntriedFirst(attempted, retry0)
  }

  /** The first `n` candidates were dealt with, or four untried ones were attempted. */
  ghost predicate Covered(c: seq<Host>, n: nat, retry0: Retry, seen: set<string>, retry: Retry, attempted: seq<Attempt>) {
    || (|attempted| == 4 && Firsts(attempted, retry0))
    || (forall k :: 0 <= k < n <= |c| ==> Handled(c[k], seen, retry))
  }

  /** Where the poll loop stands after its first `n` candidates. */
  ghost predicate Progress(c: seq<Host>, n: nat, seen0: set<string>, retry0: Retry,
                           seen: set<string>, retry: Retry, attempted: seq<Attempt>) {
    && seen0 <= seen
    && Made(c, n, seen0, retry0, retry, attempted)
    && Covered(c, n, retry0, seen, retry, attempted)
    && (forall k :: n <= k < |c| ==> Key(retry, c[k]) == Key(retry0, c[k]))
  }

  ghost predicate Handled(h: Host, seen: set<string>, retry: Retry) {
    h.endpointId in seen || h.endpointId in retry
  }

  /** Candidates sorted before an untried one are untried too. */
  lemma EarlierUntried(c: seq<Host>, n: nat, retry0: Retry, e: string)
    requires n < |c| && Ordered(c, retry0) && c[n].endpointId !in retry0 && e in Ids(c[..n])
    ensures e !in retry0
  {
    var h :| h in c[..n] && h.endpointId == e;
    var k :| 0 <= k < n && c[k] == h;
    assert AtMost(Key(retry0, c[k]), Key(retry0, c[n]));
  }

  lemma FirstIds(c: seq<Host>, n: nat)
    requires n < |c| && Distinct(c)
    ensures Ids(c[..n + 1]) == Ids(c[..n]) + {c[n].endpointId} && c[n].endpointId !in Ids(c[..n])
  {
    assert c[..n + 1] == c[..n] + [c[n]];
  }

  lemma MadeOne(c: seq<Host>, n: nat, seen0: set<string>, retry0: Retry, retry: Retry, attempted: seq<Attempt>,
                time: nat, retry': Retry)
    requires n < |c| && Ordered(c, retry0) && Distinct(c) && Key(retry, c[n]) == Key(retry0, c[n])
    requires Made(c, n, seen0, retry0, retry, attempted) && |attempted| < 4
    requires var e := c[n].endpointId;
             && e !in seen0 && Due(retry, Attempt(e, time))
             && Cooled(retry', Attempt(e, time)) && retry' == retry[e := retry'[e]]
    ensures Made(c, n + 1, seen0, retry0, retry', attempted + [Attempt(c[n].endpointId, time)])
  {
    var e := c[n].endpointId;
    var attempted' := attempted + [Attempt(e, time)];
    FirstIds(c, n);
    assert Endpoints(attempted') == Endpoints(attempted) + {e};
    forall i | 0 <= i < |attempted|
      ensures attempted[i].endpoint != e && (e !in retry0 ==> attempted[i].endpoint !in retry0)
    {
      assert attempted[i].endpoint in Endpoints(attempted);
      if e !in retry0 {
        EarlierUntried(c, n, retry0, attempted[i].endpoint);
      }
    }
  }

  /** Candidates passed over leave the record of attempts as it is. */
  lemma MadeNone(c: seq<Host>, n: nat, seen0: set<string>, retry0: Retry, retry: Retry, attempted: seq<Attempt>)
    requires n < |c| && Distinct(c) && Made(c, n, seen0, retry0, retry, attempted)
    ensures Made(c, n + 1, seen0, retry0, retry, attempted)
  {
    FirstIds(c, n);
  }

  lemma CoveredFull(c: seq<Host>, n: nat, seen0: set<string>, retry0: Retry, retry: Retry, attempted: seq<Attempt>)
    requires n < |c| && Ordered(c, retry0) && c[n].endpointId !in retry0
    requires Made(c, n, seen0, retry0, retry, attempted)
    ensures Firsts(attempted, retry0)
  {
    forall a | a in attempted
      ensures a.endpoint !in retry0
    {
      assert a.endpoint in Endpoints(attempted);
      EarlierUntried(c, n, retry0, a.endpoint);
    }
  }

  lemma ProgressStep(c: seq<Host>, n: nat, seen0: set<string>, retry0: Retry, seen: set<string>, retry: Retry,
                     attempted: seq<Attempt>, tried: bool, time: nat, seen': set<string>, retry': Retry)
    requires n < |c| && Progress(c, n, seen0, retry0, seen, retry, attempted) && Ordered(c, retry0) && Distinct(c)
    requires seen <= seen'
    requires var e := c[n].endpointId;
             if tried then
               && |attempted| < 4 && e !in seen && Due(retry, Attempt(e, time))
               && Cooled(retry', Attempt(e, time)) && retry' == retry[e := retry'[e]]
             else
               retry' == retry && (Handled(c[n], seen', retry) || |attempted| == 4)
    ensures Progress(c, n + 1, seen0, retry0, seen', retry',
                     if tried then attempted + [Attempt(c[n].endpointId, time)] else attempted)
  {
    if tried {
      MadeOne(c, n, seen0, retry0, retry, attempted, time, retry');
    } else {
      MadeNone(c, n, seen0, retry0, retry, attempted);
      assert Key(retry, c[n]) == Key(retry0, c[n]);
      if !Handled(c[n], seen', retry) {
        CoveredFull(c, n, seen0, retry0, retry, attempted);
      }
    }
  }

  lemma {:induction false} DistinctEndpoints(attempted: seq<Attempt>)
    requires forall i, j :: 0 <= i < j < |attempted| ==> attempted[i].endpoint != attempted[j].endpoint
    ensures |Endpoints(attempted)| == |attempted|
  {
    var all := Endpoints(attempted);
    if attempted == [] {
      assert all == {};
    } else {
      var front, last := attempted[..|attempted| - 1], attempted[|attempted| - 1];
      DistinctEndpoints(front);
      assert attempted == front + [last];
      assert all == (Endpoints(front)) + {last.endpoint};
    }
  }

  /** After a complete poll no host is left untried, or four fewer are and nothing was retried. */
  ghost predicate Advanced(hosts: seq<Host>, seen0: set<string>, retry0: Retry, seen: set<string>, retry: Retry,
                           attempted: seq<Attempt>) {
    var before, after := Untried(hosts, seen0, retry0), Untried(hosts, seen, retry);
    && seen0 <= seen && after <= before <= after + seen + Endpoints(attempted)
    && (after == {} || (|after| + 4 <= |before| && Firsts(attempted, retry0)))
  }

  /** All untried hosts were tried, or four of them were. */
  lemma ProgressEnds(c: seq<Host>, seen0: set<string>, retry0: Retry, seen: set<string>, retry: Retry, attempted: seq<Attempt>)
    requires Progress(c, |c|, seen0, retry0, seen, retry, attempted)
    ensures Advanced(c, seen0, retry0, seen, retry, attempted)
  {
    var before, after := Untried(c, seen0, retry0), Untried(c, seen, retry);
    assert c[..|c|] == c;
    assert after <= before <= after + seen + Endpoints(attempted);
    if e :| e in after {
      OverlookedFull(c, seen0, retry0, seen, retry, attempted, e);
      FourTried(c, seen0, retry0, seen, retry, attempted);
    }
  }

  /** A host left untried means that four untried ones were attempted. */
  lemma OverlookedFull(c: seq<Host>, seen0: set<string>, retry0: Retry, seen: set<string>, retry: Retry,
                       attempted: seq<Attempt>, e: string)
    requires Progress(c, |c|, seen0, retry0, seen, retry, attempted) && e in Untried(c, seen, retry)
    ensures |attempted| == 4 && Firsts(attempted, retry0)
  {
    var h :| h in c && h.endpointId == e;
    var k :| 0 <= k < |c| && c[k] == h;
    assert !Handled(c[k], seen, retry);
  }

  lemma FourTried(c: seq<Host>, seen0: set<string>, retry0: Retry, seen: set<string>, retry: Retry, attempted: seq<Attempt>)
    requires Made(c, |c|, seen0, retry0, retry, attempted) && seen0 <= seen
    requires |attempted| == 4 && Firsts(attempted, retry0)
    ensures |Untried(c, seen, retry)| + 4 <= |Untried(c, seen0, retry0)|
  {
    var before, after, tried := Untried(c, seen0, retry0), Untried(c, seen, retry), Endpoints(attempted);
    DistinctEndpoints(attempted);
    TriedWasUntried(c, seen0, retry0, retry, attempted);
    assert after <= before - tried;
    SubsetIsSmaller(after, before - tried);
  }

  lemma TriedWasUntried(c: seq<Host>, seen0: set<string>, retry0: Retry, retry: Retry, attempted: seq<Attempt>)
    requires Made(c, |c|, seen0, retry0, retry, attempted) && Firsts(attempted, retry0)
    ensures Endpoints(attempted) <= Untried(c, seen0, retry0)
  {
    assert c[..|c|] == c;
  }

  /** What an attempt that ran to its end did: it asked whether the host is ready and, exactly on a positive
      answer, added it under its display name; it took only an add that returned. */
  ghost predicate Followed(events: Trace, e: string, display: string, added: bool) {
    || (events == [Readiness(e, false)] && !added)
    || (BackedOff(events, e) && !added)
    || (|events| == 2 && events[0] == Readiness(e, true) && added
        && events[1].Added? && events[1].endpoint == e && events[1].display == display)
  }

  /** What each outcome of an attempt means. */
  ghost predicate AnsweredAs(r: Outcome<Option<string>>, events: Trace, e: string, display: string) {
    match r
    case Done(None) => events == [Readiness(e, false)]
    case Done(Some(profile)) => events == [Readiness(e, true), Added(e, profile, display)]
    case Failed => BackedOff(events, e)
    case Crashed => events != [] && Last(events) == Event.Crash
  }

  lemma AnswerFollows(r: Outcome<Option<string>>, events: Trace, e: string, display: string)
    requires AnsweredAs(r, events, e, display)
    ensures !r.Crashed? ==> Followed(events, e, display, r.Done? && r.value.Some?)
    ensures r.Failed? <==> BackedOff(events, e)
  {
  }

  /** The readiness source or the registry failed. */
  ghost predicate BackedOff(events: Trace, e: string) {
    events == [ReadinessFailed(e)] || events == [Readiness(e, true), AddFailed(e)]
  }

  lemma SinceOne(a: Trace, b: Trace)
    requires |b| == |a| + 1 && b[..|a|] == a
    ensures Since(a, b) == [b[|a|]]
  {
  }

  lemma SinceTwo(a: Trace, b: Trace, c: Trace)
    requires |b| == |a| + 1 && b[..|a|] == a && |c| == |b| + 1 && c[..|b|] == b
    ensures Since(a, c) == [b[|a|], c[|b|]]
  {
    assert c[|a|] == c[..|b|][|a|] == b[|a|];
  }

  /** `next` is `state` with the entry that the last event added. */
  ghost predicate Enters(state: Saved, next: Saved, e: string, display: string, t: Trace) {
    && t != [] && Last(t).Added? && Last(t).endpoint == e
    && next == Saved(state.seen + {e}, state.pending[e := display], state.managed[e := Last(t).profile])
  }

  /** What considering a host may save: nothing, that it was seen already, or its new entry. */
  ghost predicate Follows(state: Saved, next: Saved, host: Host, hosts: seq<Host>, targets: set<string>,
                          attempted: bool, t: Trace)
    requires IsEndpoint(host.endpointId)
  {
    || next == state
    || (next == state.(seen := state.seen + {host.endpointId}) && Present(host, hosts, targets))
    || (attempted && t != [] && Last(t) == SaveOk && Enters(state, next, host.endpointId, Display(host, hosts), Front(t)))
  }

  // ----- notices -----

  /** What announcing has done once all pending entries but `rest` were shown. */
  ghost predicate Announced(rest: set<string>, pending0: map<string, string>, pending: map<string, string>, events: Trace) {
    && pending.Keys <= pending0.Keys
    && (forall e <- pending0 :: e !in rest && e !in pending ==> Notified(e, pending0[e]) in events)
    && (forall e <- pending :: pending[e] == pending0[e] && (e in rest || NoticeDeferred(e, pending0[e]) in events))
  }

  /** The notice of one entry: accepted and saved, or put off. */
  ghost predicate ShownAs(events: Trace, e: string, display: string, accepted: bool) {
    events == if accepted then [Notified(e, display), SaveOk] else [NoticeDeferred(e, display)]
  }

  lemma AnnouncedStart(pending: map<string, string>, events: Trace)
    ensures Announced(pending.Keys, pending, pending, events)
  {
  }

  lemma AnnouncedStep(rest: set<string>, pending0: map<string, string>, pending: map<string, string>,
                      pending': map<string, string>, start: Trace, before: Trace, after: Trace, e: string)
    requires Announced(rest, pending0, pending, Since(start, before)) && e in rest && rest <= pending.Keys
    requires pending' == pending || pending' == pending - {e}
    requires |start| <= |before| && before <= after
    requires ShownAs(Since(before, after), e, pending[e], e !in pending')
    ensures Announced(rest - {e}, pending0, pending', Since(start, after)) && rest - {e} <= pending'.Keys
  {
    assert Since(start, after) == Since(start, before) + Since(before, after);
  }

  /** What is still pending was shown, and not accepted. */
  ghost predicate StillPending(pending: map<string, string>, events: Trace) {
    forall e <- pending :: NoticeDeferred(e, pending[e]) in events
  }

  lemma AllShown(start: Trace, before: Trace, after: Trace, pending0: map<string, string>, pending: map<string, string>)
    requires |start| <= |before| <= |after| && Announced({}, pending0, pending, Since(before, after))
    ensures StillPending(pending, Since(start, after))
  {
    SinceLonger(start, before, after);
  }

  lemma SinceLonger(a: Trace, b: Trace, t: Trace)
    requires |a| <= |b| <= |t|
    ensures forall v <- Since(b, t) :: v in Since(a, t)
  {
    assert Since(a, t)[|b| - |a|..] == Since(b, t);
  }

  /** How the counters stand while a check is under way, before it counts. */
  ghost predicate Expecting(d: Discovered, last: Option<string>, missing: map<string, nat>, t: Trace) {
    d.complete ==> if last == Some(d.generation) then Counted(missing, t) else Behind(missing, Ids(d.hosts), t)
  }

  /** What a check that ran to its end has counted.  An incomplete report forgets every absence, one of the same
      generation changes none; otherwise the counters are those of the owned entries that are not reported, each one
      higher, the latest listing shows every entry still owned, and one with three misses could not be removed. */
  ghost predicate Tallied(d: Discovered, last: Option<string>, managed: map<string, string>,
                          missing0: map<string, nat>, missing: map<string, nat>, before: Trace, after: Trace) {
    if !d.complete then missing == map[]
    else if last == Some(d.generation) then missing == missing0
    else
      && missing.Keys == managed.Keys - Ids(d.hosts)
      && (forall e <- missing ::
            && missing[e] == Bump(Misses(missing0, e))
            && (missing[e] >= 3 ==> RemoveFailed(e, managed[e]) in Since(before, after)))
      && (forall e <- managed :: Shows(LastListing(after), e, managed[e]))
  }

  lemma PrunedTallies(d: Discovered, last: Option<string>, managed0: map<string, string>, managed: map<string, string>,
                      missing0: map<string, nat>, missing: map<string, nat>, before: Trace, after: Trace)
    requires d.complete && last != Some(d.generation)
    requires Pruned({}, Ids(d.hosts), LastListing(after), managed0, managed, missing0, missing)
    requires AllResolved({}, managed0, managed, LastListing(after), missing, Since(before, after))
    ensures Tallied(d, last, managed, missing0, missing, before, after)
  {
    forall e | e in missing
      ensures missing[e] >= 3 ==> RemoveFailed(e, managed[e]) in Since(before, after)
    {
      assert Resolved(e, managed0[e], e in managed, LastListing(after), missing, Since(before, after));
    }
  }

  lemma TalliedAround(d: Discovered, last: Option<string>, managed: map<string, string>, missing0: map<string, nat>,
                      missing: map<string, nat>, start: Trace, before: Trace, after: Trace)
    requires Tallied(d, last, managed, missing0, missing, before, after) && |start| <= |before| <= |after|
    ensures Tallied(d, last, managed, missing0, missing, start, after + [CheckEnds(d.generation)])
  {
    var ended := after + [CheckEnds(d.generation)];
    Appended(after, CheckEnds(d.generation));
    SinceLonger(start, before, after);
    assert Since(start, ended) == Since(start, after) + [CheckEnds(d.generation)];
  }

  class Reconciler {
    const world: World
    var retry: Retry
    var missing: map<string, nat>
    var lastGeneration: Option<string>

    constructor (world: World)
      ensures this.world == world && retry == map[] && missing == map[] && lastGeneration == None
    {
      this.world, retry, missing, lastGeneration := world, map[], map[], None;
    }

    method ResetAbsences()
      modifies this`missing
      ensures missing == map[]
    {
      missing := map[];
    }

    /** Asks whether the host is ready and adds it if so: None means not ready, Failed that either call failed. */
    method AskAndAdd(host: Host, display: string, state: Saved) returns (r: Outcome<Option<string>>)
      requires world.Sound() && state == world.saved && host.endpointId !in state.seen
      requires !Listed(LastListing(world.trace), host.endpointId)
      modifies world`trace
      ensures SameView(old(world.trace), world.trace)
      ensures !(r.Done? && r.value.Some?) ==> world.Sound()
      ensures AnsweredAs(r, Since(old(world.trace), world.trace), host.endpointId, display)
      ensures r.Done? && r.value.Some? ==>
                var next := Saved(state.seen + {host.endpointId}, state.pending[host.endpointId := display],
                                  state.managed[host.endpointId := r.value.value]);
                world.Writable(next) && Enters(state, next, host.endpointId, display, world.trace)
    {
      var e := host.endpointId;
      var ready := world.Ready(host);
      SinceOne(old(world.trace), world.trace);
      if !ready.Done? {
        return if ready.Failed? then Failed else Crashed;
      }
      if !ready.value {
        return Done(None);
      }
      ghost var asked := world.trace;
      Appended(old(world.trace), Readiness(e, true));
      var profile := world.Add(host, display);
      SinceTwo(old(world.trace), asked, world.trace);
      if !profile.Done? {
        return if profile.Failed? then Failed else Crashed;
      }
      AddKeeps(state, asked, e, profile.value, display);
      Appended(asked, Added(e, profile.value, display));
      return Done(Some(profile.value));
    }

    /** One failure more: the next attempt is put off. */
    method BackOff(e: string, failures: nat) returns (ghost entry: (nat, nat))
      modifies this`retry, world`clock
      ensures old(world.clock) <= world.clock
      ensures entry == (world.clock + Backoff(failures), if failures < MAX_COUNT then failures + 1 else MAX_COUNT)
      ensures retry == old(retry)[e := entry]
    {
      var now := world.Now();
      entry := (now + Backoff(failures), if failures < MAX_COUNT then failures + 1 else MAX_COUNT);
      retry := retry[e := (now + Backoff(failures), if failures < MAX_COUNT then failures + 1 else MAX_COUNT)];
    }

    /** One attempt to make a host ready and add it. */
    method TryHost(host: Host, display: string, state: Saved)
        returns (r: Outcome<Option<Saved>>, time: nat, ghost entry: (nat, nat))
      requires world.Sound() && state == world.saved && host.endpointId !in state.seen
      requires !Listed(LastListing(world.trace), host.endpointId)
      requires host.endpointId in retry ==> retry[host.endpointId].0 <= world.clock
      modifies this`retry, world
      ensures world.saved == state && SameView(old(world.trace), world.trace)
      ensures r.Done? && r.value.Some? ==>
                && world.Writable(r.value.value)
                && Enters(state, r.value.value, host.endpointId, display, world.trace)
      ensures !(r.Done? && r.value.Some?) ==> world.Sound()
      ensures old(world.clock) <= time <= world.clock
      ensures !r.Failed?
      ensures r.Done? ==> Followed(Since(old(world.trace), world.trace), host.endpointId, display, r.value.Some?)
      ensures var failures := Failures(old(retry), host.endpointId);
              if BackedOff(Since(old(world.trace), world.trace), host.endpointId)
              then time + Backoff(failures) <= entry.0 <= world.clock + Backoff(failures)
                   && entry.1 == (if failures < MAX_COUNT then failures + 1 else MAX_COUNT)
              else entry == (time + 30, failures)
      ensures retry == old(retry)[host.endpointId := entry]
    {
      var e := host.endpointId;
      var failures := Failures(retry, e);
      time := world.Now();
      entry := (time + INTERVAL, failures);
      retry := retry[e := (time + INTERVAL, failures)];
      var result := AskAndAdd(host, display, state);
      AnswerFollows(result, Since(old(world.trace), world.trace), e, display);
      if result.Crashed? {
        return Crashed, time, entry;
      }
      if result.Failed? {
        entry := BackOff(e, failures);
        return Done(None), time, entry;
      }
      if result.value.None? {
        return Done(None), time, entry;
      }
      return Done(Some(Saved(state.seen + {e}, state.pending[e := display], state.managed[e := result.value.value]))),
             time, entry;
    }

    /** One round of the poll loop: at most one attempt, and the outcome is saved. */
    method Consider(host: Host, hosts: seq<Host>, targets: set<string>, state: Saved, attempts: nat)
        returns (r: Outcome<Saved>, attempted: bool, time: nat)
      requires IsEndpoint(host.endpointId) && host.sshTarget == Target(host.endpointId)
      requires world.Sound() && state == world.saved && targets == Targets(LastListing(world.trace))
      modifies this`retry, world
      ensures world.Sound() && SameView(old(world.trace), world.trace) && old(world.clock) <= world.clock
      ensures r.Done? ==>
                && r.value == world.saved && state.seen <= r.value.seen
                && Follows(state, r.value, host, hosts, targets, attempted, world.trace)
      ensures attempted ==>
                && attempts < 4 && host.endpointId !in state.seen && time <= world.clock
                && (host.endpointId in old(retry) ==> old(retry)[host.endpointId].0 <= time)
      ensures if attempted then host.endpointId in retry && retry == old(retry)[host.endpointId := retry[host.endpointId]]
                                && retry[host.endpointId].0 >= time + INTERVAL
              else retry == old(retry)
      ensures r.Done? && host.endpointId !in world.saved.seen && host.endpointId !in retry ==> attempts >= 4
      ensures r.Done? && !attempted && host.endpointId !in world.saved.seen && attempts < 4 ==>
                host.endpointId in old(retry) && old(retry)[host.endpointId].0 > old(world.clock)
      ensures Present(host, hosts, targets) ==> !attempted && (r.Done? ==> host.endpointId in world.saved.seen)
    {
      var e := host.endpointId;
      if e in state.seen {
        return Done(state), false, 0;
      }
      var next := state.(seen := state.seen + {e});
      attempted, time := false, 0;
      if Present(host, hosts, targets) {
        SeenKeeps(state, world.trace, e);
      } else {
        if attempts >= MAX_ATTEMPTS {
          return Done(state), false, 0;
        }
        if e in retry {
          var now := world.Now();
          if retry[e].0 > now {
            return Done(state), false, 0;
          }
        }
        if Listed(LastListing(world.trace), e) {
          ListedIsPresent(host, hosts, LastListing(world.trace));
        }
        var tried, at, _ := TryHost(host, Display(host, hosts), state);
        attempted, time := true, at;
        if tried.Crashed? {
          return Crashed, true, at;
        }
        if tried.value.None? {
          return Done(state), true, at;
        }
        next := tried.value.value;
      }
      ghost var before := world.trace;
      r := SaveNext(next);
      Appended(before, Last(world.trace));
    }

    /** Shows the notice of a pending entry. */
    method ShowNotice(e: string, current: Saved) returns (r: Outcome<bool>)
      requires world.Sound() && current == world.saved && e in current.pending
      modifies world`trace
      ensures if r == Done(true) then world.Writable(current.(pending := current.pending - {e})) else world.Sound()
      ensures SameView(old(world.trace), world.trace)
      ensures world.trace == old(world.trace) + [if r == Done(true) then Notified(e, current.pending[e])
                                                 else if r.Crashed? then Event.Crash else NoticeDeferred(e, current.pending[e])]
    {
      r := world.Notify(e, current.pending[e]);
      if r == Done(true) {
        NotifyKeeps(current, old(world.trace), e);
      }
    }

    /** Announces one pending entry; one that is accepted is no longer pending, and that is saved. */
    method AnnounceOne(e: string, current: Saved) returns (r: Outcome<Saved>)
      requires world.Sound() && current == world.saved && e in current.pending
      modifies world
      ensures world.Sound() && SameChecks(old(world.trace), world.trace) && world.clock == old(world.clock)
      ensures world.saved == current || world.saved == current.(pending := current.pending - {e})
      ensures old(world.trace) <= world.trace
      ensures r.Done? ==>
                && r.value == world.saved
                && ShownAs(Since(old(world.trace), world.trace), e, current.pending[e], e !in r.value.pending)
    {
      var accepted := ShowNotice(e, current);
      ghost var before := world.trace;
      if accepted == Done(true) {
        r := SaveNext(current.(pending := current.pending - {e}));
        SinceTwo(old(world.trace), before, world.trace);
      } else {
        SinceOne(old(world.trace), world.trace);
        r := if accepted.Crashed? then Crashed else Done(current);
      }
    }

    /** Saves the next state. */
    method SaveNext(next: Saved) returns (r: Outcome<Saved>)
      requires world.Writable(next)
      modifies world`saved, world`trace
      ensures world.Sound() && SameView(old(world.trace), world.trace)
      ensures world.saved == next || (world.saved == old(world.saved) && !r.Done?)
      ensures world.trace == old(world.trace) + [if r.Done? then SaveOk else if r.Failed? then SaveFailed else Event.Crash]
      ensures r.Done? ==> r.value == next
    {
      var stored := world.Save(next);
      r := if stored.Done? then Done(next) else if stored.Failed? then Failed else Crashed;
    }

    /** One round of the loop over pending entries, with the progress it makes. */
    method AnnounceNext(e: string, current: Saved, ghost rest: set<string>, ghost pending0: map<string, string>,
                        ghost start: Trace) returns (r: Outcome<Saved>)
      requires world.Sound() && current == world.saved && e in rest && rest <= current.pending.Keys
      requires |start| <= |world.trace| && Announced(rest, pending0, current.pending, Since(start, world.trace))
      modifies world
      ensures world.Sound() && SameChecks(old(world.trace), world.trace) && world.clock == old(world.clock)
      ensures world.saved.seen == current.seen && world.saved.managed == current.managed
      ensures r.Done? ==>
                && r.value == world.saved && rest - {e} <= r.value.pending.Keys
                && Announced(rest - {e}, pending0, r.value.pending, Since(start, world.trace))
    {
      ghost var before := world.trace;
      r := AnnounceOne(e, current);
      if r.Done? {
        AnnouncedStep(rest, pending0, current.pending, r.value.pending, start, before, world.trace, e);
      }
    }

    /** Announces what was added: every pending entry is shown once, and exactly those not accepted stay pending. */
    method Announce(state: Saved) returns (r: Outcome<()>)
      requires world.Sound() && state == world.saved
      modifies world
      ensures world.Sound() && SameChecks(old(world.trace), world.trace)
      ensures world.saved.seen == state.seen && world.saved.managed == state.managed
      ensures world.clock == old(world.clock)
      ensures r.Done? ==> Announced({}, state.pending, world.saved.pending, Since(old(world.trace), world.trace))
    {
      var current, rest := state, state.pending.Keys;
      ghost var start := world.trace;
      AnnouncedStart(state.pending, Since(start, start));
      while rest != {}
        invariant rest <= current.pending.Keys && current == world.saved && world.Sound()
        invariant SameChecks(old(world.trace), world.trace) && world.clock == old(world.clock)
        invariant current.seen == state.seen && current.managed == state.managed
        invariant Announced(rest, state.pending, current.pending, Since(start, world.trace))
      {
        var e :| e in rest;
        var next := AnnounceNext(e, current, rest, state.pending, start);
        if !next.Done? {
          return if next.Failed? then Failed else Crashed;
        }
        current, rest := next.value, rest - {e};
      }
      return Done(());
    }

    /** The notices of a poll: what is pending after them was shown and not accepted. */
    method AnnounceLast(state: Saved, ghost start: Trace) returns (r: Outcome<()>)
      requires world.Sound() && state == world.saved && |start| <= |world.trace|
      modifies world
      ensures world.Sound() && SameChecks(old(world.trace), world.trace)
      ensures world.saved.seen == state.seen && world.clock == old(world.clock)
      ensures r.Done? ==> StillPending(world.saved.pending, Since(start, world.trace))
    {
      ghost var before := world.trace;
      r := Announce(state);
      if r.Done? {
        AllShown(start, before, world.trace, state.pending, world.saved.pending);
      }
    }

    /** One round of the loop, with the progress it makes. */
    method SweepOne(candidates: seq<Host>, n: nat, hosts: seq<Host>, machines: seq<Machine>, state: Saved, attempts: nat,
                    ghost seen0: set<string>, ghost retry0: Retry, ghost before: seq<Attempt>)
        returns (r: Outcome<Saved>, tried: bool, ghost seen: set<string>, ghost attempted: seq<Attempt>)
      requires n < |candidates| && Validated(candidates) && Ordered(candidates, retry0) && attempts == |before|
      requires world.Sound() && state == world.saved && LastListing(world.trace) == machines
      requires Progress(candidates, n, seen0, retry0, state.seen, retry, before) && Past(before, world.clock)
      modifies this`retry, world
      ensures world.Sound() && SameView(old(world.trace), world.trace) && old(world.clock) <= world.clock
      ensures Progress(candidates, n + 1, seen0, retry0, seen, retry, attempted) && Past(attempted, world.clock)
      ensures |attempted| == attempts + if tried then 1 else 0
      ensures r.Done? ==> r.value == world.saved && seen == r.value.seen
    {
      var time;
      ghost var retry1 := retry;
      r, tried, time := Consider(candidates[n], hosts, Targets(machines), state, attempts);
      seen := if r.Done? then r.value.seen else state.seen + {candidates[n].endpointId};
      ProgressStep(candidates, n, seen0, retry0, state.seen, retry1, before, tried, time, seen, retry);
      attempted := if tried then before + [Attempt(candidates[n].endpointId, time)] else before;
    }

    /** The poll loop over the sorted candidates; `n` of them were reached. */
    method Sweep(candidates: seq<Host>, hosts: seq<Host>, machines: seq<Machine>, initial: Saved)
        returns (r: Outcome<Saved>, ghost n: nat, ghost seen: set<string>, ghost attempted: seq<Attempt>)
      requires Validated(candidates) && Ordered(candidates, retry)
      requires world.Sound() && initial == world.saved && LastListing(world.trace) == machines
      modifies this`retry, world
      ensures world.Sound() && SameChecks(old(world.trace), world.trace) && old(world.clock) <= world.clock
      ensures Progress(candidates, n, initial.seen, old(retry), seen, retry, attempted) && Past(attempted, world.clock)
      ensures r.Done? ==> r.value == world.saved && n == |candidates| && seen == r.value.seen
    {
      var state, attempts, i := initial, 0, 0;
      n, seen, attempted := 0, initial.seen, [];
      while i < |candidates|
        invariant i == n <= |candidates| && attempts == |attempted| && seen == state.seen
        invariant state == world.saved && world.Sound() && SameChecks(old(world.trace), world.trace)
        invariant LastListing(world.trace) == machines && old(world.clock) <= world.clock
        invariant Progress(candidates, n, initial.seen, old(retry), seen, retry, attempted) && Past(attempted, world.clock)
      {
        var next, tried, later, more :=
          SweepOne(candidates, i, hosts, machines, state, attempts, initial.seen, old(retry), attempted);
        seen, attempted := later, more;
        i, n := i + 1, n + 1;
        if !next.Done? {
          return next, n, seen, attempted;
        }
        state, attempts := next.value, attempts + if tried then 1 else 0;
      }
      return Done(state), n, seen, attempted;
    }

    /** At most four attempts, none before its deadline, untried hosts first; a poll that completes
        leaves no untried host or four fewer of them. */
    method Poll(hosts: seq<Host>) returns (r: Outcome<()>, ghost attempted: seq<Attempt>)
      requires Validated(hosts) && world.Sound()
      modifies this`retry, world
      ensures world.Sound() && SameChecks(old(world.trace), world.trace) && old(world.clock) <= world.clock
      ensures |attempted| <= 4
      ensures forall a <- attempted :: a.endpoint in Ids(hosts) && Due(old(retry), a) && Cooled(retry, a)
      ensures Past(attempted, world.clock)
      ensures UntriedFirst(attempted, old(retry))
      ensures r.Done? ==>
                && Advanced(hosts, old(world.saved.seen), old(retry), world.saved.seen, retry, attempted)
                && StillPending(world.saved.pending, Since(old(world.trace), world.trace))
    {
      attempted := [];
      var state := world.Load();
      if !state.Done? {
        return if state.Failed? then Failed else Crashed, [];
      }
      var machines := world.Machines();
      if !machines.Done? {
        return if machines.Failed? then Failed else Crashed, [];
      }
      var swept;
      swept, attempted := PollListed(hosts, machines.value, state.value);
      if !swept.Done? {
        return if swept.Failed? then Failed else Crashed, attempted;
      }
      r := AnnounceLast(swept.value, old(world.trace));
    }

    /** The attempts of a poll, once the state is loaded and the registry listed. */
    method PollListed(hosts: seq<Host>, machines: seq<Machine>, state: Saved)
        returns (r: Outcome<Saved>, ghost attempted: seq<Attempt>)
      requires Validated(hosts) && world.Sound() && state == world.saved && LastListing(world.trace) == machines
      modifies this`retry, world
      ensures world.Sound() && SameChecks(old(world.trace), world.trace) && old(world.clock) <= world.clock
      ensures |attempted| <= 4
      ensures forall a <- attempted :: a.endpoint in Ids(hosts) && Due(old(retry), a) && Cooled(retry, a)
      ensures Past(attempted, world.clock) && UntriedFirst(attempted, old(retry))
      ensures r.Done? ==>
                && r.value == world.saved
                && Advanced(hosts, state.seen, old(retry), world.saved.seen, retry, attempted)
    {
      retry := Retained(retry, Ids(hosts));
      ghost var retry0 := retry;
      var candidates := SortByRetry(hosts, retry);
      SortValidates(hosts, retry);
      ghost var n, seen;
      r, n, seen, attempted := Sweep(candidates, hosts, machines, state);
      PollAttempts(hosts, candidates, n, state.seen, old(retry), retry0, seen, retry, attempted);
      if r.Done? {
        PollAdvances(hosts, candidates, state.seen, old(retry), retry0, seen, retry, attempted);
      }
    }

    // ----- one prune -----

    /** Removes an owned profile; if that fails, everything stays as it is. */
    method RemoveOwned(e: string, profile: string, state: Saved) returns (r: Outcome<Saved>)
      requires world.Sound() && state == world.saved && e in state.managed && profile == state.managed[e]
      requires Shows(LastListing(world.trace), e, profile) && Absences(world.trace, e) >= 3
      modifies this`missing, this`retry, world
      ensures world.Sound() && SameView(old(world.trace), world.trace) && old(world.trace) <= world.trace
      ensures r.Done? ==> r.value == world.saved
      ensures r.Done? && r.value != state ==>
                && Since(old(world.trace), world.trace) == [Removed(e, profile), SaveOk]
                && r.value == Saved(state.seen - {e}, state.pending - {e}, state.managed - {e})
                && missing == old(missing) - {e} && retry == old(retry) - {e}
      ensures r.Done? && r.value == state ==>
                Since(old(world.trace), world.trace) == [RemoveFailed(e, profile)] && missing == old(missing) && retry == old(retry)
    {
      ghost var before := world.trace;
      var removed := world.Remove(e, profile);
      if !removed.Done? {
        SinceOne(before, world.trace);
        return if removed.Failed? then Done(state) else Crashed;
      }
      RemoveKeeps(state, before, e);
      ghost var after := world.trace;
      missing := missing - {e};
      retry := retry - {e};
      r := SaveNext(Saved(state.seen - {e}, state.pending - {e}, state.managed - {e}));
      SinceTwo(before, after, world.trace);
    }

    /** Decides about one owned entry: dropped when the user removed or replaced its profile, removed
        after three misses, otherwise kept and counted. */
    method PruneOne(e: string, hosts: seq<Host>, machines: seq<Machine>, state: Saved) returns (r: Outcome<Saved>)
      requires world.Sound() && state == world.saved && LastListing(world.trace) == machines && e in state.managed
      requires e !in Ids(hosts) ==> Misses(missing, e) + 1 <= Absences(world.trace, e)
      modifies this`missing, this`retry, world
      ensures world.Sound() && SameView(old(world.trace), world.trace) && old(world.trace) <= world.trace
      ensures r.Done? ==>
                && r.value == world.saved
                && Decided(e, Ids(hosts), machines, state.managed, r.value.managed, old(missing), missing)
                && r.value.pending == (if e in r.value.managed then state.pending else state.pending - {e})
                && r.value.seen == (if Removed(e, state.managed[e]) in Since(old(world.trace), world.trace)
                                    then state.seen - {e} else state.seen)
                && (e !in r.value.managed <==> !Shows(machines, e, state.managed[e])
                                               || Removed(e, state.managed[e]) in Since(old(world.trace), world.trace))
      ensures r.Done? ==> retry == if Removed(e, state.managed[e]) in Since(old(world.trace), world.trace)
                                   then old(retry) - {e} else old(retry)
      ensures r.Done? && e !in Ids(hosts) && Shows(machines, e, state.managed[e]) ==>
                (Misses(old(missing), e) >= 2 <==>
                   || Removed(e, state.managed[e]) in Since(old(world.trace), world.trace)
                   || RemoveFailed(e, state.managed[e]) in Since(old(world.trace), world.trace))
    {
      var profile := state.managed[e];
      if !Shows(machines, e, profile) {
        missing := missing - {e};
        var next := state.(managed := state.managed - {e}, pending := state.pending - {e});
        DropKeeps(state, world.trace, e);
        r := SaveNext(next);
        return;
      }
      if e in Ids(hosts) {
        missing := missing - {e};
        return Done(state);
      }
      var misses := Bump(Misses(missing, e));
      missing := missing[e := misses];
      if misses < 3 {
        return Done(state);
      }
      r := RemoveOwned(e, profile, state);
    }

    /** One round of the loop over owned entries, with the progress it makes. */
    method PruneNext(e: string, hosts: seq<Host>, machines: seq<Machine>, state: Saved,
                     ghost rest: set<string>, ghost managed: map<string, string>, ghost missing0: map<string, nat>)
        returns (r: Outcome<Saved>)
      requires world.Sound() && state == world.saved && LastListing(world.trace) == machines && e in rest
      requires Behind(missing0, Ids(hosts), world.trace)
      requires Pruned(rest, Ids(hosts), machines, managed, state.managed, missing0, missing)
      modifies this`missing, this`retry, world
      ensures world.Sound() && SameView(old(world.trace), world.trace) && old(world.trace) <= world.trace
      ensures r.Done? ==>
                && r.value == world.saved
                && Pruned(rest - {e}, Ids(hosts), machines, managed, r.value.managed, missing0, missing)
                && Resolved(e, managed[e], e in r.value.managed, machines, missing, Since(old(world.trace), world.trace))
                && r.value.managed - {e} == state.managed - {e} && missing - {e} == old(missing) - {e}
                && Behind(missing0, Ids(hosts), world.trace)
    {
      ghost var missing1 := missing;
      r := PruneOne(e, hosts, machines, state);
      if r.Done? {
        CountsKeep(missing0, Ids(hosts), old(world.trace), world.trace);
        PrunedStep(rest, Ids(hosts), machines, managed, state.managed, r.value.managed, missing0, missing1, missing, e);
      }
    }

    /** The loop over owned entries, once the state is loaded and the registry listed. */
    method PruneListed(hosts: seq<Host>, machines: seq<Machine>, initial: Saved) returns (r: Outcome<()>)
      requires world.Sound() && initial == world.saved && LastListing(world.trace) == machines
      requires Behind(missing, Ids(hosts), world.trace)
      modifies this`missing, this`retry, world
      ensures world.Sound() && SameView(old(world.trace), world.trace)
      ensures r.Done? ==>
                && Counted(missing, world.trace)
                && Pruned({}, Ids(hosts), machines, initial.managed, world.saved.managed, old(missing), missing)
                && AllResolved({}, initial.managed, world.saved.managed, machines, missing,
                               Since(old(world.trace), world.trace))
    {
      ghost var missing0, ids := missing, Ids(hosts);
      var state, rest := initial, initial.managed.Keys;
      missing := Retained(missing, rest);
      PrunedStart(ids, machines, initial.managed, missing0);
      while rest != {}
        invariant world.Sound() && state == world.saved && SameView(old(world.trace), world.trace)
        invariant Behind(missing0, ids, world.trace)
        invariant Pruned(rest, ids, machines, initial.managed, state.managed, missing0, missing)
        invariant AllResolved(rest, initial.managed, state.managed, machines, missing, Since(old(world.trace), world.trace))
      {
        var e :| e in rest;
        ghost var before, managed1, missing1 := world.trace, state.managed, missing;
        var next := PruneNext(e, hosts, machines, state, rest, initial.managed, missing0);
        if !next.Done? {
          return if next.Failed? then Failed else Crashed;
        }
        state := next.value;
        ResolvedStep(rest, initial.managed, managed1, state.managed, machines, missing1, missing,
                     old(world.trace), before, world.trace, e);
        rest := rest - {e};
      }
      PrunedCounts(ids, machines, initial.managed, state.managed, missing0, missing, world.trace);
      return Done(());
    }

    /** One pruning: see `Pruned` for the counters and what stays owned, and `AllResolved` for the removals. */
    method Prune(hosts: seq<Host>) returns (r: Outcome<()>)
      requires world.Sound()
      requires Behind(missing, Ids(hosts), world.trace)
      modifies this`missing, this`retry, world
      ensures world.Sound() && SameChecks(old(world.trace), world.trace)
      ensures r.Done? ==>
                && Pruned({}, Ids(hosts), LastListing(world.trace), old(world.saved.managed), world.saved.managed,
                          old(missing), missing)
                && AllResolved({}, old(world.saved.managed), world.saved.managed, LastListing(world.trace), missing,
                               Since(old(world.trace), world.trace))
                && Counted(missing, world.trace)
    {
      var state := world.Load();
      if !state.Done? {
        return if state.Failed? then Failed else Crashed;
      }
      var machines := world.Machines();
      if !machines.Done? {
        return if machines.Failed? then Failed else Crashed;
      }
      ghost var missing0, before := missing, world.trace;
      CountsKeep(missing, Ids(hosts), old(world.trace), before);
      r := PruneListed(hosts, machines.value, state.value);
      if r.Done? {
        ResolvedSince(state.value.managed, world.saved.managed, machines.value, missing, old(world.trace), before, world.trace);
      }
    }

    // ----- one check -----

    /** What holds between checks. */
    ghost predicate Consistent()
      reads this, world
    {
      world.Sound() && lastGeneration == LastGeneration(world.trace) && Counted(missing, world.trace)
    }

    /** A check of a report; it counts an absence only when the generation is new, and then it counts every one. */
    method Check(d: Discovered) returns (r: Outcome<()>)
      requires Validated(d.hosts) && Consistent()
      modifies this, world
      ensures world.Sound() && lastGeneration == LastGeneration(world.trace)
      ensures r.Done? ==> Consistent() && lastGeneration == Some(d.generation)
      ensures r.Done? ==> Tallied(d, old(lastGeneration), world.saved.managed, old(missing), missing, old(world.trace), world.trace)
      ensures !r.Done? ==> lastGeneration == old(lastGeneration)
    {
      Begin(d);
      r := PollChecked(d);
      if r.Done? {
        ghost var polled := world.trace;
        r := Absent(d);
        if r.Done? {
          ghost var absent := world.trace;
          End(d.generation);
          TalliedAround(d, old(lastGeneration), world.saved.managed, old(missing), missing, old(world.trace), polled, absent);
        }
      }
    }

    method PollChecked(d: Discovered) returns (r: Outcome<()>)
      requires Validated(d.hosts) && world.Sound() && lastGeneration == LastGeneration(world.trace)
      requires Expecting(d, lastGeneration, missing, world.trace)
      modifies this`retry, world
      ensures world.Sound() && lastGeneration == LastGeneration(world.trace) && |old(world.trace)| <= |world.trace|
      ensures Expecting(d, lastGeneration, missing, world.trace)
    {
      ghost var begun := world.trace;
      var polled, _ := Poll(d.hosts);
      r := polled;
      CountsKeep(missing, Ids(d.hosts), begun, world.trace);
      SameReadings(begun, world.trace);
    }

    method Begin(d: Discovered)
      requires Consistent()
      modifies world
      ensures world.Sound() && lastGeneration == LastGeneration(world.trace) && |old(world.trace)| <= |world.trace|
      ensures Expecting(d, lastGeneration, missing, world.trace)
    {
      CheckCounts(missing, world.trace, d);
      world.Record(CheckBegins(d.generation, d.complete, Ids(d.hosts)));
    }

    method End(generation: string)
      requires world.Sound() && Counted(missing, world.trace)
      modifies this`lastGeneration, world`trace
      ensures Consistent() && lastGeneration == Some(generation)
      ensures world.trace == old(world.trace) + [CheckEnds(generation)]
    {
      lastGeneration := Some(generation);
      EndCounts(missing, world.trace, generation);
      world.Record(CheckEnds(generation));
    }

    /** The second half of a check. */
    method Absent(d: Discovered) returns (r: Outcome<()>)
      requires world.Sound() && Expecting(d, lastGeneration, missing, world.trace)
      modifies this`missing, this`retry, world
      ensures world.Sound() && LastGeneration(world.trace) == old(LastGeneration(world.trace))
      ensures |old(world.trace)| <= |world.trace|
      ensures r.Done? ==>
                && Counted(missing, world.trace)
                && Tallied(d, lastGeneration, world.saved.managed, old(missing), missing, old(world.trace), world.trace)
    {
      if !d.complete {
        ResetAbsences();
      } else if lastGeneration != Some(d.generation) {
        ghost var managed, missing0 := world.saved.managed, missing;
        r := Prune(d.hosts);
        SameReadings(old(world.trace), world.trace);
        if r.Done? {
          PrunedTallies(d, lastGeneration, managed, world.saved.managed, missing0, missing, old(world.trace), world.trace);
        }
        return;
      }
      return Done(());
    }

    /** What the worker does when a check failed or the plugin is disabled. */
    method Forget()
      requires world.Sound() && lastGeneration == LastGeneration(world.trace)
      modifies this, world
      ensures Consistent() && lastGeneration == old(lastGeneration) && missing == map[]
    {
      ghost var before := world.trace;
      ResetAbsences();
      world.Record(Reset);
      Appended(before, Reset);
    }
  }

  lemma CountsKeep(missing: map<string, nat>, ids: set<string>, a: Trace, b: Trace)
    requires SameChecks(a, b)
    ensures Counted(missing, a) ==> Counted(missing, b)
    ensures Behind(missing, ids, a) ==> Behind(missing, ids, b)
  {
    SameReadings(a, b);
  }

  lemma EndCounts(missing: map<string, nat>, t: Trace, generation: string)
    requires Counted(missing, t)
    ensures Counted(missing, t + [CheckEnds(generation)])
    ensures LastGeneration(t + [CheckEnds(generation)]) == Some(generation)
  {
    Appended(t, CheckEnds(generation));
  }

  lemma CheckCounts(missing: map<string, nat>, t: Trace, d: Discovered)
    requires Counted(missing, t)
    ensures var begun := t + [CheckBegins(d.generation, d.complete, Ids(d.hosts))];
            && LastGeneration(begun) == LastGeneration(t)
            && (d.complete && LastGeneration(t) == Some(d.generation) ==> Counted(missing, begun))
            && (d.complete && LastGeneration(t) != Some(d.generation) ==> Behind(missing, Ids(d.hosts), begun))
  {
    Appended(t, CheckBegins(d.generation, d.complete, Ids(d.hosts)));
  }

  /** What the loop's progress says in terms of the retry map before the poll. */
  lemma PollAttempts(hosts: seq<Host>, c: seq<Host>, n: nat, seen0: set<string>, retry1: Retry, retry0: Retry,
                     seen: set<string>, retry: Retry, attempted: seq<Attempt>)
    requires Progress(c, n, seen0, retry0, seen, retry, attempted) && (forall h :: h in c <==> h in hosts)
    requires retry0 == Retained(retry1, Ids(hosts))
    ensures forall a <- attempted :: a.endpoint in Ids(hosts) && Due(retry1, a) && Cooled(retry, a)
    ensures UntriedFirst(attempted, retry1)
    ensures Firsts(attempted, retry0) ==> Firsts(attempted, retry1)
  {
    forall a | a in attempted
      ensures a.endpoint in Ids(hosts) && (a.endpoint in retry0 <==> a.endpoint in retry1)
    {
      assert a.endpoint in Endpoints(attempted);
      var h :| h in c[..n] && h.endpointId == a.endpoint;
      assert h in c;
    }
  }

  lemma PollAdvances(hosts: seq<Host>, c: seq<Host>, seen0: set<string>, retry1: Retry, retry0: Retry,
                     seen: set<string>, retry: Retry, attempted: seq<Attempt>)
    requires Progress(c, |c|, seen0, retry0, seen, retry, attempted) && (forall h :: h in c <==> h in hosts)
    requires retry0 == Retained(retry1, Ids(hosts))
    ensures Advanced(hosts, seen0, retry1, seen, retry, attempted)
  {
    ProgressEnds(c, seen0, retry0, seen, retry, attempted);
    PollAttempts(hosts, c, |c|, seen0, retry1, retry0, seen, retry, attempted);
    AdvancedBefore(hosts, c, seen0, retry1, retry0, seen, retry, attempted);
  }

  lemma AdvancedBefore(hosts: seq<Host>, c: seq<Host>, seen0: set<string>, retry1: Retry, retry0: Retry,
                       seen: set<string>, retry: Retry, attempted: seq<Attempt>)
    requires Advanced(c, seen0, retry0, seen, retry, attempted) && (forall h :: h in c <==> h in hosts)
    requires retry0 == Retained(retry1, Ids(hosts))
    requires Firsts(attempted, retry0) ==> Firsts(attempted, retry1)
    ensures Advanced(hosts, seen0, retry1, seen, retry, attempted)
  {
    assert Ids(c) == Ids(hosts);
    assert Untried(c, seen0, retry0) == Untried(hosts, seen0, retry1);
    assert Untried(c, seen, retry) == Untried(hosts, seen, retry);
  }
}
