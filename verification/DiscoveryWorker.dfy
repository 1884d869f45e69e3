/** The worker loop around the reconciler, over any number of checks, restarts and crashes. */
module DiscoveryWorker {
  import opened DiscoveryTrace
  import opened Discovery
  import opened DiscoveryReport
  import opened DiscoveryReconciler

  /** A new worker process starts from the saved state alone. */
  method Restarted(world: World) returns (reconciler: Reconciler)
    requires world.Sound()
    modifies world
    ensures fresh(reconciler) && reconciler.world == world && reconciler.Consistent()
  {
    ghost var before := world.trace;
    world.Record(Restart);
    Appended(before, Restart);
    reconciler := new Reconciler(world);
  }

  /** Any run of the worker from an empty state: the registry, the readiness source, the reports, the
      crashes and the write errors are all arbitrary. */
  method Work(turns: nat) returns (world: World)
    ensures Trustworthy(world.trace) && Agrees(world.saved, world.trace)
  {
    world := new World();
    var reconciler := Restarted(world);
    for i := 0 to turns
      invariant fresh(world) && fresh(reconciler) && reconciler.world == world && reconciler.Consistent()
    {
      var choice := world.Chance();
      if choice == 0 {
        world.Crash();
        reconciler := Restarted(world);
      } else if choice == 1 {
        reconciler.Forget();
      } else {
        var report: Discovered := *;
        var r: Outcome<()> := Failed;
        var hosts := ValidateHosts(report.hosts);
        if hosts.Some? {
          r := reconciler.Check(report.(hosts := hosts.value));
        }
        if r.Failed? {
          reconciler.Forget();
        } else if r.Crashed? {
          reconciler := Restarted(world);
        }
      }
    }
  }

  /** After `polls` complete polls at most `N - 4 * polls` of the `N` hosts untried before are left. */
  ghost predicate Reached(before: set<string>, after: set<string>, polls: nat, seen: set<string>, attempted: set<string>) {
    (after == {} || |after| + 4 * polls <= |before|) && before <= after + seen + attempted
  }

  lemma ReachedMore(before: set<string>, polls: nat, tried: set<string>, hosts: seq<Host>, seen0: set<string>,
                    retry0: Retry, seen: set<string>, retry: Retry, attempted: seq<Attempt>)
    requires Reached(before, Untried(hosts, seen0, retry0), polls, seen0, tried)
    requires Advanced(hosts, seen0, retry0, seen, retry, attempted)
    ensures Reached(before, Untried(hosts, seen, retry), polls + 1, seen, tried + Endpoints(attempted))
  {
  }

  /** Polling one report again and again: within `ceil(N / 4)` complete polls each of its `N` untried hosts
      was attempted or found registered, whatever the attempts came to. */
  method PollRepeatedly(reconciler: Reconciler, hosts: seq<Host>, polls: nat)
      returns (complete: bool, ghost attempted: set<string>)
    requires Validated(hosts) && reconciler.world.Sound()
    modifies reconciler`retry, reconciler.world
    ensures reconciler.world.Sound()
    ensures complete ==>
              var before := Untried(hosts, old(reconciler.world.saved.seen), old(reconciler.retry));
              && Reached(before, Untried(hosts, reconciler.world.saved.seen, reconciler.retry), polls,
                         reconciler.world.saved.seen, attempted)
              && (|before| <= 4 * polls ==> before <= reconciler.world.saved.seen + attempted)
  {
    attempted := {};
    var world := reconciler.world;
    ghost var before := Untried(hosts, world.saved.seen, reconciler.retry);
    for i := 0 to polls
      invariant world.Sound()
      invariant Reached(before, Untried(hosts, world.saved.seen, reconciler.retry), i, world.saved.seen, attempted)
    {
      ghost var seen0, retry0 := world.saved.seen, reconciler.retry;
      var r, a := reconciler.Poll(hosts);
      if !r.Done? {
        return false, attempted;
      }
      ReachedMore(before, i, attempted, hosts, seen0, retry0, world.saved.seen, reconciler.retry, a);
      attempted := attempted + Endpoints(a);
    }
    complete := true;
  }
}
