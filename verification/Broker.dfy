/** Leases and connections of the shared client broker.  Every accepted request runs as its own task; tasks
    interleave at every lock, so each step below is one locked section or one wait.  Lease and connection
    tokens are random and never repeat: an index stands for each. */
module Broker {
  import opened Common

  const MAX_LEASES := 32
  const MAX_CONNECTIONS := 128

  datatype Lease = Lease(cancelled: bool, connections: set<nat>, owner: nat)

  /** A transport connection; `owner` is the index of its owning task. */
  datatype Connection = Connection(lease: nat, closed: bool, owner: nat)

  datatype Task =
    | Leasing(lease: nat)                    // lease registered, waiting for the client to go away
    | Ending(lease: nat)                     // lease cancelled, still registered
    | Dialing(lease: nat)                    // lease looked up, connection being set up
    | Dialed(lease: nat, connection: nat)    // connected, not registered yet
    | Owning(lease: nat, connection: nat)    // registered
    | Closing(lease: nat, connection: nat)   // closed, still registered
    | Looking(lease: nat, wanted: nat)       // lease looked up for an Open or Inspect
    | Using(lease: nat, connection: nat)     // connection looked up
    | Streaming(lease: nat, connection: nat) // an Open or Inspect that was answered
    | Over(lease: nat)

  /** `uses` records what each Open or Inspect request named: the lease and the connection. */
  datatype State = State(leases: seq<Lease>, registered: set<nat>, connections: seq<Connection>, tasks: seq<Task>,
                         uses: map<nat, (nat, nat)>)

  const INITIAL := State([], {}, [], [], map[])

  datatype Step =
    | TakeLease
    | Cancel(t: nat)
    | Unregister(t: nat)
    | Connect(lease: nat)
    | DialFails(t: nat)
    | Connects(t: nat)
    | Abandon(t: nat)                    // no token could be made
    | Register(t: nat)
    | Close(t: nat)
    | Remove(t: nat)
    | Use(lease: nat, connection: nat)
    | Find(t: nat)
    | Succeed(t: nat)
    | Leave(t: nat)
    | PeerCloses(connection: nat)

  /** The lookup every request begins with. */
  predicate Live(s: State, lease: nat) {
    lease in s.registered && lease < |s.leases| && !s.leases[lease].cancelled
  }

  predicate Enabled(s: State, step: Step) {
    match step
    case TakeLease => |s.registered| < MAX_LEASES
    case Connect(l) => Live(s, l)
    case Use(l, _) => Live(s, l)
    case PeerCloses(c) => c < |s.connections|
    case Cancel(t) => t < |s.tasks| && s.tasks[t].Leasing?
    case Unregister(t) => t < |s.tasks| && s.tasks[t].Ending?
    case DialFails(t) => t < |s.tasks| && s.tasks[t].Dialing?
    case Connects(t) => t < |s.tasks| && s.tasks[t].Dialing?
    case Abandon(t) => t < |s.tasks| && s.tasks[t].Dialed?
    case Register(t) => t < |s.tasks| && s.tasks[t].Dialed?
    case Close(t) => t < |s.tasks| && s.tasks[t].Owning?
    case Remove(t) => t < |s.tasks| && s.tasks[t].Closing?
    case Find(t) => t < |s.tasks| && s.tasks[t].Looking?
    case Succeed(t) => t < |s.tasks| && s.tasks[t].Using? && !IsClosed(s, s.tasks[t].connection)
    case Leave(t) => t < |s.tasks| && (s.tasks[t].Using? || s.tasks[t].Streaming?)
  }

  predicate IsClosed(s: State, c: nat) {
    c < |s.connections| && s.connections[c].closed
  }

  function Goes(s: State, t: nat, task: Task): State
    requires t < |s.tasks|
  {
    s.(tasks := s.tasks[t := task])
  }

  function Shut(s: State, c: nat): State {
    if c < |s.connections| then s.(connections := s.connections[c := s.connections[c].(closed := true)]) else s
  }

  function WithConnections(s: State, l: nat, connections: set<nat>): State {
    if l < |s.leases| then s.(leases := s.leases[l := s.leases[l].(connections := connections)]) else s
  }

  function ConnectionsOf(s: State, l: nat): set<nat> {
    if l < |s.leases| then s.leases[l].connections else {}
  }

  function Apply(s: State, step: Step): State
    requires Enabled(s, step)
  {
    match step
    case TakeLease =>
      s.(leases := s.leases + [Lease(false, {}, |s.tasks|)], registered := s.registered + {|s.leases|},
         tasks := s.tasks + [Leasing(|s.leases|)])
    case Cancel(t) =>
      var l := s.tasks[t].lease;
      var ended := if l < |s.leases| then s.(leases := s.leases[l := s.leases[l].(cancelled := true)]) else s;
      Goes(ended, t, Ending(l))
    case Unregister(t) => Goes(s.(registered := s.registered - {s.tasks[t].lease}), t, Over(s.tasks[t].lease))
    case Connect(l) => s.(tasks := s.tasks + [Dialing(l)])
    case DialFails(t) => Goes(s, t, Over(s.tasks[t].lease))
    case Connects(t) =>
      var l := s.tasks[t].lease;
      Goes(s.(connections := s.connections + [Connection(l, false, t)]), t, Dialed(l, |s.connections|))
    case Abandon(t) => Goes(Shut(s, s.tasks[t].connection), t, Over(s.tasks[t].lease))
    case Register(t) =>
      var (l, c) := (s.tasks[t].lease, s.tasks[t].connection);
      if |ConnectionsOf(s, l)| >= MAX_CONNECTIONS then Goes(Shut(s, c), t, Over(l))
      else Goes(WithConnections(s, l, ConnectionsOf(s, l) + {c}), t, Owning(l, c))
    case Close(t) => Goes(Shut(s, s.tasks[t].connection), t, Closing(s.tasks[t].lease, s.tasks[t].connection))
    case Remove(t) =>
      var (l, c) := (s.tasks[t].lease, s.tasks[t].connection);
      Goes(WithConnections(s, l, ConnectionsOf(s, l) - {c}), t, Over(l))
    case Use(l, c) => s.(tasks := s.tasks + [Looking(l, c)], uses := s.uses[|s.tasks| := (l, c)])
    case Find(t) =>
      var (l, c) := (s.tasks[t].lease, s.tasks[t].wanted);
      Goes(s, t, if c in ConnectionsOf(s, l) then Using(l, c) else Over(l))
    case Succeed(t) => Goes(s, t, Streaming(s.tasks[t].lease, s.tasks[t].connection))
    case Leave(t) => Goes(s, t, Over(s.tasks[t].lease))
    case PeerCloses(c) => Shut(s, c)
  }

  predicate Runs(s: State, steps: seq<Step>)
    decreases |steps|
  {
    steps == [] || (Enabled(s, steps[0]) && Runs(Apply(s, steps[0]), steps[1..]))
  }

  function After(s: State, steps: seq<Step>): State
    requires Runs(s, steps)
    decreases |steps|
  {
    if steps == [] then s else After(Apply(s, steps[0]), steps[1..])
  }

  // ----- the invariant -----

  predicate NamesConnection(task: Task) {
    task.Dialed? || task.Owning? || task.Closing? || task.Using? || task.Streaming?
  }

  /** Every task's lease exists, and a connection it names belongs to that lease. */
  ghost predicate Named(s: State, t: nat)
    requires t < |s.tasks|
  {
    var task := s.tasks[t];
    && task.lease < |s.leases|
    && (NamesConnection(task) ==> task.connection < |s.connections| && s.connections[task.connection].lease == task.lease)
  }

  predicate SetsUp(task: Task) {
    task.Dialed? || task.Owning? || task.Closing?
  }

  predicate Holds(task: Task, c: nat) {
    (task.Owning? || task.Closing?) && task.connection == c
  }

  /** A connection is only worked on by its owning task, and so is a lease. */
  ghost predicate Sole(s: State, t: nat)
    requires t < |s.tasks|
  {
    var task := s.tasks[t];
    && (SetsUp(task) ==> task.connection < |s.connections| && s.connections[task.connection].owner == t)
    && (task.Leasing? || task.Ending? ==> task.lease < |s.leases| && s.leases[task.lease].owner == t)
  }

  /** A connection is registered exactly while its task owns it, and open only while its task lives. */
  ghost predicate Owned(s: State, c: nat)
    requires c < |s.connections|
  {
    var k := s.connections[c];
    && k.owner < |s.tasks| && k.lease < |s.leases|
    && (c in s.leases[k.lease].connections <==> Holds(s.tasks[k.owner], c))
    && (!k.closed ==> (s.tasks[k.owner].Dialed? || s.tasks[k.owner].Owning?) && s.tasks[k.owner].connection == c)
  }

  /** A lease is registered until its owning task removes it, and holds its own connections only. */
  ghost predicate Leased(s: State, l: nat)
    requires l < |s.leases|
  {
    var owner := s.leases[l].owner;
    && owner < |s.tasks| && s.tasks[owner].lease == l
    && (s.tasks[owner].Leasing? || s.tasks[owner].Ending? || s.tasks[owner].Over?)
    && (l in s.registered <==> s.tasks[owner].Leasing? || s.tasks[owner].Ending?)
    && (s.leases[l].cancelled <==> !s.tasks[owner].Leasing?)
    && (forall c <- s.leases[l].connections :: c < |s.connections| && s.connections[c].lease == l)
    && |s.leases[l].connections| <= MAX_CONNECTIONS
  }

  ghost predicate Tasks(s: State) {
    forall t :: 0 <= t < |s.tasks| ==> Named(s, t) && Sole(s, t)
  }

  ghost predicate Connections(s: State) {
    forall c :: 0 <= c < |s.connections| ==> Owned(s, c)
  }

  ghost predicate Leases(s: State) {
    && |s.registered| <= MAX_LEASES && (forall l <- s.registered :: l < |s.leases|)
    && (forall l :: 0 <= l < |s.leases| ==> Leased(s, l))
  }

  ghost predicate Inv(s: State) {
    Tasks(s) && Connections(s) && Leases(s)
  }

  predicate ByTask(step: Step) {
    !step.TakeLease? && !step.Connect? && !step.Use? && !step.PeerCloses?
  }

  /** What is known of an acting task. */
  lemma Acting(s: State, step: Step)
    requires Inv(s) && Enabled(s, step)
    ensures ByTask(step) ==>
              && Named(s, step.t) && Sole(s, step.t) && Leased(s, s.tasks[step.t].lease)
              && (NamesConnection(s.tasks[step.t]) ==> Owned(s, s.tasks[step.t].connection))
  {
  }

  /** Steps that end a lease, and steps that set up or take down a connection. */
  predicate LeaseStep(step: Step) {
    step.Cancel? || step.Unregister?
  }

  predicate ConnectionStep(step: Step) {
    step.Connects? || step.Abandon? || step.Register? || step.Close? || step.Remove?
  }

  lemma TakeTasks(s: State)
    requires Inv(s) && Enabled(s, TakeLease)
    ensures Tasks(Apply(s, TakeLease))
  {
    var n := Apply(s, TakeLease);
    forall t | 0 <= t < |n.tasks|
      ensures Named(n, t) && Sole(n, t)
    {
      if t < |s.tasks| {
        assert Named(s, t) && Sole(s, t);
      }
    }
  }

  lemma TakeConnections(s: State)
    requires Inv(s) && Enabled(s, TakeLease)
    ensures Connections(Apply(s, TakeLease))
  {
    var n := Apply(s, TakeLease);
    forall c | 0 <= c < |n.connections|
      ensures Owned(n, c)
    {
      if c < |s.connections| {
        assert Owned(s, c);
      }
    }
  }

  lemma TakeLeases(s: State)
    requires Inv(s) && Enabled(s, TakeLease)
    ensures Leases(Apply(s, TakeLease))
  {
    var n := Apply(s, TakeLease);
    forall l | 0 <= l < |n.leases|
      ensures Leased(n, l)
    {
      if l < |s.leases| {
        assert Leased(s, l);
      }
    }
  }

  lemma LeaseTasks(s: State, step: Step)
    requires Inv(s) && Enabled(s, step) && LeaseStep(step)
    ensures Tasks(Apply(s, step))
  {
    var n := Apply(s, step);
    Acting(s, step);
    forall t | 0 <= t < |n.tasks|
      ensures Named(n, t) && Sole(n, t)
    {
      if t < |s.tasks| {
        assert Named(s, t) && Sole(s, t);
      }
    }
  }

  lemma ConnectionTasks(s: State, step: Step)
    requires Inv(s) && Enabled(s, step) && ConnectionStep(step)
    ensures Tasks(Apply(s, step))
  {
    var n := Apply(s, step);
    Acting(s, step);
    forall t | 0 <= t < |n.tasks|
      ensures Named(n, t) && Sole(n, t)
    {
      if t < |s.tasks| {
        assert Named(s, t) && Sole(s, t);
      }
    }
  }

  lemma LightTasks(s: State, step: Step)
    requires Inv(s) && Enabled(s, step) && !LeaseStep(step) && !ConnectionStep(step) && !step.TakeLease?
    ensures Tasks(Apply(s, step))
  {
    var n := Apply(s, step);
    Acting(s, step);
    forall t | 0 <= t < |n.tasks|
      ensures Named(n, t) && Sole(n, t)
    {
      if t < |s.tasks| {
        assert Named(s, t) && Sole(s, t);
      }
    }
  }

  lemma LeaseConnections(s: State, step: Step)
    requires Inv(s) && Enabled(s, step) && LeaseStep(step)
    ensures Connections(Apply(s, step))
  {
    var n := Apply(s, step);
    Acting(s, step);
    forall c | 0 <= c < |n.connections|
      ensures Owned(n, c)
    {
      if c < |s.connections| {
        assert Owned(s, c);
      }
    }
  }

  lemma ConnectionConnections(s: State, step: Step)
    requires Inv(s) && Enabled(s, step) && ConnectionStep(step)
    ensures Connections(Apply(s, step))
  {
    var n := Apply(s, step);
    Acting(s, step);
    forall c | 0 <= c < |n.connections|
      ensures Owned(n, c)
    {
      if c < |s.connections| {
        assert Owned(s, c);
      }
    }
  }

  lemma LightConnections(s: State, step: Step)
    requires Inv(s) && Enabled(s, step) && !LeaseStep(step) && !ConnectionStep(step) && !step.TakeLease?
    ensures Connections(Apply(s, step))
  {
    var n := Apply(s, step);
    Acting(s, step);
    forall c | 0 <= c < |n.connections|
      ensures Owned(n, c)
    {
      if c < |s.connections| {
        assert Owned(s, c);
      }
    }
  }

  lemma LeaseLeases(s: State, step: Step)
    requires Inv(s) && Enabled(s, step) && LeaseStep(step)
    ensures Leases(Apply(s, step))
  {
    var n := Apply(s, step);
    Acting(s, step);
    assert n.registered <= s.registered;
    SubsetIsSmaller(n.registered, s.registered);
    forall l | 0 <= l < |n.leases|
      ensures Leased(n, l)
    {
      if l < |s.leases| {
        assert Leased(s, l);
      }
    }
  }

  lemma ConnectionLeases(s: State, step: Step)
    requires Inv(s) && Enabled(s, step) && ConnectionStep(step)
    ensures Leases(Apply(s, step))
  {
    var n := Apply(s, step);
    Acting(s, step);
    forall l | 0 <= l < |n.leases|
      ensures Leased(n, l)
    {
      if l < |s.leases| {
        assert Leased(s, l);
      }
    }
  }

  lemma LightLeases(s: State, step: Step)
    requires Inv(s) && Enabled(s, step) && !LeaseStep(step) && !ConnectionStep(step) && !step.TakeLease?
    ensures Leases(Apply(s, step))
  {
    var n := Apply(s, step);
    Acting(s, step);
    forall l | 0 <= l < |n.leases|
      ensures Leased(n, l)
    {
      if l < |s.leases| {
        assert Leased(s, l);
      }
    }
  }

  lemma StepKeeps(s: State, step: Step)
    requires Inv(s) && Enabled(s, step)
    ensures Inv(Apply(s, step))
  {
    if step.TakeLease? {
      TakeTasks(s);
      TakeConnections(s);
      TakeLeases(s);
    } else if LeaseStep(step) {
      LeaseTasks(s, step);
      LeaseConnections(s, step);
      LeaseLeases(s, step);
    } else if ConnectionStep(step) {
      ConnectionTasks(s, step);
      ConnectionConnections(s, step);
      ConnectionLeases(s, step);
    } else {
      LightTasks(s, step);
      LightConnections(s, step);
      LightLeases(s, step);
    }
  }

  lemma {:induction false} RunKeeps(s: State, steps: seq<Step>)
    requires Inv(s) && Runs(s, steps)
    ensures Inv(After(s, steps))
    decreases |steps|
  {
    if steps != [] {
      StepKeeps(s, steps[0]);
      RunKeeps(Apply(s, steps[0]), steps[1..]);
    }
  }

  // ----- what it is for -----

  /** The task of an Open or Inspect request works on what the request named, and only such a task uses a
      connection. */
  ghost predicate AsNamed(s: State, t: nat)
    requires t < |s.tasks|
  {
    var task := s.tasks[t];
    && (task.Looking? ==> t in s.uses && s.uses[t] == (task.lease, task.wanted))
    && (task.Using? || task.Streaming? ==> t in s.uses && s.uses[t] == (task.lease, task.connection))
  }

  ghost predicate AllAsNamed(s: State) {
    && (forall t <- s.uses :: t < |s.tasks|)
    && (forall t :: 0 <= t < |s.tasks| ==> AsNamed(s, t))
  }

  lemma StepAsNamed(s: State, step: Step)
    requires AllAsNamed(s) && Enabled(s, step)
    ensures AllAsNamed(Apply(s, step)) && forall t <- s.uses :: t in Apply(s, step).uses && Apply(s, step).uses[t] == s.uses[t]
  {
    var n := Apply(s, step);
    forall t | 0 <= t < |n.tasks|
      ensures AsNamed(n, t)
    {
      if t < |s.tasks| {
        assert AsNamed(s, t);
      }
    }
  }

  lemma {:induction false} RunAsNamed(s: State, steps: seq<Step>)
    requires AllAsNamed(s) && Runs(s, steps)
    ensures AllAsNamed(After(s, steps))
    decreases |steps|
  {
    if steps != [] {
      StepAsNamed(s, steps[0]);
      RunAsNamed(Apply(s, steps[0]), steps[1..]);
    }
  }

  /** An Open or Inspect that gets as far as a connection works on exactly the connection that its request named,
      under exactly the lease that it named, and that connection was connected under that lease. */
  lemma UsesOwn(run: seq<Step>, t: nat)
    requires Runs(INITIAL, run) && t < |After(INITIAL, run).tasks|
    requires After(INITIAL, run).tasks[t].Using? || After(INITIAL, run).tasks[t].Streaming?
    ensures var s := After(INITIAL, run);
            && t in s.uses && var (l, c) := s.uses[t];
               && s.tasks[t].lease == l && s.tasks[t].connection == c
               && c < |s.connections| && s.connections[c].lease == l
  {
    RunKeeps(INITIAL, run);
    RunAsNamed(INITIAL, run);
    assert Named(After(INITIAL, run), t) && AsNamed(After(INITIAL, run), t);
  }

  /** The lookup succeeds if and only if the named connection is registered under the named lease at that moment;
      otherwise the request is refused. */
  lemma FindIff(run: seq<Step>, t: nat)
    requires Runs(INITIAL, run) && Enabled(After(INITIAL, run), Find(t))
    ensures var s := After(INITIAL, run);
            var n := Apply(s, Find(t)).tasks[t];
            && t in s.uses && s.uses[t].0 < |s.leases|
            && (n.Using? <==> s.uses[t].1 in s.leases[s.uses[t].0].connections)
            && (n.Over? <==> s.uses[t].1 !in s.leases[s.uses[t].0].connections)
  {
    RunKeeps(INITIAL, run);
    RunAsNamed(INITIAL, run);
    assert Named(After(INITIAL, run), t) && AsNamed(After(INITIAL, run), t);
  }

  /** It is answered if and only if that connection is still open then. */
  lemma SucceedIff(run: seq<Step>, t: nat)
    requires Runs(INITIAL, run) && t < |After(INITIAL, run).tasks| && After(INITIAL, run).tasks[t].Using?
    ensures var s := After(INITIAL, run);
            && t in s.uses && s.uses[t].1 < |s.connections|
            && (Enabled(s, Succeed(t)) <==> !s.connections[s.uses[t].1].closed)
  {
    UsesOwn(run, t);
  }

  /** Every registered connection has exactly one owning task, a task of the same lease; and the limits hold. */
  lemma OneOwner(run: seq<Step>, l: nat, c: nat)
    requires Runs(INITIAL, run) && l < |After(INITIAL, run).leases| && c in After(INITIAL, run).leases[l].connections
    ensures var s := After(INITIAL, run);
            && (exists t :: 0 <= t < |s.tasks| && Holds(s.tasks[t], c) && s.tasks[t].lease == l)
            && (forall t, u :: 0 <= t < |s.tasks| && 0 <= u < |s.tasks| && Holds(s.tasks[t], c) && Holds(s.tasks[u], c) ==> t == u)
            && (forall k :: 0 <= k < |s.leases| && c in s.leases[k].connections ==> k == l)
  {
    RunKeeps(INITIAL, run);
    var s := After(INITIAL, run);
    assert Leased(s, l);
    assert Owned(s, c);
    var owner := s.connections[c].owner;
    assert Holds(s.tasks[owner], c) && Named(s, owner);
    forall t | 0 <= t < |s.tasks| && Holds(s.tasks[t], c)
      ensures t == owner
    {
      assert Sole(s, t);
    }
    forall k | 0 <= k < |s.leases| && c in s.leases[k].connections
      ensures k == l
    {
      assert Leased(s, k);
    }
  }

  /** Requests naming a lease are admitted exactly while the command that took it is there. */
  lemma AdmittedIff(run: seq<Step>, l: nat, c: nat)
    requires Runs(INITIAL, run)
    ensures var s := After(INITIAL, run);
            && (Enabled(s, Use(l, c)) <==> l < |s.leases| && s.leases[l].owner < |s.tasks| && s.tasks[s.leases[l].owner] == Leasing(l))
            && (Enabled(s, Connect(l)) <==> Enabled(s, Use(l, c)))
  {
    RunKeeps(INITIAL, run);
    var s := After(INITIAL, run);
    if l < |s.leases| {
      assert Leased(s, l);
    }
  }

  /** A new lease is refused exactly when 32 are registered, a new connection exactly when its lease has 128; a
      refused connection is closed, an accepted one is registered under its own lease. */
  lemma RefusedIff(run: seq<Step>, t: nat)
    requires Runs(INITIAL, run)
    ensures var s := After(INITIAL, run);
            && (Enabled(s, TakeLease) <==> |s.registered| < 32)
            && (Enabled(s, Register(t)) ==>
                  var (l, c) := (s.tasks[t].lease, s.tasks[t].connection);
                  var n := Apply(s, Register(t));
                  && l < |s.leases| && c < |s.connections|
                  && if |s.leases[l].connections| >= 128 then n.tasks[t] == Over(l) && n.connections[c].closed && n.leases == s.leases
                     else n.tasks[t] == Owning(l, c) && n.leases[l].connections == s.leases[l].connections + {c})
  {
    RunKeeps(INITIAL, run);
    var s := After(INITIAL, run);
    if Enabled(s, Register(t)) {
      assert Named(s, t);
    }
  }

  lemma Limits(run: seq<Step>)
    requires Runs(INITIAL, run)
    ensures var s := After(INITIAL, run);
            |s.registered| <= 32 && forall l :: 0 <= l < |s.leases| ==> |s.leases[l].connections| <= 128
  {
    RunKeeps(INITIAL, run);
    var s := After(INITIAL, run);
    forall l | 0 <= l < |s.leases|
      ensures |s.leases[l].connections| <= MAX_CONNECTIONS
    {
      assert Leased(s, l);
    }
  }

  // ----- what can be reached -----

  lemma First(s: State, step: Step, rest: seq<Step>)
    requires Enabled(s, step) && Runs(Apply(s, step), rest)
    ensures Runs(s, [step] + rest) && After(s, [step] + rest) == After(Apply(s, step), rest)
  {
    assert ([step] + rest)[1..] == rest;
  }

  /** A live lease with room serves: a connection can be made, registered, found and used, whatever else is going on,
      and nothing but the lease's connections and the two new tasks changes. */
  lemma CanServe(s: State, l: nat) returns (steps: seq<Step>)
    requires Inv(s) && Live(s, l) && |s.leases[l].connections| < 128
    ensures Runs(s, steps)
    ensures var (n, c, t) := (After(s, steps), |s.connections|, |s.tasks|);
            && n.tasks == s.tasks + [Owning(l, c), Streaming(l, c)]
            && n.connections == s.connections + [Connection(l, false, t)]
            && n.leases == s.leases[l := s.leases[l].(connections := s.leases[l].connections + {c})]
            && n.registered == s.registered
  {
    var (c, t) := (|s.connections|, |s.tasks|);
    var s1 := Apply(s, Connect(l));
    var s2 := Apply(s1, Connects(t));
    var s3 := Apply(s2, Register(t));
    var rest := UsesOpen(s3, l, c);
    First(s2, Register(t), rest);
    First(s1, Connects(t), [Register(t)] + rest);
    First(s, Connect(l), [Connects(t)] + ([Register(t)] + rest));
    steps := [Connect(l)] + ([Connects(t)] + ([Register(t)] + rest));
  }

  /** An open, registered connection can be used. */
  lemma UsesOpen(s: State, l: nat, c: nat) returns (steps: seq<Step>)
    requires Live(s, l) && c in s.leases[l].connections && c < |s.connections| && !s.connections[c].closed
    ensures Runs(s, steps)
    ensures var n := After(s, steps);
            && n.tasks == s.tasks + [Streaming(l, c)] && n.connections == s.connections
            && n.leases == s.leases && n.registered == s.registered
  {
    var t := |s.tasks|;
    var s1 := Apply(s, Use(l, c));
    var s2 := Apply(s1, Find(t));
    First(s2, Succeed(t), []);
    First(s1, Find(t), [Succeed(t)]);
    First(s, Use(l, c), [Find(t)] + [Succeed(t)]);
    steps := [Use(l, c)] + ([Find(t)] + [Succeed(t)]);
  }

  lemma {:induction false} ClosedStays(s: State, steps: seq<Step>, c: nat)
    requires Runs(s, steps) && IsClosed(s, c)
    ensures IsClosed(After(s, steps), c)
    decreases |steps|
  {
    if steps != [] {
      ClosedStays(Apply(s, steps[0]), steps[1..], c);
    }
  }

  /** A connection that its peer has closed serves no further request, at any later time. */
  lemma PeerClosedServesNoMore(s: State, c: nat, steps: seq<Step>, t: nat)
    requires Enabled(s, PeerCloses(c)) && Runs(Apply(s, PeerCloses(c)), steps)
    requires Enabled(After(Apply(s, PeerCloses(c)), steps), Succeed(t))
    ensures After(Apply(s, PeerCloses(c)), steps).tasks[t].connection != c
  {
    ClosedStays(Apply(s, PeerCloses(c)), steps, c);
  }

  // ----- one lease's steps do not reach another's -----

  /** The lease a step is about. */
  function Concerns(s: State, step: Step): nat
    requires Enabled(s, step)
  {
    match step
    case TakeLease => |s.leases|
    case Connect(l) => l
    case Use(l, _) => l
    case PeerCloses(c) => s.connections[c].lease
    case _ => s.tasks[step.t].lease
  }

  /** Lease `l` looks the same in both states: its registration, its connections, which of them are open,
      and its tasks. */
  ghost predicate SameLease(a: State, b: State, l: nat) {
    && |a.leases| <= |b.leases| && |a.connections| <= |b.connections| && |a.tasks| <= |b.tasks|
    && l < |a.leases| && a.leases[l] == b.leases[l] && (l in a.registered <==> l in b.registered)
    && (forall c :: 0 <= c < |a.connections| && a.connections[c].lease == l ==> b.connections[c] == a.connections[c])
    && (forall t :: 0 <= t < |a.tasks| && a.tasks[t].lease == l ==> b.tasks[t] == a.tasks[t])
    && (forall c :: |a.connections| <= c < |b.connections| ==> b.connections[c].lease != l)
    && (forall t :: |a.tasks| <= t < |b.tasks| ==> b.tasks[t].lease != l)
    && (forall c :: 0 <= c < |a.connections| ==> b.connections[c].lease == a.connections[c].lease)
    && (forall t :: 0 <= t < |a.tasks| ==> b.tasks[t].lease == a.tasks[t].lease)
  }

  ghost predicate Elsewhere(s: State, steps: seq<Step>, l: nat)
    requires Runs(s, steps)
    decreases |steps|
  {
    steps == [] || (Concerns(s, steps[0]) != l && Elsewhere(Apply(s, steps[0]), steps[1..], l))
  }

  lemma StepIsolated(s: State, step: Step, l: nat)
    requires Inv(s) && Enabled(s, step) && l < |s.leases| && Concerns(s, step) != l
    ensures SameLease(s, Apply(s, step), l)
  {
    if ConnectionStep(step) {
      ConnectionIsolated(s, step, l);
    } else {
      Acting(s, step);
    }
  }

  lemma ConnectionIsolated(s: State, step: Step, l: nat)
    requires Inv(s) && Enabled(s, step) && l < |s.leases| && ConnectionStep(step) && s.tasks[step.t].lease != l
    ensures SameLease(s, Apply(s, step), l)
  {
    Acting(s, step);
  }

  /** Whatever other leases do, in any interleaving, lease `l` is not touched. */
  lemma {:induction false} Isolated(s: State, steps: seq<Step>, l: nat)
    requires Inv(s) && Runs(s, steps) && l < |s.leases| && Elsewhere(s, steps, l)
    ensures SameLease(s, After(s, steps), l)
    decreases |steps|
  {
    if steps != [] {
      StepIsolated(s, steps[0], l);
      StepKeeps(s, steps[0]);
      Isolated(Apply(s, steps[0]), steps[1..], l);
    }
  }

  // ----- ending a lease -----

  /** The most steps a task can still take. */
  function Rank(task: Task): nat {
    match task
    case Leasing(_) => 2
    case Ending(_) => 1
    case Dialing(_) => 4
    case Dialed(_, _) => 3
    case Owning(_, _) => 2
    case Closing(_, _) => 1
    case Looking(_, _) => 3
    case Using(_, _) => 2
    case Streaming(_, _) => 1
    case Over(_) => 0
  }

  /** The step by which a task winds itself up. */
  function Windup(task: Task, t: nat): Step {
    match task
    case Leasing(_) => Cancel(t)
    case Ending(_) => Unregister(t)
    case Dialing(_) => DialFails(t)
    case Dialed(_, _) => Abandon(t)
    case Owning(_, _) => Close(t)
    case Closing(_, _) => Remove(t)
    case Looking(_, _) => Find(t)
    case _ => Leave(t)
  }

  ghost predicate Only(s: State, steps: seq<Step>, l: nat)
    requires Runs(s, steps)
    decreases |steps|
  {
    steps == [] || (Concerns(s, steps[0]) == l && Only(Apply(s, steps[0]), steps[1..], l))
  }

  /** No task of lease `l` below index `k` is left. */
  ghost predicate WoundUp(s: State, l: nat, k: nat) {
    forall t :: 0 <= t < k <= |s.tasks| && s.tasks[t].lease == l ==> s.tasks[t].Over?
  }

  lemma WindupStep(s: State, k: nat)
    requires Inv(s) && k < |s.tasks| && !s.tasks[k].Over?
    ensures Enabled(s, Windup(s.tasks[k], k)) && Concerns(s, Windup(s.tasks[k], k)) == s.tasks[k].lease
    ensures var next := Apply(s, Windup(s.tasks[k], k));
            && |next.tasks| == |s.tasks| && |next.leases| == |s.leases|
            && (forall t :: 0 <= t < |s.tasks| && t != k ==> next.tasks[t] == s.tasks[t])
            && next.tasks[k].lease == s.tasks[k].lease && Rank(next.tasks[k]) < Rank(s.tasks[k])
  {
  }

  lemma {:induction false} Drain(s: State, l: nat, k: nat) returns (steps: seq<Step>, end: State)
    requires Inv(s) && k <= |s.tasks| && WoundUp(s, l, k)
    ensures Runs(s, steps) && After(s, steps) == end && Only(s, steps, l)
    ensures Inv(end) && |end.tasks| == |s.tasks| && |end.leases| == |s.leases| && WoundUp(end, l, |end.tasks|)
    decreases |s.tasks| - k, if k < |s.tasks| then Rank(s.tasks[k]) else 0
  {
    if k == |s.tasks| {
      return [], s;
    }
    var task := s.tasks[k];
    if task.lease != l || task.Over? {
      steps, end := Drain(s, l, k + 1);
      return;
    }
    var step := Windup(task, k);
    WindupStep(s, k);
    var next := Apply(s, step);
    StepKeeps(s, step);
    var rest;
    rest, end := Drain(next, l, k);
    steps := [step] + rest;
    assert steps[1..] == rest;
  }

  lemma NoJoin(s: State, step: Step, l: nat)
    requires Enabled(s, step) && l < |s.leases| && s.leases[l].cancelled
    ensures var n := Apply(s, step);
            && l < |n.leases| && n.leases[l].cancelled && |s.tasks| <= |n.tasks|
            && (forall t :: 0 <= t < |n.tasks| && n.tasks[t].lease == l ==> t < |s.tasks| && s.tasks[t].lease == l)
  {
  }

  /** Once a lease is cancelled it stays so and no new task joins it. */
  lemma {:induction false} NoLateTask(s: State, steps: seq<Step>, l: nat)
    requires Runs(s, steps) && l < |s.leases| && s.leases[l].cancelled
    ensures var n := After(s, steps);
            && l < |n.leases| && n.leases[l].cancelled && |s.tasks| <= |n.tasks|
            && (forall t :: 0 <= t < |n.tasks| && n.tasks[t].lease == l ==> t < |s.tasks| && s.tasks[t].lease == l)
    decreases |steps|
  {
    if steps != [] {
      NoJoin(s, steps[0], l);
      NoLateTask(Apply(s, steps[0]), steps[1..], l);
    }
  }

  /** Nothing of the lease is left: not registered, no connection registered, every connection closed. */
  ghost predicate Cleared(s: State, l: nat) {
    && l < |s.leases| && l !in s.registered && s.leases[l].connections == {}
    && forall c :: 0 <= c < |s.connections| && s.connections[c].lease == l ==> s.connections[c].closed
  }

  lemma WoundUpIsCleared(s: State, l: nat)
    requires Inv(s) && l < |s.leases| && WoundUp(s, l, |s.tasks|)
    ensures Cleared(s, l)
  {
    assert Leased(s, l);
    forall c | 0 <= c < |s.connections| && s.connections[c].lease == l
      ensures s.connections[c].closed && c !in s.leases[l].connections
    {
      assert Owned(s, c) && Named(s, s.connections[c].owner) && Sole(s, s.connections[c].owner);
    }
  }

  // ----- every schedule ends it -----

  /** The ranks of all tasks of lease `l` together. */
  function Remaining(tasks: seq<Task>, l: nat): nat {
    if tasks == [] then 0 else Remaining(tasks[1..], l) + if tasks[0].lease == l then Rank(tasks[0]) else 0
  }

  lemma {:induction false} RemainingUpdate(tasks: seq<Task>, t: nat, task: Task, l: nat)
    requires t < |tasks| && task.lease == tasks[t].lease
    ensures Remaining(tasks[t := task], l) + (if task.lease == l then Rank(tasks[t]) else 0)
            == Remaining(tasks, l) + if task.lease == l then Rank(task) else 0
  {
    if t == 0 {
      assert tasks[t := task][1..] == tasks[1..];
    } else {
      RemainingUpdate(tasks[1..], t - 1, task, l);
      assert tasks[t := task][1..] == tasks[1..][t - 1 := task];
    }
  }

  lemma {:induction false} RemainingAppend(tasks: seq<Task>, task: Task, l: nat)
    ensures Remaining(tasks + [task], l) == Remaining(tasks, l) + if task.lease == l then Rank(task) else 0
  {
    if tasks != [] {
      RemainingAppend(tasks[1..], task, l);
      assert (tasks + [task])[1..] == tasks[1..] + [task];
    }
  }

  lemma {:induction false} RemainingOver(tasks: seq<Task>, l: nat, t: nat)
    requires Remaining(tasks, l) == 0 && t < |tasks| && tasks[t].lease == l
    ensures tasks[t].Over?
  {
    if t > 0 {
      RemainingOver(tasks[1..], l, t - 1);
    }
  }

  /** A step taken by one of lease `l`'s own tasks. */
  predicate Own(s: State, step: Step, l: nat) {
    ByTask(step) && step.t < |s.tasks| && s.tasks[step.t].lease == l
  }

  /** How many steps of a run lease `l`'s own tasks take. */
  ghost function OwnSteps(s: State, steps: seq<Step>, l: nat): nat
    requires Runs(s, steps)
    decreases |steps|
  {
    if steps == [] then 0
    else OwnSteps(Apply(s, steps[0]), steps[1..], l) + if Own(s, steps[0], l) then 1 else 0
  }

  /** A task's own step changes that task only, and brings it closer to its end. */
  lemma TaskStep(s: State, step: Step)
    requires Enabled(s, step) && ByTask(step)
    ensures var n := Apply(s, step);
            && |n.tasks| == |s.tasks| && n.tasks == s.tasks[step.t := n.tasks[step.t]]
            && n.tasks[step.t].lease == s.tasks[step.t].lease && Rank(n.tasks[step.t]) < Rank(s.tasks[step.t])
  {
  }

  /** Every step of a cancelled lease's tasks uses up some of what remains, and no other step adds to it. */
  lemma StepWinds(s: State, step: Step, l: nat)
    requires Enabled(s, step) && l < |s.leases| && s.leases[l].cancelled
    ensures Remaining(Apply(s, step).tasks, l) + (if Own(s, step, l) then 1 else 0) <= Remaining(s.tasks, l)
  {
    var n := Apply(s, step);
    if ByTask(step) {
      TaskStep(s, step);
      RemainingUpdate(s.tasks, step.t, n.tasks[step.t], l);
    } else if !step.PeerCloses? {
      RemainingAppend(s.tasks, n.tasks[|s.tasks|], l);
    }
  }

  lemma {:induction false} RunWinds(s: State, steps: seq<Step>, l: nat)
    requires Runs(s, steps) && l < |s.leases| && s.leases[l].cancelled
    ensures OwnSteps(s, steps, l) + Remaining(After(s, steps).tasks, l) <= Remaining(s.tasks, l)
    decreases |steps|
  {
    if steps != [] {
      StepWinds(s, steps[0], l);
      NoJoin(s, steps[0], l);
      RunWinds(Apply(s, steps[0]), steps[1..], l);
    }
  }

  /** A lease whose tasks have nothing left to do is cleared. */
  lemma IdleIsCleared(s: State, l: nat)
    requires Inv(s) && l < |s.leases| && (forall step :: Own(s, step, l) ==> !Enabled(s, step))
    ensures Cleared(s, l)
  {
    forall t | 0 <= t < |s.tasks| && s.tasks[t].lease == l
      ensures s.tasks[t].Over?
    {
      if !s.tasks[t].Over? {
        WindupStep(s, t);
        assert Own(s, Windup(s.tasks[t], t), l);
      }
    }
    WoundUpIsCleared(s, l);
  }

  /** Ending a lease closes and removes its connections, whatever the schedule: in every run after its
      cancellation its own tasks take at most as many steps as remained then, once they have taken them all
      the lease is cleared, and it is cleared in every state in which they have nothing left to do. */
  lemma LeaseEnds(run: seq<Step>, steps: seq<Step>, l: nat)
    requires Runs(INITIAL, run) && l < |After(INITIAL, run).leases| && After(INITIAL, run).leases[l].cancelled
    requires Runs(After(INITIAL, run), steps)
    ensures var s := After(INITIAL, run);
            var n := After(s, steps);
            && OwnSteps(s, steps, l) <= Remaining(s.tasks, l)
            && (OwnSteps(s, steps, l) == Remaining(s.tasks, l) ==> Cleared(n, l))
            && ((forall step :: Own(n, step, l) ==> !Enabled(n, step)) ==> Cleared(n, l))
  {
    var s := After(INITIAL, run);
    var n := After(s, steps);
    RunKeeps(INITIAL, run);
    RunKeeps(s, steps);
    RunWinds(s, steps, l);
    NoLateTask(s, steps, l);
    if Remaining(n.tasks, l) == 0 {
      forall t | 0 <= t < |n.tasks| && n.tasks[t].lease == l
        ensures n.tasks[t].Over?
      {
        RemainingOver(n.tasks, l, t);
      }
      WoundUpIsCleared(n, l);
    }
    if forall step :: Own(n, step, l) ==> !Enabled(n, step) {
      IdleIsCleared(n, l);
    }
  }

  /** And some schedule of its own steps alone gets there, from every reachable state. */
  lemma LeaseCanEnd(run: seq<Step>, l: nat) returns (steps: seq<Step>, end: State)
    requires Runs(INITIAL, run) && l < |After(INITIAL, run).leases|
    ensures var s := After(INITIAL, run);
            Runs(s, steps) && Only(s, steps, l) && After(s, steps) == end && Cleared(end, l)
  {
    RunKeeps(INITIAL, run);
    steps, end := Drain(After(INITIAL, run), l, 0);
    WoundUpIsCleared(end, l);
  }
}
