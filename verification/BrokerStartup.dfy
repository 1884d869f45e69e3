/** Starting the shared client broker of one identity: any number of starters and brokers, coordinated by a
    startup lock and an owner lock.  A process that dies releases its locks and its endpoint; the socket
    file it was listening on stays behind. */
module BrokerStartup {
  import opened Common

  datatype Process =
    // starters
    | Trying                  // first attach, then waiting for the startup lock
    | Starting(started: bool) // holds the startup lock
    | Probing                 // holds the startup lock and, for a moment, the owner lock
    // brokers
    | Fresh
    | Owner                   // owner lock taken
    | Unlinked                // old socket file removed
    | Listening               // listening, endpoint not bound yet
    | Open                    // listening with a bound endpoint
    | Resuming                // endpoint closed for a rebuild
    | Draining                // no longer accepting; the endpoint is closed before the next step
    | Cleaned                 // own socket file removed
    | Gone

  datatype State = State(processes: seq<Process>, startup: Option<nat>, owner: Option<nat>, socket: Option<nat>)

  const INITIAL := State([], None, None, None)

  datatype Step =
    | Arrive
    | Attach(p: nat)
    | LockStartup(p: nat)
    | Probe(p: nat)
    | Spawn(p: nat)
    | Quit(p: nat)       // the starter times out or fails
    | TakeOwner(p: nat)
    | LoseRace(p: nat)
    | Unlink(p: nat)
    | Listen(p: nat)
    | Bind(p: nat)
    | Suspend(p: nat)
    | Rebind(p: nat)
    | Stop(p: nat)
    | Cleanup(p: nat)
    | Release(p: nat)
    | Crash(p: nat)

  predicate Serving(q: Process) {
    q.Listening? || q.Open? || q.Resuming?
  }

  predicate HoldsOwner(q: Process) {
    q.Probing? || q.Owner? || q.Unlinked? || Serving(q) || q.Draining? || q.Cleaned?
  }

  predicate HoldsStartup(q: Process) {
    q.Starting? || q.Probing?
  }

  predicate Is(s: State, p: nat, q: Process) {
    p < |s.processes| && s.processes[p] == q
  }

  predicate Enabled(s: State, step: Step) {
    match step
    case Arrive => true
    case Attach(p) =>
      && p < |s.processes| && (s.processes[p].Trying? || s.processes[p].Starting?)
      && s.socket.Some? && s.socket.value < |s.processes| && Serving(s.processes[s.socket.value])
    case LockStartup(p) => Is(s, p, Trying) && s.startup.None?
    case Probe(p) => Is(s, p, Starting(false)) && s.owner.None?
    case Spawn(p) => Is(s, p, Probing)
    case Quit(p) => p < |s.processes| && (s.processes[p].Trying? || HoldsStartup(s.processes[p]))
    case TakeOwner(p) => Is(s, p, Fresh) && s.owner.None?
    case LoseRace(p) => Is(s, p, Fresh) && s.owner.Some?
    case Unlink(p) => Is(s, p, Owner)
    case Listen(p) => Is(s, p, Unlinked)
    case Bind(p) => Is(s, p, Listening)
    case Suspend(p) => Is(s, p, Open)
    case Rebind(p) => Is(s, p, Resuming)
    case Stop(p) => p < |s.processes| && Serving(s.processes[p])
    case Cleanup(p) => Is(s, p, Draining)
    case Release(p) => Is(s, p, Cleaned)
    case Crash(p) => p < |s.processes| && !s.processes[p].Gone?
  }

  function Held(lock: Option<nat>, p: nat, holds: bool): Option<nat> {
    if holds then Some(p) else if lock == Some(p) then None else lock
  }

  function Moves(s: State, p: nat, q: Process): State
    requires p < |s.processes|
  {
    s.(processes := s.processes[p := q], startup := Held(s.startup, p, HoldsStartup(q)),
       owner := Held(s.owner, p, HoldsOwner(q)))
  }

  /** What the acting process becomes. */
  function Becomes(s: State, step: Step): Process {
    match step
    case LockStartup(_) => Starting(false)
    case Probe(_) => Probing
    case Spawn(_) => Starting(true)
    case TakeOwner(_) => Owner
    case Unlink(_) => Unlinked
    case Listen(_) => if s.socket.Some? then Gone else Listening // binding a path that exists fails
    case Bind(_) => Open
    case Suspend(_) => Resuming
    case Rebind(_) => Open
    case Stop(_) => Draining
    case Cleanup(_) => Cleaned
    case _ => Gone
  }

  /** What the step does to the socket file. */
  function SocketAfter(s: State, step: Step): Option<nat> {
    if step.Unlink? || step.Cleanup? then None
    else if step.Listen? && s.socket.None? then Some(step.p)
    else s.socket
  }

  function Apply(s: State, step: Step): State
    requires Enabled(s, step)
  {
    if step.Arrive? then s.(processes := s.processes + [Trying])
    else
      var moved := Moves(s, step.p, Becomes(s, step)).(socket := SocketAfter(s, step));
      if step.Spawn? then moved.(processes := moved.processes + [Fresh]) else moved
  }

  predicate Runs(s: State, steps: seq<Step>)
    decreases |steps|
  {
    steps == [] || (Enabled(s, steps[0]) && Runs(Apply(s, steps[0]), steps[1..]))
  }

  function After(s: State, steps: seq<Step>): State
    requires Runs(s, steps)
    decreases |steps|
  {
    if steps == [] then s else After(Apply(s, steps[0]), steps[1..])
  }

  // ----- the invariant -----

  ghost predicate Locks(s: State) {
    && (forall p :: 0 <= p < |s.processes| ==> (HoldsOwner(s.processes[p]) <==> s.owner == Some(p)))
    && (forall p :: 0 <= p < |s.processes| ==> (HoldsStartup(s.processes[p]) <==> s.startup == Some(p)))
    && (s.owner.Some? ==> s.owner.value < |s.processes|) && (s.startup.Some? ==> s.startup.value < |s.processes|)
  }

  /** The socket path leads to a serving broker while there is one, and is free for one about to listen. */
  ghost predicate Path(s: State) {
    forall p :: 0 <= p < |s.processes| ==>
      && (Serving(s.processes[p]) ==> s.socket == Some(p))
      && (s.processes[p].Unlinked? || s.processes[p].Cleaned? ==> s.socket.None?)
  }

  ghost predicate Inv(s: State) {
    Locks(s) && Path(s)
  }

  lemma MovesLocks(s: State, p: nat, q: Process)
    requires Locks(s) && p < |s.processes|
    requires HoldsOwner(q) ==> s.owner.None? || s.owner == Some(p)
    requires HoldsStartup(q) ==> s.startup.None? || s.startup == Some(p)
    ensures Locks(Moves(s, p, q))
  {
  }

  lemma StepLocks(s: State, step: Step)
    requires Locks(s) && Enabled(s, step)
    ensures Locks(Apply(s, step))
  {
    if !step.Arrive? {
      assert HoldsOwner(Becomes(s, step)) ==> HoldsOwner(s.processes[step.p]) || s.owner.None?;
      assert HoldsStartup(Becomes(s, step)) ==> HoldsStartup(s.processes[step.p]) || s.startup.None?;
      MovesLocks(s, step.p, Becomes(s, step));
    }
  }

  lemma StepPath(s: State, step: Step)
    requires Inv(s) && Enabled(s, step)
    ensures Path(Apply(s, step))
  {
    var n := Apply(s, step);
    forall p | 0 <= p < |s.processes|
      ensures Serving(n.processes[p]) ==> n.socket == Some(p)
      ensures n.processes[p].Unlinked? || n.processes[p].Cleaned? ==> n.socket.None?
    {
      assert HoldsOwner(s.processes[p]) <==> s.owner == Some(p);
      if !step.Arrive? {
        assert HoldsOwner(s.processes[step.p]) <==> s.owner == Some(step.p);
      }
    }
  }

  lemma StepKeeps(s: State, step: Step)
    requires Inv(s) && Enabled(s, step)
    ensures Inv(Apply(s, step))
  {
    StepLocks(s, step);
    StepPath(s, step);
  }

  lemma {:induction false} RunKeeps(s: State, steps: seq<Step>)
    requires Inv(s) && Runs(s, steps)
    ensures Inv(After(s, steps))
    decreases |steps|
  {
    if steps != [] {
      StepKeeps(s, steps[0]);
      RunKeeps(Apply(s, steps[0]), steps[1..]);
    }
  }

  // ----- what it is for -----

  /** An endpoint can be open: from its binding until the broker has drained. */
  predicate MayHaveEndpoint(q: Process) {
    Serving(q) || q.Draining?
  }

  /** At most one process holds the owner lock, so at most one broker of the identity serves or still has its
      endpoint open; and no starter probes the lock meanwhile. */
  lemma OneBroker(run: seq<Step>, p: nat, q: nat)
    requires Runs(INITIAL, run) && p < |After(INITIAL, run).processes| && q < |After(INITIAL, run).processes|
    requires HoldsOwner(After(INITIAL, run).processes[p]) && HoldsOwner(After(INITIAL, run).processes[q])
    ensures p == q
  {
    RunKeeps(INITIAL, run);
  }

  lemma OneEndpoint(run: seq<Step>, p: nat, q: nat)
    requires Runs(INITIAL, run) && p < |After(INITIAL, run).processes| && q < |After(INITIAL, run).processes|
    requires MayHaveEndpoint(After(INITIAL, run).processes[p]) && HoldsOwner(After(INITIAL, run).processes[q])
    ensures p == q && After(INITIAL, run).owner == Some(p)
  {
    OneBroker(run, p, q);
    RunKeeps(INITIAL, run);
  }

  /** Only a broker that has stopped or died ever loses its socket file, and a broker about to listen always
      finds the path free. */
  lemma ServingKeepsSocket(run: seq<Step>, step: Step, q: nat)
    requires Runs(INITIAL, run) && Enabled(After(INITIAL, run), step)
    requires q < |After(INITIAL, run).processes| && Serving(After(INITIAL, run).processes[q])
    ensures var s := After(INITIAL, run);
            && s.socket == Some(q)
            && !step.Unlink? && !step.Cleanup? && !step.Listen?
            && Apply(s, step).socket == Some(q)
  {
    RunKeeps(INITIAL, run);
  }

  /** A starter can attach exactly while a broker serves, and then to that broker, the only owner. */
  lemma AttachIff(run: seq<Step>, p: nat)
    requires Runs(INITIAL, run) && p < |After(INITIAL, run).processes|
    requires After(INITIAL, run).processes[p].Trying? || After(INITIAL, run).processes[p].Starting?
    ensures var s := After(INITIAL, run);
            && (Enabled(s, Attach(p)) <==> exists b :: 0 <= b < |s.processes| && Serving(s.processes[b]))
            && (Enabled(s, Attach(p)) ==> s.owner == s.socket && Serving(s.processes[s.socket.value]))
  {
    RunKeeps(INITIAL, run);
  }

  /** A broker that stops by itself has removed its socket file when it gives up the owner lock. */
  lemma StopsClean(run: seq<Step>, p: nat)
    requires Runs(INITIAL, run) && Enabled(After(INITIAL, run), Release(p))
    ensures After(INITIAL, run).socket.None? && Apply(After(INITIAL, run), Release(p)).owner.None?
  {
    RunKeeps(INITIAL, run);
  }

  /** A process that will spawn nothing any more. */
  predicate Spent(q: Process) {
    !q.Trying? && q != Starting(false) && !q.Probing?
  }

  lemma {:induction false} SpentStays(s: State, steps: seq<Step>, p: nat)
    requires Runs(s, steps) && p < |s.processes| && Spent(s.processes[p])
    ensures Spawn(p) !in steps
    decreases |steps|
  {
    if steps != [] {
      SpentStays(Apply(s, steps[0]), steps[1..], p);
      assert steps == [steps[0]] + steps[1..];
    }
  }

  /** A starter starts at most one broker. */
  lemma {:induction false} SpawnsOnce(s: State, steps: seq<Step>, p: nat, i: nat, j: nat)
    requires Runs(s, steps) && i < j < |steps| && steps[i] == Spawn(p)
    ensures steps[j] != Spawn(p)
    decreases |steps|
  {
    if i == 0 {
      SpentStays(Apply(s, steps[0]), steps[1..], p);
      assert steps[1..][j - 1] == steps[j];
    } else {
      SpawnsOnce(Apply(s, steps[0]), steps[1..], p, i - 1, j - 1);
    }
  }

  lemma First(s: State, step: Step, rest: seq<Step>)
    requires Enabled(s, step) && Runs(Apply(s, step), rest)
    ensures Runs(s, [step] + rest) && After(s, [step] + rest) == After(Apply(s, step), rest)
  {
    assert ([step] + rest)[1..] == rest;
  }

  /** While neither lock is held, a new starter can bring up a broker, whatever was left behind at the socket path, and
      attach to it. */
  lemma CanServe(s: State) returns (steps: seq<Step>)
    requires Inv(s) && s.owner.None? && s.startup.None?
    ensures Runs(s, steps)
    ensures var (n, p) := (After(s, steps), |s.processes|);
            && n.processes == s.processes + [Gone, Open] && n.owner == n.socket == Some(p + 1) && n.startup.None?
  {
    var p := |s.processes|;
    var s1 := Apply(s, Arrive);
    var s2 := Apply(s1, LockStartup(p));
    var s3 := Apply(s2, Probe(p));
    var s4 := Apply(s3, Spawn(p));
    var rest := ComesUp(s4, p, p + 1);
    First(s3, Spawn(p), rest);
    First(s2, Probe(p), [Spawn(p)] + rest);
    First(s1, LockStartup(p), [Probe(p)] + ([Spawn(p)] + rest));
    First(s, Arrive, [LockStartup(p)] + ([Probe(p)] + ([Spawn(p)] + rest)));
    steps := [Arrive] + ([LockStartup(p)] + ([Probe(p)] + ([Spawn(p)] + rest)));
  }

  /** A fresh broker comes up and its starter attaches. */
  lemma ComesUp(s: State, p: nat, b: nat) returns (steps: seq<Step>)
    requires p < b < |s.processes| && s.processes[p] == Starting(true) && s.processes[b].Fresh?
    requires s.owner.None? && s.startup == Some(p)
    ensures Runs(s, steps)
    ensures After(s, steps) == State(s.processes[p := Gone][b := Open], None, Some(b), Some(b))
  {
    var s1 := Apply(s, TakeOwner(b));
    var s2 := Apply(s1, Unlink(b));
    var rest := Listens(s2, p, b);
    First(s1, Unlink(b), rest);
    First(s, TakeOwner(b), [Unlink(b)] + rest);
    steps := [TakeOwner(b)] + ([Unlink(b)] + rest);
    assert s2.processes[p := Gone][b := Open] == s.processes[p := Gone][b := Open];
  }

  lemma Listens(s: State, p: nat, b: nat) returns (steps: seq<Step>)
    requires p < b < |s.processes| && s.processes[p] == Starting(true) && s.processes[b].Unlinked?
    requires s.owner == Some(b) && s.startup == Some(p) && s.socket.None?
    ensures Runs(s, steps)
    ensures After(s, steps) == State(s.processes[p := Gone][b := Open], None, Some(b), Some(b))
  {
    var s1 := Apply(s, Listen(b));
    var s2 := Apply(s1, Bind(b));
    First(s2, Attach(p), []);
    First(s1, Bind(b), [Attach(p)]);
    First(s, Listen(b), [Bind(b)] + [Attach(p)]);
    steps := [Listen(b)] + ([Bind(b)] + [Attach(p)]);
    assert Apply(s2, Attach(p)).processes == s.processes[p := Gone][b := Open];
  }

  lemma ListenSucceeds(run: seq<Step>, p: nat)
    requires Runs(INITIAL, run) && Enabled(After(INITIAL, run), Listen(p))
    ensures Apply(After(INITIAL, run), Listen(p)).processes[p].Listening?
  {
    RunKeeps(INITIAL, run);
  }
}
