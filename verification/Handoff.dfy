/** The self-update handoff: an old server installs a newer binary, spawns it as a candidate,
    closes its endpoint, activates the candidate and either commits or rolls back.  A committed
    candidate is an ordinary server, so it may hand off again: the chain is unbounded.

    Every process ever spawned is an entry of `procs`; its index is its process id and, for a
    candidate, also the (random, hence distinct) identifier of the update operation it serves.
    Each `Step` is one atomic action of one process; a run is any enabled sequence of steps. */
module Handoff {
  import opened Common

  type Pid = nat
  type u32 = x: int | 0 <= x < 0x1_0000_0000

  datatype Version = Version(major: u32, minor: u32, patch: u32)

  /** The derived, lexicographic order on versions. */
  predicate Below(a: Version, b: Version) {
    || a.major < b.major
    || (a.major == b.major && a.minor < b.minor)
    || (a.major == b.major && a.minor == b.minor && a.patch < b.patch)
  }

  datatype Command = Activate | Commit | Abort

  datatype Event = Prepared(version: Version) | Ready(version: Version)
                 | ConsumerConnected | ClientSucceeded | Failed

  datatype Disposition = Pending | Committed | Aborted

  /** Where the supervisor of a process stands.  The endpoint is bound in `Opening` and `Serving`. */
  datatype Stage =
    | Preflight  // spawned candidate, before it reports Prepared
    | Waiting    // Prepared sent, waiting for the activation command
    | Binding    // entitled to bind: an activated candidate, or a server after a rollback
    | Opening    // bound, initial publication still running
    | Serving    // bound and accepting connections
    | Handing    // endpoint closed, coordinating a handoff
    | Gone       // exited, crashed or killed

  /** The one update a process may have in progress (the update permit). */
  datatype Work =
    | Idle
    | Installing             // previous binary retained, updater running
    | Spawned(child: Pid)    // candidate started, Prepared not heard yet
    | Announcing(child: Pid) // candidate prepared, Restarting being sent to the client
    | Queued(child: Pid)     // in the handoff channel
    | Taken(child: Pid)      // chosen by the serving loop, connections draining
    | Confirming(child: Pid, progress: nat) // 0: nothing sent, 1: Activate sent, 2: Ready heard
    | RollingBack(child: Pid) // Abort sent, waiting for the candidate's exit
    | Committing(child: Pid)  // Commit sent, previous binary still retained
    | Supervising(child: Pid) // previous binary dropped

  /** One Confirm connection inside a candidate; `notify` marks the connection that announced the consumer. */
  datatype Ask =
    | Asked(op: Pid, observed: Version)
    | Swapping
    | Notifying
    | Holding(notify: bool)
    | Replying(notify: bool)

  datatype Process = Process(
    version: Version,
    parent: Option<Pid>,
    stage: Stage,
    leaving: bool,             // the serving loop has chosen its outcome
    work: Work,
    retained: Option<Version>, // the rollback copy owned by this process
    watched: bool,             // still answers for its own handoff (`candidate` is Some)
    disposition: Disposition,
    inbox: seq<Command>,       // control pipe from the parent
    events: seq<Event>,        // everything ever sent to the parent
    heard: nat,                // how much of it the parent has read
    announced: bool,
    asks: map<nat, Ask>)

  /** What a client asked to have confirmed, and of which server. */
  datatype Request = Request(server: Pid, op: Pid, observed: Version)

  datatype State = State(
    procs: seq<Process>,
    disk: Version,                  // version of the installed executable
    commits: set<Pid>,              // candidates to which Commit was sent
    rollbacks: set<Pid>,            // candidates whose binary was replaced by the retained one
    requests: seq<Request>,         // every Confirm ever received; its index is its identifier
    answers: set<(nat, Version)>)   // Committed replies: to which request, with which version

  datatype Step =
    | StartAccepted(p: Pid)
    | UpdaterWrites(p: Pid, v: Version)
    | PrepareFails(p: Pid)
    | PrepareCurrent(p: Pid)
    | SpawnCandidate(p: Pid)
    | HearPrepared(p: Pid)
    | PreparationAborted(p: Pid)
    | AnnounceRestart(p: Pid)
    | TakeHandoff(p: Pid)
    | Leave(p: Pid)
    | CloseAndHand(p: Pid)
    | CloseAndExit(p: Pid, failed: bool)
    | SendActivate(p: Pid)
    | HearReady(p: Pid)
    | HearConsumerAndCommit(p: Pid)
    | GiveUp(p: Pid)
    | ReapAndRestore(p: Pid)
    | DropRetained(p: Pid)
    | SuperviseEnds(p: Pid, failed: bool)
    | FinishPreflight(p: Pid)
    | ReadActivate(p: Pid)
    | Bind(p: Pid)
    | Open(p: Pid)
    | StartupFails(p: Pid)
    | ReadVerdict(p: Pid)
    | LoseParent(p: Pid)
    | NewAsk(p: Pid, id: nat, op: Pid, observed: Version)
    | AdvanceAsk(p: Pid, id: nat)
    | DropAsk(p: Pid, id: nat)
    | Die(p: Pid)

  function Fresh(version: Version, parent: Option<Pid>, stage: Stage): Process {
    Process(version, parent, stage, false, Idle, None, parent.Some?, Pending, [], [], 0, false, map[])
  }

  /** `serve`: the first server is bound and runs the installed binary. */
  function Init(v: Version): State {
    State([Fresh(v, None, Serving)], v, {}, {}, [], {})
  }

  predicate Alive(s: State, p: Pid) {
    p < |s.procs| && !s.procs[p].stage.Gone?
  }

  predicate Bound(s: State, p: Pid) {
    p < |s.procs| && (s.procs[p].stage.Opening? || s.procs[p].stage.Serving?)
  }

  function Exited(q: Process, failed: bool): Process {
    q.(stage := Gone, asks := map[],
       events := if failed && q.parent.Some? then q.events + [Failed] else q.events)
  }

  function Put(s: State, p: Pid, q: Process): State
    requires p < |s.procs|
  {
    s.(procs := s.procs[p := q])
  }

  function Send(s: State, c: Pid, m: Command): State
    requires c < |s.procs|
  {
    Put(s, c, s.procs[c].(inbox := s.procs[c].inbox + [m]))
  }

  predicate HasChild(w: Work) {
    !w.Idle? && !w.Installing?
  }

  /** The guards of the source, branch by branch. */
  predicate Enabled(s: State, step: Step) {
    // The updater runs in a process group of its own: it outlives the server that started it.
    (if step.UpdaterWrites? then step.p < |s.procs| else Alive(s, step.p)) &&
    var q := s.procs[step.p];
    var c := if HasChild(q.work) then q.work.child else 0;
    (HasChild(q.work) ==> c < |s.procs|) &&
    match step
    // A Start request is refused only while the disposition is Pending or the permit is taken.
    case StartAccepted(_) => q.stage.Serving? && q.work.Idle? && (q.watched ==> !q.disposition.Pending?)
    case UpdaterWrites(_, _) => q.work.Installing?
    case PrepareFails(_) => q.work.Installing? && q.retained.Some?
    case PrepareCurrent(_) => q.work.Installing? && s.disk == q.version
    case SpawnCandidate(_) => q.work.Installing? && Below(q.version, s.disk)
    case HearPrepared(_) =>
      q.work.Spawned? && s.procs[c].heard == 0 && |s.procs[c].events| > 0
      && s.procs[c].events[0] == Prepared(s.procs[c].version)
    case PreparationAborted(_) => q.work.Spawned? || q.work.Announcing?
    case AnnounceRestart(_) => q.work.Announcing?
    case TakeHandoff(_) => q.stage.Serving? && !q.leaving && q.work.Queued?
    case Leave(_) => q.stage.Serving? && !q.leaving
    case CloseAndHand(_) => q.stage.Serving? && q.work.Taken? && q.asks == map[]
    case CloseAndExit(_, _) =>
      q.stage.Serving? && q.leaving && q.asks == map[]
      && (q.work.Idle? || (q.work.Queued? && q.retained.Some?))
    case SendActivate(_) => q.work.Confirming? && q.work.progress == 0 && Alive(s, c)
    case HearReady(_) =>
      q.work.Confirming? && q.work.progress == 1
      && s.procs[c].heard == 1 && |s.procs[c].events| > 1
      && s.procs[c].events[1] == Ready(s.procs[c].version)
    case HearConsumerAndCommit(_) =>
      q.work.Confirming? && q.work.progress == 2 && Alive(s, c)
      && s.procs[c].heard == 2 && |s.procs[c].events| > 2
      && s.procs[c].events[2] == ConsumerConnected
    case GiveUp(_) => q.work.Confirming?
    case ReapAndRestore(_) => q.work.RollingBack? && q.retained.Some?
    case DropRetained(_) => q.work.Committing?
    case SuperviseEnds(_, _) => q.work.Supervising? && !Alive(s, c)
    case FinishPreflight(_) => q.stage.Preflight?
    case ReadActivate(_) => q.stage.Waiting? && q.inbox != [] && q.inbox[0] == Activate
    case Bind(_) => q.stage.Binding?
    case Open(_) => q.stage.Opening?
    case StartupFails(_) => q.stage.Binding? || q.stage.Opening?
    case ReadVerdict(_) =>
      q.parent.Some? && !q.stage.Preflight? && !q.stage.Waiting?
      && q.disposition.Pending? && q.inbox != []
    case LoseParent(_) =>
      q.parent.Some? && !q.stage.Preflight? && !q.stage.Waiting? && q.disposition.Pending?
    case NewAsk(_, id, _, _) => q.stage.Serving? && id == |s.requests|
    case AdvanceAsk(_, id) => id in q.asks && AskReady(q, q.asks[id])
    case DropAsk(_, id) => id in q.asks && (q.asks[id].Asked? || q.asks[id].Holding? || q.asks[id].Replying?)
    case Die(_) => true
  }

  /** A confirmation waits only while the disposition is Pending. */
  predicate AskReady(q: Process, a: Ask) {
    a.Holding? ==> !q.disposition.Pending?
  }

  /** The state after an enabled step.  No process ever leaves the list. */
  function Apply(s: State, step: Step): (t: State)
    requires Enabled(s, step)
    ensures |t.procs| == |s.procs| + if step.SpawnCandidate? then 1 else 0
  {
    var p := step.p;
    var q := s.procs[p];
    match step
    case StartAccepted(_) => Put(s, p, q.(work := Installing, retained := Some(s.disk)))
    case UpdaterWrites(_, v) => s.(disk := v)
    case PrepareFails(_) =>
      Put(s, p, q.(work := Idle, retained := None)).(disk := q.retained.value)
    case PrepareCurrent(_) => Put(s, p, q.(work := Idle, retained := None))
    case SpawnCandidate(_) =>
      var t := Put(s, p, q.(work := Spawned(|s.procs|)));
      t.(procs := t.procs + [Fresh(s.disk, Some(p), Preflight)])
    case HearPrepared(_) =>
      var c := q.work.child;
      Put(Put(s, c, s.procs[c].(heard := 1)), p, q.(work := Announcing(c)))
    case PreparationAborted(_) =>
      Put(Send(s, q.work.child, Abort), p, q.(work := RollingBack(q.work.child)))
    case AnnounceRestart(_) => Put(s, p, q.(work := Queued(q.work.child)))
    case TakeHandoff(_) => Put(s, p, q.(work := Taken(q.work.child), leaving := true))
    case Leave(_) => Put(s, p, q.(leaving := true))
    case CloseAndHand(_) => Put(s, p, q.(stage := Handing, work := Confirming(q.work.child, 0)))
    case CloseAndExit(_, failed) =>
      if q.work.Idle? then Put(s, p, Exited(q, failed))
      else
        var c := q.work.child;
        Put(Put(s, c, Exited(s.procs[c], false)), p, Exited(q, failed).(retained := None))
          .(disk := q.retained.value, rollbacks := s.rollbacks + {c})
    case SendActivate(_) =>
      Put(Send(s, q.work.child, Activate), p, q.(work := Confirming(q.work.child, 1)))
    case HearReady(_) =>
      var c := q.work.child;
      Put(Put(s, c, s.procs[c].(heard := 2)), p, q.(work := Confirming(c, 2)))
    case HearConsumerAndCommit(_) =>
      var c := q.work.child;
      var child := s.procs[c].(heard := 3, inbox := s.procs[c].inbox + [Commit]);
      Put(Put(s, c, child), p, q.(work := Committing(c))).(commits := s.commits + {c})
    case GiveUp(_) =>
      Put(Send(s, q.work.child, Abort), p, q.(work := RollingBack(q.work.child)))
    case ReapAndRestore(_) =>
      var c := q.work.child;
      var idle := q.(work := Idle, retained := None);
      var next := if q.stage.Handing? then idle.(stage := Binding, leaving := false, watched := false) else idle;
      Put(Put(s, c, Exited(s.procs[c], false)), p, next)
        .(disk := q.retained.value, rollbacks := s.rollbacks + {c})
    case DropRetained(_) => Put(s, p, q.(work := Supervising(q.work.child), retained := None))
    case SuperviseEnds(_, failed) => Put(s, p, Exited(q, failed))
    case FinishPreflight(_) => Put(s, p, q.(stage := Waiting, events := q.events + [Prepared(q.version)]))
    case ReadActivate(_) => Put(s, p, q.(stage := Binding, inbox := q.inbox[1..]))
    case Bind(_) => Put(s, p, q.(stage := Opening))
    case Open(_) =>
      Put(s, p, q.(stage := Serving,
                   events := if q.watched then q.events + [Ready(q.version)] else q.events))
    case StartupFails(_) => Put(s, p, Exited(q, true))
    case ReadVerdict(_) =>
      Put(s, p, q.(disposition := if q.inbox[0].Commit? then Committed else Aborted, inbox := q.inbox[1..]))
    case LoseParent(_) => Put(s, p, q.(disposition := Aborted))
    case NewAsk(_, id, op, observed) =>
      Put(s, p, q.(asks := q.asks[id := Asked(op, observed)])).(requests := s.requests + [Request(p, op, observed)])
    case AdvanceAsk(_, id) =>
      Put(s, p, AskNext(q, p, id)).(answers := s.answers + if Answers(q, id) then {(id, q.version)} else {})
    case DropAsk(_, id) => Put(s, p, q.(asks := q.asks - {id}))
    case Die(_) => Put(s, p, Exited(q, false))
  }

  /** `candidate_confirmation_response`, one atomic action of one connection task at a time. */
  function AskNext(q: Process, p: Pid, id: nat): Process
    requires id in q.asks && AskReady(q, q.asks[id])
  {
    match q.asks[id]
    case Asked(op, observed) =>
      if q.watched && op == p && observed == q.version then
        q.(asks := q.asks[id := if q.disposition.Pending? then Swapping else Holding(false)])
      else
        q.(asks := q.asks - {id}) // Waiting or Failed, never Committed
    case Swapping =>
      q.(announced := true, asks := q.asks[id := if q.announced then Holding(false) else Notifying])
    case Notifying => q.(events := q.events + [ConsumerConnected], asks := q.asks[id := Holding(true)])
    case Holding(notify) =>
      q.(asks := if q.disposition.Committed? then q.asks[id := Replying(notify)] else q.asks - {id})
    case Replying(notify) =>
      q.(events := if notify then q.events + [ClientSucceeded] else q.events, asks := q.asks - {id})
  }

  /** The waiting task sees Committed and answers its client. */
  predicate Answers(q: Process, id: nat) {
    id in q.asks && q.asks[id].Holding? && q.disposition.Committed?
  }

  /** A candidate whose handoff its living parent has neither committed nor finished rolling back. */
  function HandChild(q: Process): Option<Pid> {
    if q.stage.Handing? && (q.work.Confirming? || q.work.RollingBack?) then Some(q.work.child) else None
  }

  predicate Handed(s: State, c: Pid) {
    && c < |s.procs| && s.procs[c].parent.Some?
    && s.procs[c].parent.value < |s.procs| && HandChild(s.procs[s.procs[c].parent.value]) == Some(c)
  }

  /** The steps under which the protocol is safe: an update is not started by a candidate that its
      parent may still roll back.  The source tests only `disposition == Pending`. */
  predicate Guarded(s: State, step: Step) {
    step.StartAccepted? ==> !Handed(s, step.p)
  }

  /** Executing a list of steps: every one enabled, and guarded if `guarded` is set. */
  predicate Runs(s: State, steps: seq<Step>, guarded: bool)
    decreases |steps|
  {
    steps == [] ||
    (Enabled(s, steps[0]) && (guarded ==> Guarded(s, steps[0])) && Runs(Apply(s, steps[0]), steps[1..], guarded))
  }

  /** The state a run ends in; execution stops at a step that is not enabled. */
  function After(s: State, steps: seq<Step>): State
    decreases |steps|
  {
    if steps == [] || !Enabled(s, steps[0]) then s else After(Apply(s, steps[0]), steps[1..])
  }
}
