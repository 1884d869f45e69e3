/** The client's half of a self-update: ask for it, then confirm the restarted server until a deadline.
    Times are in nanoseconds; the server's answers and the time they take are arbitrary. */
module UpdateClient {
  import opened Common
  import H = Handoff
  import R = HandoffRuns

  type Version = H.Version

  const MILLISECOND := 1_000_000
  const SECOND := 1000 * MILLISECOND
  const ATTEMPT_TIMEOUT := 5 * SECOND
  const MAX_RECONNECT := 60 // seconds
  const FIRST_DELAY := 100 * MILLISECOND
  const MAX_DELAY := SECOND

  datatype Response =
    | Current(version: Version)
    | Committed(version: Version)
    | Restarting(operation: nat, version: Version, reconnect: nat)
    | Failed(message: string)
    | Busy
    | Waiting

  datatype Answer = Reply(response: Response) | Broken(error: string) | Late

  datatype Outcome =
    | Updated(version: Version)
    | Refused(message: string)
    | WrongVersion(version: Version)
    | InvalidDeadline
    | TimedOut(detail: Option<Answer>)
    | Unexpected(answer: Answer)

  /** What the network and the scheduler do with one attempt: the answer, how long it takes to come, and how
      much longer than asked the pause after it lasts. */
  datatype Behaviour = Behaviour(answer: Answer, takes: nat, oversleeps: nat)

  type Network = nat -> Behaviour

  /** One confirmation attempt: when it began, how long it was allowed to take, when and how it ended. */
  datatype Attempt = Attempt(begun: nat, limit: nat, ended: nat, answer: Answer)

  // ----- what a run of attempts must look like -----

  /** The answer that settles the question, if it does. */
  function Settles(answer: Answer, version: Version): Option<Outcome> {
    match answer
    case Reply(Committed(v)) => Some(if v == version then Updated(v) else WrongVersion(v))
    case Reply(Current(v)) => if v == version then Some(Updated(v)) else None
    case Reply(Failed(message)) => Some(Refused(message))
    case _ => None
  }

  /** Worth remembering for the timeout message. */
  predicate Complaint(answer: Answer) {
    !answer.Reply? || (!answer.response.Busy? && !answer.response.Waiting?)
  }

  ghost function LatestComplaint(log: seq<Attempt>): Option<Answer> {
    if log == [] then None
    else if Complaint(log[|log| - 1].answer) then Some(log[|log| - 1].answer)
    else LatestComplaint(log[..|log| - 1])
  }

  function Min(a: nat, b: nat): nat {
    if a <= b then a else b
  }

  /** The pause after the attempt numbered `n` from zero. */
  ghost function Delay(n: nat): nat {
    if n == 0 then FIRST_DELAY else Min(2 * Delay(n - 1), MAX_DELAY)
  }

  /** All pauses of the first `n` attempts together. */
  ghost function Slept(n: nat): nat {
    if n == 0 then 0 else Slept(n - 1) + Delay(n - 1)
  }

  /** When attempt number `n` is followed by the next, at the earliest. */
  ghost function Resumes(a: Attempt, n: nat, deadline: nat): nat {
    a.ended + if a.ended <= deadline then Min(Delay(n), deadline - a.ended) else 0
  }

  /** Attempt number `i` waited for the pause after the one before it. */
  ghost predicate Follows(log: seq<Attempt>, i: nat, deadline: nat)
    requires i < |log|
  {
    i > 0 ==> Resumes(log[i - 1], i - 1, deadline) <= log[i].begun
  }

  ghost predicate Timely(a: Attempt, start: nat, deadline: nat) {
    && start <= a.begun < deadline
    && a.begun <= a.ended <= a.limit == Min(a.begun + 5_000_000_000, deadline)
  }

  /** The attempts of one confirmation, paced by the doubling delay and all inside the deadline. */
  ghost predicate Paced(log: seq<Attempt>, start: nat, deadline: nat) {
    && (forall a <- log :: Timely(a, start, deadline))
    && (forall i :: 0 <= i < |log| ==> Follows(log, i, deadline))
  }

  ghost predicate Unsettled(log: seq<Attempt>, version: Version) {
    forall a <- log :: Settles(a.answer, version) == None
  }

  lemma PacedMore(log: seq<Attempt>, start: nat, deadline: nat, a: Attempt)
    requires Paced(log, start, deadline) && Timely(a, start, deadline)
    requires log != [] ==> Resumes(log[|log| - 1], |log| - 1, deadline) <= a.begun
    ensures Paced(log + [a], start, deadline) && (log + [a])[..|log|] == log
    ensures LatestComplaint(log + [a]) == if Complaint(a.answer) then Some(a.answer) else LatestComplaint(log)
  {
    assert (log + [a])[..|log|] == log;
    forall i | 0 <= i < |log| + 1
      ensures Follows(log + [a], i, deadline)
    {
      assert i < |log| ==> Follows(log, i, deadline);
    }
  }

  lemma {:induction false} LongDelay(n: nat)
    requires n >= 4
    ensures Delay(n) == MAX_DELAY
  {
    if n == 4 {
      assert Delay(1) == 200 * MILLISECOND && Delay(2) == 400 * MILLISECOND && Delay(3) == 800 * MILLISECOND;
    } else {
      LongDelay(n - 1);
    }
  }

  /** The pauses double from a tenth of a second up to a second. */
  lemma DelayIs(n: nat)
    ensures Delay(n) == if n == 0 then 100 * MILLISECOND else if n == 1 then 200 * MILLISECOND
                        else if n == 2 then 400 * MILLISECOND else if n == 3 then 800 * MILLISECOND else 1000 * MILLISECOND
  {
    if n >= 4 {
      LongDelay(n);
    }
  }

  lemma {:induction false} SleptLong(n: nat)
    requires n >= 4
    ensures Slept(n) == 1500 * MILLISECOND + (n - 4) * SECOND
  {
    if n == 4 {
      assert Delay(1) == 200 * MILLISECOND && Delay(2) == 400 * MILLISECOND && Delay(3) == 800 * MILLISECOND;
      assert Slept(1) == FIRST_DELAY && Slept(2) == 300 * MILLISECOND && Slept(3) == 700 * MILLISECOND;
    } else {
      SleptLong(n - 1);
      LongDelay(n - 1);
    }
  }

  /** Attempt number `n` cannot begin before all the pauses in front of it. */
  lemma {:induction false} BegunAfter(log: seq<Attempt>, start: nat, deadline: nat, n: nat)
    requires Paced(log, start, deadline) && n < |log|
    ensures start + Slept(n) <= log[n].begun < deadline
  {
    if n == 0 {
      assert log[n] in log;
    } else {
      assert log[n - 1] in log && log[n] in log && Follows(log, n, deadline);
      BegunAfter(log, start, deadline, n - 1);
    }
  }

  /** With a deadline of at most a minute there are at most 63 attempts. */
  lemma AttemptsBounded(log: seq<Attempt>, start: nat, seconds: nat)
    requires seconds <= MAX_RECONNECT && Paced(log, start, start + seconds * SECOND)
    ensures |log| <= 63
  {
    if |log| > 63 {
      var last := |log| - 1;
      BegunAfter(log, start, start + seconds * SECOND, last);
      SleptLong(last);
    }
  }

  lemma SleptBelow(n: nat)
    requires n < 63
    ensures Slept(n) < 60 * SECOND
  {
    if n >= 4 {
      SleptLong(n);
    } else {
      SleptLong(4);
      assert Slept(n) <= Slept(3) <= Slept(4);
    }
  }

  // ----- the client -----

  /** Attempt number `n`, begun at `now`: an answer that comes too late is none. */
  function Made(network: Network, n: nat, now: nat, deadline: nat): Attempt {
    var limit := Min(now + ATTEMPT_TIMEOUT, deadline);
    var b := network(n);
    if now + b.takes <= limit then Attempt(now, limit, now + b.takes, b.answer) else Attempt(now, limit, limit, Late)
  }

  /** When the client wakes after attempt number `n`. */
  ghost function Wakes(network: Network, a: Attempt, n: nat, deadline: nat): nat {
    Resumes(a, n, deadline) + network(n).oversleeps
  }

  /** The log is what this network makes of the client's attempts. */
  ghost predicate Played(log: seq<Attempt>, network: Network, start: nat, deadline: nat) {
    forall i :: 0 <= i < |log| ==> PlayedAt(log, network, start, deadline, i)
  }

  ghost predicate PlayedAt(log: seq<Attempt>, network: Network, start: nat, deadline: nat, i: nat)
    requires i < |log|
  {
    log[i] == Made(network, i, if i == 0 then start else Wakes(network, log[i - 1], i - 1, deadline), deadline)
  }

  /** When the next attempt begins. */
  ghost function Next(log: seq<Attempt>, network: Network, start: nat, deadline: nat): nat {
    if log == [] then start else Wakes(network, log[|log| - 1], |log| - 1, deadline)
  }

  lemma PlayedMore(log: seq<Attempt>, network: Network, start: nat, deadline: nat)
    requires Played(log, network, start, deadline)
    ensures Played(log + [Made(network, |log|, Next(log, network, start, deadline), deadline)], network, start, deadline)
  {
    var more := log + [Made(network, |log|, Next(log, network, start, deadline), deadline)];
    forall i | 0 <= i < |more|
      ensures PlayedAt(more, network, start, deadline, i)
    {
      assert i < |log| ==> PlayedAt(log, network, start, deadline, i);
    }
  }

  /** A log of attempts so far, none of them settling. */
  ghost predicate Logged(log: seq<Attempt>, network: Network, start: nat, deadline: nat, version: Version) {
    Paced(log, start, deadline) && Played(log, network, start, deadline) && Unsettled(log, version)
  }

  /** What one more attempt adds. */
  lemma LoggedMore(log: seq<Attempt>, network: Network, start: nat, deadline: nat, version: Version)
    requires Logged(log, network, start, deadline, version) && start <= Next(log, network, start, deadline) < deadline
    ensures var a := Made(network, |log|, Next(log, network, start, deadline), deadline);
            && Timely(a, start, deadline)
            && Paced(log + [a], start, deadline) && Played(log + [a], network, start, deadline)
            && (log + [a])[..|log|] == log
            && (Settles(a.answer, version) == None ==> Logged(log + [a], network, start, deadline, version))
            && Next(log + [a], network, start, deadline) == Wakes(network, a, |log|, deadline)
            && LatestComplaint(log + [a]) == if Complaint(a.answer) then Some(a.answer) else LatestComplaint(log)
  {
    var a := Made(network, |log|, Next(log, network, start, deadline), deadline);
    PacedMore(log, start, deadline, a);
    PlayedMore(log, network, start, deadline);
  }

  /** Where the confirmation loop stands: after these attempts, with this clock, delay and error. */
  ghost predicate Under(log: seq<Attempt>, network: Network, start: nat, deadline: nat, version: Version,
                        now: nat, delay: nat, lastError: Option<Answer>) {
    && start <= now == Next(log, network, start, deadline) && FIRST_DELAY <= delay == Delay(|log|)
    && Logged(log, network, start, deadline, version) && lastError == LatestComplaint(log)
  }

  lemma UnderMore(log: seq<Attempt>, network: Network, start: nat, deadline: nat, version: Version,
                  now: nat, delay: nat, lastError: Option<Answer>)
    requires Under(log, network, start, deadline, version, now, delay, lastError) && now < deadline
    ensures var a := Made(network, |log|, now, deadline);
            && a.ended <= deadline && now < a.ended + Min(delay, deadline - a.ended)
            && Paced(log + [a], start, deadline) && Played(log + [a], network, start, deadline)
            && (log + [a])[..|log|] == log
            && (Settles(a.answer, version) == None ==>
                  Under(log + [a], network, start, deadline, version,
                        a.ended + Min(delay, deadline - a.ended) + network(|log|).oversleeps, Min(2 * delay, MAX_DELAY),
                        if Complaint(a.answer) then Some(a.answer) else lastError))
  {
    LoggedMore(log, network, start, deadline, version);
  }

  method ConfirmCandidate(network: Network, start: nat, version: Version, reconnect: nat)
      returns (r: Outcome, ghost log: seq<Attempt>)
    requires 0 < reconnect <= MAX_RECONNECT
    ensures Paced(log, start, start + reconnect * SECOND) && 1 <= |log| <= 63
    ensures Played(log, network, start, start + reconnect * SECOND)
    ensures r.TimedOut? ==>
              && Unsettled(log, version) && r.detail == LatestComplaint(log)
              && Wakes(network, log[|log| - 1], |log| - 1, start + reconnect * SECOND) >= start + reconnect * SECOND
    ensures !r.TimedOut? ==>
              && Unsettled(log[..|log| - 1], version)
              && Settles(log[|log| - 1].answer, version) == Some(r)
    ensures r.Updated? ==>
              && r.version == version
              && log[|log| - 1].answer in {Reply(Committed(version)), Reply(Current(version))}
    // answer by answer: which ones end the confirmation, and how
    ensures forall i, v :: 0 <= i < |log| && log[i].answer == Reply(Committed(v)) ==>
              i == |log| - 1 && r == if v == version then Updated(version) else WrongVersion(v)
    ensures forall i :: 0 <= i < |log| && log[i].answer == Reply(Current(version)) ==> i == |log| - 1 && r == Updated(version)
    ensures forall i, m :: 0 <= i < |log| && log[i].answer == Reply(Failed(m)) ==> i == |log| - 1 && r == Refused(m)
    ensures !r.TimedOut? ==>
              var a := log[|log| - 1].answer;
              a.Reply? && (a.response.Committed? || a.response == Current(version) || a.response.Failed?)
    ensures r.TimedOut? ==> DetailFits(log, r.detail)
  {
    r, log := ConfirmUntil(network, start, version, start + reconnect * SECOND);
    AttemptsBounded(log, start, reconnect);
    DetailIs(log);
    if r.TimedOut? {
      OpenThroughout(log, version);
    } else {
      OpenBeforeLast(log, version);
    }
  }

  /** Attempts that settle nothing were not answered in a settling way. */
  lemma OpenThroughout(log: seq<Attempt>, version: Version)
    requires Unsettled(log, version)
    ensures forall i :: 0 <= i < |log| ==> Settles(log[i].answer, version) == None
  {
    assert forall i :: 0 <= i < |log| ==> log[i] in log;
  }

  lemma OpenBeforeLast(log: seq<Attempt>, version: Version)
    requires log != [] && Unsettled(log[..|log| - 1], version)
    ensures forall i :: 0 <= i < |log| - 1 ==> Settles(log[i].answer, version) == None
  {
    OpenThroughout(log[..|log| - 1], version);
    assert forall i :: 0 <= i < |log| - 1 ==> log[..|log| - 1][i] == log[i];
  }

  /** The latest answer other than Busy or Waiting, if there was one. */
  ghost predicate DetailFits(log: seq<Attempt>, detail: Option<Answer>) {
    match detail
    case None => forall a <- log :: a.answer == Reply(Busy) || a.answer == Reply(Waiting)
    case Some(answer) =>
      && answer != Reply(Busy) && answer != Reply(Waiting)
      && exists i :: 0 <= i < |log| && log[i].answer == answer
           && forall j :: i < j < |log| ==> log[j].answer == Reply(Busy) || log[j].answer == Reply(Waiting)
  }

  lemma {:induction false} DetailIs(log: seq<Attempt>)
    ensures DetailFits(log, LatestComplaint(log))
  {
    if log != [] {
      var front, last := log[..|log| - 1], log[|log| - 1];
      assert log == front + [last];
      if !Complaint(last.answer) {
        DetailIs(front);
        if LatestComplaint(front).Some? {
          var i :| 0 <= i < |front| && front[i].answer == LatestComplaint(front).value
            && forall j :: i < j < |front| ==> front[j].answer == Reply(Busy) || front[j].answer == Reply(Waiting);
          assert log[i].answer == LatestComplaint(log).value;
        }
      } else {
        assert log[|log| - 1].answer == LatestComplaint(log).value;
      }
    }
  }

  /** The confirmation loop against an absolute deadline. */
  method ConfirmUntil(network: Network, start: nat, version: Version, deadline: nat)
      returns (r: Outcome, ghost log: seq<Attempt>)
    requires start < deadline
    ensures Paced(log, start, deadline) && Played(log, network, start, deadline) && 1 <= |log|
    ensures r.TimedOut? ==>
              && Unsettled(log, version) && r.detail == LatestComplaint(log)
              && Wakes(network, log[|log| - 1], |log| - 1, deadline) >= deadline
    ensures !r.TimedOut? ==>
              && Unsettled(log[..|log| - 1], version)
              && Settles(log[|log| - 1].answer, version) == Some(r)
  {
    var now: nat, delay: nat, n: nat := start, FIRST_DELAY, 0;
    var lastError: Option<Answer> := None;
    log := [];
    while now < deadline
      invariant n == |log| && Under(log, network, start, deadline, version, now, delay, lastError)
      decreases deadline - now
    {
      var attempt := Made(network, n, now, deadline);
      UnderMore(log, network, start, deadline, version, now, delay, lastError);
      log := log + [attempt];
      var settled := Settles(attempt.answer, version);
      if settled.Some? {
        return settled.value, log;
      }
      if Complaint(attempt.answer) {
        lastError := Some(attempt.answer);
      }
      now := attempt.ended + Min(delay, deadline - attempt.ended) + network(n).oversleeps;
      delay, n := Min(2 * delay, MAX_DELAY), n + 1;
    }
    r := TimedOut(lastError);
  }

  /** A network on which every attempt is answered Busy at once. */
  const BUSY: Network := _ => Behaviour(Reply(Busy), 0, 0)

  lemma {:induction false} BusyBegins(log: seq<Attempt>, start: nat, deadline: nat, n: nat)
    requires Paced(log, start, deadline) && Played(log, BUSY, start, deadline) && n < |log|
    ensures log[n].begun == log[n].ended == start + Slept(n) && log[n].answer == Reply(Busy)
  {
    assert log[n] in log;
    assert Timely(log[n], start, deadline) && PlayedAt(log, BUSY, start, deadline, n);
    if n > 0 {
      BusyBegins(log, start, deadline, n - 1);
    }
  }

  /** The bound is exact: a server that stays busy for a minute is asked 63 times, and then the client gives up. */
  method AskBusyServer(start: nat, version: Version) returns (r: Outcome, ghost log: seq<Attempt>)
    ensures |log| == 63 && r == TimedOut(None)
  {
    r, log := ConfirmCandidate(BUSY, start, version, MAX_RECONNECT);
    ghost var deadline, last := start + MAX_RECONNECT * SECOND, |log| - 1;
    BusyBegins(log, start, deadline, last);
    if |log| < 63 && r.TimedOut? {
      SleptBelow(|log|);
    }
    forall a | a in log
      ensures a.answer == Reply(Busy)
    {
      var n :| 0 <= n < |log| && log[n] == a;
      BusyBegins(log, start, deadline, n);
    }
    NoComplaint(log);
  }

  lemma {:induction false} NoComplaint(log: seq<Attempt>)
    requires forall a <- log :: a.answer == Reply(Busy)
    ensures LatestComplaint(log) == None
  {
    if log != [] {
      NoComplaint(log[..|log| - 1]);
    }
  }

  /** The whole request; `initial` is the answer to the first message. */
  method RequestUpdate(network: Network, start: nat, initial: Answer) returns (r: Outcome, ghost log: seq<Attempt>)
    ensures initial == Reply(Busy) || initial == Reply(Waiting) || !initial.Reply? ==> r == Unexpected(initial)
    ensures initial.Reply? && initial.response.Failed? ==> r == Refused(initial.response.message)
    ensures initial.Reply? && (initial.response.Current? || initial.response.Committed?) ==>
              r == Updated(initial.response.version) && log == []
    ensures initial.Reply? && initial.response.Restarting? && 0 < initial.response.reconnect <= 60 ==>
              var deadline := start + initial.response.reconnect * SECOND;
              && 1 <= |log| <= 63 && Paced(log, start, deadline) && Played(log, network, start, deadline)
              && (if r.TimedOut? then Unsettled(log, initial.response.version) && r.detail == LatestComplaint(log)
                  else Settles(log[|log| - 1].answer, initial.response.version) == Some(r))
    ensures r.Updated? ==>
              || (log == [] && initial in {Reply(Current(r.version)), Reply(Committed(r.version))})
              || (&& initial.Reply? && initial.response.Restarting? && initial.response.version == r.version
                  && 1 <= |log| <= 63 && Paced(log, start, start + initial.response.reconnect * SECOND)
                  && log[|log| - 1].answer in {Reply(Current(r.version)), Reply(Committed(r.version))})
    ensures r == InvalidDeadline <==>
              initial.Reply? && initial.response.Restarting? && !(0 < initial.response.reconnect <= 60)
  {
    log := [];
    match initial
    case Reply(Current(v)) => r := Updated(v);
    case Reply(Committed(v)) => r := Updated(v);
    case Reply(Failed(message)) => r := Refused(message);
    case Reply(Restarting(_, version, reconnect)) =>
      if 0 < reconnect <= MAX_RECONNECT {
        r, log := ConfirmCandidate(network, start, version, reconnect);
      } else {
        r := InvalidDeadline;
      }
    case _ => r := Unexpected(initial);
  }

  // ----- what success means at the server -----

  /** Every Committed reply in the log was given by state `s`, to a Confirm request for this operation and version. */
  ghost predicate Genuine(log: seq<Attempt>, op: H.Pid, version: Version, s: H.State) {
    forall a <- log :: a.answer.Reply? && a.answer.response.Committed? ==> GivenTo(op, version, a.answer.response.version, s)
  }

  ghost predicate GivenTo(op: H.Pid, observed: Version, replied: Version, s: H.State) {
    exists id :: 0 <= id < |s.requests| && s.requests[id].op == op && s.requests[id].observed == observed && (id, replied) in s.answers
  }

  /** A client that ends with a Committed reply has the update for good: the server committed the operation,
      never rolls it back, and the process that serves it runs the announced version. */
  lemma SuccessStands(log: seq<Attempt>, version: Version, op: H.Pid, s: H.State, t: H.State)
    requires log != [] && log[|log| - 1].answer.Reply? && log[|log| - 1].answer.response.Committed?
    requires Settles(log[|log| - 1].answer, version) == Some(Updated(version))
    requires R.Reached(s) && R.LeadsBy(s, t, false) && Genuine(log, op, version, s)
    ensures op in s.commits && op !in t.rollbacks && op < |t.procs| && t.procs[op].version == version
  {
    assert log[|log| - 1] in log;
    assert GivenTo(op, version, version, s);
    var id :| 0 <= id < |s.requests| && s.requests[id].op == op && s.requests[id].observed == version && (id, version) in s.answers;
    R.CommittedStands(s, t, id, version);
  }
}
