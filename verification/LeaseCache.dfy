/** The cached discovery lease of one publisher, renewed on demand by one caller at a time.  The lock is
    held across a fetch, so a fetch is split into its beginning and its end and other calls may come in
    between; the caller may also be cancelled there. */
module LeaseCache {
  import opened Common

  const RETRY_DELAY := 2_000_000_000 // nanoseconds

  type Identity = seq<bv8>

  datatype Connection = Connection(identity: Identity, record: string, revision: nat, expires: int, ticket: string)

  datatype Refusal = Cooling | FetchFailed | IdentityChanged | RevisionWentBack | AlreadyExpired | BadTicket

  datatype Reply = Use(connection: Connection) | Refused(reason: Refusal) | Fetching

  /** How a fetch ended: with a record, with an error or a timeout, or not at all. */
  datatype Fetched = Answered(next: Connection) | Unavailable | Cancelled

  datatype Call =
    | Observe(next: Connection)
    | Get(failed: Option<Connection>, wall: int, elapsed: nat)
    | Finish(fetched: Fetched, wall: int, elapsed: nat)

  /** Same publisher, and not an older record. */
  predicate Succeeds(a: Connection, b: Connection) {
    a.identity == b.identity && a.record == b.record && a.revision <= b.revision
  }

  /** Every value held so far succeeds every earlier one. */
  ghost predicate Lineage(history: seq<Connection>) {
    forall i, j :: 0 <= i <= j < |history| ==> Succeeds(history[i], history[j])
  }

  /** No fetch begins within the retry delay of an earlier one. */
  ghost predicate Spaced(starts: seq<nat>) {
    forall i, j :: 0 <= i < j < |starts| ==> starts[i] + 2_000_000_000 <= starts[j]
  }

  /** Replies that hand out a descriptor hand out one that was live when it was checked. */
  datatype Given = Given(connection: Connection, wall: int)

  ghost predicate AllLive(given: seq<Given>) {
    forall g <- given :: g.wall < g.connection.expires
  }

  class Descriptors {
    const ticketIdentity: string -> Option<Identity> // ticket parsing is outside this model
    var current: Connection
    var lastAttempt: Option<nat>
    var fetching: bool     // the lock is held by a fetch in progress
    var clock: nat         // the monotonic clock

    ghost var history: seq<Connection>
    ghost var starts: seq<nat>
    ghost var given: seq<Given>

    ghost predicate Valid()
      reads this
    {
      && history != [] && history[|history| - 1] == current && Lineage(history)
      && Spaced(starts) && AllLive(given)
      && (forall g <- given :: g.connection in history)
      && (lastAttempt.None? <==> starts == [])
      && (forall s <- starts :: s <= lastAttempt.value <= clock)
      && (fetching ==> lastAttempt.Some?)
    }

    constructor (initial: Connection, ticketIdentity: string -> Option<Identity>)
      ensures Valid() && current == initial && history == [initial] && starts == [] && given == [] && !fetching
    {
      this.ticketIdentity, current, lastAttempt, fetching, clock := ticketIdentity, initial, None, false, 0;
      history, starts, given := [initial], [], [];
    }

    method Hold(next: Connection)
      requires Valid() && Succeeds(current, next)
      modifies this`current, this`history
      ensures Valid() && current == next && history == old(history) + [next]
    {
      forall i | 0 <= i < |history|
        ensures Succeeds(history[i], next)
      {
        assert Succeeds(history[i], history[|history| - 1]);
      }
      current, history := next, history + [next];
    }

    /** A full-catalog observation: ignored while a fetch holds the lock, and never a step back. */
    method Observe(next: Connection)
      requires Valid()
      modifies this`current, this`history
      ensures Valid() && old(history) <= history
      ensures current == if !fetching && next.identity == old(current).identity && next.record == old(current).record
                            && next.revision >= old(current).revision
                         then next else old(current)
    {
      if !fetching && next.identity == current.identity && next.record == current.record
         && next.revision >= current.revision && next != current
      {
        Hold(next);
      }
    }

    /** Asks for a usable descriptor, up to the point where a fetch is needed. */
    method Get(failed: Option<Connection>, wall: int, elapsed: nat) returns (r: Reply)
      requires Valid() && !fetching
      modifies this`lastAttempt, this`fetching, this`clock, this`starts, this`given
      ensures Valid() && clock == old(clock) + elapsed
      ensures r.Use? <==>
                && wall < current.expires
                && (failed != Some(current) || (old(lastAttempt).Some? && clock < old(lastAttempt).value + 2_000_000_000))
      ensures r.Use? ==> r.connection == current && given == old(given) + [Given(current, wall)]
      ensures r.Refused? <==> wall >= current.expires && old(lastAttempt).Some? && clock < old(lastAttempt).value + 2_000_000_000
      ensures r.Fetching? <==>
                && (wall >= current.expires || failed == Some(current))
                && !(old(lastAttempt).Some? && clock < old(lastAttempt).value + 2_000_000_000)
      ensures lastAttempt == if r.Fetching? then Some(clock) else old(lastAttempt)
      ensures r.Refused? ==> r.reason == Cooling
      ensures !r.Use? ==> given == old(given)
      ensures r.Fetching? <==> fetching
      ensures starts == if r.Fetching? then old(starts) + [clock] else old(starts)
    {
      clock := clock + elapsed;
      var live := wall < current.expires;
      if live && failed != Some(current) {
        given := given + [Given(current, wall)];
        return Use(current);
      }
      if lastAttempt.Some? && clock - lastAttempt.value < RETRY_DELAY {
        if !live {
          return Refused(Cooling);
        }
        given := given + [Given(current, wall)];
        return Use(current);
      }
      assert forall i :: 0 <= i < |starts| ==> starts[i] in starts;
      lastAttempt, fetching, starts := Some(clock), true, starts + [clock];
      return Fetching;
    }

    /** The fetch ends; only a live, newer record of the same publisher with its own ticket is accepted. */
    method Finish(fetched: Fetched, wall: int, elapsed: nat) returns (r: Reply)
      requires Valid() && fetching
      modifies this
      ensures Valid() && !fetching && starts == old(starts) && clock == old(clock) + elapsed && !r.Fetching?
      ensures old(history) <= history
      ensures lastAttempt == if fetched.Cancelled? then old(lastAttempt) else Some(clock)
      ensures r.Use? <==>
                && fetched.Answered? && wall < fetched.next.expires
                && fetched.next.identity == old(current).identity && fetched.next.record == old(current).record
                && fetched.next.revision >= old(current).revision
                && ticketIdentity(fetched.next.ticket) == Some(fetched.next.identity)
      ensures fetched.Answered? && !r.Use? ==>
                r == Refused(if fetched.next.identity != old(current).identity || fetched.next.record != old(current).record
                             then IdentityChanged
                             else if fetched.next.revision < old(current).revision then RevisionWentBack
                             else if wall >= fetched.next.expires then AlreadyExpired else BadTicket)
      ensures !fetched.Answered? ==> r == Refused(FetchFailed)
      ensures if r.Use? then r.connection == current == fetched.next && given == old(given) + [Given(current, wall)]
              else current == old(current) && given == old(given)
    {
      clock, fetching := clock + elapsed, false;
      if fetched.Cancelled? {
        return Refused(FetchFailed);
      }
      lastAttempt := Some(clock);
      if fetched.Unavailable? {
        return Refused(FetchFailed);
      }
      var next := fetched.next;
      if next.identity != current.identity || next.record != current.record {
        return Refused(IdentityChanged);
      }
      if next.revision < current.revision {
        return Refused(RevisionWentBack);
      }
      if wall >= next.expires {
        return Refused(AlreadyExpired);
      }
      if ticketIdentity(next.ticket) != Some(next.identity) {
        return Refused(BadTicket);
      }
      Hold(next);
      given := given + [Given(current, wall)];
      return Use(current);
    }

    /** Any sequence of calls; one that would have to wait for the lock is made after the fetch instead. */
    method Run(calls: seq<Call>)
      requires Valid()
      modifies this
      ensures Valid() && old(history) <= history && Lineage(history) && Spaced(starts) && AllLive(given)
      ensures Succeeds(old(current), current)
    {
      for i := 0 to |calls|
        invariant Valid() && old(history) <= history
      {
        match calls[i]
        case Observe(next) =>
          Observe(next);
        case Get(failed, wall, elapsed) =>
          if !fetching {
            var _ := Get(failed, wall, elapsed);
          }
        case Finish(fetched, wall, elapsed) =>
          if fetching {
            var _ := Finish(fetched, wall, elapsed);
          }
      }
      assert Succeeds(history[|old(history)| - 1], history[|history| - 1]);
    }
  }
}
