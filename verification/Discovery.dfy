/** The discovery reconciler: it adds published hosts to a machine registry it does not control and
    removes its own additions again, with persisted ownership, retry deadlines and absence counters. */
module Discovery {
  import opened DiscoveryTrace

  const INTERVAL := 30
  const MAX_ATTEMPTS := 4
  const MAX_COUNT := 0xffff_ffff

  datatype Host = Host(host: string, endpointId: string, sshTarget: string)

  datatype Discovered = Discovered(generation: string, complete: bool, hosts: seq<Host>)

  /** `Crashed` means that the call never returned: the worker stopped inside it. */
  datatype Outcome<+T> = Done(value: T) | Failed | Crashed

  predicate Hexadecimal(c: char) {
    '0' <= c <= '9' || 'a' <= c <= 'f'
  }

  predicate IsEndpoint(s: string) {
    |s| == 64 && forall i :: 0 <= i < |s| ==> Hexadecimal(s[i])
  }

  function Ids(hosts: seq<Host>): set<string> {
    set h <- hosts :: h.endpointId
  }

  predicate Distinct(hosts: seq<Host>) {
    forall i, j :: 0 <= i < j < |hosts| ==> hosts[i].endpointId != hosts[j].endpointId
  }

  /** What `validate_hosts` guarantees of every discovery report. */
  predicate Validated(hosts: seq<Host>) {
    && (forall h <- hosts :: IsEndpoint(h.endpointId) && h.sshTarget == Target(h.endpointId))
    && Distinct(hosts)
  }

  // ----- the environment -----

  ghost predicate SoundWith(saved: Saved, t: Trace) {
    Agrees(saved, t) && Trustworthy(t)
  }

  ghost predicate WritableWith(saved: Saved, t: Trace, s: Saved) {
    Agrees(s, t) && Trustworthy(t) && Founded(saved, t) && (Unsaved(t) || Agrees(saved, t))
  }

  /** The registry, the readiness source, the clock and the state file.  Every answer is arbitrary;
      only what was answered is recorded. */
  class World {
    var saved: Saved
    var clock: nat
    ghost var trace: Trace

    constructor ()
      ensures saved == EMPTY && trace == []
    {
      saved, clock, trace := EMPTY, 0, [];
    }

    /** The saved state agrees with everything that happened, and everything that happened was promised. */
    ghost predicate Sound()
      reads this
    {
      SoundWith(saved, trace)
    }

    /** Writing `s` now leaves a sound state whether or not the write succeeds. */
    ghost predicate Writable(s: Saved)
      reads this
    {
      WritableWith(saved, trace, s)
    }

    method Chance() returns (k: int)
    {
      k := *;
    }

    method Crash()
      modifies this`trace
      ensures trace == old(trace) + [Event.Crash]
      ensures old(Sound()) ==> Sound()
      ensures SameView(old(trace), trace)
    {
      ghost var before := trace;
      trace := trace + [Event.Crash];
      QuietKeeps(before, Event.Crash);
      if old(Sound()) {
        CrashKeeps(saved, before, Event.Crash);
      }
    }

    method Record(ghost v: Event)
      modifies this`trace
      ensures trace == old(trace) + [v]
      ensures Neutral(v) && old(Sound()) ==> Sound()
      ensures Quiet(v) ==> if v.Listing? then SameChecks(old(trace), trace) else SameView(old(trace), trace)
    {
      ghost var before := trace;
      trace := trace + [v];
      if Quiet(v) {
        QuietKeeps(before, v);
      }
      if Neutral(v) && old(Sound()) {
        NeutralKeeps(saved, before, v);
      }
    }

    method Now() returns (now: nat)
      modifies this`clock
      ensures old(clock) <= now == clock
    {
      var elapsed: int := *;
      clock := clock + if elapsed < 0 then 0 else elapsed;
      now := clock;
    }

    method Load() returns (r: Outcome<Saved>)
      modifies this`trace
      ensures r.Done? ==> r.value == saved
      ensures trace == if r.Crashed? then old(trace) + [Event.Crash] else old(trace)
      ensures old(Sound()) ==> Sound()
      ensures SameView(old(trace), trace)
    {
      var k := Chance();
      if k == 0 {
        Crash();
        return Crashed;
      }
      return if k == 1 then Failed else Done(saved);
    }

    /** The write is atomic: the file holds the old state or the new one. */
    method Save(s: Saved) returns (r: Outcome<()>)
      modifies this`saved, this`trace
      ensures saved == s || (saved == old(saved) && !r.Done?)
      ensures trace == old(trace) + [if r.Done? then SaveOk else if r.Failed? then SaveFailed else Event.Crash]
      ensures old(Writable(s)) ==> Sound()
      ensures SameView(old(trace), trace)
    {
      var k := Chance();
      ghost var before := trace;
      if k % 2 == 0 {
        saved := s;
      }
      ghost var v := if k == 0 || k == 1 then Event.Crash else if k == 2 || k == 3 then SaveFailed else SaveOk;
      if 0 <= k < 4 {
        r := if k < 2 then Crashed else Failed;
      } else {
        saved := s;
        r := Done(());
      }
      trace := trace + [v];
      QuietKeeps(before, v);
      if old(Writable(s)) {
        if v == SaveOk {
          NeutralKeeps(saved, before, v);
        } else {
          CrashKeeps(saved, before, v);
        }
      }
    }

    /** What the registry lists. */
    method Machines() returns (r: Outcome<seq<Machine>>)
      modifies this`trace
      ensures trace == if r.Done? then old(trace) + [Listing(r.value)]
                       else if r.Crashed? then old(trace) + [Event.Crash] else old(trace)
      ensures old(Sound()) ==> Sound()
      ensures SameChecks(old(trace), trace) && LastListing(trace) == if r.Done? then r.value else old(LastListing(trace))
    {
      var k := Chance();
      if k == 0 {
        Crash();
        return Crashed;
      }
      if k == 1 {
        return Failed;
      }
      var machines: seq<Machine> := *;
      Record(Listing(machines));
      Appended(old(trace), Listing(machines));
      return Done(machines);
    }

    /** Is the host's alias usable yet? */
    method Ready(host: Host) returns (r: Outcome<bool>)
      modifies this`trace
      ensures trace == old(trace) + [if r.Done? then Readiness(host.endpointId, r.value)
                                     else if r.Crashed? then Event.Crash else ReadinessFailed(host.endpointId)]
      ensures old(Sound()) ==> Sound()
      ensures SameView(old(trace), trace)
    {
      var k := Chance();
      if k == 0 {
        Crash();
        return Crashed;
      }
      if k == 1 {
        Record(ReadinessFailed(host.endpointId));
        return Failed;
      }
      Record(Readiness(host.endpointId, k == 2));
      return Done(k == 2);
    }

    method Add(host: Host, display: string) returns (r: Outcome<string>)
      modifies this`trace
      ensures trace == old(trace) + [if r.Done? then Added(host.endpointId, r.value, display)
                                     else if r.Crashed? then Event.Crash else AddFailed(host.endpointId)]
      ensures old(Sound()) && !r.Done? ==> Sound()
      ensures SameView(old(trace), trace)
    {
      var k := Chance();
      if k == 0 {
        Crash();
        return Crashed;
      }
      if k == 1 {
        Record(AddFailed(host.endpointId));
        return Failed;
      }
      var profile: string := *;
      Record(Added(host.endpointId, profile, display));
      return Done(profile);
    }

    method Remove(endpoint: string, profile: string) returns (r: Outcome<()>)
      modifies this`trace
      ensures trace == old(trace) + [if r.Done? then Removed(endpoint, profile)
                                     else if r.Crashed? then Event.Crash else RemoveFailed(endpoint, profile)]
      ensures old(Sound()) && !r.Done? ==> Sound()
      ensures SameView(old(trace), trace)
    {
      var k := Chance();
      if k == 0 {
        Crash();
        return Crashed;
      }
      if k == 1 {
        Record(RemoveFailed(endpoint, profile));
        return Failed;
      }
      Record(Removed(endpoint, profile));
      return Done(());
    }

    /** Shows a notice; true means that it was accepted. */
    method Notify(endpoint: string, display: string) returns (r: Outcome<bool>)
      modifies this`trace
      ensures trace == old(trace) + [if r == Done(true) then Notified(endpoint, display)
                                     else if r.Crashed? then Event.Crash else NoticeDeferred(endpoint, display)]
      ensures old(Sound()) && !(r.Done? && r.value) ==> Sound()
      ensures SameView(old(trace), trace)
    {
      var k := Chance();
      if k == 0 {
        Crash();
        return Crashed;
      }
      if k == 2 {
        Record(Notified(endpoint, display));
        return Done(true);
      }
      Record(NoticeDeferred(endpoint, display));
      return if k == 1 then Failed else Done(false);
    }
  }
}
