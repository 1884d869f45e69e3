/** Helpers that place an account bundle on the system clipboard and later clear it again.  Any number run
    at once; claims and clears are coordinated by a lock and a generation file, user copies are not.
    A helper's index stands for its random generation. */
module Clipboard {
  import opened Common

  datatype Content = Empty | User(text: string) | Helper(text: string, owner: nat)

  datatype Stage =
    | Start
    | Claiming                // holds the lock, about to place its bundle
    | Placed                  // bundle placed, generation not written yet
    | Claimed                 // lock released, waiting for the retention to pass
    | Checking                // holds the lock again, about to read the generation
    | Matching(undo: bool)    // about to compare the clipboard; `undo` after a failed generation write
    | Clearing(undo: bool)    // compared equal, about to clear
    | Finished(claimed: bool)

  datatype Process = Process(bundle: string, stage: Stage)

  datatype State = State(
    clipboard: Content,
    file: Option<nat>,   // whose generation the file holds
    holder: Option<nat>, // who holds the lock
    helpers: seq<Process>,
    faulty: bool         // a helper died, or a lock, read, comparison or clear went wrong
  )

  const INITIAL := State(Empty, None, None, [], false)

  datatype Step =
    | UserCopies(text: string)
    | Spawn(bundle: string)
    | GiveUp(h: nat)                     // the lock could not be taken for the claim
    | Lock(h: nat)
    | Place(h: nat)
    | PlaceFails(h: nat)
    | Write(h: nat)
    | WriteFails(h: nat, written: bool)  // an error may come after the file was replaced
    | Check(h: nat)
    | CheckFails(h: nat)
    | Compare(h: nat)
    | CompareFails(h: nat)
    | Clear(h: nat)
    | ClearFails(h: nat)
    | Die(h: nat)

  predicate HoldsLock(stage: Stage) {
    stage.Claiming? || stage.Placed? || stage.Checking? || stage.Matching? || stage.Clearing?
  }

  predicate Enabled(s: State, step: Step) {
    match step
    case UserCopies(_) => true
    case Spawn(_) => true
    case _ =>
      step.h < |s.helpers| &&
      var stage := s.helpers[step.h].stage;
      match step
      case GiveUp(_) => stage.Start?
      case Lock(_) => (stage.Start? || stage.Claimed?) && s.holder.None?
      case Place(_) => stage.Claiming?
      case PlaceFails(_) => stage.Claiming?
      case Write(_) => stage.Placed?
      case WriteFails(_, _) => stage.Placed?
      case Check(_) => stage.Checking?
      case CheckFails(_) => stage.Checking? || stage.Claimed?
      case Compare(_) => stage.Matching?
      case CompareFails(_) => stage.Matching?
      case Clear(_) => stage.Clearing?
      case ClearFails(_) => stage.Clearing?
      case Die(_) => !stage.Finished?
      case _ => false
  }

  function Moved(s: State, h: nat, stage: Stage): State
    requires h < |s.helpers|
  {
    s.(helpers := s.helpers[h := s.helpers[h].(stage := stage)],
       holder := if HoldsLock(stage) then Some(h) else if s.holder == Some(h) then None else s.holder)
  }

  function Text(c: Content): Option<string> {
    if c.Empty? then None else Some(c.text)
  }

  predicate HasClaimed(stage: Stage) {
    match stage
    case Claimed => true
    case Checking => true
    case Matching(undo) => !undo
    case Clearing(undo) => !undo
    case Finished(claimed) => claimed
    case _ => false
  }

  /** The helper leaves, releasing the lock if it holds it. */
  function Left(s: State, h: nat): State
    requires h < |s.helpers|
  {
    Moved(s, h, Finished(HasClaimed(s.helpers[h].stage)))
  }

  function Apply(s: State, step: Step): State
    requires Enabled(s, step)
  {
    match step
    case UserCopies(text) => s.(clipboard := User(text))
    case Spawn(bundle) => s.(helpers := s.helpers + [Process(bundle, Start)])
    case GiveUp(h) => Left(s, h)
    case Lock(h) => Moved(s, h, if s.helpers[h].stage.Start? then Claiming else Checking)
    case Place(h) => Moved(s, h, Placed).(clipboard := Helper(s.helpers[h].bundle, h))
    case PlaceFails(h) => Left(s, h)
    case Write(h) => Moved(s, h, Claimed).(file := Some(h))
    case WriteFails(h, written) => Moved(s, h, Matching(true)).(file := if written then Some(h) else s.file)
    case Check(h) => if s.file == Some(h) then Moved(s, h, Matching(false)) else Left(s, h)
    case CheckFails(h) => Left(s, h).(faulty := true)
    case Compare(h) =>
      if Text(s.clipboard) == Some(s.helpers[h].bundle) then Moved(s, h, Clearing(s.helpers[h].stage.undo)) else Left(s, h)
    case CompareFails(h) => Left(s, h).(faulty := true)
    case Clear(h) => Left(s, h).(clipboard := Empty)
    case ClearFails(h) => Left(s, h).(faulty := true)
    case Die(h) => Left(s, h).(faulty := true)
  }

  predicate Runs(s: State, steps: seq<Step>)
    decreases |steps|
  {
    steps == [] || (Enabled(s, steps[0]) && Runs(Apply(s, steps[0]), steps[1..]))
  }

  function After(s: State, steps: seq<Step>): State
    requires Runs(s, steps)
    decreases |steps|
  {
    if steps == [] then s else After(Apply(s, steps[0]), steps[1..])
  }

  // ----- the invariant -----

  /** In the section between placing a bundle and recording or undoing it. */
  predicate Exposed(stage: Stage) {
    stage.Placed? || stage == Matching(true) || stage == Clearing(true)
  }

  /** The lock is held exactly by the helpers inside a locked section, so by at most one. */
  ghost predicate Locked(s: State) {
    && (s.holder.Some? ==> s.holder.value < |s.helpers| && HoldsLock(s.helpers[s.holder.value].stage))
    && (forall h :: 0 <= h < |s.helpers| && HoldsLock(s.helpers[h].stage) ==> s.holder == Some(h))
  }

  ghost predicate Filed(s: State) {
    && (s.file.Some? ==> s.file.value < |s.helpers| && Past(s.helpers[s.file.value].stage))
    && (forall h :: 0 <= h < |s.helpers| && (s.helpers[h].stage == Matching(false) || s.helpers[h].stage == Clearing(false))
          ==> s.file == Some(h))
  }

  /** Once past placing its bundle. */
  predicate Past(stage: Stage) {
    !stage.Start? && !stage.Claiming? && !stage.Placed?
  }

  /** Whose bundle is on the clipboard, if a helper's is. */
  ghost predicate Owned(s: State) {
    s.clipboard.Helper? ==>
      var g := s.clipboard.owner;
      && g < |s.helpers| && s.clipboard.text == s.helpers[g].bundle
      && (HasClaimed(s.helpers[g].stage) ==> s.file == Some(g))
      && (!s.faulty ==> !s.helpers[g].stage.Finished?)
      && (forall h :: 0 <= h < |s.helpers| && Exposed(s.helpers[h].stage) ==> h == g)
      && (Past(s.helpers[g].stage) || s.helpers[g].stage.Placed?)
  }

  ghost predicate Inv(s: State) {
    Locked(s) && Filed(s) && Owned(s)
  }

  lemma MovedLocked(s: State, h: nat, stage: Stage)
    requires Locked(s) && h < |s.helpers| && (HoldsLock(stage) ==> s.holder == None || s.holder == Some(h))
    ensures Locked(Moved(s, h, stage))
  {
  }

  lemma StepLocked(s: State, step: Step)
    requires Locked(s) && Enabled(s, step)
    ensures Locked(Apply(s, step))
  {
    if !step.UserCopies? && !step.Spawn? {
      var stage := Apply(s, step).helpers[step.h].stage;
      assert HoldsLock(s.helpers[step.h].stage) || step.Lock? || !HoldsLock(stage);
      MovedLocked(s, step.h, stage);
      var t := Moved(s, step.h, stage);
      assert Apply(s, step).helpers == t.helpers && Apply(s, step).holder == t.holder;
    }
  }

  lemma StepFiled(s: State, step: Step)
    requires Locked(s) && Filed(s) && Enabled(s, step)
    ensures Filed(Apply(s, step))
  {
    if !step.UserCopies? && !step.Spawn? {
      var t := Apply(s, step);
      var h := step.h;
      assert forall k :: 0 <= k < |s.helpers| && k != h ==> t.helpers[k] == s.helpers[k];
      assert t.file == s.file || (t.file == Some(h) && Past(t.helpers[h].stage) && s.holder == Some(h));
    }
  }

  lemma StepOwned(s: State, step: Step)
    requires Inv(s) && Enabled(s, step)
    ensures Owned(Apply(s, step))
  {
    if step.Place? {
      PlaceOwned(s, step);
    } else if !step.UserCopies? && !step.Spawn? && !step.Clear? && s.clipboard.Helper? {
      if s.clipboard.owner == step.h {
        OwnerOwned(s, step);
      } else {
        OtherOwned(s, step);
      }
    }
  }

  /** A step of the helper whose bundle is on the clipboard. */
  lemma OwnerOwned(s: State, step: Step)
    requires Inv(s) && Enabled(s, step) && !step.UserCopies? && !step.Spawn? && !step.Clear? && !step.Place?
    requires s.clipboard.Helper? && s.clipboard.owner == step.h
    ensures Owned(Apply(s, step))
  {
    var t := Apply(s, step);
    assert forall k :: 0 <= k < |s.helpers| && k != step.h ==> t.helpers[k] == s.helpers[k];
    assert t.helpers[step.h].bundle == s.helpers[step.h].bundle && t.clipboard == s.clipboard;
  }

  lemma PlaceOwned(s: State, step: Step)
    requires Locked(s) && Enabled(s, step) && step.Place?
    ensures Owned(Apply(s, step))
  {
    var t := Apply(s, step);
    assert forall k :: 0 <= k < |s.helpers| && k != step.h ==> t.helpers[k] == s.helpers[k];
  }

  /** A step of another helper: if it writes the file, nobody else's bundle is on the clipboard. */
  lemma OtherOwned(s: State, step: Step)
    requires Inv(s) && Enabled(s, step) && !step.UserCopies? && !step.Spawn? && !step.Clear? && !step.Place?
    requires s.clipboard.Helper? && s.clipboard.owner != step.h
    ensures Owned(Apply(s, step))
  {
    var t := Apply(s, step);
    assert forall k :: 0 <= k < |s.helpers| && k != step.h ==> t.helpers[k] == s.helpers[k];
    assert t.clipboard == s.clipboard && !Exposed(s.helpers[step.h].stage);
    assert t.file == s.file && !Exposed(t.helpers[step.h].stage);
  }

  lemma StepKeeps(s: State, step: Step)
    requires Inv(s) && Enabled(s, step)
    ensures Inv(Apply(s, step))
  {
    StepLocked(s, step);
    StepFiled(s, step);
    StepOwned(s, step);
  }

  lemma {:induction false} RunKeeps(s: State, steps: seq<Step>)
    requires Inv(s) && Runs(s, steps)
    ensures Inv(After(s, steps))
    decreases |steps|
  {
    if steps != [] {
      StepKeeps(s, steps[0]);
      RunKeeps(Apply(s, steps[0]), steps[1..]);
    }
  }

  // ----- claims and the generation file -----

  lemma {:induction false} ClaimedSince(s: State, steps: seq<Step>, h: nat)
    requires Runs(s, steps) && h < |After(s, steps).helpers| && HasClaimed(After(s, steps).helpers[h].stage)
    ensures (h < |s.helpers| && HasClaimed(s.helpers[h].stage)) || Write(h) in steps
    ensures (h < |s.helpers| && (HasClaimed(s.helpers[h].stage) || s.helpers[h].stage.Placed?)) || Place(h) in steps
    decreases |steps|
  {
    if steps != [] {
      var t := Apply(s, steps[0]);
      ClaimedSince(t, steps[1..], h);
      assert steps == [steps[0]] + steps[1..];
      if h < |t.helpers| {
        ClaimedBy(s, steps[0], h);
      }
    }
  }

  lemma ClaimedBy(s: State, step: Step, h: nat)
    requires Enabled(s, step) && h < |Apply(s, step).helpers|
    ensures var stage := Apply(s, step).helpers[h].stage;
            && (HasClaimed(stage) ==>
                  h < |s.helpers| && (HasClaimed(s.helpers[h].stage) || (step == Write(h) && s.helpers[h].stage.Placed?)))
            && (stage.Placed? ==> h < |s.helpers| && (s.helpers[h].stage.Placed? || step == Place(h)))
  {
  }

  /** Only a helper that placed its bundle and recorded its generation has claimed the clipboard. */
  lemma ClaimedPlacedIt(run: seq<Step>, h: nat)
    requires Runs(INITIAL, run) && h < |After(INITIAL, run).helpers| && HasClaimed(After(INITIAL, run).helpers[h].stage)
    ensures Place(h) in run && Write(h) in run
  {
    ClaimedSince(INITIAL, run, h);
  }

  /** The helper whose generation was last written, by a write that failed or not. */
  function LastWriter(file: Option<nat>, steps: seq<Step>): Option<nat> {
    if steps == [] then file
    else
      var last := steps[|steps| - 1];
      if last.Write? || (last.WriteFails? && last.written) then Some(last.h)
      else LastWriter(file, steps[..|steps| - 1])
  }

  lemma {:induction false} LastWriterIs(s: State, steps: seq<Step>)
    requires Runs(s, steps)
    ensures After(s, steps).file == LastWriter(s.file, steps)
    decreases |steps|
  {
    if steps != [] {
      LastWriterIs(Apply(s, steps[0]), steps[1..]);
      WriterFrom(s.file, steps);
    }
  }

  lemma {:induction false} WriterFrom(file: Option<nat>, steps: seq<Step>)
    requires steps != []
    ensures LastWriter(file, steps) == LastWriter(LastWriter(file, steps[..1]), steps[1..])
    decreases |steps|
  {
    if |steps| == 1 {
      assert steps[..1] == steps;
    } else {
      var n := |steps| - 1;
      assert steps[..n][..1] == steps[..1] && steps[..n][1..] == steps[1..][..n - 1];
      WriterFrom(file, steps[..n]);
    }
  }

  // ----- what it is for -----

  /** A helper never clears a bundle that another helper has claimed the clipboard for. */
  lemma ClearsNoOther(steps: seq<Step>, h: nat)
    requires Runs(INITIAL, steps) && Enabled(After(INITIAL, steps), Clear(h))
    ensures var s := After(INITIAL, steps);
            forall g :: 0 <= g < |s.helpers| && g != h && HasClaimed(s.helpers[g].stage)
              ==> !(s.clipboard.Helper? && s.clipboard.owner == g)
  {
    RunKeeps(INITIAL, steps);
  }

  /** When every helper has finished and nothing went wrong, no helper's bundle is left. */
  lemma NothingRemains(steps: seq<Step>)
    requires Runs(INITIAL, steps)
    requires var s := After(INITIAL, steps); !s.faulty && forall p <- s.helpers :: p.stage.Finished?
    ensures !After(INITIAL, steps).clipboard.Helper?
  {
    RunKeeps(INITIAL, steps);
    var s := After(INITIAL, steps);
    assert forall h :: 0 <= h < |s.helpers| ==> s.helpers[h] in s.helpers;
  }

  predicate Fault(step: Step) {
    step.CheckFails? || step.CompareFails? || step.ClearFails? || step.Die?
  }

  /** A helper that finishes while its bundle is on the clipboard leaves it there exactly when its last
      step was a fault. */
  lemma LeavesBundleIff(s: State, step: Step, h: nat)
    requires Inv(s) && Enabled(s, step) && h < |s.helpers| && s.clipboard == Helper(s.helpers[h].bundle, h)
    requires !s.helpers[h].stage.Finished? && Apply(s, step).helpers[h].stage.Finished?
    ensures Apply(s, step).clipboard.Helper? <==> Fault(step)
  {
    assert !step.UserCopies? && !step.Spawn? && step.h == h;
  }

  /** A finished helper's bundle is still on the clipboard. */
  ghost predicate Abandoned(s: State, g: nat) {
    g < |s.helpers| && s.helpers[g].stage.Finished? && s.clipboard.Helper? && s.clipboard.owner == g
  }

  /** Steps that put something else on the clipboard, or nothing. */
  predicate Replaces(step: Step) {
    step.UserCopies? || step.Place? || step.Clear?
  }

  /** Helper `g` goes by a fault while its bundle is on the clipboard. */
  ghost predicate Abandons(s: State, step: Step, g: nat) {
    Fault(step) && step.h == g && s.clipboard.Helper? && s.clipboard.owner == g
  }

  /** Somewhere in the run `g` abandons its bundle and nothing replaces it afterwards. */
  ghost predicate AbandonsForGood(s: State, steps: seq<Step>, g: nat)
    requires Runs(s, steps)
    decreases |steps|
  {
    steps != [] &&
    (|| (Abandons(s, steps[0], g) && forall step <- steps[1..] :: !Replaces(step))
     || AbandonsForGood(Apply(s, steps[0]), steps[1..], g))
  }

  lemma AbandonedStep(s: State, step: Step, g: nat)
    requires Inv(s) && Enabled(s, step)
    ensures Abandoned(Apply(s, step), g) <==> Abandons(s, step, g) || (Abandoned(s, g) && !Replaces(step))
  {
    if Replaces(step) {
      ReplacedStep(s, step, g);
    } else {
      assert Apply(s, step).clipboard == s.clipboard;
      if g < |s.helpers| && !s.helpers[g].stage.Finished? && s.clipboard == Helper(s.helpers[g].bundle, g)
         && Apply(s, step).helpers[g].stage.Finished? {
        LeavesBundleIff(s, step, g);
      }
      KeptStep(s, step, g);
    }
  }

  lemma ReplacedStep(s: State, step: Step, g: nat)
    requires Enabled(s, step) && Replaces(step)
    ensures !Abandoned(Apply(s, step), g) && !Abandons(s, step, g)
  {
  }

  lemma KeptStep(s: State, step: Step, g: nat)
    requires Inv(s) && Enabled(s, step) && !Replaces(step)
    ensures Abandoned(Apply(s, step), g) <==> Abandons(s, step, g) || Abandoned(s, g)
  {
  }

  lemma {:induction false} AbandonedRun(s: State, steps: seq<Step>, g: nat)
    requires Inv(s) && Runs(s, steps)
    ensures Abandoned(After(s, steps), g) <==>
              AbandonsForGood(s, steps, g) || (Abandoned(s, g) && forall step <- steps :: !Replaces(step))
    decreases |steps|
  {
    if steps != [] {
      AbandonedStep(s, steps[0], g);
      StepKeeps(s, steps[0]);
      AbandonedRun(Apply(s, steps[0]), steps[1..], g);
      assert steps == [steps[0]] + steps[1..];
    }
  }

  /** Once all helpers have finished, helper `g`'s bundle is on the clipboard if and only if `g` went by a fault
      while its bundle was there and nothing has replaced it since. */
  lemma BundleRemainsIff(steps: seq<Step>, g: nat)
    requires Runs(INITIAL, steps) && forall p <- After(INITIAL, steps).helpers :: p.stage.Finished?
    ensures var s := After(INITIAL, steps);
            s.clipboard.Helper? && s.clipboard.owner == g <==> AbandonsForGood(INITIAL, steps, g)
  {
    var s := After(INITIAL, steps);
    RunKeeps(INITIAL, steps);
    AbandonedRun(INITIAL, steps, g);
    assert forall h :: 0 <= h < |s.helpers| ==> s.helpers[h] in s.helpers;
  }

  ghost predicate Leads(s: State, steps: seq<Step>, t: State) {
    Runs(s, steps) && After(s, steps) == t
  }

  lemma Prepend(s: State, step: Step, rest: seq<Step>, t: State)
    requires Enabled(s, step) && Leads(Apply(s, step), rest, t)
    ensures Leads(s, [step] + rest, t)
  {
    assert ([step] + rest)[1..] == rest;
  }

  /** Avoiding clear errors is not enough: a clipboard that cannot be read leaves the bundle behind. */
  lemma UnreadableLeavesBundle(bundle: string) returns (steps: seq<Step>)
    ensures Runs(INITIAL, steps) && (forall step <- steps :: !step.ClearFails? && !step.Die?)
    ensures var s := After(INITIAL, steps);
            (forall p <- s.helpers :: p.stage.Finished?) && s.clipboard == Helper(bundle, 0)
  {
    var states := [
      INITIAL,
      Alone(Empty, None, bundle, Start),
      Alone(Empty, None, bundle, Claiming),
      Alone(Helper(bundle, 0), None, bundle, Placed),
      Alone(Helper(bundle, 0), Some(0), bundle, Claimed),
      Alone(Helper(bundle, 0), Some(0), bundle, Checking),
      Alone(Helper(bundle, 0), Some(0), bundle, Matching(false)),
      Alone(Helper(bundle, 0), Some(0), bundle, Finished(true)).(faulty := true)];
    steps := [Spawn(bundle), Lock(0), Place(0), Write(0), Lock(0), Check(0), CompareFails(0)];
    forall i | 0 <= i < |steps|
      ensures Enabled(states[i], steps[i]) && Apply(states[i], steps[i]) == states[i + 1]
    {
      assert i > 0 ==> Apply(states[i], steps[i]).helpers == states[i + 1].helpers;
    }
    Chain(states, steps);
  }

  ghost function Alone(clipboard: Content, file: Option<nat>, bundle: string, stage: Stage): State {
    State(clipboard, file, if HoldsLock(stage) then Some(0) else None, [Process(bundle, stage)], false)
  }

  lemma {:induction false} Chain(states: seq<State>, steps: seq<Step>)
    requires |states| == |steps| + 1
    requires forall i :: 0 <= i < |steps| ==> Enabled(states[i], steps[i]) && Apply(states[i], steps[i]) == states[i + 1]
    ensures Leads(states[0], steps, states[|steps|])
    decreases |steps|
  {
    if steps != [] {
      Chain(states[1..], steps[1..]);
    }
  }

  // ----- what a user's copy can suffer -----

  /** A helper about to clear, or one that may still compare the clipboard with this very text. */
  predicate Threatens(s: State, h: nat, text: string)
    requires h < |s.helpers|
  {
    var p := s.helpers[h];
    || p.stage.Clearing?
    || (p.bundle == text && (p.stage.Placed? || p.stage.Matching? || ((p.stage.Claimed? || p.stage.Checking?) && s.file == Some(h))))
  }

  predicate Endangered(s: State, text: string) {
    exists h :: 0 <= h < |s.helpers| && Threatens(s, h, text)
  }

  /** Neither another user copy nor a helper placing its bundle. */
  predicate Quiet(steps: seq<Step>) {
    forall step <- steps :: !step.UserCopies? && !step.Place?
  }

  lemma SafeStep(s: State, step: Step, text: string)
    requires Inv(s) && s.clipboard == User(text) && !Endangered(s, text)
    requires Enabled(s, step) && !step.UserCopies? && !step.Place?
    ensures Apply(s, step).clipboard == User(text) && !Endangered(Apply(s, step), text)
  {
    var t := Apply(s, step);
    assert step.Clear? ==> Threatens(s, step.h, text);
    forall h | 0 <= h < |t.helpers|
      ensures !Threatens(t, h, text)
    {
      if h < |s.helpers| {
        assert !Threatens(s, h, text);
      }
    }
  }

  lemma {:induction false} SafeRun(s: State, steps: seq<Step>, text: string)
    requires Inv(s) && s.clipboard == User(text) && !Endangered(s, text) && Quiet(steps) && Runs(s, steps)
    ensures After(s, steps).clipboard == User(text)
    decreases |steps|
  {
    if steps != [] {
      assert steps[0] in steps;
      SafeStep(s, steps[0], text);
      StepKeeps(s, steps[0]);
      assert Quiet(steps[1..]);
      SafeRun(Apply(s, steps[0]), steps[1..], text);
    }
  }

  /** A copy made between a helper's comparison and its clear is lost, whatever it holds. */
  lemma UserCopyLost(bundle: string, text: string) returns (steps: seq<Step>)
    ensures |steps| >= 2 && steps[|steps| - 2] == UserCopies(text) && Runs(INITIAL, steps)
    ensures After(INITIAL, steps).clipboard == Empty && !After(INITIAL, steps).faulty
  {
    var states := [
      INITIAL,
      Alone(Empty, None, bundle, Start),
      Alone(Empty, None, bundle, Claiming),
      Alone(Helper(bundle, 0), None, bundle, Placed),
      Alone(Helper(bundle, 0), None, bundle, Matching(true)),
      Alone(Helper(bundle, 0), None, bundle, Clearing(true)),
      Alone(User(text), None, bundle, Clearing(true)),
      Alone(Empty, None, bundle, Finished(false))];
    steps := [Spawn(bundle), Lock(0), Place(0), WriteFails(0, false), Compare(0), UserCopies(text), Clear(0)];
    forall i | 0 <= i < |steps|
      ensures Enabled(states[i], steps[i]) && Apply(states[i], steps[i]) == states[i + 1]
    {
      assert i > 0 ==> Apply(states[i], steps[i]).helpers == states[i + 1].helpers;
    }
    Chain(states, steps);
  }

  // ----- and when it does -----

  lemma AfterCompare(s: State, h: nat)
    requires h < |s.helpers| && s.helpers[h].stage.Clearing?
    ensures Leads(s, [Clear(h)], Apply(s, Clear(h))) && Apply(s, Clear(h)).clipboard == Empty
  {
    Prepend(s, Clear(h), [], Apply(s, Clear(h)));
    assert [Clear(h)] + [] == [Clear(h)];
  }

  /** A comparison that succeeds is followed by a clear. */
  lemma AfterMatch(s: State, h: nat) returns (steps: seq<Step>, t: State)
    requires h < |s.helpers| && s.helpers[h].stage.Matching? && Text(s.clipboard) == Some(s.helpers[h].bundle)
    ensures Quiet(steps) && Leads(s, steps, t) && t.clipboard == Empty
  {
    var c := Apply(s, Compare(h));
    AfterCompare(c, h);
    t := Apply(c, Clear(h));
    Prepend(s, Compare(h), [Clear(h)], t);
    steps := [Compare(h)] + [Clear(h)];
  }

  lemma AfterLock(s: State, h: nat) returns (steps: seq<Step>, t: State)
    requires h < |s.helpers| && s.helpers[h].stage.Checking? && s.file == Some(h)
    requires Text(s.clipboard) == Some(s.helpers[h].bundle)
    ensures Quiet(steps) && Leads(s, steps, t) && t.clipboard == Empty
  {
    var rest;
    rest, t := AfterMatch(Apply(s, Check(h)), h);
    Prepend(s, Check(h), rest, t);
    steps := [Check(h)] + rest;
  }

  lemma AfterRetention(s: State, h: nat) returns (steps: seq<Step>, t: State)
    requires h < |s.helpers| && s.helpers[h].stage.Claimed? && s.file == Some(h) && s.holder.None?
    requires Text(s.clipboard) == Some(s.helpers[h].bundle)
    ensures Quiet(steps) && Leads(s, steps, t) && t.clipboard == Empty
  {
    var rest;
    rest, t := AfterLock(Apply(s, Lock(h)), h);
    Prepend(s, Lock(h), rest, t);
    steps := [Lock(h)] + rest;
  }

  lemma ThreatCarriedOut(s: State, h: nat, text: string) returns (steps: seq<Step>, t: State)
    requires Inv(s) && s.clipboard == User(text) && h < |s.helpers| && Threatens(s, h, text)
    ensures Quiet(steps) && Leads(s, steps, t) && t.clipboard == Empty
  {
    var stage := s.helpers[h].stage;
    var rest;
    if stage.Clearing? {
      AfterCompare(s, h);
      steps, t := [Clear(h)], Apply(s, Clear(h));
    } else if stage.Matching? {
      steps, t := AfterMatch(s, h);
    } else if stage.Checking? {
      steps, t := AfterLock(s, h);
    } else if stage.Placed? {
      rest, t := AfterMatch(Apply(s, WriteFails(h, false)), h);
      Prepend(s, WriteFails(h, false), rest, t);
      steps := [WriteFails(h, false)] + rest;
    } else if s.holder.None? {
      steps, t := AfterRetention(s, h);
    } else {
      var k := s.holder.value;
      rest, t := AfterRetention(Apply(s, Die(k)), h);
      Prepend(s, Die(k), rest, t);
      steps := [Die(k)] + rest;
    }
  }

  /** What a user has just copied can be cleared by helpers alone exactly when, at that moment, a helper is
      between its comparison and its clear, or one that may still compare holds the very same text. */
  lemma CopyClearedIff(run: seq<Step>, text: string)
    requires Runs(INITIAL, run)
    ensures var s := After(INITIAL, run);
            var copied := Apply(s, UserCopies(text));
            Endangered(s, text) <==> exists steps, t :: Quiet(steps) && Leads(copied, steps, t) && t.clipboard == Empty
  {
    RunKeeps(INITIAL, run);
    var s := After(INITIAL, run);
    var copied := Apply(s, UserCopies(text));
    StepKeeps(s, UserCopies(text));
    if Endangered(s, text) {
      var h :| 0 <= h < |s.helpers| && Threatens(s, h, text);
      assert Threatens(copied, h, text);
      var steps, t := ThreatCarriedOut(copied, h, text);
    } else {
      assert !Endangered(copied, text) by {
        assert forall h :: 0 <= h < |s.helpers| ==> Threatens(copied, h, text) == Threatens(s, h, text);
      }
      forall steps, t | Quiet(steps) && Leads(copied, steps, t)
        ensures t.clipboard == User(text)
      {
        SafeRun(copied, steps, text);
      }
    }
  }
}
