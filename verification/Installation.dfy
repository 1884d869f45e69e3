/** The installed executable and the copy of its predecessor that an update keeps until it is decided. */
module Installation {
  import opened Common
  import opened Handoff

  /** An installed file: does it pass the checks, and what version does it report? */
  datatype Binary = Binary(version: Version, intact: bool)

  /** The executable, and the retained copy if its file still exists. */
  class Disk {
    var executable: Binary
    var copy: Option<Binary>

    constructor (executable: Binary)
      ensures this.executable == executable && copy == None
    {
      this.executable, copy := executable, None;
    }
  }

  /** Which of the file system calls work. */
  datatype Luck = Luck(syncs: bool, renames: bool, removes: bool, syncsParent: bool)

  /** What the updater did: the file it left, whether it succeeded, and whether the version query did. */
  datatype Updater = Updater(left: Binary, succeeded: bool, answers: bool)

  predicate AtLeast(a: Version, b: Version) {
    !Below(a, b)
  }

  /** The updater's result can become the candidate. */
  predicate Acceptable(u: Updater, current: Version) {
    u.succeeded && u.left.intact && u.answers && AtLeast(u.left.version, current)
  }

  class PreparedRemoteUpdate {
    const disk: Disk
    var rollback: Option<Binary> // taken by the first of commit, rollback and drop
    var candidateVersion: Version

    ghost predicate Valid()
      reads this, disk
    {
      disk.copy == rollback
    }

    constructor (disk: Disk, current: Version)
      requires disk.copy.None?
      modifies disk
      ensures fresh(this) && this.disk == disk && Valid() && candidateVersion == current
      ensures disk.executable == old(disk.executable) && rollback == Some(old(disk.executable))
    {
      this.disk, rollback, candidateVersion := disk, Some(disk.executable), current;
      new;
      disk.copy := Some(disk.executable);
    }

    /** Puts the copy back.  The copy's file is gone afterwards even when this fails. */
    method RestoreBackup(backup: Binary, luck: Luck) returns (ok: bool)
      requires disk.copy == Some(backup)
      modifies disk
      ensures disk.copy == None
      ensures disk.executable == if luck.syncs && luck.renames then backup else old(disk.executable)
      ensures ok <==> luck.syncs && luck.renames && luck.syncsParent
    {
      disk.copy := None;
      if !luck.syncs || !luck.renames {
        return false;
      }
      disk.executable := backup;
      return luck.syncsParent;
    }

    /** Discards the copy; the drop that follows finds nothing to restore. */
    method Commit(luck: Luck) returns (ok: bool)
      requires Valid()
      modifies this`rollback, disk
      ensures rollback == None && disk.executable == old(disk.executable)
      ensures ok <==> old(rollback).Some? && luck.removes && luck.syncsParent
      ensures disk.copy == if luck.removes then None else old(disk.copy)
    {
      if rollback.None? {
        return false;
      }
      rollback := None;
      if luck.removes {
        disk.copy := None;
      }
      Drop(luck);
      return luck.removes && luck.syncsParent;
    }

    method Rollback(luck: Luck) returns (ok: bool)
      requires Valid()
      modifies this`rollback, disk
      ensures rollback == None && disk.copy == None
      ensures disk.executable ==
                if old(rollback).Some? && luck.syncs && luck.renames then old(rollback).value else old(disk.executable)
      ensures ok <==> old(rollback).Some? && luck.syncs && luck.renames && luck.syncsParent
    {
      if rollback.None? {
        return false;
      }
      var backup := rollback.value;
      rollback := None;
      ok := RestoreBackup(backup, luck);
      Drop(luck);
    }

    /** Restores an undecided update and leaves a decided one alone. */
    method Drop(luck: Luck)
      requires rollback.Some? ==> disk.copy == rollback
      modifies this`rollback, disk
      ensures rollback == None
      ensures old(rollback).None? ==> disk.executable == old(disk.executable) && disk.copy == old(disk.copy)
      ensures old(rollback).Some? ==>
                && disk.copy == None
                && disk.executable == if luck.syncs && luck.renames then old(rollback).value else old(disk.executable)
    {
      if rollback.Some? {
        var backup := rollback.value;
        rollback := None;
        var _ := RestoreBackup(backup, luck);
      }
    }
  }

  /** Retains the current binary and runs the updater; an unacceptable result is rolled back at once, with file
      system calls of its own (`restore`). */
  method Prepare(disk: Disk, current: Version, updater: Updater, luck: Luck, restore: Luck) returns (r: Option<PreparedRemoteUpdate>)
    requires disk.copy.None?
    modifies disk
    ensures r.Some? <==>
              && updater.succeeded && updater.left.intact && updater.answers && !Below(updater.left.version, current)
              && luck.syncs && luck.syncsParent
    ensures r.Some? ==>
              && disk.executable == updater.left
              && fresh(r.value) && r.value.disk == disk && r.value.Valid()
              && r.value.rollback == Some(old(disk.executable)) && r.value.candidateVersion == updater.left.version
    ensures r.None? ==> disk.copy == None
    ensures r.None? && !luck.syncs ==> disk.executable == old(disk.executable)
    ensures r.None? && luck.syncs ==>
              disk.executable == if restore.syncs && restore.renames then old(disk.executable) else updater.left
  {
    var prepared := new PreparedRemoteUpdate(disk, current);
    if !luck.syncs {
      disk.copy := None; // the temporary file disappears with its handle
      return None;
    }
    disk.executable := updater.left;
    if Acceptable(updater, current) && luck.syncsParent {
      prepared.candidateVersion := updater.left.version;
      return Some(prepared);
    }
    var _ := prepared.Rollback(restore);
    return None;
  }

  datatype Decision = Commits | RollsBack | Forgets

  /** A whole update: afterwards nothing owns a copy, and the executable is the updater's exactly when it was
      accepted and committed, or when the old one could not be put back. */
  method Update(disk: Disk, current: Version, updater: Updater, luck: Luck, decision: Decision, later: Luck)
      returns (prepared: bool)
    requires disk.copy.None?
    modifies disk
    ensures !prepared && (!luck.syncs || (later.syncs && later.renames)) ==> disk.executable == old(disk.executable)
    ensures prepared && decision.Commits? ==> disk.executable == updater.left && !Below(updater.left.version, current)
    ensures prepared && !decision.Commits? && later.syncs && later.renames ==> disk.executable == old(disk.executable)
    ensures disk.executable == updater.left || disk.executable == old(disk.executable)
    ensures disk.copy.Some? ==> prepared && decision.Commits? && !later.removes
  {
    var r := Prepare(disk, current, updater, luck, later);
    prepared := r.Some?;
    if r.Some? {
      match decision
      case Commits => var _ := r.value.Commit(later);
      case RollsBack => var _ := r.value.Rollback(later);
      case Forgets => r.value.Drop(later);
    }
  }

  /** A rollback whose rename fails: the updater's binary stays installed and the old one exists no more. */
  method LoseBinary(previous: Binary, updater: Updater) returns (disk: Disk, restored: bool)
    requires Acceptable(updater, previous.version)
    ensures !restored && disk.executable == updater.left && disk.copy == None
  {
    disk := new Disk(previous);
    var all := Luck(true, true, true, true);
    var prepared := Prepare(disk, previous.version, updater, all, all);
    restored := prepared.value.Rollback(all.(renames := false));
  }
}
