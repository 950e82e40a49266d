/** The restore protocol as the program carries it out: the state every service shares, the
    files, and the supervisor's loop over runtimes. */
module Supervisor {
  import opened Json
  import opened Restore

  /** Status and pending restore, shared by every runtime of the process. */
  class Restores {
    var status: Option<Status>
    var pending: Option<Prepared>

    constructor ()
      ensures status == None && pending == None
    {
      status, pending := None, None;
    }

    method CheckIdle() returns (idle: bool)
      ensures idle <==> !Unfinished(status)
    {
      return status.None? || status.value.phase == Complete || status.value.phase == Failed;
    }

    predicate Starting()
      reads this
    {
      status.Some? && status.value.phase == Phase.Starting
    }

    method SetPhase(phase: Phase)
      modifies this`status
      ensures status == if old(status).Some? then Some(old(status).value.(phase := phase)) else None
    {
      if status.Some? {
        status := Some(status.value.(phase := phase));
      }
    }

    method Ready()
      modifies this`status
      ensures status == if old(Starting()) then Some(old(status).value.(phase := Complete)) else old(status)
    {
      if Starting() {
        SetPhase(Complete);
      }
    }

    method TakePending() returns (p: Option<Prepared>)
      modifies this`pending
      ensures p == old(pending) && pending == None
    {
      p := pending;
      pending := None;
    }

    /** Replaces the database between two runtimes, the safety copy taken first. */
    method Apply(p: Prepared, volume: Volume, ok: Luck) returns (done: bool)
      modifies this`status, volume
      ensures Done(volume.Contents(), done) == ApplyFiles(old(volume.Contents()), p, ok)
      ensures status == if old(status).None? then None
                        else Some(old(status).value.(phase := if done then Phase.Starting else Restoring))
    {
      SetPhase(Restoring);
      done := volume.Swap(p, ok);
      if done {
        SetPhase(Phase.Starting);
      }
    }
  }

  /** The data directory and the backups beside it. */
  class Volume {
    var files: Files
    var keys: set<Place>

    constructor (files: Files, keys: set<Place>)
      ensures this.files == files && this.keys == keys
    {
      this.files, this.keys := files, keys;
    }

    function Contents(): Disk
      reads this
    {
      Disk(files, keys)
    }

    method Remove(f: File)
      modifies this`files
      ensures files == old(files) - {f}
    {
      files := files - {f};
    }

    /** Puts `source` in place of the database, one file operation after the other. */
    method Restore(source: File, beside: Place, ok: Luck) returns (done: bool)
      modifies this
      ensures Done(Contents(), done) == RestoreFile(old(Contents()), source, beside, ok)
    {
      if !Whole(files, source) || !ok(CheckSource) || !ok(MakeDir) {
        return false;
      }
      if Live in files && !ok(Lock) {
        return false;
      }
      if !ok(RemoveSide) {
        return false;
      }
      if !ok(CopyPart) {
        files := files[LivePart := Torn];
        return false;
      }
      files := files[LivePart := files[source]];
      if !ok(RenameLive) {
        return false;
      }
      files := (files - {LivePart})[Live := files[LivePart]];
      if InData !in keys && beside in keys {
        if !ok(CopyKey) {
          return false;
        }
        keys := keys + {InData};
      }
      return true;
    }

    method Swap(p: Prepared, ok: Luck) returns (done: bool)
      modifies this
      ensures Done(Contents(), done) == ApplyFiles(old(Contents()), p, ok)
    {
      if !Whole(files, Live) || !ok(CopySafety) {
        files := files - {BackupPart(p.safety)};
        return false;
      }
      files := files[BackupPart(p.safety) := files[Live]];
      if !ok(RenameSafety) {
        return false;
      }
      files := (files - {BackupPart(p.safety)})[Backup(p.safety) := files[Live]];
      if InData in keys && InBackups !in keys {
        if !ok(KeepKey) {
          return false;
        }
        keys := keys + {InBackups};
      }
      done := Restore(p.staged, InData, ok);
    }
  }

  /** The backups as one runtime serves them. */
  class Backups {
    const restores: Restores
    const volume: Volume
    var next: nat
    ghost var was: Content

    constructor (restores: Restores, volume: Volume, next: nat)
      ensures this.restores == restores && this.volume == volume && this.next == next
    {
      this.restores, this.volume, this.next := restores, volume, next;
      was := Torn;
    }

    ghost function State(recovery: Option<Prepared>): Machine
      reads this, restores, volume
    {
      Machine(restores.status, restores.pending, recovery, volume.Contents(), next, was)
    }

    method Serve(e: Event, ghost recovery: Option<Prepared>) returns (reply: Reply)
      modifies this, restores, volume
      ensures (State(recovery), reply) == Restore.Serve(old(State(recovery)), e)
    {
      match e
      case MakeBackup(keep, ok, reached) =>
        var idle := restores.CheckIdle();
        if !idle {
          return Busy;
        }
        reply := Make(keep, ok, reached, recovery);
      case DeleteBackup(name, removable) =>
        var idle := restores.CheckIdle();
        if !idle {
          return Busy;
        }
        if Backup(name) !in volume.files {
          return NotFound;
        }
        if !removable {
          return Failure;
        }
        volume.files := WithoutBackups(volume.files, {name});
        return Ok;
      case PrepareRestore(name, ok) =>
        var idle := restores.CheckIdle();
        if !idle {
          return Busy;
        }
        if Backup(name) !in volume.files {
          return NotFound;
        }
        if !Whole(volume.files, Backup(name)) || !ok(Stage) {
          return Failure;
        }
        was := if Live in volume.files then volume.files[Live] else Torn;
        volume.files := volume.files[Staged(next) := Restored(next)];
        restores.status := Some(Status(next, Stopping));
        restores.pending := Some(Prepared(Staged(next), next));
        next := next + 1;
        return Ok;
      case Ready =>
        restores.Ready();
        return Ok;
    }

    method Make(keep: nat, ok: Luck, reached: set<nat>, ghost recovery: Option<Prepared>) returns (reply: Reply)
      modifies this`next, volume
      ensures (State(recovery), reply) == MadeBackup(old(State(recovery)), keep, ok, reached)
    {
      var name := next;
      next := next + 1;
      if !Whole(volume.files, Live) || !ok(CopyBackup) {
        volume.files := volume.files[BackupPart(name) := Torn];
        return Failure;
      }
      if !ok(RenameBackup) {
        volume.files := volume.files[BackupPart(name) := volume.files[Live]];
        return Failure;
      }
      volume.files := (volume.files - {BackupPart(name)})[Backup(name) := volume.files[Live]];
      if InData in volume.keys && InBackups !in volume.keys {
        if !ok(KeepKey) {
          return Failure;
        }
        volume.keys := volume.keys + {InBackups};
      }
      assert InData in volume.keys ==> volume.keys == volume.keys + {InBackups};
      var past := PastKeep(volume.files, keep);
      volume.files := WithoutBackups(volume.files, past * reached);
      return if past <= reached then Ok else Failure;
    }
  }

  /** Everything the server is asked in one turn. */
  method ServeEach(backups: Backups, served: seq<Event>, ghost recovery: Option<Prepared>)
    modifies backups, backups.restores, backups.volume
    ensures backups.State(recovery) == ServeAll(old(backups.State(recovery)), served)
  {
    for i := 0 to |served|
      invariant ServeAll(old(backups.State(recovery)), served) == ServeAll(backups.State(recovery), served[i..])
    {
      assert served[i..][0] == served[i] && served[i..][1..] == served[i + 1..];
      var _ := backups.Serve(served[i], recovery);
    }
  }

  /** The restore that is due: carried out, or given up. What the recovery slot then holds. */
  method CarryOut(backups: Backups, due: Prepared, slot: Option<Prepared>, success: bool, ok: Luck)
    returns (kept: Option<Prepared>)
    modifies backups.restores, backups.volume
    ensures backups.State(kept) == Restoration(old(backups.State(slot)), due, success, ok)
  {
    var restores, volume := backups.restores, backups.volume;
    kept := slot;
    if !success {
      restores.SetPhase(Failed);
      volume.Remove(due.staged);
      return;
    }
    var done := restores.Apply(due, volume, ok);
    if done {
      if slot.Some? && slot.value.staged != due.staged {
        volume.Remove(slot.value.staged);
      }
      kept := Some(due);
    } else {
      restores.SetPhase(Failed);
      volume.Remove(due.staged);
    }
  }

  /** The loop: a runtime is built and serves until it ends; then a restore that is due is
      carried out, or one the server could not start with is taken back, and the loop goes on.
      Otherwise the process ends. */
  method Run(backups: Backups, turns: seq<Turn>)
    returns (exit: Option<bool>, ghost recovery: Option<Prepared>)
    modifies backups, backups.restores, backups.volume
    ensures Supervise(old(backups.State(None)), turns) ==
            match exit
            case Some(success) => Exit(backups.State(recovery), success)
            case None => Continue(backups.State(recovery))
    ensures old(Safe(backups.State(None))) ==>
              if exit.None? then Safe(backups.State(recovery)) else SafeAtExit(backups.State(recovery))
  {
    if Safe(backups.State(None)) {
      SupervisedSafe(backups.State(None), turns);
    }
    var restores, volume := backups.restores, backups.volume;
    var slot: Option<Prepared> := None;
    recovery := None;
    for i := 0 to |turns|
      invariant restores == backups.restores && volume == backups.volume && slot == recovery
      invariant Supervise(old(backups.State(None)), turns) == Supervise(backups.State(recovery), turns[i..])
    {
      var t := turns[i];
      assert turns[i..][0] == t && turns[i..][1..] == turns[i + 1..];
      ghost var before := backups.State(recovery);
      if !t.built {
        return Some(false), recovery;
      }
      ServeEach(backups, t.served, recovery);
      ghost var served := backups.State(recovery);
      assert served == ServeAll(before, t.served);
      if t.cancelled {
        return Some(t.success), recovery;
      }
      var due := restores.TakePending();
      if due.Some? {
        slot := CarryOut(backups, due.value, slot, t.success, t.ok);
        recovery := slot;
        assert TakeTurn(before, t) == Continue(backups.State(recovery));
        continue;
      }
      if restores.Starting() && slot.Some? {
        var p := slot.value;
        slot, recovery := None, None;
        var done := volume.Restore(Backup(p.safety), InBackups, t.ok);
        volume.Remove(p.staged);
        if !done {
          return Some(false), recovery;
        }
        restores.SetPhase(Failed);
        assert TakeTurn(before, t) == Continue(backups.State(recovery));
        continue;
      }
      return Some(t.success), recovery;
    }
    return None, recovery;
  }
}
