/** Backups made and deleted and restores prepared in many steps, under one lock, while the web app
    reports ready and the server may be stopped in the middle of anything. Whatever the order
    of the steps, it comes to the requests served one at a time. */
module OperationLock {
  import opened Json
  import opened Restore

  /** The operation that holds the lock, by what it has to do next. */
  datatype Job =
    | Copying(name: nat, keep: nat)
    | Renaming(name: nat, keep: nat)
    | Keeping(name: nat, keep: nat)
    | Rotating(name: nat, keep: nat, past: set<nat>, gone: set<nat>)
    | Deleting(name: nat)
    | Staging(name: nat)
    | Publishing(name: nat)

  datatype Desk = Desk(m: Machine, job: Option<Job>)

  datatype Request = Make(keep: nat) | Delete(name: nat) | Prepare(name: nat)

  /** One step: a request gets the lock, the operation holding it goes on with a file operation that
      works out or not, the web app reports ready, or the server stops. */
  datatype Move =
    | Begin(request: Request)
    | Advance(ok: bool, which: nat)
    | Report
    | Stop

  function Begun(m: Machine, request: Request): Desk {
    if InFlight(m) then Desk(m, None)
    else
      match request
      case Make(keep) => Desk(m.(next := m.next + 1), Some(Copying(m.next, keep)))
      case Delete(name) => Desk(m, if Backup(name) in m.disk.files then Some(Deleting(name)) else None)
      case Prepare(name) => Desk(m, if Backup(name) in m.disk.files then Some(Staging(name)) else None)
  }

  function WithFiles(m: Machine, files: Files): Machine {
    m.(disk := m.disk.(files := files))
  }

  /** The next file operation of the job. One that fails ends it, and the lock is free again. */
  function Advanced(m: Machine, job: Job, ok: bool, which: nat): Desk {
    var files := m.disk.files;
    match job
    case Copying(name, keep) =>
      if !Whole(files, Live) || !ok then Desk(WithFiles(m, files[BackupPart(name) := Torn]), None)
      else Desk(WithFiles(m, files[BackupPart(name) := files[Live]]), Some(Renaming(name, keep)))
    case Renaming(name, keep) =>
      if !ok || BackupPart(name) !in files then Desk(m, None)
      else Desk(WithFiles(m, (files - {BackupPart(name)})[Backup(name) := files[BackupPart(name)]]), Some(Keeping(name, keep)))
    case Keeping(name, keep) =>
      if InData !in m.disk.keys || InBackups in m.disk.keys then Desk(m, Some(Rotating(name, keep, PastKeep(files, keep), {})))
      else if !ok then Desk(m, None)
      else Desk(m.(disk := m.disk.(keys := m.disk.keys + {InBackups})), Some(Rotating(name, keep, PastKeep(files, keep), {})))
    case Rotating(name, keep, past, gone) =>
      if gone == past || !ok then Desk(m, None)
      else if which !in past - gone then Desk(m, Some(job))
      else Desk(WithFiles(m, WithoutBackups(files, {which})), Some(Rotating(name, keep, past, gone + {which})))
    case Deleting(name) => Desk(if ok then WithFiles(m, WithoutBackups(files, {name})) else m, None)
    case Staging(name) =>
      if !Whole(files, Backup(name)) || !ok then Desk(m, None)
      else Desk(WithFiles(m, files[Staged(m.next) := Torn]), Some(Publishing(name)))
    case Publishing(name) =>
      if !ok then Desk(WithFiles(m, files - {Staged(m.next)}), None)
      else
        Desk(m.(status := Some(Status(m.next, Stopping)),
                pending := Some(Prepared(Staged(m.next), m.next)),
                disk := m.disk.(files := files[Staged(m.next) := Restored(m.next)]),
                next := m.next + 1,
                was := if Live in files then files[Live] else Torn), None)
  }

  /** The server stopped in the middle of a job: what it was doing comes to nothing. */
  function Abandoned(m: Machine, job: Job): Machine {
    match job
    case Copying(name, _) => WithFiles(m, m.disk.files[BackupPart(name) := Torn])
    case Publishing(_) => WithFiles(m, m.disk.files - {Staged(m.next)})
    case _ => m
  }

  function Moved(d: Desk, move: Move): Desk {
    match move
    case Begin(request) => if d.job.Some? then d else Begun(d.m, request)
    case Advance(ok, which) => if d.job.None? then d else Advanced(d.m, d.job.value, ok, which)
    case Report => d.(m := Serve(d.m, Ready).0)
    case Stop => Desk(if d.job.Some? then Abandoned(d.m, d.job.value) else d.m, None)
  }

  function MovedAll(d: Desk, moves: seq<Move>): Desk
    decreases |moves|
  {
    if moves == [] then d else MovedAll(Moved(d, moves[0]), moves[1..])
  }

  // ---- one operation at a time ----

  function MadeFiles(m: Machine): Files
    requires Live in m.disk.files
  {
    (m.disk.files - {BackupPart(m.next)})[Backup(m.next) := m.disk.files[Live]]
  }

  /** Where a job stands that began at `base`. */
  ghost predicate Midway(base: Machine, job: Job, m: Machine) {
    var named, files := base.(next := base.next + 1), base.disk.files;
    match job
    case Copying(name, _) => name == base.next && m == named
    case Renaming(name, _) => name == base.next && Whole(files, Live) && m == WithFiles(named, files[BackupPart(name) := files[Live]])
    case Keeping(name, _) => name == base.next && Whole(files, Live) && m == WithFiles(named, MadeFiles(base))
    case Rotating(name, keep, past, gone) =>
      && name == base.next && Whole(files, Live) && past == PastKeep(MadeFiles(base), keep) && gone <= past
      && m == named.(disk := Disk(WithoutBackups(MadeFiles(base), gone), Keyed(base)))
    case Deleting(name) => Backup(name) in files && m == base
    case Staging(name) => Backup(name) in files && m == base
    case Publishing(name) => Whole(files, Backup(name)) && m == WithFiles(base, files[Staged(base.next) := Torn])
  }

  function Keyed(m: Machine): set<Place> {
    if InData in m.disk.keys then m.disk.keys + {InBackups} else m.disk.keys
  }

  /** What the desk has come to is `base`, the requests served so far, and the job under way. No job
      is under way while a restore is in flight. */
  ghost predicate AtWork(base: Machine, d: Desk) {
    && FreshNames(base)
    && match d.job
       case None => d.m == base
       case Some(job) => !InFlight(base) && Midway(base, job, d.m)
  }

  lemma AtWorkInFlight(base: Machine, d: Desk)
    requires AtWork(base, d)
    ensures InFlight(d.m) ==> d.job.None? && d.m == base
  {
  }

  lemma ServeFresh(m: Machine, e: Event)
    requires FreshNames(m)
    ensures FreshNames(Serve(m, e).0)
  {
  }

  /** Which file operations work out when only `step` fails. */
  function AllBut(step: Step): Luck {
    s => s != step
  }

  lemma WithoutNone(files: Files)
    ensures WithoutBackups(files, {}) == files
  {
  }

  /** A backup given up while its old ones are rotated out is one whose removals got that far. */
  lemma RotatedSoFar(base: Machine, keep: nat, gone: set<nat>)
    requires Whole(base.disk.files, Live) && !InFlight(base) && gone <= PastKeep(MadeFiles(base), keep)
    ensures Serve(base, MakeBackup(keep, AllBut(Stage), gone)).0 ==
            base.(next := base.next + 1, disk := Disk(WithoutBackups(MadeFiles(base), gone), Keyed(base)))
  {
    assert PastKeep(MadeFiles(base), keep) * gone == gone;
  }

  /** The request a job given up where it stands comes to. */
  function GivenUp(job: Job): Option<Event> {
    match job
    case Copying(_, keep) => Some(MakeBackup(keep, AllBut(CopyBackup), {}))
    case Renaming(_, keep) => Some(MakeBackup(keep, AllBut(RenameBackup), {}))
    case Keeping(_, keep) => Some(MakeBackup(keep, AllBut(KeepKey), {}))
    case Rotating(_, keep, _, gone) => Some(MakeBackup(keep, AllBut(Stage), gone))
    case _ => None
  }

  function Served(base: Machine, e: Option<Event>): Machine {
    if e.Some? then Serve(base, e.value).0 else base
  }

  lemma AbandonedIsRequest(base: Machine, d: Desk)
    requires AtWork(base, d) && d.job.Some?
    ensures Abandoned(d.m, d.job.value) == Served(base, GivenUp(d.job.value))
  {
    var files := base.disk.files;
    match d.job.value
    case Rotating(name, keep, past, gone) =>
      RotatedSoFar(base, keep, gone);
    case Keeping(name, keep) =>
      WithoutNone(MadeFiles(base));
      assert InData in base.disk.keys && InBackups in base.disk.keys ==> base.disk.keys + {InBackups} == base.disk.keys;
    case Publishing(_) =>
      assert files[Staged(base.next) := Torn] - {Staged(base.next)} == files;
    case _ =>
  }

  /** The request a job's next file operation completes, if it does. */
  function Completes(m: Machine, job: Job, ok: bool, which: nat): Option<Event> {
    match job
    case Copying(_, _) => if Whole(m.disk.files, Live) && ok then None else GivenUp(job)
    case Renaming(_, _) => if ok then None else GivenUp(job)
    case Keeping(_, _) => if ok || InData !in m.disk.keys || InBackups in m.disk.keys then None else GivenUp(job)
    case Rotating(_, _, past, gone) => if ok && gone != past then None else GivenUp(job)
    case Deleting(name) => Some(DeleteBackup(name, ok))
    case Staging(name) => None
    case Publishing(name) => if ok then Some(PrepareRestore(name, AllBut(KeepKey))) else None
  }

  lemma CopyingAdvances(base: Machine, d: Desk, ok: bool, which: nat)
    requires AtWork(base, d) && d.job.Some? && d.job.value.Copying?
    ensures AtWork(Served(base, Completes(d.m, d.job.value, ok, which)), Advanced(d.m, d.job.value, ok, which))
  {
    var e := Completes(d.m, d.job.value, ok, which);
    if e.Some? {
      ServeFresh(base, e.value);
    }
    AbandonedIsRequest(base, d);
  }

  lemma RenamingAdvances(base: Machine, d: Desk, ok: bool, which: nat)
    requires AtWork(base, d) && d.job.Some? && d.job.value.Renaming?
    ensures AtWork(Served(base, Completes(d.m, d.job.value, ok, which)), Advanced(d.m, d.job.value, ok, which))
  {
    var e := Completes(d.m, d.job.value, ok, which);
    if e.Some? {
      ServeFresh(base, e.value);
    }
    AbandonedIsRequest(base, d);
    RenamedFiles(base);
  }

  lemma KeepingAdvances(base: Machine, d: Desk, ok: bool, which: nat)
    requires AtWork(base, d) && d.job.Some? && d.job.value.Keeping?
    ensures AtWork(Served(base, Completes(d.m, d.job.value, ok, which)), Advanced(d.m, d.job.value, ok, which))
  {
    var e := Completes(d.m, d.job.value, ok, which);
    if e.Some? {
      ServeFresh(base, e.value);
    }
    AbandonedIsRequest(base, d);
    WithoutNone(MadeFiles(base));
    assert InBackups in base.disk.keys ==> base.disk.keys + {InBackups} == base.disk.keys;
  }

  lemma RotatingAdvances(base: Machine, d: Desk, ok: bool, which: nat)
    requires AtWork(base, d) && d.job.Some? && d.job.value.Rotating?
    ensures AtWork(Served(base, Completes(d.m, d.job.value, ok, which)), Advanced(d.m, d.job.value, ok, which))
  {
    var e := Completes(d.m, d.job.value, ok, which);
    if e.Some? {
      ServeFresh(base, e.value);
    }
    AbandonedIsRequest(base, d);
    OneMoreGone(MadeFiles(base), d.job.value.gone, which);
  }

  lemma AdvanceIsRequest(base: Machine, d: Desk, ok: bool, which: nat)
    requires AtWork(base, d) && d.job.Some?
    ensures AtWork(Served(base, Completes(d.m, d.job.value, ok, which)), Advanced(d.m, d.job.value, ok, which))
  {
    match d.job.value
    case Copying(_, _) => CopyingAdvances(base, d, ok, which);
    case Renaming(_, _) => RenamingAdvances(base, d, ok, which);
    case Keeping(_, _) => KeepingAdvances(base, d, ok, which);
    case Rotating(_, _, _, _) => RotatingAdvances(base, d, ok, which);
    case _ => OtherAdvances(base, d, ok, which);
  }

  lemma OtherAdvances(base: Machine, d: Desk, ok: bool, which: nat)
    requires AtWork(base, d) && d.job.Some? && (d.job.value.Deleting? || d.job.value.Staging? || d.job.value.Publishing?)
    ensures AtWork(Served(base, Completes(d.m, d.job.value, ok, which)), Advanced(d.m, d.job.value, ok, which))
  {
    var e := Completes(d.m, d.job.value, ok, which);
    if e.Some? {
      ServeFresh(base, e.value);
    }
    PublishedFiles(base);
  }

  lemma RenamedFiles(base: Machine)
    requires Whole(base.disk.files, Live)
    ensures var part := base.disk.files[BackupPart(base.next) := base.disk.files[Live]];
            (part - {BackupPart(base.next)})[Backup(base.next) := base.disk.files[Live]] == MadeFiles(base)
  {
    assert base.disk.files[BackupPart(base.next) := base.disk.files[Live]] - {BackupPart(base.next)}
        == base.disk.files - {BackupPart(base.next)};
  }

  lemma OneMoreGone(files: Files, gone: set<nat>, which: nat)
    ensures WithoutBackups(WithoutBackups(files, gone), {which}) == WithoutBackups(files, gone + {which})
  {
  }

  lemma PublishedFiles(base: Machine)
    requires FreshNames(base)
    ensures var torn := base.disk.files[Staged(base.next) := Torn];
            && torn - {Staged(base.next)} == base.disk.files
            && torn[Staged(base.next) := Restored(base.next)] == base.disk.files[Staged(base.next) := Restored(base.next)]
            && (Live in torn <==> Live in base.disk.files)
  {
  }

  /** A step takes no effect yet, or comes to one whole request. */
  lemma MoveIsRequest(base: Machine, d: Desk, move: Move) returns (e: Option<Event>)
    requires AtWork(base, d)
    ensures AtWork(Served(base, e), Moved(d, move))
  {
    match move
    case Begin(request) =>
      e := None;
    case Report =>
      e := if d.job.None? then Some(Ready) else None;
      if d.job.None? {
        ServeFresh(base, Ready);
      }
    case Advance(ok, which) =>
      e := None;
      if d.job.Some? {
        e := Completes(d.m, d.job.value, ok, which);
        AdvanceIsRequest(base, d, ok, which);
      }
    case Stop =>
      e := None;
      if d.job.Some? {
        e := GivenUp(d.job.value);
        AbandonedIsRequest(base, d);
        if e.Some? {
          ServeFresh(base, e.value);
        }
      }
  }

  /** Whatever the interleaving, it comes to whole requests served one after the other, and at most one
      operation under way on top of them. */
  lemma {:induction false} MovesAreRequests(base: Machine, d: Desk, moves: seq<Move>) returns (events: seq<Event>)
    requires AtWork(base, d)
    ensures AtWork(ServeAll(base, events), MovedAll(d, moves))
    decreases |moves|
  {
    if moves == [] {
      events := [];
    } else {
      var e := MoveIsRequest(base, d, moves[0]);
      var rest := MovesAreRequests(Served(base, e), Moved(d, moves[0]), moves[1..]);
      events := if e.Some? then [e.value] + rest else rest;
      if e.Some? {
        assert events[1..] == rest;
      }
    }
  }

  // ---- while a restore is in flight ----

  /** Whether a restore stays in flight all through. */
  predicate FlightLasts(d: Desk, moves: seq<Move>)
    decreases |moves|
  {
    InFlight(d.m) && (moves != [] ==> FlightLasts(Moved(d, moves[0]), moves[1..]))
  }

  /** From when a restore is prepared until it ends, no backup is under way, none is finished, rotated
      out or deleted, and no other restore is prepared. */
  lemma {:induction false} InFlightFrozen(base: Machine, d: Desk, moves: seq<Move>)
    requires AtWork(base, d) && FlightLasts(d, moves)
    ensures MovedAll(d, moves) == d && d.job.None?
    decreases |moves|
  {
    if moves != [] {
      AtWorkInFlight(base, d);
      var e := MoveIsRequest(base, d, moves[0]);
      InFlightMove(d, moves[0]);
      InFlightFrozen(Served(base, e), Moved(d, moves[0]), moves[1..]);
    }
  }

  lemma InFlightMove(d: Desk, move: Move)
    requires InFlight(d.m) && d.job.None? && InFlight(Moved(d, move).m)
    ensures Moved(d, move) == d
  {
  }

  /** A restore that waits for the server to stop stays in flight until it has. */
  lemma {:induction false} StoppingLasts(d: Desk, moves: seq<Move>)
    requires d.job.None? && d.m.status.Some? && d.m.status.value.phase.Stopping?
    ensures FlightLasts(d, moves)
    decreases |moves|
  {
    if moves != [] {
      assert Moved(d, moves[0]) == d;
      StoppingLasts(d, moves[1..]);
    }
  }

  // ---- the supervisor over interleaved operations ----

  /** One turn: what happens step by step until the server stops, in the middle of anything. */
  datatype Turn = Turn(built: bool, moves: seq<Move>, success: bool, cancelled: bool, ok: Luck)

  function TakeTurn(m: Machine, t: Turn): Next {
    if !t.built then Exit(m, false)
    else Ended(Moved(MovedAll(Desk(m, None), t.moves), Stop).m, t.success, t.cancelled, t.ok)
  }

  function Supervise(m: Machine, turns: seq<Turn>): Next
    decreases |turns|
  {
    if turns == [] then Continue(m)
    else match TakeTurn(m, turns[0])
      case Exit(end, success) => Exit(end, success)
      case Continue(on) => Supervise(on, turns[1..])
  }

  /** A turn in steps is a turn of whole requests. */
  lemma TurnIsTurn(m: Machine, t: Turn) returns (whole: Restore.Turn)
    requires FreshNames(m)
    ensures TakeTurn(m, t) == Restore.TakeTurn(m, whole)
  {
    var events := MovesAreRequests(m, Desk(m, None), t.moves + [Stop]);
    MovedLast(Desk(m, None), t.moves, Stop);
    whole := Restore.Turn(t.built, events, t.success, t.cancelled, t.ok);
  }

  lemma {:induction false} MovedLast(d: Desk, moves: seq<Move>, last: Move)
    ensures MovedAll(d, moves + [last]) == Moved(MovedAll(d, moves), last)
    decreases |moves|
  {
    if moves == [] {
      assert [] + [last] == [last] && [last][1..] == [];
    } else {
      assert (moves + [last])[0] == moves[0] && (moves + [last])[1..] == moves[1..] + [last];
      MovedLast(Moved(d, moves[0]), moves[1..], last);
    }
  }

  /** From a fresh process, over every run of the supervisor and every interleaving of what is asked of
      its servers, the phases mean what they say. */
  lemma SupervisedSafe(m: Machine, turns: seq<Turn>)
    requires Initial(m)
    ensures var next := Supervise(m, turns);
            if next.Continue? then Safe(next.m) else SafeAtExit(next.m)
  {
    InitialSafe(m);
    SafeThrough(m, turns);
  }

  lemma {:induction false} SafeThrough(m: Machine, turns: seq<Turn>)
    requires Safe(m)
    ensures var next := Supervise(m, turns);
            if next.Continue? then Safe(next.m) else SafeAtExit(next.m)
    decreases |turns|
  {
    if turns != [] {
      var whole := TurnIsTurn(m, turns[0]);
      TurnSafe(m, whole);
      if TakeTurn(m, turns[0]).Continue? {
        SafeThrough(TakeTurn(m, turns[0]).m, turns[1..]);
      }
    }
  }
}
