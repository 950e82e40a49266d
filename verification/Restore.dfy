/** The restore protocol: a backup staged while the server runs, put in place between two
    runtimes, and taken back when the server cannot start with it. Every file operation may
    fail. A database's contents are told apart by where they come from. */
module Restore {
  import opened Json
  import opened Sets

  datatype Content = Torn | Original | Restored(id: nat)

  datatype File = Live | LivePart | Staged(id: nat) | Backup(name: nat) | BackupPart(name: nat)

  type Files = map<File, Content>

  /** Where the sealing key may be: beside the database, or beside the backups. */
  datatype Place = InData | InBackups

  /** A file operation that may fail. */
  datatype Step =
    | CheckSource | MakeDir | Lock | RemoveSide | CopyPart | RenameLive | CopyKey
    | CopySafety | RenameSafety | KeepKey
    | CopyBackup | RenameBackup
    | Stage

  type Luck = Step -> bool

  datatype Disk = Disk(files: Files, keys: set<Place>)

  datatype Done = Done(disk: Disk, ok: bool)

  predicate Whole(files: Files, f: File) {
    f in files && !files[f].Torn?
  }

  // ---- the file operations of a restore ----

  /** Copies `source` over the live database through a part file, then the key kept beside the
      source when the data directory has none. */
  function RestoreFile(d: Disk, source: File, beside: Place, ok: Luck): Done {
    if !Whole(d.files, source) || !ok(CheckSource) || !ok(MakeDir) then Done(d, false)
    else if Live in d.files && !ok(Lock) then Done(d, false)
    else if !ok(RemoveSide) then Done(d, false)
    else if !ok(CopyPart) then Done(d.(files := d.files[LivePart := Torn]), false)
    else
      var part := d.files[LivePart := d.files[source]];
      if !ok(RenameLive) then Done(d.(files := part), false)
      else
        var swapped := d.(files := (part - {LivePart})[Live := part[LivePart]]);
        if InData !in d.keys && beside in d.keys then
          if ok(CopyKey) then Done(swapped.(keys := d.keys + {InData}), true) else Done(swapped, false)
        else Done(swapped, true)
  }

  /** Whether a restore gets as far as the key and fails there, the database replaced already. */
  predicate FailsAtKey(d: Disk, source: File, beside: Place, ok: Luck) {
    && Whole(d.files, source)
    && (forall s :: s in {CheckSource, MakeDir, RemoveSide, CopyPart, RenameLive} ==> ok(s))
    && (Live in d.files ==> ok(Lock))
    && InData !in d.keys && beside in d.keys && !ok(CopyKey)
  }

  /** Every operation a restore comes to goes through. */
  predicate RestoreWorks(d: Disk, source: File, beside: Place, ok: Luck) {
    && Whole(d.files, source) && ok(CheckSource) && ok(MakeDir) && (Live in d.files ==> ok(Lock))
    && ok(RemoveSide) && ok(CopyPart) && ok(RenameLive)
    && (InData !in d.keys && beside in d.keys ==> ok(CopyKey))
  }

  /** A restore succeeds exactly when every operation it comes to does. One that succeeds puts the
      source in place, and a missing key. One that fails leaves the database as it was, exactly
      unless the database's key is missing and copying it is what failed. */
  lemma RestoreAllOrNothing(d: Disk, source: File, beside: Place, ok: Luck)
    requires source != Live && source != LivePart
    ensures var r := RestoreFile(d, source, beside, ok);
            && (r.ok <==> RestoreWorks(d, source, beside, ok))
            && (r.ok ==> Live in r.disk.files && r.disk.files[Live] == d.files[source])
            && (r.ok ==> r.disk.keys == if beside in d.keys then d.keys + {InData} else d.keys)
            && (!r.ok && !FailsAtKey(d, source, beside, ok) ==>
                  r.disk.files - {LivePart} == d.files - {LivePart} && r.disk.keys == d.keys)
            && (FailsAtKey(d, source, beside, ok) ==>
                  !r.ok && Live in r.disk.files && r.disk.files[Live] == d.files[source])
            && (forall f :: f != Live && f != LivePart ==>
                  (f in r.disk.files <==> f in d.files) && (f in d.files ==> r.disk.files[f] == d.files[f]))
  {
    var steps := {CheckSource, MakeDir, RemoveSide, CopyPart, RenameLive};
    assert CheckSource in steps && MakeDir in steps && RemoveSide in steps && CopyPart in steps && RenameLive in steps;
  }

  /** It can: a backup restored into a directory without a key, the key beside the backup not copied. */
  lemma FailsWithoutKey()
    ensures var d := Disk(map[Live := Original, Backup(0) := Restored(0)], {InBackups});
            var ok := (s: Step) => s != CopyKey;
            var r := RestoreFile(d, Backup(0), InBackups, ok);
            && FailsAtKey(d, Backup(0), InBackups, ok)
            && !r.ok && Live in r.disk.files && r.disk.files[Live] == Restored(0)
  {
    var d := Disk(map[Live := Original, Backup(0) := Restored(0)], {InBackups});
    RestoreAllOrNothing(d, Backup(0), InBackups, (s: Step) => s != CopyKey);
  }

  // ---- the swap between two runtimes ----

  datatype Prepared = Prepared(staged: File, safety: nat)

  /** Keeps a safety copy of the live database beside the backups, then puts the staged one in
      its place. The staged file lies in the data directory, so the key beside it is the
      database's own. */
  function ApplyFiles(d: Disk, p: Prepared, ok: Luck): Done {
    if !Whole(d.files, Live) || !ok(CopySafety) then Done(d.(files := d.files - {BackupPart(p.safety)}), false)
    else
      var partial := d.files[BackupPart(p.safety) := d.files[Live]];
      if !ok(RenameSafety) then Done(d.(files := partial), false)
      else
        var safe := d.(files := (partial - {BackupPart(p.safety)})[Backup(p.safety) := d.files[Live]]);
        if InData in d.keys && InBackups !in d.keys then
          if !ok(KeepKey) then Done(safe, false)
          else RestoreFile(safe.(keys := d.keys + {InBackups}), p.staged, InData, ok)
        else RestoreFile(safe, p.staged, InData, ok)
  }

  /** Every operation the swap comes to goes through. */
  predicate SwapWorks(d: Disk, p: Prepared, ok: Luck) {
    && Whole(d.files, Live) && ok(CopySafety) && ok(RenameSafety)
    && (InData in d.keys && InBackups !in d.keys ==> ok(KeepKey))
    && Whole(d.files, p.staged) && ok(CheckSource) && ok(MakeDir) && ok(Lock)
    && ok(RemoveSide) && ok(CopyPart) && ok(RenameLive)
  }

  /** The swap succeeds exactly when every operation it comes to does. It is all or nothing: either the staged database is live and the safety copy holds
      what was, or what was is live still. No other backup is touched. */
  lemma ApplyAllOrNothing(d: Disk, p: Prepared, ok: Luck)
    requires p.staged.Staged?
    ensures var r := ApplyFiles(d, p, ok);
            && (r.ok <==> SwapWorks(d, p, ok))
            && (r.ok ==> r.disk.keys == if InData in d.keys then d.keys + {InBackups} else d.keys)
            && (r.ok ==>
                  && Live in r.disk.files && r.disk.files[Live] == d.files[p.staged]
                  && Backup(p.safety) in r.disk.files && r.disk.files[Backup(p.safety)] == d.files[Live])
            && (!r.ok ==>
                  && (Live in r.disk.files <==> Live in d.files)
                  && (Live in d.files ==> r.disk.files[Live] == d.files[Live]))
            && (forall n :: n != p.safety ==>
                  && (Backup(n) in r.disk.files <==> Backup(n) in d.files)
                  && (Backup(n) in d.files ==> r.disk.files[Backup(n)] == d.files[Backup(n)]))
            && (Backup(p.safety) in r.disk.files && Backup(p.safety) !in d.files ==>
                  Live in d.files && r.disk.files[Backup(p.safety)] == d.files[Live])
  {
    if Whole(d.files, Live) {
      var partial := d.files[BackupPart(p.safety) := d.files[Live]];
      var safe := d.(files := (partial - {BackupPart(p.safety)})[Backup(p.safety) := d.files[Live]]);
      RestoreAllOrNothing(safe, p.staged, InData, ok);
      RestoreAllOrNothing(safe.(keys := d.keys + {InBackups}), p.staged, InData, ok);
    }
  }

  /** The swap makes no staged file. */
  lemma ApplyKeepsStaged(d: Disk, p: Prepared, ok: Luck, f: File)
    requires f.Staged?
    ensures f in ApplyFiles(d, p, ok).disk.files ==> f in d.files
  {
    if Whole(d.files, Live) {
      var partial := d.files[BackupPart(p.safety) := d.files[Live]];
      var safe := d.(files := (partial - {BackupPart(p.safety)})[Backup(p.safety) := d.files[Live]]);
      RestoreKeepsStaged(safe, p.staged, InData, ok, f);
      RestoreKeepsStaged(safe.(keys := d.keys + {InBackups}), p.staged, InData, ok, f);
    }
  }

  lemma RestoreKeepsStaged(d: Disk, source: File, beside: Place, ok: Luck, f: File)
    requires f.Staged?
    ensures f in RestoreFile(d, source, beside, ok).disk.files ==> f in d.files
  {
  }

  // ---- the phases, shared by the backups, the web app and the supervisor ----

  datatype Phase = Stopping | Restoring | Starting | Complete | Failed

  datatype Status = Status(id: nat, phase: Phase)

  /** Everything the protocol's state is spread over. `was` remembers, for the statements below
      alone, what was live when the last restore was prepared. */
  datatype Machine = Machine(
    status: Option<Status>,
    pending: Option<Prepared>,
    recovery: Option<Prepared>,
    disk: Disk,
    next: nat,
    was: Content)

  predicate Unfinished(status: Option<Status>) {
    status.Some? && !status.value.phase.Complete? && !status.value.phase.Failed?
  }

  predicate InFlight(m: Machine) {
    Unfinished(m.status)
  }

  predicate IsStarting(m: Machine) {
    m.status.Some? && m.status.value.phase.Starting?
  }

  function InPhase(m: Machine, phase: Phase): Machine {
    if m.status.Some? then m.(status := Some(m.status.value.(phase := phase))) else m
  }

  /** The staged file of a request that is dropped goes with it. */
  function Dropped(m: Machine, p: Prepared): Machine {
    m.(disk := m.disk.(files := m.disk.files - {p.staged}))
  }

  // ---- what a running server is asked to do ----

  datatype Event =
    | MakeBackup(keep: nat, ok: Luck, reached: set<nat>)
    | DeleteBackup(name: nat, removable: bool)
    | PrepareRestore(name: nat, ok: Luck)
    | Ready

  datatype Reply = Ok | Busy | NotFound | Failure

  function BackupNames(files: Files): set<nat> {
    set f | f in files && f.Backup? :: f.name
  }

  /** How many backups a setting keeps: one at the least. */
  function Kept(keep: nat): nat {
    if keep > 1 then keep else 1
  }

  /** The backups past the newest `keep`, names growing with time. */
  function PastKeep(files: Files, keep: nat): set<nat> {
    set n | n in BackupNames(files) && |Above(BackupNames(files), n)| >= Kept(keep)
  }

  function WithoutBackups(files: Files, names: set<nat>): Files {
    map f | f in files && !(f.Backup? && f.name in names) :: files[f]
  }

  /** A backup made under a fresh name, the key copied beside it once, the old ones rotated out
      as far as the removals get. */
  function MadeBackup(m: Machine, keep: nat, ok: Luck, reached: set<nat>): (Machine, Reply) {
    var named := m.(next := m.next + 1);
    if !Whole(m.disk.files, Live) || !ok(CopyBackup) then
      (named.(disk := m.disk.(files := m.disk.files[BackupPart(m.next) := Torn])), Failure)
    else if !ok(RenameBackup) then
      (named.(disk := m.disk.(files := m.disk.files[BackupPart(m.next) := m.disk.files[Live]])), Failure)
    else
      var made := m.disk.(files := (m.disk.files - {BackupPart(m.next)})[Backup(m.next) := m.disk.files[Live]]);
      if InData in m.disk.keys && InBackups !in m.disk.keys && !ok(KeepKey) then
        (named.(disk := made), Failure)
      else
        var past := PastKeep(made.files, keep);
        var keyed := if InData in m.disk.keys then made.keys + {InBackups} else made.keys;
        (named.(disk := Disk(WithoutBackups(made.files, past * reached), keyed)), if past <= reached then Ok else Failure)
  }

  /** One request. Backups are made and deleted and restores prepared one at a time, and not at
      all while a restore is in flight. */
  function Serve(m: Machine, e: Event): (Machine, Reply) {
    match e
    case MakeBackup(keep, ok, reached) =>
      if InFlight(m) then (m, Busy) else MadeBackup(m, keep, ok, reached)
    case DeleteBackup(name, removable) =>
      if InFlight(m) then (m, Busy)
      else if Backup(name) !in m.disk.files then (m, NotFound)
      else if !removable then (m, Failure)
      else (m.(disk := m.disk.(files := WithoutBackups(m.disk.files, {name}))), Ok)
    case PrepareRestore(name, ok) =>
      if InFlight(m) then (m, Busy)
      else if Backup(name) !in m.disk.files then (m, NotFound)
      else if !Whole(m.disk.files, Backup(name)) || !ok(Stage) then (m, Failure)
      else
        (m.(status := Some(Status(m.next, Stopping)),
            pending := Some(Prepared(Staged(m.next), m.next)),
            disk := m.disk.(files := m.disk.files[Staged(m.next) := Restored(m.next)]),
            next := m.next + 1,
            was := if Live in m.disk.files then m.disk.files[Live] else Torn), Ok)
    case Ready =>
      (if IsStarting(m) then InPhase(m, Complete) else m, Ok)
  }

  function ServeAll(m: Machine, events: seq<Event>): Machine
    decreases |events|
  {
    if events == [] then m else ServeAll(Serve(m, events[0]).0, events[1..])
  }

  // ---- one turn of the supervisor ----

  /** What happens in one turn: whether a runtime is built, what the server is asked while it
      runs, how it ends, whether the process was told to stop, and which file operations
      succeed afterwards. */
  datatype Turn = Turn(built: bool, served: seq<Event>, success: bool, cancelled: bool, ok: Luck)

  datatype Next = Continue(m: Machine) | Exit(m: Machine, success: bool)

  /** The restore that is due, once every service has stopped. */
  function Restoration(m: Machine, p: Prepared, success: bool, ok: Luck): Machine {
    if !success then Dropped(InPhase(m, Failed), p)
    else
      var done := ApplyFiles(m.disk, p, ok);
      if done.ok then
        var swapped := InPhase(m, Starting).(disk := done.disk, recovery := Some(p));
        if m.recovery.Some? && m.recovery.value.staged != p.staged then Dropped(swapped, m.recovery.value) else swapped
      else Dropped(InPhase(m, Failed).(disk := done.disk), p)
  }

  /** The way back, when the server ended without ever being ready on the restored database. */
  function Recovery(m: Machine, p: Prepared, ok: Luck): Next {
    var done := RestoreFile(m.disk, Backup(p.safety), InBackups, ok);
    var back := Dropped(m.(disk := done.disk, recovery := None), p);
    if done.ok then Continue(InPhase(back, Failed)) else Exit(back, false)
  }

  function TakeTurn(m: Machine, t: Turn): Next {
    if !t.built then Exit(m, false) else Ended(ServeAll(m, t.served), t.success, t.cancelled, t.ok)
  }

  /** What the supervisor does once the server has ended. */
  function Ended(served: Machine, success: bool, cancelled: bool, ok: Luck): Next {
    if cancelled then Exit(served, success)
    else if served.pending.Some? then
      Continue(Restoration(served.(pending := None), served.pending.value, success, ok))
    else if IsStarting(served) && served.recovery.Some? then
      Recovery(served, served.recovery.value, ok)
    else Exit(served, success)
  }

  /** The supervisor over any number of turns, until it exits or the turns run out. */
  function Supervise(m: Machine, turns: seq<Turn>): Next
    decreases |turns|
  {
    if turns == [] then Continue(m)
    else match TakeTurn(m, turns[0])
      case Exit(end, success) => Exit(end, success)
      case Continue(on) => Supervise(on, turns[1..])
  }

  // ---- safety ----

  ghost predicate FreshNames(m: Machine) {
    forall f :: f in m.disk.files ==> (f.Backup? ==> f.name < m.next) && (f.Staged? ==> f.id < m.next)
  }

  /** What each phase means while the supervisor runs. */
  ghost predicate Safe(m: Machine) {
    && FreshNames(m)
    && Whole(m.disk.files, Live)
    && (m.pending.Some? <==> m.status.Some? && m.status.value.phase.Stopping?)
    && (m.status.Some? ==>
          match m.status.value.phase
          case Stopping =>
            && m.pending.value == Prepared(Staged(m.status.value.id), m.status.value.id)
            && m.pending.value.staged in m.disk.files
            && m.disk.files[m.pending.value.staged] == Restored(m.status.value.id)
            && Backup(m.pending.value.safety) !in m.disk.files
            && m.status.value.id < m.next
            && m.disk.files[Live] == m.was
          case Restoring => false
          case Starting =>
            && m.recovery == Some(Prepared(Staged(m.status.value.id), m.status.value.id))
            && m.disk.files[Live] == Restored(m.status.value.id)
            && Backup(m.recovery.value.safety) in m.disk.files
            && m.disk.files[Backup(m.recovery.value.safety)] == m.was
          case Complete => m.disk.files[Live] == Restored(m.status.value.id)
          case Failed => m.disk.files[Live] == m.was)
    && (m.recovery.Some? ==> m.recovery.value.staged.Staged?)
  }

  /** What the phases still mean once the process ends. */
  ghost predicate SafeAtExit(m: Machine) {
    m.status.Some? ==>
      && (m.status.value.phase.Complete? ==> Live in m.disk.files && m.disk.files[Live] == Restored(m.status.value.id))
      && (m.status.value.phase.Failed? ==> Live in m.disk.files && m.disk.files[Live] == m.was)
  }

  /** A fresh process over an existing database and backups. */
  ghost predicate Initial(m: Machine) {
    m.status.None? && m.pending.None? && m.recovery.None? && Whole(m.disk.files, Live) && FreshNames(m)
  }

  lemma ServeSafe(m: Machine, e: Event)
    requires Safe(m)
    ensures Safe(Serve(m, e).0)
    ensures Serve(m, e).0.recovery == m.recovery
  {
    if !InFlight(m) {
      match e
      case MakeBackup(keep, ok, reached) => MadeSafe(m, keep, ok, reached);
      case DeleteBackup(name, _) => DeletedSafe(m, name);
      case PrepareRestore(name, ok) => PreparedSafe(m, name, ok);
      case Ready =>
    }
  }

  /** A backup made leaves every file alone that is no backup or part of one. */
  lemma MadeUntouched(m: Machine, keep: nat, ok: Luck, reached: set<nat>, f: File)
    requires !f.Backup? && !f.BackupPart?
    ensures var after := MadeBackup(m, keep, ok, reached).0.disk.files;
            (f in after <==> f in m.disk.files) && (f in after ==> after[f] == m.disk.files[f])
  {
  }

  lemma MadeFresh(m: Machine, keep: nat, ok: Luck, reached: set<nat>)
    requires FreshNames(m)
    ensures FreshNames(MadeBackup(m, keep, ok, reached).0)
  {
    var after := MadeBackup(m, keep, ok, reached).0;
    forall f | f in after.disk.files ensures (f.Backup? ==> f.name < after.next) && (f.Staged? ==> f.id < after.next) {
      if f.Staged? {
        MadeUntouched(m, keep, ok, reached, f);
      }
    }
  }

  lemma MadeSafe(m: Machine, keep: nat, ok: Luck, reached: set<nat>)
    requires Safe(m) && !InFlight(m)
    ensures Safe(MadeBackup(m, keep, ok, reached).0)
  {
    MadeFresh(m, keep, ok, reached);
    MadeUntouched(m, keep, ok, reached, Live);
  }

  lemma DeletedSafe(m: Machine, name: nat)
    requires Safe(m) && !InFlight(m)
    ensures Safe(m.(disk := m.disk.(files := WithoutBackups(m.disk.files, {name}))))
  {
  }

  lemma PreparedSafe(m: Machine, name: nat, ok: Luck)
    requires Safe(m) && !InFlight(m)
    ensures Safe(Serve(m, PrepareRestore(name, ok)).0)
  {
    assert Staged(m.next) != Live;
  }

  lemma {:induction false} ServeAllSafe(m: Machine, events: seq<Event>)
    requires Safe(m)
    ensures Safe(ServeAll(m, events))
    decreases |events|
  {
    if events != [] {
      ServeSafe(m, events[0]);
      ServeAllSafe(Serve(m, events[0]).0, events[1..]);
    }
  }

  lemma RestorationSafe(m: Machine, success: bool, ok: Luck)
    requires Safe(m) && m.pending.Some?
    ensures Safe(Restoration(m.(pending := None), m.pending.value, success, ok))
  {
    ApplyAllOrNothing(m.disk, m.pending.value, ok);
    var after := Restoration(m.(pending := None), m.pending.value, success, ok);
    forall f | f in after.disk.files ensures (f.Backup? ==> f.name < after.next) && (f.Staged? ==> f.id < after.next) {
      if f.Backup? {
        assert f == Backup(f.name);
      } else if f.Staged? {
        ApplyKeepsStaged(m.disk, m.pending.value, ok, f);
      }
    }
  }

  /** Neither the swap nor the way back touches a backup: the swap adds its safety copy. */
  lemma BackupsSurvive(m: Machine, success: bool, ok: Luck, n: nat)
    requires Safe(m)
    ensures m.pending.Some? && n != m.pending.value.safety ==>
              var after := Restoration(m.(pending := None), m.pending.value, success, ok).disk.files;
              && (Backup(n) in after <==> Backup(n) in m.disk.files)
              && (Backup(n) in after ==> after[Backup(n)] == m.disk.files[Backup(n)])
    ensures IsStarting(m) ==>
              var after := Recovery(m, m.recovery.value, ok).m.disk.files;
              && (Backup(n) in after <==> Backup(n) in m.disk.files)
              && (Backup(n) in after ==> after[Backup(n)] == m.disk.files[Backup(n)])
  {
    if m.pending.Some? {
      ApplyAllOrNothing(m.disk, m.pending.value, ok);
    }
    if IsStarting(m) {
      RestoreAllOrNothing(m.disk, Backup(m.recovery.value.safety), InBackups, ok);
    }
  }

  lemma RecoverySafe(m: Machine, ok: Luck)
    requires Safe(m) && IsStarting(m) && m.recovery.Some?
    ensures var next := Recovery(m, m.recovery.value, ok);
            if next.Continue? then Safe(next.m) && next.m.status.value.phase.Failed? else SafeAtExit(next.m)
  {
    RestoreAllOrNothing(m.disk, Backup(m.recovery.value.safety), InBackups, ok);
    forall f: File | f.Staged? && f in Recovery(m, m.recovery.value, ok).m.disk.files ensures f.id < m.next {
      RestoreKeepsStaged(m.disk, Backup(m.recovery.value.safety), InBackups, ok, f);
    }
  }

  lemma EndedSafe(served: Machine, success: bool, cancelled: bool, ok: Luck)
    requires Safe(served)
    ensures var next := Ended(served, success, cancelled, ok);
            if next.Continue? then Safe(next.m) else SafeAtExit(next.m)
  {
    if served.pending.Some? {
      RestorationSafe(served, success, ok);
    } else if IsStarting(served) {
      RecoverySafe(served, ok);
    }
  }

  lemma TurnSafe(m: Machine, t: Turn)
    requires Safe(m)
    ensures var next := TakeTurn(m, t);
            if next.Continue? then Safe(next.m) else SafeAtExit(next.m)
  {
    ServeAllSafe(m, t.served);
    EndedSafe(ServeAll(m, t.served), t.success, t.cancelled, t.ok);
  }

  lemma InitialSafe(m: Machine)
    requires Initial(m)
    ensures Safe(m)
  {
  }

  /** Over every run of the supervisor, whatever is asked of the server and whichever file
      operations fail: Complete means the restored database is live, Failed means the one from
      before is, Starting means the recovery slot holds the restore just applied and its safety
      copy the database from before. */
  lemma {:induction false} SupervisedSafe(m: Machine, turns: seq<Turn>)
    requires Safe(m)
    ensures var next := Supervise(m, turns);
            if next.Continue? then Safe(next.m) else SafeAtExit(next.m)
    decreases |turns|
  {
    if turns != [] {
      TurnSafe(m, turns[0]);
      if TakeTurn(m, turns[0]).Continue? {
        SupervisedSafe(TakeTurn(m, turns[0]).m, turns[1..]);
      }
    }
  }

  // ---- progress ----

  /** A prepared restore waits as it is, whatever is asked meanwhile. */
  lemma {:induction false} WaitsAsPrepared(m: Machine, events: seq<Event>)
    requires Safe(m) && m.pending.Some?
    ensures ServeAll(m, events) == m
    decreases |events|
  {
    if events != [] {
      WaitsAsPrepared(m, events[1..]);
    }
  }

  /** Once the server has stopped, the prepared restore is carried out exactly when the server
      stopped well and every file operation goes through; the recovery slot then holds it. If
      not, it has failed, and the database is the one before. */
  lemma DueRestore(m: Machine, success: bool, ok: Luck)
    requires Safe(m) && m.pending.Some?
    ensures var p := m.pending.value;
            var next := Ended(m, success, false, ok);
            && next.Continue? && next.m.pending.None?
            && next.m.status.Some? && next.m.status.value.id == m.status.value.id
            && Live in next.m.disk.files
            && (if success && SwapWorks(m.disk, p, ok) then
                  && IsStarting(next.m) && next.m.recovery == Some(p)
                  && next.m.disk.files[Live] == Restored(m.status.value.id)
                  && Backup(p.safety) in next.m.disk.files && next.m.disk.files[Backup(p.safety)] == m.disk.files[Live]
                else
                  && next.m.status.value.phase.Failed? && next.m.recovery == m.recovery
                  && next.m.disk.files[Live] == m.disk.files[Live])
  {
    ApplyAllOrNothing(m.disk, m.pending.value, ok);
  }

  /** After a server that did not stop well no file is touched but the staged one, which goes. */
  lemma GivenUpUntouched(m: Machine, ok: Luck, f: File)
    requires Safe(m) && m.pending.Some?
    ensures var after := Ended(m, false, false, ok).m.disk;
            && after.keys == m.disk.keys
            && (f in after.files <==> f in m.disk.files && f != m.pending.value.staged)
            && (f in after.files ==> after.files[f] == m.disk.files[f])
  {
  }

  /** A server that ended without being ready on the restored database gets the one from before
      back exactly when every operation of copying it goes through; the process ends if not. */
  lemma TakenBack(m: Machine, success: bool, ok: Luck)
    requires Safe(m) && IsStarting(m)
    ensures var next := Ended(m, success, false, ok);
            && (next.Continue? <==> RestoreWorks(m.disk, Backup(m.recovery.value.safety), InBackups, ok))
            && (next.Continue? ==>
                  && next.m.status == Some(Status(m.status.value.id, Failed)) && next.m.recovery.None?
                  && Live in next.m.disk.files && next.m.disk.files[Live] == m.was)
            && (next.Exit? ==> !next.success && IsStarting(next.m))
  {
    RestoreAllOrNothing(m.disk, Backup(m.recovery.value.safety), InBackups, ok);
  }

  /** In every other case the process ends as the server did, and nothing is touched. */
  lemma EndsAsServed(m: Machine, success: bool, cancelled: bool, ok: Luck)
    requires Safe(m)
    ensures Ended(m, success, cancelled, ok) == Exit(m, success) <==> cancelled || (m.pending.None? && !IsStarting(m))
    ensures forall t: Turn :: !t.built ==> TakeTurn(m, t) == Exit(m, false)
  {
    if !cancelled && m.pending.Some? {
      DueRestore(m, success, ok);
    } else if !cancelled && IsStarting(m) {
      TakenBack(m, success, ok);
      assert Recovery(m, m.recovery.value, ok).m.recovery.None?;
    }
  }

  /** While the server starts on the restored database every request is turned away until it
      reports ready; then the restore is complete, on the database it put in place. */
  lemma {:induction false} ReadyCompletes(m: Machine, events: seq<Event>)
    requires Safe(m) && IsStarting(m)
    ensures Ready !in events ==> ServeAll(m, events) == m
    ensures Serve(m, Ready).0 == m.(status := Some(Status(m.status.value.id, Complete)))
    ensures m.disk.files[Live] == Restored(m.status.value.id)
    decreases |events|
  {
    if events != [] {
      if events[0] != Ready {
        assert Serve(m, events[0]).0 == m;
        ReadyCompletes(m, events[1..]);
      }
    }
  }

  lemma {:induction false} ServedThenReady(m: Machine, events: seq<Event>)
    requires Safe(m) && IsStarting(m) && Ready !in events
    ensures ServeAll(m, events + [Ready]) == Serve(m, Ready).0
    decreases |events|
  {
    if events == [] {
      assert ServeAll(Serve(m, Ready).0, []) == Serve(m, Ready).0;
      assert events + [Ready] == [Ready] && [Ready][1..] == [];
    } else {
      assert Serve(m, events[0]).0 == m;
      assert (events + [Ready])[1..] == events[1..] + [Ready];
      ServedThenReady(m, events[1..]);
    }
  }

  /** The whole of a restore that goes well: asked for, applied once the server has stopped, complete
      when the next server is ready, whatever else both were asked. */
  lemma RestoreCompletes(m: Machine, first: Turn, second: Turn, before: seq<Event>)
    requires Safe(m) && m.pending.Some?
    requires first.built && first.success && !first.cancelled && SwapWorks(m.disk, m.pending.value, first.ok)
    requires second.built && !second.cancelled && Ready !in before && second.served == before + [Ready]
    ensures var next := Supervise(m, [first, second]);
            && next.Exit? && next.success == second.success
            && next.m.status == Some(Status(m.status.value.id, Complete))
            && Live in next.m.disk.files && next.m.disk.files[Live] == Restored(m.status.value.id)
            && Backup(m.pending.value.safety) in next.m.disk.files
            && next.m.disk.files[Backup(m.pending.value.safety)] == m.disk.files[Live]
  {
    WaitsAsPrepared(m, first.served);
    DueRestore(m, first.success, first.ok);
    EndedSafe(m, first.success, false, first.ok);
    var swapped := Ended(m, first.success, false, first.ok).m;
    assert TakeTurn(m, first) == Continue(swapped);
    ServedThenReady(swapped, before);
    ReadyCompletes(swapped, []);
    assert [first, second][1..] == [second];
  }

  /** The whole of one whose server never reports ready: the database from before is back exactly when
      every operation of copying it goes through; then another server runs on it. */
  lemma RestoreTakenBack(m: Machine, first: Turn, second: Turn)
    requires Safe(m) && m.pending.Some?
    requires first.built && first.success && !first.cancelled && SwapWorks(m.disk, m.pending.value, first.ok)
    requires second.built && !second.cancelled && Ready !in second.served
    ensures var swapped := TakeTurn(m, first).m;
            var next := Supervise(m, [first, second]);
            && (next.Continue? <==> RestoreWorks(swapped.disk, Backup(m.pending.value.safety), InBackups, second.ok))
            && (next.Continue? ==>
                  && next.m.status == Some(Status(m.status.value.id, Failed))
                  && Live in next.m.disk.files && next.m.disk.files[Live] == m.disk.files[Live])
            && (next.Exit? ==> !next.success)
  {
    WaitsAsPrepared(m, first.served);
    DueRestore(m, first.success, first.ok);
    EndedSafe(m, first.success, false, first.ok);
    var swapped := TakeTurn(m, first).m;
    ReadyCompletes(swapped, second.served);
    TakenBack(swapped, second.success, second.ok);
    WasLive(m, first.ok);
    var left := TakeTurn(swapped, second);
    assert [first, second][1..] == [second];
    assert Supervise(swapped, [second]) == if left.Exit? then left else Supervise(left.m, []);
  }

  lemma WasLive(m: Machine, ok: Luck)
    requires Safe(m) && m.pending.Some?
    ensures Ended(m, true, false, ok).m.was == m.disk.files[Live]
  {
  }

  // ---- what the requests come to ----

  /** A restore is prepared exactly when none is in flight, the backup is there and whole and can be
      staged. Nothing changes if not. */
  lemma PreparedExactly(m: Machine, name: nat, ok: Luck)
    requires Safe(m)
    ensures var (after, reply) := Serve(m, PrepareRestore(name, ok));
            && (reply == Ok <==> !InFlight(m) && Whole(m.disk.files, Backup(name)) && ok(Stage))
            && (reply == Busy <==> InFlight(m))
            && (reply == NotFound <==> !InFlight(m) && Backup(name) !in m.disk.files)
            && (reply != Ok ==> after == m)
            && (reply == Ok ==>
                  && after.status == Some(Status(m.next, Stopping))
                  && after.pending.Some? && after.pending.value.safety == m.next
                  && Whole(after.disk.files, after.pending.value.staged)
                  && after.pending.value.staged !in m.disk.files
                  && after.disk.keys == m.disk.keys
                  && (forall f :: f != after.pending.value.staged ==>
                        (f in after.disk.files <==> f in m.disk.files)
                        && (f in m.disk.files ==> after.disk.files[f] == m.disk.files[f])))
  {
  }

  /** A backup is deleted exactly when no restore is in flight, it is there and it can be removed;
      no other file goes. */
  lemma DeletedExactly(m: Machine, name: nat, removable: bool, f: File)
    ensures var (after, reply) := Serve(m, DeleteBackup(name, removable));
            && (reply == Ok <==> !InFlight(m) && Backup(name) in m.disk.files && removable)
            && (reply == Busy <==> InFlight(m))
            && (reply == NotFound <==> !InFlight(m) && Backup(name) !in m.disk.files)
            && (f in after.disk.files <==> f in m.disk.files && (reply == Ok ==> f != Backup(name)))
            && (f in after.disk.files ==> after.disk.files[f] == m.disk.files[f])
            && after.(disk := m.disk) == m && after.disk.keys == m.disk.keys
  {
  }

  /** Every operation making a backup comes to goes through, the removal of old ones aside. */
  predicate BackupWorks(d: Disk, ok: Luck) {
    Whole(d.files, Live) && ok(CopyBackup) && ok(RenameBackup) && (InData in d.keys && InBackups !in d.keys ==> ok(KeepKey))
  }

  /** The backups there are once one named `made` is made. */
  function NamesWith(m: Machine, made: nat): set<nat> {
    BackupNames(m.disk.files) + {made}
  }

  /** A backup is made exactly when no restore is in flight and every operation goes through. It
      holds the live database; then the newest backups are there and no others, the one just made
      among them. */
  lemma MadeExactly(m: Machine, keep: nat, ok: Luck, reached: set<nat>)
    requires Safe(m)
    ensures var (after, reply) := Serve(m, MakeBackup(keep, ok, reached));
            var names := NamesWith(m, m.next);
            && (reply == Busy <==> InFlight(m))
            && (reply == Ok <==> !InFlight(m) && BackupWorks(m.disk, ok) && names - Newest(names, Kept(keep)) <= reached)
            && (reply == Ok ==>
                  && BackupNames(after.disk.files) == Newest(names, Kept(keep)) && m.next in Newest(names, Kept(keep))
                  && Backup(m.next) in after.disk.files && after.disk.files[Backup(m.next)] == m.disk.files[Live]
                  && after.disk.keys == if InData in m.disk.keys then m.disk.keys + {InBackups} else m.disk.keys)
  {
    if !InFlight(m) && BackupWorks(m.disk, ok) {
      var made := (m.disk.files - {BackupPart(m.next)})[Backup(m.next) := m.disk.files[Live]];
      NamesMade(m, made);
      JustMade(m, keep);
      NamesLeft(made, PastKeep(made, keep) * reached);
      assert PastKeep(made, keep) == NamesWith(m, m.next) - Newest(NamesWith(m, m.next), Kept(keep));
      assert Backup(m.next) in WithoutBackups(made, PastKeep(made, keep) * reached);
    }
  }

  lemma JustMade(m: Machine, keep: nat)
    requires FreshNames(m)
    ensures m.next in Newest(NamesWith(m, m.next), Kept(keep))
  {
    assert Above(NamesWith(m, m.next), m.next) == {};
  }

  lemma NamesMade(m: Machine, made: Files)
    requires Live in m.disk.files && made == (m.disk.files - {BackupPart(m.next)})[Backup(m.next) := m.disk.files[Live]]
    ensures BackupNames(made) == NamesWith(m, m.next)
  {
    forall n ensures n in BackupNames(made) <==> n in NamesWith(m, m.next) {
      assert n in BackupNames(made) <==> Backup(n) in made;
    }
  }

  lemma NamesLeft(files: Files, gone: set<nat>)
    ensures BackupNames(WithoutBackups(files, gone)) == BackupNames(files) - gone
  {
    forall n ensures n in BackupNames(WithoutBackups(files, gone)) <==> n in BackupNames(files) - gone {
      assert n in BackupNames(WithoutBackups(files, gone)) <==> Backup(n) in WithoutBackups(files, gone);
    }
  }

  /** No backup among the newest is lost in making one, however it goes, and none changes. */
  lemma NewestStay(m: Machine, keep: nat, ok: Luck, reached: set<nat>, n: nat)
    requires Safe(m) && Backup(n) in m.disk.files
    ensures var after := Serve(m, MakeBackup(keep, ok, reached)).0.disk.files;
            && (n in Newest(NamesWith(m, m.next), Kept(keep)) ==> Backup(n) in after)
            && (Backup(n) in after ==> after[Backup(n)] == m.disk.files[Backup(n)])
  {
    if !InFlight(m) && BackupWorks(m.disk, ok) {
      var made := (m.disk.files - {BackupPart(m.next)})[Backup(m.next) := m.disk.files[Live]];
      NamesMade(m, made);
    }
  }
}
