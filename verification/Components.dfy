// Replacing the runtime's components under a recovery journal (native/components.rs).
// `power` counts how many more durable writes succeed before the machine stops.

module Components {
  import opened Prelude

  type Bytes = seq<bv8>

  /** A file: a hash identifies its content, and a script must also be executable. */
  datatype File =
    | Component(bytes: Bytes)
    | Script(bytes: Bytes, executable: bool)
    | Manifest(files: seq<File>, scripts: Option<seq<File>>, rest: Bytes)

  const FILES := 6
  const SCRIPTS := 6

  /** Where the six components are installed; one of them at two places. */
  const TARGET_OF := [0, 1, 2, 3, 4, 4, 5]
  const TARGETS := 7

  // The installed files in the order they are written: components, scripts, manifest.
  const MANIFEST := 13
  const SLOTS := 14

  type Name = nat

  datatype Journal = Journal(
    backup: Name,
    before: seq<File>,
    after: seq<File>,
    scripts: Option<(seq<File>, seq<File>)>,     // absent in format 1
    manifest: File)

  datatype World = World(installed: seq<File>, journal: Option<Journal>, backups: map<Name, map<nat, File>>)

  datatype Stop = Interrupted | Refused | Failed

  predicate WellFormed(j: Journal) {
    && |j.before| == |j.after| == FILES
    && (j.scripts.Some? ==> |j.scripts.value.0| == |j.scripts.value.1| == SCRIPTS)
  }

  /** The files an update replaces; without accepted scripts, only components and manifest. */
  predicate Covered(j: Journal, k: nat) {
    k < TARGETS || k == MANIFEST || (j.scripts.Some? && k < MANIFEST)
  }

  function Before(j: Journal, k: nat): File
    requires WellFormed(j) && Covered(j, k)
  {
    if k < TARGETS then j.before[TARGET_OF[k]]
    else if k == MANIFEST then j.manifest
    else j.scripts.value.0[k - TARGETS]
  }

  function After(j: Journal, k: nat): File
    requires WellFormed(j) && Covered(j, k) && k < MANIFEST
  {
    if k < TARGETS then j.after[TARGET_OF[k]] else j.scripts.value.1[k - TARGETS]
  }

  /** The manifest already lists the new files. */
  predicate Lists(j: Journal, m: File) {
    m.Manifest? && m.files == j.after && (j.scripts.Some? ==> m.scripts == Some(j.scripts.value.1))
  }

  /** The update went through: the manifest and every file say so. */
  predicate Finished(j: Journal, installed: seq<File>)
    requires WellFormed(j) && |installed| == SLOTS
  {
    Lists(j, installed[MANIFEST]) && forall k: nat | k < MANIFEST && Covered(j, k) :: installed[k] == After(j, k)
  }

  /** The backup holds everything a rollback needs. */
  predicate Intact(j: Journal, backups: map<Name, map<nat, File>>)
    requires WellFormed(j)
  {
    && j.backup in backups
    && forall k: nat | k < SLOTS && Covered(j, k) :: Get(backups[j.backup], k) == Some(Before(j, k))
  }

  // ----- What always holds ------------------------------------------------------------

  /** The journal describes the step from one complete version to another. */
  predicate Describes(j: Journal, old_: seq<File>, new_: seq<File>) {
    && WellFormed(j) && |old_| == |new_| == SLOTS
    && (forall k: nat | k < SLOTS && Covered(j, k) :: old_[k] == Before(j, k))
    && (forall k: nat | k < MANIFEST && Covered(j, k) :: new_[k] == After(j, k))
    && (forall k: nat | k < SLOTS && !Covered(j, k) :: new_[k] == old_[k])
    && Lists(j, new_[MANIFEST]) && !Lists(j, old_[MANIFEST])
  }

  /**
   * Without a journal one of the two versions is installed. With a journal either the
   * backup is complete, or the clean-up has begun and one of the two versions is installed.
   */
  predicate Sound(w: World, old_: seq<File>, new_: seq<File>) {
    && |w.installed| == |old_| == |new_| == SLOTS
    && match w.journal
       case None => w.installed == old_ || w.installed == new_
       case Some(j) =>
         && Describes(j, old_, new_)
         && (forall k: nat | k < SLOTS && !Covered(j, k) :: w.installed[k] == old_[k])
         && (w.installed[MANIFEST] == old_[MANIFEST] || w.installed[MANIFEST] == new_[MANIFEST])
         && (Intact(j, w.backups) || w.installed == old_ || w.installed == new_)
  }

  lemma FinishedIsNew(w: World, old_: seq<File>, new_: seq<File>)
    requires Sound(w, old_, new_) && w.journal.Some?
    ensures Finished(w.journal.value, w.installed) <==> w.installed == new_
  {
    var j := w.journal.value;
    if Finished(j, w.installed) {
      forall k: nat | k < SLOTS ensures w.installed[k] == new_[k] {
        if k != MANIFEST && Covered(j, k) {
          assert w.installed[k] == After(j, k) == new_[k];
        }
      }
    }
  }

  /** The version an update leads to. */
  function Updated(installed: seq<File>, files: seq<File>, scripts: Option<seq<File>>, rest: Bytes): seq<File>
    requires |installed| == SLOTS && |files| == FILES && NewScripts(scripts)
    requires installed[MANIFEST].Manifest?
  {
    seq(TARGETS, k requires 0 <= k < TARGETS => files[TARGET_OF[k]])
    + (if scripts.Some? then scripts.value else installed[TARGETS..MANIFEST])
    + [Manifest(files, if scripts.Some? then scripts else installed[MANIFEST].scripts, rest)]
  }

  function JournalFor(name: Name, installed: seq<File>, files: seq<File>, scripts: Option<seq<File>>): Journal
    requires |installed| == SLOTS && installed[MANIFEST].Manifest?
  {
    Journal(name, installed[MANIFEST].files, files,
            if scripts.Some? then Some((installed[TARGETS..MANIFEST], scripts.value)) else None,
            installed[MANIFEST])
  }

  /** The manifest describes the components that are installed. */
  predicate Consistent(installed: seq<File>)
    requires |installed| == SLOTS
  {
    && installed[MANIFEST].Manifest? && |installed[MANIFEST].files| == FILES
    && forall k | 0 <= k < TARGETS :: installed[k] == installed[MANIFEST].files[TARGET_OF[k]]
  }

  /** The scripts may be replaced if they are as the manifest says, executable, and accepted. */
  predicate ScriptsKnown(installed: seq<File>, accepted: bool)
    requires |installed| == SLOTS && installed[MANIFEST].Manifest?
  {
    && (forall k | TARGETS <= k < MANIFEST :: installed[k].Script? && installed[k].executable)
    && (installed[MANIFEST].scripts.None? || installed[MANIFEST].scripts.value == installed[TARGETS..MANIFEST])
    && accepted
  }

  predicate NewScripts(scripts: Option<seq<File>>) {
    scripts.Some? ==> |scripts.value| == SCRIPTS && forall k | 0 <= k < SCRIPTS :: scripts.value[k].Script? && scripts.value[k].executable
  }

  lemma JournalDescribesUpdate(name: Name, installed: seq<File>, files: seq<File>, scripts: Option<seq<File>>, rest: Bytes)
    requires |installed| == SLOTS && |files| == FILES && Consistent(installed) && NewScripts(scripts)
    requires scripts.Some? ==> ScriptsKnown(installed, true)
    requires installed[MANIFEST].files != files || (scripts.Some? && scripts.value != installed[TARGETS..MANIFEST])
    ensures Describes(JournalFor(name, installed, files, scripts), installed, Updated(installed, files, scripts, rest))
    ensures Updated(installed, files, scripts, rest)[MANIFEST].Manifest?
    ensures Updated(installed, files, scripts, rest)[MANIFEST].files == files
  {
    var to := Updated(installed, files, scripts, rest);
    assert to[TARGETS..MANIFEST] == if scripts.Some? then scripts.value else installed[TARGETS..MANIFEST];
    forall k: nat | TARGETS <= k < MANIFEST
      ensures to[k] == if scripts.Some? then scripts.value[k - TARGETS] else installed[k]
    {
      assert to[k] == to[TARGETS..MANIFEST][k - TARGETS];
    }
  }

  /**
   * Why recovery is not always possible: once the clean-up after a rollback has removed any
   * backup entry, the state is still sound, but it can neither be finished nor rolled back.
   */
  lemma CleanupStrands(w: World, old_: seq<File>, new_: seq<File>, k: nat)
    requires Sound(w, old_, new_) && w.journal.Some? && w.installed == old_
    requires Intact(w.journal.value, w.backups) && k < SLOTS && Covered(w.journal.value, k)
    ensures var j := w.journal.value;
            var t := w.(backups := w.backups[j.backup := w.backups[j.backup] - {k}]);
            Sound(t, old_, new_) && !Intact(j, t.backups) && !Finished(j, t.installed)
  {
    var j := w.journal.value;
    var t := w.(backups := w.backups[j.backup := w.backups[j.backup] - {k}]);
    assert Get(t.backups[j.backup], k) == None;
  }

  class Updater {
    var w: World
    var power: nat
    // The versions the running or last update leads from and to.
    ghost var from_: seq<File>
    ghost var to: seq<File>

    ghost predicate Valid()
      reads this
    {
      Sound(w, from_, to)
    }

    constructor (installed: seq<File>)
      requires |installed| == SLOTS
      ensures Valid() && from_ == to == w.installed == installed && w.journal.None?
    {
      w := World(installed, None, map[]);
      power := 0;
      from_, to := installed, installed;
    }

    method Write(next: World) returns (r: Result<(), Stop>)
      modifies `w, `power
      ensures r == (if old(power) == 0 then Err(Interrupted) else Ok(()))
      ensures r.Ok? ==> w == next && power == old(power) - 1
      ensures r.Err? ==> w == old(w) && power == 0
    {
      if power == 0 {
        return Err(Interrupted);
      }
      w, power := next, power - 1;
      return Ok(());
    }

    /** How many entries of its backup a journal still has. */
    function Entries(): nat
      reads this
    {
      if w.journal.Some? && w.journal.value.backup in w.backups then |w.backups[w.journal.value.backup]| else 0
    }

    /** Remove the backup entry by entry, then the journal. */
    method Cleanup() returns (r: Result<(), Stop>)
      requires Valid() && w.journal.Some?
      requires w.installed == from_ || w.installed == to
      modifies `w, `power
      ensures Valid() && w.installed == old(w).installed
      ensures r.Ok? ==> w.journal.None?
      ensures r.Err? ==> r == Err(Interrupted) && power == 0
      ensures old(power) >= old(Entries()) + 2 ==> r.Ok?
      ensures old(power) == 0 ==> w == old(w)
    {
      var name := w.journal.value.backup;
      if name in w.backups {
        while w.backups[name] != map[]
          invariant w == old(w).(backups := w.backups) && name in w.backups
          invariant power + |old(w).backups[name]| == old(power) + |w.backups[name]|
          invariant power == old(power) ==> w == old(w)
          decreases |w.backups[name]|
        {
          var entry :| entry in w.backups[name];
          var rest := w.backups[name] - {entry};
          assert rest.Keys == w.backups[name].Keys - {entry};
          var _ :- Write(w.(backups := w.backups[name := rest]));
        }
        var _ :- Write(w.(backups := w.backups - {name}));
      }
      r := Write(w.(journal := None));
    }

    /** Copy the backup over whatever is installed. */
    method RollBack() returns (r: Result<(), Stop>)
      requires Valid() && w.journal.Some? && Intact(w.journal.value, w.backups)
      modifies `w, `power
      ensures Valid() && w == old(w).(installed := w.installed)
      ensures r.Ok? ==> w.installed == from_
      ensures r.Err? ==> r == Err(Interrupted) && power == 0
      ensures old(power) >= SLOTS ==> r.Ok? && power >= old(power) - SLOTS
      ensures old(power) == 0 ==> r.Err? && w == old(w)
    {
      var j := w.journal.value;
      for k: nat := 0 to SLOTS
        invariant Valid() && w == old(w).(installed := w.installed)
        invariant forall i: nat | i < k && Covered(j, i) :: w.installed[i] == Before(j, i)
        invariant old(power) - k <= power <= old(power)
        invariant power == old(power) ==> w == old(w) && k == 0
      {
        if Covered(j, k) {
          var _ :- Write(w.(installed := w.installed[k := w.backups[j.backup][k]]));
        }
      }
      return Ok(());
    }

    /**
     * Finish what an interrupted update began. It succeeds, given power, exactly if the
     * update had gone through or the backup is still complete; otherwise nothing changes.
     */
    method Recover() returns (r: Result<(), Stop>)
      requires Valid()
      modifies `w, `power
      ensures Valid()
      ensures r.Ok? ==> w.journal.None? && (w.installed == from_ || w.installed == to)
      ensures r.Ok? && old(w).journal.Some? && old(w).installed != to ==> w.installed == from_
      ensures r == Err(Refused) || old(power) == 0 || old(w).journal.None? ==> w == old(w)
      ensures old(w).journal.None? ==> r.Ok?
      ensures r == Err(Interrupted) ==> power == 0
      ensures old(power) >= SLOTS + old(Entries()) + 2 ==>
                (r.Ok? <==> old(w).journal.None? || old(w).installed == to || Intact(old(w).journal.value, old(w).backups))
    {
      if w.journal.None? {
        return Ok(());
      }
      var j := w.journal.value;
      FinishedIsNew(w, from_, to);
      if Finished(j, w.installed) {
        r := Cleanup();
        return;
      }
      if !Intact(j, w.backups) {
        return Err(Refused);
      }
      var _ :- RollBack();
      r := Cleanup();
    }

    /** Keep every file the update will replace. */
    method BackUp(j: Journal, healthy: bool) returns (r: Result<(), Stop>)
      requires Valid() && w.journal.None? && w.installed == from_ && WellFormed(j)
      requires forall k: nat | k < SLOTS && Covered(j, k) :: w.installed[k] == Before(j, k)
      modifies `w, `power
      ensures Valid() && w == old(w).(backups := w.backups)
      ensures r.Ok? ==> Intact(j, w.backups)
      ensures healthy && r.Err? ==> r == Err(Interrupted)
    {
      var _ :- Write(w.(backups := w.backups[j.backup := map[]]));
      for k: nat := 0 to SLOTS
        invariant Valid() && w == old(w).(backups := w.backups) && j.backup in w.backups
        invariant forall i: nat | i < k && Covered(j, i) :: Get(w.backups[j.backup], i) == Some(Before(j, i))
      {
        if Covered(j, k) {
          var fails: bool := *;
          if fails && !healthy {
            return Err(Failed);
          }
          var entries: map<nat, File> := Put(w.backups[j.backup], k, Some(w.installed[k]));
          var _ :- Write(w.(backups := w.backups[j.backup := entries]));
        }
      }
      return Ok(());
    }

    /** Write the new components and scripts, and the manifest last. */
    method Replace(manifest: File, healthy: bool) returns (r: Result<(), Stop>)
      requires Valid() && w.journal.Some? && Intact(w.journal.value, w.backups)
      requires w.installed == from_ && to[MANIFEST] == manifest
      requires w.journal.value.scripts.Some? ==> forall k | 0 <= k < SCRIPTS :: w.journal.value.scripts.value.1[k].Script?
      modifies `w, `power
      ensures Valid() && w == old(w).(installed := w.installed)
      ensures r.Ok? ==> w.installed == to
      ensures healthy && r.Err? ==> r == Err(Interrupted) && power == 0
    {
      var j := w.journal.value;
      for k: nat := 0 to MANIFEST
        invariant Valid() && w == old(w).(installed := w.installed)
        invariant w.installed[MANIFEST] == from_[MANIFEST]
        invariant forall i: nat | i < k && Covered(j, i) :: w.installed[i] == After(j, i)
      {
        if Covered(j, k) {
          var fails: bool := *;
          if fails && !healthy {
            return Err(Failed);
          }
          if k >= TARGETS {
            // A script is replaced first and made executable afterwards.
            var executable: bool := *;
            var _ :- Write(w.(installed := w.installed[k := After(j, k).(executable := executable)]));
          }
          var _ :- Write(w.(installed := w.installed[k := After(j, k)]));
        }
      }
      r := Write(w.(installed := w.installed[MANIFEST := manifest]));
      if r.Ok? {
        assert forall k: nat | k < SLOTS :: w.installed[k] == to[k];
      }
    }

    /** After a crash, and with power again, a recovery succeeds. */
    ghost predicate Recoverable()
      requires Valid()
      reads this
    {
      w.journal.None? || w.installed == to || Intact(w.journal.value, w.backups)
    }

    /** Back up, put the update on record, carry it out, and clean up; undo it if it fails. */
    method Perform(j: Journal, manifest: File, healthy: bool) returns (r: Result<(), Stop>)
      requires Valid() && w.journal.None? && w.installed == from_ && Describes(j, from_, to) && to[MANIFEST] == manifest
      requires j.scripts.Some? ==> forall k | 0 <= k < SCRIPTS :: j.scripts.value.1[k].Script?
      modifies `w, `power
      ensures Valid()
      ensures r.Ok? ==> w.journal.None? && w.installed == to
      ensures healthy ==> Recoverable()
    {
      hide Finished;
      var kept := BackUp(j, healthy);
      if kept.Err? {
        // What was copied so far is removed again, or stays behind unused.
        return kept;
      }
      var _ :- Write(w.(journal := Some(j)));
      var written := Replace(manifest, healthy);
      if written.Err? {
        var _ :- Recover();
        return written;
      }
      r := Cleanup();
    }

    /**
     * Install other components, and scripts if both sides have known ones. `accepted` says
     * that the installed files are of a known release, `healthy` that nothing but a loss of
     * power goes wrong.
     */
    method Refresh(files: seq<File>, scripts: Option<seq<File>>, rest: Bytes, accepted: bool, healthy: bool)
      returns (r: Result<bool, Stop>)
      requires Valid() && |files| == FILES && NewScripts(scripts)
      modifies this
      ensures Valid()
      ensures r.Ok? ==> w.journal.None?
      ensures r == Ok(true) ==> w.installed == to && w.installed[MANIFEST].Manifest? && w.installed[MANIFEST].files == files
      ensures r == Ok(false) ==> w.installed == old(from_) || w.installed == old(to)
      ensures healthy && old(w).journal.None? ==> Recoverable()
      // Whoever starts from a complete version ends with it, with the new one, or with a journal.
      ensures old(w).journal.None? ==>
                || w == old(w)
                || (from_ == old(w).installed && from_[MANIFEST].Manifest?
                    && exists known: Option<seq<File>> :: known in {None, scripts} && to == Updated(from_, files, known, rest))
    {
      hide Describes, Finished, Intact;
      var _ :- Recover();
      if !Consistent(w.installed) || !accepted {
        return Err(Refused);
      }
      var known: bool := *;
      var replaced := if scripts.Some? && ScriptsKnown(w.installed, known) then scripts else None;
      if w.installed[MANIFEST].files == files && (replaced.None? || replaced.value == w.installed[TARGETS..MANIFEST]) {
        return Ok(false);
      }
      var name: Name := *;
      if name in w.backups {
        return Err(Refused);
      }
      JournalDescribesUpdate(name, w.installed, files, replaced, rest);
      var target := Updated(w.installed, files, replaced, rest);
      from_, to := w.installed, target;
      var _ :- Perform(JournalFor(name, w.installed, files, replaced), target[MANIFEST], healthy);
      return Ok(true);
    }
  }
}
