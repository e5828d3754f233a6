// Installing, upgrading, retrying and undoing the Fenix patch (native/fenix.rs). Every
// durable write may be the last one before the power fails; `power` counts how many
// more will succeed, so that a statement for every `power` is one for every crash point.

module Fenix {
  import opened Prelude

  /** Device and inode of a profile directory. */
  type Identity = nat

  /** The unique suffix of one installation's directories. */
  type Stamp = nat

  type Bytes = seq<bv8>

  /** The places a Wine profile can be at. */
  datatype Place =
    | Active
    | Before(stamp: Stamp)
    | BeforeUpdate(stamp: Stamp)
    | Retained(stamp: Stamp)
    | Staged(stamp: Stamp)

  datatype Runner = Foreign(name: string) | Patched(work: Stamp)

  datatype Script = LaunchSimulator | LaunchWine

  const LAUNCH_FILES := [LaunchSimulator, LaunchWine]

  type Scripts = map<Script, Bytes>

  datatype Selection = Selection(proton: string, runner: Runner)

  datatype Stage = Preparing | Committing | Installed | Restoring | Restored

  datatype Marker = Marker(
    stage: Stage,
    version: nat,
    work: Stamp,
    backup: Stamp,
    previousPrefix: Stamp,
    previousRunner: Runner,
    originalId: Identity,
    protonBefore: Option<Selection>,
    upgradeBackup: Option<Stamp>,
    retained: Option<Stamp>)

  datatype Backup = Backup(scripts: Scripts, manifest: Option<Bytes>, previous: Option<Marker>)

  datatype World = World(
    dirs: map<Place, Identity>,
    runner: Runner,
    scripts: Scripts,
    manifest: Option<Bytes>,
    proton: Option<Selection>,
    marker: Option<Marker>,
    backups: map<Stamp, Backup>,
    next: nat)                     // stamps and identities from here on are unused

  /** The runtime as it was before the first patch. */
  datatype Origin = Origin(id: Identity, runner: Runner, scripts: Scripts, manifest: Option<Bytes>, proton: Option<Selection>)

  datatype Refusal = Interrupted | Refused

  // ----- What always holds ----------------------------------------------------------

  predicate AsBefore(w: World, o: Origin) {
    && Active in w.dirs && w.dirs[Active] == o.id
    && w.runner == o.runner && w.scripts == o.scripts && w.manifest == o.manifest && w.proton == o.proton
  }

  predicate Complete(s: Scripts) {
    forall x: Script :: x in s
  }

  /** Directories have identities of their own, and unused names are unused. */
  predicate Distinct(dirs: map<Place, Identity>, next: nat) {
    && (forall p, q | p in dirs && q in dirs && dirs[p] == dirs[q] :: p == q)
    && (forall p | p in dirs :: dirs[p] < next && (p != Active ==> p.stamp < next))
  }

  /** The original profile is where the marker says: put aside, or still active. */
  predicate OriginalSafe(w: World, m: Marker, o: Origin) {
    if Before(m.previousPrefix) in w.dirs then w.dirs[Before(m.previousPrefix)] == o.id
    else Active in w.dirs && w.dirs[Active] == o.id
  }

  /** Everything a restore needs is on disk. */
  predicate Restorable(w: World, m: Marker, o: Origin) {
    && m.originalId == o.id && m.previousRunner == o.runner && m.protonBefore == o.proton
    && m.backup in w.backups
    && w.backups[m.backup].scripts == o.scripts && w.backups[m.backup].manifest == o.manifest
    && (o.manifest.None? ==> w.manifest.None?)
    && OriginalSafe(w, m, o)
    && m.work < w.next && m.previousPrefix < w.next
    && m.stage != Restored
  }

  predicate SameRestorePoint(p: Marker, m: Marker) {
    && p.backup == m.backup && p.previousPrefix == m.previousPrefix && p.previousRunner == m.previousRunner
    && p.originalId == m.originalId && p.protonBefore == m.protonBefore
  }

  /** Once a patch is installed, the original profile is put aside. */
  predicate Aside(w: World, m: Marker) {
    m.stage == Installed || (m.stage == Preparing && m.upgradeBackup.Some?) ==> Before(m.previousPrefix) in w.dirs
  }

  /** While an installation is prepared, the runtime in use is untouched. */
  predicate Untouched(w: World, m: Marker, o: Origin) {
    m.stage == Preparing ==>
      match m.upgradeBackup
      case None =>
        AsBefore(w, o) && Before(m.previousPrefix) !in w.dirs
      case Some(b) =>
        && b == m.work && b in w.backups && w.backups[b].previous.Some?
        && w.backups[b].scripts == w.scripts
        && BeforeUpdate(m.work) !in w.dirs && Active in w.dirs
        && var p := w.backups[b].previous.value;
           && p.stage == Installed && p.work < m.work && p.version < m.version
           && w.runner == Patched(p.work)
           && SameRestorePoint(p, m)
  }

  // ----- Retrying an interrupted preparation ---------------------------------------------

  predicate StagedApart(w: World, m: Marker) {
    Active in w.dirs && (Staged(m.work) in w.dirs ==> w.dirs[Staged(m.work)] != w.dirs[Active])
  }

  /** The installed marker an interrupted update goes back to. */
  function RetryUpgrade(w: World, m: Marker): Option<Marker> {
    if m.upgradeBackup != Some(m.work) || BeforeUpdate(m.work) in w.dirs || m.work !in w.backups then None
    else
      var kept := w.backups[m.work];
      if kept.previous.None? then None
      else
        var p := kept.previous.value;
        if p.stage != Installed || p.work == m.work || p.version >= m.version then None
        else if (p.backup, p.previousPrefix, p.previousRunner, p.originalId)
                != (m.backup, m.previousPrefix, m.previousRunner, m.originalId) then None
        else if w.runner != Patched(p.work) || !StagedApart(w, m) || w.scripts != kept.scripts then None
        else Some(p)
  }

  predicate Retryable(w: World, m: Marker) {
    && m.stage == Preparing
    && if m.upgradeBackup.Some? then RetryUpgrade(w, m).Some?
       else
         && Active in w.dirs && w.dirs[Active] == m.originalId
         && w.runner == m.previousRunner
         && Before(m.previousPrefix) !in w.dirs
         && m.backup in w.backups && w.scripts == w.backups[m.backup].scripts
         && StagedApart(w, m)
  }

  /** An interrupted preparation can always be retried, and nothing later can. */
  lemma PreparationIsRetryable(w: World, o: Origin)
    requires Sound(w, o) && w.marker.Some?
    ensures Retryable(w, w.marker.value) <==> w.marker.value.stage == Preparing
  {
    hide Complete;
    if Staged(w.marker.value.work) in w.dirs && Active in w.dirs {
      assert Staged(w.marker.value.work) != Active;
    }
  }

  predicate Sound(w: World, o: Origin) {
    Distinct(w.dirs, w.next) && Coherent(w, o)
  }

  predicate Coherent(w: World, o: Origin) {
    && Complete(w.scripts) && Complete(o.scripts)
    && (forall b | b in w.backups :: b < w.next)
    && match w.marker
       case None => AsBefore(w, o)
       case Some(m) => Restorable(w, m, o) && Aside(w, m) && Untouched(w, m, o)
  }

  predicate Somewhere(dirs: map<Place, Identity>, id: Identity) {
    exists p :: p in dirs && dirs[p] == id
  }

  /** A rename that fails if the destination exists. */
  function Moved(dirs: map<Place, Identity>, from: Place, to: Place): map<Place, Identity>
    requires from in dirs
  {
    (dirs - {from})[to := dirs[from]]
  }

  lemma MovingKeepsAll(dirs: map<Place, Identity>, from: Place, to: Place, next: nat)
    requires Distinct(dirs, next) && from in dirs && to !in dirs && (to != Active ==> to.stamp < next)
    ensures Distinct(Moved(dirs, from, to), next)
    ensures forall id | Somewhere(dirs, id) :: Somewhere(Moved(dirs, from, to), id)
  {
    forall id | Somewhere(dirs, id) ensures Somewhere(Moved(dirs, from, to), id) {
      var p :| p in dirs && dirs[p] == id;
      var q := if p == from then to else p;
      assert Moved(dirs, from, to)[q] == id;
    }
  }

  lemma CopyingKeepsAll(dirs: map<Place, Identity>, stamp: Stamp, next: nat)
    requires Distinct(dirs, next) && Staged(stamp) !in dirs && stamp < next
    ensures Distinct(dirs[Staged(stamp) := next], next + 1)
    ensures forall id | Somewhere(dirs, id) :: Somewhere(dirs[Staged(stamp) := next], id)
  {
    var after := dirs[Staged(stamp) := next];
    forall id | Somewhere(dirs, id) ensures Somewhere(after, id) {
      var p :| p in dirs && dirs[p] == id;
      assert p in after && after[p] == id;
    }
  }

  // ----- The transactions -----------------------------------------------------------------

  class Patcher {
    var w: World
    var power: nat
    ghost var origin: Origin
    ghost var ever: set<Identity>     // every profile that was ever the active one

    ghost predicate Valid()
      reads this
    {
      Sound(w, origin) && forall id | id in ever :: Somewhere(w.dirs, id)
    }

    constructor (id: Identity, runner: Runner, scripts: Scripts, manifest: Option<Bytes>, proton: Option<Selection>)
      requires Complete(scripts)
      ensures Valid() && origin == Origin(id, runner, scripts, manifest, proton) && AsBefore(w, origin) && w.marker.None?
      ensures ever == {id}
    {
      w := World(map[Active := id], runner, scripts, manifest, proton, None, map[], id + 1);
      power := 0;
      origin := Origin(id, runner, scripts, manifest, proton);
      ever := {id};
      new;
      assert w.dirs[Active] == id;
    }

    /** One durable write; without power it does not happen, and nothing after it. */
    method Write(next: World) returns (r: Result<(), Refusal>)
      requires Valid() && Sound(next, origin)
      requires forall id | Somewhere(w.dirs, id) :: Somewhere(next.dirs, id)
      modifies `w, `power, `ever
      ensures Valid() && old(ever) <= ever
      ensures r == (if old(power) == 0 then Err(Interrupted) else Ok(()))
      ensures r.Ok? ==> w == next && power == old(power) - 1
      ensures r.Err? ==> w == old(w) && power == 0
      ensures r.Ok? && Active in w.dirs ==> w.dirs[Active] in ever
    {
      if power == 0 {
        return Err(Interrupted);
      }
      w, power := next, power - 1;
      if Active in w.dirs {
        assert Somewhere(w.dirs, w.dirs[Active]);
        ever := ever + {w.dirs[Active]};
      }
      return Ok(());
    }

    /** Rename a profile directory; the destination must not exist. */
    method Publish(from: Place, to: Place) returns (r: Result<(), Refusal>)
      requires Valid() && from in w.dirs && to !in w.dirs && (to != Active ==> to.stamp < w.next)
      requires Coherent(w.(dirs := Moved(w.dirs, from, to)), origin)
      modifies `w, `power, `ever
      ensures Valid() && old(ever) <= ever
      ensures r == (if old(power) == 0 then Err(Interrupted) else Ok(()))
      ensures r.Ok? ==> w == old(w).(dirs := Moved(old(w).dirs, from, to)) && power == old(power) - 1
      ensures r.Err? ==> w == old(w) && power == 0
    {
      MovingKeepsAll(w.dirs, from, to, w.next);
      r := Write(w.(dirs := Moved(w.dirs, from, to)));
    }

    /** Replace the launch scripts one by one. */
    method WriteScripts(scripts: Scripts) returns (r: Result<(), Refusal>)
      requires Valid() && Complete(scripts)
      requires w.marker.Some? && w.marker.value.stage in {Committing, Restoring}
      modifies `w, `power, `ever
      ensures Valid() && old(ever) <= ever
      ensures w == old(w).(scripts := w.scripts)
      ensures r == (if old(power) < |LAUNCH_FILES| then Err(Interrupted) else Ok(()))
      ensures r.Err? ==> power == 0
      ensures r.Ok? ==> w.scripts == scripts && power == old(power) - |LAUNCH_FILES|
    {
      for i := 0 to |LAUNCH_FILES|
        invariant Valid() && old(ever) <= ever
        invariant w == old(w).(scripts := w.scripts)
        invariant forall k | 0 <= k < i :: w.scripts[LAUNCH_FILES[k]] == scripts[LAUNCH_FILES[k]]
        invariant power == old(power) - i
      {
        var name := LAUNCH_FILES[i];
        var _ :- Write(w.(scripts := w.scripts[name := scripts[name]]));
      }
      AllScripts(w.scripts, scripts);
      return Ok(());
    }

    /** Put the original profile back in place; the one in use is kept aside. */
    method ReturnProfile() returns (r: Result<(), Refusal>)
      requires Valid()
      requires w.marker.Some? && w.marker.value.stage == Restoring
      modifies `w, `power, `ever
      ensures Valid() && old(ever) <= ever
      ensures w.marker.Some? && w.marker.value == old(w).marker.value.(retained := w.marker.value.retained)
      ensures w.backups == old(w).backups
      ensures r.Err? ==> r == Err(Interrupted) && power == 0
      ensures old(power) >= 3 ==> r.Ok? && power >= old(power) - 3
      ensures r.Ok? ==> Active in w.dirs && w.dirs[Active] == origin.id && Before(w.marker.value.previousPrefix) !in w.dirs
    {
      hide Somewhere, Distinct;
      var state := w.marker.value;
      var previous := Before(state.previousPrefix);
      if previous in w.dirs {
        if Active in w.dirs {
          var stamp := w.next;
          NextIsUnused(w.dirs, w.next);
          w := w.(next := w.next + 1);
          var _ :- Publish(Active, Retained(stamp));
          state := state.(retained := Some(stamp));
          var _ :- Write(w.(marker := Some(state)));
        }
        var _ :- Publish(previous, Active);
      }
      return Ok(());
    }

    /** Put back what else was in use before the patch, and only then forget it. */
    method ReturnSettings(scripts: Scripts, imported: Option<Bytes>) returns (r: Result<(), Refusal>)
      requires Valid()
      requires w.marker.Some? && w.marker.value.stage == Restoring
      requires Active in w.dirs && w.dirs[Active] == origin.id && Before(w.marker.value.previousPrefix) !in w.dirs
      requires scripts == origin.scripts && imported == origin.manifest
      modifies `w, `power, `ever
      ensures Valid() && old(ever) <= ever
      ensures r.Err? ==> r == Err(Interrupted) && power == 0
      ensures old(power) >= 7 ==> r.Ok?
      ensures r.Ok? ==> w.marker.None? && AsBefore(w, origin)
    {
      hide Somewhere, Distinct;
      var state := w.marker.value;
      var _ :- Write(w.(runner := state.previousRunner));
      var _ :- WriteScripts(scripts);
      if imported.Some? {
        var _ :- Write(w.(manifest := imported));
      }
      var _ :- Write(w.(proton := state.protonBefore));
      // A copy of the marker is kept in the backup before the marker goes.
      var _ :- Write(w);
      r := Write(w.(marker := None));
    }

    /**
     * Undo the patch. It is never refused while a marker exists and the profile is idle,
     * wherever an earlier operation, or an earlier restore, was interrupted.
     */
    method Restore(idle: bool) returns (r: Result<(), Refusal>)
      requires Valid()
      modifies `w, `power, `ever
      ensures Valid() && old(ever) <= ever
      ensures r.Ok? ==> w.marker.None? && AsBefore(w, origin)
      ensures old(w).marker.Some? && idle ==> r != Err(Refused)
      ensures old(w).marker.Some? && idle && old(power) >= 11 ==> r.Ok?
      ensures r == Err(Refused) ==> w == old(w)
      ensures r == Err(Interrupted) ==> power == 0
    {
      hide Somewhere, Distinct;
      if w.marker.None? || !idle {
        return Err(Refused);
      }
      var state := w.marker.value;
      var previous := Before(state.previousPrefix);
      if state.stage == Restored || state.backup !in w.backups {
        return Err(Refused);
      }
      var scripts, imported := w.backups[state.backup].scripts, w.backups[state.backup].manifest;
      var kept := if previous in w.dirs then previous else Active;
      if kept !in w.dirs || w.dirs[kept] != state.originalId {
        return Err(Refused);
      }
      var _ :- Write(w.(marker := Some(state.(stage := Restoring))));
      var _ :- ReturnProfile();
      r := ReturnSettings(scripts, imported);
    }

    /** Forget an interrupted preparation: back to the installed release, or to none. */
    method Retry() returns (r: Result<(), Refusal>)
      requires Valid() && w.marker.Some? && Retryable(w, w.marker.value)
      modifies `w, `power, `ever
      ensures Valid() && old(ever) <= ever
      ensures r.Err? ==> w == old(w)
      ensures r.Ok? ==> w == old(w).(marker := w.marker)
      ensures r.Ok? ==> w.marker == if old(w).marker.value.upgradeBackup.Some? then RetryUpgrade(old(w), old(w).marker.value) else None
      ensures r.Ok? && w.marker.Some? ==> w.marker.value.stage == Installed && w.runner == Patched(w.marker.value.work)
    {
      hide Somewhere, Distinct;
      var m := w.marker.value;
      if * {
        return Err(Refused);
      }
      // A copy of the interrupted marker is kept in the backup.
      var _ :- Write(w);
      r := Write(w.(marker := if m.upgradeBackup.Some? then RetryUpgrade(w, m) else None));
    }

    /** Record the restore point, then the intention, and prepare a copy of the profile. */
    method Prepare(version: nat) returns (r: Result<(), Refusal>)
      requires Valid() && Active in w.dirs
      requires w.marker.Some? ==>
                 w.marker.value.stage == Installed && w.marker.value.version < version
                 && w.runner == Patched(w.marker.value.work)
      modifies `w, `power, `ever
      ensures Valid() && old(ever) <= ever
      ensures r.Ok? ==> w.marker.Some? && w.marker.value.stage == Preparing && w.marker.value.version == version
      ensures r.Ok? ==> w.marker.value.work >= old(w).next
      ensures r.Ok? ==> Staged(w.marker.value.work) in w.dirs && w.dirs[Staged(w.marker.value.work)] != origin.id
      ensures w == old(w).(marker := w.marker, backups := w.backups, dirs := w.dirs, next := w.next)
    {
      hide Somewhere, Distinct;
      var upgrade := w.marker;
      var stamp := w.next;
      NextIsUnused(w.dirs, w.next);
      w := w.(next := w.next + 1);
      var state := Marker(Preparing, version, stamp, stamp, stamp, w.runner, w.dirs[Active], w.proton, None, None);
      if upgrade.Some? {
        var p := upgrade.value;
        state := Marker(Preparing, version, stamp, p.backup, p.previousPrefix, p.previousRunner, p.originalId,
                        p.protonBefore, Some(stamp), None);
      }
      var _ :- Write(w.(backups := w.backups[stamp := Backup(w.scripts, w.manifest, upgrade)]));
      var _ :- Write(w.(marker := Some(state)));
      var copy := w.next;
      CopyingKeepsAll(w.dirs, stamp, w.next);
      OriginIsOld(w, state, origin);
      var _ :- Write(w.(dirs := w.dirs[Staged(stamp) := copy], next := copy + 1));
      return Ok(());
    }

    /** Put the profile in use aside and the prepared copy in its place. */
    method Exchange() returns (r: Result<(), Refusal>)
      requires Valid()
      requires w.marker.Some? && w.marker.value.stage == Preparing
      requires Staged(w.marker.value.work) in w.dirs
      modifies `w, `power, `ever
      ensures Valid() && old(ever) <= ever
      ensures r.Err? ==> r == Err(Interrupted) && power == 0
      ensures r.Ok? ==> w.marker == Some(old(w).marker.value.(stage := Committing))
      ensures r.Ok? ==> Before(w.marker.value.previousPrefix) in w.dirs
      ensures r.Ok? ==> Active in w.dirs && w.dirs[Active] == old(w).dirs[Staged(old(w).marker.value.work)]
    {
      hide Somewhere, Distinct;
      var state := w.marker.value.(stage := Committing);
      var staged := Staged(state.work);
      var previous := if state.upgradeBackup.Some? then BeforeUpdate(state.work) else Before(state.previousPrefix);
      var _ :- Write(w.(marker := Some(state)));
      var _ :- Publish(Active, previous);
      r := Publish(staged, Active);
    }

    /** Enter the new scripts into the import manifest and the new runner into the Proton selection. */
    method Announce(work: Stamp) returns (r: Result<(), Refusal>)
      requires Valid()
      requires w.marker.Some? && w.marker.value.stage == Committing
      modifies `w, `power, `ever
      ensures Valid() && old(ever) <= ever
      ensures w == old(w).(manifest := w.manifest, proton := w.proton)
      ensures r.Err? ==> r == Err(Interrupted) && power == 0
      ensures r.Ok? ==> (w.manifest.Some? <==> old(w).manifest.Some?) && (w.proton.Some? <==> old(w).proton.Some?)
      ensures r.Ok? && w.proton.Some? ==> w.proton.value == old(w).proton.value.(runner := Patched(work))
    {
      hide Somewhere, Distinct;
      if w.manifest.Some? {
        var manifest: Bytes := *;
        var _ :- Write(w.(manifest := Some(manifest)));
      }
      if w.proton.Some? {
        var _ :- Write(w.(proton := Some(w.proton.value.(runner := Patched(work)))));
      }
      return Ok(());
    }

    /** Activate the prepared copy; from here on only a restore leads back. */
    method Commit(patched: Scripts) returns (r: Result<(), Refusal>)
      requires Valid() && Complete(patched)
      requires w.marker.Some? && w.marker.value.stage == Preparing
      requires Staged(w.marker.value.work) in w.dirs
      modifies `w, `power, `ever
      ensures Valid() && old(ever) <= ever
      ensures r.Err? ==> r == Err(Interrupted) && power == 0
      ensures r.Ok? ==> w.marker == Some(old(w).marker.value.(stage := Installed))
      ensures r.Ok? ==> w.runner == Patched(old(w).marker.value.work) && w.scripts == patched
      ensures r.Ok? && w.proton.Some? ==> w.proton.value.runner == w.runner
      ensures r.Ok? ==> Active in w.dirs && w.dirs[Active] == old(w).dirs[Staged(old(w).marker.value.work)]
    {
      hide Somewhere, Distinct, AsBefore;
      var _ :- Exchange();
      var state := w.marker.value;
      var _ :- Write(w.(runner := Patched(state.work)));
      var _ :- WriteScripts(patched);
      var _ :- Announce(state.work);
      r := Write(w.(marker := Some(state.(stage := Installed))));
    }

    /** Install the release, or upgrade an older one to it. */
    method Install(version: nat, known: set<nat>, patched: Scripts) returns (r: Result<(), Refusal>)
      requires Valid() && Complete(patched)
      // A release only lists older ones as its predecessors.
      requires forall v | v in known :: v < version
      modifies `w, `power, `ever
      ensures Valid() && old(ever) <= ever
      ensures r.Ok? ==> w.marker.Some? && w.marker.value.stage == Installed && w.marker.value.version == version
      ensures r.Ok? ==> w.runner == Patched(w.marker.value.work)
      // The original profile is put aside, and a copy made by this call is in use.
      ensures r.Ok? ==> Before(w.marker.value.previousPrefix) in w.dirs && w.dirs[Before(w.marker.value.previousPrefix)] == origin.id
      ensures r.Ok? ==> w.marker.value.work >= old(w).next || w == old(w).(marker := w.marker)
      ensures r.Ok? && w.marker.value.work >= old(w).next ==> w.scripts == patched && Active in w.dirs && w.dirs[Active] != origin.id
      ensures r.Ok? && w.marker.value.work >= old(w).next && w.proton.Some? ==> w.proton.value.runner == w.runner
      ensures r.Ok? && old(w).marker.Some? && old(w).marker.value.stage == Installed && old(w).marker.value.version == version ==> w == old(w)
      ensures old(w).marker.Some? && old(w).marker.value.stage in {Committing, Restoring} ==> r == Err(Refused) && w == old(w)
    {
      hide Somewhere, Distinct;
      if * {
        return Err(Refused);
      }
      if Active !in w.dirs {
        return Err(Refused);
      }
      if w.marker.Some? {
        PreparationIsRetryable(w, origin);
        if Retryable(w, w.marker.value) {
          var _ :- Retry();
        }
      }
      if w.marker.Some? {
        var state := w.marker.value;
        if state.stage != Installed || w.runner != Patched(state.work) {
          return Err(Refused);
        }
        if state.version == version {
          return Ok(());
        }
        if state.version !in known {
          return Err(Refused);
        }
      }
      if * {
        return Err(Refused);
      }
      var _ :- Prepare(version);
      // Setting up the copy may fail; the prepared copy is left for a retry.
      if * {
        return Err(Refused);
      }
      r := Commit(patched);
    }

    /** Installs, upgrades, retries and restores in any order, each stopped anywhere. */
    method AnyChain()
      requires Valid()
      modifies `w, `power, `ever
      ensures Valid() && old(ever) <= ever
    {
      hide Sound, Somewhere;
      var steps: nat := *;
      while steps > 0
        invariant Valid() && old(ever) <= ever
      {
        power := *;
        if * {
          var version: nat, known: set<nat>, patched: Scripts := *, *, *;
          if Complete(patched) && forall v | v in known :: v < version {
            var installed := Install(version, known, patched);
          }
        } else {
          var idle: bool := *;
          var restored := Restore(idle);
        }
        steps := steps - 1;
      }
    }

    /**
     * From wherever such a chain was left, one more restore that is not interrupted ends
     * with the profile, runner link, launch scripts, import manifest and Proton selection
     * from before the first patch, and no profile that was ever active is gone.
     */
    method UndoChain()
      requires Valid()
      modifies `w, `power, `ever
      ensures Valid() && w.marker.None? && AsBefore(w, origin)
      ensures old(ever) <= ever && forall id | id in ever :: Somewhere(w.dirs, id)
    {
      AnyChain();
      if w.marker.Some? {
        power := 11;
        var restored := Restore(true);
      }
    }
  }

  lemma OriginIsOld(w: World, m: Marker, o: Origin)
    requires Distinct(w.dirs, w.next) && OriginalSafe(w, m, o)
    ensures o.id < w.next
  {
  }

  /** A larger bound leaves everything as distinct, and the old bound unused. */
  lemma NextIsUnused(dirs: map<Place, Identity>, next: nat)
    requires Distinct(dirs, next)
    ensures Distinct(dirs, next + 1)
    ensures Retained(next) !in dirs && Staged(next) !in dirs && Before(next) !in dirs && BeforeUpdate(next) !in dirs
  {
  }

  lemma AllScripts(a: Scripts, b: Scripts)
    requires Complete(a) && Complete(b)
    requires forall k | 0 <= k < |LAUNCH_FILES| :: a[LAUNCH_FILES[k]] == b[LAUNCH_FILES[k]]
    ensures a == b
  {
    forall x: Script ensures Get(a, x) == Get(b, x) {
      assert x == LAUNCH_FILES[0] || x == LAUNCH_FILES[1];
    }
    MapsAgree(a, b);
  }
}
