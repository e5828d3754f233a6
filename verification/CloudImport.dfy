// Local imports, backups and export (native/cloud_import.rs). A method that changes the
// disk may stop before any of its durable writes: a failed write, a cancellation or a
// loss of power look the same afterwards. Its contract therefore speaks of every state
// in which it can leave the disk.

module CloudImport {
  import opened Prelude
  import opened SaveState
  import opened CloudDisk
  import opened CloudServer
  import opened CloudWrite
  import CloudPolicy

  // ----- Comparing and selecting ---------------------------------------------------

  datatype PlanAction = Unchanged | FromCloud | FromLocal | InConflict

  datatype Plan = Plan(
    localRaw: Raw,
    remote: Digest,
    snapshot: Id,
    manifest: Containers,
    generation: nat,
    decisions: map<Name, PlanAction>,
    baseline: Option<Digest>)

  function Classify(a: Option<Entry>, b: Option<Entry>, baseline: Option<Digest>, n: Name): PlanAction {
    if a == b then Unchanged
    else if (baseline.Some? && a == Get(baseline.value, n)) || (baseline.None? && a.None?) then FromCloud
    else if baseline.Some? && b == Get(baseline.value, n) then FromLocal
    else InConflict
  }

  function PlanNames(l: Digest, r: Digest, baseline: Option<Digest>): set<Name> {
    CloudPolicy.Names(l, r, if baseline.Some? then baseline.value else map[])
  }

  function Decisions(l: Digest, r: Digest, baseline: Option<Digest>): map<Name, PlanAction> {
    map n | n in PlanNames(l, r, baseline) :: Classify(Get(l, n), Get(r, n), baseline, n)
  }

  function PlanFor(raw: Raw, snapshot: Id, manifest: Containers, baseline: Option<Digest>): Plan {
    Plan(raw, ContentOf(manifest), snapshot, manifest, Decoded(raw).generation,
         Decisions(DigestOf(Decoded(raw)), ContentOf(manifest), baseline), baseline)
  }

  datatype Choice = Automatic | TakeCloud | KeepLocal | Resolve(choices: map<Name, bool>)

  function Conflicts(decisions: map<Name, PlanAction>): set<Name> {
    set n | n in decisions && decisions[n] == InConflict
  }

  function ChoicesOf(choice: Choice): map<Name, bool> {
    if choice.Resolve? then choice.choices else map[]
  }

  predicate TakesCloud(decisions: map<Name, PlanAction>, choices: map<Name, bool>, n: Name)
    requires n in decisions
  {
    if n in choices then choices[n] else decisions[n] == FromCloud
  }

  function Mixed(local: Containers, remote: Containers, decisions: map<Name, PlanAction>,
                 choices: map<Name, bool>): Containers {
    map n | n in decisions && n in (if TakesCloud(decisions, choices, n) then remote else local)
      :: (if TakesCloud(decisions, choices, n) then remote else local)[n]
  }

  /** The state a choice selects, or a conflict if it does not settle exactly the open containers. */
  function Selected(local: State, remote: Containers, decisions: map<Name, PlanAction>, choice: Choice): Result<State, ()> {
    match choice
    case TakeCloud => Ok(State(local.generation, remote))
    case KeepLocal => Ok(local)
    case _ =>
      if ChoicesOf(choice).Keys != Conflicts(decisions) then Err(())
      else Ok(State(local.generation, Mixed(local.containers, remote, decisions, ChoicesOf(choice))))
  }

  method Select(local: State, remote: Containers, decisions: map<Name, PlanAction>, choice: Choice)
    returns (r: Result<State, ()>)
    ensures r == Selected(local, remote, decisions, choice)
  {
    if choice.TakeCloud? {
      return Ok(State(local.generation, remote));
    }
    if choice.KeepLocal? {
      return Ok(local);
    }
    var choices := ChoicesOf(choice);
    if choices.Keys != Conflicts(decisions) {
      return Err(());
    }
    var todo := decisions.Keys;
    var selected: Containers := map[];
    ghost var mixed := Mixed(local.containers, remote, decisions, choices);
    while todo != {}
      invariant todo <= decisions.Keys
      invariant selected.Keys <= decisions.Keys - todo
      invariant forall n | n in decisions.Keys - todo :: Get(selected, n) == Get(mixed, n)
      decreases todo
    {
      var name :| name in todo;
      todo := todo - {name};
      var source := if TakesCloud(decisions, choices, name) then remote else local.containers;
      if name in source {
        selected := selected[name := source[name]];
      }
    }
    forall n ensures Get(selected, n) == Get(mixed, n) {
    }
    MapsAgree(selected, mixed);
    return Ok(State(local.generation, selected));
  }

  // ----- The selection carries out the policy -------------------------------------------

  lemma MixedAt(local: Containers, remote: Containers, decisions: map<Name, PlanAction>,
                choices: map<Name, bool>, n: Name)
    requires n in decisions || (n !in local && n !in remote)
    ensures EntryAt(Mixed(local, remote, decisions, choices), n) ==
            if n in decisions && TakesCloud(decisions, choices, n) then EntryAt(remote, n) else EntryAt(local, n)
  {
  }

  /** Per container, the plan and the policy agree: same conflicts, same winner. */
  lemma AutomaticIsMerge(local: Containers, remote: Containers, o: Digest)
    ensures var l, r := ContentOf(local), ContentOf(remote);
            && Conflicts(Decisions(l, r, Some(o))) == CloudPolicy.Clashes(l, r, o)
            && (CloudPolicy.Clashes(l, r, o) == {} ==>
                  ContentOf(Mixed(local, remote, Decisions(l, r, Some(o)), map[])) == CloudPolicy.Merged(l, r, o))
  {
    var l, r := ContentOf(local), ContentOf(remote);
    var decisions := Decisions(l, r, Some(o));
    forall n ensures n in Conflicts(decisions) <==> n in CloudPolicy.Clashes(l, r, o) {
      CloudPolicy.ClashAt(l, r, o, n);
    }
    if CloudPolicy.Clashes(l, r, o) == {} {
      var mixed := Mixed(local, remote, decisions, map[]);
      forall n ensures Get(ContentOf(mixed), n) == Get(CloudPolicy.Merged(l, r, o), n) {
        CloudPolicy.ClashAt(l, r, o, n);
        CloudPolicy.MergedAt(l, r, o, n);
        MixedAt(local, remote, decisions, map[], n);
        DigestAt(mixed, n);
        DigestAt(local, n);
        DigestAt(remote, n);
      }
      MapsAgree(ContentOf(mixed), CloudPolicy.Merged(l, r, o));
    }
  }

  /** How `before` carries out a decision that changes the local save. */
  function ChoiceFor(action: CloudPolicy.Action): Choice {
    if action == CloudPolicy.ImportCloud then TakeCloud else Automatic
  }

  function DecisionFor(binding: CloudPolicy.Binding, local: Digest, remote: Digest, baseline: Option<Digest>): CloudPolicy.Decision {
    CloudPolicy.Decided(binding, CloudPolicy.Offer(binding, local), CloudPolicy.Offer(binding, remote),
                        if baseline.Some? then CloudPolicy.Offer(binding, baseline.value) else None)
  }

  /** Planning, selecting and applying refines the merge policy: the result is its target. */
  lemma SelectionMeetsPolicy(binding: CloudPolicy.Binding, raw: Raw, snapshot: Id, manifest: Containers,
                             baseline: Option<Digest>)
    ensures var local := Decoded(raw);
            var plan := PlanFor(raw, snapshot, manifest, baseline);
            var policy := DecisionFor(binding, DigestOf(local), plan.remote, baseline);
            && (policy.action in {CloudPolicy.ImportCloud, CloudPolicy.Merge} ==>
                  && Selected(local, manifest, plan.decisions, ChoiceFor(policy.action)).Ok?
                  && CloudPolicy.Offer(binding, DigestOf(Selected(local, manifest, plan.decisions, ChoiceFor(policy.action)).value))
                     == policy.target)
            && (policy.action in {CloudPolicy.Noop, CloudPolicy.UploadLocal} ==>
                  policy.target == CloudPolicy.Offer(binding, DigestOf(local)))
            && (policy.action == CloudPolicy.Conflict <==>
                  baseline.Some? && DigestOf(local) != plan.remote
                  && Selected(local, manifest, plan.decisions, Automatic).Err?)
  {
    hide CloudPolicy.Merged, CloudPolicy.Clashes, CloudPolicy.Names, Decisions, Mixed, ContentOf, Conflicts;
    if baseline.Some? {
      AutomaticIsMerge(Decoded(raw).containers, manifest, baseline.value);
    }
  }

  // ----- The device -------------------------------------------------------------------

  /** A published state of the local save, as it was when it was exported. */
  datatype LocalExport = LocalExport(raw: Raw, content: Digest, generation: nat, encoded: State)

  function ExportOf(d: Disk): LocalExport {
    LocalExport(d.raw, LocalDigest(d), Local(d).generation, Local(d))
  }

  /** An export is taken from the state it names. */
  predicate Exported(e: LocalExport) {
    e == LocalExport(e.raw, DigestOf(Decoded(e.raw)), Decoded(e.raw).generation, Decoded(e.raw))
  }

  datatype ImportResult = ImportResult(imported: bool, backup: Option<Id>, generation: nat, durable: bool)

  class Device {
    var disk: Disk
    ghost var history: seq<Moment>
    ghost var proofs: set<Receipt>        // the receipts that were acted on

    ghost predicate Valid()
      reads this
    {
      && History(history) && history[|history| - 1].disk == disk
      && forall i | 0 <= i < |history| && history[i].actor.Launcher? && history[i].actor.proof.Some? ::
           history[i].actor.proof.value in proofs
    }

    constructor ()
      ensures Valid() && disk == BLANK && proofs == {}
    {
      disk := BLANK;
      proofs := {};
      history := [Moment(BLANK, Game)];
    }

    lemma IsGood()
      requires Valid()
      ensures Good(disk)
    {
      HistoryIsGood(history, |history| - 1);
    }

    /** One durable write. */
    method Store(new_: Disk, ghost actor: Actor)
      requires Valid() && Step(disk, new_, actor)
      modifies this
      ensures Valid() && disk == new_ && Good(disk)
      ensures old(history) <= history
      ensures proofs == if actor.Launcher? && actor.proof.Some? then old(proofs) + {actor.proof.value} else old(proofs)
    {
      disk := new_;
      proofs := if actor.Launcher? && actor.proof.Some? then proofs + {actor.proof.value} else proofs;
      history := history + [Moment(new_, actor)];
      IsGood();
    }

    /** The game, or the user without the launcher, changes the save. */
    method Play(raw: Raw)
      requires Valid()
      modifies this
      ensures Valid() && disk == old(disk).(raw := raw) && old(history) <= history && proofs == old(proofs)
    {
      Store(disk.(raw := raw), Game);
    }

    /** Remember that a session was started that the cloud has not seen yet. */
    method GoOffline()
      requires Valid()
      modifies this
      ensures Valid() && old(history) <= history && proofs == old(proofs)
      ensures disk == old(disk) || disk == old(disk).(offline := true)
      ensures LoadBaseline(disk) == LoadBaseline(old(disk))
    {
      if * {
        Store(disk.(offline := true), Launcher(None));
      }
    }

    /**
     * Retention: remove the backups that are neither among the newest, nor recent, referred
     * to or held, except for those it could not remove; of snapshots and receipts, some of
     * those nothing refers to.
     */
    method Prune(now: nat, held: set<Id>, left: set<Id>, snapshots: set<Id>)
      requires Valid()
      modifies this
      ensures Valid() && old(history) <= history && proofs == old(proofs)
      ensures disk.raw == old(disk).raw && disk.journal == old(disk).journal
      ensures forall id | id in old(disk).backups :: Get(disk.backups, id) ==
                if Expendable(old(disk), now, held, id) && id !in left then None else Some(old(disk).backups[id])
      ensures disk.backups.Keys <= old(disk).backups.Keys
      ensures LoadBaseline(disk) == LoadBaseline(old(disk))
      ensures disk.snapshots.Keys <= old(disk).snapshots.Keys
      ensures forall id | id in disk.snapshots :: disk.snapshots[id] == old(disk).snapshots[id]
    {
      hide Good, History, Rank, LoadBaseline;
      IsGood();
      ghost var a := disk;
      var gone := Removed(disk, now, held, left);
      var old_ := snapshots - Referenced(disk);
      Store(disk.(backups := disk.backups - gone, snapshots := disk.snapshots - old_, receipts := disk.receipts - gone),
            Retention(now, held, left));
      PruningKeepsBaseline(a, disk, now, held, left);
    }

    /** Keep the exact bytes of a save beside the state that is to follow it. */
    method PublishBackup(original: Raw, imported: State) returns (r: Result<Id, Failure>)
      requires Valid() && original == disk.raw
      modifies this
      ensures Valid() && old(history) <= history && proofs == old(proofs)
      ensures r.Ok? ==> r.value == old(disk).next && BackedUp(old(disk), disk, original, imported) && Good(disk)
      ensures r.Err? ==> disk == old(disk)
    {
      if * {
        return Err(Failure(Stopped, None));
      }
      var id := disk.next;
      var date: Date := *;
      Store(WithBackup(disk, Backup(original, imported, date)), Launcher(None));
      return Ok(id);
    }

    /** Replace state.bin, unless it changed meanwhile. The flag says whether the write is known to last. */
    method CommitState(previous: Raw, state: State, ghost id: Id) returns (r: Result<bool, Failure>)
      requires Valid()
      requires id in disk.backups && disk.backups[id].original == previous && disk.backups[id].imported == state
      requires state.generation == Decoded(previous).generation + 1 <= GENERATION_LIMIT
      modifies this
      ensures Valid() && old(history) <= history && proofs == old(proofs)
      ensures r.Ok? ==> old(disk).raw == previous && disk == old(disk).(raw := Some(state)) && Good(disk)
      ensures r.Err? ==> disk == old(disk)
    {
      if * {
        return Err(Failure(Stopped, None));
      }
      if disk.raw != previous {
        return Err(Failure(StateChanged, None));
      }
      Store(disk.(raw := Some(state)), Launcher(None));
      var synced: bool := *;
      return Ok(synced);
    }

    /** Publish the evidence of backup `id`, then point the baseline at it. */
    method PublishCommon(id: Id) returns (r: Result<(), Failure>)
      requires Valid()
      requires id in disk.backups && id !in disk.receipts
      requires DigestOf(disk.backups[id].imported) == LocalDigest(disk)
      modifies this
      ensures Valid() && old(history) <= history && proofs == old(proofs)
      ensures disk == old(disk).(receipts := disk.receipts, baseline := disk.baseline)
      ensures r.Ok? ==> LoadBaseline(disk) == Ok(Some(LocalDigest(disk)))
      ensures r.Err? ==> LoadBaseline(disk) == LoadBaseline(old(disk))
    {
      IsGood();
      if * {
        return Err(Failure(Stopped, None));
      }
      Store(WithReceipt(disk, id), Launcher(None));
      if * {
        return Err(Failure(Stopped, None));
      }
      Store(disk.(baseline := Some(id)), Launcher(None));
      return Ok(());
    }

    /** Compare a snapshot with the local save. */
    method Prepare(snapshot: Id, baseline: Option<Digest>) returns (r: Result<Plan, Failure>)
      ensures r.Ok? ==> snapshot in disk.snapshots && r.value == PlanFor(disk.raw, snapshot, disk.snapshots[snapshot], baseline)
    {
      if snapshot !in disk.snapshots {
        return Err(Failure(InvalidSnapshot, None));
      }
      return Ok(PlanFor(disk.raw, snapshot, disk.snapshots[snapshot], baseline));
    }

    /**
     * Carry out a plan. A replaced save is backed up first; the baseline follows only if
     * the result is exactly what the cloud held.
     */
    method Apply(plan: Plan, choice: Choice) returns (r: Result<ImportResult, Failure>)
      requires Valid()
      modifies this
      ensures Valid() && old(history) <= history && proofs == old(proofs)
      ensures disk.journal == old(disk).journal && disk.snapshots == old(disk).snapshots && disk.offline == old(disk).offline
      ensures || LoadBaseline(disk) == LoadBaseline(old(disk))
              || (LoadBaseline(disk) == Ok(Some(plan.remote)) && plan.snapshot in disk.snapshots
                  && ContentOf(disk.snapshots[plan.snapshot]) == plan.remote)
      ensures r.Ok? ==>
                && plan.localRaw == old(disk).raw && plan.remote == ContentOf(plan.manifest)
                && var chosen := Selected(Local(old(disk)), plan.manifest, plan.decisions, choice);
                   chosen.Ok? && LocalDigest(disk) == DigestOf(chosen.value)
      ensures r.Ok? && !r.value.imported ==> disk == old(disk)
      ensures r.Ok? && r.value.imported ==>
                && LocalDigest(disk) != LocalDigest(old(disk))
                && Local(disk).generation == r.value.generation == Local(old(disk)).generation + 1
                && r.value.backup.Some? && r.value.backup.value in disk.backups
                && disk.raw.Some? && disk.backups[r.value.backup.value].imported == disk.raw.value
                && disk.backups[r.value.backup.value].original == old(disk).raw
                && (r.value.durable && LocalDigest(disk) == plan.remote ==> LoadBaseline(disk) == Ok(Some(plan.remote)))
      ensures r.Err? ==> disk.raw == old(disk).raw
    {
      hide Good, History, Step, ContentOf, Selected, LoadBaseline;
      IsGood();
      if plan.snapshot !in disk.snapshots {
        return Err(Failure(InvalidSnapshot, None));
      }
      var remote := disk.snapshots[plan.snapshot];
      if remote != plan.manifest || ContentOf(remote) != plan.remote {
        return Err(Failure(StateChanged, None));
      }
      var raw, state := disk.raw, Local(disk);
      if raw != plan.localRaw || state.generation != plan.generation {
        return Err(Failure(StateChanged, None));
      }
      var chosen := Select(state, remote, plan.decisions, choice);
      if chosen.Err? {
        return Err(Failure(ConflictCode, None));
      }
      if DigestOf(chosen.value) == DigestOf(state) {
        return Ok(ImportResult(false, None, state.generation, true));
      }
      if state.generation >= GENERATION_LIMIT {
        return Err(Failure(Unsupported, None));
      }
      var selected := chosen.value.(generation := state.generation + 1);
      var id :- PublishBackup(raw, selected);
      BackupKeepsBaseline(old(disk), disk, raw, selected);
      ghost var backed := disk;
      var durable :- CommitState(plan.localRaw, selected, id);
      assert Plays(backed, disk);
      RecordingKeepsBaseline(backed, disk, None);
      var result := ImportResult(true, Some(id), selected.generation, durable);
      if DigestOf(selected) == plan.remote {
        assert id !in disk.receipts;
        var published := PublishCommon(id);
        if published.Err? {
          result := result.(durable := false);
        }
      }
      return Ok(result);
    }

    /** Undo an import: only if the save is still exactly what the backup says replaced it. */
    method Restore(id: Id) returns (r: Result<ImportResult, Failure>)
      requires Valid()
      modifies this
      ensures Valid() && old(history) <= history && proofs == old(proofs)
      ensures disk.journal == old(disk).journal && disk.snapshots == old(disk).snapshots && disk.offline == old(disk).offline
      ensures LoadBaseline(disk) == LoadBaseline(old(disk))
      ensures r.Ok? ==>
                && id in old(disk).backups && old(disk).raw == Some(old(disk).backups[id].imported)
                && LocalDigest(disk) == DigestOf(Decoded(old(disk).backups[id].original))
                && Local(disk).generation == Local(old(disk)).generation + 1
                && r.value.backup.Some? && r.value.backup.value in disk.backups
                && disk.backups[r.value.backup.value].original == old(disk).raw
      ensures r.Err? ==> disk.raw == old(disk).raw
    {
      IsGood();
      if id !in disk.backups {
        return Err(Failure(InvalidPlan, None));
      }
      var previous := disk.backups[id];
      var raw, state := disk.raw, Local(disk);
      if raw != Some(previous.imported) {
        return Err(Failure(StateChanged, None));
      }
      if state.generation >= GENERATION_LIMIT {
        return Err(Failure(Unsupported, None));
      }
      var restored := Decoded(previous.original).(generation := state.generation + 1);
      var backup :- PublishBackup(raw, restored);
      BackupKeepsBaseline(old(disk), disk, raw, restored);
      var durable :- CommitState(raw, restored, backup);
      return Ok(ImportResult(true, Some(backup), restored.generation, durable));
    }

    /** An import can be undone: the content is back, under a higher generation. */
    method ImportAndUndo(plan: Plan, choice: Choice) returns (undone: bool)
      requires Valid()
      modifies this
      ensures Valid() && old(history) <= history && proofs == old(proofs)
      ensures undone ==> LocalDigest(disk) == LocalDigest(old(disk))
      ensures undone ==> Local(disk).generation == Local(old(disk)).generation + 2
    {
      var import_ := Apply(plan, choice);
      if import_.Err? || !import_.value.imported {
        return false;
      }
      var restored := Restore(import_.value.backup.value);
      return restored.Ok?;
    }

    /** After an upload was proved, what was uploaded becomes the baseline. */
    method RecordCommon(export_: LocalExport, receipt: Receipt) returns (r: Result<(), Failure>)
      requires Valid() && Exported(export_)
      modifies this
      ensures Valid() && old(history) <= history && proofs == old(proofs)
      ensures disk.journal == old(disk).journal && disk.snapshots == old(disk).snapshots
      ensures disk.raw == old(disk).raw && disk.offline == old(disk).offline
      ensures LoadBaseline(disk) == LoadBaseline(old(disk)) || LoadBaseline(disk) == Ok(Some(receipt.source))
      ensures r.Ok? ==> LoadBaseline(disk) == Ok(Some(receipt.source)) && receipt.source == LocalDigest(disk)
    {
      IsGood();
      if disk.raw != export_.raw {
        return Err(Failure(StateChanged, None));
      }
      if receipt.source != export_.content {
        return Err(Failure(InvalidPlan, None));
      }
      var id :- PublishBackup(disk.raw, export_.encoded);
      BackupKeepsBaseline(old(disk), disk, old(disk).raw, export_.encoded);
      assert id !in disk.receipts;
      var _ :- PublishCommon(id);
      return Ok(());
    }
  }

  lemma BackupKeepsBaseline(a: Disk, b: Disk, original: Raw, imported: State)
    requires Good(a) && BackedUp(a, b, original, imported)
    ensures LoadBaseline(b) == LoadBaseline(a)
  {
  }
}
