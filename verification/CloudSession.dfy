// The session journal on disk (native/cloud_session.rs). It says what a session set out to
// do; that an upload succeeded is only shown by a receipt.

module CloudSession {
  import opened Prelude
  import opened SaveState
  import opened CloudDisk
  import opened CloudServer
  import opened CloudWrite
  import opened CloudImport

  /** Keep the exported state as a backup that replaces itself. */
  method Capture(d: Device, e: LocalExport) returns (r: Result<Id, Failure>)
    requires d.Valid() && Exported(e)
    modifies d
    ensures d.Valid() && old(d.history) <= d.history && d.proofs == old(d.proofs)
    ensures r.Ok? ==> e.raw == old(d.disk).raw && r.value == old(d.disk).next
    ensures r.Ok? ==> BackedUp(old(d.disk), d.disk, e.raw, e.encoded) && Good(d.disk)
    ensures r.Err? ==> d.disk == old(d.disk)
  {
    if d.disk.raw != e.raw {
      return Err(Failure(StateChanged, None));
    }
    r := d.PublishBackup(e.raw, e.encoded);
  }

  /** The stored journal. What was stored is always found complete; only reading it can fail. */
  method Load(d: Device) returns (r: Result<Option<Record>, Failure>)
    requires d.Valid()
    ensures r.Ok? ==> r.value == d.disk.journal
    ensures r.Err? ==> r.error.code == LocalStorage
  {
    d.IsGood();
    if * {
      return Err(Failure(LocalStorage, None));
    }
    if d.disk.journal.None? {
      return Ok(None);
    }
    if !Validated(d.disk, d.disk.journal.value) {
      return Err(Failure(InvalidSession, None));
    }
    return Ok(d.disk.journal);
  }

  /** Only the newest record may be replaced, and only while its revision can still grow. */
  method Current(d: Device, record: Record) returns (r: Result<(), Failure>)
    requires d.Valid()
    ensures r.Ok? ==> d.disk.journal == Some(record) && Validated(d.disk, record) && record.revision < REVISION_LIMIT
  {
    var stored :- Load(d);
    d.IsGood();
    if stored != Some(record) {
      return Err(Failure(StateChanged, None));
    }
    if record.revision >= REVISION_LIMIT {
      return Err(Failure(InvalidSession, None));
    }
    return Ok(());
  }

  method Begin(d: Device, snapshot: Id, e: LocalExport, phase: Phase) returns (r: Result<Record, Failure>)
    requires d.Valid() && Exported(e) && phase in {Prepared, Playing}
    modifies d
    ensures d.Valid() && old(d.history) <= d.history && d.proofs == old(d.proofs)
    ensures d.disk.raw == old(d.disk).raw && d.disk.snapshots == old(d.disk).snapshots && d.disk.offline == old(d.disk).offline
    ensures LoadBaseline(d.disk) == LoadBaseline(old(d.disk))
    ensures r.Err? ==> d.disk.journal == old(d.disk).journal
    ensures r.Ok? ==> old(d.disk).journal.None? && d.disk.journal == Some(r.value) && e.raw == d.disk.raw
    ensures r.Ok? ==> snapshot in d.disk.snapshots
    ensures r.Ok? ==> r.value.beforeRemote == r.value.originalRemote == ContentOf(d.disk.snapshots[snapshot])
    ensures r.Ok? ==> r.value.target == r.value.preLocal == LocalDigest(d.disk) && r.value.phase == phase && r.value.revision == 0
  {
    d.IsGood();
    if d.disk.raw != e.raw {
      return Err(Failure(StateChanged, None));
    }
    var stored :- Load(d);
    if stored.Some? {
      return Err(Failure(Busy, None));
    }
    if snapshot !in d.disk.snapshots {
      return Err(Failure(InvalidSnapshot, None));
    }
    var manifest := d.disk.snapshots[snapshot];
    var id :- Capture(d, e);
    BackupKeepsBaseline(old(d.disk), d.disk, e.raw, e.encoded);
    var remote := ContentOf(manifest);
    var session: Id := *;
    var record := Record(session, 0, phase, snapshot, manifest, remote, remote, e.content, e.raw, id,
                         e.content, e.encoded, e.raw, id, e.generation, None);
    if * {
      return Err(Failure(Stopped, None));
    }
    d.Store(d.disk.(journal := Some(record)), Launcher(None));
    return Ok(record);
  }

  /** What an update stores: the record, with its target captured anew if there is an export. */
  predicate Updated(a: Disk, b: Disk, r: Record, s: Record, e: Option<LocalExport>) {
    match e
    case None => b == a && s == r.(phase := s.phase, revision := r.revision + 1)
    case Some(x) =>
      && BackedUp(a, b, x.raw, x.encoded)
      && s == r.(targetBackup := a.next, targetState := x.encoded, target := x.content, targetRaw := x.raw,
                 generation := x.generation, phase := s.phase, revision := r.revision + 1)
  }

  lemma UpdatingKeepsBaseline(a: Disk, b: Disk, r: Record, s: Record, e: Option<LocalExport>)
    requires Good(a) && Updated(a, b, r, s, e)
    ensures LoadBaseline(b.(journal := Some(s))) == LoadBaseline(b) == LoadBaseline(a)
  {
  }

  lemma UpdatingIsValid(a: Disk, b: Disk, r: Record, s: Record, e: Option<LocalExport>)
    requires Good(a) && a.journal == Some(r) && r.revision < REVISION_LIMIT
    requires e.Some? ==> Exported(e.value)
    requires Updated(a, b, r, s, e)
    ensures Validated(b.(journal := Some(s)), s) && b.journal == Some(r)
    ensures SameSession(r, s) && s.revision == r.revision + 1
    ensures s.beforeRemote == r.beforeRemote && s.confirmedBackup == r.confirmedBackup
  {
    hide LoadBaseline;
  }

  lemma UpdatingIsAStep(a: Disk, b: Disk, r: Record, s: Record, e: Option<LocalExport>)
    requires Good(a) && a.journal == Some(r) && r.revision < REVISION_LIMIT
    requires e.Some? ==> Exported(e.value)
    requires Updated(a, b, r, s, e)
    ensures Step(b, b.(journal := Some(s)), Launcher(None))
    ensures LoadBaseline(b.(journal := Some(s))) == LoadBaseline(b) == LoadBaseline(a)
  {
    hide LoadBaseline, Validated, Good, SameSession, Updated;
    UpdatingKeepsBaseline(a, b, r, s, e);
    UpdatingIsValid(a, b, r, s, e);
    assert Updates(b, b.(journal := Some(s)), None);
  }

  lemma UpdatedSays(a: Disk, b: Disk, r: Record, s: Record, e: Option<LocalExport>)
    requires e.Some? ==> Exported(e.value)
    requires Updated(a, b, r, s, e)
    ensures b == a.(backups := b.backups, next := b.next)
    ensures SameSession(r, s) && s.revision == r.revision + 1
    ensures s.beforeRemote == r.beforeRemote && s.confirmedBackup == r.confirmedBackup
    ensures match e
            case None => s.target == r.target
            case Some(x) => s.target == DigestOf(Decoded(x.raw)) && s.targetRaw == x.raw && s.targetState == Decoded(x.raw)
  {
  }

  /** The record to be stored next, with its target captured anew if there is an export. */
  method Recapture(d: Device, record: Record, phase: Phase, e: Option<LocalExport>) returns (r: Result<Record, Failure>)
    requires d.Valid() && (e.Some? ==> Exported(e.value) && e.value.raw == d.disk.raw)
    modifies d
    ensures d.Valid() && old(d.history) <= d.history && d.proofs == old(d.proofs)
    ensures r.Err? ==> d.disk == old(d.disk)
    ensures r.Ok? ==> Updated(old(d.disk), d.disk, record, r.value, e) && r.value.phase == phase
  {
    hide Good, Step, History;
    var value := record.(phase := phase, revision := record.revision + 1);
    if e.Some? {
      var id :- Capture(d, e.value);
      value := value.(targetBackup := id, targetState := e.value.encoded, target := e.value.content,
                      targetRaw := e.value.raw, generation := e.value.generation);
    }
    return Ok(value);
  }

  method Update(d: Device, record: Record, phase: Phase, e: Option<LocalExport>) returns (r: Result<Record, Failure>)
    requires d.Valid() && (e.Some? ==> Exported(e.value))
    modifies d
    ensures d.Valid() && old(d.history) <= d.history && d.proofs == old(d.proofs)
    ensures d.disk.raw == old(d.disk).raw && d.disk.snapshots == old(d.disk).snapshots && d.disk.offline == old(d.disk).offline
    ensures LoadBaseline(d.disk) == LoadBaseline(old(d.disk))
    ensures r.Err? ==> d.disk.journal == old(d.disk).journal
    ensures r.Ok? ==> old(d.disk).journal == Some(record) && d.disk.journal == Some(r.value)
    ensures r.Ok? ==> r.value.revision == record.revision + 1 && r.value.phase == phase && SameSession(record, r.value)
    ensures r.Ok? ==> r.value.beforeRemote == record.beforeRemote && r.value.confirmedBackup == record.confirmedBackup
    ensures r.Ok? ==> (phase == Uploading ==> e.Some?)
    ensures r.Ok? && e.Some? ==> e.value.raw == d.disk.raw && r.value.target == LocalDigest(d.disk)
    ensures r.Ok? && e.Some? ==> r.value.targetRaw == d.disk.raw && r.value.targetState == Local(d.disk)
    ensures r.Ok? && e.None? ==> r.value.target == record.target
  {
    hide Good, Step, History, Validated, LoadBaseline, Updated;
    if phase == Uploading && e.None? {
      return Err(Failure(InvalidSession, None));
    }
    if e.Some? && d.disk.raw != e.value.raw {
      return Err(Failure(StateChanged, None));
    }
    var _ :- Current(d, record);
    d.IsGood();
    ghost var a := d.disk;
    var value :- Recapture(d, record, phase, e);
    UpdatingIsAStep(a, d.disk, record, value, e);
    UpdatedSays(a, d.disk, record, value, e);
    if * {
      return Err(Failure(Stopped, None));
    }
    d.Store(d.disk.(journal := Some(value)), Launcher(None));
    return Ok(value);
  }

  /** The record, the local save and the receipt all speak of the same content. */
  predicate Confirms(value: Record, e: LocalExport, receipt: Receipt) {
    && e.content == value.target && e.raw == value.targetRaw && e.encoded == value.targetState
    && receipt.source == value.target
  }

  method Checkpoint(d: Device, record: Record, e: LocalExport, receipt: Receipt) returns (r: Result<Record, Failure>)
    requires d.Valid() && Exported(e)
    // The receipt's content was published as the baseline first.
    requires LoadBaseline(d.disk) == Ok(Some(receipt.source))
    modifies d
    ensures d.Valid() && old(d.history) <= d.history && old(d.proofs) <= d.proofs <= old(d.proofs) + {receipt}
    ensures d.disk == old(d.disk).(journal := d.disk.journal)
    ensures LoadBaseline(d.disk) == LoadBaseline(old(d.disk))
    ensures r.Err? ==> d.disk == old(d.disk)
    ensures r.Ok? ==> d.disk.journal == Some(r.value) && Confirms(record, e, receipt) && e.raw == d.disk.raw
    ensures r.Ok? ==> old(d.disk).journal == Some(record) && SameSession(record, r.value)
    ensures r.Ok? ==> r.value.beforeRemote == r.value.target == receipt.source == LocalDigest(d.disk)
    ensures r.Ok? ==> r.value.phase == Playing && r.value.revision == record.revision + 1
  {
    var _ :- Current(d, record);
    if d.disk.raw != e.raw || !Confirms(record, e, receipt) {
      return Err(Failure(StateChanged, None));
    }
    var value := record.(beforeRemote := record.target, confirmedBackup := Some(record.targetBackup),
                         phase := Playing, revision := record.revision + 1);
    if * {
      return Err(Failure(Stopped, None));
    }
    d.Store(d.disk.(journal := Some(value)), Launcher(Some(receipt)));
    return Ok(value);
  }

  method Complete(d: Device, record: Record, e: LocalExport, receipt: Receipt) returns (r: Result<(), Failure>)
    requires d.Valid() && Exported(e)
    requires LoadBaseline(d.disk) == Ok(Some(receipt.source))
    modifies d
    ensures d.Valid() && old(d.history) <= d.history && old(d.proofs) <= d.proofs <= old(d.proofs) + {receipt}
    ensures d.disk == old(d.disk).(journal := d.disk.journal)
    ensures LoadBaseline(d.disk) == LoadBaseline(old(d.disk))
    ensures r.Err? ==> d.disk == old(d.disk)
    ensures r.Ok? ==> d.disk.journal.None? && old(d.disk).journal == Some(record)
    ensures r.Ok? ==> Confirms(record, e, receipt) && receipt.source == LocalDigest(d.disk)
  {
    var _ :- Current(d, record);
    if d.disk.raw != e.raw || !Confirms(record, e, receipt) {
      return Err(Failure(StateChanged, None));
    }
    if * {
      return Err(Failure(Stopped, None));
    }
    d.Store(d.disk.(journal := None), Launcher(Some(receipt)));
    return Ok(());
  }
}
