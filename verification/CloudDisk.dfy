// What the launcher keeps on disk for one account: the local save, immutable backups and
// snapshots, receipts, the comparison baseline and the session journal
// (native/cloud_import.rs, native/cloud_session.rs). Every durable write is one step.

module CloudDisk {
  import opened Prelude
  import opened SaveState
  import opened CloudWrite

  const GENERATION_LIMIT := 0xFFFF_FFFF_FFFF_FFFF
  const REVISION_LIMIT := 0x7FFF_FFFF_FFFF_FFFF

  /** Backups, snapshots and receipts get fresh random names. */
  type Id = nat

  /** The bytes of state.bin, or that there is none. Its digest identifies it exactly. */
  type Raw = Option<State>

  function Decoded(raw: Raw): State {
    if raw.Some? then raw.value else EMPTY
  }

  /** When a directory was last changed, in seconds, and where its random name stands among all names. */
  datatype Date = Date(at: nat, name: nat)

  /** The state that was replaced, exactly, and the one that took its place. */
  datatype Backup = Backup(original: Raw, imported: State, date: Date)

  datatype CommonReceipt = CommonReceipt(backup: Id, imported: State, content: Digest)

  datatype Phase = Prepared | Playing | Uploading | Pending

  datatype Record = Record(
    session: Id,
    revision: nat,
    phase: Phase,
    snapshot: Id,
    manifest: Containers,
    originalRemote: Digest,
    beforeRemote: Digest,
    preLocal: Digest,
    preLocalRaw: Raw,
    initialBackup: Id,
    target: Digest,
    targetState: State,
    targetRaw: Raw,
    targetBackup: Id,
    generation: nat,
    confirmedBackup: Option<Id>)

  datatype Disk = Disk(
    raw: Raw,
    backups: map<Id, Backup>,
    snapshots: map<Id, Containers>,
    receipts: map<Id, CommonReceipt>,
    baseline: Option<Id>,
    journal: Option<Record>,
    offline: bool,
    next: Id)

  const BLANK := Disk(None, map[], map[], map[], None, None, false, 0)

  function Local(d: Disk): State {
    Decoded(d.raw)
  }

  function LocalDigest(d: Disk): Digest {
    DigestOf(Local(d))
  }

  // ----- Reading what is stored --------------------------------------------------

  predicate ReceiptMatches(d: Disk, id: Id) {
    && id in d.receipts && d.receipts[id].backup == id
    && id in d.backups
    && d.receipts[id].imported == d.backups[id].imported
    && d.receipts[id].content == DigestOf(d.backups[id].imported)
  }

  /** The stored comparison baseline; a pointer whose evidence does not match is an error. */
  function LoadBaseline(d: Disk): Result<Option<Digest>, ()> {
    if d.baseline.None? then Ok(None)
    else if !ReceiptMatches(d, d.baseline.value) then Err(())
    else Ok(Some(DigestOf(d.backups[d.baseline.value].imported)))
  }

  /** All evidence a stored journal refers to is there and says what the journal says. */
  predicate Validated(d: Disk, r: Record) {
    && r.revision <= REVISION_LIMIT
    && r.snapshot in d.snapshots
    && d.snapshots[r.snapshot] == r.manifest
    && ContentOf(r.manifest) == r.originalRemote
    && r.initialBackup in d.backups
    && d.backups[r.initialBackup].original == r.preLocalRaw
    && DigestOf(Decoded(r.preLocalRaw)) == r.preLocal
    && r.targetBackup in d.backups
    && d.backups[r.targetBackup].imported == r.targetState
    && d.backups[r.targetBackup].original == r.targetRaw
    && r.targetState.generation == r.generation
    && DigestOf(r.targetState) == r.target
    && (if r.confirmedBackup.Some? then
          && r.confirmedBackup.value in d.backups
          && DigestOf(d.backups[r.confirmedBackup.value].imported) == r.beforeRemote
        else
          r.beforeRemote == r.originalRemote)
  }

  /** Everything stored can be read back. */
  predicate Good(d: Disk) {
    && (d.journal.Some? ==> Validated(d, d.journal.value))
    && LoadBaseline(d).Ok?
    && (forall id | id in d.backups :: id < d.next)
    && (forall id | id in d.snapshots :: id < d.next)
    && (forall id | id in d.receipts :: id < d.next)
  }

  /** The names that stored records still refer to. */
  function Referenced(d: Disk): set<Id> {
    (match d.journal
     case Some(r) => {r.snapshot, r.initialBackup, r.targetBackup}
                     + if r.confirmedBackup.Some? then {r.confirmedBackup.value} else {}
     case None => {})
    + if d.baseline.Some? then {d.baseline.value} else {}
  }

  // ----- Durable steps -----------------------------------------------------------

  /** A new backup of these states, whatever its date. */
  predicate BackedUp(a: Disk, b: Disk, original: Raw, imported: State) {
    && a.next in b.backups && b == WithBackup(a, b.backups[a.next])
    && b.backups[a.next].original == original && b.backups[a.next].imported == imported
  }

  function WithBackup(d: Disk, b: Backup): Disk {
    d.(backups := d.backups[d.next := b], next := d.next + 1)
  }

  function WithSnapshot(d: Disk, cs: Containers): Disk {
    d.(snapshots := d.snapshots[d.next := cs], next := d.next + 1)
  }

  function WithReceipt(d: Disk, id: Id): Disk
    requires id in d.backups
  {
    var s := d.backups[id].imported;
    d.(receipts := d.receipts[id := CommonReceipt(id, s, DigestOf(s))])
  }

  /** The local save is replaced only once a backup of its exact bytes is published. */
  predicate Replaces(a: Disk, b: Disk) {
    && b.raw.Some?
    && b == a.(raw := b.raw)
    && b.raw.value.generation == Local(a).generation + 1 <= GENERATION_LIMIT
    && exists id :: id in a.backups && a.backups[id].original == a.raw && a.backups[id].imported == b.raw.value
  }

  /** A baseline is published only for content the local save has right now. */
  predicate Publishes(a: Disk, b: Disk) {
    && b.baseline.Some?
    && b == a.(baseline := b.baseline)
    && ReceiptMatches(a, b.baseline.value)
    && DigestOf(a.backups[b.baseline.value].imported) == LocalDigest(a)
  }

  predicate Begins(a: Disk, b: Disk) {
    && a.journal.None? && b.journal.Some?
    && b == a.(journal := b.journal)
    && Validated(b, b.journal.value)
    && b.journal.value.revision == 0
    && b.journal.value.confirmedBackup.None?
    && b.journal.value.target == b.journal.value.preLocal == LocalDigest(a)
  }

  /** The parts of a journal that are fixed when the session begins. */
  predicate SameSession(r: Record, s: Record) {
    && s.session == r.session && s.snapshot == r.snapshot && s.manifest == r.manifest
    && s.originalRemote == r.originalRemote && s.initialBackup == r.initialBackup
    && s.preLocal == r.preLocal && s.preLocalRaw == r.preLocalRaw
  }

  predicate Updates(a: Disk, b: Disk, proof: Option<Receipt>) {
    && a.journal.Some? && b.journal.Some?
    && b == a.(journal := b.journal)
    && Validated(b, b.journal.value)
    && var r, s := a.journal.value, b.journal.value;
       && SameSession(r, s)
       && s.revision == r.revision + 1
       && ( || (s.beforeRemote == r.beforeRemote && s.confirmedBackup == r.confirmedBackup)
            || (proof.Some? && proof.value.source == r.target
                && s.beforeRemote == r.target == s.target && s.confirmedBackup == Some(r.targetBackup)
                && LoadBaseline(a) == Ok(Some(r.target)) && LocalDigest(a) == r.target))
  }

  /** A session ends only with a receipt for its target, which is also the baseline. */
  predicate Ends(a: Disk, b: Disk, proof: Option<Receipt>) {
    && a.journal.Some? && proof.Some? && proof.value.source == a.journal.value.target
    && b == a.(journal := None)
    && LoadBaseline(a) == Ok(Some(a.journal.value.target))
    && LocalDigest(a) == a.journal.value.target
  }

  // ----- Retention -----------------------------------------------------------------

  const KEPT := 20
  const RECENT := 30 * 24 * 3600

  /** The order of the list: by time, and by name where times are equal. */
  predicate Newer(x: Date, i: Id, y: Date, j: Id) {
    x.at > y.at || (x.at == y.at && (x.name > y.name || (x.name == y.name && i > j)))
  }

  function NewerThan(d: Disk, id: Id): set<Id>
    requires id in d.backups
  {
    set j | j in d.backups && Newer(d.backups[j].date, j, d.backups[id].date, id)
  }

  /** Where an entry stands in the list, the newest first. */
  function Rank(d: Disk, id: Id): nat
    requires id in d.backups
  {
    |NewerThan(d, id)|
  }

  /** Recent entries stay; so do those whose time lies ahead of the clock. */
  predicate Recent(now: nat, date: Date) {
    now <= date.at + RECENT
  }

  /** What retention removes: neither among the newest, nor recent, nor referred to, nor held. */
  predicate Expendable(d: Disk, now: nat, held: set<Id>, id: Id) {
    && id in d.backups && Rank(d, id) >= KEPT && !Recent(now, d.backups[id].date)
    && id !in Referenced(d) && id !in held
  }

  function Removed(d: Disk, now: nat, held: set<Id>, left: set<Id>): set<Id> {
    (set id | id in d.backups && Expendable(d, now, held, id)) - left
  }

  /**
   * One run of retention: exactly the expendable backups go, except those it could not
   * remove or did not reach; and of snapshots and receipts, nothing a stored record refers to.
   */
  predicate Prunes(a: Disk, b: Disk, now: nat, held: set<Id>, left: set<Id>) {
    && b == a.(backups := b.backups, snapshots := b.snapshots, receipts := b.receipts)
    && b.backups == a.backups - Removed(a, now, held, left)
    && (forall id | id in a.snapshots && (id in Referenced(a) || id in b.snapshots) :: Get(b.snapshots, id) == Get(a.snapshots, id))
    && b.snapshots.Keys <= a.snapshots.Keys
    && (forall id | id in a.receipts && (id in Referenced(a) || id in b.receipts) :: Get(b.receipts, id) == Get(a.receipts, id))
    && b.receipts.Keys <= a.receipts.Keys
  }

  // ----- Steps ---------------------------------------------------------------------

  /** A backup always keeps the bytes the save has right now. */
  predicate Backs(a: Disk, b: Disk) {
    a.next in b.backups && b == WithBackup(a, b.backups[a.next]) && b.backups[a.next].original == a.raw
  }

  predicate Snaps(a: Disk, b: Disk) {
    a.next in b.snapshots && b == WithSnapshot(a, b.snapshots[a.next])
  }

  predicate Receives(a: Disk, b: Disk) {
    exists id :: id in a.backups && id !in a.receipts && b == WithReceipt(a, id)
  }

  /** The game itself saves whatever it wants. */
  predicate Plays(a: Disk, b: Disk) {
    b == a.(raw := b.raw)
  }

  /** Every durable write of the launcher. */
  predicate LauncherStep(a: Disk, b: Disk, proof: Option<Receipt>) {
    || Backs(a, b) || Snaps(a, b) || Receives(a, b)
    || Publishes(a, b) || Replaces(a, b)
    || Begins(a, b) || Updates(a, b, proof) || Ends(a, b, proof)
    || b == a.(offline := true)
  }

  /** Who made a write: the launcher, perhaps on the proof of a receipt, the game, or retention. */
  datatype Actor = Launcher(proof: Option<Receipt>) | Game | Retention(now: nat, held: set<Id>, left: set<Id>)

  /** All that ever happens to the disk, one durable write at a time. */
  predicate Step(a: Disk, b: Disk, actor: Actor) {
    match actor
    case Launcher(proof) => LauncherStep(a, b, proof)
    case Game => Plays(a, b)
    case Retention(now, held, left) => Prunes(a, b, now, held, left)
  }

  lemma AddingKeepsGood(a: Disk, b: Disk)
    requires Good(a)
    requires Backs(a, b) || Snaps(a, b) || Receives(a, b)
    ensures Good(b)
  {
  }

  lemma RecordingKeepsGood(a: Disk, b: Disk, proof: Option<Receipt>)
    requires Good(a)
    requires Publishes(a, b) || Replaces(a, b) || Begins(a, b) || Updates(a, b, proof) || Ends(a, b, proof) || Plays(a, b)
    ensures Good(b)
  {
  }

  /** What a stored record refers to survives retention. */
  lemma PruningKeepsReferenced(a: Disk, b: Disk, now: nat, held: set<Id>, left: set<Id>)
    requires Prunes(a, b, now, held, left)
    ensures forall id | id in Referenced(a) :: Get(b.backups, id) == Get(a.backups, id)
  {
    hide Rank;
  }

  lemma PruningKeepsGood(a: Disk, b: Disk, now: nat, held: set<Id>, left: set<Id>)
    requires Good(a) && Prunes(a, b, now, held, left)
    ensures Good(b)
  {
    hide Removed;
    PruningKeepsReferenced(a, b, now, held, left);
    if a.journal.Some? {
      var r := a.journal.value;
      assert r.snapshot in Referenced(a) && r.initialBackup in Referenced(a) && r.targetBackup in Referenced(a);
      assert Get(b.snapshots, r.snapshot) == Get(a.snapshots, r.snapshot);
      assert Get(b.backups, r.initialBackup) == Get(a.backups, r.initialBackup);
      assert Get(b.backups, r.targetBackup) == Get(a.backups, r.targetBackup);
      if r.confirmedBackup.Some? {
        assert r.confirmedBackup.value in Referenced(a);
        assert Get(b.backups, r.confirmedBackup.value) == Get(a.backups, r.confirmedBackup.value);
      }
    }
    if a.baseline.Some? {
      assert a.baseline.value in Referenced(a);
      assert Get(b.backups, a.baseline.value) == Get(a.backups, a.baseline.value);
      assert Get(b.receipts, a.baseline.value) == Get(a.receipts, a.baseline.value);
    }
  }

  /** Whatever is stored can be read back after every single write. */
  lemma StepKeepsGood(a: Disk, b: Disk, actor: Actor)
    requires Good(a) && Step(a, b, actor)
    ensures Good(b)
  {
    hide Good, Backs, Snaps, Receives, Publishes, Replaces, Begins, Updates, Ends, Plays, Prunes;
    match actor
    case Launcher(proof) =>
      if Backs(a, b) || Snaps(a, b) || Receives(a, b) {
        AddingKeepsGood(a, b);
      } else if b == a.(offline := true) {
        GoingOfflineKeepsGood(a, b);
      } else {
        RecordingKeepsGood(a, b, proof);
      }
    case Game =>
      RecordingKeepsGood(a, b, None);
    case Retention(now, held, left) =>
      PruningKeepsGood(a, b, now, held, left);
  }

  lemma GoingOfflineKeepsGood(a: Disk, b: Disk)
    requires Good(a) && b == a.(offline := true)
    ensures Good(b)
  {
  }

  // ----- Whole histories ---------------------------------------------------------

  datatype Moment = Moment(disk: Disk, actor: Actor)

  /** A history of the disk: its state after each durable write, and who made the write. */
  ghost predicate History(h: seq<Moment>) {
    && |h| > 0
    && h[0].disk == BLANK
    && forall i | 0 < i < |h| :: Step(h[i - 1].disk, h[i].disk, h[i].actor)
  }

  /** In every reachable state, hence after a crash between any two writes, the journal and the baseline load. */
  lemma {:induction false} HistoryIsGood(h: seq<Moment>, i: nat)
    requires History(h) && i < |h|
    ensures Good(h[i].disk)
  {
    if i > 0 {
      HistoryIsGood(h, i - 1);
      StepKeepsGood(h[i - 1].disk, h[i].disk, h[i].actor);
    }
  }

  /** The save `raw` can still be got back, bit for bit. */
  ghost predicate Recoverable(d: Disk, raw: Raw) {
    exists id :: id in d.backups && d.backups[id].original == raw
  }

  /** Everything but retention keeps every backup. */
  lemma BackupStays(a: Disk, b: Disk, actor: Actor, id: Id)
    requires Good(a) && Step(a, b, actor) && !actor.Retention?
    requires id in a.backups
    ensures Get(b.backups, id) == Get(a.backups, id)
  {
    assert id < a.next;
  }

  /** Backups only appear one at a time, under the next name. */
  lemma BackupAppears(a: Disk, b: Disk, actor: Actor, id: Id)
    requires Step(a, b, actor) && id in b.backups && id !in a.backups
    ensures actor.Launcher? && id == a.next && b == WithBackup(a, b.backups[id])
  {
    hide Expendable;
  }

  /** Retention keeps an entry as it is, or removes it. */
  lemma RetentionSpares(a: Disk, b: Disk, now: nat, held: set<Id>, left: set<Id>, id: Id)
    requires Prunes(a, b, now, held, left) && id in a.backups
    ensures Get(b.backups, id) == if id in Removed(a, now, held, left) then None else Some(a.backups[id])
  {
    hide Expendable;
  }

  lemma ReplacingIsRecoverable(a: Disk, b: Disk, proof: Option<Receipt>) returns (id: Id)
    requires LauncherStep(a, b, proof) && b.raw != a.raw
    ensures id in b.backups && b.backups[id].original == a.raw
    ensures Local(b).generation == Local(a).generation + 1
  {
    assert Replaces(a, b);
    id :| id in a.backups && a.backups[id].original == a.raw && a.backups[id].imported == b.raw.value;
  }

  /** Between two moments, no run of retention removed this backup. */
  ghost predicate Spared(h: seq<Moment>, i: nat, j: nat, id: Id)
    requires i <= j < |h|
  {
    forall m | i < m <= j && h[m].actor.Retention? ::
      id !in Removed(h[m - 1].disk, h[m].actor.now, h[m].actor.held, h[m].actor.left)
  }

  /** A backup is still there exactly if every run of retention spared it. */
  lemma {:induction false} BackupSurvives(h: seq<Moment>, i: nat, j: nat, id: Id)
    requires History(h) && i <= j < |h| && id in h[i].disk.backups
    ensures Get(h[j].disk.backups, id) == if Spared(h, i, j, id) then Some(h[i].disk.backups[id]) else None
  {
    hide Good, Step, Removed;
    if i < j {
      BackupSurvives(h, i, j - 1, id);
      HistoryIsGood(h, j - 1);
      HistoryIsGood(h, i);
      BackupStep(h[j - 1].disk, h[j].disk, h[j].actor, id);
      NameIsUsed(h, i, j - 1, id);
    }
  }

  lemma BackupStep(a: Disk, b: Disk, actor: Actor, id: Id)
    requires Good(a) && Step(a, b, actor)
    ensures id in a.backups ==>
              Get(b.backups, id) == if actor.Retention? && id in Removed(a, actor.now, actor.held, actor.left) then None
                                    else Some(a.backups[id])
    ensures id !in a.backups && id < a.next ==> id !in b.backups
    ensures a.next <= b.next
  {
    hide Good, LauncherStep, Removed;
    if id in a.backups {
      if actor.Retention? {
        RetentionSpares(a, b, actor.now, actor.held, actor.left, id);
      } else {
        BackupStays(a, b, actor, id);
      }
    } else if id in b.backups {
      BackupAppears(a, b, actor, id);
    }
    NextGrows(a, b, actor);
  }

  lemma NextGrows(a: Disk, b: Disk, actor: Actor)
    requires Step(a, b, actor)
    ensures a.next <= b.next
  {
  }

  /** Names are never used again. */
  lemma {:induction false} NameIsUsed(h: seq<Moment>, i: nat, j: nat, id: Id)
    requires History(h) && i <= j < |h| && id in h[i].disk.backups
    ensures id < h[j].disk.next
  {
    hide Good, Step;
    if i < j {
      NameIsUsed(h, i, j - 1, id);
      NextGrows(h[j - 1].disk, h[j].disk, h[j].actor);
    } else {
      HistoryIsGood(h, i);
      UsedIsBelowNext(h[i].disk, id);
    }
  }

  lemma UsedIsBelowNext(d: Disk, id: Id)
    requires Good(d) && id in d.backups
    ensures id < d.next
  {
  }

  /** The launcher made backup `id` of these bytes at moment `k`. */
  ghost predicate MadeAt(h: seq<Moment>, k: nat, id: Id, raw: Raw)
    requires k < |h|
  {
    && k > 0 && h[k].actor.Launcher? && id == h[k - 1].disk.next
    && id in h[k].disk.backups && h[k].disk.backups[id].original == raw
  }

  lemma {:induction false} BackupWasMade(h: seq<Moment>, j: nat, id: Id)
    requires History(h) && j < |h| && id in h[j].disk.backups
    ensures exists k: nat :: k <= j && MadeAt(h, k, id, h[j].disk.backups[id].original) && Spared(h, k, j, id)
  {
    hide Good, Step, Removed;
    var raw := h[j].disk.backups[id].original;
    if j == 0 {
    } else if id in h[j - 1].disk.backups {
      HistoryIsGood(h, j - 1);
      BackupStep(h[j - 1].disk, h[j].disk, h[j].actor, id);
      BackupWasMade(h, j - 1, id);
      var k: nat :| k <= j - 1 && MadeAt(h, k, id, raw) && Spared(h, k, j - 1, id);
      assert Spared(h, k, j, id);
    } else {
      BackupAppears(h[j - 1].disk, h[j].disk, h[j].actor, id);
      assert MadeAt(h, j, id, raw) && Spared(h, j, j, id);
    }
  }

  /**
   * Whether a save can be got back: exactly if some backup of its bytes was made and spared
   * by every run of retention since.
   */
  lemma RecoverableIff(h: seq<Moment>, j: nat, raw: Raw)
    requires History(h) && j < |h|
    ensures Recoverable(h[j].disk, raw) <==>
            exists k: nat, id: Id :: k <= j && MadeAt(h, k, id, raw) && Spared(h, k, j, id)
  {
    hide Spared, History;
    if Recoverable(h[j].disk, raw) {
      var id :| id in h[j].disk.backups && h[j].disk.backups[id].original == raw;
      BackupWasMade(h, j, id);
    }
    if k: nat, id: Id :| k <= j && MadeAt(h, k, id, raw) && Spared(h, k, j, id) {
      BackupSurvives(h, k, j, id);
    }
  }

  /** At every run of retention the backup was among the newest, recent, referred to or held. */
  ghost predicate Cherished(h: seq<Moment>, i: nat, j: nat, id: Id)
    requires i <= j < |h|
  {
    forall m | i < m <= j && h[m].actor.Retention? && id in h[m - 1].disk.backups ::
      var d := h[m - 1].disk;
      || Rank(d, id) < KEPT || Recent(h[m].actor.now, d.backups[id].date)
      || id in Referenced(d) || id in h[m].actor.held
  }

  /**
   * No save is lost too early: whatever the launcher replaced, other than by what it
   * already was, has a backup, and is recoverable as long as that backup is among the
   * newest 20, at most 30 days old, referred to or held whenever retention runs; and each
   * replacement counts up.
   */
  lemma NoSaveIsLost(h: seq<Moment>, i: nat) returns (id: Id)
    requires History(h) && i + 1 < |h|
    requires h[i + 1].actor.Launcher? && h[i + 1].disk.raw != h[i].disk.raw
    ensures Local(h[i + 1].disk).generation == Local(h[i].disk).generation + 1
    ensures id in h[i + 1].disk.backups && h[i + 1].disk.backups[id].original == h[i].disk.raw
    ensures forall j: nat | i < j < |h| && Cherished(h, i + 1, j, id) :: Recoverable(h[j].disk, h[i].disk.raw)
  {
    hide Good, LauncherStep, Recoverable, Plays, Prunes, Local, Removed, Rank;
    id := ReplacingIsRecoverable(h[i].disk, h[i + 1].disk, h[i + 1].actor.proof);
    forall j: nat | i < j < |h| && Cherished(h, i + 1, j, id) ensures Recoverable(h[j].disk, h[i].disk.raw) {
      CherishedIsSpared(h, i + 1, j, id);
      BackupSurvives(h, i + 1, j, id);
      HasOriginal(h[j].disk, id);
    }
  }

  lemma HasOriginal(d: Disk, id: Id)
    requires id in d.backups
    ensures Recoverable(d, d.backups[id].original)
  {
  }

  lemma CherishedIsSpared(h: seq<Moment>, i: nat, j: nat, id: Id)
    requires i <= j < |h| && Cherished(h, i, j, id)
    ensures Spared(h, i, j, id)
  {
    hide Rank;
  }

  // A history in which a save is lost. The player has a save, the cloud has another; the
  // player takes the cloud's, twenty more backups of it are made, an upload makes the last
  // of them the baseline, and more than thirty days later retention runs.

  function Holding(content: bv8): Containers {
    map["slot" := Container("slot", 0, map["data" := [content]])]
  }

  const FIRST := State(0, Holding(1))
  const SECOND := State(1, Holding(2))
  const BEFORE := Backup(Some(FIRST), SECOND, Date(0, 0))
  const AFTER := Backup(Some(SECOND), SECOND, Date(1, 0))

  lemma FirstIsNotSecond()
    ensures DigestOf(FIRST) != DigestOf(SECOND)
  {
    assert DigestOf(FIRST)["slot"].blobs["data"] == [1] && DigestOf(SECOND)["slot"].blobs["data"] == [2];
  }

  /** The import: play, snapshot, backup, replacement, receipt, baseline. */
  function Opening(): (ds: seq<Disk>)
    ensures |ds| == 7 && ds[0] == BLANK
    ensures ds[3].raw == Some(FIRST) && ds[4].raw == Some(SECOND)
  {
    var played := BLANK.(raw := Some(FIRST));
    var seen := WithSnapshot(played, SECOND.containers);
    var kept := WithBackup(seen, BEFORE);
    var replaced := kept.(raw := Some(SECOND));
    var proved := WithReceipt(replaced, 1);
    [BLANK, played, seen, kept, replaced, proved, proved.(baseline := Some(1))]
  }

  /** After the import, `n` more backups were made a second later. */
  function Younger(n: nat): (d: Disk)
    ensures d == Opening()[6].(backups := d.backups, next := n + 2)
    ensures forall id: Id :: id in d.backups <==> 1 <= id <= n + 1
    ensures forall id | id in d.backups :: d.backups[id] == if id == 1 then BEFORE else AFTER
  {
    if n == 0 then Opening()[6] else WithBackup(Younger(n - 1), AFTER)
  }

  /** The last of them becomes the baseline. */
  function Uploaded(): Disk {
    WithReceipt(Younger(KEPT), KEPT + 1)
  }

  function Adopted(): Disk {
    Uploaded().(baseline := Some(KEPT + 1))
  }

  function Pruned(): Disk {
    var d := Adopted();
    d.(backups := d.backups - {1}, receipts := d.receipts - {1}, snapshots := map[])
  }

  function LosingMoment(i: nat): Moment
    requires i < KEPT + 10
  {
    if i < 7 then Moment(Opening()[i], if i == 1 then Game else Launcher(None))
    else if i < KEPT + 7 then Moment(Younger(i - 6), Launcher(None))
    else if i == KEPT + 7 then Moment(Uploaded(), Launcher(None))
    else if i == KEPT + 8 then Moment(Adopted(), Launcher(None))
    else Moment(Pruned(), Retention(RECENT + 1, {}, {}))
  }

  function LosingHistory(): (h: seq<Moment>)
    ensures |h| == KEPT + 10
  {
    seq(KEPT + 10, i requires 0 <= i < KEPT + 10 => LosingMoment(i))
  }

  /** The names of the first `n` younger backups. */
  function Following(n: nat): (r: set<Id>)
    ensures |r| == n && forall j :: j in r <==> 2 <= j <= n + 1
  {
    if n == 0 then {} else Following(n - 1) + {n + 1}
  }

  lemma FirstIsLast(n: nat)
    ensures Rank(Younger(n), 1) == n
  {
    hide Opening;
    var d := Younger(n);
    forall j: Id ensures j in NewerThan(d, 1) <==> j in Following(n) {
      if j in d.backups && j != 1 {
        assert d.backups[j].date == Date(1, 0);
      }
    }
    assert NewerThan(d, 1) == Following(n);
  }

  lemma AdoptedIs()
    ensures Adopted().backups == Younger(KEPT).backups && Referenced(Adopted()) == {KEPT + 1}
  {
    hide Holding;
  }

  lemma FirstIsExpendable()
    ensures Expendable(Adopted(), RECENT + 1, {}, 1)
  {
    hide Rank, NewerThan, Adopted, Opening, Holding, Referenced;
    AdoptedIs();
    FirstIsLast(KEPT);
    SameRank(Adopted(), Younger(KEPT), 1);
    assert Adopted().backups[1].date == Date(0, 0);
  }

  lemma OthersAreRecent(id: Id)
    requires id != 1
    ensures !Expendable(Adopted(), RECENT + 1, {}, id)
  {
    hide Rank, NewerThan, Adopted, Opening, Holding, Referenced;
    AdoptedIs();
    if id in Adopted().backups {
      assert Adopted().backups[id].date == Date(1, 0);
    }
  }

  lemma FirstIsRemoved()
    ensures Removed(Adopted(), RECENT + 1, {}, {}) == {1}
  {
    hide Expendable, Adopted;
    AdoptedIs();
    FirstIsExpendable();
    var d := Adopted();
    forall id | id in d.backups && id != 1 ensures !Expendable(d, RECENT + 1, {}, id) {
      OthersAreRecent(id);
    }
    assert 1 in d.backups;
  }

  lemma SameRank(a: Disk, b: Disk, id: Id)
    requires a.backups == b.backups && id in a.backups
    ensures Rank(a, id) == Rank(b, id)
  {
    assert NewerThan(a, id) == NewerThan(b, id);
  }

  lemma OpeningSteps(i: nat)
    requires 0 < i <= 6
    ensures Step(Opening()[i - 1], Opening()[i], if i == 1 then Game else Launcher(None))
  {
    hide Holding;
    var a, b := Opening()[i - 1], Opening()[i];
    if i == 2 {
      assert Snaps(a, b);
    } else if i == 3 {
      assert Backs(a, b);
    } else if i == 4 {
      assert 1 in a.backups && a.backups[1] == BEFORE;
      assert Replaces(a, b);
    } else if i == 5 {
      assert 1 in a.backups && b == WithReceipt(a, 1);
      assert Receives(a, b);
    } else if i == 6 {
      assert Publishes(a, b);
    }
  }

  lemma YoungerSteps(n: nat)
    ensures Backs(Younger(n), Younger(n + 1))
  {
    assert n + 2 in Younger(n + 1).backups;
  }

  lemma UploadSteps()
    ensures Receives(Younger(KEPT), Uploaded()) && Publishes(Uploaded(), Adopted())
  {
    hide Holding;
    var a, b := Younger(KEPT), Uploaded();
    assert KEPT + 1 !in a.receipts && b == WithReceipt(a, KEPT + 1);
    assert KEPT + 1 in Younger(KEPT).backups && Younger(KEPT).backups[KEPT + 1] == AFTER;
  }

  lemma LastStep()
    ensures Prunes(Adopted(), Pruned(), RECENT + 1, {}, {})
  {
    hide Removed, Holding;
    FirstIsRemoved();
    AdoptedIs();
  }

  lemma LosingStep(i: nat)
    requires 0 < i < KEPT + 10
    ensures Step(LosingMoment(i - 1).disk, LosingMoment(i).disk, LosingMoment(i).actor)
  {
    hide Backs, Snaps, Replaces, Publishes, Receives, Prunes, Opening, Uploaded, Adopted, Pruned;
    if i <= 6 {
      OpeningSteps(i);
    } else if i <= KEPT + 6 {
      YoungerSteps(i - 7);
    } else if i <= KEPT + 8 {
      UploadSteps();
    } else {
      LastStep();
    }
  }

  /** The content is nowhere: neither the save nor any backup, on either side, nor any snapshot has it. */
  predicate Gone(d: Disk, content: Digest) {
    && LocalDigest(d) != content
    && (forall id | id in d.backups ::
          DigestOf(Decoded(d.backups[id].original)) != content && DigestOf(d.backups[id].imported) != content)
    && forall id | id in d.snapshots :: ContentOf(d.snapshots[id]) != content
  }

  /** So a replaced save can be lost, bytes and content: its backup is neither among the newest nor recent any more. */
  lemma ASaveIsLost()
    ensures var h := LosingHistory();
            && History(h)
            && h[4].actor.Launcher? && h[4].disk.raw != h[3].disk.raw
            && !Recoverable(h[|h| - 1].disk, h[3].disk.raw)
            && Gone(h[|h| - 1].disk, LocalDigest(h[3].disk))
  {
    hide Step, Holding;
    var h := LosingHistory();
    forall i | 0 < i < |h| ensures Step(h[i - 1].disk, h[i].disk, h[i].actor) {
      LosingStep(i);
    }
    FirstIsNotSecond();
    assert h[0] == LosingMoment(0) && h[3] == LosingMoment(3) && h[4] == LosingMoment(4);
    assert h[KEPT + 9] == LosingMoment(KEPT + 9);
  }

  lemma PruningKeepsBaseline(a: Disk, b: Disk, now: nat, held: set<Id>, left: set<Id>)
    requires Good(a) && Prunes(a, b, now, held, left)
    ensures LoadBaseline(b) == LoadBaseline(a)
  {
    hide Removed;
    PruningKeepsReferenced(a, b, now, held, left);
    if a.baseline.Some? {
      assert a.baseline.value in Referenced(a);
      assert Get(b.backups, a.baseline.value) == Get(a.backups, a.baseline.value);
      assert Get(b.receipts, a.baseline.value) == Get(a.receipts, a.baseline.value);
    }
  }

  lemma AddingKeepsBaseline(a: Disk, b: Disk)
    requires Good(a)
    requires Backs(a, b) || Snaps(a, b) || Receives(a, b)
    ensures LoadBaseline(b) == LoadBaseline(a)
  {
  }

  lemma RecordingKeepsBaseline(a: Disk, b: Disk, proof: Option<Receipt>)
    requires Replaces(a, b) || Begins(a, b) || Updates(a, b, proof) || Ends(a, b, proof) || Plays(a, b) || b == a.(offline := true)
    ensures LoadBaseline(b) == LoadBaseline(a)
  {
  }

  lemma PublishingSetsBaseline(a: Disk, b: Disk)
    requires Publishes(a, b)
    ensures LoadBaseline(b) == Ok(Some(LocalDigest(a)))
  {
  }

  lemma BaselineStep(a: Disk, b: Disk, actor: Actor)
    requires Good(a) && Step(a, b, actor)
    ensures LoadBaseline(b) == LoadBaseline(a) || LoadBaseline(b) == Ok(Some(LocalDigest(a)))
  {
    hide Good, Backs, Snaps, Receives, Publishes, Replaces, Begins, Updates, Ends, Plays, Prunes, LoadBaseline, LocalDigest;
    match actor
    case Launcher(proof) =>
      if Backs(a, b) || Snaps(a, b) || Receives(a, b) {
        AddingKeepsBaseline(a, b);
      } else if Publishes(a, b) {
        PublishingSetsBaseline(a, b);
      } else {
        RecordingKeepsBaseline(a, b, proof);
      }
    case Game =>
      RecordingKeepsBaseline(a, b, None);
    case Retention(now, held, left) =>
      PruningKeepsBaseline(a, b, now, held, left);
  }

  /** The baseline is always content that the local save had at some time. */
  lemma {:induction false} BaselineWasLocal(h: seq<Moment>, i: nat)
    requires History(h) && i < |h|
    requires h[i].disk.baseline.Some?
    ensures exists k: nat :: k <= i && LoadBaseline(h[i].disk) == Ok(Some(LocalDigest(h[k].disk)))
  {
    if i > 0 {
      HistoryIsGood(h, i - 1);
      BaselineStep(h[i - 1].disk, h[i].disk, h[i].actor);
      if LoadBaseline(h[i].disk) == LoadBaseline(h[i - 1].disk) {
        BaselineWasLocal(h, i - 1);
      }
    }
  }

  /** The launcher wrote on the proof of a receipt for this content, and it was the baseline and the local save. */
  predicate ProvedAt(a: Disk, actor: Actor, content: Digest) {
    && actor.Launcher? && actor.proof.Some? && actor.proof.value.source == content
    && LoadBaseline(a) == Ok(Some(content)) && LocalDigest(a) == content
  }

  lemma JournalStep(a: Disk, b: Disk, actor: Actor)
    requires Step(a, b, actor) && a.journal.Some? && b.journal.Some?
    ensures SameSession(a.journal.value, b.journal.value)
    ensures b.journal.value.revision == a.journal.value.revision + if a.journal == b.journal then 0 else 1
    ensures || b.journal.value.beforeRemote == a.journal.value.beforeRemote
            || ProvedAt(a, actor, b.journal.value.beforeRemote)
  {
    hide Removed;
  }

  lemma ClosingStep(a: Disk, b: Disk, actor: Actor)
    requires Step(a, b, actor) && a.journal.Some? && b.journal.None?
    ensures ProvedAt(a, actor, a.journal.value.target)
    ensures LoadBaseline(b) == LoadBaseline(a) && LocalDigest(b) == LocalDigest(a)
  {
    hide Removed;
  }

  /** How often the journal was written between two moments. */
  ghost function JournalWrites(h: seq<Moment>, i: nat, j: nat): nat
    requires i <= j < |h|
  {
    if i == j then 0
    else JournalWrites(h, i, j - 1) + if h[j - 1].disk.journal == h[j].disk.journal then 0 else 1
  }

  /** What the cloud is expected to hold is what it was, or what a receipt proved since. */
  ghost predicate ExpectedIsProved(h: seq<Moment>, i: nat, j: nat)
    requires i <= j < |h| && h[i].disk.journal.Some? && h[j].disk.journal.Some?
  {
    var expected := h[j].disk.journal.value.beforeRemote;
    || expected == h[i].disk.journal.value.beforeRemote
    || exists k: nat :: i < k <= j && ProvedAt(h[k - 1].disk, h[k].actor, expected)
  }

  /**
   * Within one session the revision counts the writes of its journal, and the content the
   * cloud is expected to hold departs from the original only to one proved by a receipt.
   */
  lemma {:induction false} SessionIsSteady(h: seq<Moment>, i: nat, j: nat)
    requires History(h) && i <= j < |h|
    requires forall k | i <= k <= j :: h[k].disk.journal.Some?
    ensures var r, s := h[i].disk.journal.value, h[j].disk.journal.value;
            && SameSession(r, s)
            && s.revision == r.revision + JournalWrites(h, i, j) <= REVISION_LIMIT
    ensures ExpectedIsProved(h, i, j)
  {
    hide Good, Step, ProvedAt, SameSession;
    HistoryIsGood(h, j);
    RevisionFits(h[j].disk);
    if i < j {
      SessionIsSteady(h, i, j - 1);
      JournalStep(h[j - 1].disk, h[j].disk, h[j].actor);
      SessionIsOne(h[i].disk.journal.value, h[j - 1].disk.journal.value, h[j].disk.journal.value);
    } else {
      SessionIsOne(h[i].disk.journal.value, h[i].disk.journal.value, h[i].disk.journal.value);
    }
  }

  lemma RevisionFits(d: Disk)
    requires Good(d) && d.journal.Some?
    ensures d.journal.value.revision <= REVISION_LIMIT
  {
  }

  lemma SessionIsOne(r: Record, s: Record, t: Record)
    ensures SameSession(r, r)
    ensures SameSession(r, s) && SameSession(s, t) ==> SameSession(r, t)
  {
  }

  /**
   * How a session ends: by the launcher, on the proof of a receipt for the target of the
   * very session that was begun, with the baseline and the local save at that target.
   */
  lemma SessionEndsProved(h: seq<Moment>, i: nat, j: nat)
    requires History(h) && i < j < |h|
    requires forall k | i <= k < j :: h[k].disk.journal.Some?
    requires h[j].disk.journal.None?
    ensures ProvedAt(h[j - 1].disk, h[j].actor, h[j - 1].disk.journal.value.target)
    ensures LoadBaseline(h[j].disk) == Ok(Some(h[j - 1].disk.journal.value.target))
    ensures LocalDigest(h[j].disk) == h[j - 1].disk.journal.value.target
    ensures SameSession(h[i].disk.journal.value, h[j - 1].disk.journal.value) && ExpectedIsProved(h, i, j - 1)
  {
    hide Step, ProvedAt, SameSession, JournalWrites, ExpectedIsProved, LoadBaseline, LocalDigest, Good;
    SessionIsSteady(h, i, j - 1);
    ClosingSays(h, j);
  }

  lemma ClosingSays(h: seq<Moment>, j: nat)
    requires History(h) && 0 < j < |h| && h[j - 1].disk.journal.Some? && h[j].disk.journal.None?
    ensures var target := h[j - 1].disk.journal.value.target;
            && ProvedAt(h[j - 1].disk, h[j].actor, target)
            && LoadBaseline(h[j].disk) == Ok(Some(target)) && LocalDigest(h[j].disk) == target
  {
    hide Step, LoadBaseline, LocalDigest;
    ClosingStep(h[j - 1].disk, h[j].disk, h[j].actor);
  }
}
