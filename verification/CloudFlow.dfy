// What happens to the saves before and after a play session (native/cloud_flow.rs): the
// comparison, the journal and the upload together. During a call the launcher holds the
// runtime's reservation, so the game does not save; other devices do as they like.

module CloudFlow {
  import opened Prelude
  import opened SaveState
  import opened CloudDisk
  import opened CloudServer
  import opened CloudWrite
  import opened CloudImport
  import Session = CloudSession
  import Policy = CloudPolicy

  /** What stops a session: a failure and, if the user is to decide, the comparison. */
  datatype Attention = Attention(failure: Failure, plan: Option<Plan>)

  datatype Review = Review(plan: Plan, choice: Choice)

  function Stop(code: Code): Attention {
    Attention(Failure(code, None), None)
  }

  function ConflictOver(plan: Plan): Attention {
    Attention(Failure(ConflictCode, None), Some(plan))
  }

  /** The comparison still shows what the user decided on. */
  predicate StillTrue(plan: Plan, review: Plan) {
    plan.remote == review.remote && plan.localRaw == review.localRaw
  }

  // ----- What ties the disk to the cloud ---------------------------------------------

  /** Whatever is stored as cloud content really was the cloud's content. */
  ghost predicate Linked(d: Disk, s: Server) {
    && (forall id | id in d.snapshots :: Was(s, ContentOf(d.snapshots[id])))
    && (d.journal.Some? ==> Was(s, d.journal.value.beforeRemote))
    && (LoadBaseline(d).Ok? && LoadBaseline(d).value.Some? ==> Was(s, LoadBaseline(d).value.value))
  }

  lemma LinkedStays(d: Disk, s: Server, t: Server)
    requires Linked(d, s) && s.origin == t.origin && s.log <= t.log
    ensures Linked(d, t)
  {
    forall id | id in d.snapshots ensures Was(t, ContentOf(d.snapshots[id])) {
      WasStays(s, t, ContentOf(d.snapshots[id]));
    }
    if d.journal.Some? {
      WasStays(s, t, d.journal.value.beforeRemote);
    }
    if LoadBaseline(d).Ok? && LoadBaseline(d).value.Some? {
      WasStays(s, t, LoadBaseline(d).value.value);
    }
  }

  /** New records keep the tie if they name old ones or content the cloud had. */
  lemma Relinked(a: Disk, b: Disk, s: Server, d: Digest)
    requires Linked(a, s) && Was(s, d)
    requires forall id | id in b.snapshots :: b.snapshots[id] in a.snapshots.Values || ContentOf(b.snapshots[id]) == d
    requires b.journal == a.journal || b.journal.None? || b.journal.value.beforeRemote == d
             || (a.journal.Some? && b.journal.value.beforeRemote == a.journal.value.beforeRemote)
    requires LoadBaseline(b) == LoadBaseline(a) || LoadBaseline(b) == Ok(Some(d))
    ensures Linked(b, s)
  {
    forall id | id in b.snapshots ensures Was(s, ContentOf(b.snapshots[id])) {
      if b.snapshots[id] in a.snapshots.Values {
        var j :| j in a.snapshots && a.snapshots[j] == b.snapshots[id];
        assert Was(s, ContentOf(a.snapshots[j]));
      }
    }
  }

  lemma SnapshotWas(d: Disk, s: Server, id: Id)
    requires Linked(d, s) && id in d.snapshots
    ensures Was(s, ContentOf(d.snapshots[id]))
  {
  }

  /** Nothing of ours is on its way and no cached copy is in doubt. */
  predicate Settled(s: Server) {
    WellFormed(s) && s.inFlight.None? && s.stale == {}
  }

  lemma SettledStays(s: Server, t: Server)
    requires Settled(s) && Later(s, t)
    ensures Settled(t) && Silent(s, t)
  {
  }

  ghost predicate SystemOk(d: Device, c: Cloud)
    reads d, c
  {
    d.Valid() && WellFormed(c.s) && Linked(d.disk, c.s) && Receipted(d.proofs, c.s)
  }

  /** Every receipt that was acted on stands for content the cloud had. */
  ghost predicate Receipted(proofs: set<Receipt>, s: Server) {
    forall p | p in proofs :: Was(s, p.source)
  }

  lemma ReceiptedStays(proofs: set<Receipt>, s: Server, t: Server)
    requires Receipted(proofs, s) && s.origin == t.origin && s.log <= t.log
    ensures Receipted(proofs, t)
  {
    forall p | p in proofs ensures Was(t, p.source) {
      WasStays(s, t, p.source);
    }
  }

  lemma OneMoreReceipt(proofs: set<Receipt>, more: set<Receipt>, p: Receipt, s: Server)
    requires Receipted(proofs, s) && Was(s, p.source) && more <= proofs + {p}
    ensures Receipted(more, s)
  {
  }

  lemma GuardedSooner(start: Server, u: Server, s: Server, expected: Digest)
    requires Settled(start) && Later(start, u) && Guarded(u, s, expected)
    ensures Guarded(start, s, expected)
  {
    SettledStays(start, u);
    assert forall k | 0 <= k < |u.log| :: s.log[k] == u.log[k];
    if id: nat, g: nat :| GuardedFrom(u, s, expected, id, g) {
      assert GuardedFrom(start, s, expected, id, g);
    }
  }

  lemma GuardedExtends(start: Server, s: Server, expected: Digest)
    requires Guarded(start, s, expected)
    ensures WellFormed(s) && s.origin == start.origin && start.log <= s.log
  {
  }

  lemma IdleIsGuarded(start: Server, s: Server, expected: Digest)
    requires Settled(start) && Later(start, s)
    ensures Guarded(start, s, expected)
  {
    SettledStays(start, s);
  }

  lemma ProvedWas(start: Server, s: Server, local: Digest, expected: Digest, grant: Server, renewed: Server)
    requires Proved(start, s, local, expected, grant, renewed)
    ensures Was(s, local) && WasSince(start, s, local)
  {
    assert ContentAt(s, |renewed.log|) == Content(renewed);
  }

  // ----- The steps of a session ---------------------------------------------------------

  /** Download the cloud's content into a new snapshot. */
  method Fetch(d: Device, c: Cloud) returns (r: Result<Id, Failure>)
    requires SystemOk(d, c)
    modifies d, c`s
    ensures SystemOk(d, c) && old(d.history) <= d.history
    ensures Later(old(c.s), c.s)
    ensures r.Err? ==> d.disk == old(d.disk)
    ensures r.Ok? ==> r.value == old(d.disk).next && r.value in d.disk.snapshots
    ensures r.Ok? ==> d.disk == WithSnapshot(old(d.disk), d.disk.snapshots[r.value])
    ensures r.Ok? ==> LoadBaseline(d.disk) == LoadBaseline(old(d.disk))
    ensures r.Ok? ==> WasSince(old(c.s), c.s, ContentOf(d.disk.snapshots[r.value]))
  {
    hide Later, Good, History, Linked, Receipted, Was, WasSince, LauncherStep;
    d.IsGood();
    var start := c.s;
    var reply := c.Download();
    LaterExtends(start, c.s);
    LinkedStays(d.disk, start, c.s);
    ReceiptedStays(d.proofs, start, c.s);
    var content :- reply;
    if * {
      return Err(Failure(Stopped, None));
    }
    ghost var a := d.disk;
    var id := d.disk.next;
    SnappingIsAStep(a, content);
    d.Store(WithSnapshot(d.disk, content), Launcher(None));
    WasSinceStays(start, c.s, c.s, ContentOf(content));
    assert forall j | j in a.snapshots :: a.snapshots[j] in a.snapshots.Values;
    SnappingKeepsRest(a, content);
    Relinked(a, d.disk, c.s, ContentOf(content));
    return Ok(id);
  }

  lemma LaterExtends(s: Server, t: Server)
    requires Later(s, t)
    ensures WellFormed(t) && s.origin == t.origin && s.log <= t.log
  {
  }

  lemma SnappingIsAStep(a: Disk, content: Containers)
    ensures LauncherStep(a, WithSnapshot(a, content), None)
  {
  }

  lemma SnappingKeepsRest(a: Disk, content: Containers)
    requires Good(a)
    ensures LoadBaseline(WithSnapshot(a, content)) == LoadBaseline(a)
    ensures forall id | id in a.snapshots :: id < a.next
  {
  }

  /** Nothing that ties the disk to the cloud has changed. */
  predicate SameTies(a: Disk, b: Disk) {
    && b.snapshots == a.snapshots
    && LoadBaseline(b) == LoadBaseline(a)
    && (b.journal == a.journal || b.journal.None?
        || (a.journal.Some? && b.journal.value.beforeRemote == a.journal.value.beforeRemote))
  }

  lemma SameTiesKeepLink(a: Disk, b: Disk, s: Server)
    requires Linked(a, s) && SameTies(a, b)
    ensures Linked(b, s)
  {
  }

  /** A session is open on the current local save, and begins on this content of the cloud. */
  predicate InPlay(d: Disk, remote: Digest) {
    && d.journal.Some?
    && d.journal.value.phase == Playing
    && d.journal.value.target == LocalDigest(d)
    && d.journal.value.beforeRemote == remote
  }

  /** What an upload wrote is once more the cloud's content, the baseline and the local save. */
  ghost predicate Synchronised(start: Server, s: Server, d: Disk) {
    && WasSince(start, s, LocalDigest(d))
    && LoadBaseline(d) == Ok(Some(LocalDigest(d)))
  }

  /** Put the upload on record, upload, publish the baseline, and only then settle the journal. */
  method Finish(d: Device, c: Cloud, record: Record, expected: Digest, playing: bool, limit: nat)
    returns (r: Result<(), Attention>, ghost sent: seq<Name>)
    requires SystemOk(d, c) && Settled(c.s)
    modifies d, c
    ensures SystemOk(d, c) && old(d.history) <= d.history
    ensures d.disk.raw == old(d.disk).raw && d.disk.snapshots == old(d.disk).snapshots
    ensures Guarded(old(c.s), c.s, expected)
    ensures c.requests == old(c.requests) + sent && EachOnce(sent, Changed(expected, LocalDigest(d.disk)))
    ensures Changed(expected, LocalDigest(d.disk)) == {} ==> Silent(old(c.s), c.s)
    ensures r.Err? ==> r.error.plan.None?
    ensures playing || r.Err? ==> (d.disk.journal.None? <==> old(d.disk).journal.None?)
    ensures r.Ok? ==> old(d.disk).journal == Some(record)
    ensures r.Ok? ==> Synchronised(old(c.s), c.s, d.disk)
    ensures r.Ok? && playing ==> InPlay(d.disk, LocalDigest(d.disk))
    ensures r.Ok? && !playing ==> d.disk.journal.None?
  {
    hide Later, Good, History, Linked, Was, WasSince, Guarded, Proved, EachOnce, Changed, Settled, LoadBaseline, Silent, Receipted;
    sent := [];
    NothingSent();
    EachOnceFromNone(expected, LocalDigest(d.disk));
    IdleFromStart(c.s, expected);
    if * {
      return Err(Stop(Stopped)), sent;
    }
    ghost var a := d.disk;
    var local := ExportOf(d.disk);
    var updated := Session.Update(d, record, Uploading, Some(local));
    SameTiesKeepLink(a, d.disk, c.s);
    if updated.Err? {
      return Err(Attention(updated.error, None)), sent;
    }
    ghost var start := c.s;
    var answer;
    ghost var attempted, grant, renewed;
    SettledSays(c.s);
    answer, sent, attempted, grant, renewed := Upload(c, local.encoded, expected, limit);
    EachOnceWider(sent, attempted, Changed(expected, local.content));
    GuardedExtends(start, c.s, expected);
    LinkedStays(d.disk, start, c.s);
    ReceiptedStays(d.proofs, start, c.s);
    if answer.Err? {
      return Err(Attention(answer.error.failure, None)), sent;
    }
    var receipt := answer.value;
    ProvedWas(start, c.s, receipt.source, expected, grant, renewed);
    ghost var b := d.disk;
    var recorded := d.RecordCommon(local, receipt);
    SameSnapshots(b, d.disk);
    Relinked(b, d.disk, c.s, receipt.source);
    if recorded.Err? {
      return Err(Attention(recorded.error, None)), sent;
    }
    if !receipt.released {
      return Err(Stop(LeaseLost)), sent;
    }
    ghost var f, proofs := d.disk, d.proofs;
    SameSnapshots(f, f);
    if playing {
      var checked := Session.Checkpoint(d, updated.value, local, receipt);
      Relinked(f, d.disk, c.s, receipt.source);
      OneMoreReceipt(proofs, d.proofs, receipt, c.s);
      if checked.Err? {
        return Err(Attention(checked.error, None)), sent;
      }
    } else {
      var completed := Session.Complete(d, updated.value, local, receipt);
      Relinked(f, d.disk, c.s, receipt.source);
      OneMoreReceipt(proofs, d.proofs, receipt, c.s);
      if completed.Err? {
        return Err(Attention(completed.error, None)), sent;
      }
    }
    return Ok(()), sent;
  }

  lemma SameSnapshots(a: Disk, b: Disk)
    requires a.snapshots == b.snapshots
    ensures forall id | id in b.snapshots :: b.snapshots[id] in a.snapshots.Values
  {
  }

  lemma EachOnceWider(names: seq<Name>, a: set<Name>, b: set<Name>)
    requires EachOnce(names, a) && a <= b
    ensures EachOnce(names, b) && (b == {} ==> a == {})
  {
  }

  lemma EachOnceFromNone(a: Digest, b: Digest)
    ensures EachOnce([], Changed(a, b))
  {
  }

  lemma SettledSays(s: Server)
    requires Settled(s)
    ensures WellFormed(s) && s.inFlight.None? && s.stale == {}
  {
  }

  lemma IdleFromStart(s: Server, expected: Digest)
    requires Settled(s)
    ensures Guarded(s, s, expected)
    ensures Silent(s, s)
  {
    LaterIsReflexive(s);
    IdleIsGuarded(s, s, expected);
  }

  /** The stored comparison baseline; in every reachable state it can be read. */
  method Baseline(d: Device) returns (r: Result<Option<Digest>, Failure>)
    requires d.Valid()
    ensures r.Ok? ==> LoadBaseline(d.disk) == Ok(r.value)
    ensures r.Err? ==> r.error.code == LocalStorage
  {
    d.IsGood();
    if * {
      return Err(Failure(LocalStorage, None));
    }
    return Ok(LoadBaseline(d.disk).value);
  }

  lemma TakingCloudTakesAll(local: State, plan: Plan)
    ensures Selected(local, plan.manifest, plan.decisions, TakeCloud).Ok?
    ensures DigestOf(Selected(local, plan.manifest, plan.decisions, TakeCloud).value) == ContentOf(plan.manifest)
  {
  }

  /** Import what the plan and the choice select, and insist that it is known to last. */
  method Import(d: Device, c: Cloud, plan: Plan, choice: Choice) returns (r: Result<(), Attention>)
    requires SystemOk(d, c)
    modifies d
    ensures SystemOk(d, c) && old(d.history) <= d.history
    ensures d.disk.journal == old(d.disk).journal && d.disk.snapshots == old(d.disk).snapshots
    ensures r.Err? ==> r.error.plan.None?
    ensures r.Ok? ==>
              var chosen := Selected(Local(old(d.disk)), plan.manifest, plan.decisions, choice);
              chosen.Ok? && LocalDigest(d.disk) == DigestOf(chosen.value)
    ensures r.Ok? && choice.TakeCloud? ==> LocalDigest(d.disk) == plan.remote
  {
    hide Good, History, Linked, Was, LoadBaseline, Selected, DigestOf;
    TakingCloudTakesAll(Local(d.disk), plan);
    ghost var a := d.disk;
    var applied := d.Apply(plan, choice);
    SameSnapshots(a, d.disk);
    if LoadBaseline(d.disk) == LoadBaseline(a) {
      SameTiesKeepLink(a, d.disk, c.s);
    } else {
      SnapshotWas(a, c.s, plan.snapshot);
      Relinked(a, d.disk, c.s, plan.remote);
    }
    if applied.Err? {
      return Err(Attention(applied.error, None));
    }
    if !applied.value.durable {
      return Err(Stop(LocalStorage));
    }
    return Ok(());
  }

  /** Begin a session on the current local save and the given snapshot. */
  method Begin(d: Device, c: Cloud, snap: Id) returns (r: Result<Record, Attention>)
    requires SystemOk(d, c) && snap in d.disk.snapshots
    modifies d
    ensures SystemOk(d, c) && old(d.history) <= d.history
    ensures d.disk.raw == old(d.disk).raw && d.disk.snapshots == old(d.disk).snapshots
    ensures LoadBaseline(d.disk) == LoadBaseline(old(d.disk))
    ensures r.Err? ==> d.disk.journal == old(d.disk).journal && r.error.plan.None?
    ensures r.Ok? ==> d.disk.journal == Some(r.value) && r.value.target == LocalDigest(d.disk)
    ensures r.Ok? ==> r.value.beforeRemote == ContentOf(d.disk.snapshots[snap])
  {
    hide Good, History, Linked, Was, LoadBaseline;
    ghost var a := d.disk;
    if * {
      return Err(Stop(Stopped));
    }
    var export_ := ExportOf(d.disk);
    var begun := Session.Begin(d, snap, export_, Prepared);
    SnapshotWas(a, c.s, snap);
    SameSnapshots(a, d.disk);
    Relinked(a, d.disk, c.s, ContentOf(a.snapshots[snap]));
    if begun.Err? {
      return Err(Attention(begun.error, None));
    }
    return Ok(begun.value);
  }

  /** Record the current local save as the one being played on. */
  method MarkPlaying(d: Device, c: Cloud, record: Record) returns (r: Result<(), Attention>)
    requires SystemOk(d, c)
    modifies d
    ensures SystemOk(d, c) && old(d.history) <= d.history
    ensures d.disk.raw == old(d.disk).raw && d.disk.snapshots == old(d.disk).snapshots
    ensures LoadBaseline(d.disk) == LoadBaseline(old(d.disk))
    ensures r.Err? ==> d.disk.journal == old(d.disk).journal && r.error.plan.None?
    ensures r.Ok? ==> old(d.disk).journal == Some(record) && InPlay(d.disk, record.beforeRemote)
  {
    hide Good, History, Linked, Was, LoadBaseline;
    ghost var a := d.disk;
    if * {
      return Err(Stop(Stopped));
    }
    var export_ := ExportOf(d.disk);
    var updated := Session.Update(d, record, Playing, Some(export_));
    SameTiesKeepLink(a, d.disk, c.s);
    if updated.Err? {
      return Err(Attention(updated.error, None));
    }
    return Ok(());
  }

  /** Snapshot `id` was taken during this call. */
  ghost predicate Saw(a: Disk, start: Server, b: Disk, s: Server, id: Id) {
    && a.next <= id && id in b.snapshots
    && WasSince(start, s, ContentOf(b.snapshots[id]))
  }

  lemma SawStays(a: Disk, start: Server, b: Disk, s: Server, id: Id, f: Disk, t: Server)
    requires Saw(a, start, b, s, id)
    requires b.snapshots == f.snapshots && s.origin == t.origin && s.log <= t.log
    ensures Saw(a, start, f, t, id)
  {
    WasSinceStays(start, s, t, ContentOf(b.snapshots[id]));
  }

  /**
   * What a journal cannot be reconciled with: a cloud that is neither what the session
   * started from nor its target, or a save that is not the target although nothing was
   * played or the target has reached the cloud.
   */
  predicate Contradicts(record: Record, d: Disk, remote: Digest) {
    || remote !in {record.beforeRemote, record.target}
    || (record.phase != Playing && LocalDigest(d) != record.target)
    || (remote == record.target != record.beforeRemote && LocalDigest(d) != record.target)
  }

  /** A device that played offline and has never been compared with a cloud that differs. */
  predicate NeverCompared(d: Disk, remote: Digest) {
    LoadBaseline(d).Ok? && Uncompared(d.offline, LoadBaseline(d).value, LocalDigest(d), remote)
  }

  predicate Uncompared(offline: bool, baseline: Option<Digest>, local: Digest, remote: Digest) {
    offline && baseline.None? && local != map[] && local != remote && remote != map[]
  }

  /** A journal is already there: continue its session, or report what came in between. */
  method Resume(d: Device, c: Cloud, record: Record, plan: Plan, limit: nat)
    returns (r: Result<(), Attention>, ghost sent: seq<Name>)
    requires SystemOk(d, c) && Settled(c.s) && d.disk.journal == Some(record)
    requires plan.localRaw == d.disk.raw
    modifies d, c
    ensures SystemOk(d, c) && old(d.history) <= d.history
    ensures d.disk.raw == old(d.disk).raw && d.disk.snapshots == old(d.disk).snapshots && d.disk.journal.Some?
    ensures sent == [] && c.requests == old(c.requests)
    ensures Silent(old(c.s), c.s)
    ensures Guarded(old(c.s), c.s, plan.remote)
    ensures r == Err(ConflictOver(plan)) <==> Contradicts(record, old(d.disk), plan.remote)
    ensures r.Ok? ==> InPlay(d.disk, plan.remote)
    ensures r.Err? && r.error.plan.Some? ==> r.error == ConflictOver(plan) && d.disk == old(d.disk) && c.s == old(c.s)
  {
    hide Good, History, Linked, Was, WasSince, LoadBaseline, Guarded, Settled, Silent, Receipted, Later, Changed, EachOnce;
    sent := [];
    IdleFromStart(c.s, plan.remote);
    if plan.remote != record.beforeRemote && plan.remote != record.target {
      return Err(ConflictOver(plan)), sent;
    }
    if record.phase != Playing && LocalDigest(d.disk) != record.target {
      return Err(ConflictOver(plan)), sent;
    }
    if plan.remote == record.target && plan.remote != record.beforeRemote {
      if LocalDigest(d.disk) != record.target {
        return Err(ConflictOver(plan)), sent;
      }
      NothingDiffers(plan.remote);
      r, sent := Finish(d, c, record, plan.remote, true, limit);
      NothingToSend(sent, plan.remote);
      return;
    }
    r := MarkPlaying(d, c, record);
  }

  lemma NothingDiffers(a: Digest)
    ensures Changed(a, a) == {}
  {
  }

  lemma NothingToSend(sent: seq<Name>, a: Digest)
    requires EachOnce(sent, Changed(a, a))
    ensures sent == []
  {
    var first := if sent == [] then "" else sent[0];
    assert sent == [] || first in sent;
  }

  /** What the merge policy makes of both sides. */
  function PolicyFor(binding: Policy.Binding, d: Disk, remote: Digest): Policy.Decision
    requires LoadBaseline(d).Ok?
  {
    DecisionFor(binding, LocalDigest(d), remote, LoadBaseline(d).value)
  }

  /** What the comparison depends on: save, baseline and offline mark. */
  lemma SameComparison(a: Disk, b: Disk, remote: Digest)
    requires a.raw == b.raw && LoadBaseline(a) == LoadBaseline(b) && a.offline == b.offline
    ensures NeverCompared(a, remote) == NeverCompared(b, remote)
    ensures forall record :: Contradicts(record, a, remote) == Contradicts(record, b, remote)
  {
  }

  lemma SamePolicy(binding: Policy.Binding, a: Disk, b: Disk, remote: Digest)
    requires a.raw == b.raw && LoadBaseline(a) == LoadBaseline(b) && LoadBaseline(a).Ok?
    ensures PolicyFor(binding, a, remote) == PolicyFor(binding, b, remote)
  {
  }

  /** No journal yet: compare, import what the policy asks for, and open a session. */
  method Start(d: Device, c: Cloud, binding: Policy.Binding, plan: Plan, baseline: Option<Digest>)
    returns (r: Result<(), Attention>)
    requires SystemOk(d, c) && LoadBaseline(d.disk) == Ok(baseline)
    requires plan.snapshot in d.disk.snapshots
    requires plan == PlanFor(d.disk.raw, plan.snapshot, d.disk.snapshots[plan.snapshot], baseline)
    modifies d
    ensures SystemOk(d, c) && old(d.history) <= d.history
    ensures d.disk.snapshots == old(d.disk).snapshots
    ensures old(d.disk).journal.Some? ==> d.disk.journal.Some?
    ensures r.Ok? ==> InPlay(d.disk, plan.remote)
    ensures r.Ok? ==> PolicyFor(binding, old(d.disk), plan.remote).target == Policy.Offer(binding, LocalDigest(d.disk))
    ensures r == Err(ConflictOver(plan)) <==>
              NeverCompared(old(d.disk), plan.remote)
              || PolicyFor(binding, old(d.disk), plan.remote).action in {Policy.Conflict, Policy.Blocked}
    ensures r.Err? && r.error.plan.Some? ==> r.error == ConflictOver(plan) && d.disk == old(d.disk)
  {
    hide Good, History, Linked, Was, LoadBaseline, Policy.Decided, Selected, DigestOf, ContentOf, Decisions, Uncompared;
    var local, remote := LocalDigest(d.disk), plan.remote;
    if Uncompared(d.disk.offline, baseline, local, remote) {
      return Err(ConflictOver(plan));
    }
    var policy := Policy.Decide(binding, Policy.Offer(binding, local), Policy.Offer(binding, remote),
                                if baseline.Some? then Policy.Offer(binding, baseline.value) else None);
    SelectionMeetsPolicy(binding, d.disk.raw, plan.snapshot, plan.manifest, baseline);
    Policy.UnknownIsNeverEmpty(binding, Policy.Offer(binding, local), Policy.Offer(binding, remote),
                               if baseline.Some? then Policy.Offer(binding, baseline.value) else None);
    if policy.action in {Policy.Conflict, Policy.Blocked} {
      return Err(ConflictOver(plan));
    }
    if policy.action in {Policy.ImportCloud, Policy.Merge} {
      var _ :- Import(d, c, plan, ChoiceFor(policy.action));
    }
    // The comparison after the import cannot fail: nobody else touched the save.
    assert Policy.Offer(binding, LocalDigest(d.disk)) == policy.target;
    if Policy.Offer(binding, LocalDigest(d.disk)) != policy.target {
      return Err(Stop(StateChanged));
    }
    var record :- Begin(d, c, plan.snapshot);
    r := MarkPlaying(d, c, record);
  }

  /** The user decided on exactly this comparison. */
  method Settle(d: Device, c: Cloud, record: Option<Record>, plan: Plan, choice: Choice, playing: bool, limit: nat)
    returns (r: Result<(), Attention>, ghost sent: seq<Name>)
    requires SystemOk(d, c) && Settled(c.s)
    requires plan.snapshot in d.disk.snapshots && plan.remote == ContentOf(d.disk.snapshots[plan.snapshot])
    requires record.None? ==> playing
    modifies d, c
    ensures SystemOk(d, c) && old(d.history) <= d.history
    ensures d.disk.snapshots == old(d.disk).snapshots
    ensures Guarded(old(c.s), c.s, plan.remote)
    ensures c.requests == old(c.requests) + sent && EachOnce(sent, Changed(plan.remote, LocalDigest(d.disk)))
    ensures r.Err? ==> r.error.plan.None?
    ensures playing || r.Err? ==> old(d.disk).journal.Some? ==> d.disk.journal.Some?
    ensures r.Ok? ==> Synchronised(old(c.s), c.s, d.disk)
    ensures r.Ok? && playing ==> InPlay(d.disk, LocalDigest(d.disk))
    ensures r.Ok? && !playing ==> d.disk.journal.None?
    ensures !choice.TakeCloud? ==> d.disk.raw == old(d.disk).raw
    ensures r.Ok? && choice.TakeCloud? ==> LocalDigest(d.disk) == plan.remote && sent == []
  {
    hide Good, History, Linked, Was, WasSince, LoadBaseline, Guarded, Settled, Silent, Receipted, Later, Changed, EachOnce, Validated;
    sent := [];
    ghost var a := d.disk;
    IdleFromStart(c.s, plan.remote);
    EachOnceFromNone(plan.remote, LocalDigest(d.disk));
    if choice.TakeCloud? {
      var imported := Import(d, c, plan, TakeCloud);
      EachOnceFromNone(plan.remote, LocalDigest(d.disk));
      if imported.Err? {
        return imported, sent;
      }
    }
    var current;
    match record {
      case Some(x) => current := x;
      case None =>
        var begun := Begin(d, c, plan.snapshot);
        EachOnceFromNone(plan.remote, LocalDigest(d.disk));
        if begun.Err? {
          return Err(begun.error), sent;
        }
        current := begun.value;
    }
    r, sent := Finish(d, c, current, plan.remote, playing, limit);
    if choice.TakeCloud? {
      NothingToSend(sent, plan.remote);
    }
  }

  /** Both sides are what the review compared. */
  predicate OnThis(review: Review, a: Disk, seen: Digest) {
    review.plan.remote == seen && review.plan.localRaw == a.raw
  }

  /** Both sides are what the review compared; taking the cloud gives its content, otherwise the save stays. */
  predicate Followed(review: Review, a: Disk, b: Disk, seen: Digest) {
    && OnThis(review, a, seen)
    && (if review.choice.TakeCloud? then LocalDigest(b) == seen else b.raw == a.raw)
  }

  datatype View = View(plan: Plan, baseline: Option<Digest>, record: Option<Record>)

  /** A view compares the disk with snapshot `id`. */
  predicate Shows(view: View, d: Disk, id: Id) {
    && id in d.snapshots
    && LoadBaseline(d) == Ok(view.baseline)
    && view.plan == PlanFor(d.raw, id, d.snapshots[id], view.baseline)
    && view.record == d.journal
  }

  /** Download, and compare what was downloaded with the local save. */
  method Look(d: Device, c: Cloud) returns (r: Result<View, Failure>)
    requires SystemOk(d, c) && Settled(c.s)
    modifies d, c`s
    ensures SystemOk(d, c) && old(d.history) <= d.history && Settled(c.s)
    ensures Later(old(c.s), c.s)
    ensures d.disk.raw == old(d.disk).raw && d.disk.journal == old(d.disk).journal && d.disk.offline == old(d.disk).offline
    ensures LoadBaseline(d.disk) == LoadBaseline(old(d.disk))
    ensures r.Ok? ==> Shows(r.value, d.disk, r.value.plan.snapshot)
    ensures r.Ok? ==> Saw(old(d.disk), old(c.s), d.disk, c.s, r.value.plan.snapshot)
  {
    hide Good, History, Linked, Was, WasSince, LoadBaseline, Settled, Later, PlanFor;
    ghost var a, start := d.disk, c.s;
    SettledSays(start);
    var snap := Fetch(d, c);
    SettledStays(start, c.s);
    if snap.Err? {
      return Err(snap.error);
    }
    var baseline :- Baseline(d);
    var plan :- d.Prepare(snap.value, baseline);
    PlanNamesSnapshot(d.disk.raw, snap.value, d.disk.snapshots[snap.value], baseline);
    var record :- Session.Load(d);
    return Ok(View(plan, baseline, record));
  }

  lemma PlanNamesSnapshot(raw: Raw, id: Id, manifest: Containers, baseline: Option<Digest>)
    ensures PlanFor(raw, id, manifest, baseline).snapshot == id
    ensures PlanFor(raw, id, manifest, baseline).remote == ContentOf(manifest)
    ensures PlanFor(raw, id, manifest, baseline).localRaw == raw
  {
  }

  lemma QuietWrite(s: Server, t: Server)
    requires Settled(s) && Later(s, t)
    ensures Silent(s, t)
  {
  }

  lemma SinceEarlier(start: Server, u: Server, s: Server, d: Digest)
    requires start.log <= u.log
    ensures WasSince(u, s, d) ==> WasSince(start, s, d)
  {
  }

  lemma QuietTwice(s: Server, t: Server, u: Server)
    requires Silent(s, t) && Silent(t, u)
    ensures Silent(s, u)
  {
    assert forall k | 0 <= k < |t.log| :: u.log[k] == t.log[k];
  }

  /**
   * Before the game starts. `seen` is the snapshot taken by this call. Without a review
   * the cloud is never written.
   */
  method Before(d: Device, c: Cloud, binding: Policy.Binding, review: Option<Review>, limit: nat)
    returns (r: Result<(), Attention>, ghost sent: seq<Name>, ghost seen: Option<Id>)
    requires SystemOk(d, c) && Settled(c.s)
    modifies d, c
    ensures SystemOk(d, c) && old(d.history) <= d.history
    ensures c.requests == old(c.requests) + sent
    // Whatever was overwritten had the digest of the snapshot taken in this call.
    ensures seen.None? ==> sent == [] && Later(old(c.s), c.s)
    ensures seen.Some? ==> Saw(old(d.disk), old(c.s), d.disk, c.s, seen.value)
    ensures seen.Some? ==> Guarded(old(c.s), c.s, ContentOf(d.disk.snapshots[seen.value]))
    ensures review.None? ==> sent == [] && Silent(old(c.s), c.s)
    ensures review.Some? && !(seen.Some? && OnThis(review.value, old(d.disk), ContentOf(d.disk.snapshots[seen.value]))) ==>
              sent == [] && Silent(old(c.s), c.s)
    ensures old(d.disk).journal.Some? ==> d.disk.journal.Some?
    // A session starts with a journal that names the local save and what the cloud held.
    ensures r.Ok? ==> seen.Some?
    ensures r.Ok? && review.None? ==> InPlay(d.disk, ContentOf(d.disk.snapshots[seen.value]))
    ensures r.Ok? && review.None? && old(d.disk).journal.None? ==>
              && LoadBaseline(old(d.disk)).Ok?
              && PolicyFor(binding, old(d.disk), ContentOf(d.disk.snapshots[seen.value])).target
                 == Policy.Offer(binding, LocalDigest(d.disk))
    ensures r.Ok? && review.Some? ==> InPlay(d.disk, LocalDigest(d.disk)) && Synchronised(old(c.s), c.s, d.disk)
    // What the journal, the policy or the offline mark does not allow stops the session.
    ensures review.None? && old(d.disk).journal.Some? && r.Ok? ==>
              d.disk.raw == old(d.disk).raw
              && !Contradicts(old(d.disk).journal.value, old(d.disk), ContentOf(d.disk.snapshots[seen.value]))
    ensures review.None? && old(d.disk).journal.None? && r.Ok? ==>
              !NeverCompared(old(d.disk), ContentOf(d.disk.snapshots[seen.value]))
    // A review is only carried out as it was given, on the comparison it was given for.
    ensures r.Ok? && review.Some? ==> Followed(review.value, old(d.disk), d.disk, ContentOf(d.disk.snapshots[seen.value]))
    ensures r.Ok? && review.Some? && review.value.choice.TakeCloud? ==> sent == []
    ensures r.Err? && r.error.plan.Some? ==> sent == [] && d.disk.raw == old(d.disk).raw && d.disk.journal == old(d.disk).journal
  {
    hide Good, History, Linked, Was, WasSince, LoadBaseline, Guarded, Settled, Silent, Receipted, Later, Changed, EachOnce, Validated,
         Policy.Decided, Decisions, ContentOf, LocalDigest, WithSnapshot, Contradicts, NeverCompared;
    sent, seen := [], None;
    ghost var a, start := d.disk, c.s;
    var looked := Look(d, c);
    if looked.Err? {
      QuietWrite(start, c.s);
      return Err(Attention(looked.error, None)), sent, seen;
    }
    var view := looked.value;
    var plan := view.plan;
    seen := Some(plan.snapshot);
    ghost var b, u := d.disk, c.s;
    QuietWrite(start, u);
    LaterExtends(start, u);
    if review.Some? {
      if !StillTrue(plan, review.value.plan) {
        IdleIsGuarded(start, u, plan.remote);
        return Err(ConflictOver(plan)), sent, seen;
      }
      r, sent := Settle(d, c, view.record, plan, review.value.choice, true, limit);
      SinceEarlier(start, u, c.s, LocalDigest(d.disk));
    } else if view.record.Some? {
      SameComparison(a, b, plan.remote);
      r, sent := Resume(d, c, view.record.value, plan, limit);
      GuardedExtends(u, c.s, plan.remote);
      QuietTwice(start, u, c.s);
    } else {
      IdleFromStart(u, plan.remote);
      SamePolicy(binding, a, b, plan.remote);
      SameComparison(a, b, plan.remote);
      r := Start(d, c, binding, plan, view.baseline);
    }
    GuardedSooner(start, u, c.s, plan.remote);
    GuardedExtends(u, c.s, plan.remote);
    SawStays(a, start, b, u, plan.snapshot, d.disk, c.s);
  }

  /**
   * After the game ended. Without a review, the cloud is only overwritten if it still holds
   * what the session started from; anything else that differs is reported.
   */
  method After(d: Device, c: Cloud, binding: Policy.Binding, expectedBinding: Option<Policy.Binding>,
               review: Option<Review>, limit: nat)
    returns (r: Result<(), Attention>, ghost sent: seq<Name>, ghost seen: Option<Id>)
    requires SystemOk(d, c) && Settled(c.s)
    modifies d, c
    ensures SystemOk(d, c) && old(d.history) <= d.history
    ensures c.requests == old(c.requests) + sent
    // Whatever was overwritten had the digest of the snapshot taken in this call.
    ensures seen.None? ==> sent == [] && Later(old(c.s), c.s)
    ensures seen.Some? ==> Saw(old(d.disk), old(c.s), d.disk, c.s, seen.value)
    ensures seen.Some? ==> Guarded(old(c.s), c.s, ContentOf(d.disk.snapshots[seen.value]))
    // Without a review that is what the session started from; a third content is a conflict.
    ensures review.None? ==> d.disk.raw == old(d.disk).raw
    ensures review.None? && !(old(d.disk).journal.Some? && seen.Some?
                             && ContentOf(d.disk.snapshots[seen.value]) == old(d.disk).journal.value.beforeRemote) ==>
              sent == [] && Silent(old(c.s), c.s)
    ensures review.None? && seen.Some? && old(d.disk).journal.Some?
            && ContentOf(d.disk.snapshots[seen.value]) !in {old(d.disk).journal.value.beforeRemote, LocalDigest(old(d.disk))} ==>
              r.Err? && r.error.plan.Some? && Silent(old(c.s), c.s)
    ensures review.Some? && !(seen.Some? && OnThis(review.value, old(d.disk), ContentOf(d.disk.snapshots[seen.value]))) ==>
              sent == [] && Silent(old(c.s), c.s)
    ensures r.Err? && r.error.plan.Some? ==> sent == [] && d.disk.raw == old(d.disk).raw
    ensures r.Ok? && review.Some? && seen.Some? ==> Followed(review.value, old(d.disk), d.disk, ContentOf(d.disk.snapshots[seen.value]))
    ensures r.Ok? && review.Some? && review.value.choice.TakeCloud? ==> sent == []
    // The session ends only when local save, baseline and cloud agree.
    ensures d.disk.journal.None? ==> old(d.disk).journal.None? || r.Ok?
    ensures r.Ok? ==> old(d.disk).journal.Some? && d.disk.journal.None? && Synchronised(old(c.s), c.s, d.disk)
    ensures expectedBinding.Some? && expectedBinding.value != binding ==>
              r.Err? && d.disk == old(d.disk) && c.s == old(c.s)
  {
    hide Good, History, Linked, Was, WasSince, LoadBaseline, Guarded, Settled, Silent, Receipted, Later, Changed, EachOnce, Validated,
         Policy.Decided, Decisions, ContentOf, LocalDigest, WithSnapshot;
    sent, seen := [], None;
    ghost var a, start := d.disk, c.s;
    if expectedBinding.Some? && expectedBinding.value != binding {
      SettledIsLater(start);
      QuietWrite(start, start);
      return Err(Stop(InvalidScope)), sent, seen;
    }
    var looked := Look(d, c);
    QuietWrite(start, c.s);
    if looked.Err? {
      return Err(Attention(looked.error, None)), sent, seen;
    }
    var view := looked.value;
    var plan := view.plan;
    ghost var b, u := d.disk, c.s;
    LaterExtends(start, u);
    SameLocal(a, b);
    if view.record.None? {
      return Err(Stop(InvalidScope)), sent, seen;
    }
    seen := Some(plan.snapshot);
    var record := view.record.value;
    IdleIsGuarded(start, u, plan.remote);
    if review.Some? {
      if !StillTrue(plan, review.value.plan) {
        return Err(ConflictOver(plan)), sent, seen;
      }
      r, sent := Settle(d, c, view.record, plan, review.value.choice, false, limit);
    } else if plan.remote != record.beforeRemote && plan.remote != LocalDigest(d.disk) {
      return Err(ConflictOver(plan)), sent, seen;
    } else {
      r, sent := Finish(d, c, record, plan.remote, false, limit);
      SameLocal(b, d.disk);
      if plan.remote != record.beforeRemote {
        NothingToSend(sent, plan.remote);
        NothingDiffers(plan.remote);
        QuietTwice(start, u, c.s);
      }
    }
    SinceEarlier(start, u, c.s, LocalDigest(d.disk));
    GuardedSooner(start, u, c.s, plan.remote);
    GuardedExtends(u, c.s, plan.remote);
    SawStays(a, start, b, u, plan.snapshot, d.disk, c.s);
  }

  lemma SettledIsLater(s: Server)
    requires Settled(s)
    ensures Later(s, s)
  {
    LaterIsReflexive(s);
  }

  lemma SameLocal(a: Disk, b: Disk)
    requires a.raw == b.raw
    ensures LocalDigest(a) == LocalDigest(b)
  {
  }

  // ----- Whole runs -----------------------------------------------------------------------

  /**
   * One call before or after a session, by reference to what is on record: its review, the
   * moments of the disk's history at which it began and ended, the snapshot it took, and
   * which of the service's accepted writes fall into it.
   */
  datatype Call = Call(after: bool, review: Option<Review>, from_: nat, to: nat, snapshot: Option<Id>, first: nat, end: nat)

  /** The call is in the history, and its snapshot was stored between its beginning and its end. */
  ghost predicate OnRecord(h: seq<Moment>, call: Call) {
    && call.from_ <= call.to < |h|
    && (call.snapshot.Some? ==>
          && call.from_ < call.to
          && h[call.from_].disk.next <= call.snapshot.value
          && call.snapshot.value in h[call.to].disk.snapshots)
  }

  /** The digest of the snapshot the call took. */
  ghost function Seen(h: seq<Moment>, call: Call): Option<Digest>
    requires OnRecord(h, call)
  {
    if call.snapshot.None? then None else Some(ContentOf(h[call.to].disk.snapshots[call.snapshot.value]))
  }

  /** What the journal stored when the call began expected the cloud to hold. */
  ghost function Begun(h: seq<Moment>, call: Call): Option<Digest>
    requires OnRecord(h, call)
  {
    var journal := h[call.from_].disk.journal;
    if journal.None? then None else Some(journal.value.beforeRemote)
  }

  /**
   * A call may write if it was given a review of exactly the snapshot and the save it found,
   * or if the session is over and the stored journal expected exactly the snapshot.
   */
  ghost predicate Licensed(h: seq<Moment>, call: Call)
    requires OnRecord(h, call)
  {
    && Seen(h, call).Some?
    && match call.review
       case Some(review) => OnThis(review, h[call.from_].disk, Seen(h, call).value)
       case None => call.after && Begun(h, call) == Seen(h, call)
  }

  /** This was the cloud's content at some time between these writes. */
  ghost predicate HeldBetween(s: Server, first: nat, end: nat, content: Digest) {
    exists m: nat :: first <= m <= end && m <= |s.log| && ContentOf(ContentAt(s, m)) == content
  }

  /** Write `k` continues an unbroken run of our writes that began, no earlier than write `first`, on this content. */
  ghost predicate Continues(s: Server, first: nat, content: Digest, k: nat)
    requires k < |s.log|
  {
    exists b: nat | first <= b <= k :: ContentOf(ContentAt(s, b)) == content && forall j | b <= j <= k :: s.log[j].ours
  }

  /** Write `k` falls into this call, which may write, and continues from the content it downloaded. */
  ghost predicate Explains(s: Server, h: seq<Moment>, call: Call, k: nat)
    requires k < |s.log|
  {
    && OnRecord(h, call) && Licensed(h, call)
    && call.first <= k < call.end && Continues(s, call.first, Seen(h, call).value, k)
  }

  ghost predicate Explained(s: Server, h: seq<Moment>, calls: seq<Call>, k: nat)
    requires k < |s.log|
  {
    exists i :: 0 <= i < |calls| && Explains(s, h, calls[i], k)
  }

  /** A call is on record, and what it saw was the cloud's content while it ran. */
  ghost predicate Sound(s: Server, h: seq<Moment>, call: Call) {
    && OnRecord(h, call) && call.first <= call.end <= |s.log|
    && (Seen(h, call).Some? ==> HeldBetween(s, call.first, call.end, Seen(h, call).value))
  }

  /** The calls so far, one after the other, and each of our writes explained by the one it falls into. */
  ghost predicate Ledger(s: Server, h: seq<Moment>, calls: seq<Call>) {
    && (forall i | 0 <= i < |calls| :: Sound(s, h, calls[i]))
    && (forall i, j | 0 <= i < j < |calls| :: calls[i].end <= calls[j].first && calls[i].to <= calls[j].from_)
    && forall k: nat | k < |s.log| && s.log[k].ours :: Explained(s, h, calls, k)
  }

  lemma ContinuesStays(s: Server, t: Server, first: nat, content: Digest, k: nat)
    requires k < |s.log| && s.origin == t.origin && s.log <= t.log && Continues(s, first, content, k)
    ensures Continues(t, first, content, k)
  {
    var b: nat :| first <= b <= k && ContentOf(ContentAt(s, b)) == content && forall j | b <= j <= k :: s.log[j].ours;
    assert ContentAt(t, b) == ContentAt(s, b);
    assert forall j | b <= j <= k :: t.log[j] == s.log[j];
  }

  lemma HeldBetweenStays(s: Server, t: Server, first: nat, end: nat, content: Digest)
    requires s.origin == t.origin && s.log <= t.log && HeldBetween(s, first, end, content)
    ensures HeldBetween(t, first, end, content)
  {
    var m: nat :| first <= m <= end && m <= |s.log| && ContentOf(ContentAt(s, m)) == content;
    assert ContentAt(t, m) == ContentAt(s, m);
  }

  /** What is on record stays on record. */
  lemma RecordStays(h: seq<Moment>, g: seq<Moment>, call: Call)
    requires OnRecord(h, call) && h <= g
    ensures OnRecord(g, call) && Seen(g, call) == Seen(h, call) && Begun(g, call) == Begun(h, call)
    ensures Licensed(g, call) == Licensed(h, call)
  {
    assert g[call.from_] == h[call.from_] && g[call.to] == h[call.to];
  }

  lemma SoundStays(s: Server, h: seq<Moment>, t: Server, g: seq<Moment>, call: Call)
    requires Sound(s, h, call) && s.origin == t.origin && s.log <= t.log && h <= g
    ensures Sound(t, g, call)
  {
    hide HeldBetween, Seen;
    RecordStays(h, g, call);
    if Seen(h, call).Some? {
      HeldBetweenStays(s, t, call.first, call.end, Seen(h, call).value);
    }
  }

  lemma ExplainsStays(s: Server, h: seq<Moment>, t: Server, g: seq<Moment>, call: Call, k: nat)
    requires k < |s.log| && Explains(s, h, call, k) && s.origin == t.origin && s.log <= t.log && h <= g
    ensures Explains(t, g, call, k)
  {
    hide Continues;
    RecordStays(h, g, call);
    ContinuesStays(s, t, call.first, Seen(h, call).value, k);
  }

  /** Time passes without a write of ours. */
  lemma LedgerStays(s: Server, h: seq<Moment>, t: Server, g: seq<Moment>, calls: seq<Call>)
    requires Ledger(s, h, calls) && s.origin == t.origin && h <= g
    requires s.log <= t.log && NoneOfOurs(t, |s.log|, |t.log|)
    ensures Ledger(t, g, calls)
  {
    hide Sound, Explains;
    forall i | 0 <= i < |calls| ensures Sound(t, g, calls[i]) {
      SoundStays(s, h, t, g, calls[i]);
    }
    forall k: nat | k < |t.log| && t.log[k].ours ensures Explained(t, g, calls, k) {
      assert t.log[k] == s.log[k];
      var i :| 0 <= i < |calls| && Explains(s, h, calls[i], k);
      ExplainsStays(s, h, t, g, calls[i], k);
    }
  }

  /** One more call, whose writes it explains itself. */
  lemma LedgerGrows(s: Server, h: seq<Moment>, t: Server, g: seq<Moment>, calls: seq<Call>, call: Call)
    requires Ledger(s, h, calls) && s.origin == t.origin && s.log <= t.log && h <= g && |h| > 0
    requires call.first == |s.log| && call.end == |t.log| && call.from_ == |h| - 1 && Sound(t, g, call)
    requires forall k: nat | |s.log| <= k < |t.log| && t.log[k].ours :: Explains(t, g, call, k)
    ensures Ledger(t, g, calls + [call])
  {
    hide Explains;
    var all := calls + [call];
    forall i | 0 <= i < |all| ensures Sound(t, g, all[i]) {
      if i < |calls| {
        SoundStays(s, h, t, g, calls[i]);
      }
    }
    forall i, j | 0 <= i < j < |all| ensures all[i].end <= all[j].first && all[i].to <= all[j].from_ {
      assert Sound(s, h, calls[i]);
    }
    forall k: nat | k < |t.log| && t.log[k].ours ensures Explained(t, g, all, k) {
      if k < |s.log| {
        assert t.log[k] == s.log[k];
        var i :| 0 <= i < |calls| && Explains(s, h, calls[i], k);
        ExplainsStays(s, h, t, g, calls[i], k);
        assert all[i] == calls[i];
      } else {
        assert all[|calls|] == call && Explains(t, g, call, k);
      }
    }
  }

  /** What a call leaves behind on the service: writes within its guard, and none without a licence. */
  ghost predicate Conducted(start: Server, s: Server, seen: Option<Digest>, licensed: bool) {
    && start.origin == s.origin && start.log <= s.log && WellFormed(s)
    && (if seen.Some? then Guarded(start, s, seen.value) && WasSince(start, s, seen.value) else Silent(start, s))
    && (!licensed ==> Silent(start, s))
  }

  lemma SilentStays(start: Server, s: Server, t: Server)
    requires Silent(start, s) && Later(s, t)
    ensures Silent(start, t)
  {
    assert forall k | 0 <= k < |s.log| :: t.log[k] == s.log[k];
  }

  lemma ConductedStays(start: Server, s: Server, t: Server, seen: Option<Digest>, licensed: bool)
    requires Conducted(start, s, seen, licensed) && Later(s, t)
    ensures Conducted(start, t, seen, licensed)
  {
    hide Guarded, WasSince, Silent, Later;
    LaterExtends(s, t);
    if seen.Some? {
      GuardedStays(start, s, t, seen.value);
      WasSinceStays(start, s, t, seen.value);
    }
    if Silent(start, s) {
      SilentStays(start, s, t);
    }
  }

  /** A guarded write continues from what the guard expected. */
  lemma GuardedContinues(start: Server, t: Server, content: Digest, k: nat)
    requires Guarded(start, t, content) && |start.log| <= k < |t.log| && t.log[k].ours
    ensures Continues(t, |start.log|, content, k)
  {
    GuardedBuildsOn(start, t, content);
    assert BuiltOn(start, t, k, content);
  }

  lemma WasSinceIsBetween(start: Server, t: Server, content: Digest)
    requires WasSince(start, t, content)
    ensures HeldBetween(t, |start.log|, |t.log|, content)
  {
  }

  /** A call that keeps to its guard and its licence explains each of its writes. */
  lemma ConductedIsLedgered(start: Server, h: seq<Moment>, t: Server, g: seq<Moment>, calls: seq<Call>, call: Call)
    requires Ledger(start, h, calls) && h <= g && |h| > 0
    requires OnRecord(g, call) && Conducted(start, t, Seen(g, call), Licensed(g, call))
    requires call.first == |start.log| && call.end == |t.log| && call.from_ == |h| - 1
    ensures Ledger(t, g, calls + [call])
  {
    hide Ledger, Guarded, Continues, HeldBetween, WasSince, OnThis;
    if Seen(g, call).Some? {
      WasSinceIsBetween(start, t, Seen(g, call).value);
    }
    forall k: nat | |start.log| <= k < |t.log| && t.log[k].ours ensures Explains(t, g, call, k) {
      GuardedContinues(start, t, Seen(g, call).value, k);
    }
    LedgerGrows(start, h, t, g, calls, call);
  }

  /** After a call, the connection is closed: a late request is carried out or never will be. */
  method Close(d: Device, c: Cloud, ghost start: Server, ghost h: seq<Moment>, ghost calls: seq<Call>, ghost call: Call)
    returns (ghost more: seq<Call>)
    requires SystemOk(d, c) && Ledger(start, h, calls) && h <= d.history && |h| > 0
    requires call.from_ == |h| - 1 && OnRecord(d.history, call)
    requires Conducted(start, c.s, Seen(d.history, call), Licensed(d.history, call))
    modifies c`s
    ensures SystemOk(d, c) && Settled(c.s)
    ensures c.s.origin == old(c.s).origin && old(c.s).log <= c.s.log
    ensures more == calls + [call.(first := |start.log|, end := |c.s.log|)] && Ledger(c.s, d.history, more)
  {
    hide Linked, Receipted, Was, Later, Ledger, Guarded, Silent, WasSince, OnThis;
    ghost var u := c.s;
    c.Settle();
    LinkedStays(d.disk, u, c.s);
    ReceiptedStays(d.proofs, u, c.s);
    ghost var t :| Later(u, t) && c.s == t.(inFlight := None, stale := {});
    LaterExtends(u, t);
    ConductedStays(start, u, t, Seen(d.history, call), Licensed(d.history, call));
    ghost var closed := call.(first := |start.log|, end := |t.log|);
    ConductedIsLedgered(start, h, t, d.history, calls, closed);
    more := calls + [closed];
    SameLogLedger(t, c.s, d.history, more);
  }

  lemma SameLogLedger(s: Server, t: Server, h: seq<Moment>, calls: seq<Call>)
    requires Ledger(s, h, calls) && s.origin == t.origin && s.log == t.log
    ensures Ledger(t, h, calls)
  {
    LedgerStays(s, h, t, h, calls);
  }

  /** A comparison before or after a session, from connecting to closing. */
  method Connect(d: Device, c: Cloud, binding: Policy.Binding, after: bool, review: Option<Review>, ghost calls: seq<Call>)
    returns (ghost more: seq<Call>)
    requires SystemOk(d, c) && Settled(c.s) && Ledger(c.s, d.history, calls)
    modifies d, c
    ensures SystemOk(d, c) && Settled(c.s) && Ledger(c.s, d.history, more)
    ensures old(d.history) <= d.history && old(c.s).log <= c.s.log && old(c.s).origin == c.s.origin
    ensures |more| == |calls| + 1 && more[..|calls|] == calls
    ensures more[|calls|].review == review && more[|calls|].after == after
    ensures more[|calls|].from_ == |old(d.history)| - 1 && more[|calls|].to == |d.history| - 1
  {
    hide Good, History, Linked, Receipted, Was, WasSince, LoadBaseline, Guarded, Settled, Silent, Later, Ledger, Validated,
         PolicyFor, ContentOf, LocalDigest, WithSnapshot, Synchronised, Changed, Contradicts, NeverCompared, Followed, OnThis;
    ghost var h, start := d.history, c.s;
    LastMoment(d);
    UnusedNames(d);
    var limit: nat := *;
    ghost var sent, id;
    var r;
    if after {
      var expected: Option<Policy.Binding> := *;
      r, sent, id := After(d, c, binding, expected, review, limit);
    } else {
      r, sent, id := Before(d, c, binding, review, limit);
    }
    LastMoment(d);
    if id.Some? {
      GuardedExtends(start, c.s, ContentOf(d.disk.snapshots[id.value]));
    } else {
      LaterExtends(start, c.s);
      QuietWrite(start, c.s);
    }
    ghost var call := Call(after, review, |h| - 1, |d.history| - 1, id, 0, 0);
    assert d.history[|h| - 1] == h[|h| - 1];
    assert Conducted(start, c.s, Seen(d.history, call), Licensed(d.history, call));
    more := Close(d, c, start, h, calls, call);
  }

  lemma LastMoment(d: Device)
    requires d.Valid()
    ensures |d.history| > 0 && d.history[|d.history| - 1].disk == d.disk
  {
  }

  lemma UnusedNames(d: Device)
    requires d.Valid()
    ensures forall id | id in d.disk.snapshots :: id < d.disk.next
  {
    d.IsGood();
  }

  /** Anything else that can happen to a device and its cloud. */
  method OtherStep(d: Device, c: Cloud, ghost calls: seq<Call>)
    requires SystemOk(d, c) && Settled(c.s) && Ledger(c.s, d.history, calls)
    modifies d, c
    ensures SystemOk(d, c) && Settled(c.s) && Ledger(c.s, d.history, calls)
    ensures old(d.history) <= d.history && old(c.s).log <= c.s.log && old(c.s).origin == c.s.origin
  {
    hide Good, History, Linked, Receipted, Was, WasSince, LoadBaseline, Guarded, Settled, Silent, Later, Ledger, Validated,
         PolicyFor, ContentOf, LocalDigest, WithSnapshot, Rank;
    ghost var a, start, h := d.disk, c.s, d.history;
    SettledIsLater(start);
    if {
      case true =>
        // An import by hand.
        var looked := Look(d, c);
        if looked.Ok? {
          var choice: Choice := *;
          var imported := Import(d, c, looked.value.plan, choice);
        }
      case true =>
        var id: Id := *;
        var restored := d.Restore(id);
        SameTiesKeepLink(a, d.disk, c.s);
      case true =>
        var raw: Raw := *;
        d.Play(raw);
        PlayingKeepsTies(a, d.disk);
        SameTiesKeepLink(a, d.disk, c.s);
      case true =>
        var now: nat, held: set<Id>, left: set<Id>, snapshots: set<Id> := *, *, *, *;
        d.Prune(now, held, left, snapshots);
        PruningKeepsLink(a, d.disk, c.s);
      case true =>
        d.GoOffline();
        SameTiesKeepLink(a, d.disk, c.s);
      case true =>
        c.Interfere();
        LaterExtends(start, c.s);
        LinkedStays(d.disk, start, c.s);
        ReceiptedStays(d.proofs, start, c.s);
    }
    LaterExtends(start, c.s);
    SettledStays(start, c.s);
    SilentLedger(start, h, c.s, d.history, calls);
  }

  lemma SilentLedger(s: Server, h: seq<Moment>, t: Server, g: seq<Moment>, calls: seq<Call>)
    requires Ledger(s, h, calls) && s.origin == t.origin && Silent(s, t) && h <= g
    ensures Ledger(t, g, calls)
  {
    LedgerStays(s, h, t, g, calls);
  }

  lemma PlayingKeepsTies(a: Disk, b: Disk)
    requires b == a.(raw := b.raw)
    ensures SameTies(a, b)
  {
  }

  lemma PruningKeepsLink(a: Disk, b: Disk, s: Server)
    requires Linked(a, s)
    requires b.journal == a.journal && LoadBaseline(b) == LoadBaseline(a)
    requires forall id | id in b.snapshots :: id in a.snapshots && b.snapshots[id] == a.snapshots[id]
    ensures Linked(b, s)
  {
    forall id | id in b.snapshots ensures Was(s, ContentOf(b.snapshots[id])) {
      assert Was(s, ContentOf(a.snapshots[id]));
    }
  }

  /** The baseline was once the local save and once the cloud's content. */
  ghost predicate BaselineWasCommon(d: Device, c: Cloud)
    reads d, c
  {
    LoadBaseline(d.disk).Ok? && LoadBaseline(d.disk).value.Some? ==>
      var content := LoadBaseline(d.disk).value.value;
      Was(c.s, content) && exists k: nat :: k < |d.history| && LocalDigest(d.history[k].disk) == content
  }

  lemma CommonBaseline(d: Device, c: Cloud)
    requires SystemOk(d, c)
    ensures BaselineWasCommon(d, c)
  {
    if LoadBaseline(d.disk).Ok? && LoadBaseline(d.disk).value.Some? {
      BaselineWasLocal(d.history, |d.history| - 1);
    }
  }

  /** Without reviews: write `k` was made after a session whose stored journal expected what the call downloaded. */
  ghost predicate AsExpected(s: Server, h: seq<Moment>, calls: seq<Call>, k: nat)
    requires k < |s.log|
  {
    exists i :: 0 <= i < |calls| && OnRecord(h, calls[i]) && calls[i].after
                && Begun(h, calls[i]).Some? && Begun(h, calls[i]) == Seen(h, calls[i])
                && calls[i].first <= k < calls[i].end && Continues(s, calls[i].first, Begun(h, calls[i]).value, k)
  }

  lemma NoReviewNoSurprise(s: Server, h: seq<Moment>, calls: seq<Call>)
    requires Ledger(s, h, calls) && forall i | 0 <= i < |calls| :: calls[i].review.None?
    ensures forall k: nat | k < |s.log| && s.log[k].ours :: AsExpected(s, h, calls, k)
  {
    hide Continues, Sound;
    forall k: nat | k < |s.log| && s.log[k].ours ensures AsExpected(s, h, calls, k) {
      assert Explained(s, h, calls, k);
    }
  }

  /** The ledger says something about the log: with neither a review nor a journal ever, there is no write of ours. */
  lemma NoLicenceNoWrite(s: Server, h: seq<Moment>, calls: seq<Call>)
    requires Ledger(s, h, calls)
    requires forall i | 0 <= i < |calls| :: calls[i].review.None?
    requires forall m | 0 <= m < |h| :: h[m].disk.journal.None?
    ensures NoneOfOurs(s, 0, |s.log|)
  {
    hide Continues, Sound;
    NoReviewNoSurprise(s, h, calls);
    assert forall k: nat :: k < |s.log| && s.log[k].ours ==> AsExpected(s, h, calls, k) ==> false;
  }

  /** Nor is there any without a snapshot, whatever was reviewed. */
  lemma NoSnapshotNoWrite(s: Server, h: seq<Moment>, calls: seq<Call>)
    requires Ledger(s, h, calls)
    requires forall m | 0 <= m < |h| :: h[m].disk.snapshots == map[]
    ensures NoneOfOurs(s, 0, |s.log|)
  {
    hide Continues, Sound;
    assert forall k: nat :: k < |s.log| && s.log[k].ours ==> Explained(s, h, calls, k) ==> false;
  }

  /**
   * Over every run, from a new device, with these reviews given to the calls in turn: what is
   * stored as cloud content was cloud content, everything stored can be read back, the
   * baseline was common to both sides, receipts stand for what the cloud had, and each of
   * our writes falls into a call on record that was allowed to write, and continues, within
   * that call, from the content of the snapshot the call took.
   */
  method AnyRun(d: Device, c: Cloud, binding: Policy.Binding, reviews: seq<Option<Review>>)
    returns (ghost calls: seq<Call>)
    requires d.Valid() && d.disk == BLANK && d.proofs == {} && Settled(c.s) && c.s.log == []
    modifies d, c
    ensures SystemOk(d, c) && Good(d.disk) && Settled(c.s)
    ensures BaselineWasCommon(d, c)
    ensures Ledger(c.s, d.history, calls)
    ensures |calls| <= |reviews| && forall i | 0 <= i < |calls| :: calls[i].review == reviews[i]
    ensures (forall i | 0 <= i < |reviews| :: reviews[i].None?) ==>
              forall k: nat | k < |c.s.log| && c.s.log[k].ours :: AsExpected(c.s, d.history, calls, k)
  {
    hide Settled, Ledger, Was, Good, History, Later, Linked, LoadBaseline, AsExpected;
    NothingYetLinked(c.s);
    SettledSays(c.s);
    NothingYetLedgered(c.s, d.history);
    calls := [];
    var next := 0;
    var steps: nat := *;
    while steps > 0
      invariant SystemOk(d, c) && Settled(c.s) && Ledger(c.s, d.history, calls)
      invariant next == |calls| <= |reviews| && forall i | 0 <= i < |calls| :: calls[i].review == reviews[i]
    {
      if {
        case next < |reviews| =>
          var after: bool := *;
          ghost var more := Connect(d, c, binding, after, reviews[next], calls);
          assert forall i | 0 <= i < |calls| :: more[i] == more[..|calls|][i];
          calls := more;
          next := next + 1;
        case true =>
          OtherStep(d, c, calls);
      }
      steps := steps - 1;
    }
    d.IsGood();
    CommonBaseline(d, c);
    if forall i | 0 <= i < |reviews| :: reviews[i].None? {
      NoReviewNoSurprise(c.s, d.history, calls);
    }
  }

  lemma NothingYetLinked(s: Server)
    ensures Linked(BLANK, s)
  {
  }

  lemma NothingYetLedgered(s: Server, h: seq<Moment>)
    requires s.log == []
    ensures Ledger(s, h, [])
  {
  }
}
