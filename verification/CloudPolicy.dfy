// The three-way comparison of local saves, cloud saves and the common baseline
// (native/cloud_policy.rs). A decision authorises nothing by itself.

module CloudPolicy {
  import opened Prelude
  import opened SaveState

  type Binding = string

  /** An account binding and, for each container, the digest of its content. */
  datatype SaveSet = SaveSet(binding: Binding, containers: Digest)

  datatype Action = Noop | ImportCloud | UploadLocal | Merge | Conflict | Blocked

  datatype Reason =
    | DifferentScope | LocalUnavailable | RemoteUnavailable | AlreadyEqual | FirstLocal | FirstCloud
    | Diverged | Bounds | RemoteChanged | LocalChanged | IndependentChanges

  datatype Source = Local | Cloud

  datatype Selection = Selection(source: Source, digest: Option<Entry>)

  datatype Decision = Decision(
    action: Action,
    reason: Reason,
    target: Option<SaveSet>,
    selections: map<Name, Selection>,
    conflicts: set<Name>,
    backupRequired: bool,
    baselineRequired: bool)

  function Plain(action: Action, reason: Reason): Decision {
    Decision(action, reason, None, map[], {}, false, false)
  }

  // ----- What a three-way merge means ------------------------------------------

  /** Both sides left the common value, for different values. */
  predicate Clash(a: Option<Entry>, b: Option<Entry>, o: Option<Entry>) {
    a != b && a != o && b != o
  }

  /** The value that keeps whichever side changed. */
  function Kept(a: Option<Entry>, b: Option<Entry>, o: Option<Entry>): Option<Entry> {
    if a == o then b else a
  }

  function Names(l: Digest, r: Digest, o: Digest): set<Name> {
    l.Keys + r.Keys + o.Keys
  }

  function Clashes(l: Digest, r: Digest, o: Digest): set<Name> {
    set n | n in Names(l, r, o) && Clash(Get(l, n), Get(r, n), Get(o, n))
  }

  function Merged(l: Digest, r: Digest, o: Digest): Digest {
    map n | n in Names(l, r, o) && Kept(Get(l, n), Get(r, n), Get(o, n)).Some?
      :: Kept(Get(l, n), Get(r, n), Get(o, n)).value
  }

  lemma MergedAt(l: Digest, r: Digest, o: Digest, n: Name)
    ensures Get(Merged(l, r, o), n) == Kept(Get(l, n), Get(r, n), Get(o, n))
  {
  }

  lemma ClashAt(l: Digest, r: Digest, o: Digest, n: Name)
    ensures n in Clashes(l, r, o) <==> Clash(Get(l, n), Get(r, n), Get(o, n))
  {
  }

  // ----- The decision -------------------------------------------------------------

  predicate ScopeMismatch(binding: Binding, s: Option<SaveSet>) {
    s.Some? && s.value.binding != binding
  }

  function SelectAll(names: set<Name>, source: Source, from: Digest): map<Name, Selection> {
    map n | n in names :: Selection(source, Get(from, n))
  }

  /** The three-way part for two sides that differ from each other. */
  function ThreeWay(binding: Binding, l: Digest, r: Digest, o: Digest): Decision {
    if Clashes(l, r, o) != {} then
      Plain(Conflict, Diverged).(conflicts := Clashes(l, r, o))
    else if |Merged(l, r, o)| > CONTAINER_LIMIT then
      Plain(Blocked, Bounds)
    else
      var t := Merged(l, r, o);
      var (action, reason) :=
        if t == r then (ImportCloud, RemoteChanged)
        else if t == l then (UploadLocal, LocalChanged)
        else (Merge, IndependentChanges);
      Decision(action, reason, Some(SaveSet(binding, t)),
               map n | n in Names(l, r, o) :: Picked(Get(l, n), Get(r, n), Get(o, n)),
               {}, true, true)
  }

  function Picked(a: Option<Entry>, b: Option<Entry>, o: Option<Entry>): Selection {
    if a == b then Selection(Local, a)
    else if a == o then Selection(Cloud, b)
    else Selection(Local, a)
  }

  function Decided(binding: Binding, local: Option<SaveSet>, remote: Option<SaveSet>,
                   baseline: Option<SaveSet>): Decision {
    if ScopeMismatch(binding, local) || ScopeMismatch(binding, remote) || ScopeMismatch(binding, baseline) then
      Plain(Blocked, DifferentScope)
    else if local.None? then Plain(Blocked, LocalUnavailable)
    else if remote.None? then Plain(Blocked, RemoteUnavailable)
    else
      var l, r := local.value.containers, remote.value.containers;
      var names := Names(l, r, if baseline.Some? then baseline.value.containers else map[]);
      if l == r then
        Decision(Noop, AlreadyEqual, local, SelectAll(names, Local, l), {}, false,
                 baseline.None? || baseline.value.containers != l)
      else if baseline.None? then
        if r == map[] then
          Decision(UploadLocal, FirstLocal, local, SelectAll(names, Local, l), {}, true, true)
        else
          Decision(ImportCloud, FirstCloud, remote, SelectAll(names, Cloud, r), {}, true, true)
      else
        ThreeWay(binding, l, r, baseline.value.containers)
  }

  /** The comparison as the launcher performs it, filling its tables name by name. */
  method Decide(binding: Binding, local: Option<SaveSet>, remote: Option<SaveSet>,
                baseline: Option<SaveSet>) returns (d: Decision)
    ensures d == Decided(binding, local, remote, baseline)
  {
    if ScopeMismatch(binding, local) || ScopeMismatch(binding, remote) || ScopeMismatch(binding, baseline) {
      return Plain(Blocked, DifferentScope);
    }
    if local.None? {
      return Plain(Blocked, LocalUnavailable);
    }
    if remote.None? {
      return Plain(Blocked, RemoteUnavailable);
    }
    var left, right := local.value.containers, remote.value.containers;
    if left == right {
      var all := Names(left, right, if baseline.Some? then baseline.value.containers else map[]);
      return Decision(Noop, AlreadyEqual, local, SelectAll(all, Local, left), {}, false,
                      baseline.None? || baseline.value.containers != left);
    }
    if baseline.None? {
      if right == map[] {
        return Decision(UploadLocal, FirstLocal, local,
                        SelectAll(Names(left, right, map[]), Local, left), {}, true, true);
      }
      return Decision(ImportCloud, FirstCloud, remote,
                      SelectAll(Names(left, right, map[]), Cloud, right), {}, true, true);
    }
    d := MergeByName(binding, left, right, baseline.value.containers);
  }

  /** The tables the merge fills: names in conflict, the merged set, and where each name came from. */
  datatype Tables = Tables(conflicts: set<Name>, target: Digest, selections: map<Name, Selection>)

  /** What the tables say about one name. */
  ghost predicate Settled(n: Name, a: Option<Entry>, b: Option<Entry>, o: Option<Entry>, t: Tables) {
    if Clash(a, b, o) then
      n in t.conflicts && n !in t.target && n !in t.selections
    else
      n !in t.conflicts && Get(t.target, n) == Kept(a, b, o) && Get(t.selections, n) == Some(Picked(a, b, o))
  }

  ghost predicate AllSettled(names: set<Name>, l: Digest, r: Digest, o: Digest, t: Tables) {
    && t.conflicts <= names && t.target.Keys <= names && t.selections.Keys <= names
    && forall n :: n in names ==> Settled(n, Get(l, n), Get(r, n), Get(o, n), t)
  }

  function Enter(t: Tables, n: Name, a: Option<Entry>, b: Option<Entry>, previous: Option<Entry>): Tables {
    if a != b && a != previous && b != previous then
      t.(conflicts := t.conflicts + {n})
    else
      var picked := if a != b && a == previous then Selection(Cloud, b) else Selection(Local, a);
      Tables(t.conflicts,
             if picked.digest.Some? then t.target[n := picked.digest.value] else t.target,
             t.selections[n := picked])
  }

  lemma NothingSettled(l: Digest, r: Digest, o: Digest)
    ensures AllSettled({}, l, r, o, Tables({}, map[], map[]))
  {
  }

  /** Entering one more name keeps what the tables say about the earlier ones. */
  lemma EntrySettles(done: set<Name>, n: Name, l: Digest, r: Digest, o: Digest, t: Tables)
    requires AllSettled(done, l, r, o, t)
    requires n !in done
    ensures AllSettled(done + {n}, l, r, o, Enter(t, n, Get(l, n), Get(r, n), Get(o, n)))
  {
    var t' := Enter(t, n, Get(l, n), Get(r, n), Get(o, n));
    assert n !in t.conflicts && n !in t.target && n !in t.selections;
    forall m | m in done ensures Settled(m, Get(l, m), Get(r, m), Get(o, m), t') {
      assert Settled(m, Get(l, m), Get(r, m), Get(o, m), t);
    }
    assert Settled(n, Get(l, n), Get(r, n), Get(o, n), t');
  }

  lemma TablesAreTheMerge(l: Digest, r: Digest, o: Digest, t: Tables)
    requires AllSettled(Names(l, r, o), l, r, o, t)
    ensures t.conflicts == Clashes(l, r, o)
    ensures t.conflicts == {} ==> t.target == Merged(l, r, o)
    ensures t.conflicts == {} ==>
              t.selections == map n | n in Names(l, r, o) :: Picked(Get(l, n), Get(r, n), Get(o, n))
  {
    var names := Names(l, r, o);
    forall n | n in names ensures n in t.conflicts <==> n in Clashes(l, r, o) {
      assert Settled(n, Get(l, n), Get(r, n), Get(o, n), t);
    }
    if t.conflicts == {} {
      forall n ensures Get(t.target, n) == Get(Merged(l, r, o), n) {
        if n in names {
          assert Settled(n, Get(l, n), Get(r, n), Get(o, n), t);
        }
      }
      MapsAgree(t.target, Merged(l, r, o));
      var picked := map n | n in names :: Picked(Get(l, n), Get(r, n), Get(o, n));
      forall n ensures Get(t.selections, n) == Get(picked, n) {
        if n in names {
          assert Settled(n, Get(l, n), Get(r, n), Get(o, n), t);
        }
      }
      MapsAgree(t.selections, picked);
    }
  }

  /** The three-way part, filling its tables name by name. */
  method MergeByName(binding: Binding, left: Digest, right: Digest, base: Digest) returns (d: Decision)
    ensures d == ThreeWay(binding, left, right, base)
  {
    hide Merged, Clashes, Enter, AllSettled, Kept;
    var todo := Names(left, right, base);
    NothingSettled(left, right, base);
    var tables := Tables({}, map[], map[]);
    ghost var done: set<Name> := {};
    while todo != {}
      invariant done !! todo && done + todo == Names(left, right, base)
      invariant AllSettled(done, left, right, base, tables)
      decreases todo
    {
      var name :| name in todo;
      EntrySettles(done, name, left, right, base, tables);
      tables := Enter(tables, name, Get(left, name), Get(right, name), Get(base, name));
      todo, done := todo - {name}, done + {name};
    }
    TablesAreTheMerge(left, right, base, tables);
    if tables.conflicts != {} {
      return Plain(Conflict, Diverged).(conflicts := tables.conflicts);
    }
    if |tables.target| > CONTAINER_LIMIT {
      return Plain(Blocked, Bounds);
    }
    var action, reason := Merge, IndependentChanges;
    if tables.target == right {
      action, reason := ImportCloud, RemoteChanged;
    } else if tables.target == left {
      action, reason := UploadLocal, LocalChanged;
    }
    d := Decision(action, reason, Some(SaveSet(binding, tables.target)), tables.selections, {}, true, true);
  }

  // ----- What the decision promises ----------------------------------------------

  function Offer(binding: Binding, d: Digest): Option<SaveSet> {
    Some(SaveSet(binding, d))
  }

  /** The decision for two available sides and a baseline of the same account. */
  function Compare(binding: Binding, l: Digest, r: Digest, o: Digest): Decision {
    Decided(binding, Offer(binding, l), Offer(binding, r), Offer(binding, o))
  }

  /** A conflict is reported exactly when some container was changed to two different values. */
  lemma ConflictIff(binding: Binding, l: Digest, r: Digest, o: Digest)
    ensures Compare(binding, l, r, o).action == Conflict <==>
            exists n :: Get(l, n) != Get(o, n) && Get(r, n) != Get(o, n) && Get(l, n) != Get(r, n)
    ensures Compare(binding, l, r, o).conflicts ==
            set n | n in l.Keys + r.Keys + o.Keys
                    && Get(l, n) != Get(o, n) && Get(r, n) != Get(o, n) && Get(l, n) != Get(r, n)
  {
    if n :| Clash(Get(l, n), Get(r, n), Get(o, n)) {
      assert n in Clashes(l, r, o);
    }
  }

  /** Without a conflict, the target keeps every change either side made, and invents nothing. */
  lemma TargetKeepsChanges(binding: Binding, l: Digest, r: Digest, o: Digest, n: Name)
    requires Compare(binding, l, r, o).target.Some?
    ensures var t := Compare(binding, l, r, o).target.value.containers;
            && (Get(l, n) != Get(o, n) ==> Get(t, n) == Get(l, n))
            && (Get(r, n) != Get(o, n) ==> Get(t, n) == Get(r, n))
            && (Get(l, n) == Get(o, n) == Get(r, n) ==> Get(t, n) == Get(o, n))
  {
    hide Merged, Clashes, Names;
    if l != r {
      MergedAt(l, r, o, n);
      ClashAt(l, r, o, n);
    }
  }

  /** Import and upload change places when the two sides do. */
  function Mirror(a: Action): Action {
    match a
    case ImportCloud => UploadLocal
    case UploadLocal => ImportCloud
    case _ => a
  }

  lemma MergeIsSymmetric(l: Digest, r: Digest, o: Digest)
    ensures Clashes(r, l, o) == Clashes(l, r, o)
    ensures Clashes(l, r, o) == {} ==> Merged(r, l, o) == Merged(l, r, o)
  {
    if Clashes(l, r, o) == {} {
      forall n ensures Get(Merged(r, l, o), n) == Get(Merged(l, r, o), n) {
        MergedAt(l, r, o, n);
        MergedAt(r, l, o, n);
        ClashAt(l, r, o, n);
      }
      MapsAgree(Merged(r, l, o), Merged(l, r, o));
    }
  }

  lemma SwapMirrors(binding: Binding, l: Digest, r: Digest, o: Digest)
    ensures var here, there := Compare(binding, l, r, o), Compare(binding, r, l, o);
            && there.action == Mirror(here.action)
            && there.target == here.target
            && there.conflicts == here.conflicts
  {
    hide Merged, Clashes, Names;
    MergeIsSymmetric(l, r, o);
  }

  lemma MergingTheMerge(l: Digest, r: Digest, o: Digest)
    requires Clashes(l, r, o) == {}
    ensures Clashes(Merged(l, r, o), r, o) == {}
    ensures Merged(Merged(l, r, o), r, o) == Merged(l, r, o)
  {
    var t := Merged(l, r, o);
    forall n ensures !Clash(Get(t, n), Get(r, n), Get(o, n)) && Get(Merged(t, r, o), n) == Get(t, n) {
      MergedAt(l, r, o, n);
      MergedAt(t, r, o, n);
      ClashAt(l, r, o, n);
    }
    MapsAgree(Merged(t, r, o), t);
  }

  /** Adopting the target on one side and comparing again asks for the same target. */
  lemma AdoptionIsStable(binding: Binding, l: Digest, r: Digest, o: Digest)
    requires Compare(binding, l, r, o).target.Some?
    ensures var t := Compare(binding, l, r, o).target.value.containers;
            && Compare(binding, t, r, o).target == Compare(binding, l, r, o).target
            && Compare(binding, t, r, o).action in {Noop, UploadLocal}
            && Compare(binding, t, t, o).action == Noop
  {
    hide Merged, Clashes, Names;
    if l != r {
      MergingTheMerge(l, r, o);
    }
  }

  /** Without a baseline a cloud that holds anything wins, and an empty cloud keeps the local saves. */
  lemma FirstSync(binding: Binding, l: Digest, r: Digest)
    ensures var d := Decided(binding, Offer(binding, l), Offer(binding, r), None);
            && d.target == Offer(binding, if r == map[] then l else r)
            && (d.action == UploadLocal <==> r == map[] && l != map[])
            && (d.action == ImportCloud <==> r != map[] && l != r)
            && d.action in {Noop, UploadLocal, ImportCloud}
  {
  }

  /** A side of another account, or one that could not be read, blocks instead of counting as empty. */
  lemma UnknownIsNeverEmpty(binding: Binding, local: Option<SaveSet>, remote: Option<SaveSet>,
                            baseline: Option<SaveSet>)
    ensures var d := Decided(binding, local, remote, baseline);
            && (local.None? || remote.None? ==> d.action == Blocked)
            && ((exists s :: s in {local, remote, baseline} && ScopeMismatch(binding, s)) ==>
                  d == Plain(Blocked, DifferentScope))
            && (d.target.Some? <==> d.action !in {Conflict, Blocked})
            && (d.target.Some? ==> d.target.value.binding == binding)
  {
  }
}
