// Downloading the listed containers into a snapshot, with or without a cache, and reading
// the snapshot back (native/cloud_storage.rs, native/cloud_cache.rs, native/cloud_import.rs).

module CloudDownload {
  import opened Prelude
  import opened SaveState
  import opened CloudInventory

  const QUOTA := 256 * 1024 * 1024
  const BLOB_BYTES := 64 * 1024 * 1024
  const BLOB_LIMIT := 65536

  datatype Atom = Atom(id: string, name: Name, size: Option<nat>)

  type Blobs = seq<(Atom, Payload)>

  /** What the service holds: the list, each container's atoms in order, and the payloads. */
  datatype Service = Service(rows: seq<Row>, atoms: map<string, seq<Atom>>, payloads: map<string, Payload>)

  datatype CachedContainer = CachedContainer(metadata: Row, blobs: Blobs)

  type Cache = map<string, CachedContainer>

  /** A line of the manifest; the hash is modelled by the payload it identifies. */
  datatype SavedBlob = SavedBlob(name: Name, atom: string, file: nat, size: nat, hash: Payload)

  datatype SavedContainer = SavedContainer(row: Row, blobs: seq<SavedBlob>)

  /** A snapshot: its manifest and its numbered payload files. */
  datatype Stored = Stored(manifest: seq<SavedContainer>, files: seq<Payload>)

  // ----- Downloading -----------------------------------------------------------------

  predicate Cached(cache: Cache, row: Row) {
    row.name in cache && cache[row.name].metadata == row
  }

  /** Atoms and payloads of one container, as read from the service. */
  function Fetched(service: Service, atoms: seq<Atom>): Option<Blobs> {
    if atoms == [] then Some([])
    else
      var init, last := Fetched(service, atoms[..|atoms| - 1]), atoms[|atoms| - 1];
      if init.None? || last.id !in service.payloads then None
      else Some(init.value + [(last, service.payloads[last.id])])
  }

  function Lower(id: string): string {
    seq(|id|, i requires 0 <= i < |id| => if 'A' <= id[i] <= 'Z' then id[i] - 'A' + 'a' else id[i])
  }

  /** Names occur once, and so do ids, whatever their case. */
  predicate DistinctAtoms(atoms: seq<Atom>) {
    forall i, j | 0 <= i < j < |atoms| :: atoms[i].name != atoms[j].name && Lower(atoms[i].id) != Lower(atoms[j].id)
  }

  function BlobsOf(service: Service, cache: Cache, row: Row): Option<Blobs> {
    if Cached(cache, row) then Some(cache[row.name].blobs)
    else if row.name !in service.atoms || !DistinctAtoms(service.atoms[row.name]) then None
    else Fetched(service, service.atoms[row.name])
  }

  /** Sizes that the service states are bounded; sizes in the cache are not looked at. */
  predicate Bounded(service: Service, cache: Cache, row: Row, limits: Limits) {
    Cached(cache, row) || row.name !in service.atoms || AtomsBounded(service.atoms[row.name], limits)
  }

  predicate AtomsBounded(atoms: seq<Atom>, limits: Limits) {
    forall i | 0 <= i < |atoms| && atoms[i].size.Some? :: atoms[i].size.value <= limits.blobBytes
  }

  datatype Progress = Progress(files: seq<Payload>, blobs: seq<SavedBlob>, total: nat, bytes: nat)

  function Most(atom: Atom, row: Row, bytes: nat, limits: Limits): nat {
    var left := if row.size > bytes then row.size - bytes else 0;
    if atom.size.Some? then atom.size.value else if left < limits.blobBytes then left else limits.blobBytes
  }

  /** Store one payload as the next file. */
  function AddBlob(p: Progress, atom: Atom, data: Payload, row: Row, limits: Limits): Option<Progress> {
    if (atom.size.Some? && atom.size.value != |data|) || |data| > Most(atom, row, p.bytes, limits)
       || p.total + |data| > limits.totalBytes then None
    else
      Some(Progress(p.files + [data], p.blobs + [SavedBlob(atom.name, atom.id, |p.files|, |data|, data)],
                    p.total + |data|, p.bytes + |data|))
  }

  function AddBlobs(p: Progress, blobs: Blobs, row: Row, limits: Limits): Option<Progress> {
    if blobs == [] then Some(p)
    else
      var init, last := AddBlobs(p, blobs[..|blobs| - 1], row, limits), blobs[|blobs| - 1];
      if init.None? then None else AddBlob(init.value, last.0, last.1, row, limits)
  }

  datatype Download = Download(stored: Stored, total: nat)

  function AddContainer(d: Download, row: Row, blobs: Blobs, limits: Limits): Option<Download> {
    if |d.stored.files| + |blobs| > limits.blobs then None
    else
      var p := AddBlobs(Progress(d.stored.files, [], d.total, 0), blobs, row, limits);
      if p.None? || p.value.bytes != row.size then None
      else Some(Download(Stored(d.stored.manifest + [SavedContainer(row, p.value.blobs)], p.value.files), p.value.total))
  }

  function AddContainers(service: Service, cache: Cache, rows: seq<Row>, limits: Limits): Option<Download> {
    if rows == [] then Some(Download(Stored([], []), 0))
    else
      var init, row := AddContainers(service, cache, rows[..|rows| - 1], limits), rows[|rows| - 1];
      if init.None? || BlobsOf(service, cache, row).None? || !Bounded(service, cache, row, limits) then None
      else AddContainer(init.value, row, BlobsOf(service, cache, row).value, limits)
  }

  /** Everything that was read a first time is the same when read again. */
  predicate Unchanged(service: Service, later: Service, cache: Cache) {
    && later.rows == service.rows
    && forall i | 0 <= i < |service.rows| && !Cached(cache, service.rows[i]) ::
         Get(later.atoms, service.rows[i].name) == Get(service.atoms, service.rows[i].name)
  }

  function Downloaded(service: Service, later: Service, cache: Cache, limits: Limits): Option<Stored> {
    var d := AddContainers(service, cache, service.rows, limits);
    if d.None? || !Unchanged(service, later, cache) then None else Some(d.value.stored)
  }

  // ----- A cache changes nothing -------------------------------------------------------

  /** Cached blobs are those of the service, with their sizes. */
  predicate SameBlobs(a: Blobs, b: Blobs) {
    |a| == |b| && forall i | 0 <= i < |a| ::
      a[i].0.id == b[i].0.id && a[i].0.name == b[i].0.name && a[i].1 == b[i].1 && a[i].0.size == Some(|a[i].1|)
  }

  /** An equal metadata row means equal atoms and payloads. */
  predicate Faithful(cache: Cache, service: Service) {
    forall i | 0 <= i < |service.rows| && Cached(cache, service.rows[i]) ::
      var row := service.rows[i];
      BlobsOf(service, map[], row).Some? ==> SameBlobs(cache[row.name].blobs, BlobsOf(service, map[], row).value)
  }

  lemma {:induction false} SameBlobsAdd(p: Progress, a: Blobs, b: Blobs, row: Row, limits: Limits)
    requires SameBlobs(a, b) && AddBlobs(p, b, row, limits).Some?
    ensures AddBlobs(p, a, row, limits) == AddBlobs(p, b, row, limits)
  {
    if a != [] {
      SameBlobsAdd(p, a[..|a| - 1], b[..|b| - 1], row, limits);
    }
  }

  lemma {:induction false} CachedAdds(service: Service, cache: Cache, k: nat, limits: Limits)
    requires k <= |service.rows| && Faithful(cache, service)
    requires AddContainers(service, map[], service.rows[..k], limits).Some?
    ensures AddContainers(service, cache, service.rows[..k], limits) == AddContainers(service, map[], service.rows[..k], limits)
  {
    if k > 0 {
      var row := service.rows[k - 1];
      assert service.rows[..k][..k - 1] == service.rows[..k - 1];
      CachedAdds(service, cache, k - 1, limits);
      if Cached(cache, row) {
        var before := AddContainers(service, map[], service.rows[..k - 1], limits).value;
        SameBlobsAdd(Progress(before.stored.files, [], before.total, 0), cache[row.name].blobs,
                     BlobsOf(service, map[], row).value, row, limits);
      }
    }
  }

  /** Whatever an uncached download would write, a cached one writes too. */
  lemma CacheIsTransparent(service: Service, later: Service, cache: Cache, limits: Limits)
    requires Faithful(cache, service)
    requires Downloaded(service, later, map[], limits).Some?
    ensures Downloaded(service, later, cache, limits) == Downloaded(service, later, map[], limits)
  {
    assert service.rows[..|service.rows|] == service.rows;
    CachedAdds(service, cache, |service.rows|, limits);
    assert forall i | 0 <= i < |service.rows| :: !Cached(map[], service.rows[i]);
  }

  /** Payloads that a download without the cache would accept: of the stated size, or else within the bound. */
  predicate Fits(blobs: Blobs, limits: Limits) {
    forall i | 0 <= i < |blobs| ::
      if blobs[i].0.size.Some? then blobs[i].0.size.value == |blobs[i].1| else |blobs[i].1| <= limits.blobBytes
  }

  /** The cached containers could as well be read from the service, and would still be the same afterwards. */
  predicate Refetchable(service: Service, later: Service, cache: Cache, limits: Limits) {
    forall i | 0 <= i < |service.rows| && Cached(cache, service.rows[i]) ::
      var row := service.rows[i];
      && BlobsOf(service, map[], row).Some? && Bounded(service, map[], row, limits)
      && Fits(BlobsOf(service, map[], row).value, limits)
      && Get(later.atoms, row.name) == Get(service.atoms, row.name)
  }

  lemma {:induction false} AddedBlobsFit(p: Progress, blobs: Blobs, row: Row, limits: Limits)
    requires AddBlobs(p, blobs, row, limits).Some?
    ensures Fits(blobs, limits)
  {
    if blobs != [] {
      var init, last := blobs[..|blobs| - 1], blobs[|blobs| - 1];
      AddedBlobsFit(p, init, row, limits);
      assert forall i | 0 <= i < |init| :: blobs[i] == init[i];
    }
  }

  /** A container whose blobs add up to its size is also stored when they are read afresh, if they fit. */
  lemma {:induction false} FittingBlobsAdd(p: Progress, a: Blobs, b: Blobs, row: Row, limits: Limits)
    requires SameBlobs(a, b) && Fits(b, limits)
    requires AddBlobs(p, a, row, limits).Some? && AddBlobs(p, a, row, limits).value.bytes <= row.size
    ensures AddBlobs(p, b, row, limits) == AddBlobs(p, a, row, limits)
  {
    if a != [] {
      FittingBlobsAdd(p, a[..|a| - 1], b[..|b| - 1], row, limits);
    }
  }

  lemma {:induction false} FreshAdds(service: Service, later: Service, cache: Cache, k: nat, limits: Limits)
    requires k <= |service.rows| && Faithful(cache, service) && Refetchable(service, later, cache, limits)
    requires AddContainers(service, cache, service.rows[..k], limits).Some?
    ensures AddContainers(service, map[], service.rows[..k], limits) == AddContainers(service, cache, service.rows[..k], limits)
  {
    if k > 0 {
      var row := service.rows[k - 1];
      assert service.rows[..k][..k - 1] == service.rows[..k - 1];
      FreshAdds(service, later, cache, k - 1, limits);
      if Cached(cache, row) {
        var before := AddContainers(service, cache, service.rows[..k - 1], limits).value;
        FittingBlobsAdd(Progress(before.stored.files, [], before.total, 0), cache[row.name].blobs,
                        BlobsOf(service, map[], row).value, row, limits);
      }
    }
  }

  /** Every container of an uncached download fits. */
  lemma DownloadedFits(service: Service, limits: Limits, i: nat)
    requires i < |service.rows| && AddContainers(service, map[], service.rows, limits).Some?
    ensures var row := service.rows[i];
            && BlobsOf(service, map[], row).Some? && Bounded(service, map[], row, limits)
            && Fits(BlobsOf(service, map[], row).value, limits)
  {
    hide BlobsOf, Bounded, Fits;
    var row, upTo := service.rows[i], service.rows[..i + 1];
    if AddContainers(service, map[], upTo, limits).None? {
      ContainersFail(service, map[], service.rows, i + 1, limits);
    }
    assert upTo[..i] == service.rows[..i] && upTo[i] == row;
    var before := AddContainers(service, map[], service.rows[..i], limits).value;
    AddedBlobsFit(Progress(before.stored.files, [], before.total, 0), BlobsOf(service, map[], row).value, row, limits);
  }

  /**
   * The other direction, exactly: an uncached download succeeds if and only if the cached
   * one does and the cached containers could be read again; and then both write the same.
   */
  lemma CacheIsExact(service: Service, later: Service, cache: Cache, limits: Limits)
    requires Faithful(cache, service)
    ensures Downloaded(service, later, map[], limits).Some? <==>
            Downloaded(service, later, cache, limits).Some? && Refetchable(service, later, cache, limits)
    ensures Downloaded(service, later, cache, limits).None? || Refetchable(service, later, cache, limits) ==>
            Downloaded(service, later, cache, limits) == Downloaded(service, later, map[], limits)
  {
    hide BlobsOf, Bounded, Fits, Faithful, AddContainers;
    assert service.rows[..|service.rows|] == service.rows;
    if Downloaded(service, later, map[], limits).Some? {
      CacheIsTransparent(service, later, cache, limits);
      forall i | 0 <= i < |service.rows| ensures !Cached(map[], service.rows[i]) {
      }
      forall i | 0 <= i < |service.rows| && Cached(cache, service.rows[i])
        ensures var row := service.rows[i];
                && BlobsOf(service, map[], row).Some? && Bounded(service, map[], row, limits)
                && Fits(BlobsOf(service, map[], row).value, limits)
      {
        DownloadedFits(service, limits, i);
      }
    } else if Downloaded(service, later, cache, limits).Some? && Refetchable(service, later, cache, limits) {
      FreshAdds(service, later, cache, |service.rows|, limits);
    }
  }

  /** What only a cached download accepts, for one: a container that is listed but can no longer be read. */
  lemma CacheHidesLoss(row: Row, limits: Limits)
    requires row.size == 0
    ensures var service, cache := Service([row], map[], map[]), map[row.name := CachedContainer(row, [])];
            && Faithful(cache, service)
            && Downloaded(service, service, cache, limits) == Some(Stored([SavedContainer(row, [])], []))
            && Downloaded(service, service, map[], limits).None?
  {
    var service, cache := Service([row], map[], map[]), map[row.name := CachedContainer(row, [])];
    assert service.rows[..0] == [];
    assert AddContainers(service, cache, [], limits) == Some(Download(Stored([], []), 0));
    assert Cached(cache, row) && BlobsOf(service, cache, row) == Some([]);
    var line := SavedContainer(row, []);
    assert [] + [line] == [line];
    assert AddContainer(Download(Stored([], []), 0), row, [], limits) == Some(Download(Stored([line], []), 0));
  }

  // ----- The download, file by file -------------------------------------------------------

  /** Fetching succeeds exactly if every payload is there, and gives them in order. */
  lemma {:induction false} FetchedIs(service: Service, atoms: seq<Atom>)
    ensures Fetched(service, atoms).Some? <==> forall i | 0 <= i < |atoms| :: atoms[i].id in service.payloads
    ensures Fetched(service, atoms).Some? ==>
              && |Fetched(service, atoms).value| == |atoms|
              && forall i | 0 <= i < |atoms| :: Fetched(service, atoms).value[i] == (atoms[i], service.payloads[atoms[i].id])
  {
    if atoms != [] {
      FetchedIs(service, atoms[..|atoms| - 1]);
    }
  }

  lemma {:induction false} AddFails(p: Progress, blobs: Blobs, k: nat, row: Row, limits: Limits)
    requires k <= |blobs| && AddBlobs(p, blobs[..k], row, limits).None?
    ensures AddBlobs(p, blobs, row, limits).None?
  {
    if k < |blobs| {
      assert blobs[..|blobs| - 1][..k] == blobs[..k];
      AddFails(p, blobs[..|blobs| - 1], k, row, limits);
    } else {
      assert blobs[..k] == blobs;
    }
  }

  lemma {:induction false} ContainersFail(service: Service, cache: Cache, rows: seq<Row>, k: nat, limits: Limits)
    requires k <= |rows| && AddContainers(service, cache, rows[..k], limits).None?
    ensures AddContainers(service, cache, rows, limits).None?
  {
    if k < |rows| {
      assert rows[..|rows| - 1][..k] == rows[..k];
      ContainersFail(service, cache, rows[..|rows| - 1], k, limits);
    } else {
      assert rows[..k] == rows;
    }
  }

  /** What storing a container comes to: nothing, if a read or a bound fails. */
  function Containing(service: Service, cache: Cache, d: Download, row: Row, limits: Limits): Option<Download> {
    var blobs := BlobsOf(service, cache, row);
    if blobs.None? || !Bounded(service, cache, row, limits) then None else AddContainer(d, row, blobs.value, limits)
  }

  /** The atoms of one container, from the cache or from the service. */
  method ReadAtoms(service: Service, cache: Cache, row: Row, limits: Limits) returns (r: Option<seq<Atom>>)
    ensures r.None? ==> BlobsOf(service, cache, row).None? || !Bounded(service, cache, row, limits)
    ensures r.Some? ==> Bounded(service, cache, row, limits)
    ensures r.Some? ==> (BlobsOf(service, cache, row).None? <==>
              !Cached(cache, row) && exists i | 0 <= i < |r.value| :: r.value[i].id !in service.payloads)
    ensures r.Some? && BlobsOf(service, cache, row).Some? ==>
              var all := BlobsOf(service, cache, row).value;
              |all| == |r.value| && forall i | 0 <= i < |all| :: all[i].0 == r.value[i]
    ensures r.Some? && BlobsOf(service, cache, row).Some? && !Cached(cache, row) ==>
              forall i | 0 <= i < |r.value| :: BlobsOf(service, cache, row).value[i].1 == service.payloads[r.value[i].id]
  {
    if Cached(cache, row) {
      var blobs := cache[row.name].blobs;
      return Some(seq(|blobs|, i requires 0 <= i < |blobs| => blobs[i].0));
    }
    if row.name !in service.atoms || !DistinctAtoms(service.atoms[row.name])
       || !AtomsBounded(service.atoms[row.name], limits) {
      return None;
    }
    FetchedIs(service, service.atoms[row.name]);
    return Some(service.atoms[row.name]);
  }

  /** Read one container, from the cache or atom by atom, and write its payloads. */
  method StoreContainer(service: Service, cache: Cache, d: Download, row: Row, limits: Limits)
    returns (r: Option<Download>)
    ensures r == Containing(service, cache, d, row, limits)
  {
    hide BlobsOf, AddBlob, Fetched, Bounded;
    ghost var all := BlobsOf(service, cache, row);
    var previous := Cached(cache, row);
    CachedIsRead(service, cache, row);
    var listed := ReadAtoms(service, cache, row, limits);
    if listed.None? || |d.stored.files| + |listed.value| > limits.blobs {
      return None;
    }
    var atoms := listed.value;
    var start := Progress(d.stored.files, [], d.total, 0);
    var p := start;
    for i: nat := 0 to |atoms|
      invariant !previous ==> forall j | 0 <= j < i :: atoms[j].id in service.payloads
      invariant all.Some? ==> AddBlobs(start, all.value[..i], row, limits) == Some(p)
    {
      var atom := atoms[i];
      if !previous && atom.id !in service.payloads {
        return None;
      }
      var data := if previous then cache[row.name].blobs[i].1 else service.payloads[atom.id];
      var q := AddBlob(p, atom, data, row, limits);
      if all.Some? {
        assert all.value[..i + 1][..i] == all.value[..i] && all.value[..i + 1][i] == (atom, data);
      }
      if q.None? {
        if all.Some? {
          AddFails(start, all.value, i + 1, row, limits);
        }
        return None;
      }
      p := q.value;
    }
    assert all.Some? && all.value[..|atoms|] == all.value;
    if p.bytes != row.size {
      return None;
    }
    return Some(Download(Stored(d.stored.manifest + [SavedContainer(row, p.blobs)], p.files), p.total));
  }

  lemma CachedIsRead(service: Service, cache: Cache, row: Row)
    ensures Cached(cache, row) ==> BlobsOf(service, cache, row) == Some(cache[row.name].blobs)
  {
  }

  /** Download every listed container, and check that nothing changed meanwhile. */
  method DownloadAll(service: Service, later: Service, cache: Cache, limits: Limits) returns (r: Option<Stored>)
    ensures r == Downloaded(service, later, cache, limits)
  {
    hide BlobsOf, Bounded, AddContainer, Cached;
    var d := Download(Stored([], []), 0);
    for k: nat := 0 to |service.rows|
      invariant AddContainers(service, cache, service.rows[..k], limits) == Some(d)
    {
      assert service.rows[..k + 1][..k] == service.rows[..k];
      var next := StoreContainer(service, cache, d, service.rows[k], limits);
      if next.None? {
        ContainersFail(service, cache, service.rows, k + 1, limits);
        return None;
      }
      d := next.value;
    }
    assert service.rows[..|service.rows|] == service.rows;
    if !Unchanged(service, later, cache) {
      return None;
    }
    return Some(d.stored);
  }

  // ----- Reading a snapshot back -----------------------------------------------------------

  predicate Word(c: char) {
    'a' <= c <= 'z' || 'A' <= c <= 'Z' || '0' <= c <= '9' || c == '_'
  }

  /** Names of payloads: words, dots and dashes, but no empty or parent parts. */
  predicate BlobName(name: string) {
    && 0 < |name| <= 256 && name[|name| - 1] != '.'
    && (forall i | 0 <= i < |name| - 1 :: !(name[i] == name[i + 1] == '.'))
    && forall i | 0 <= i < |name| :: Word(name[i]) || name[i] in ".-"
  }

  /** Names of containers may have parents, made of words only. */
  predicate ContainerName(name: string) {
    && 0 < |name| <= 256 && name[|name| - 1] !in "./" && name[0] != '/'
    && (forall i | 0 <= i < |name| - 1 :: !(name[i] == name[i + 1] && name[i] in "./"))
    && forall i | 0 <= i < |name| :: Word(name[i]) || name[i] == '/' || (name[i] in ".-" && '/' !in name[i..])
  }

  const SUFFIX := ",savedgame"

  function Strip(name: string): Option<Name> {
    if |name| >= |SUFFIX| && name[|name| - |SUFFIX|..] == SUFFIX then Some(name[..|name| - |SUFFIX|]) else None
  }

  /** Seconds since 1970, from a Windows time stamp; earlier ones are not supported. */
  function Modified(time: nat): Option<nat> {
    if time / 10_000_000 < 11_644_473_600 then None else Some(time / 10_000_000 - 11_644_473_600)
  }

  datatype BlobCheck = BlobCheck(blobs: map<Name, Payload>, atoms: set<string>, count: nat, total: nat, size: nat)

  function CheckBlob(c: BlobCheck, b: SavedBlob, files: seq<Payload>): Option<BlobCheck> {
    if b.size > BLOB_BYTES || b.file != c.count || !BlobName(b.name) || b.name in c.blobs || b.atom in c.atoms
       || c.count >= |files| || |files[c.count]| != b.size || files[c.count] != b.hash
       || c.count + 1 > BLOB_LIMIT || c.total + b.size > QUOTA then None
    else
      Some(BlobCheck(c.blobs[b.name := files[c.count]], c.atoms + {b.atom}, c.count + 1, c.total + b.size, c.size + b.size))
  }

  function CheckBlobs(c: BlobCheck, blobs: seq<SavedBlob>, files: seq<Payload>): Option<BlobCheck> {
    if blobs == [] then Some(c)
    else
      var init := CheckBlobs(c, blobs[..|blobs| - 1], files);
      if init.None? then None else CheckBlob(init.value, blobs[|blobs| - 1], files)
  }

  datatype Check = Check(containers: Containers, count: nat, total: nat)

  function CheckContainer(c: Check, saved: SavedContainer, files: seq<Payload>): Option<Check> {
    var row, name := saved.row, Strip(saved.row.name);
    if name.None? || !ContainerName(name.value) || name.value in c.containers
       || row.etag == [] || |row.etag| > 1024 || row.size > QUOTA || |saved.blobs| + c.count > BLOB_LIMIT
       || Modified(row.time).None? then None
    else
      var b := CheckBlobs(BlobCheck(map[], {}, c.count, c.total, 0), saved.blobs, files);
      if b.None? || b.value.size != row.size then None
      else
        var container := Container(row.displayName, Modified(row.time).value, b.value.blobs);
        Some(Check(c.containers[name.value := container], b.value.count, b.value.total))
  }

  function CheckContainers(manifest: seq<SavedContainer>, files: seq<Payload>): Option<Check> {
    if manifest == [] then Some(Check(map[], 0, 0))
    else
      var init := CheckContainers(manifest[..|manifest| - 1], files);
      if init.None? then None else CheckContainer(init.value, manifest[|manifest| - 1], files)
  }

  /** The state a snapshot stands for, if every claim of its manifest holds of its files. */
  function Validated(stored: Stored): Option<Containers> {
    var c := CheckContainers(stored.manifest, stored.files);
    if |stored.manifest| > CONTAINER_LIMIT || c.None? || c.value.count != |stored.files| then None
    else Some(c.value.containers)
  }

  // ----- What was downloaded is what is read back ---------------------------------------------

  function BlobMap(blobs: Blobs): map<Name, Payload> {
    if blobs == [] then map[] else BlobMap(blobs[..|blobs| - 1])[blobs[|blobs| - 1].0.name := blobs[|blobs| - 1].1]
  }

  function AtomSet(blobs: Blobs): set<string> {
    if blobs == [] then {} else AtomSet(blobs[..|blobs| - 1]) + {blobs[|blobs| - 1].0.id}
  }

  /** Blobs a save state can hold: names and atoms once each, and sizes within bounds. */
  predicate GoodBlobs(blobs: Blobs) {
    && (forall i, j | 0 <= i < j < |blobs| :: blobs[i].0.name != blobs[j].0.name && blobs[i].0.id != blobs[j].0.id)
    && (forall i | 0 <= i < |blobs| :: BlobName(blobs[i].0.name) && |blobs[i].1| <= BLOB_BYTES)
  }

  predicate GoodRow(row: Row) {
    Strip(row.name).Some? && ContainerName(Strip(row.name).value) && 0 < |row.etag| <= 1024 && Modified(row.time).Some?
  }

  /** The content the service lists, container by container. */
  function Contents(service: Service, cache: Cache, rows: seq<Row>): Containers {
    if rows == [] then map[]
    else
      var row := rows[|rows| - 1];
      var init, blobs := Contents(service, cache, rows[..|rows| - 1]), BlobsOf(service, cache, row);
      if !GoodRow(row) || blobs.None? then init
      else init[Strip(row.name).value := Container(row.displayName, Modified(row.time).value, BlobMap(blobs.value))]
  }

  /** Everything listed can be held by a save state. */
  predicate Readable(service: Service, cache: Cache, rows: seq<Row>) {
    && DistinctNames(rows) && |rows| <= CONTAINER_LIMIT
    && forall i | 0 <= i < |rows| ::
         GoodRow(rows[i]) && (BlobsOf(service, cache, rows[i]).Some? ==> GoodBlobs(BlobsOf(service, cache, rows[i]).value))
  }

  lemma {:induction false} BlobMapKeys(blobs: Blobs)
    ensures forall n :: n in BlobMap(blobs) <==> exists i :: 0 <= i < |blobs| && blobs[i].0.name == n
    ensures forall a :: a in AtomSet(blobs) <==> exists i :: 0 <= i < |blobs| && blobs[i].0.id == a
  {
    if blobs != [] {
      var init := blobs[..|blobs| - 1];
      BlobMapKeys(init);
      forall n ensures n in BlobMap(blobs) <==> exists i :: 0 <= i < |blobs| && blobs[i].0.name == n {
        if n in BlobMap(init) {
          var i :| 0 <= i < |init| && init[i].0.name == n;
          assert blobs[i].0.name == n;
        }
        if i :| 0 <= i < |blobs| && blobs[i].0.name == n && i < |init| {
          assert init[i].0.name == n;
        }
      }
      forall a ensures a in AtomSet(blobs) <==> exists i :: 0 <= i < |blobs| && blobs[i].0.id == a {
        if a in AtomSet(init) {
          var i :| 0 <= i < |init| && init[i].0.id == a;
          assert blobs[i].0.id == a;
        }
        if i :| 0 <= i < |blobs| && blobs[i].0.id == a && i < |init| {
          assert init[i].0.id == a;
        }
      }
    }
  }

  lemma NewBlob(blobs: Blobs)
    requires blobs != [] && GoodBlobs(blobs)
    ensures var init, last := blobs[..|blobs| - 1], blobs[|blobs| - 1];
            && GoodBlobs(init) && last.0.name !in BlobMap(init) && last.0.id !in AtomSet(init)
            && BlobName(last.0.name) && |last.1| <= BLOB_BYTES
  {
    hide BlobName, BlobMap, AtomSet;
    BlobMapKeys(blobs[..|blobs| - 1]);
  }

  lemma BlobGrows(p: Progress, atom: Atom, data: Payload, row: Row, limits: Limits)
    requires AddBlob(p, atom, data, row, limits).Some?
    ensures var q := AddBlob(p, atom, data, row, limits).value; p.files <= q.files && |q.files| == |p.files| + 1
  {
  }

  /** The next blob passes the check if it is the next file and its name and atom are new. */
  lemma NextBlobPasses(p: Progress, c: BlobCheck, atom: Atom, data: Payload, row: Row, limits: Limits, files: seq<Payload>)
    requires limits.totalBytes <= QUOTA && BlobName(atom.name) && |data| <= BLOB_BYTES && |p.files| < BLOB_LIMIT
    requires AddBlob(p, atom, data, row, limits).Some? && AddBlob(p, atom, data, row, limits).value.files <= files
    requires c.count == |p.files| && c.total == p.total && c.size == p.bytes
    requires atom.name !in c.blobs && atom.id !in c.atoms
    ensures var q := AddBlob(p, atom, data, row, limits).value;
            && |q.blobs| == |p.blobs| + 1 && q.blobs[..|p.blobs|] == p.blobs && p.files <= files
            && CheckBlob(c, q.blobs[|p.blobs|], files)
               == Some(BlobCheck(c.blobs[atom.name := data], c.atoms + {atom.id}, |q.files|, q.total, q.bytes))
  {
    hide BlobName;
    var q := AddBlob(p, atom, data, row, limits).value;
    assert files[|p.files|] == q.files[|p.files|] == data;
  }

  lemma {:induction false} BlobsReadBack(start: Progress, blobs: Blobs, row: Row, limits: Limits, files: seq<Payload>)
    requires start.blobs == [] && start.bytes == 0 && limits.totalBytes <= QUOTA && GoodBlobs(blobs)
    requires |start.files| + |blobs| <= BLOB_LIMIT
    requires AddBlobs(start, blobs, row, limits).Some? && AddBlobs(start, blobs, row, limits).value.files <= files
    ensures var p := AddBlobs(start, blobs, row, limits).value;
            && |p.blobs| == |blobs| && |p.files| == |start.files| + |blobs| && start.files <= p.files
            && CheckBlobs(BlobCheck(map[], {}, |start.files|, start.total, 0), p.blobs, files)
               == Some(BlobCheck(BlobMap(blobs), AtomSet(blobs), |p.files|, p.total, p.bytes))
  {
    hide BlobName, AddBlob, CheckBlob, GoodBlobs;
    if blobs != [] {
      var init, last := blobs[..|blobs| - 1], blobs[|blobs| - 1];
      var before := AddBlobs(start, init, row, limits).value;
      NewBlob(blobs);
      BlobGrows(before, last.0, last.1, row, limits);
      BlobsReadBack(start, init, row, limits, files);
      NextBlobPasses(before, BlobCheck(BlobMap(init), AtomSet(init), |before.files|, before.total, before.bytes),
                     last.0, last.1, row, limits, files);
    }
  }

  lemma StripIsInjective(a: string, b: string)
    requires Strip(a).Some? && Strip(a) == Strip(b)
    ensures a == b
  {
    assert a == a[..|a| - |SUFFIX|] + a[|a| - |SUFFIX|..];
    assert b == b[..|b| - |SUFFIX|] + b[|b| - |SUFFIX|..];
  }

  lemma {:induction false} ContentNames(service: Service, cache: Cache, rows: seq<Row>)
    ensures forall n | n in Contents(service, cache, rows) ::
              exists i :: 0 <= i < |rows| && Strip(rows[i].name) == Some(n)
  {
    hide Strip, ContainerName;
    if rows != [] {
      var init := rows[..|rows| - 1];
      ContentNames(service, cache, init);
      forall n | n in Contents(service, cache, rows)
        ensures exists i :: 0 <= i < |rows| && Strip(rows[i].name) == Some(n)
      {
        if n in Contents(service, cache, init) {
          var i :| 0 <= i < |init| && Strip(init[i].name) == Some(n);
          assert Strip(rows[i].name) == Some(n);
        }
      }
    }
  }

  /** Adding one container leaves the earlier files alone, and the new ones within bounds. */
  lemma ContainerReadsBack(d: Download, c: Check, row: Row, blobs: Blobs, limits: Limits, files: seq<Payload>)
    requires limits.totalBytes <= QUOTA && limits.blobs <= BLOB_LIMIT && GoodBlobs(blobs) && GoodRow(row)
    requires AddContainer(d, row, blobs, limits).Some?
    requires AddContainer(d, row, blobs, limits).value.stored.files <= files
    requires d.total <= limits.totalBytes
    requires c.count == |d.stored.files| && c.total == d.total && Strip(row.name).value !in c.containers
    ensures var after := AddContainer(d, row, blobs, limits).value;
            && d.stored.files <= after.stored.files && after.total <= limits.totalBytes
            && |after.stored.manifest| == |d.stored.manifest| + 1
            && after.stored.manifest[..|d.stored.manifest|] == d.stored.manifest
            && CheckContainer(c, after.stored.manifest[|d.stored.manifest|], files)
               == Some(Check(c.containers[Strip(row.name).value := Container(row.displayName, Modified(row.time).value, BlobMap(blobs))],
                             |after.stored.files|, after.total))
  {
    hide Strip, ContainerName, Modified, CheckBlobs, BlobMap, AtomSet, GoodBlobs, AddBlobs;
    var start := Progress(d.stored.files, [], d.total, 0);
    BlobsReadBack(start, blobs, row, limits, files);
    SizesAddUp(start, blobs, row, limits);
  }

  lemma {:induction false} SizesAddUp(start: Progress, blobs: Blobs, row: Row, limits: Limits)
    requires AddBlobs(start, blobs, row, limits).Some? && start.total <= limits.totalBytes && start.bytes <= start.total
    ensures var p := AddBlobs(start, blobs, row, limits).value;
            p.total <= limits.totalBytes && p.bytes - start.bytes == p.total - start.total
  {
    if blobs != [] {
      SizesAddUp(start, blobs[..|blobs| - 1], row, limits);
    }
  }

  lemma {:induction false} ContainersReadBack(service: Service, cache: Cache, rows: seq<Row>, limits: Limits, files: seq<Payload>)
    requires limits.totalBytes <= QUOTA && limits.blobs <= BLOB_LIMIT && Readable(service, cache, rows)
    requires AddContainers(service, cache, rows, limits).Some?
    requires AddContainers(service, cache, rows, limits).value.stored.files <= files
    ensures var d := AddContainers(service, cache, rows, limits).value;
            && |d.stored.manifest| == |rows| && d.total <= limits.totalBytes
            && CheckContainers(d.stored.manifest, files)
               == Some(Check(Contents(service, cache, rows), |d.stored.files|, d.total))
  {
    hide Strip, ContainerName, Modified, CheckContainer, AddContainer, GoodBlobs, BlobsOf;
    if rows != [] {
      var init, row := rows[..|rows| - 1], rows[|rows| - 1];
      var before, d := AddContainers(service, cache, init, limits).value, AddContainers(service, cache, rows, limits).value;
      var blobs := BlobsOf(service, cache, row).value;
      ReadableInit(service, cache, rows);
      FilesGrow(before, row, blobs, limits);
      ContainersReadBack(service, cache, init, limits, files);
      NewName(service, cache, rows);
      ContainerReadsBack(before, CheckContainers(before.stored.manifest, files).value, row, blobs, limits, files);
      assert d.stored.manifest[..|d.stored.manifest| - 1] == before.stored.manifest;
    }
  }

  lemma ReadableInit(service: Service, cache: Cache, rows: seq<Row>)
    requires rows != [] && Readable(service, cache, rows)
    ensures Readable(service, cache, rows[..|rows| - 1])
    ensures GoodRow(rows[|rows| - 1])
    ensures BlobsOf(service, cache, rows[|rows| - 1]).Some? ==> GoodBlobs(BlobsOf(service, cache, rows[|rows| - 1]).value)
  {
  }

  lemma {:induction false} BlobFilesGrow(start: Progress, blobs: Blobs, row: Row, limits: Limits)
    requires AddBlobs(start, blobs, row, limits).Some?
    ensures start.files <= AddBlobs(start, blobs, row, limits).value.files
  {
    if blobs != [] {
      BlobFilesGrow(start, blobs[..|blobs| - 1], row, limits);
    }
  }

  lemma FilesGrow(d: Download, row: Row, blobs: Blobs, limits: Limits)
    requires AddContainer(d, row, blobs, limits).Some?
    ensures d.stored.files <= AddContainer(d, row, blobs, limits).value.stored.files
  {
    BlobFilesGrow(Progress(d.stored.files, [], d.total, 0), blobs, row, limits);
  }

  lemma NewName(service: Service, cache: Cache, rows: seq<Row>)
    requires rows != [] && DistinctNames(rows) && GoodRow(rows[|rows| - 1])
    ensures Strip(rows[|rows| - 1].name).value !in Contents(service, cache, rows[..|rows| - 1])
  {
    hide Strip, ContainerName, Modified;
    var init, row := rows[..|rows| - 1], rows[|rows| - 1];
    ContentNames(service, cache, init);
    if Strip(row.name).value in Contents(service, cache, init) {
      var i :| 0 <= i < |init| && Strip(init[i].name) == Some(Strip(row.name).value);
      StripIsInjective(init[i].name, row.name);
    }
  }

  /** A snapshot reads back as exactly the containers and payloads that were listed and downloaded. */
  lemma SnapshotReadsBack(service: Service, later: Service, cache: Cache, limits: Limits)
    requires limits.totalBytes <= QUOTA && limits.blobs <= BLOB_LIMIT && Readable(service, cache, service.rows)
    requires Downloaded(service, later, cache, limits).Some?
    ensures Validated(Downloaded(service, later, cache, limits).value) == Some(Contents(service, cache, service.rows))
  {
    hide Strip, ContainerName, Modified, GoodBlobs, GoodRow, CheckContainers, AddContainers, Contents;
    var d := AddContainers(service, cache, service.rows, limits).value;
    ContainersReadBack(service, cache, service.rows, limits, d.stored.files);
  }

  // ----- Forced re-reads ---------------------------------------------------------------------

  /** The cache without the containers that must be read again. */
  function Forced(cache: Cache, force: set<Name>): Cache {
    map n | n in cache && !exists f :: f in force && f + SUFFIX == n :: cache[n]
  }

  method ForceOut(cache: Cache, force: set<Name>) returns (r: Cache)
    ensures r == Forced(cache, force)
  {
    r := cache;
    var todo := force;
    while todo != {}
      invariant todo <= force
      invariant r == Forced(cache, force - todo)
      decreases todo
    {
      var name :| name in todo;
      ghost var done := force - todo;
      assert force - (todo - {name}) == done + {name};
      assert Forced(cache, done + {name}) == Forced(cache, done) - {name + SUFFIX} by {
        assert forall f :: f in done + {name} <==> f in done || f == name;
      }
      r := r - {name + SUFFIX};
      todo := todo - {name};
    }
    assert force - todo == force;
  }

  /**
   * Only containers that are not forced need a trustworthy cache: with the others forced
   * out, a download is the same as without any cache.
   */
  lemma ForceRepairs(service: Service, later: Service, cache: Cache, force: set<Name>, limits: Limits)
    requires forall i | 0 <= i < |service.rows| && Cached(cache, service.rows[i])
                && !exists f :: f in force && f + SUFFIX == service.rows[i].name ::
               var row := service.rows[i];
               BlobsOf(service, map[], row).Some? ==> SameBlobs(cache[row.name].blobs, BlobsOf(service, map[], row).value)
    requires Downloaded(service, later, map[], limits).Some?
    ensures Downloaded(service, later, Forced(cache, force), limits) == Downloaded(service, later, map[], limits)
  {
    hide BlobsOf, SameBlobs, Downloaded;
    var kept := Forced(cache, force);
    forall i | 0 <= i < |service.rows| && Cached(kept, service.rows[i])
      ensures var row := service.rows[i];
              BlobsOf(service, map[], row).Some? ==> SameBlobs(kept[row.name].blobs, BlobsOf(service, map[], row).value)
    {
      assert Cached(cache, service.rows[i]);
    }
    CacheIsTransparent(service, later, kept, limits);
  }
}
