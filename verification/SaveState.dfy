// Save states and their content digests (native/save_state.rs).

module SaveState {
  import opened Prelude

  const CONTAINER_LIMIT := 4096

  type Name = string
  type Payload = seq<bv8>

  /** One container of a save: what the player sees, a time stamp and named payloads. */
  datatype Container = Container(displayName: string, modified: nat, blobs: map<Name, Payload>)

  type Containers = map<Name, Container>

  datatype State = State(generation: nat, containers: Containers)

  const EMPTY := State(0, map[])

  /** What a digest identifies of a container: everything but its time stamp. */
  datatype Entry = Entry(displayName: string, blobs: map<Name, Payload>)

  /**
   * A content digest is modelled by the content it identifies: it forgets the
   * generation and the time stamps, and distinguishes everything else.
   */
  type Digest = map<Name, Entry>

  function EntryOf(c: Container): Entry {
    Entry(c.displayName, c.blobs)
  }

  function ContentOf(cs: Containers): Digest {
    map n | n in cs :: EntryOf(cs[n])
  }

  function DigestOf(s: State): Digest {
    ContentOf(s.containers)
  }

  function EntryAt(cs: Containers, n: Name): Option<Entry> {
    if n in cs then Some(EntryOf(cs[n])) else None
  }

  lemma DigestAt(cs: Containers, n: Name)
    ensures Get(ContentOf(cs), n) == EntryAt(cs, n)
  {
  }

  /** Digests agree exactly when every container agrees up to its time stamp. */
  lemma SameDigest(a: Containers, b: Containers)
    ensures ContentOf(a) == ContentOf(b) <==> forall n :: EntryAt(a, n) == EntryAt(b, n)
  {
    forall n ensures Get(ContentOf(a), n) == EntryAt(a, n) && Get(ContentOf(b), n) == EntryAt(b, n) {
    }
    if forall n :: EntryAt(a, n) == EntryAt(b, n) {
      forall n ensures Get(ContentOf(a), n) == Get(ContentOf(b), n) {
        assert EntryAt(a, n) == EntryAt(b, n);
      }
      MapsAgree(ContentOf(a), ContentOf(b));
    }
  }
}
