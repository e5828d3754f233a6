// The storage service as the launcher meets it (docs/connected-storage-protocol.md,
// the Operations trait of native/cloud_write.rs). Other devices take the lease, write
// while they hold it and let it go at any moment; a request may be refused, answered
// with any status, or take effect although its answer is lost.

module CloudServer {
  import opened Prelude
  import opened SaveState

  /** The holder of the storage lease and the owner-change id it was issued. */
  datatype Lease = Free | Ours(id: nat) | Theirs(id: nat)

  /** One write that the service accepted: who made it, where, and what it left behind. */
  datatype Commit = Commit(ours: bool, name: Name, after: Containers)

  /** A write of ours that has reached the service but has not been carried out. */
  datatype Mutation = Mutation(lease: nat, name: Name, entry: Option<Container>)

  datatype Server = Server(
    origin: Containers,
    log: seq<Commit>,
    lease: Lease,
    issued: nat,                  // ids below this one have been handed out
    inFlight: Option<Mutation>,
    stale: set<Name>              // names whose cached copy may be out of date
  )

  /** The content after the first `k` writes. */
  function ContentAt(s: Server, k: nat): Containers
    requires k <= |s.log|
  {
    if k == 0 then s.origin else s.log[k - 1].after
  }

  function Content(s: Server): Containers {
    ContentAt(s, |s.log|)
  }

  /** The service held content with this digest at some time. */
  ghost predicate Was(s: Server, d: Digest) {
    exists k: nat :: k <= |s.log| && ContentOf(ContentAt(s, k)) == d
  }

  /** The service held content with this digest at some time since `start`. */
  ghost predicate WasSince(start: Server, s: Server, d: Digest) {
    exists k: nat :: |start.log| <= k <= |s.log| && ContentOf(ContentAt(s, k)) == d
  }

  predicate WellFormed(s: Server) {
    && (!s.lease.Free? ==> s.lease.id < s.issued)
    && (s.inFlight.Some? ==> s.inFlight.value.lease < s.issued)
  }

  // ----- What happens without the launcher ---------------------------------------

  /** A write can only be carried out under the very lease it was sent under. */
  predicate CanLand(s: Server) {
    s.inFlight.Some? && s.lease == Ours(s.inFlight.value.lease)
  }

  function Landing(s: Server): Commit
    requires s.inFlight.Some?
  {
    var m := s.inFlight.value;
    Commit(true, m.name, Put(Content(s), m.name, m.entry))
  }

  function Land(s: Server): Server
    requires s.inFlight.Some?
  {
    s.(log := s.log + [Landing(s)], inFlight := None, stale := s.stale + {s.inFlight.value.name})
  }

  function TakeOver(s: Server): Server {
    s.(lease := Theirs(s.issued), issued := s.issued + 1)
  }

  predicate Overwritten(s: Server, t: Server, n: Name, c: Option<Container>) {
    s.lease.Theirs? && t == s.(log := s.log + [Commit(false, n, Put(Content(s), n, c))])
  }

  ghost predicate EnvStep(s: Server, t: Server) {
    || t == s.(lease := Free)
    || t == TakeOver(s)
    || (exists n, c :: Overwritten(s, t, n, c))
    || (CanLand(s) && t == Land(s))
  }

  lemma OverwritingIsAStep(s: Server, t: Server, n: Name, c: Option<Container>)
    requires Overwritten(s, t, n, c)
    ensures EnvStep(s, t)
  {
  }

  predicate Landed(s: Server, t: Server) {
    |s.log| < |t.log| && t.log[|s.log|].ours
  }

  /**
   * All that matters about any number of such steps. Nothing is forgotten; our write in
   * flight lands at most once and before anything else; and if the lease is still ours
   * at the end, it was ours throughout and nobody else wrote.
   */
  ghost predicate Later(s: Server, t: Server) {
    && WellFormed(t)
    && s.origin == t.origin
    && s.issued <= t.issued
    && s.log <= t.log
    && (Landed(s, t) ==> CanLand(s) && t.log[|s.log|] == Landing(s))
    && (forall k | |s.log| < k < |t.log| :: !t.log[k].ours)
    && t.inFlight == (if Landed(s, t) then None else s.inFlight)
    && t.stale == (if Landed(s, t) then s.stale + {t.log[|s.log|].name} else s.stale)
    && (t.lease.Ours? ==> t.lease == s.lease && t.log == if Landed(s, t) then s.log + [Landing(s)] else s.log)
  }

  lemma StepIsLater(s: Server, t: Server)
    requires WellFormed(s) && EnvStep(s, t)
    ensures Later(s, t)
  {
  }

  lemma LaterIsReflexive(s: Server)
    requires WellFormed(s)
    ensures Later(s, s)
  {
  }

  lemma LaterIsTransitive(s: Server, t: Server, u: Server)
    requires WellFormed(s) && Later(s, t) && Later(t, u)
    ensures Later(s, u)
  {
    assert forall k | 0 <= k < |s.log| :: u.log[k] == t.log[k];
    if Landed(s, t) {
      assert u.log[|s.log|] == t.log[|s.log|];
    } else if Landed(t, u) {
      assert t.lease == s.lease && t.log == s.log;
    }
    forall k | |s.log| < k < |u.log| ensures !u.log[k].ours {
      if k < |t.log| {
        assert u.log[k] == t.log[k];
      }
    }
  }

  ghost predicate EnvRun(run: seq<Server>) {
    |run| > 0 && forall i | 0 <= i < |run| - 1 :: EnvStep(run[i], run[i + 1])
  }

  /** Whatever the other devices do, and however long, the summary holds. */
  lemma {:induction false} RunIsLater(run: seq<Server>)
    requires EnvRun(run) && WellFormed(run[0])
    ensures Later(run[0], run[|run| - 1])
  {
    if |run| > 1 {
      var shorter := run[..|run| - 1];
      RunIsLater(shorter);
      StepIsLater(run[|run| - 2], run[|run| - 1]);
      LaterIsTransitive(run[0], run[|run| - 2], run[|run| - 1]);
    }
  }

  lemma WasStays(s: Server, t: Server, d: Digest)
    requires s.origin == t.origin && s.log <= t.log
    requires Was(s, d)
    ensures Was(t, d)
  {
    var k: nat :| k <= |s.log| && ContentOf(ContentAt(s, k)) == d;
    assert ContentAt(t, k) == ContentAt(s, k);
  }

  lemma WasSinceStays(start: Server, s: Server, t: Server, d: Digest)
    requires s.origin == t.origin && s.log <= t.log
    requires WasSince(start, s, d)
    ensures WasSince(start, t, d) && Was(t, d)
  {
    var k: nat :| |start.log| <= k <= |s.log| && ContentOf(ContentAt(s, k)) == d;
    assert ContentAt(t, k) == ContentAt(s, k);
  }

  // ----- Fencing ------------------------------------------------------------------

  /**
   * Since write number `g`, when lease `id` was granted to us: every write of ours was
   * made while nobody else had written, and while the lease is held nobody has.
   */
  ghost predicate Fenced(s: Server, id: nat, g: nat) {
    && g <= |s.log|
    && id < s.issued
    && (forall j, k | g <= j < k < |s.log| && s.log[k].ours :: s.log[j].ours)
    && (s.lease == Ours(id) ==> forall k | g <= k < |s.log| :: s.log[k].ours)
    && (s.inFlight.Some? ==> s.inFlight.value.lease == id)
  }

  lemma FencedStays(s: Server, t: Server, id: nat, g: nat)
    requires WellFormed(s) && Fenced(s, id, g) && Later(s, t)
    ensures Fenced(t, id, g)
  {
    assert forall k | 0 <= k < |s.log| :: t.log[k] == s.log[k];
    forall j, k | g <= j < k < |t.log| && t.log[k].ours ensures t.log[j].ours {
      assert k <= |s.log|;
    }
  }

  /**
   * Since `start`, we wrote nothing, or only under one lease, and that lease was granted
   * while the content had the digest `expected`.
   */
  ghost predicate Guarded(start: Server, s: Server, expected: Digest) {
    && WellFormed(s)
    && s.origin == start.origin && start.log <= s.log
    && ( || (s.inFlight.None? && NoneOfOurs(s, |start.log|, |s.log|))
         || exists id: nat, g: nat :: GuardedFrom(start, s, expected, id, g))
  }

  ghost predicate NoneOfOurs(s: Server, from: nat, to: nat)
    requires to <= |s.log|
  {
    forall k | from <= k < to :: !s.log[k].ours
  }

  ghost predicate GuardedFrom(start: Server, s: Server, expected: Digest, id: nat, g: nat) {
    && Fenced(s, id, g)
    && |start.log| <= g
    && ContentOf(ContentAt(s, g)) == expected
    && NoneOfOurs(s, |start.log|, g)
  }

  lemma GuardedStays(start: Server, s: Server, t: Server, expected: Digest)
    requires Guarded(start, s, expected) && Later(s, t)
    ensures Guarded(start, t, expected)
  {
    assert forall k | 0 <= k < |s.log| :: t.log[k] == s.log[k];
    if id: nat, g: nat :| GuardedFrom(start, s, expected, id, g) {
      FencedStays(s, t, id, g);
      assert ContentAt(t, g) == ContentAt(s, g);
      assert GuardedFrom(start, t, expected, id, g);
    }
  }

  /** Write number `k` continues an unbroken run of our writes that began on `expected`. */
  ghost predicate BuiltOn(start: Server, s: Server, k: nat, expected: Digest)
    requires k < |s.log|
  {
    exists b: nat | |start.log| <= b <= k ::
      ContentOf(ContentAt(s, b)) == expected && forall j | b <= j <= k :: s.log[j].ours
  }

  /** Whatever we overwrote since `start` was content with the digest `expected`, or our own. */
  lemma GuardedBuildsOn(start: Server, s: Server, expected: Digest)
    requires Guarded(start, s, expected)
    ensures forall k | |start.log| <= k < |s.log| && s.log[k].ours :: BuiltOn(start, s, k, expected)
  {
    forall k | |start.log| <= k < |s.log| && s.log[k].ours ensures BuiltOn(start, s, k, expected) {
      var id: nat, g: nat :| GuardedFrom(start, s, expected, id, g);
      assert g <= k;
      assert ContentOf(ContentAt(s, g)) == expected && forall j | g <= j <= k :: s.log[j].ours;
    }
  }

  // ----- Requests of the launcher -------------------------------------------------

  datatype Code = Authentication | LeaseLost | Transport | InvalidResponse | Cancelled | LocalChanged
                | Bounds | Quota | ConflictCode | Readback
                | Stopped | StateChanged | InvalidPlan | InvalidSnapshot | InvalidSession | InvalidReceipt
                | InvalidScope | Busy | LocalStorage | Unsupported

  datatype Failure = Failure(code: Code, status: Option<nat>)

  datatype Owner = Malformed | Id(id: nat)

  datatype LeaseReply = LeaseReply(status: nat, owner: Owner)

  function Granted(s: Server): Server {
    s.(lease := Ours(s.issued), issued := s.issued + 1)
  }

  /** A lease request either changes nothing or takes a free lease for us. */
  predicate Asked(s: Server, t: Server) {
    t == s || (s.lease.Free? && t == Granted(s))
  }

  /** A write request of ours is refused, stays in flight, or is carried out at once. */
  predicate Sent(s: Server, t: Server, name: Name, entry: Option<Container>) {
    || t == s
    || (s.lease.Ours? &&
        var u := s.(inFlight := Some(Mutation(s.lease.id, name, entry)));
        t == u || t == Land(u))
  }

  lemma FencedAsked(s: Server, t: Server, id: nat, g: nat)
    requires WellFormed(s) && Fenced(s, id, g) && Asked(s, t)
    ensures Fenced(t, id, g) && WellFormed(t)
  {
  }

  lemma FencedSent(s: Server, t: Server, name: Name, entry: Option<Container>, id: nat, g: nat)
    requires WellFormed(s) && Fenced(s, id, g) && Sent(s, t, name, entry)
    requires s.lease.Ours? ==> s.lease.id == id
    ensures Fenced(t, id, g) && WellFormed(t)
  {
    if t != s {
      assert t.log == s.log || t.log[..|s.log|] == s.log;
    }
  }

  /** The write `m` is still pending after `a`, or was refused, or was carried out, once. */
  ghost predicate Resolving(a: Server, s: Server, m: Mutation) {
    || (s.origin == a.origin && s.log == a.log && s.stale == a.stale && (s.inFlight.None? || s.inFlight == Some(m)))
    || CarriedOut(a, s, m)
  }

  ghost predicate CarriedOut(a: Server, s: Server, m: Mutation) {
    && s.origin == a.origin
    && s.log == a.log + [Commit(true, m.name, Put(Content(a), m.name, m.entry))]
    && s.stale == a.stale + {m.name}
    && s.inFlight.None?
  }

  lemma SendingIsResolving(first: Server, sending: Server, sent: Server, second: Server,
                           name: Name, entry: Option<Container>)
    requires Later(first, sending) && Sent(sending, sent, name, entry) && Later(sent, second)
    requires first.lease.Ours? && second.lease == first.lease && first.inFlight.None?
    ensures Resolving(first, second, Mutation(first.lease.id, name, entry))
  {
    assert sending.log == first.log && sending.stale == first.stale;
    assert sent.lease == first.lease;
  }

  lemma StillResolving(first: Server, s: Server, t: Server, m: Mutation)
    requires Resolving(first, s, m) && Later(s, t)
    requires t.lease.Ours?
    ensures Resolving(first, t, m)
    ensures t.log != s.log ==> CarriedOut(first, t, m)
  {
    assert t.lease == s.lease;
  }

  /**
   * A write whose answer is lost or negative is proved by reading it back between two
   * proofs of the same lease: if the container did not have the wanted content before and
   * is read with it now, then the write was carried out, once, and nothing else happened.
   * The read itself is only trusted if nothing was written while it ran.
   */
  lemma ReadBackProves(first: Server, second: Server, reading: Server, read: Server, third: Server,
                       m: Mutation, wanted: Option<Entry>, seen: Containers)
    requires Resolving(first, second, m) && WellFormed(second)
    requires Later(second, reading) && Later(reading, read) && Later(read, third)
    requires third.lease.Ours?
    requires read.log == reading.log ==> Get(seen, m.name) == Get(Content(read), m.name)
    requires EntryAt(Content(first), m.name) != wanted
    requires EntryAt(seen, m.name) == wanted
    ensures CarriedOut(first, third, m)
  {
    assert third.lease == read.lease == reading.lease == second.lease;
    StillResolving(first, second, reading, m);
    StillResolving(first, reading, read, m);
    StillResolving(first, read, third, m);
    if read.log == reading.log && read.log == first.log {
      assert EntryAt(Content(read), m.name) == wanted;
    }
  }

  class Cloud {
    var s: Server
    var atoms: map<nat, Payload>
    // The lease request answered last: just before and just after it was handled.
    ghost var before: Server
    ghost var asked: Server
    ghost var answer: Option<LeaseReply>
    // Calls made so far.
    ghost var calls: nat           // requests that count against the budget
    ghost var requests: seq<Name>
    ghost var puts: nat
    ghost var uploads: nat
    ghost var releases: nat

    constructor (content: Containers)
      ensures s == Server(content, [], Free, 0, None, {})
      ensures requests == []
    {
      s := Server(content, [], Free, 0, None, {});
      atoms := map[];
      before := Server(content, [], Free, 0, None, {});
      asked := Server(content, [], Free, 0, None, {});
      answer := None;
      calls, requests, puts, uploads, releases := 0, [], 0, 0, 0;
    }

    /** Any number of steps of the other devices and of the service itself. */
    method Interfere()
      requires WellFormed(s)
      modifies this`s
      ensures Later(old(s), s)
    {
      var steps: nat := *;
      while steps > 0
        invariant Later(old(s), s)
      {
        ghost var u := s;
        if {
          case true => s := s.(lease := Free);
          case true => s := TakeOver(s);
          case s.lease.Theirs? =>
            var name: Name := *;
            var entry: Option<Container> := *;
            s := s.(log := s.log + [Commit(false, name, Put(Content(s), name, entry))]);
            OverwritingIsAStep(u, s, name, entry);
          case CanLand(s) => s := Land(s);
        }
        StepIsLater(u, s);
        LaterIsTransitive(old(s), u, s);
        steps := steps - 1;
      }
    }

    /** Acquire and renew are the same request; no request ever breaks another holder's lease. */
    method Ask() returns (r: Result<LeaseReply, Failure>)
      requires WellFormed(s)
      modifies `s, `before, `asked, `answer, `calls
      ensures calls == old(calls) + 1
      ensures answer == if r.Ok? then Some(r.value) else None
      ensures Later(old(s), before) && Asked(before, asked) && WellFormed(asked) && Later(asked, s)
      ensures r.Ok? && r.value.status in {200, 201} && r.value.owner.Id? ==> asked.lease == Ours(r.value.owner.id)
      ensures r.Ok? && r.value.status == 200 ==> asked == before
      ensures r.Ok? && r.value.status == 201 ==> before.lease.Free?
    {
      calls := calls + 1;
      Interfere();
      before := s;
      var status: nat := *;
      if status in {200, 201, 409} {
        status := if s.lease.Free? then 201 else if s.lease.Ours? then 200 else 409;
        if s.lease.Free? {
          s := Granted(s);
        }
      }
      asked := s;
      var owner := Malformed;
      if s.lease.Ours? {
        if * {
          owner := Id(s.lease.id);
        }
      }
      Interfere();
      answer := None;
      if * {
        return Err(Failure(Transport, None));
      }
      answer := Some(LeaseReply(status, owner));
      return Ok(LeaseReply(status, owner));
    }

    method Release() returns (r: Result<nat, Failure>)
      requires WellFormed(s)
      modifies `s, `releases
      ensures Later(old(s), s)
      ensures releases == old(releases) + 1
    {
      releases := releases + 1;
      Interfere();
      ghost var u := s;
      var status: nat := *;
      if s.lease.Ours? && status in {200, 204} {
        s := s.(lease := Free);
      } else if status in {200, 204} {
        status := 409;
      }
      StepIsLater(u, u.(lease := Free));
      LaterIsTransitive(old(s), u, u.(lease := Free));
      ghost var v := s;
      Interfere();
      LaterIsTransitive(old(s), v, s);
      if * {
        return Err(Failure(Transport, None));
      }
      return Ok(status);
    }

    /** Payloads are uploaded first and referred to by id; they are not visible by themselves. */
    method UploadAtom(payload: Payload) returns (r: Result<nat, Failure>)
      requires WellFormed(s)
      modifies `s, `atoms, `uploads, `calls
      ensures calls == old(calls) + 1
      ensures Later(old(s), s)
      ensures uploads == old(uploads) + 1
    {
      calls, uploads := calls + 1, uploads + 1;
      Interfere();
      var id: nat := *;
      if id !in atoms {
        atoms := atoms[id := payload];
      }
      if * {
        var status: Option<nat> := *;
        return Err(Failure(Transport, status));
      }
      return Ok(id);
    }

    /** One atomic write of a container: `parts` names its uploaded payloads; None deletes. */
    method Send(name: Name, display: string, modified: nat, parts: Option<map<Name, nat>>)
      returns (r: Result<nat, Failure>, ghost sent: Server, ghost entry: Option<Container>)
      requires WellFormed(s) && s.inFlight.None?
      modifies `s, `before, `requests, `puts, `calls
      ensures calls == old(calls) + 1
      ensures requests == old(requests) + [name]
      ensures puts == old(puts) + if parts.Some? then 1 else 0
      ensures Later(old(s), before) && WellFormed(before)
      ensures Sent(before, sent, name, entry) && WellFormed(sent) && Later(sent, s)
    {
      calls, requests := calls + 1, requests + [name];
      puts := puts + if parts.Some? then 1 else 0;
      Interfere();
      before := s;
      var content: Option<Container> := None;
      if parts.Some? {
        content := Some(Container(display, modified,
                                  map b | b in parts.value && parts.value[b] in atoms :: atoms[parts.value[b]]));
      }
      if s.lease.Ours? {
        if {
          case true =>
          case true => s := s.(inFlight := Some(Mutation(s.lease.id, name, content)));
          case true => s := Land(s.(inFlight := Some(Mutation(s.lease.id, name, content))));
        }
      }
      sent, entry := s, content;
      Interfere();
      var status: nat := *;
      if * {
        r := Err(Failure(Transport, None));
      } else {
        r := Ok(status);
      }
    }

    /**
     * A complete read. It is exact if nothing was written meanwhile, except that a
     * container written since the last settlement is only sure to be fresh if forced.
     */
    method Remote(force: set<Name>) returns (r: Result<Containers, Failure>)
      requires WellFormed(s)
      modifies `s
      ensures Later(old(s), s)
      ensures r.Ok? && s.log == old(s).log ==>
                forall n | n in force || n !in s.stale :: Get(r.value, n) == Get(Content(s), n)
    {
      var log := s.log;
      Interfere();
      if * {
        return Err(Failure(Transport, None));
      }
      var read: Containers := *;
      if s.log == log {
        var cached := read;
        read := map n | n in Content(s).Keys + cached.Keys
                        && n in (if n in force || n !in s.stale then Content(s) else cached)
                  :: (if n in force || n !in s.stale then Content(s) else cached)[n];
      }
      return Ok(read);
    }

    /** A rechecked download: the content at some moment of the call. */
    method Download() returns (r: Result<Containers, Failure>)
      requires WellFormed(s)
      modifies `s
      ensures Later(old(s), s)
      ensures r.Ok? ==> WasSince(old(s), s, ContentOf(r.value))
    {
      Interfere();
      var read := Content(s);
      ghost var u := s;
      Interfere();
      LaterIsTransitive(old(s), u, s);
      assert ContentAt(s, |u.log|) == ContentAt(u, |u.log|);
      if * {
        return Err(Failure(Transport, None));
      }
      return Ok(read);
    }

    /** The connection is closed: what was in flight has been carried out or never will be. */
    method Settle()
      requires WellFormed(s)
      modifies `s
      ensures WellFormed(s) && s.inFlight.None? && s.stale == {}
      ensures s.origin == old(s).origin && old(s).log <= s.log
      ensures exists t :: Later(old(s), t) && s == t.(inFlight := None, stale := {})
    {
      Interfere();
      ghost var t := s;
      s := s.(inFlight := None, stale := {});
      assert Later(old(s), t) && s == t.(inFlight := None, stale := {});
    }
  }
}
