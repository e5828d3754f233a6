// Exclusive upload with owner fencing and exact read-back (native/cloud_write.rs).

module CloudWrite {
  import opened Prelude
  import opened SaveState
  import opened CloudServer

  /** Proof of a completed upload; nothing else makes one. */
  datatype Receipt = Receipt(source: Digest, before: Digest, changed: nat, released: bool)

  datatype UploadError = UploadError(failure: Failure, committed: nat, recoveryRequired: bool)

  /** The containers whose content two digests disagree about. */
  function Changed(a: Digest, b: Digest): set<Name> {
    set n | n in a.Keys + b.Keys && Get(a, n) != Get(b, n)
  }

  /** A list of names from a set, none of them twice. */
  predicate EachOnce(names: seq<Name>, from: set<Name>) {
    && (forall n | n in names :: n in from)
    && (forall i, j | 0 <= i < j < |names| :: names[i] != names[j])
  }

  lemma OnceMore(names: seq<Name>, from: set<Name>, n: Name)
    requires EachOnce(names, from) && n !in from
    ensures EachOnce(names, from + {n}) && EachOnce(names + [n], from + {n})
  {
  }

  /** Outside `touched`, two states agree. */
  ghost predicate Untouched(a: Containers, b: Containers, touched: set<Name>) {
    forall n | n !in touched :: Get(a, n) == Get(b, n)
  }

  /** In this state the lease `id` is ours and the content is `base`. */
  ghost predicate GrantedOn(grant: Server, id: nat, base: Containers) {
    grant.lease == Ours(id) && Content(grant) == base
  }

  /**
   * Since `start`, we wrote only under lease `id`, granted after `grant` writes on content
   * `base`; and if `quiet`, we wrote nothing at all.
   */
  ghost predicate UnderLease(start: Server, s: Server, id: nat, grant: Server, base: Containers, quiet: bool) {
    && WellFormed(s)
    && s.origin == start.origin && start.log <= s.log
    && GrantedOn(grant, id, base) && grant.origin == s.origin && grant.log <= s.log && start.log <= grant.log
    && Fenced(s, id, |grant.log|)
    && NoneOfOurs(s, |start.log|, |grant.log|)
    && ContentAt(s, |grant.log|) == base
    && (quiet ==> Idle(start, s))
  }

  lemma UnderLeaseStays(start: Server, s: Server, t: Server, id: nat, grant: Server, base: Containers, quiet: bool)
    requires UnderLease(start, s, id, grant, base, quiet) && Later(s, t)
    ensures UnderLease(start, t, id, grant, base, quiet)
  {
    FencedStays(s, t, id, |grant.log|);
    assert forall k | 0 <= k < |s.log| :: t.log[k] == s.log[k];
  }

  lemma QuietIsIdle(start: Server, s: Server, id: nat, grant: Server, base: Containers, quiet: bool)
    requires UnderLease(start, s, id, grant, base, quiet)
    ensures quiet ==> Idle(start, s)
  {
  }

  lemma UnderLeaseLoosens(start: Server, s: Server, id: nat, grant: Server, base: Containers, quiet: bool)
    requires UnderLease(start, s, id, grant, base, quiet)
    ensures UnderLease(start, s, id, grant, base, false)
  {
  }

  lemma UnderLeaseIsWellFormed(start: Server, s: Server, id: nat, grant: Server, base: Containers, quiet: bool)
    requires UnderLease(start, s, id, grant, base, quiet)
    ensures WellFormed(s)
  {
  }

  lemma UnderLeaseAsked(start: Server, s: Server, t: Server, id: nat, grant: Server, base: Containers, quiet: bool)
    requires UnderLease(start, s, id, grant, base, quiet) && Asked(s, t)
    ensures UnderLease(start, t, id, grant, base, quiet)
  {
    FencedAsked(s, t, id, |grant.log|);
  }

  lemma UnderLeaseSent(start: Server, s: Server, t: Server, name: Name, entry: Option<Container>,
                       id: nat, grant: Server, base: Containers, quiet: bool)
    requires UnderLease(start, s, id, grant, base, quiet) && Sent(s, t, name, entry)
    requires s.lease.Ours? ==> s.lease.id == id
    requires !quiet
    ensures UnderLease(start, t, id, grant, base, quiet)
  {
    FencedSent(s, t, name, entry, id, |grant.log|);
    assert t.log[..|s.log|] == s.log;
  }

  lemma EntryForGet(cs: Containers, name: Name)
    ensures EntryFor(Get(cs, name)) == EntryAt(cs, name)
  {
  }

  lemma NothingSent()
    ensures EachOnce([], {})
  {
  }

  class Write {
    const ops: Cloud
    const limit: nat
    var operations: nat
    var committed: nat
    var attempted: bool
    var acquired: bool
    var owner: Option<nat>
    var mutated: set<Name>
    // The service when the lease was first confirmed, and what it held.
    ghost var grant: Server
    ghost var base: Containers

    constructor (ops: Cloud, limit: nat)
      ensures this.ops == ops && this.limit == limit
      ensures operations == committed == 0 && !attempted && !acquired && owner.None? && mutated == {}
    {
      this.ops, this.limit := ops, limit;
      operations, committed, attempted, acquired, owner, mutated := 0, 0, false, false, None, {};
      grant, base := ops.s, map[];
    }

    /** The last answer granted us the lease this run works under, or a new one. */
    ghost predicate Confirmed()
      reads this, ops
    {
      && ops.answer.Some?
      && ops.answer.value.status in {200, 201}
      && ops.answer.value.owner.Id?
      && ops.asked.lease == Ours(ops.answer.value.owner.id)
      && (ops.answer.value.status == 200 ==> owner == Some(ops.answer.value.owner.id))
    }

    /** What holds at every point of a run that was granted the lease, whoever holds it now. */
    ghost predicate Running(start: Server)
      reads this, ops
    {
      && owner.Some?
      && UnderLease(start, ops.s, owner.value, grant, base, mutated == {})
      && (acquired ==> Confirmed())
    }

    /** The last renewal succeeded and every write so far is proved. */
    ghost predicate Holding(start: Server)
      reads this, ops
    {
      && Running(start)
      && WellFormed(ops.asked) && Later(ops.asked, ops.s)
      && UnderLease(start, ops.asked, owner.value, grant, base, mutated == {})
      && ops.asked.lease == Ours(owner.value)
      && ops.asked.inFlight.None?
      && ops.asked.stale <= mutated
      && |ops.asked.log| == |grant.log| + committed
      && Untouched(base, Content(ops.asked), mutated)
    }

    lemma RunningIsIdle(start: Server)
      requires Running(start)
      ensures owner.Some?
      ensures mutated == {} ==> Idle(start, ops.s)
    {
    }

    /** The owner this run works under is the one the lease was granted to. */
    lemma OwnerWasGranted(start: Server)
      requires owner.Some? ==> Running(start)
      ensures owner.Some? ==> grant.lease == Ours(owner.value)
      ensures owner.Some? && acquired ==> Confirmed()
    {
    }

    lemma HoldingIsRunning(start: Server)
      requires Holding(start)
      ensures Running(start) && owner.Some?
    {
    }

    /** Cancellation, the deadline, and a local save that changed all stop the run. */
    method Check() returns (r: Result<(), Failure>)
    {
      if * {
        return Err(Failure(Cancelled, None));
      }
      if * {
        return Err(Failure(LocalChanged, None));
      }
      return Ok(());
    }

    /** Every request that was paid for was made. */
    twostate predicate Spent(n: int)
      reads this, ops
    {
      operations == old(operations) + n && ops.calls == old(ops.calls) + n
    }

    method Budget() returns (r: Result<(), Failure>)
      modifies `operations
      ensures r.Ok? ==> operations == old(operations) + 1 && operations <= limit
    {
      var _ :- Check();
      operations := operations + 1;
      if operations > limit {
        return Err(Failure(Bounds, None));
      }
      return Ok(());
    }

    method Remote(force: set<Name>) returns (r: Result<Containers, Failure>)
      requires WellFormed(ops.s)
      modifies ops`s
      ensures Later(old(ops.s), ops.s)
      ensures r.Ok? && ops.s.log == old(ops.s).log ==>
                forall n | n in force || n !in ops.s.stale :: Get(r.value, n) == Get(Content(ops.s), n)
    {
      LaterIsReflexive(ops.s);
      var _ :- Check();
      var state :- ops.Remote(force);
      var _ :- Check();
      return Ok(state);
    }

    /** Judge the answer to a lease request. */
    method Accept(reply: LeaseReply, first: bool) returns (r: Result<(), Failure>)
      requires ops.answer == Some(reply)
      requires reply.status in {200, 201} && reply.owner.Id? ==> ops.asked.lease == Ours(reply.owner.id)
      modifies `acquired, `owner
      ensures r.Ok? ==> acquired && reply.owner.Id? && owner == Some(reply.owner.id)
      ensures r.Ok? ==> reply.status == 200 || (first && reply.status == 201)
      ensures acquired ==> old(acquired) || (Confirmed() && (first ==> owner.Some?))
      ensures !first ==> owner == old(owner)
      ensures first && owner != old(owner) ==>
                reply.status in {200, 201} && reply.owner.Id? && owner == Some(reply.owner.id)
    {
      if reply.status in {401, 403} {
        acquired := false;
        return Err(Failure(Authentication, Some(reply.status)));
      }
      if reply.status == 409 {
        acquired := false;
        return Err(Failure(LeaseLost, Some(409)));
      }
      if reply.status !in {200, 201} {
        return Err(Failure(Transport, Some(reply.status)));
      }
      if reply.owner.Malformed? {
        return Err(Failure(InvalidResponse, None));
      }
      if first {
        owner, acquired := Some(reply.owner.id), true;
      } else if reply.status == 201 {
        acquired := true;
        return Err(Failure(LeaseLost, None));
      } else if owner != Some(reply.owner.id) {
        acquired := false;
        return Err(Failure(LeaseLost, None));
      } else {
        acquired := true;
      }
      var _ :- Check();
      return Ok(());
    }

    /** Prolong the lease. Success proves that it was ours since the last success. */
    method Renew(ghost start: Server) returns (r: Result<(), Failure>)
      requires Running(start)
      modifies `operations, `acquired, `owner, ops`s, ops`before, ops`asked, ops`answer, ops`calls
      ensures Running(start) && owner == old(owner)
      ensures r.Ok? ==> Spent(1) && acquired
      ensures r.Ok? ==> ops.asked.lease == Ours(owner.value) && WellFormed(ops.asked)
      ensures r.Ok? ==> UnderLease(start, ops.asked, owner.value, grant, base, mutated == {})
      ensures r.Ok? ==> Later(old(ops.s), ops.asked) && Later(ops.asked, ops.s)
    {
      var _ :- Budget();
      // Until the answer confirms it, the lease may be somebody else's and is not released.
      acquired := false;
      var reply := ops.Ask();
      UnderLeaseStays(start, old(ops.s), ops.before, owner.value, grant, base, mutated == {});
      UnderLeaseAsked(start, ops.before, ops.asked, owner.value, grant, base, mutated == {});
      UnderLeaseStays(start, ops.asked, ops.s, owner.value, grant, base, mutated == {});
      var lease :- reply;
      var _ :- Accept(lease, false);
      return Ok(());
    }

    /** Renew without having written anything since the last renewal. */
    method Prolong(ghost start: Server) returns (r: Result<(), Failure>)
      requires Holding(start)
      modifies `operations, `acquired, `owner, ops`s, ops`before, ops`asked, ops`answer, ops`calls
      ensures Running(start) && owner == old(owner)
      ensures r.Ok? ==> Holding(start) && acquired && Spent(1)
      ensures r.Ok? ==> ops.asked.log == old(ops.asked).log == old(ops.s).log
    {
      ghost var a, u := ops.asked, ops.s;
      r := Renew(start);
      if r.Ok? {
        LaterIsTransitive(a, u, ops.asked);
      }
    }

    /** Read back, between two renewals, what an uncertain write of `name` left behind. */
    method Confirm(name: Name, expected: Option<Container>, ghost start: Server, ghost first: Server,
                   ghost sending: Server, ghost sent: Server, ghost m: Mutation) returns (r: Result<(), Failure>)
      requires Running(start)
      requires WellFormed(first) && first.lease == Ours(owner.value) && first.inFlight.None?
      requires m.name == name && m.lease == owner.value
      requires Later(first, sending) && Sent(sending, sent, name, m.entry) && WellFormed(sent) && Later(sent, ops.s)
      requires EntryAt(Content(first), name) != EntryFor(expected)
      modifies `operations, `acquired, `owner, `committed, ops`s, ops`before, ops`asked, ops`answer, ops`calls
      ensures Running(start) && owner == old(owner)
      ensures r.Err? ==> committed == old(committed)
      ensures r.Ok? ==> committed == old(committed) + 1 && Spent(2) && acquired
      ensures r.Ok? ==> WellFormed(ops.asked) && Later(ops.asked, ops.s) && ops.asked.lease == Ours(owner.value)
      ensures r.Ok? ==> UnderLease(start, ops.asked, owner.value, grant, base, mutated == {})
      ensures r.Ok? ==> CarriedOut(first, ops.asked, m)
    {
      hide UnderLease, Later, Sent;
      ghost var u := ops.s;
      var _ :- Renew(start);
      ghost var second := ops.asked;
      LaterIsTransitive(sent, u, second);
      SendingIsResolving(first, sending, sent, second, name, m.entry);
      ghost var reading := ops.s;
      UnderLeaseIsWellFormed(start, reading, owner.value, grant, base, mutated == {});
      var reply := Remote({name});
      ghost var read := ops.s;
      UnderLeaseStays(start, reading, read, owner.value, grant, base, mutated == {});
      var actual :- reply;
      if EntryAt(actual, name) != EntryFor(expected) {
        return Err(Failure(Readback, None));
      }
      var _ :- Renew(start);
      ReadBackProves(first, second, reading, read, ops.asked, m, EntryFor(expected), actual);
      committed := committed + 1;
      return Ok(());
    }

    /** Send one write; whatever becomes of it happens under the lease of the last renewal. */
    method Dispatch(name: Name, entry: Option<Container>, parts: map<Name, nat>, ghost start: Server)
      returns (reply: Result<nat, Failure>, ghost sent: Server, ghost written: Option<Container>)
      requires Holding(start) && mutated != {}
      modifies ops`s, ops`before, ops`requests, ops`puts, ops`calls
      ensures ops.calls == old(ops.calls) + 1
      ensures Running(start)
      ensures ops.requests == old(ops.requests) + [name]
      ensures ops.puts == old(ops.puts) + if entry.Some? then 1 else 0
      ensures Later(ops.asked, ops.before) && Sent(ops.before, sent, name, written)
      ensures WellFormed(sent) && Later(sent, ops.s)
    {
      hide UnderLease, Later, Sent, Untouched;
      ghost var u := ops.s;
      UnderLeaseIsWellFormed(start, u, owner.value, grant, base, mutated == {});
      HeldThroughout(ops.asked, u);
      reply, sent, written := ops.Send(name, if entry.Some? then entry.value.displayName else "",
                                       if entry.Some? then entry.value.modified else 0,
                                       if entry.Some? then Some(parts) else None);
      LaterIsTransitive(ops.asked, u, ops.before);
      UnderLeaseStays(start, u, ops.before, owner.value, grant, base, mutated == {});
      OursIsTheSame(ops.asked, ops.before);
      UnderLeaseSent(start, ops.before, sent, name, written, owner.value, grant, base, mutated == {});
      UnderLeaseStays(start, sent, ops.s, owner.value, grant, base, mutated == {});
    }

    /** Renew once more and put the write on record before it is sent. */
    method Attempt(name: Name, ghost start: Server) returns (r: Result<(), Failure>)
      requires Holding(start) && name !in mutated
      modifies `operations, `acquired, `owner, `attempted, `mutated
      modifies ops`s, ops`before, ops`asked, ops`answer, ops`calls
      ensures Running(start) && owner == old(owner)
      ensures mutated == old(mutated) || (mutated == old(mutated) + {name} && attempted)
      ensures mutated == old(mutated) ==> attempted == old(attempted)
      ensures r.Ok? ==> Holding(start) && operations == old(operations) + 2 && ops.calls == old(ops.calls) + 1
      ensures r.Ok? ==> mutated == old(mutated) + {name} && attempted
      ensures r.Ok? ==> ops.asked.stale <= old(mutated) && Untouched(base, Content(ops.asked), old(mutated))
      ensures r.Ok? ==> EntryAt(Content(ops.asked), name) == EntryAt(base, name)
    {
      hide UnderLease, Later, Untouched;
      var _ :- Prolong(start);
      var _ :- Check();
      UntouchedAt(base, Content(ops.asked), mutated, name);
      UntouchedGrows(base, Content(ops.asked), mutated, name);
      UnderLeaseLoosens(start, ops.asked, owner.value, grant, base, mutated == {});
      UnderLeaseLoosens(start, ops.s, owner.value, grant, base, mutated == {});
      attempted := true;
      mutated := mutated + {name};
      var _ :- Budget();
      return Ok(());
    }

    /** Write or delete one container: sent once, never replayed, and proved by reading it back. */
    method Commit(name: Name, entry: Option<Container>, parts: map<Name, nat>, ghost start: Server)
      returns (r: Result<(), Failure>)
      requires Holding(start)
      requires name !in mutated && EntryAt(base, name) != EntryFor(entry)
      modifies `operations, `acquired, `owner, `committed, `attempted, `mutated
      modifies ops`s, ops`before, ops`asked, ops`answer, ops`requests, ops`puts, ops`calls
      ensures Running(start) && owner == old(owner)
      ensures mutated == old(mutated) || (mutated == old(mutated) + {name} && attempted)
      ensures mutated == old(mutated) ==> attempted == old(attempted)
      ensures ops.requests == old(ops.requests)
              || (ops.requests == old(ops.requests) + [name] && name in mutated)
      ensures r.Err? ==> committed == old(committed)
      ensures r.Ok? ==> Holding(start) && acquired && attempted && committed == old(committed) + 1
      ensures r.Ok? ==> mutated == old(mutated) + {name} && ops.requests == old(ops.requests) + [name]
      ensures r.Ok? ==> Spent(4)
      ensures r.Ok? ==> ops.puts == old(ops.puts) + if entry.Some? then 1 else 0
    {
      hide UnderLease, Later, Sent, CarriedOut, Untouched;
      ghost var was := mutated;
      var _ :- Attempt(name, start);
      ghost var first := ops.asked;
      var reply, sent, written := Dispatch(name, entry, parts, start);
      if reply.Ok? && reply.value == 409 {
        acquired := false;
        return Err(Failure(LeaseLost, Some(409)));
      }
      if reply.Ok? && reply.value in {401, 403} {
        acquired := false;
        return Err(Failure(Authentication, Some(reply.value)));
      }
      // A lost or negative answer may follow a successful write: only
      // reading it back under that lease tells, and the write is not repeated.
      ghost var m := Mutation(owner.value, name, written);
      var _ :- Confirm(name, entry, start, first, ops.before, sent, m);
      CarriedOutHolds(base, first, ops.asked, m, was);
      return Ok(());
    }

    /** Upload one payload. */
    method UploadPart(payload: Payload, ghost start: Server) returns (r: Result<nat, Failure>)
      requires Holding(start)
      modifies `operations, ops`s, ops`atoms, ops`uploads, ops`calls
      ensures Holding(start)
      ensures r.Ok? ==> Spent(1) && ops.uploads == old(ops.uploads) + 1
    {
      hide UnderLease, Later, Untouched;
      var _ :- Budget();
      ghost var u := ops.s;
      UnderLeaseIsWellFormed(start, u, owner.value, grant, base, mutated == {});
      r := ops.UploadAtom(payload);
      UnderLeaseStays(start, u, ops.s, owner.value, grant, base, mutated == {});
      LaterIsTransitive(ops.asked, u, ops.s);
    }

    /** Upload the payloads of one container; their ids must be distinct. */
    method UploadParts(blobs: map<Name, Payload>, ghost start: Server)
      returns (r: Result<map<Name, nat>, Failure>)
      requires Holding(start)
      modifies `operations, ops`s, ops`atoms, ops`uploads, ops`calls
      ensures Holding(start)
      ensures r.Ok? ==> Spent(|blobs|) && ops.uploads == old(ops.uploads) + |blobs|
      ensures r.Ok? ==> r.value.Keys == blobs.Keys
    {
      hide UnderLease, Later, Untouched, Holding, Running, Confirmed;
      var todo := blobs.Keys;
      var parts: map<Name, nat> := map[];
      while todo != {}
        invariant todo <= blobs.Keys
        invariant parts.Keys == blobs.Keys - todo
        invariant Holding(start)
        invariant Spent(|blobs.Keys| - |todo|)
        invariant ops.uploads == old(ops.uploads) + |blobs.Keys| - |todo|
        decreases todo
      {
        var blob :| blob in todo;
        var atom :- UploadPart(blobs[blob], start);
        if atom in parts.Values {
          return Err(Failure(InvalidResponse, None));
        }
        parts := parts[blob := atom];
        todo := todo - {blob};
        var _ :- Check();
      }
      return Ok(parts);
    }

    /** Take the lease, and note what the service holds at that moment. */
    method Acquire(ghost start: Server) returns (r: Result<(), Failure>)
      requires WellFormed(start) && start.inFlight.None? && ops.s == start
      requires operations == committed == 0 && !attempted && !acquired && owner.None? && mutated == {}
      modifies `operations, `acquired, `owner, `grant, `base, ops`s, ops`before, ops`asked, ops`answer, ops`calls
      ensures owner.None? ==> !acquired
      ensures Idle(start, ops.s)
      ensures owner.Some? ==> Running(start)
      ensures r.Ok? ==> owner.Some? && acquired && Spent(1)
      ensures r.Ok? ==> Idle(start, ops.asked) && Later(ops.asked, ops.s) && base == Content(ops.asked) && grant == ops.asked
    {
      hide UnderLease, Later, Untouched, Idle;
      NothingYet(start);
      var _ :- Budget();
      var reply := ops.Ask();
      AskedWhileIdle(start, ops.before, ops.asked, ops.s);
      var lease :- reply;
      grant, base := ops.asked, Content(ops.asked);
      r := Accept(lease, true);
      if owner.Some? {
        LeaseBegins(start, ops.before, ops.asked, owner.value);
        UnderLeaseStays(start, ops.asked, ops.s, owner.value, grant, base, mutated == {});
      }
    }

    /** Take the lease and read what the cloud holds; it must be what the caller compared with. */
    method Open(expected: Digest, ghost start: Server) returns (r: Result<Containers, Failure>)
      requires WellFormed(start) && start.inFlight.None? && start.stale == {} && ops.s == start
      requires operations == committed == 0 && !attempted && !acquired && owner.None? && mutated == {}
      modifies `operations, `acquired, `owner, `grant, `base, ops`s, ops`before, ops`asked, ops`answer, ops`calls
      ensures owner.None? ==> !acquired
      ensures Idle(start, ops.s)
      ensures owner.Some? ==> Running(start)
      ensures r.Ok? ==> Holding(start) && acquired && Spent(2)
      ensures r.Ok? ==> r.value == base && ContentOf(base) == expected
    {
      hide UnderLease, Later, Untouched, Idle;
      var _ :- Acquire(start);
      ghost var first, sending := ops.asked, ops.before;
      if * {
        return Err(Failure(Quota, None));
      }
      ghost var reading := ops.s;
      UnderLeaseIsWellFormed(start, reading, owner.value, grant, base, mutated == {});
      var answer := Remote({});
      ghost var read := ops.s;
      UnderLeaseStays(start, reading, read, owner.value, grant, base, mutated == {});
      QuietIsIdle(start, read, owner.value, grant, base, true);
      var remote :- answer;
      if ContentOf(remote) != expected {
        return Err(Failure(ConflictCode, None));
      }
      var renewed := Renew(start);
      QuietIsIdle(start, ops.s, owner.value, grant, base, true);
      var _ :- renewed;
      FirstReadIsExact(start, sending, first, reading, read, ops.asked, remote);
      UntouchedSame(base);
      return Ok(remote);
    }

    /** Bookkeeping of a run: what was asked for is what was mutated, each container once. */
    ghost predicate Counted(before: seq<Name>, sent: seq<Name>)
      reads this, ops
    {
      && ops.requests == before + sent
      && EachOnce(sent, mutated) && |sent| <= |mutated|
      && (attempted <==> mutated != {})
    }

    /** What a put needs beforehand: a renewal, and the payloads uploaded. */
    method Prepare(target: Option<Container>, ghost start: Server)
      returns (r: Result<map<Name, nat>, Failure>)
      requires Holding(start)
      modifies `operations, `acquired, `owner
      modifies ops`s, ops`atoms, ops`before, ops`asked, ops`answer, ops`uploads, ops`calls
      ensures Running(start) && owner == old(owner)
      ensures r.Ok? ==> Holding(start)
      ensures r.Ok? ==> Spent((ops.uploads - old(ops.uploads)) + if target.Some? then 1 else 0)
    {
      hide UnderLease, Later, Untouched;
      if target.None? {
        return Ok(map[]);
      }
      var _ :- Prolong(start);
      r := UploadParts(target.value.blobs, start);
    }

    /** Bring one container that differs to its wanted content. */
    method Replace(name: Name, target: Option<Container>, ghost start: Server,
                   ghost before: seq<Name>, ghost sent: seq<Name>)
      returns (r: Result<(), Failure>, ghost sent': seq<Name>)
      requires Holding(start)
      requires name !in mutated && EntryAt(base, name) != EntryFor(target)
      requires Counted(before, sent) && |sent| == committed == |mutated|
      modifies `operations, `acquired, `owner, `committed, `attempted, `mutated
      modifies ops`s, ops`atoms, ops`before, ops`asked, ops`answer, ops`requests, ops`puts, ops`uploads, ops`calls
      ensures Running(start) && owner == old(owner)
      ensures Counted(before, sent')
      ensures mutated == old(mutated) || mutated == old(mutated) + {name}
      ensures committed <= |mutated| <= committed + 1
      ensures r.Ok? ==> Holding(start) && acquired && |sent'| == committed == |mutated|
      ensures r.Ok? ==> mutated == old(mutated) + {name}
      ensures r.Ok? ==> Spent(4 * (committed - old(committed)) + (ops.puts - old(ops.puts)) + (ops.uploads - old(ops.uploads)))
    {
      hide UnderLease, Later, Untouched, EachOnce;
      sent' := sent;
      OnceMore(sent, mutated, name);
      var parts := Prepare(target, start);
      if parts.Err? {
        return Err(parts.error), sent';
      }
      r := Commit(name, target, parts.value, start);
      if |ops.requests| > |before| + |sent| {
        sent' := sent + [name];
      }
    }

    /** Bring every container that differs to its wanted content. */
    method ReplaceAll(local: Containers, remote: Containers, ghost start: Server)
      returns (r: Result<(), Failure>, ghost sent: seq<Name>)
      requires Holding(start) && base == remote && committed == 0 && mutated == {} && !attempted
      modifies `operations, `acquired, `owner, `committed, `attempted, `mutated
      modifies ops`s, ops`atoms, ops`before, ops`asked, ops`answer, ops`requests, ops`puts, ops`uploads, ops`calls
      ensures Running(start)
      ensures Counted(old(ops.requests), sent)
      ensures mutated <= Changed(ContentOf(remote), ContentOf(local))
      ensures committed <= |mutated| <= committed + 1
      ensures r.Ok? ==> Holding(start)
      ensures r.Ok? ==> mutated == Changed(ContentOf(remote), ContentOf(local)) && |sent| == committed == |mutated|
      ensures r.Ok? ==> Spent(4 * committed + (ops.puts - old(ops.puts)) + (ops.uploads - old(ops.uploads)))
    {
      hide UnderLease, Later, Untouched, EachOnce, Running, Holding, EntryAt, EntryFor, ContentOf, Changed;
      HoldingIsRunning(start);
      sent := [];
      NothingSent();
      var todo := local.Keys + remote.Keys;
      ghost var names := todo;
      while todo != {}
        invariant todo <= names
        invariant Holding(start)
        invariant forall n :: n in mutated <==> n in names - todo && EntryAt(local, n) != EntryAt(remote, n)
        invariant Counted(old(ops.requests), sent) && |sent| == committed == |mutated|
        invariant Spent(4 * committed + (ops.puts - old(ops.puts)) + (ops.uploads - old(ops.uploads)))
        decreases todo
      {
        var name :| name in todo;
        var target := Get(local, name);
        todo := todo - {name};
        EntryForGet(local, name);
        EntryForGet(remote, name);
        if EntryFor(target) != EntryFor(Get(remote, name)) {
          r, sent := Replace(name, target, start, old(ops.requests), sent);
          if r.Err? {
            DiffersIsChanged(local, remote, mutated);
            return;
          }
        }
      }
      HoldingIsRunning(start);
      DiffersIsChanged(local, remote, mutated);
      r := Ok(());
    }

    /** Take the lease, write every container that differs, and read everything back. */
    method Transfer(local: State, expected: Digest, ghost start: Server)
      returns (r: Result<(), Failure>, ghost sent: seq<Name>)
      requires WellFormed(start) && start.inFlight.None? && start.stale == {} && ops.s == start
      requires operations == committed == 0 && !attempted && !acquired && owner.None? && mutated == {}
      modifies `operations, `acquired, `owner, `committed, `attempted, `mutated, `grant, `base
      modifies ops`s, ops`atoms, ops`before, ops`asked, ops`answer, ops`requests, ops`puts, ops`uploads, ops`calls
      ensures owner.None? ==> !acquired && mutated == {}
      ensures mutated == {} ==> Idle(start, ops.s)
      ensures owner.Some? ==> Running(start)
      ensures mutated != {} ==> owner.Some? && ContentOf(base) == expected
      ensures mutated <= Changed(expected, DigestOf(local))
      ensures Counted(old(ops.requests), sent)
      ensures committed <= |mutated| <= committed + 1
      ensures r.Ok? ==> owner.Some? && acquired && Holding(start) && mutated == Changed(expected, DigestOf(local))
      ensures r.Ok? ==> |sent| == committed == |mutated| && ContentOf(base) == expected
      ensures r.Ok? ==> Spent(4 + 4 * committed + (ops.puts - old(ops.puts)) + (ops.uploads - old(ops.uploads)))
      ensures r.Ok? ==> ContentOf(Content(ops.asked)) == DigestOf(local)
    {
      hide UnderLease, Later, Untouched, Idle, EachOnce, Running, Holding, Changed;
      sent := [];
      NothingSent();
      NothingIsChanged(expected, DigestOf(local));
      var begun := Open(expected, start);
      if begun.Err? {
        return Err(begun.error), sent;
      }
      r, sent := ReplaceAll(local.containers, begun.value, start);
      RunningIsIdle(start);
      if r.Ok? {
        r := Finish(local, start);
        RunningIsIdle(start);
      }
    }

    /** The final read: everything the upload promised, under the same lease. */
    method Finish(local: State, ghost start: Server) returns (r: Result<(), Failure>)
      requires Holding(start)
      modifies `operations, `acquired, `owner, ops`s, ops`before, ops`asked, ops`answer, ops`calls
      ensures Running(start) && owner == old(owner)
      ensures r.Ok? ==> Holding(start) && acquired && Spent(2)
      ensures r.Ok? ==> ContentOf(Content(ops.asked)) == DigestOf(local)
    {
      hide UnderLease, Later, Untouched;
      var _ :- Prolong(start);
      ghost var first, reading := ops.asked, ops.s;
      UnderLeaseIsWellFormed(start, reading, owner.value, grant, base, mutated == {});
      var answer := Remote(mutated);
      ghost var read := ops.s;
      UnderLeaseStays(start, reading, read, owner.value, grant, base, mutated == {});
      var remote :- answer;
      if ContentOf(remote) != DigestOf(local) {
        return Err(Failure(Readback, None));
      }
      var _ :- Renew(start);
      LastReadIsExact(first, reading, read, ops.asked, mutated, remote);
      return Ok(());
    }
  }

  lemma NothingIsChanged(a: Digest, b: Digest)
    ensures {} <= Changed(a, b)
  {
  }

  lemma DiffersIsChanged(local: Containers, remote: Containers, mutated: set<Name>)
    requires forall n | n in mutated :: EntryAt(local, n) != EntryAt(remote, n)
    ensures mutated <= Changed(ContentOf(remote), ContentOf(local))
    ensures (forall n :: n in local.Keys + remote.Keys && EntryAt(local, n) != EntryAt(remote, n) ==> n in mutated) ==>
              mutated == Changed(ContentOf(remote), ContentOf(local))
  {
    forall n ensures n in Changed(ContentOf(remote), ContentOf(local)) <==> EntryAt(local, n) != EntryAt(remote, n) {
      DigestAt(local, n);
      DigestAt(remote, n);
    }
  }

  lemma LastReadIsExact(first: Server, reading: Server, read: Server, second: Server,
                        mutated: set<Name>, remote: Containers)
    requires WellFormed(first) && first.inFlight.None? && first.stale <= mutated && first.lease.Ours?
    requires Later(first, reading) && Later(reading, read) && Later(read, second) && second.lease.Ours?
    requires read.log == reading.log ==>
               forall n | n in mutated || n !in read.stale :: Get(remote, n) == Get(Content(read), n)
    ensures remote == Content(second)
    ensures second.log == first.log && second.origin == first.origin
    ensures second.inFlight.None? && second.stale == first.stale
  {
    LaterIsTransitive(first, reading, read);
    LaterIsTransitive(first, read, second);
    assert read.log == reading.log == first.log && read.stale == first.stale;
    forall n ensures Get(remote, n) == Get(Content(read), n) {
      assert n in mutated || n !in read.stale;
    }
    MapsAgree(remote, Content(second));
  }

  /** Since `start` we asked for nothing that could change the content. */
  ghost predicate Idle(start: Server, s: Server) {
    && WellFormed(s) && s.inFlight.None? && s.stale == start.stale
    && s.origin == start.origin && start.log <= s.log
    && NoneOfOurs(s, |start.log|, |s.log|)
  }

  /** Nothing of ours was carried out since `start`, and nothing is on its way. */
  ghost predicate Silent(start: Server, s: Server) {
    start.log <= s.log && s.inFlight.None? && NoneOfOurs(s, |start.log|, |s.log|)
  }

  lemma NothingYet(start: Server)
    requires WellFormed(start) && start.inFlight.None?
    ensures Idle(start, start)
  {
  }

  lemma AskedWhileIdle(start: Server, before: Server, asked: Server, s: Server)
    requires start.inFlight.None? && Later(start, before) && Asked(before, asked) && Later(asked, s)
    ensures Idle(start, asked) && Idle(start, s)
  {
    assert forall k | 0 <= k < |asked.log| :: s.log[k] == asked.log[k];
  }

  lemma LeaseBegins(start: Server, before: Server, asked: Server, id: nat)
    requires Idle(start, asked) && asked.lease == Ours(id)
    ensures UnderLease(start, asked, id, asked, Content(asked), true)
  {
  }

  lemma FirstReadIsExact(start: Server, sending: Server, first: Server, reading: Server, read: Server,
                         second: Server, remote: Containers)
    requires Idle(start, first) && start.stale == {}
    requires Later(first, reading) && Later(reading, read)
    requires Later(read, second) && second.lease.Ours?
    requires read.log == reading.log ==> forall n | n !in read.stale :: Get(remote, n) == Get(Content(read), n)
    ensures remote == Content(first)
    ensures second.log == first.log && second.inFlight.None? && second.stale == {} && second.origin == first.origin
  {
    LaterIsTransitive(first, reading, read);
    LaterIsTransitive(first, read, second);
    assert read.log == reading.log == first.log && read.stale == {};
    MapsAgree(remote, Content(first));
  }

  lemma UntouchedGrows(a: Containers, b: Containers, touched: set<Name>, n: Name)
    requires Untouched(a, b, touched)
    ensures Untouched(a, b, touched + {n})
  {
  }

  lemma UntouchedSame(a: Containers)
    ensures Untouched(a, a, {})
  {
  }

  lemma HeldThroughout(first: Server, s: Server)
    requires Later(first, s) && first.inFlight.None?
    ensures s.inFlight.None?
  {
  }

  lemma OursIsTheSame(first: Server, s: Server)
    requires Later(first, s)
    ensures s.lease.Ours? ==> s.lease == first.lease
  {
  }

  lemma UntouchedAt(a: Containers, b: Containers, touched: set<Name>, n: Name)
    requires Untouched(a, b, touched) && n !in touched
    ensures EntryAt(a, n) == EntryAt(b, n)
  {
    assert Get(a, n) == Get(b, n);
  }

  lemma CarriedOutHolds(base: Containers, first: Server, s: Server, m: Mutation, touched: set<Name>)
    requires CarriedOut(first, s, m)
    requires Untouched(base, Content(first), touched) && first.stale <= touched
    ensures Untouched(base, Content(s), touched + {m.name})
    ensures s.stale <= touched + {m.name} && s.inFlight.None? && |s.log| == |first.log| + 1
  {
    forall n | n !in touched + {m.name} ensures Get(base, n) == Get(Content(s), n) {
      assert Get(base, n) == Get(Content(first), n);
    }
  }

  function EntryFor(c: Option<Container>): Option<Entry> {
    if c.Some? then Some(EntryOf(c.value)) else None
  }

  /** The failures after which the lease may be somebody else's. */
  predicate Disowned(e: Failure) {
    e.status.Some? && e.status.value in {401, 403, 409}
  }

  /**
   * What a receipt proves: the lease was ours, under one id, from `grant` to `renewed`;
   * the content was the expected one at first and the local one at last; and every write
   * in between was one of ours, one per container that differs.
   */
  ghost predicate Proved(start: Server, s: Server, local: Digest, expected: Digest, grant: Server, renewed: Server) {
    && grant.origin == renewed.origin == s.origin
    && start.log <= grant.log <= renewed.log <= s.log
    && grant.lease.Ours? && renewed.lease == grant.lease
    && ContentOf(Content(grant)) == expected && ContentOf(Content(renewed)) == local
    && |renewed.log| == |grant.log| + |Changed(expected, local)|
    && forall k | |grant.log| <= k < |renewed.log| :: renewed.log[k].ours
  }

  /**
   * Replace the cloud's content, known to have the digest `expected`, by the local state.
   * `attempted` are the containers about to be mutated and `sent` those for which a request
   * was made; `grant` and `renewed` are the service when
   * the lease was first and last confirmed.
   */
  method Upload(ops: Cloud, local: State, expected: Digest, limit: nat)
    returns (r: Result<Receipt, UploadError>, ghost sent: seq<Name>, ghost attempted: set<Name>, ghost grant: Server, ghost renewed: Server)
    requires WellFormed(ops.s) && ops.s.inFlight.None? && ops.s.stale == {}
    modifies ops
    // Whatever happens, only content with the expected digest is overwritten ...
    ensures Guarded(old(ops.s), ops.s, expected)
    // ... each differing container is written or deleted at most once, and no other at all ...
    ensures ops.requests == old(ops.requests) + sent
    ensures EachOnce(sent, attempted) && attempted <= Changed(expected, DigestOf(local))
    // ... and the lease is only released if the last answer confirmed it to be ours.
    ensures ops.releases <= old(ops.releases) + 1
    ensures ops.releases > old(ops.releases) ==>
              && ops.answer.Some? && ops.answer.value.status in {200, 201} && ops.answer.value.owner.Id?
              && ops.asked.lease == Ours(ops.answer.value.owner.id)
              && (ops.answer.value.status == 200 ==> grant.lease == ops.asked.lease)
    ensures r.Ok? ==> ops.releases == old(ops.releases) + 1
    ensures r.Ok? ==> Proved(old(ops.s), ops.s, DigestOf(local), expected, grant, renewed)
    ensures r.Ok? ==> r.value.source == DigestOf(local) && r.value.before == expected
    ensures r.Ok? ==> r.value.changed == |sent| == |Changed(expected, DigestOf(local))|
    ensures r.Ok? ==> ops.calls - old(ops.calls) == 4 + 4 * |sent| + (ops.puts - old(ops.puts)) + (ops.uploads - old(ops.uploads))
    ensures r.Ok? ==> attempted == Changed(expected, DigestOf(local))
    ensures r.Err? ==> r.error.committed <= |attempted| <= r.error.committed + 1
    ensures r.Err? ==> (r.error.recoveryRequired <==> attempted != {})
    ensures attempted == {} ==> sent == [] && Silent(old(ops.s), ops.s)
  {
    hide UnderLease, Later, Untouched, Idle, EachOnce, Changed, Guarded, Proved, Silent;
    var run := new Write(ops, limit);
    ghost var start := ops.s;
    var result;
    result, sent := run.Transfer(local, expected, start);
    RunIsGuarded(start, ops.s, run.owner, run.grant, run.base, sent, run.mutated, expected, DigestOf(local));
    attempted, grant, renewed := run.mutated, run.grant, ops.asked;
    run.OwnerWasGranted(start);
    if result.Ok? {
      ReceiptIsProved(start, ops.asked, ops.s, run.owner.value, run.grant, run.base, run.mutated == {},
                      run.committed, expected, DigestOf(local));
    }
    if result.Err? && Disowned(result.error) {
      run.acquired := false;
    }
    var released := false;
    if run.acquired {
      ghost var u := ops.s;
      var answer := ops.Release();
      GuardedStays(start, u, ops.s, expected);
      if result.Ok? {
        ProvedStays(start, u, ops.s, DigestOf(local), expected, grant, renewed);
      }
      if run.mutated == {} {
        StillIdle(start, u, ops.s);
      }
      released := answer.Ok? && answer.value in {200, 204};
    }
    if run.mutated == {} {
      IdleWroteNothing(start, ops.s);
    }
    if result.Err? {
      r := Err(UploadError(result.error, run.committed, run.attempted));
    } else {
      r := Ok(Receipt(DigestOf(local), expected, run.committed, released));
    }
  }

  lemma RunIsGuarded(start: Server, s: Server, owner: Option<nat>, grant: Server, base: Containers,
                     sent: seq<Name>, mutated: set<Name>, expected: Digest, local: Digest)
    requires mutated == {} ==> Idle(start, s)
    requires owner.Some? ==> UnderLease(start, s, owner.value, grant, base, mutated == {})
    requires mutated != {} ==> owner.Some? && ContentOf(base) == expected
    requires mutated <= Changed(expected, local) && EachOnce(sent, mutated) && |sent| <= |mutated|
    ensures Guarded(start, s, expected)
    ensures mutated == {} ==> sent == []
  {
    if mutated != {} {
      assert GuardedFrom(start, s, expected, owner.value, |grant.log|);
    }
  }

  lemma ReceiptIsProved(start: Server, asked: Server, s: Server, id: nat, grant: Server, base: Containers,
                        quiet: bool, committed: nat, expected: Digest, local: Digest)
    requires UnderLease(start, asked, id, grant, base, quiet) && Later(asked, s)
    requires asked.lease == Ours(id) && |asked.log| == |grant.log| + committed
    requires ContentOf(base) == expected && ContentOf(Content(asked)) == local
    requires committed == |Changed(expected, local)|
    ensures Proved(start, s, local, expected, grant, asked)
  {
    assert forall k | 0 <= k < |asked.log| :: s.log[k] == asked.log[k];
  }

  lemma IdleWroteNothing(start: Server, s: Server)
    requires Idle(start, s)
    ensures Silent(start, s)
  {
  }

  lemma ProvedStays(start: Server, s: Server, t: Server, local: Digest, expected: Digest, grant: Server, renewed: Server)
    requires Proved(start, s, local, expected, grant, renewed) && Later(s, t)
    ensures Proved(start, t, local, expected, grant, renewed)
  {
    assert forall k | 0 <= k < |s.log| :: t.log[k] == s.log[k];
  }

  lemma StillIdle(start: Server, s: Server, t: Server)
    requires Idle(start, s) && Later(s, t)
    ensures Idle(start, t)
  {
    assert forall k | 0 <= k < |s.log| :: t.log[k] == s.log[k];
  }
}
