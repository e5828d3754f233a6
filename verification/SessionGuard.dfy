// The fence around a play session (native/cloud_process_guard.rs) and the order in which a
// session compares, plays and uploads (native/cloud_auto.rs). Processes come and go at any
// moment; what is asked for may be refused or fail wherever a method may return an error.

module SessionGuard {
  import opened Prelude

  type Pid = nat

  /**
   * A live process bound to the runtime. `session` says that it descends from a process a
   * session started, which the launcher cannot see; it sees whether the binding is
   * confirmed, and whether it is another Windows application.
   */
  datatype Writer = Writer(session: bool, confirmed: bool, application: bool)

  /** The durable fence: the boot it was set in, and which file it is. */
  datatype Fence = Fence(boot: nat, identity: nat)

  datatype World = World(boot: nat, fence: Option<Fence>, live: map<Pid, Writer>)

  datatype Stop = Unsafe | Failed

  predicate NoSession(live: map<Pid, Writer>) {
    forall p | p in live :: !live[p].session
  }

  /** A fence of this boot stands. */
  predicate Standing(w: World) {
    w.fence.Some? && w.fence.value.boot == w.boot
  }

  /** While a process of a session may still write, a fence of this boot stands. */
  predicate Fenced(w: World) {
    NoSession(w.live) || Standing(w)
  }

  /**
   * What can happen meanwhile: processes end, start others, or are started by the user
   * outside any session; and the fence may be replaced by an equal one.
   */
  predicate Drifted(a: World, b: World) {
    && b.boot == a.boot
    && (NoSession(a.live) ==> NoSession(b.live))
    && (a.fence.None? <==> b.fence.None?)
    && (a.fence.Some? ==> b.fence.value.boot == a.fence.value.boot)
  }

  datatype Kind = Backup | Compare | Retain | Play | Upload

  /**
   * Something that reads or writes saves, and what was so when it did: whether a fence of
   * this boot stood, no process of a session was left, nothing at all was bound, and
   * something had been started outside every session since nothing last was.
   */
  datatype Event = Event(kind: Kind, standing: bool, quiet: bool, alone: bool, outsider: bool)

  /** Comparisons, retention and uploads run without a fence; play only behind one. */
  predicate Proper(e: Event) {
    if e.kind == Play then e.standing else e.kind == Backup || !e.standing
  }

  /** Whoever is bound besides play was started outside every session. */
  predicate Undisturbed(e: Event) {
    e.kind == Play || (e.quiet && (e.alone <==> !e.outsider))
  }

  predicate AllProper(events: seq<Event>) {
    forall i | 0 <= i < |events| :: Proper(events[i]) && Undisturbed(events[i])
  }

  /** Processes without a session were started outside, or descend from one that was, since nothing last was bound. */
  predicate Tracked(live: map<Pid, Writer>, outsider: bool) {
    && ((exists p | p in live :: !live[p].session) ==> outsider)
    && (outsider ==> live != map[])
  }

  /** Without processes of a session, something is bound exactly if something was started outside. */
  lemma BoundIsOutside(live: map<Pid, Writer>, outsider: bool)
    requires Tracked(live, outsider) && NoSession(live)
    ensures live != map[] <==> outsider
  {
    if live != map[] {
      var p :| p in live;
    }
  }

  class Guard {
    var w: World
    var child: Option<Pid>
    ghost var events: seq<Event>
    // Something was started outside every session since the last time nothing was bound.
    ghost var outsider: bool

    ghost predicate Valid()
      reads this
    {
      Fenced(w) && Tracked(w.live, outsider) && AllProper(events)
    }

    constructor ()
      ensures Valid() && events == [] && w == World(0, None, map[])
    {
      w := World(0, None, map[]);
      child := None;
      events := [];
      outsider := false;
    }

    /** The user starts a program in the profile, outside any session. */
    method StartOutside(pid: Pid, confirmed: bool, application: bool)
      requires pid !in w.live
      modifies `w, `outsider
      ensures w == old(w).(live := old(w).live[pid := Writer(false, confirmed, application)]) && outsider
    {
      w := w.(live := w.live[pid := Writer(false, confirmed, application)]);
      outsider := true;
    }

    /** Any number of things the launcher does not do itself. */
    method Drift()
      modifies `w, `outsider
      ensures Drifted(old(w), w)
      ensures Fenced(old(w)) ==> Fenced(w)
      ensures Tracked(old(w).live, old(outsider)) ==> Tracked(w.live, outsider)
    {
      var steps: nat := *;
      while steps > 0
        invariant Drifted(old(w), w)
        invariant Tracked(old(w).live, old(outsider)) ==> Tracked(w.live, outsider)
      {
        var pid: Pid, confirmed: bool, application: bool := *, *, *;
        if {
          case true =>
            w := w.(live := w.live - {pid});
            outsider := outsider && w.live != map[];
          case w.live != map[] =>
            var parent :| parent in w.live;
            if pid !in w.live {
              w := w.(live := w.live[pid := Writer(w.live[parent].session, confirmed, application)]);
              assert pid in w.live;
            }
          case true =>
            if pid !in w.live {
              StartOutside(pid, confirmed, application);
              assert pid in w.live;
            }
          case w.fence.Some? =>
            var identity: nat := *;
            w := w.(fence := Some(w.fence.value.(identity := identity)));
        }
        steps := steps - 1;
      }
    }

    /** The machine restarts: nothing is left running, and the boot is another. */
    method Reboot()
      requires Valid()
      modifies `w, `child, `outsider
      ensures Valid() && w == old(w).(boot := old(w).boot + 1, live := map[]) && child.None?
    {
      w := w.(boot := w.boot + 1, live := map[]);
      outsider := false;
      child := None;
    }

    /** Nothing may start behind a fence of this boot; an older one is void. */
    method Check() returns (r: Result<(), Stop>)
      requires Valid()
      modifies `w, `outsider
      ensures Valid()
      ensures old(Standing(w)) ==> r == Err(Unsafe) && Standing(w)
      ensures r.Ok? ==> w.fence.None? && NoSession(w.live)
    {
      Drift();
      var previous := w.fence;
      if previous.Some? {
        if previous.value.boot == w.boot {
          return Err(Unsafe);
        }
        Drift();
        if * {
          return Err(Failed);
        }
        w := w.(fence := None);
        // Even once it is removed, making that last may fail.
        if * {
          return Err(Failed);
        }
      } else if * {
        return Err(Failed);
      }
      Drift();
      return Ok(());
    }

    /** Set the fence before anything is started. */
    method Mark() returns (r: Result<(), Stop>)
      requires Valid()
      modifies `w, `outsider
      ensures Valid()
      ensures r.Ok? ==> Standing(w)
    {
      Drift();
      if * {
        return Err(Failed);
      }
      if !(w.fence.Some? && w.fence.value.boot == w.boot) {
        var identity: nat := *;
        w := w.(fence := Some(Fence(w.boot, identity)));
      }
      if * {
        return Err(Failed);
      }
      Drift();
      return Ok(());
    }

    /**
     * End what remains of a session. Only processes whose binding is confirmed are ever
     * signalled; without the user's request nothing is while another application runs.
     */
    method Terminate(applications: bool) returns (r: Result<(), Stop>, ghost signalled: map<Pid, Writer>)
      requires Valid()
      modifies `w, `outsider
      ensures Valid() && Drifted(old(w), w)
      ensures forall p | p in signalled :: signalled[p].confirmed && (applications || !signalled[p].application)
    {
      signalled := map[];
      for round := 0 to 2
        invariant Valid() && Drifted(old(w), w)
        invariant forall p | p in signalled :: signalled[p].confirmed && (applications || !signalled[p].application)
      {
        Drift();
        if !applications && exists p | p in w.live :: w.live[p].application {
          return Err(Unsafe), signalled;
        }
        var writers := map p | p in w.live && w.live[p].confirmed :: w.live[p];
        if writers == map[] {
          return Ok(()), signalled;
        }
        signalled := signalled + writers;
        // Some of them end; one that hangs in the kernel does not.
        var ended: set<Pid> := *;
        w := w.(live := w.live - (ended * writers.Keys));
        outsider := outsider && w.live != map[];
        Drift();
      }
      return Ok(()), signalled;
    }

    /** Nobody who could write is left. */
    method Quiescent() returns (r: Result<(), Stop>)
      requires Valid()
      modifies `w, `outsider
      ensures Valid() && Drifted(old(w), w)
      ensures r.Ok? ==> NoSession(w.live)
    {
      Drift();
      if w.live != map[] {
        return Err(Unsafe);
      }
      Drift();
      return Ok(());
    }

    /** Remove the fence, if it is still the very one that was read and nobody is left. */
    method Clear() returns (r: Result<(), Stop>)
      requires Valid()
      modifies `w, `outsider
      ensures Valid()
      ensures r.Ok? ==> old(Standing(w)) && w.fence.None? && NoSession(w.live)
      ensures r.Err? ==> (Standing(w) <==> old(Standing(w))) || (w.fence.None? && NoSession(w.live))
    {
      Drift();
      var seen := w.fence;
      if seen.None? || seen.value.boot != w.boot {
        return Err(Unsafe);
      }
      ghost var signalled;
      var ended;
      ended, signalled := Terminate(false);
      var _ :- ended;
      var _ :- Quiescent();
      if w.fence != seen {
        return Err(Unsafe);
      }
      w := w.(fence := None);
      Drift();
      // Making the removal last may still fail.
      if * {
        return Err(Failed);
      }
      return Ok(());
    }

    ghost function Now(kind: Kind): Event
      reads this
    {
      Event(kind, Standing(w), NoSession(w.live), w.live == map[], outsider)
    }

    method Record(kind: Kind)
      requires Valid() && (if kind == Play then Standing(w) else NoSession(w.live) && (kind == Backup || !Standing(w)))
      modifies `events
      ensures Valid() && events == old(events) + [Now(kind)]
    {
      if NoSession(w.live) {
        BoundIsOutside(w.live, outsider);
      }
      events := events + [Now(kind)];
    }

    /** After an interruption: end the session, back up, and only then remove the fence. */
    method Recover() returns (r: Result<(), Stop>)
      requires Valid()
      modifies `w, `events, `outsider
      ensures Valid() && old(events) <= events
      ensures r.Ok? ==> w.fence.None? && NoSession(w.live)
      ensures r.Ok? ==> |events| == |old(events)| + 1 && events[|events| - 1].kind == Backup
      ensures r.Err? ==> (Standing(w) <==> old(Standing(w))) || (w.fence.None? && NoSession(w.live))
    {
      Drift();
      var seen := w.fence;
      ghost var signalled;
      var ended;
      ended, signalled := Terminate(true);
      var _ :- ended;
      var _ :- Quiescent();
      if * {
        return Err(Failed);
      }
      Record(Backup);
      var _ :- Quiescent();
      if w.fence != seen {
        return Err(Unsafe);
      }
      if * {
        return Err(Failed);
      }
      w := w.(fence := None);
      Drift();
      if * {
        return Err(Failed);
      }
      return Ok(());
    }

    /** Back up, compare, retain or upload; what stood is noted when it begins and when it ends. */
    method Access(kind: Kind) returns (r: Result<(), Stop>)
      requires Valid() && kind != Play && NoSession(w.live) && w.fence.None?
      modifies `w, `events, `outsider
      ensures Valid() && NoSession(w.live) && w.fence.None?
      ensures |events| == |old(events)| + 2 && old(events) <= events && events[|events| - 1].kind == kind
      ensures events[|old(events)|] == old(Now(kind))
    {
      Record(kind);
      Drift();
      Record(kind);
      if * {
        return Err(Failed);
      }
      return Ok(());
    }

    /** Start the supervisor. A failure may leave processes behind, with or without a child. */
    method Spawn() returns (r: Result<(), Stop>)
      requires Valid() && Standing(w) && child.None?
      modifies `w, `child, `events, `outsider
      ensures Valid() && Standing(w) && old(events) <= events
      ensures r.Ok? ==> child.Some?
      ensures |events| == |old(events)| + 1 && events[|events| - 1].kind == Play
    {
      var pid: Pid := *;
      var outcome: nat := *;
      Record(Play);
      if pid !in w.live && outcome > 0 {
        w := w.(live := w.live[pid := Writer(true, true, false)]);
        if outcome > 1 {
          child := Some(pid);
        }
      }
      Drift();
      if child.None? {
        return Err(Failed);
      }
      if * {
        return Err(Failed);
      }
      return Ok(());
    }

    /** Wait until the supervisor has ended; None if a signal ended it. */
    method Wait() returns (r: Result<Option<int>, Stop>)
      requires Valid() && child.Some?
      modifies `w, `child, `outsider
      ensures Valid() && Drifted(old(w), w)
      ensures r.Ok? ==> child.None?
    {
      var patience: nat := *;
      while patience > 0 && child.value in w.live
        invariant Valid() && Drifted(old(w), w) && child.Some?
        decreases patience
      {
        Drift();
        patience := patience - 1;
      }
      if child.value in w.live {
        // Another request has taken the session over.
        return Err(Failed);
      }
      child := None;
      var code: Option<int> := *;
      return Ok(code);
    }

    /** Fence, play, and clear the fence once the game has ended. */
    method PlayFenced() returns (r: Result<(), Stop>)
      requires Valid() && child.None?
      modifies this
      ensures Valid() && old(events) <= events
      ensures r.Ok? ==> w.fence.None? && NoSession(w.live) && child.None?
    {
      hide Tracked, AllProper;
      var _ :- Mark();
      var spawned := Spawn();
      if spawned.Err? {
        if child.None? {
          var _ :- Clear();
        }
        return spawned;
      }
      var code :- Wait();
      if code.None? {
        return Err(Unsafe);
      }
      r := Clear();
    }

    /** What comes before play: back up, compare, note that the device may fall behind, and let old history go. */
    method Prepare(localOnly: bool) returns (r: Result<(), Stop>)
      requires Valid() && NoSession(w.live) && w.fence.None?
      modifies `w, `events, `outsider
      ensures Valid() && NoSession(w.live) && w.fence.None?
      ensures old(events) <= events
    {
      hide Tracked, AllProper;
      var _ :- Access(Backup);
      if !localOnly {
        var _ :- Access(Compare);
      }
      if * {
        return Err(Failed);
      }
      // Retention may fail; that holds nothing up.
      var _ := Access(Retain);
      return Ok(());
    }

    /**
     * One session: check, back up, compare, retain, fence, play, clear, back up, upload. A retry
     * after the game only uploads. It may stop after any step.
     */
    method Run(retry: bool, localOnly: bool) returns (r: Result<(), Stop>)
      requires Valid() && child.None?
      modifies this
      ensures Valid() && old(events) <= events
      ensures old(Standing(w)) ==> r.Err? && events == old(events) && Standing(w)
      ensures r.Ok? ==> w.fence.None? && NoSession(w.live) && |events| > |old(events)|
      ensures r.Ok? ==> events[|events| - 1].kind == if localOnly then Backup else Upload
    {
      hide Tracked, AllProper;
      var _ :- Check();
      if !retry || localOnly {
        var _ :- Prepare(localOnly);
        var _ :- PlayFenced();
        var _ :- Access(Backup);
        if localOnly {
          return Ok(());
        }
      }
      r := Access(Upload);
    }

    /** Over every run of sessions, recoveries, restarts of the launcher and reboots, it stays so. */
    method AnyRun()
      requires Valid() && child.None?
      modifies this
      ensures Valid() && old(events) <= events
      ensures forall i | 0 <= i < |events| && events[i].kind != Play :: events[i].alone <==> !events[i].outsider
      ensures !Standing(w) ==> (w.live != map[] <==> outsider)
    {
      var steps: nat := *;
      while steps > 0
        invariant Valid() && old(events) <= events
      {
        if {
          case true =>
            // The launcher starts again; processes and the fence are still there.
            child := None;
            var retry: bool, localOnly: bool := *, *;
            var ran := Run(retry, localOnly);
          case true =>
            var recovered := Recover();
          case true =>
            Reboot();
          case true =>
            Drift();
        }
        steps := steps - 1;
      }
      if NoSession(w.live) {
        BoundIsOutside(w.live, outsider);
      }
    }
  }

  /** The fence does not keep out what the user starts: here a comparison begins while such a program is bound. */
  method ComparesBesideOutsider(kind: Kind) returns (g: Guard, ghost w: World)
    requires kind != Play
    ensures fresh(g) && g.Valid()
    ensures w == World(0, None, map[0 := Writer(false, true, false)])
    ensures |g.events| == 2 && g.events[0] == Event(kind, false, true, false, true)
  {
    g := new Guard();
    g.StartOutside(0, true, false);
    w := g.w;
    var _ := g.Access(kind);
  }
}
