// The temporary block in the compositor's configuration (native/display_repair.rs): it is
// appended, the configuration is reloaded, and exactly the block is removed again.
// `power` counts how many more durable writes succeed before the machine stops.

module DisplayRepair {
  import opened Prelude
  import T = SettingsText

  type Text = string

  const MAX_CONFIG := 1024 * 1024
  function Marker(): Text {
    "-- flightdeck-x11-repair:"
  }

  function Begin(): Text {
    ":begin\nhl.config({ xwayland = { enabled = false } })\n"
  }

  function End(): Text {
    ":end\n"
  }

  // ----- Searching text ------------------------------------------------------------

  predicate MatchAt(text: Text, pattern: Text, p: nat) {
    p + |pattern| <= |text| && text[p..p + |pattern|] == pattern
  }

  /** The first match at or after `from`. */
  function Find(text: Text, pattern: Text, from_: nat): (r: Option<nat>)
    ensures r.Some? ==> from_ <= r.value && MatchAt(text, pattern, r.value)
    ensures forall p: nat | from_ <= p && (r.Some? ==> p < r.value) :: !MatchAt(text, pattern, p)
    decreases |text| - from_
  {
    if from_ + |pattern| > |text| then None
    else if MatchAt(text, pattern, from_) then Some(from_)
    else if from_ == |text| then None
    else Find(text, pattern, from_ + 1)
  }

  predicate Contains(text: Text, pattern: Text) {
    Find(text, pattern, 0).Some?
  }

  /** How many matches there are, from the left and without overlap. */
  function Count(text: Text, pattern: Text, from_: nat): nat
    requires |pattern| > 0
    decreases |text| - from_
  {
    match Find(text, pattern, from_)
    case None => 0
    case Some(p) => 1 + Count(text, pattern, p + |pattern|)
  }

  /** The text without the first match. */
  function Cut(text: Text, pattern: Text): Text {
    match Find(text, pattern, 0)
    case None => text
    case Some(p) => text[..p] + text[p + |pattern|..]
  }

  lemma Occurs(text: Text, pattern: Text, p: nat)
    requires MatchAt(text, pattern, p)
    ensures Contains(text, pattern)
  {
  }

  // ----- The lines a configuration must have ----------------------------------------------

  function RequireLine(quote: char): Text {
    "require(" + ([quote] + ("default.hypr" + (".omarchy" + ([quote] + ")"))))
  }

  function Share(): Text {
    "/usr/share/omarchy"
  }

  function Bootstrap(): Text {
    "/default/hypr/bootstrap.lua"
  }

  /** The desktop's own settings are loaded by name. */
  predicate Loads(line: Text) {
    line == RequireLine('"') || line == RequireLine('\'')
  }

  /** The desktop's start file is run from where the system keeps it. */
  predicate Boots(line: Text) {
    Contains(line, Bootstrap()) && "dofile(" <= line && Contains(line, Share())
  }

  /** Line `i` without the space around it; comments do not count. */
  predicate Says(config: Text, i: nat, line: Text) {
    i < |T.Split(config)| && T.Trim(T.Split(config)[i]) == line && !("--" <= line)
  }

  /** A configuration of the desktop that is known how to change. */
  ghost predicate Known(config: Text) {
    && (exists i: nat, line: Text :: Says(config, i, line) && Loads(line))
    && (exists i: nat, line: Text :: Says(config, i, line) && Boots(line))
  }

  // ----- The block --------------------------------------------------------------------

  /** What a random token looks like: 32 hexadecimal digits. */
  predicate Token(token: Text) {
    |token| == 32 && forall i | 0 <= i < |token| :: '0' <= token[i] <= '9' || 'a' <= token[i] <= 'f'
  }

  function Block(token: Text): (r: Text)
    ensures |r| > 0
  {
    "\n" + Marker() + token + Begin() + Marker() + token + End()
  }

  /** Where the second marker of a block is. */
  function Second(token: Text): nat {
    1 + |Marker()| + |token| + |Begin()|
  }

  lemma BlockParts(token: Text)
    ensures |Block(token)| == Second(token) + |Marker()| + |token| + |End()|
    ensures Block(token)[0] == '\n' == Block(token)[|Block(token)| - 1]
    ensures MatchAt(Block(token), Marker(), 1)
    ensures Block(token)[Second(token)..] == Marker() + token + End()
    ensures MatchAt(Block(token), Marker(), Second(token))
  {
    hide Marker, Begin;
    var head := "\n" + Marker() + token + Begin();
    assert Block(token) == head + (Marker() + token + End());
    assert Block(token) == "\n" + Marker() + (token + Begin() + Marker() + token + End());
  }

  lemma MarkerIsOneLine()
    ensures |Marker()| == 25
    ensures forall i | 0 <= i < |Marker()| :: Marker()[i] != '\n'
    ensures Marker()[0] == '-' == Marker()[1] && forall i | 0 < i < |Marker()| - 1 :: !(Marker()[i] == '-' == Marker()[i + 1])
    ensures Marker()[|Marker()| - 1] == ':'
  {
  }

  lemma MatchedChars(text: Text, pattern: Text, p: nat)
    requires MatchAt(text, pattern, p)
    ensures forall i | 0 <= i < |pattern| :: text[p + i] == pattern[i]
  {
    forall i | 0 <= i < |pattern| ensures text[p + i] == pattern[i] {
      assert text[p..p + |pattern|][i] == text[p + i];
    }
  }

  lemma MatchedChar(text: Text, pattern: Text, p: nat, i: nat)
    requires MatchAt(text, pattern, p) && i < |pattern|
    ensures text[p + i] == pattern[i]
  {
    MatchedChars(text, pattern, p);
  }

  /** Nothing that follows the start of a marker line begins with a marker. */
  lemma MarkerOnce(token: Text, o: nat)
    requires Token(token) && 0 < o
    ensures !MatchAt(Marker() + token + End(), Marker(), o)
  {
    MarkerIsOneLine();
    if MatchAt(Marker() + token + End(), Marker(), o) {
      MatchedChars(Marker() + token + End(), Marker(), o);
      assert false;
    }
  }

  predicate NoMarker(text: Text) {
    !Contains(text, Marker())
  }

  /** A match inside a part of a text is a match in the part. */
  lemma MatchInside(text: Text, a: nat, b: nat, pattern: Text, p: nat)
    requires a <= p && p + |pattern| <= b <= |text|
    ensures MatchAt(text, pattern, p) <==> MatchAt(text[a..b], pattern, p - a)
  {
    var part, n := text[a..b], |pattern|;
    var here, there := part[p - a..p - a + n], text[p..p + n];
    forall i | 0 <= i < n ensures here[i] == there[i] {
      assert part[p - a + i] == text[p + i];
    }
    assert here == there;
  }

  /** A marker cannot lie across a line break. */
  lemma NotAcross(text: Text, p: nat, n: nat)
    requires p <= n < p + |Marker()| && n < |text| && text[n] == '\n'
    ensures !MatchAt(text, Marker(), p)
  {
    hide Marker;
    MarkerIsOneLine();
    if MatchAt(text, Marker(), p) {
      MatchedChar(text, Marker(), p, n - p);
      assert false;
    }
  }

  /** A block contains its markers, the first right after its line break. */
  lemma BlockHasMarkers(text: Text, token: Text, p: nat)
    requires MatchAt(text, Block(token), p)
    ensures MatchAt(text, Marker(), p + 1) && MatchAt(text, Marker(), p + Second(token))
  {
    hide Marker, Begin, End, Block;
    BlockParts(token);
    assert text[p..p + |Block(token)|] == Block(token);
    MatchInside(text, p, p + |Block(token)|, Marker(), p + 1);
    MatchInside(text, p, p + |Block(token)|, Marker(), p + Second(token));
  }

  /** No block begins before the one between `a` and `b`. */
  lemma NoneEarlier(text: Text, a: nat, token: Text, p: nat)
    requires a < |text| && text[a] == '\n' && NoMarker(text[..a]) && p < a
    ensures !MatchAt(text, Block(token), p)
  {
    hide Block, Marker, Begin, End;
    if MatchAt(text, Block(token), p) {
      BlockHasMarkers(text, token, p);
      if p + 1 + |Marker()| <= a {
        MatchInside(text, 0, a, Marker(), p + 1);
      } else {
        NotAcross(text, p + 1, a);
      }
    }
  }

  /** After the second marker of the block that ends at `last`, no marker begins. */
  lemma NoMarkerAfter(text: Text, a: nat, last: nat, token: Text, q: nat)
    requires Token(token) && a + |Block(token)| == last + 1 <= |text| && text[a..last + 1] == Block(token)
    requires NoMarker(text[last + 1..]) && q > a + Second(token)
    ensures !MatchAt(text, Marker(), q)
  {
    hide Block, Marker, Begin, End, NoMarker;
    BlockParts(token);
    var start := a + Second(token);
    assert text[last] == Block(token)[last - a];
    if q + |Marker()| > |text| {
    } else if q > last {
      assert text[last + 1..|text|] == text[last + 1..];
      MatchInside(text, last + 1, |text|, Marker(), q);
      NoMarkerNowhere(text[last + 1..], q - last - 1);
    } else if q + |Marker()| > last {
      NotAcross(text, q, last);
    } else {
      assert text[start..last + 1] == text[a..last + 1][Second(token)..];
      MatchInside(text, start, last + 1, Marker(), q);
      MarkerOnce(token, q - start);
    }
  }

  lemma NoMarkerNowhere(text: Text, p: nat)
    requires NoMarker(text)
    ensures !MatchAt(text, Marker(), p)
  {
  }

  /** No block begins after the one that starts at `a` and ends with the line break at `last`. */
  lemma NoneLater(text: Text, a: nat, last: nat, token: Text, p: nat)
    requires Token(token) && a + |Block(token)| == last + 1 <= |text| && text[a..last + 1] == Block(token)
    requires NoMarker(text[last + 1..]) && a < p
    ensures !MatchAt(text, Block(token), p)
  {
    hide Block, Marker, Begin, End, NoMarker;
    NoMarkerAfter(text, a, last, token, p + Second(token));
    if MatchAt(text, Block(token), p) {
      BlockHasMarkers(text, token, p);
    }
  }

  /** Between texts without a marker, a block is only found where it was put. */
  lemma OnlyMatch(a: Text, token: Text, b: Text, p: nat)
    requires NoMarker(a) && NoMarker(b) && Token(token)
    ensures MatchAt(a + Block(token) + b, Block(token), p) <==> p == |a|
  {
    hide Block, NoMarker, Marker, Begin, End;
    var text, last := a + Block(token) + b, |a| + |Block(token)| - 1;
    BlockParts(token);
    assert text[..|a|] == a && text[last + 1..] == b && text[|a|..last + 1] == Block(token);
    assert text[|a|] == Block(token)[0];
    if p < |a| {
      NoneEarlier(text, |a|, token, p);
    } else if p > |a| {
      NoneLater(text, |a|, last, token, p);
    }
  }

  /** The restore removes exactly what was added, also if other lines were edited meanwhile. */
  lemma CutIsExact(a: Text, token: Text, b: Text)
    requires NoMarker(a) && NoMarker(b) && Token(token)
    ensures Count(a + Block(token) + b, Block(token), 0) == 1
    ensures Cut(a + Block(token) + b, Block(token)) == a + b
  {
    hide Block, Marker, Begin, End;
    var text := a + Block(token) + b;
    forall p: nat ensures MatchAt(text, Block(token), p) <==> p == |a| {
      OnlyMatch(a, token, b, p);
    }
    assert MatchAt(text, Block(token), |a|);
    assert Find(text, Block(token), 0) == Some(|a|);
    assert Find(text, Block(token), |a| + |Block(token)|) == None;
    assert text[..|a|] == a && text[|a| + |Block(token)|..] == b;
  }

  // ----- The journal ------------------------------------------------------------------

  datatype Phase = Prepared | Installed | Restoring | Completed

  datatype Journal = Journal(token: Text, original: Text, phase: Phase)

  datatype World = World(config: Text, journal: Option<Journal>, backup: Option<Text>)

  datatype Stop = Interrupted | Pending | Unsafe

  /** What holds whatever the user does to the configuration. */
  predicate Kept(w: World) {
    match w.journal
    case None => w.backup.None?
    case Some(j) =>
      && Token(j.token) && |j.original| <= MAX_CONFIG
      && (w.backup.Some? ==> w.backup == Some(j.original))
      && (j.phase in {Installed, Restoring} ==> w.backup.Some?)
  }

  /** Nobody else edited the configuration `o`: it is as it was, or has just the block added. */
  predicate Unedited(w: World, o: Text) {
    match w.journal
    case None => w.config == o
    case Some(j) =>
      && j.original == o && NoMarker(o) && !Contains(o, j.token)
      && (w.config == o || (w.config == o + Block(j.token) && w.backup.Some? && j.phase != Completed))
  }

  /** The block, its journal and its backup are all in place, and the configuration is too large to be read. */
  predicate Stuck(w: World, o: Text, token: Text) {
    w == World(o + Block(token), Some(Journal(token, o, Installed)), Some(o)) && |w.config| > MAX_CONFIG
  }

  /** The block is still there once, in a configuration that can be read. */
  predicate Restorable(w: World) {
    && w.journal.Some? && w.journal.value.phase != Completed && w.backup.Some?
    && |w.config| <= MAX_CONFIG && Count(w.config, Block(w.journal.value.token), 0) == 1
  }

  lemma NoBlockWithoutMarker(o: Text, token: Text)
    requires NoMarker(o)
    ensures Count(o, Block(token), 0) == 0
  {
    hide Block;
    if MatchAt(o, Block(token), Find(o, Block(token), 0).GetOr(0)) {
      BlockHasMarkers(o, token, Find(o, Block(token), 0).GetOr(0));
    }
  }

  /** In an undisturbed configuration the block is found exactly if it was added. */
  lemma UneditedIsClear(w: World, o: Text)
    requires Kept(w) && Unedited(w, o) && w.journal.Some?
    ensures var j := w.journal.value; var block := Block(j.token);
            if w.config == o then Count(w.config, block, 0) == 0 && !Contains(w.config, j.token)
            else Count(w.config, block, 0) == 1 && Cut(w.config, block) == o
  {
    hide Block, NoMarker;
    var token := w.journal.value.token;
    NoBlockWithoutMarker(o, token);
    NothingHasNoMarker();
    CutIsExact(o, token, []);
    assert o + Block(token) + [] == o + Block(token) && o + [] == o;
  }

  lemma NothingHasNoMarker()
    ensures NoMarker([])
  {
    MarkerIsOneLine();
  }

  /** Look for the two lines. */
  method IsKnown(config: Text) returns (known: bool)
    ensures known <==> Known(config)
  {
    hide T.Split, T.Trim, Loads, Boots;
    var lines := T.Split(config);
    var loads, boots := false, false;
    for i := 0 to |lines|
      invariant loads <==> exists k: nat, line: Text :: k < i && Says(config, k, line) && Loads(line)
      invariant boots <==> exists k: nat, line: Text :: k < i && Says(config, k, line) && Boots(line)
    {
      var line := T.Trim(lines[i]);
      if !("--" <= line) {
        assert Says(config, i, line);
        loads, boots := loads || Loads(line), boots || Boots(line);
      }
    }
    known := loads && boots;
  }

  class Repairer {
    var w: World
    var power: nat

    ghost predicate Valid()
      reads this
    {
      Kept(w)
    }

    constructor (config: Text)
      ensures Valid() && Unedited(w, config)
    {
      w := World(config, None, None);
      power := 0;
    }

    method Write(next: World) returns (r: Result<(), Stop>)
      modifies this
      ensures r == (if old(power) == 0 then Err(Interrupted) else Ok(()))
      ensures r.Ok? ==> w == next && power == old(power) - 1
      ensures r.Err? ==> w == old(w) && power == 0
    {
      if power == 0 {
        return Err(Interrupted);
      }
      w, power := next, power - 1;
      return Ok(());
    }

    /** Record that nothing is left to do, and remove the backup and then the journal. */
    method Clear(ghost o: Text) returns (r: Result<(), Stop>)
      requires Valid() && w.journal.Some?
      modifies this
      ensures Valid() && w.config == old(w).config
      ensures Unedited(old(w), o) && old(w).config == o ==> Unedited(w, o)
      ensures r.Ok? ==> w == World(old(w).config, None, None)
      ensures r.Err? ==> r == Err(Interrupted) && power == 0
      ensures old(power) >= 3 ==> r.Ok?
    {
      var journal := w.journal.value.(phase := Completed);
      if w.journal.value.phase != Completed {
        var _ :- Write(w.(journal := Some(journal)));
      }
      if w.backup.Some? {
        var _ :- Write(w.(backup := None));
      }
      r := Write(w.(journal := None));
    }

    /**
     * Remove exactly our block from whatever the configuration is now, and reload it. The
     * flag says whether a reload succeeds.
     */
    method Restore(reloads: bool, ghost o: Text) returns (r: Result<bool, Stop>)
      requires Valid()
      modifies this
      ensures Valid()
      ensures || w.config == old(w).config
              || (old(w).journal.Some? && var block := Block(old(w).journal.value.token);
                  Count(old(w).config, block, 0) == 1 && w.config == Cut(old(w).config, block))
      ensures r.Ok? ==> w.journal.None? && w.backup.None?
      ensures Unedited(old(w), o) ==> Unedited(w, o)
      // A configuration that is too large is never restored.
      ensures old(w).journal.Some? && old(w).journal.value.phase != Completed && |old(w).config| > MAX_CONFIG ==>
                r == Err(Pending) && w == old(w)
      // Whatever else was edited, the one block goes if the configuration fits and is reloaded.
      ensures Restorable(old(w)) && reloads && old(power) >= 5 ==>
                r.Ok? && w.config == Cut(old(w).config, Block(old(w).journal.value.token))
      // Undisturbed, it ends with the original exactly if the configuration can be opened and reloaded.
      ensures Unedited(old(w), o) && old(power) >= 5 ==>
                (r.Ok? <==> || old(w).journal.None?
                            || old(w).journal.value.phase == Completed
                            || (old(w).journal.value.phase == Prepared && old(w).config == o)
                            || (|old(w).config| <= MAX_CONFIG && reloads))
    {
      hide Block, Count, Contains, Cut, NoMarker;
      if w.journal.None? {
        return Ok(false);
      }
      ghost var undisturbed := Unedited(w, o);
      if undisturbed {
        UneditedIsClear(w, o);
      }
      var j := w.journal.value;
      var owned := Block(j.token);
      if j.phase == Completed {
        var _ :- Clear(o);
        return Ok(false);
      }
      if |w.config| > MAX_CONFIG {
        return Err(Pending);
      }
      var count := Count(w.config, owned, 0);
      if count > 1 {
        return Err(Pending);
      }
      if count == 0 && j.phase == Prepared && !Contains(w.config, j.token) {
        var _ :- Clear(o);
        return Ok(false);
      }
      if w.backup != Some(j.original) {
        return Err(Pending);
      }
      if count != 1 && Contains(w.config, j.token) {
        return Err(Pending);
      }
      if count == 1 {
        var restored := Cut(w.config, owned);
        var _ :- Write(w.(journal := Some(j.(phase := Restoring))));
        var _ :- Write(w.(config := restored));
      }
      if !reloads {
        return Err(Pending);
      }
      var _ :- Clear(o);
      return Ok(true);
    }

    /** Add the block; `quiet` says that the last checks before it still pass. */
    method Disable(token: Text, quiet: bool, reloads: bool) returns (r: Result<(), Stop>)
      requires Valid() && w.journal.Some? && w.journal.value.token == token && w.backup.Some?
      requires w.journal.value.phase == Prepared
      modifies this
      ensures Valid() && w.backup == old(w).backup
      ensures w.journal.Some? && w.journal.value == old(w).journal.value.(phase := w.journal.value.phase)
      ensures Unedited(old(w), old(w).config) ==> Unedited(w, old(w).config)
      ensures r.Ok? ==> quiet && reloads && w.journal.value.phase == Installed && w.config == old(w).config + Block(token)
      ensures old(power) >= 2 && quiet && reloads ==> r.Ok? && power == old(power) - 2
      ensures old(power) >= 2 && quiet ==>
                w.config == old(w).config + Block(token) && w.journal.value.phase == Installed && power == old(power) - 2
      ensures w.config == old(w).config || (quiet && w.config == old(w).config + Block(token))
    {
      hide Block, Contains, NoMarker;
      if !quiet {
        return Err(Unsafe);
      }
      var _ :- Write(w.(config := w.config + Block(token)));
      var _ :- Write(w.(journal := Some(w.journal.value.(phase := Installed))));
      if !reloads {
        return Err(Pending);
      }
      return Ok(());
    }

    /**
     * Turn the X11 server off and on again by adding the block, reloading, and restoring.
     * The flags are what the compositor answers: whether the session is suitable, still
     * quiet when it matters, and whether the first and the second reload succeed.
     */
    method Repair(token: Text, suitable: bool, quiet: bool, reloads: bool, reloadsAgain: bool) returns (r: Result<(), Stop>)
      requires Valid()
      // Tokens are random and new.
      requires Token(token) && !Contains(w.config, token)
      modifies this
      ensures Valid()
      ensures old(w).journal.None? ==> Unedited(w, old(w).config)
      ensures old(w).journal.Some? ==> r.Err? && w == old(w)
      ensures r.Ok? ==> w == World(old(w).config, None, None) && suitable && quiet && reloads
      ensures r.Ok? ==> Known(w.config) && NoMarker(w.config) && |w.config| <= MAX_CONFIG
      // If the configuration with the block is too large, all of it is left behind.
      ensures old(w).journal.None? && old(power) >= 4 && suitable && quiet && Known(old(w).config)
              && NoMarker(old(w).config) && |old(w).config| <= MAX_CONFIG < |old(w).config| + |Block(token)| ==>
                r == Err(Pending) && Stuck(w, old(w).config, token)
      ensures old(w).journal.None? && old(power) >= 9 && suitable && quiet && reloads && reloadsAgain
              && Known(old(w).config) && NoMarker(old(w).config) ==>
                (r.Ok? <==> |old(w).config| + |Block(token)| <= MAX_CONFIG)
    {
      hide Block, Contains, Count, Cut, Known;
      if !suitable || |w.config| > MAX_CONFIG {
        return Err(Unsafe);
      }
      var known := IsKnown(w.config);
      if !known || !NoMarker(w.config) {
        return Err(Unsafe);
      }
      if w.journal.Some? || w.backup.Some? {
        return Err(Pending);
      }
      ghost var o := w.config;
      // The journal exists before the backup, and the backup before the block.
      var _ :- Write(w.(journal := Some(Journal(token, w.config, Prepared))));
      var _ :- Write(w.(backup := Some(w.config)));
      var operation := Disable(token, quiet, reloads);
      var _ :- Restore(reloadsAgain, o);
      r := operation;
    }

    /** The user writes the configuration. */
    method Edit(config: Text)
      requires Valid()
      modifies `w
      ensures Valid() && w == old(w).(config := config)
    {
      w := w.(config := config);
    }

    /**
     * A repair of a configuration that fits only without the block: it fails, every restore
     * after it fails and changes nothing, and only once the user has shortened the lines
     * around the block does a restore remove it, and exactly it.
     */
    method RepairTooLarge(token: Text, reloads: bool, before: Text, after: Text)
      requires Valid() && w.journal.None? && power >= 4
      requires Token(token) && !Contains(w.config, token) && Known(w.config) && NoMarker(w.config)
      requires |w.config| <= MAX_CONFIG < |w.config| + |Block(token)|
      requires NoMarker(before) && NoMarker(after) && |before + Block(token) + after| <= MAX_CONFIG
      modifies this
      ensures Valid() && w == World(before + after, None, None)
    {
      hide Block, Contains, Count, Cut, NoMarker, Known;
      ghost var o := w.config;
      var repaired := Repair(token, true, true, reloads, true);
      assert repaired == Err(Pending) && Stuck(w, o, token);
      var tries: nat := *;
      while tries > 0
        invariant Valid() && Stuck(w, o, token)
      {
        power := *;
        var again: bool := *;
        var restored := Restore(again, o);
        assert restored == Err(Pending);
        tries := tries - 1;
      }
      Edit(before + Block(token) + after);
      CutIsExact(before, token, after);
      power := 5;
      var restored := Restore(true, o);
    }

    /**
     * Repairs and restores in any order, each stopped anywhere, while nobody edits the
     * configuration: block and backup only exist beside a journal, and without one the
     * configuration is the original, byte for byte.
     */
    method AnyRun()
      requires Valid() && w.journal.None?
      modifies this
      ensures Valid() && Unedited(w, old(w).config)
      ensures w.journal.None? ==> w == World(old(w).config, None, None)
    {
      hide Block, Contains, Count, Cut, NoMarker, Kept;
      ghost var o := w.config;
      var steps: nat := *;
      while steps > 0
        invariant Valid() && Unedited(w, o)
      {
        power := *;
        var reloads: bool := *;
        if * {
          var token: Text, suitable: bool, quiet: bool, again: bool := *, *, *, *;
          if Token(token) && !Contains(w.config, token) {
            var repaired := Repair(token, suitable, quiet, reloads, again);
          }
        } else {
          var restored := Restore(reloads, o);
        }
        steps := steps - 1;
      }
      if w.journal.None? {
        NoBackupWithoutJournal(w);
      }
    }
  }

  lemma NoBackupWithoutJournal(w: World)
    requires Kept(w) && w.journal.None?
    ensures w.backup.None?
  {
  }

  // ----- A configuration that is too large -------------------------------------------------

  /** The start file is run. */
  function BootLine(): Text {
    ("dofile(" + ['"']) + (Share() + (Bootstrap() + (['"'] + ")")))
  }

  /** The lines a configuration must have, and a comment that fills it up. */
  function LargeLines(n: nat): seq<Text> {
    [BootLine() + ['\n'], RequireLine('"') + ['\n'], ['-', '-'] + seq(n, _ => 'x')]
  }

  /** Neither a dash, nor the digit of the token, nor a line break. */
  predicate Simple(text: Text) {
    forall p | 0 <= p < |text| :: text[p] != '-' && text[p] != '0' && text[p] != '\n'
  }

  lemma LinesAreSimple()
    ensures Simple(BootLine()) && Simple(RequireLine('"'))
    ensures 0 < |BootLine()| < 100 && BootLine()[0] == 'd' && BootLine()[|BootLine()| - 1] == ')'
    ensures var line := RequireLine('"'); 0 < |line| < 100 && line[0] == 'r' && line[|line| - 1] == ')'
  {
    assert Simple("dofile(") && Simple(Share()) && Simple(Bootstrap()) && Simple(")");
    assert Simple("require(") && Simple("default.hypr") && Simple(".omarchy");
  }

  lemma TrimmedLine(body: Text)
    requires body != [] && !T.White(body[0]) && !T.White(body[|body| - 1])
    ensures T.Trim(body + ['\n']) == body
  {
    var line := body + ['\n'];
    T.RunIs(line, T.Whites, 0);
    assert line[0..] == line && line[..|body|] == body;
    assert T.TrimEnd(line) == T.TrimEnd(body) == body;
  }

  lemma BootLineBoots()
    ensures Boots(BootLine())
  {
    hide Share, Bootstrap, Contains;
    var line, head := BootLine(), "dofile(" + ['"'];
    assert line == head + (Share() + (Bootstrap() + (['"'] + ")")));
    assert line[|head|..|head| + |Share()|] == Share();
    Occurs(line, Share(), |head|);
    var p := |head| + |Share()|;
    assert line[p..p + |Bootstrap()|] == Bootstrap();
    Occurs(line, Bootstrap(), p);
    assert line[..7] == "dofile(";
  }

  lemma NoneIsWhite()
    ensures !T.White('d') && !T.White('r') && !T.White(')')
  {
  }

  lemma LargeIsKnown(n: nat)
    ensures Known(T.Join(LargeLines(n)))
  {
    hide BootLine, RequireLine, Boots, T.Split, T.Trim, T.Join, T.White;
    var lines := LargeLines(n);
    LinesAreSimple();
    assert T.IsLine(lines[0]) && T.IsLine(lines[1]) && T.IsLine(lines[2]);
    T.SplitJoined(lines);
    NoneIsWhite();
    TrimmedLine(BootLine());
    TrimmedLine(RequireLine('"'));
    BootLineBoots();
    assert Says(T.Join(lines), 0, BootLine()) && Says(T.Join(lines), 1, RequireLine('"'));
  }

  lemma NoDashes(text: Text)
    requires forall p | 0 <= p < |text| - 2 :: !(text[p] == '-' == text[p + 1] && text[p + 2] == ' ')
    ensures NoMarker(text)
  {
    MarkerBegins();
    if Contains(text, Marker()) {
      MatchedChars(text, Marker(), Find(text, Marker(), 0).value);
      assert false;
    }
  }

  lemma MarkerBegins()
    ensures |Marker()| > 2 && Marker()[0] == '-' == Marker()[1] && Marker()[2] == ' '
  {
  }

  lemma NoSuchToken(text: Text, token: Text)
    requires token != [] && forall p | 0 <= p < |text| :: text[p] != token[0]
    ensures !Contains(text, token)
  {
    if Contains(text, token) {
      MatchedChars(text, token, Find(text, token, 0).value);
      assert false;
    }
  }

  function LargeConfig(): Text {
    T.Join(LargeLines(Filling()))
  }

  /** How much makes the configuration exactly as large as it may be. */
  function Filling(): nat {
    LinesAreSimple();
    MAX_CONFIG - 4 - |BootLine()| - |RequireLine('"')|
  }

  /**
   * A configuration of exactly the limit that is acceptable in every way, and too large with
   * any block: a repair leaves it as `RepairTooLarge` says.
   */
  lemma LargeConfigIsTooLarge()
    ensures var o, token := LargeConfig(), seq(32, _ => '0');
            && Known(o) && NoMarker(o) && Token(token) && !Contains(o, token)
            && |o| == MAX_CONFIG < |o| + |Block(token)|
  {
    hide BootLine, RequireLine, Contains, NoMarker, Block, Known;
    LinesAreSimple();
    var lines, token := LargeLines(Filling()), seq(32, _ => '0');
    var o, r := LargeConfig(), |BootLine()| + |RequireLine('"')| + 2;
    LargeIsKnown(Filling());
    assert o == lines[0] + (lines[1] + (lines[2] + [])) by {
      assert lines[1..] == [lines[1], lines[2]] && lines[2..] == [lines[2]];
      JoinsThree(lines[0], lines[1], lines[2]);
    }
    assert forall p | 0 <= p < r :: o[p] != '-' && o[p] != '0';
    assert o[r] == '-' == o[r + 1] && forall p | r + 2 <= p < |o| :: o[p] == 'x';
    NoDashes(o);
    NoSuchToken(o, token);
  }

  lemma JoinsThree(a: Text, b: Text, c: Text)
    ensures T.Join([a, b, c]) == a + (b + (c + []))
  {
    assert [a, b, c][1..] == [b, c] && [b, c][1..] == [c] && [c][1..] == [];
    assert T.Join([c]) == c + [] && T.Join([b, c]) == b + T.Join([c]);
  }
}
