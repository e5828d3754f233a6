// The game's NVIDIA options under the launch profile, and their undo, option by option
// (native/graphics_settings.rs).

module GraphicsSettings {
  import opened Prelude
  import opened SettingsText

  // ----- The known options -----------------------------------------------------------

  datatype Setting = AntiAliasing | Reflex | FrameGeneration

  function NameOf(s: Setting): string {
    match s
    case AntiAliasing => "AntiAliasing"
    case Reflex => "Reflex"
    case FrameGeneration => "FrameGeneration"
  }

  /** An option's name, for the screen or for VR. */
  function SettingOf(key: string): Option<Setting> {
    var base := if |key| >= 2 && key[|key| - 2..] == "VR" then key[..|key| - 2] else key;
    if base == NameOf(AntiAliasing) then Some(AntiAliasing)
    else if base == NameOf(Reflex) then Some(Reflex)
    else if base == NameOf(FrameGeneration) then Some(FrameGeneration)
    else None
  }

  /** Values that need NVIDIA hardware. */
  predicate Unsupported(s: Setting, value: string) {
    match s
    case AntiAliasing => value == "DLSS"
    case Reflex => value in ["ON", "BOOST", "ONBOOST", "ON+BOOST"]
    case FrameGeneration => value == "DLSSG"
  }

  function Safe(s: Setting): string {
    match s
    case AntiAliasing => "TAA"
    case Reflex => "OFF"
    case FrameGeneration => "NONE"
  }

  type Undo = map<string, string>

  /** Only unsupported values of known options are ever kept for an undo. */
  predicate ValidUndo(u: Undo) {
    forall k | k in u :: SettingOf(k).Some? && Unsupported(SettingOf(k).value, u[k])
  }

  lemma SafeIsSupported(s: Setting)
    ensures !Unsupported(s, Safe(s))
  {
  }

  // ----- One line ------------------------------------------------------------------------

  datatype Parts = Parts(indent: Text, key: Text, space: Text, value: Text, trailing: Text, newline: Text)

  function Render(p: Parts): Text {
    p.indent + (p.key + (p.space + (p.value + (p.trailing + p.newline))))
  }

  predicate GoodValue(value: Text) {
    1 <= |value| <= 32 && AllIn(value, Darks)
  }

  predicate GoodParts(p: Parts) {
    && AllIn(p.indent, Blanks)
    && SettingOf(p.key).Some?
    && p.space != [] && AllIn(p.space, Blanks)
    && GoodValue(p.value)
    && AllIn(p.trailing, Blanks)
    && p.newline in [[], ['\n'], ['\r', '\n']]
  }

  /** The longest prefix of one class, and the rest. */
  function Taken(t: Text, class_: Class): (Text, Text) {
    (t[..Run(t, class_)], t[Run(t, class_)..])
  }

  lemma TakenIs(t: Text, class_: Class)
    ensures Taken(t, class_).0 + Taken(t, class_).1 == t && AllIn(Taken(t, class_).0, class_)
  {
  }

  lemma TakenOf(a: Text, b: Text, class_: Class)
    requires AllIn(a, class_) && (b != [] ==> !In(b[0], class_))
    ensures Taken(a + b, class_) == (a, b)
  {
    assert forall i | 0 <= i < |a| :: (a + b)[i] == a[i];
    RunIs(a + b, class_, |a|);
  }

  /** An option line: indent, key, blanks, value, blanks and the line break, and nothing else. */
  function Parse(line: Text): Option<Parts> {
    var (indent, a) := Taken(line, Blanks);
    var (key, b) := Taken(a, Darks);
    var (space, c) := Taken(b, Blanks);
    var (value, d) := Taken(c, Darks);
    var (trailing, newline) := Taken(d, Blanks);
    if SettingOf(key).Some? && space != [] && 1 <= |value| <= 32 && newline in [[], ['\n'], ['\r', '\n']] then
      Some(Parts(indent, key, space, value, trailing, newline))
    else None
  }

  lemma ParsedIsRendered(line: Text)
    requires Parse(line).Some?
    ensures GoodParts(Parse(line).value) && Render(Parse(line).value) == line
  {
    hide SettingOf, AllIn, Taken;
    var a := Taken(line, Blanks).1;
    var b := Taken(a, Darks).1;
    var c := Taken(b, Blanks).1;
    var d := Taken(c, Darks).1;
    TakenIs(line, Blanks);
    TakenIs(a, Darks);
    TakenIs(b, Blanks);
    TakenIs(c, Darks);
    TakenIs(d, Blanks);
  }

  /** A key is made of letters. */
  lemma KeyIsWord(key: string)
    requires SettingOf(key).Some?
    ensures key != [] && forall i | 0 <= i < |key| :: 'A' <= key[i] <= 'z' && Dark(key[i]) && !White(key[i])
  {
    var base := if |key| >= 2 && key[|key| - 2..] == "VR" then key[..|key| - 2] else key;
    NamesAreWords(base);
    forall i | 0 <= i < |key| ensures 'A' <= key[i] <= 'z' && Dark(key[i]) && !White(key[i]) {
      if i < |base| {
        assert key[i] == base[i];
      } else {
        assert key[i] == key[|key| - 2..][i - |base|];
      }
    }
  }

  lemma NamesAreWords(name: string)
    requires name in [NameOf(AntiAliasing), NameOf(Reflex), NameOf(FrameGeneration)]
    ensures |name| >= 6 && forall i | 0 <= i < |name| :: 'A' <= name[i] <= 'z' && name[i] != '{' && name[i] != '}'
  {
  }

  lemma RenderedParses(p: Parts)
    requires GoodParts(p)
    ensures Parse(Render(p)) == Some(p)
  {
    hide SettingOf, Taken;
    KeyIsWord(p.key);
    var d := p.trailing + p.newline;
    var c := p.value + d;
    var b := p.space + c;
    var a := p.key + b;
    TakenOf(p.trailing, p.newline, Blanks);
    TakenOf(p.value, d, Darks);
    TakenOf(p.space, c, Blanks);
    TakenOf(p.key, b, Darks);
    TakenOf(p.indent, a, Blanks);
  }

  datatype Kind = Opens(video: bool) | Closes | Field(parts: Parts) | Malformed | Other

  /** What a line means; a field only counts inside the Video section. */
  function Classify(line: Text): Kind {
    var t := Trim(line);
    if t != [] && t[0] == '{' then Opens(t == "{Video")
    else if t == "}" then Closes
    else if SettingOf(Token(t)).None? then Other
    else if Parse(line).None? then Malformed
    else Field(Parse(line).value)
  }

  lemma TrimmedKey(key: string, rest: Text)
    requires key != [] && forall i | 0 <= i < |key| :: Dark(key[i]) && !White(key[i])
    requires rest != [] && Blank(rest[0])
    ensures key <= TrimEnd(key + rest) && Run(TrimEnd(key + rest), NotBlanks) == |key|
  {
    var w := key + rest;
    var t := TrimEnd(w);
    assert w[|key| - 1] == key[|key| - 1];
    assert |key| <= |t|;
    assert t[..|key|] == key;
    assert forall i | 0 <= i < |key| :: t[i] == key[i];
    assert |t| > |key| ==> t[|key|] == rest[0];
    RunIs(t, NotBlanks, |key|);
  }

  lemma TrimmedField(p: Parts)
    requires GoodParts(p)
    ensures Trim(Render(p)) != [] && Trim(Render(p))[0] == p.key[0]
    ensures Token(Trim(Render(p))) == p.key
  {
    hide SettingOf, TrimEnd, Dark;
    KeyIsWord(p.key);
    var rest := p.space + (p.value + (p.trailing + p.newline));
    assert rest[0] == p.space[0] && In(p.space[0], Blanks);
    assert forall i | 0 <= i < |p.indent| :: In(p.indent[i], Whites);
    TakenOf(p.indent, p.key + rest, Whites);
    TrimmedKey(p.key, rest);
  }

  /** A field stays a field whatever good value it is given. */
  lemma FieldAgain(line: Text, value: Text)
    requires Classify(line).Field? && GoodValue(value)
    ensures Classify(Render(Classify(line).parts.(value := value))) == Field(Classify(line).parts.(value := value))
    ensures GoodParts(Classify(line).parts) && Render(Classify(line).parts) == line
  {
    hide SettingOf, Parse, Trim, Token, Render, White;
    ParsedIsRendered(line);
    var p := Classify(line).parts.(value := value);
    RenderedParses(p);
    TrimmedField(p);
    KeyIsWord(p.key);
    assert p.key[0] != '{' && p.key[0] != '}' by {
      KeyBegins(p.key);
    }
  }

  lemma KeyBegins(key: string)
    requires SettingOf(key).Some?
    ensures key != [] && key[0] != '{' && key[0] != '}'
  {
    var base := if |key| >= 2 && key[|key| - 2..] == "VR" then key[..|key| - 2] else key;
    NamesAreWords(base);
    assert key[0] == base[0];
  }

  // ----- All lines ------------------------------------------------------------------------

  /** The value a field is given; `compatibility` replaces, its absence puts back. */
  function NewValue(key: string, value: string, original: Undo, compatibility: bool): string
    requires SettingOf(key).Some?
  {
    var s := SettingOf(key).value;
    if compatibility then if Unsupported(s, value) then Safe(s) else value
    else if value == Safe(s) && key in original then original[key]
    else value
  }

  /** The value to put back later. */
  function SavedValue(key: string, value: string, original: Undo): Option<string>
    requires SettingOf(key).Some?
  {
    var s := SettingOf(key).value;
    if Unsupported(s, value) then Some(value)
    else if value == Safe(s) && key in original then Some(original[key])
    else None
  }

  datatype Scan = Scan(depth: int, video: bool, found: bool, values: map<string, string>, lines: seq<Text>)

  const START := Scan(0, false, false, map[], [])

  /** Read one line, and write it as it is to be. */
  function Step(s: Scan, line: Text, original: Undo, compatibility: bool): Option<Scan> {
    match Classify(line)
    case Opens(video) =>
      if s.video || (video && s.depth == 0 && s.found) then None
      else
        var begins := video && s.depth == 0;
        Some(s.(depth := s.depth + 1, video := begins, found := s.found || begins, lines := s.lines + [line]))
    case Closes =>
      if s.depth - 1 < 0 then None
      else Some(s.(depth := s.depth - 1, video := false, lines := s.lines + [line]))
    case Field(p) =>
      if !s.video then Some(s.(lines := s.lines + [line]))
      else if p.key in s.values || SettingOf(p.key).None? then None
      else Some(s.(values := s.values[p.key := p.value],
                   lines := s.lines + [Render(p.(value := NewValue(p.key, p.value, original, compatibility)))]))
    case Malformed => if s.video then None else Some(s.(lines := s.lines + [line]))
    case Other => Some(s.(lines := s.lines + [line]))
  }

  function Walk(lines: seq<Text>, original: Undo, compatibility: bool): Option<Scan> {
    if lines == [] then Some(START)
    else
      var before := Walk(lines[..|lines| - 1], original, compatibility);
      if before.None? then None else Step(before.value, lines[|lines| - 1], original, compatibility)
  }

  /** Every value recorded so far is of a known option. */
  predicate Known(values: map<string, string>) {
    forall k | k in values :: SettingOf(k).Some? && GoodValue(values[k])
  }

  /** Reading the rewritten line, with another purpose, amounts to reading the first once. */
  predicate Composes(values: map<string, string>, o1: Undo, c1: bool, o2: Undo, c2: bool, o3: Undo, c3: bool) {
    forall k | k in values && SettingOf(k).Some? ::
      NewValue(k, NewValue(k, values[k], o1, c1), o2, c2) == NewValue(k, values[k], o3, c3)
  }

  /** Two scans are at the same place in files that differ only in the fields' values. */
  predicate Alike(a: Scan, b: Scan) {
    a.depth == b.depth && a.video == b.video && a.found == b.found && a.values.Keys == b.values.Keys
  }

  predicate Rewritten(values: map<string, string>, values': map<string, string>, o: Undo, c: bool) {
    forall k | k in values && SettingOf(k).Some? :: Get(values', k) == Some(NewValue(k, values[k], o, c))
  }

  lemma NewValueIsGood(key: string, value: string, original: Undo, compatibility: bool)
    requires SettingOf(key).Some? && GoodValue(value) && ValidUndo(original)
    ensures GoodValue(NewValue(key, value, original, compatibility))
  {
    hide SettingOf;
    SafeIsGood(SettingOf(key).value);
    if key in original {
      UnsupportedIsGood(SettingOf(key).value, original[key]);
    }
  }

  lemma SafeIsGood(s: Setting)
    ensures GoodValue(Safe(s))
  {
  }

  lemma UnsupportedIsGood(s: Setting, value: string)
    requires Unsupported(s, value)
    ensures GoodValue(value)
  {
  }

  /** Any other line is taken over as it is. */
  lemma OtherStep(s: Scan, line: Text, o: Undo, c: bool)
    requires !(Classify(line).Field? && s.video)
    ensures var t := Step(s.(values := map[], lines := []), line, map[], false);
            Step(s, line, o, c) == if t.None? then None else Some(t.value.(values := s.values, lines := s.lines + [line]))
  {
    hide SettingOf, Classify, Render, NewValue;
  }

  lemma FieldStep(s: Scan, line: Text, o: Undo, c: bool)
    requires Classify(line).Field? && s.video
    ensures var p := Classify(line).parts;
            Step(s, line, o, c) == if p.key in s.values || SettingOf(p.key).None? then None
                                   else Some(s.(values := s.values[p.key := p.value],
                                                lines := s.lines + [Render(p.(value := NewValue(p.key, p.value, o, c)))]))
  {
    hide SettingOf, Classify, Render, NewValue;
  }

  lemma ComposeStep(s1: Scan, s2: Scan, s3: Scan, line: Text, o1: Undo, c1: bool, o2: Undo, c2: bool, o3: Undo, c3: bool)
    requires ValidUndo(o1) && Known(s1.values)
    requires Alike(s1, s2) && Alike(s1, s3) && s3.values == s1.values && s2.lines == s3.lines
    requires Rewritten(s1.values, s2.values, o1, c1)
    requires Step(s1, line, o1, c1).Some?
    requires Composes(Step(s1, line, o1, c1).value.values, o1, c1, o2, c2, o3, c3)
    ensures var t1 := Step(s1, line, o1, c1).value;
            && |t1.lines| == |s1.lines| + 1 && t1.lines[..|s1.lines|] == s1.lines
            && Known(t1.values) && s1.values.Keys <= t1.values.Keys
            && (forall k | k in s1.values :: t1.values[k] == s1.values[k])
            && var t2, t3 := Step(s2, t1.lines[|s1.lines|], o2, c2), Step(s3, line, o3, c3);
               && t2.Some? && t3.Some?
               && Alike(t1, t2.value) && Alike(t1, t3.value) && t3.value.values == t1.values && t2.value.lines == t3.value.lines
               && Rewritten(t1.values, t2.value.values, o1, c1)
  {
    hide SettingOf, Classify, Render, NewValue, ValidUndo, GoodValue, GoodParts, Step;
    if Classify(line).Field? && s1.video {
      var p := Classify(line).parts;
      FieldIsGood(line);
      NewValueIsGood(p.key, p.value, o1, c1);
      var v := NewValue(p.key, p.value, o1, c1);
      FieldAgain(line, v);
      FieldStep(s1, line, o1, c1);
      FieldStep(s2, Render(p.(value := v)), o2, c2);
      FieldStep(s3, line, o3, c3);
      assert p.(value := v).(value := NewValue(p.key, v, o2, c2)) == p.(value := NewValue(p.key, v, o2, c2));
    } else {
      OtherStep(s1, line, o1, c1);
      OtherStep(s2, line, o2, c2);
      OtherStep(s3, line, o3, c3);
    }
  }

  lemma FieldIsGood(line: Text)
    requires Classify(line).Field?
    ensures GoodValue(Classify(line).parts.value) && SettingOf(Classify(line).parts.key).Some?
  {
    hide SettingOf, Trim, Token;
    ParsedIsRendered(line);
  }

  lemma ComposesEarlier(a: map<string, string>, b: map<string, string>, o1: Undo, c1: bool, o2: Undo, c2: bool, o3: Undo, c3: bool)
    requires a.Keys <= b.Keys && (forall k | k in a :: b[k] == a[k])
    requires Composes(b, o1, c1, o2, c2, o3, c3)
    ensures Composes(a, o1, c1, o2, c2, o3, c3)
  {
    hide SettingOf, NewValue;
    forall k | k in a && SettingOf(k).Some?
      ensures NewValue(k, NewValue(k, a[k], o1, c1), o2, c2) == NewValue(k, a[k], o3, c3)
    {
      assert k in b && b[k] == a[k];
    }
  }

  /** The same for a whole file. */
  lemma {:induction false} ComposeWalk(lines: seq<Text>, o1: Undo, c1: bool, o2: Undo, c2: bool, o3: Undo, c3: bool)
    requires ValidUndo(o1) && Walk(lines, o1, c1).Some?
    requires Composes(Walk(lines, o1, c1).value.values, o1, c1, o2, c2, o3, c3)
    ensures var s1 := Walk(lines, o1, c1).value;
            && |s1.lines| == |lines| && Known(s1.values)
            && var s2, s3 := Walk(s1.lines, o2, c2), Walk(lines, o3, c3);
               && s2.Some? && s3.Some?
               && Alike(s1, s2.value) && Alike(s1, s3.value) && s3.value.values == s1.values
               && s2.value.lines == s3.value.lines
               && Rewritten(s1.values, s2.value.values, o1, c1)
  {
    hide Step, ValidUndo, Composes;
    if lines != [] {
      var init, last := lines[..|lines| - 1], lines[|lines| - 1];
      var b1, s1 := Walk(init, o1, c1).value, Walk(lines, o1, c1).value;
      StepExtends(b1, last, o1, c1);
      ComposesEarlier(b1.values, s1.values, o1, c1, o2, c2, o3, c3);
      ComposeWalk(init, o1, c1, o2, c2, o3, c3);
      ComposeStep(b1, Walk(b1.lines, o2, c2).value, Walk(init, o3, c3).value, last, o1, c1, o2, c2, o3, c3);
      assert s1.lines[..|s1.lines| - 1] == b1.lines;
    }
  }

  lemma StepExtends(s: Scan, line: Text, o: Undo, c: bool)
    requires Step(s, line, o, c).Some?
    ensures var t := Step(s, line, o, c).value;
            s.values.Keys <= t.values.Keys && forall k | k in s.values :: t.values[k] == s.values[k]
  {
  }

  // ----- The file ---------------------------------------------------------------------------

  datatype Output = Output(bytes: seq<Byte>, saved: Undo, changed: set<string>)

  function SavedOf(values: map<string, string>, original: Undo, compatibility: bool): Undo
    requires Known(values)
  {
    map k | k in values && compatibility && SavedValue(k, values[k], original).Some? :: SavedValue(k, values[k], original).value
  }

  function ChangedOf(values: map<string, string>, original: Undo, compatibility: bool): set<string>
    requires Known(values)
  {
    set k | k in values && NewValue(k, values[k], original, compatibility) != values[k]
  }

  lemma {:induction false} WalkIsKnown(lines: seq<Text>, original: Undo, compatibility: bool)
    requires Walk(lines, original, compatibility).Some?
    ensures Known(Walk(lines, original, compatibility).value.values)
  {
    hide SettingOf, GoodValue, NewValue, Render, Classify;
    if lines != [] {
      WalkIsKnown(lines[..|lines| - 1], original, compatibility);
      var line := lines[|lines| - 1];
      if Classify(line).Field? {
        FieldIsGood(line);
      }
    }
  }

  /** The accepted reading of a file, or that it is not accepted. */
  function Accepted(bytes: seq<Byte>, original: Undo, compatibility: bool): Option<(Scan, Encoding)> {
    if !ValidUndo(original) || Decode(bytes).None? then None
    else
      var (text, encoding) := Decode(bytes).value;
      var walk := Walk(Split(text), original, compatibility);
      if walk.None? || !walk.value.found || walk.value.depth != 0 then None else Some((walk.value, encoding))
  }

  function Transformed(bytes: seq<Byte>, original: Undo, compatibility: bool): Option<Output> {
    match Accepted(bytes, original, compatibility)
    case None => None
    case Some((scan, encoding)) =>
      WalkIsKnown(Split(Decode(bytes).value.0), original, compatibility);
      Some(Output(Encode(Join(scan.lines), encoding), SavedOf(scan.values, original, compatibility),
                  ChangedOf(scan.values, original, compatibility)))
  }

  lemma RenderIsLine(p: Parts)
    requires GoodParts(p)
    ensures IsLine(Render(p)) && Render(p)[0] == (p.indent + p.key)[0]
    ensures Render(p)[|Render(p)| - 1] == '\n' <==> p.newline != []
  {
    hide SettingOf, White;
    KeyIsWord(p.key);
    var head := p.indent + (p.key + (p.space + (p.value + p.trailing)));
    assert Render(p) == head + p.newline;
    assert forall i | 0 <= i < |head| :: head[i] != '\n' by {
      NoBreaks(p.indent, Blanks);
      NoBreaks(p.space, Blanks);
      NoBreaks(p.value, Darks);
      NoBreaks(p.trailing, Blanks);
    }
    assert Render(p) == (p.indent + p.key) + (p.space + (p.value + (p.trailing + p.newline)));
  }

  lemma NoBreaks(t: Text, class_: Class)
    requires AllIn(t, class_) && class_ in {Blanks, Darks}
    ensures forall i | 0 <= i < |t| :: t[i] != '\n'
  {
    forall i | 0 <= i < |t| ensures t[i] != '\n' {
      assert In(t[i], class_);
    }
  }

  /** A rewritten line begins and ends like the line it replaces. */
  predicate SameEnds(a: Text, b: Text) {
    IsLine(a) && IsLine(b) && a[0] == b[0] && (a[|a| - 1] == '\n' <==> b[|b| - 1] == '\n')
  }

  lemma StepKeepsEnds(s: Scan, line: Text, o: Undo, c: bool)
    requires ValidUndo(o) && IsLine(line) && Step(s, line, o, c).Some?
    ensures var t := Step(s, line, o, c).value;
            |t.lines| == |s.lines| + 1 && t.lines[..|s.lines|] == s.lines && SameEnds(line, t.lines[|s.lines|])
  {
    hide SettingOf, Classify, Render, NewValue, ValidUndo, GoodValue, GoodParts, IsLine;
    if Classify(line).Field? && s.video {
      var p := Classify(line).parts;
      FieldIsGood(line);
      NewValueIsGood(p.key, p.value, o, c);
      FieldAgain(line, NewValue(p.key, p.value, o, c));
      GoodAgain(p, NewValue(p.key, p.value, o, c));
      RenderIsLine(p);
      RenderIsLine(p.(value := NewValue(p.key, p.value, o, c)));
    } else {
      LineIsNotEmpty(line);
    }
  }

  lemma GoodAgain(p: Parts, value: Text)
    requires GoodParts(p) && GoodValue(value)
    ensures GoodParts(p.(value := value))
  {
  }

  lemma LineIsNotEmpty(line: Text)
    requires IsLine(line)
    ensures line != []
  {
  }

  lemma {:induction false} WalkKeepsEnds(lines: seq<Text>, o: Undo, c: bool)
    requires ValidUndo(o) && AreLines(lines) && Walk(lines, o, c).Some?
    ensures var out := Walk(lines, o, c).value.lines;
            |out| == |lines| && forall i | 0 <= i < |lines| :: SameEnds(lines[i], out[i])
  {
    hide Step, ValidUndo, SameEnds, IsLine;
    if lines != [] {
      var init, last := lines[..|lines| - 1], lines[|lines| - 1];
      LinesOf(lines);
      WalkKeepsEnds(init, o, c);
      StepKeepsEnds(Walk(init, o, c).value, last, o, c);
      var before, out := Walk(init, o, c).value.lines, Walk(lines, o, c).value.lines;
      forall i | 0 <= i < |lines| ensures SameEnds(lines[i], out[i]) {
        if i < |init| {
          assert init[i] == lines[i] && before[i] == out[..|before|][i];
        }
      }
    }
  }

  lemma LinesOf(lines: seq<Text>)
    requires AreLines(lines) && lines != []
    ensures AreLines(lines[..|lines| - 1]) && IsLine(lines[|lines| - 1])
  {
  }

  lemma KeptLines(lines: seq<Text>, out: seq<Text>)
    requires AreLines(lines) && |out| == |lines| && forall i | 0 <= i < |lines| :: SameEnds(lines[i], out[i])
    ensures AreLines(out)
    ensures lines != [] ==> Join(lines) != [] && Join(out) != [] && Join(lines)[0] == Join(out)[0]
    ensures lines == [] ==> Join(out) == []
  {
    forall i | 0 <= i < |out| ensures IsLine(out[i]) && (i < |out| - 1 ==> out[i][|out[i]| - 1] == '\n') {
      assert SameEnds(lines[i], out[i]);
    }
  }

  /** What was written is read as exactly the lines that were written. */
  lemma ReadAgain(bytes: seq<Byte>, o: Undo, c: bool)
    requires Accepted(bytes, o, c).Some?
    ensures var (scan, encoding) := Accepted(bytes, o, c).value;
            var text := Join(scan.lines);
            Decode(Encode(text, encoding)) == Some((text, encoding)) && Split(text) == scan.lines
  {
    hide Decode, Encode, Walk, ValidUndo, AreLines, SameEnds;
    var (text, encoding) := Decode(bytes).value;
    SplitGivesLines(text);
    WalkKeepsEnds(Split(text), o, c);
    var out := Walk(Split(text), o, c).value.lines;
    KeptLines(Split(text), out);
    SplitJoined(out);
    EncodeDecoded(bytes);
    NoLinesNoText(text);
    DecodeEncoded(Join(out), encoding);
  }

  lemma NoLinesNoText(text: Text)
    ensures Split(text) == [] <==> text == []
  {
  }

  /** Transforming the result amounts to transforming the original once, if the values say so. */
  lemma TransformAgain(bytes: seq<Byte>, o1: Undo, c1: bool, o2: Undo, c2: bool, o3: Undo, c3: bool)
    requires Accepted(bytes, o1, c1).Some? && ValidUndo(o2) && ValidUndo(o3)
    requires Composes(Accepted(bytes, o1, c1).value.0.values, o1, c1, o2, c2, o3, c3)
    ensures var first := Transformed(bytes, o1, c1).value;
            && Transformed(first.bytes, o2, c2).Some? && Transformed(bytes, o3, c3).Some?
            && Transformed(first.bytes, o2, c2).value.bytes == Transformed(bytes, o3, c3).value.bytes
            && Accepted(first.bytes, o2, c2).Some? && Accepted(bytes, o3, c3).Some?
            && Accepted(bytes, o3, c3).value.0.values == Accepted(bytes, o1, c1).value.0.values
            && Accepted(first.bytes, o2, c2).value.0.values.Keys == Accepted(bytes, o1, c1).value.0.values.Keys
            && Rewritten(Accepted(bytes, o1, c1).value.0.values, Accepted(first.bytes, o2, c2).value.0.values, o1, c1)
  {
    hide Decode, Encode, Walk, ValidUndo, Composes, Split, Join, SavedOf, ChangedOf, Rewritten;
    ReadAgain(bytes, o1, c1);
    ComposeWalk(Split(Decode(bytes).value.0), o1, c1, o2, c2, o3, c3);
  }

  // ----- What the transformation promises --------------------------------------------------

  lemma SavedIsValid(values: map<string, string>, original: Undo, compatibility: bool)
    requires Known(values) && ValidUndo(original)
    ensures ValidUndo(SavedOf(values, original, compatibility))
  {
  }

  /** Per field: replacing and putting back is putting back; replacing again changes nothing. */
  lemma SavedComposes(values: map<string, string>, original: Undo)
    requires Known(values) && ValidUndo(original)
    ensures Composes(values, original, true, SavedOf(values, original, true), false, original, false)
    ensures Composes(values, original, true, SavedOf(values, original, true), true, original, true)
    ensures Composes(values, map[], false, SavedOf(values, original, true), false, original, false)
    ensures Composes(values, original, false, original, false, original, false)
  {
    hide SettingOf, Unsupported, Safe, GoodValue;
    forall k | k in values && SettingOf(k).Some?
      ensures !Unsupported(SettingOf(k).value, Safe(SettingOf(k).value))
    {
      SafeIsSupported(SettingOf(k).value);
    }
  }

  lemma AcceptedIsKnown(bytes: seq<Byte>, original: Undo, compatibility: bool)
    requires Accepted(bytes, original, compatibility).Some?
    ensures ValidUndo(original) && Known(Accepted(bytes, original, compatibility).value.0.values)
    ensures Transformed(bytes, original, compatibility).Some?
    ensures Transformed(bytes, original, compatibility).value.saved
            == SavedOf(Accepted(bytes, original, compatibility).value.0.values, original, compatibility)
  {
    WalkIsKnown(Split(Decode(bytes).value.0), original, compatibility);
  }

  /** Compatibility mode followed by an undo is the undo alone, byte for byte. */
  lemma CompatibilityThenUndo(bytes: seq<Byte>, original: Undo)
    requires Transformed(bytes, original, true).Some?
    ensures var first := Transformed(bytes, original, true).value;
            && Transformed(first.bytes, first.saved, false).Some? && Transformed(bytes, original, false).Some?
            && Transformed(first.bytes, first.saved, false).value.bytes == Transformed(bytes, original, false).value.bytes
  {
    hide Transformed, SavedOf, Composes, ValidUndo, Known;
    AcceptedIff(bytes, original, true);
    AcceptedIsKnown(bytes, original, true);
    var values := Accepted(bytes, original, true).value.0.values;
    SavedComposes(values, original);
    SavedIsValid(values, original, true);
    TransformAgain(bytes, original, true, SavedOf(values, original, true), false, original, false);
  }

  lemma AcceptedIff(bytes: seq<Byte>, original: Undo, compatibility: bool)
    ensures Transformed(bytes, original, compatibility).Some? <==> Accepted(bytes, original, compatibility).Some?
  {
  }

  /** Compatibility mode is idempotent, and what it saved stays the same. */
  lemma CompatibilityTwice(bytes: seq<Byte>, original: Undo)
    requires Transformed(bytes, original, true).Some?
    ensures var first := Transformed(bytes, original, true).value;
            && Transformed(first.bytes, first.saved, true).Some?
            && Transformed(first.bytes, first.saved, true).value.bytes == first.bytes
            && Transformed(first.bytes, first.saved, true).value.saved == first.saved
  {
    hide Transformed, SavedOf, Composes, ValidUndo, Known, Rewritten;
    AcceptedIff(bytes, original, true);
    AcceptedIsKnown(bytes, original, true);
    var values := Accepted(bytes, original, true).value.0.values;
    var saved := SavedOf(values, original, true);
    SavedComposes(values, original);
    SavedIsValid(values, original, true);
    TransformAgain(bytes, original, true, saved, true, original, true);
    var first := Transformed(bytes, original, true).value;
    AcceptedIsKnown(first.bytes, saved, true);
    SavedAgain(values, Accepted(first.bytes, saved, true).value.0.values, original);
  }

  lemma SavedAgain(values: map<string, string>, values': map<string, string>, original: Undo)
    requires Known(values) && Known(values') && values'.Keys == values.Keys && ValidUndo(original)
    requires Rewritten(values, values', original, true)
    ensures SavedOf(values', SavedOf(values, original, true), true) == SavedOf(values, original, true)
  {
    hide SettingOf, Unsupported, Safe, GoodValue;
    var saved := SavedOf(values, original, true);
    forall k ensures Get(SavedOf(values', saved, true), k) == Get(saved, k) {
      if k in values {
        SafeIsSupported(SettingOf(k).value);
        assert Get(values', k) == Some(NewValue(k, values[k], original, true));
      }
    }
    MapsAgree(SavedOf(values', saved, true), saved);
  }

  /** Without fields to change, a file is written back byte for byte. */
  lemma {:induction false} WalkUnchanged(lines: seq<Text>, o: Undo, c: bool)
    requires Walk(lines, o, c).Some?
    requires var values := Walk(lines, o, c).value.values;
             forall k | k in values && SettingOf(k).Some? :: NewValue(k, values[k], o, c) == values[k]
    ensures Walk(lines, o, c).value.lines == lines
  {
    hide SettingOf, Classify, Render, NewValue;
    if lines != [] {
      var init, last := lines[..|lines| - 1], lines[|lines| - 1];
      var before := Walk(init, o, c).value;
      StepExtends(before, last, o, c);
      forall k | k in before.values && SettingOf(k).Some? ensures NewValue(k, before.values[k], o, c) == before.values[k] {
        assert k in Walk(lines, o, c).value.values;
      }
      WalkUnchanged(init, o, c);
      assert init + [last] == lines;
      if Classify(last).Field? {
        FieldIsGood(last);
        var p := Classify(last).parts;
        FieldAgain(last, p.value);
        assert p.(value := p.value) == p;
      }
    }
  }

  lemma UnchangedFile(bytes: seq<Byte>, o: Undo, c: bool)
    requires Accepted(bytes, o, c).Some?
    requires var values := Accepted(bytes, o, c).value.0.values;
             forall k | k in values && SettingOf(k).Some? :: NewValue(k, values[k], o, c) == values[k]
    ensures Transformed(bytes, o, c).Some? && Transformed(bytes, o, c).value.bytes == bytes
  {
    hide Decode, Encode, Walk, ValidUndo, NewValue, SettingOf;
    WalkUnchanged(Split(Decode(bytes).value.0), o, c);
    SplitGivesLines(Decode(bytes).value.0);
    EncodeDecoded(bytes);
  }

  lemma UndoNothing(bytes: seq<Byte>, o: Undo, c: bool)
    requires Accepted(bytes, o, c).Some?
    ensures Accepted(bytes, map[], false).Some?
    ensures Accepted(bytes, map[], false).value.0.values == Accepted(bytes, o, c).value.0.values
    ensures Transformed(bytes, map[], false).Some? && Transformed(bytes, map[], false).value.bytes == bytes
  {
    hide Decode, Walk, Encode, Split, Join;
    ReadsAlike(Split(Decode(bytes).value.0), o, c, map[], false);
    UnchangedFile(bytes, map[], false);
  }

  /** Which fields a file has does not depend on what is done with them. */
  lemma {:induction false} ReadsAlike(lines: seq<Text>, o1: Undo, c1: bool, o2: Undo, c2: bool)
    requires Walk(lines, o1, c1).Some?
    ensures Walk(lines, o2, c2).Some?
    ensures Walk(lines, o2, c2).value.(lines := []) == Walk(lines, o1, c1).value.(lines := [])
  {
    hide SettingOf, Classify, Render, NewValue;
    if lines != [] {
      ReadsAlike(lines[..|lines| - 1], o1, c1, o2, c2);
    }
  }

  /** The saved values undo the file as it is now just as the earlier ones did. */
  lemma SavedUndoes(bytes: seq<Byte>, original: Undo)
    requires Transformed(bytes, original, true).Some?
    ensures var first := Transformed(bytes, original, true).value;
            && Transformed(bytes, first.saved, false).Some? && Transformed(bytes, original, false).Some?
            && Transformed(bytes, first.saved, false).value.bytes == Transformed(bytes, original, false).value.bytes
  {
    hide Transformed, SavedOf, Composes, ValidUndo, Known;
    AcceptedIff(bytes, original, true);
    AcceptedIsKnown(bytes, original, true);
    var values := Accepted(bytes, original, true).value.0.values;
    SavedComposes(values, original);
    SavedIsValid(values, original, true);
    UndoNothing(bytes, original, true);
    TransformAgain(bytes, map[], false, SavedOf(values, original, true), false, original, false);
  }

  /** Undoing twice is undoing once. */
  lemma UndoTwice(bytes: seq<Byte>, original: Undo)
    requires Transformed(bytes, original, false).Some?
    ensures var undone := Transformed(bytes, original, false).value.bytes;
            Transformed(undone, original, false).Some? && Transformed(undone, original, false).value.bytes == undone
  {
    hide Transformed, SavedOf, Composes, ValidUndo, Known;
    AcceptedIff(bytes, original, false);
    AcceptedIsKnown(bytes, original, false);
    SavedComposes(Accepted(bytes, original, false).value.0.values, original);
    TransformAgain(bytes, original, false, original, false, original, false);
  }

  /** Only options of the Video section are ever changed: not other lines, and not options elsewhere. */
  lemma {:induction false} OtherLinesStay(lines: seq<Text>, o: Undo, c: bool, i: nat)
    requires Walk(lines, o, c).Some? && i < |lines|
    requires Walk(lines[..i], o, c).Some? ==> !(Walk(lines[..i], o, c).value.video && Classify(lines[i]).Field?)
    ensures |Walk(lines, o, c).value.lines| == |lines| && Walk(lines, o, c).value.lines[i] == lines[i]
  {
    hide SettingOf, Classify, Render, NewValue;
    var init := lines[..|lines| - 1];
    LengthStays(init, o, c);
    if i < |init| {
      assert init[..i] == lines[..i];
      OtherLinesStay(init, o, c, i);
    } else {
      assert lines[..i] == init;
    }
  }

  lemma {:induction false} LengthStays(lines: seq<Text>, o: Undo, c: bool)
    requires Walk(lines, o, c).Some?
    ensures |Walk(lines, o, c).value.lines| == |lines|
  {
    hide SettingOf, Classify, Render, NewValue;
    if lines != [] {
      LengthStays(lines[..|lines| - 1], o, c);
    }
  }

  // ----- The transformation, in place ------------------------------------------------------

  datatype Located = Located(index: nat, parts: Parts)

  predicate HasField(fields: map<string, Located>, i: nat) {
    exists k :: k in fields && fields[k].index == i
  }

  /** One field: where it is, what it says, and what the scan makes of its line. */
  ghost predicate FieldAt(f: Located, k: string, lines: seq<Text>, s: Scan, o: Undo, c: bool)
    requires k in s.values && |s.lines| <= |lines|
  {
    && f.index < |s.lines| && f.parts.key == k && SettingOf(k).Some?
    && Classify(lines[f.index]) == Field(f.parts)
    && s.values[k] == f.parts.value
    && s.lines[f.index] == Render(f.parts.(value := NewValue(k, s.values[k], o, c)))
  }

  lemma FieldAtStays(f: Located, k: string, lines: seq<Text>, s: Scan, t: Scan, o: Undo, c: bool)
    requires k in s.values && |s.lines| < |lines| && FieldAt(f, k, lines, s, o, c)
    requires k in t.values && t.values[k] == s.values[k] && |t.lines| == |s.lines| + 1 && t.lines[..|s.lines|] == s.lines
    ensures FieldAt(f, k, lines, t, o, c)
  {
    assert t.lines[..|s.lines|][f.index] == t.lines[f.index];
  }

  /** The fields found in the first lines, and what the scan makes of those lines. */
  ghost predicate Placed(fields: map<string, Located>, lines: seq<Text>, s: Scan, o: Undo, c: bool) {
    && |s.lines| <= |lines| && fields.Keys == s.values.Keys
    && (forall k | k in fields :: FieldAt(fields[k], k, lines, s, o, c))
    && (forall i: nat | i < |s.lines| && !HasField(fields, i) :: s.lines[i] == lines[i])
  }

  lemma PlacedOther(fields: map<string, Located>, lines: seq<Text>, s: Scan, t: Scan, o: Undo, c: bool)
    requires Placed(fields, lines, s, o, c) && |s.lines| < |lines|
    requires t.values == s.values && t.lines == s.lines + [lines[|s.lines|]]
    ensures Placed(fields, lines, t, o, c)
  {
    hide SettingOf, Classify, Render, NewValue, FieldAt, HasField;
    assert t.lines[..|s.lines|] == s.lines;
    forall k | k in fields ensures FieldAt(fields[k], k, lines, t, o, c) {
      FieldAtStays(fields[k], k, lines, s, t, o, c);
    }
    forall i: nat | i < |t.lines| && !HasField(fields, i) ensures t.lines[i] == lines[i] {
      if i < |s.lines| {
        assert t.lines[i] == s.lines[i];
      }
    }
  }

  lemma PlacedField(fields: map<string, Located>, lines: seq<Text>, s: Scan, t: Scan, o: Undo, c: bool)
    requires Placed(fields, lines, s, o, c) && |s.lines| < |lines|
    requires Classify(lines[|s.lines|]).Field?
    requires var p := Classify(lines[|s.lines|]).parts;
             && SettingOf(p.key).Some? && p.key !in fields
             && t.values == s.values[p.key := p.value]
             && t.lines == s.lines + [Render(p.(value := NewValue(p.key, p.value, o, c)))]
    ensures var p := Classify(lines[|s.lines|]).parts;
            Placed(fields[p.key := Located(|s.lines|, p)], lines, t, o, c)
  {
    hide SettingOf, Classify, Render, NewValue;
    hide FieldAt, HasField;
    var n, p := |s.lines|, Classify(lines[|s.lines|]).parts;
    var after := fields[p.key := Located(n, p)];
    assert t.lines[..n] == s.lines;
    forall k | k in after ensures FieldAt(after[k], k, lines, t, o, c) {
      if k == p.key {
        NewFieldAt(lines, s, t, o, c);
      } else {
        FieldAtStays(fields[k], k, lines, s, t, o, c);
      }
    }
    forall i: nat | i < |t.lines| && !HasField(after, i) ensures t.lines[i] == lines[i] {
      FieldsGrow(fields, p.key, Located(n, p), i);
      assert t.lines[..n][i] == s.lines[i];
    }
  }

  lemma NewFieldAt(lines: seq<Text>, s: Scan, t: Scan, o: Undo, c: bool)
    requires |s.lines| < |lines| && Classify(lines[|s.lines|]).Field?
    requires var p := Classify(lines[|s.lines|]).parts;
             && SettingOf(p.key).Some? && p.key in t.values && t.values[p.key] == p.value
             && t.lines == s.lines + [Render(p.(value := NewValue(p.key, p.value, o, c)))]
    ensures var p := Classify(lines[|s.lines|]).parts;
            FieldAt(Located(|s.lines|, p), p.key, lines, t, o, c)
  {
  }

  lemma FieldsGrow(fields: map<string, Located>, k: string, f: Located, i: nat)
    requires k !in fields && !HasField(fields[k := f], i)
    ensures !HasField(fields, i) && i != f.index
  {
    var after := fields[k := f];
    assert k in after && after[k] == f;
    assert forall j | j in fields :: after[j] == fields[j];
  }

  lemma {:induction false} WalkFails(lines: seq<Text>, n: nat, o: Undo, c: bool)
    requires n <= |lines| && Walk(lines[..n], o, c).None?
    ensures Walk(lines, o, c).None?
  {
    hide Step;
    if n < |lines| {
      assert lines[..|lines| - 1][..n] == lines[..n];
      WalkFails(lines[..|lines| - 1], n, o, c);
    } else {
      assert lines[..n] == lines;
    }
  }

  /** Find the fields of the Video section, line by line. */
  method FindFields(lines: seq<Text>, ghost o: Undo, ghost c: bool)
    returns (r: Option<map<string, Located>>)
    ensures r.Some? <==> Walk(lines, o, c).Some? && Walk(lines, o, c).value.found && Walk(lines, o, c).value.depth == 0
    ensures r.Some? ==> Placed(r.value, lines, Walk(lines, o, c).value, o, c)
  {
    hide SettingOf, Classify, Render, NewValue, Placed;
    var depth, video, found := 0, false, false;
    var fields: map<string, Located> := map[];
    NothingPlaced(lines, o, c);
    for index: nat := 0 to |lines|
      invariant Walk(lines[..index], o, c).Some?
      invariant var s := Walk(lines[..index], o, c).value;
                && s.depth == depth && s.video == video && s.found == found
                && s.values.Keys == fields.Keys && |s.lines| == index
                && Placed(fields, lines, s, o, c)
    {
      ghost var s := Walk(lines[..index], o, c).value;
      assert lines[..index + 1][..index] == lines[..index];
      var bad := false;
      var kind := Classify(lines[index]);
      FieldKeyIsKnown(lines[index]);
      match kind {
        case Opens(begins) =>
          if video || (begins && depth == 0 && found) {
            bad := true;
          } else {
            if begins && depth == 0 {
              video, found := true, true;
            }
            depth := depth + 1;
          }
        case Closes =>
          depth := depth - 1;
          bad := depth < 0;
          video := false;
        case Field(p) =>
          if video {
            if p.key in fields {
              bad := true;
            } else {
              PlacedField(fields, lines, s, Step(s, lines[index], o, c).value, o, c);
              fields := fields[p.key := Located(index, p)];
            }
          }
        case Malformed =>
          bad := video;
        case Other =>
      }
      if bad {
        WalkFails(lines, index + 1, o, c);
        return None;
      }
      if !(kind.Field? && video) {
        PlacedOther(fields, lines, s, Step(s, lines[index], o, c).value, o, c);
      }
    }
    assert lines[..|lines|] == lines;
    if !found || depth != 0 {
      return None;
    }
    return Some(fields);
  }

  lemma NothingPlaced(lines: seq<Text>, o: Undo, c: bool)
    ensures Placed(map[], lines, START, o, c)
  {
  }

  lemma FieldKeyIsKnown(line: Text)
    ensures Classify(line).Field? ==> SettingOf(Classify(line).parts.key).Some?
  {
    if Classify(line).Field? {
      FieldIsGood(line);
    }
  }

  /** The lines when the fields in `done` have been rewritten. */
  ghost predicate Patched(fields: map<string, Located>, done: set<string>, lines: seq<Text>, s: Scan, now: seq<Text>)
    requires |s.lines| == |lines|
  {
    && |now| == |lines|
    && (forall k | k in fields :: fields[k].index < |lines|)
    && (forall k | k in done && k in fields :: now[fields[k].index] == s.lines[fields[k].index])
    && (forall i: nat | i < |lines| && !exists k :: k in done && k in fields && fields[k].index == i :: now[i] == lines[i])
  }

  lemma AllPatched(fields: map<string, Located>, lines: seq<Text>, s: Scan, o: Undo, c: bool, now: seq<Text>)
    requires Placed(fields, lines, s, o, c) && |s.lines| == |lines|
    requires Patched(fields, fields.Keys, lines, s, now)
    ensures now == s.lines
  {
    hide SettingOf, Classify, Render, NewValue, FieldAt;
    forall i: nat | i < |lines| ensures now[i] == s.lines[i] {
      if HasField(fields, i) {
        var k :| k in fields && fields[k].index == i;
        assert k in fields.Keys;
      }
    }
  }

  /** No two fields share a line. */
  lemma OneFieldPerLine(fields: map<string, Located>, lines: seq<Text>, s: Scan, o: Undo, c: bool, j: string, k: string)
    requires Placed(fields, lines, s, o, c) && j in fields && k in fields && fields[j].index == fields[k].index
    ensures j == k
  {
    hide SettingOf, Classify, Render, NewValue;
    assert FieldAt(fields[j], j, lines, s, o, c) && FieldAt(fields[k], k, lines, s, o, c);
  }

  lemma OneMorePatched(fields: map<string, Located>, done: set<string>, lines: seq<Text>, s: Scan, o: Undo, c: bool,
                       now: seq<Text>, k: string, line: Text)
    requires Placed(fields, lines, s, o, c) && |s.lines| == |lines|
    requires Patched(fields, done, lines, s, now) && k in fields && k !in done
    requires line == s.lines[fields[k].index]
    ensures Patched(fields, done + {k}, lines, s, now[fields[k].index := line])
  {
    hide SettingOf, Classify, Render, NewValue, FieldAt, Placed;
    var after := now[fields[k].index := line];
    forall j | j in done + {k} && j in fields ensures after[fields[j].index] == s.lines[fields[j].index] {
      if j != k && fields[j].index == fields[k].index {
        OneFieldPerLine(fields, lines, s, o, c, j, k);
      }
    }
    forall i: nat | i < |lines| && !exists j :: j in done + {k} && j in fields && fields[j].index == i
      ensures after[i] == lines[i]
    {
      assert k in done + {k};
      assert i != fields[k].index;
      forall j | j in done && j in fields ensures fields[j].index != i {
        assert j in done + {k};
      }
    }
  }

  /** A line whose value stays is what rendering gives. */
  lemma SameLine(fields: map<string, Located>, lines: seq<Text>, s: Scan, o: Undo, c: bool, k: string)
    requires Placed(fields, lines, s, o, c) && k in fields
    ensures SettingOf(k).Some? && fields[k].index < |s.lines| && s.values[k] == fields[k].parts.value
    ensures NewValue(k, s.values[k], o, c) == s.values[k] ==> s.lines[fields[k].index] == lines[fields[k].index]
    ensures s.lines[fields[k].index] == Render(fields[k].parts.(value := NewValue(k, s.values[k], o, c)))
  {
    hide SettingOf, Classify, Render, NewValue;
    assert FieldAt(fields[k], k, lines, s, o, c);
    var f := fields[k];
    FieldIsGood(lines[f.index]);
    FieldAgain(lines[f.index], f.parts.value);
    assert f.parts.(value := f.parts.value) == f.parts;
  }

  /** What has been collected when the fields in `done` have been looked at. */
  ghost predicate Collected(done: set<string>, values: map<string, string>, o: Undo, c: bool, saved: Undo, changed: set<string>)
    requires Known(values)
  {
    && done <= values.Keys
    && saved == (map k | k in done && k in SavedOf(values, o, c) :: SavedOf(values, o, c)[k])
    && changed == done * ChangedOf(values, o, c)
  }

  lemma CollectOne(done: set<string>, values: map<string, string>, o: Undo, c: bool, saved: Undo, changed: set<string>, k: string)
    requires Known(values) && Collected(done, values, o, c, saved, changed) && k in values && k !in done
    ensures Collected(done + {k}, values, o, c,
                      if c && SavedValue(k, values[k], o).Some? then saved[k := SavedValue(k, values[k], o).value] else saved,
                      if NewValue(k, values[k], o, c) != values[k] then changed + {k} else changed)
  {
    hide SettingOf, SavedValue, NewValue;
  }

  /** Rewrite a settings file; saved values and changed options are collected on the way. */
  method Transform(bytes: seq<Byte>, original: Undo, compatibility: bool) returns (r: Option<Output>)
    ensures r == Transformed(bytes, original, compatibility)
  {
    hide Decode, Encode, Walk, SettingOf, Classify, Render, NewValue, SavedValue, Placed, Patched, Collected, ValidUndo, Known;
    if !ValidUndo(original) {
      return None;
    }
    var decoded := Decode(bytes);
    if decoded.None? {
      return None;
    }
    var text, encoding := decoded.value.0, decoded.value.1;
    var lines := Split(text);
    ghost var input := lines;
    var fields := FindFields(lines, original, compatibility);
    if fields.None? {
      return None;
    }
    ghost var scan := Walk(input, original, compatibility).value;
    WalkIsKnown(input, original, compatibility);
    LengthStays(input, original, compatibility);
    StartPatching(fields.value, input, scan, original, compatibility);
    var saved: Undo, changed: set<string> := map[], {};
    var todo := fields.value.Keys;
    ghost var done: set<string> := {};
    while todo != {}
      invariant done !! todo && done + todo == fields.value.Keys == scan.values.Keys
      invariant Patched(fields.value, done, input, scan, lines)
      invariant Collected(done, scan.values, original, compatibility, saved, changed)
      decreases todo
    {
      var key :| key in todo;
      var field := fields.value[key];
      SameLine(fields.value, input, scan, original, compatibility, key);
      OneMorePatched(fields.value, done, input, scan, original, compatibility, lines, key, scan.lines[field.index]);
      CollectOne(done, scan.values, original, compatibility, saved, changed, key);
      NotYetPatched(fields.value, done, input, scan, original, compatibility, lines, key);
      assert lines[field.index := lines[field.index]] == lines;
      var value := field.parts.value;
      var keep := if compatibility then SavedValue(key, value, original) else None;
      if keep.Some? {
        saved := saved[key := keep.value];
      }
      var replacement := NewValue(key, value, original, compatibility);
      if replacement != value {
        lines := lines[field.index := Render(field.parts.(value := replacement))];
        changed := changed + {key};
      }
      todo, done := todo - {key}, done + {key};
    }
    assert done == fields.value.Keys;
    AllPatched(fields.value, input, scan, original, compatibility, lines);
    AllCollected(scan.values, original, compatibility, saved, changed);
    return Some(Output(Encode(Join(lines), encoding), saved, changed));
  }

  lemma StartPatching(fields: map<string, Located>, lines: seq<Text>, s: Scan, o: Undo, c: bool)
    requires Placed(fields, lines, s, o, c) && |s.lines| == |lines| && Known(s.values)
    ensures Patched(fields, {}, lines, s, lines) && Collected({}, s.values, o, c, map[], {})
    ensures fields.Keys == s.values.Keys
  {
    hide SettingOf, Classify, Render, NewValue;
    forall k | k in fields ensures fields[k].index < |lines| {
      assert FieldAt(fields[k], k, lines, s, o, c);
    }
  }

  /** The line of a field that was not looked at yet is as it was. */
  lemma NotYetPatched(fields: map<string, Located>, done: set<string>, lines: seq<Text>, s: Scan, o: Undo, c: bool,
                      now: seq<Text>, k: string)
    requires Placed(fields, lines, s, o, c) && |s.lines| == |lines|
    requires Patched(fields, done, lines, s, now) && k in fields && k !in done
    ensures fields[k].index < |now| && now[fields[k].index] == lines[fields[k].index]
  {
    hide SettingOf, Classify, Render, NewValue, FieldAt, Placed;
    forall j | j in done && j in fields ensures fields[j].index != fields[k].index {
      if fields[j].index == fields[k].index {
        OneFieldPerLine(fields, lines, s, o, c, j, k);
      }
    }
  }

  lemma AllCollected(values: map<string, string>, o: Undo, c: bool, saved: Undo, changed: set<string>)
    requires Known(values) && Collected(values.Keys, values, o, c, saved, changed)
    ensures saved == SavedOf(values, o, c) && changed == ChangedOf(values, o, c)
  {
    hide SettingOf, SavedValue, NewValue;
    assert SavedOf(values, o, c).Keys <= values.Keys;
  }

  // ----- How a file grows -------------------------------------------------------------------

  function OptionNames(): seq<string> {
    [NameOf(AntiAliasing), NameOf(Reflex), NameOf(FrameGeneration),
     NameOf(AntiAliasing) + "VR", NameOf(Reflex) + "VR", NameOf(FrameGeneration) + "VR"]
  }

  lemma OptionsAreNamed(key: string)
    requires SettingOf(key).Some?
    ensures key in OptionNames()
  {
    if |key| >= 2 && key[|key| - 2..] == "VR" {
      assert key == key[..|key| - 2] + "VR";
    }
    var names := OptionNames();
    assert forall i | 0 <= i < 6 :: names[i] in names;
  }

  lemma NamesDiffer()
    ensures forall i, j | 0 <= i < j < |OptionNames()| :: OptionNames()[i] != OptionNames()[j]
  {
  }

  /** How many characters longer a field's value becomes. */
  function FieldGrowth(values: map<string, string>, key: string, o: Undo, c: bool): int {
    if key in values && SettingOf(key).Some? then |NewValue(key, values[key], o, c)| - |values[key]| else 0
  }

  function GrowthOver(names: seq<string>, values: map<string, string>, o: Undo, c: bool): int {
    if names == [] then 0
    else GrowthOver(names[..|names| - 1], values, o, c) + FieldGrowth(values, names[|names| - 1], o, c)
  }

  /** How many characters longer the values of a file become, option by option. */
  function Growth(values: map<string, string>, o: Undo, c: bool): int {
    GrowthOver(OptionNames(), values, o, c)
  }

  lemma {:induction false} OneMoreGrowth(names: seq<string>, values: map<string, string>, key: string, value: string, o: Undo, c: bool)
    requires key !in values && SettingOf(key).Some?
    requires forall i, j | 0 <= i < j < |names| :: names[i] != names[j]
    ensures GrowthOver(names, values[key := value], o, c) ==
            GrowthOver(names, values, o, c) + if key in names then |NewValue(key, value, o, c)| - |value| else 0
  {
    hide SettingOf, NewValue;
    if names != [] {
      var init, last := names[..|names| - 1], names[|names| - 1];
      OneMoreGrowth(init, values, key, value, o, c);
      if last == key {
        assert forall i | 0 <= i < |init| :: init[i] != key;
      }
    }
  }

  /** Only ASCII values are ever exchanged, and only for such values. */
  lemma ExchangedIsAscii(key: string, value: string, o: Undo, c: bool)
    requires SettingOf(key).Some? && ValidUndo(o) && NewValue(key, value, o, c) != value
    ensures forall i | 0 <= i < |value| :: value[i] as int < 0x80
    ensures forall i | 0 <= i < |NewValue(key, value, o, c)| :: NewValue(key, value, o, c)[i] as int < 0x80
  {
    hide SettingOf;
    var s := SettingOf(key).value;
    SafeIsAscii(s);
    if key in o {
      UnsupportedIsAscii(s, o[key]);
    }
    if Unsupported(s, value) {
      UnsupportedIsAscii(s, value);
    }
  }

  lemma SafeIsAscii(s: Setting)
    ensures forall i | 0 <= i < |Safe(s)| :: Safe(s)[i] as int < 0x80
  {
  }

  lemma UnsupportedIsAscii(s: Setting, value: string)
    requires Unsupported(s, value)
    ensures forall i | 0 <= i < |value| :: value[i] as int < 0x80
  {
  }

  lemma RenderedWeight(p: Parts, value: Text, encoding: Encoding)
    ensures Weight(Render(p.(value := value)), encoding) - Weight(value, encoding)
            == Weight(Render(p), encoding) - Weight(p.value, encoding)
  {
    hide Weight;
    var tail := p.trailing + p.newline;
    WeightAdds(p.value, tail, encoding);
    WeightAdds(value, tail, encoding);
    WeightAdds(p.space, p.value + tail, encoding);
    WeightAdds(p.space, value + tail, encoding);
    WeightAdds(p.key, p.space + (p.value + tail), encoding);
    WeightAdds(p.key, p.space + (value + tail), encoding);
    WeightAdds(p.indent, p.key + (p.space + (p.value + tail)), encoding);
    WeightAdds(p.indent, p.key + (p.space + (value + tail)), encoding);
  }

  lemma FieldWeight(p: Parts, o: Undo, c: bool, encoding: Encoding)
    requires SettingOf(p.key).Some? && ValidUndo(o)
    ensures var value := NewValue(p.key, p.value, o, c);
            Weight(Render(p.(value := value)), encoding) ==
            Weight(Render(p), encoding) + Unit(encoding) * (|value| - |p.value|)
  {
    hide SettingOf, NewValue, Render, Weight, ValidUndo;
    var value := NewValue(p.key, p.value, o, c);
    RenderedWeight(p, value, encoding);
    if value != p.value {
      ExchangedIsAscii(p.key, p.value, o, c);
      WeightOfAscii(value, encoding);
      WeightOfAscii(p.value, encoding);
    }
  }

  lemma {:induction false} WalkWeight(lines: seq<Text>, o: Undo, c: bool, encoding: Encoding)
    requires ValidUndo(o) && Walk(lines, o, c).Some?
    ensures var s := Walk(lines, o, c).value;
            Weight(Join(s.lines), encoding) == Weight(Join(lines), encoding) + Unit(encoding) * Growth(s.values, o, c)
  {
    hide SettingOf, Classify, Render, NewValue, Weight, ValidUndo, Step, OptionNames, Unit;
    if lines == [] {
      NothingGrows(OptionNames(), o, c);
    } else {
      var init, last := lines[..|lines| - 1], lines[|lines| - 1];
      var before, s := Walk(init, o, c).value, Walk(lines, o, c).value;
      WalkWeight(init, o, c, encoding);
      assert init + [last] == lines;
      JoinAppends(init, last);
      WeightAdds(Join(init), last, encoding);
      if Classify(last).Field? && before.video {
        FieldStep(before, last, o, c);
        FieldIsGood(last);
        var p := Classify(last).parts;
        FieldAgain(last, p.value);
        assert p.(value := p.value) == p;
        FieldWeight(p, o, c, encoding);
        OptionsAreNamed(p.key);
        NamesDiffer();
        OneMoreGrowth(OptionNames(), before.values, p.key, p.value, o, c);
        var line := Render(p.(value := NewValue(p.key, p.value, o, c)));
        JoinAppends(before.lines, line);
        WeightAdds(Join(before.lines), line, encoding);
        Distributes(Unit(encoding), Growth(before.values, o, c), |NewValue(p.key, p.value, o, c)| - |p.value|);
      } else {
        OtherStep(before, last, o, c);
        JoinAppends(before.lines, last);
        WeightAdds(Join(before.lines), last, encoding);
      }
    }
  }

  lemma Distributes(u: int, a: int, b: int)
    ensures u * (a + b) == u * a + u * b
  {
  }

  lemma {:induction false} NothingGrows(names: seq<string>, o: Undo, c: bool)
    ensures GrowthOver(names, map[], o, c) == 0
  {
    if names != [] {
      NothingGrows(names[..|names| - 1], o, c);
    }
  }

  /** The size of the result, before it is computed. */
  function SizeAfter(bytes: seq<Byte>, o: Undo, c: bool): int
    requires Accepted(bytes, o, c).Some?
  {
    var (scan, encoding) := Accepted(bytes, o, c).value;
    |bytes| + Unit(encoding) * Growth(scan.values, o, c)
  }

  /** A file grows by what its exchanged values grow, one or two bytes a character. */
  lemma TransformedSize(bytes: seq<Byte>, o: Undo, c: bool)
    requires Accepted(bytes, o, c).Some?
    ensures Transformed(bytes, o, c).Some? && |Transformed(bytes, o, c).value.bytes| == SizeAfter(bytes, o, c)
  {
    hide Decode, Encode, Walk, ValidUndo, Growth, Unit, Weight;
    var (text, encoding) := Decode(bytes).value;
    var scan := Accepted(bytes, o, c).value.0;
    WalkWeight(Split(text), o, c, encoding);
    SplitGivesLines(text);
    EncodeDecoded(bytes);
    EncodedSize(text, encoding);
    EncodedSize(Join(scan.lines), encoding);
  }

  // ----- The file and its marker ------------------------------------------------------------

  const LIMIT := 1024 * 1024

  /** A settings file and, beside it, the saved values. */
  datatype Saved = Saved(config: seq<Byte>, marker: Option<Undo>)

  /** What file and marker together stand for: the file with every saved value put back. */
  function Former(f: Saved): Option<seq<Byte>> {
    match Transformed(f.config, f.marker.GetOr(map[]), false)
    case None => None
    case Some(output) => Some(output.bytes)
  }

  /** Whether a file is read and accepted; larger files are passed over. */
  predicate Read(f: Saved, compatibility: bool) {
    |f.config| <= LIMIT && Accepted(f.config, f.marker.GetOr(map[]), compatibility).Some?
  }

  /** What leaving compatibility mode makes of the file, if it gets to it at all. */
  function Undone(f: Saved): Option<seq<Byte>> {
    if |f.config| > LIMIT then None else Former(f)
  }

  /** The size of the file after a launch in this mode, known before it. */
  function Grown(f: Saved, compatibility: bool): int
    requires Read(f, compatibility)
  {
    SizeAfter(f.config, f.marker.GetOr(map[]), compatibility)
  }

  /** Writing the marker first, then the file, keeps what an undo gives at each step. */
  lemma CompatibilityKeepsFormer(f: Saved)
    requires Transformed(f.config, f.marker.GetOr(map[]), true).Some?
    ensures var output := Transformed(f.config, f.marker.GetOr(map[]), true).value;
            && Former(f).Some?
            && Former(Saved(f.config, Some(output.saved))) == Former(f)
            && Former(Saved(output.bytes, Some(output.saved))) == Former(f)
            && Former(Saved(output.bytes, None)) == Former(Saved(output.bytes, Some(map[])))
            && (output.saved == map[] ==> output.bytes == f.config)
  {
    hide Transformed, Accepted;
    var original := f.marker.GetOr(map[]);
    SavedUndoes(f.config, original);
    CompatibilityThenUndo(f.config, original);
    if Transformed(f.config, original, true).value.saved == map[] {
      NothingSavedNothingDone(f.config, original);
    }
  }

  lemma NothingSavedNothingDone(bytes: seq<Byte>, original: Undo)
    requires Transformed(bytes, original, true).Some? && Transformed(bytes, original, true).value.saved == map[]
    ensures Transformed(bytes, original, true).value.bytes == bytes
  {
    hide Accepted, Transformed, Walk, Decode, SettingOf, Unsupported, Safe, GoodValue;
    AcceptedIff(bytes, original, true);
    AcceptedIsKnown(bytes, original, true);
    var values := Accepted(bytes, original, true).value.0.values;
    forall k | k in values && SettingOf(k).Some? ensures NewValue(k, values[k], original, true) == values[k] {
      assert k !in SavedOf(values, original, true);
    }
    UnchangedFile(bytes, original, true);
  }

  lemma UndoKeepsFormer(f: Saved)
    requires Former(f).Some?
    ensures Former(Saved(Former(f).value, f.marker)) == Former(f)
    ensures Former(Saved(Former(f).value, None)) == Former(f)
    ensures Transformed(f.config, f.marker.GetOr(map[]), false).value.saved == map[]
  {
    hide Transformed, Accepted, SavedOf;
    var original := f.marker.GetOr(map[]);
    UndoTwice(f.config, original);
    var undone := Former(f).value;
    AcceptedIff(undone, original, false);
    UndoNothing(undone, original, false);
    AcceptedIff(f.config, original, false);
    AcceptedIsKnown(f.config, original, false);
    NothingToSave(Accepted(f.config, original, false).value.0.values, original);
  }

  lemma NothingToSave(values: map<string, string>, original: Undo)
    requires Known(values)
    ensures SavedOf(values, original, false) == map[]
  {
  }

  class SettingsFile {
    var f: Saved
    var power: nat

    constructor (config: seq<Byte>)
      ensures f == Saved(config, None)
    {
      f := Saved(config, None);
      power := 0;
    }

    method Write(next: Saved) returns (ok: bool)
      modifies this
      ensures ok == (old(power) > 0)
      ensures f == if ok then next else old(f)
      ensures ok ==> power == old(power) - 1
    {
      ok := power > 0;
      if ok {
        f, power := next, power - 1;
      }
    }

    /**
     * Prepare one file for the launch. Wherever it stops, file and marker stand for the same
     * bytes as before. Leaving compatibility mode later really gives them back exactly if
     * the file it left can still be read: a file can outgrow the limit in either direction.
     */
    method Prepare(compatibility: bool) returns (ok: bool)
      modifies this
      ensures !Read(old(f), compatibility) ==> f == old(f) && !ok
      ensures Read(old(f), compatibility) ==>
                && Former(f) == Former(old(f)) && Former(f).Some?
                && (Undone(f) == Undone(old(f)) <==> |f.config| <= LIMIT)
                && (old(power) >= 3 ==> ok)
      ensures ok ==> |f.config| == Grown(old(f), compatibility) && power >= old(power) - 3
      // Before it is done, only the old or the new file is there.
      ensures Read(old(f), compatibility) ==> f.config == old(f).config || |f.config| == Grown(old(f), compatibility)
      ensures ok && !compatibility ==> f.marker.None? && Former(old(f)) == Some(f.config)
      ensures Read(old(f), false) && !compatibility ==> Some(f.config) == Former(old(f)) || Undone(f) == Undone(old(f))
      ensures ok && compatibility ==>
                var output := Transformed(old(f).config, old(f).marker.GetOr(map[]), true).value;
                f == Saved(output.bytes, if output.saved == map[] then None else Some(output.saved))
    {
      hide Transformed, Accepted, SizeAfter;
      if |f.config| > LIMIT {
        return false;
      }
      var original := f.marker.GetOr(map[]);
      AcceptedIff(f.config, original, compatibility);
      var transformed := Transform(f.config, original, compatibility);
      if transformed.None? {
        return false;
      }
      var output := transformed.value;
      TransformedSize(f.config, original, compatibility);
      if compatibility {
        CompatibilityKeepsFormer(f);
      } else {
        UndoKeepsFormer(f);
      }
      ok := true;
      if output.saved != map[] && output.saved != original {
        ok := Write(f.(marker := Some(output.saved)));
      }
      if ok && output.bytes != f.config {
        ok := Write(f.(config := output.bytes));
      }
      if ok && output.saved == map[] && f.marker.Some? {
        ok := Write(f.(marker := None));
      }
    }

    /**
     * Enter compatibility mode and leave it again, undisturbed: this gives back what the
     * file stood for exactly if the file does not outgrow the limit in between. Otherwise it
     * is stuck in compatibility mode, and passed over from then on.
     */
    method EnterAndLeave() returns (back: bool)
      requires Read(f, true) && power >= 6
      modifies this
      ensures back <==> Grown(old(f), true) <= LIMIT
      ensures back ==> Some(f.config) == Former(old(f)) && f.marker.None?
      ensures !back ==> |f.config| > LIMIT && Some(f.config) == CompatibleOf(old(f)) && Former(f) == Former(old(f))
    {
      hide Transformed, Accepted, SizeAfter;
      ghost var was := f;
      AcceptedIff(f.config, f.marker.GetOr(map[]), true);
      var entered := Prepare(true);
      ghost var between := f;
      back := Prepare(false);
      AcceptedIff(between.config, between.marker.GetOr(map[]), false);
    }
  }

  /** The file in compatibility mode. */
  function CompatibleOf(f: Saved): Option<seq<Byte>> {
    match Transformed(f.config, f.marker.GetOr(map[]), true)
    case None => None
    case Some(output) => Some(output.bytes)
  }

  /** Whether a file is accepted does not depend on the mode. */
  lemma TransformsAlike(bytes: seq<Byte>, original: Undo, compatibility: bool)
    ensures Transformed(bytes, original, compatibility).Some? ==> Transformed(bytes, original, false).Some?
  {
    hide Decode, Walk, Split, ValidUndo, Transformed;
    AcceptedIff(bytes, original, compatibility);
    AcceptedIff(bytes, original, false);
    if Accepted(bytes, original, compatibility).Some? {
      ReadsAlike(Split(Decode(bytes).value.0), original, compatibility, original, false);
    }
  }

  // ----- A file at the limit -------------------------------------------------------------------

  function Filler(n: nat): Text {
    seq(n, _ => 'x')
  }

  /** The Video section sets Reflex to this value; `n` characters of another line follow. */
  function VideoLines(value: string, n: nat): seq<Text> {
    [['{', 'V', 'i', 'd', 'e', 'o', '\n'], Render(ReflexLine(value)), ['}', '\n'], Filler(n)]
  }

  function ReflexLine(value: string): Parts {
    Parts([], NameOf(Reflex), [' '], value, [], ['\n'])
  }

  lemma ReflexIsField(value: string)
    requires GoodValue(value)
    ensures Classify(Render(ReflexLine(value))) == Field(ReflexLine(value)) && GoodParts(ReflexLine(value))
    ensures SettingOf(NameOf(Reflex)) == Some(Reflex)
  {
    var p := ReflexLine(value);
    assert SettingOf(NameOf(Reflex)) == Some(Reflex);
    RenderedIsField(p);
  }

  lemma RenderedIsField(p: Parts)
    requires GoodParts(p)
    ensures Classify(Render(p)) == Field(p)
  {
    hide SettingOf, Parse, Trim, Token, Render, White;
    RenderedParses(p);
    TrimmedField(p);
    KeyBegins(p.key);
  }

  lemma SectionOpens()
    ensures Classify(['{', 'V', 'i', 'd', 'e', 'o', '\n']) == Opens(true)
  {
    var line, body := ['{', 'V', 'i', 'd', 'e', 'o', '\n'], ['{', 'V', 'i', 'd', 'e', 'o'];
    RunIs(line, Whites, 0);
    assert line[0..] == line && line[..6] == body;
    assert TrimEnd(line) == TrimEnd(body) == body;
  }

  lemma SectionCloses()
    ensures Classify(['}', '\n']) == Closes
  {
    var line := ['}', '\n'];
    RunIs(line, Whites, 0);
    assert line[0..] == line && line[..1] == ['}'];
    assert TrimEnd(line) == TrimEnd(['}']) == ['}'];
  }

  lemma FillerIsOther(n: nat)
    requires n > 0
    ensures Classify(Filler(n)) == Other && IsLine(Filler(n))
  {
    var line := Filler(n);
    RunIs(line, Whites, 0);
    assert line[0..] == line;
    assert TrimEnd(line) == line;
    RunIs(line, NotBlanks, n);
    assert Token(line) == line[..n] == line;
    if SettingOf(line).Some? {
      KeyStartsUpper(line);
    }
  }

  lemma KeyStartsUpper(key: string)
    requires SettingOf(key).Some?
    ensures key != [] && key[0] in ['A', 'R', 'F']
  {
    var base := if |key| >= 2 && key[|key| - 2..] == "VR" then key[..|key| - 2] else key;
    assert base[0] == key[0];
  }

  lemma VideoWalk(value: string, n: nat, o: Undo, c: bool)
    requires GoodValue(value) && n > 0
    ensures AreLines(VideoLines(value, n))
    ensures Walk(VideoLines(value, n), o, c).Some?
    ensures var s := Walk(VideoLines(value, n), o, c).value;
            s.found && s.depth == 0 && s.values == map[NameOf(Reflex) := value]
  {
    hide Classify, Render, SettingOf, NewValue, GoodValue, GoodParts, IsLine;
    var lines := VideoLines(value, n);
    SectionOpens();
    ReflexIsField(value);
    SectionCloses();
    FillerIsOther(n);
    VideoAreLines(value, n);
    assert lines[..3][..2][..1][..0] == [];
    assert lines[..3][..2][..1] == [lines[0]];
    assert lines[..3][..2] == [lines[0], lines[1]];
    assert lines[..3] == [lines[0], lines[1], lines[2]];
    assert Walk([], o, c) == Some(START);
    var s1 := Walk([lines[0]], o, c);
    assert [lines[0]][..0] == [];
    assert s1.Some? && s1.value.video && s1.value.depth == 1 && s1.value.values == map[];
    assert [lines[0], lines[1]][..1] == [lines[0]];
    var s2 := Walk([lines[0], lines[1]], o, c);
    assert s2.Some? && s2.value.video && s2.value.depth == 1 && s2.value.values == map[NameOf(Reflex) := value];
    assert [lines[0], lines[1], lines[2]][..2] == [lines[0], lines[1]];
    var s3 := Walk([lines[0], lines[1], lines[2]], o, c);
    assert s3.Some? && !s3.value.video && s3.value.depth == 0;
  }

  lemma FourLines(a: Text, b: Text, d: Text, e: Text)
    requires IsLine(a) && IsLine(b) && IsLine(d) && IsLine(e)
    requires a[|a| - 1] == b[|b| - 1] == d[|d| - 1] == '\n'
    ensures AreLines([a, b, d, e]) && Join([a, b, d, e]) == a + (b + (d + e))
  {
    var lines := [a, b, d, e];
    assert lines[1..] == [b, d, e] && lines[1..][1..] == [d, e] && lines[1..][1..][1..] == [e];
    assert Join([e]) == e + Join([e][1..]) == e;
    assert Join([d, e]) == d + Join([d, e][1..]);
    assert Join([b, d, e]) == b + Join([b, d, e][1..]);
  }

  lemma SectionLines()
    ensures IsLine(['{', 'V', 'i', 'd', 'e', 'o', '\n']) && IsLine(['}', '\n'])
  {
  }

  lemma VideoAreLines(value: string, n: nat)
    requires GoodValue(value) && n > 0
    ensures AreLines(VideoLines(value, n))
    ensures Join(VideoLines(value, n)) ==
            ['{', 'V', 'i', 'd', 'e', 'o', '\n'] + (Render(ReflexLine(value)) + (['}', '\n'] + Filler(n)))
  {
    hide Render, SettingOf, GoodValue, GoodParts, AreLines, Join, IsLine, Classify, Filler;
    ReflexIsField(value);
    RenderIsLine(ReflexLine(value));
    FillerIsOther(n);
    SectionLines();
    FourLines(['{', 'V', 'i', 'd', 'e', 'o', '\n'], Render(ReflexLine(value)), ['}', '\n'], Filler(n));
  }

  function VideoFile(value: string, n: nat): seq<Byte> {
    Encode(Join(VideoLines(value, n)), Plain)
  }

  /** Such a file is accepted in every mode, and its one option is found. */
  lemma VideoFileIsAccepted(value: string, n: nat, o: Undo, c: bool)
    requires GoodValue(value) && n > 0 && ValidUndo(o)
    ensures Accepted(VideoFile(value, n), o, c).Some?
    ensures Accepted(VideoFile(value, n), o, c).value.0.values == map[NameOf(Reflex) := value]
    ensures Accepted(VideoFile(value, n), o, c).value.1 == Plain
  {
    hide Walk, Decode, Encode, GoodValue, AreLines, ValidUndo, Render;
    VideoWalk(value, n, o, c);
    var lines := VideoLines(value, n);
    SplitJoined(lines);
    VideoAreLines(value, n);
    DecodeEncoded(Join(lines), Plain);
  }

  lemma VideoFileSize(value: string, n: nat)
    requires GoodValue(value) && n > 0 && forall i | 0 <= i < |value| :: value[i] as int < 0x80
    ensures |VideoFile(value, n)| == 17 + |value| + n
  {
    hide Weight, GoodValue, Join, AreLines, Render;
    var a, b, d, e := VideoLines(value, n)[0], Render(ReflexLine(value)), ['}', '\n'], Filler(n);
    EncodedSize(Join(VideoLines(value, n)), Plain);
    VideoAreLines(value, n);
    WeightOfAscii(a, Plain);
    ReflexIsAscii(value);
    WeightOfAscii(b, Plain);
    WeightOfAscii(d, Plain);
    WeightOfAscii(e, Plain);
    WeightAdds(d, e, Plain);
    WeightAdds(b, d + e, Plain);
    WeightAdds(a, b + (d + e), Plain);
  }

  lemma ReflexIsAscii(value: string)
    requires forall i | 0 <= i < |value| :: value[i] as int < 0x80
    ensures |Render(ReflexLine(value))| == 8 + |value|
    ensures forall i | 0 <= i < |Render(ReflexLine(value))| :: Render(ReflexLine(value))[i] as int < 0x80
  {
    var name := NameOf(Reflex);
    assert |name| == 6 && forall i | 0 <= i < 6 :: name[i] as int < 0x80;
  }

  lemma ReflexGrowth(value: string, o: Undo, c: bool)
    ensures Growth(map[NameOf(Reflex) := value], o, c) == |NewValue(NameOf(Reflex), value, o, c)| - |value|
    ensures SettingOf(NameOf(Reflex)) == Some(Reflex)
  {
    hide NewValue;
    var none: map<string, string> := map[];
    assert SettingOf(NameOf(Reflex)) == Some(Reflex);
    NamesDiffer();
    OptionsAreNamed(NameOf(Reflex));
    NothingGrows(OptionNames(), o, c);
    OneMoreGrowth(OptionNames(), none, NameOf(Reflex), value, o, c);
    assert none[NameOf(Reflex) := value] == map[NameOf(Reflex) := value];
  }

  /**
   * A file of exactly the limit with Reflex on: it is read, compatibility mode makes it one
   * byte larger, and from then on it is passed over, so that Reflex is never put back.
   */
  lemma CompatibilityOutgrows()
    ensures var f := Saved(VideoFile("ON", LIMIT - 19), None);
            && |f.config| == LIMIT && Read(f, true) && Grown(f, true) == LIMIT + 1
            && CompatibleOf(f).Some? && |CompatibleOf(f).value| == LIMIT + 1
            && forall marker :: Undone(Saved(CompatibleOf(f).value, marker)) == None
  {
    hide Accepted, Transformed, VideoFile, GoodValue, Unit, Growth;
    var value := "ON";
    OnIsUnsupported();
    VideoFileIsAccepted(value, LIMIT - 19, map[], true);
    VideoFileSize(value, LIMIT - 19);
    ReflexGrowth(value, map[], true);
    var f := Saved(VideoFile(value, LIMIT - 19), None);
    PlainUnit();
    TransformedSize(f.config, map[], true);
    AcceptedIff(f.config, map[], true);
  }

  lemma OnIsUnsupported()
    ensures GoodValue("ON") && Unsupported(Reflex, "ON") && |Safe(Reflex)| == 3
    ensures forall i | 0 <= i < |"ON"| :: "ON"[i] as int < 0x80
  {
  }

  lemma PlainUnit()
    ensures Unit(Plain) == 1
  {
  }

  /**
   * The other way round: leaving compatibility mode puts back a longer value, here five bytes
   * longer than the one in its place, and the file it gives is passed over at later launches.
   */
  lemma UndoOutgrows()
    ensures var f := Saved(VideoFile("OFF", LIMIT - 20), Some(map[NameOf(Reflex) := "ON+BOOST"]));
            && |f.config| == LIMIT && Read(f, false) && Grown(f, false) == LIMIT + 5
            && Undone(f).Some? && |Undone(f).value| == LIMIT + 5
            && forall compatibility :: !Read(Saved(Undone(f).value, None), compatibility)
  {
    hide Accepted, Transformed, VideoFile, GoodValue, Unit, Growth, ValidUndo;
    var value, o := "OFF", map[NameOf(Reflex) := "ON+BOOST"];
    OffIsSafe();
    VideoFileIsAccepted(value, LIMIT - 20, o, false);
    VideoFileSize(value, LIMIT - 20);
    ReflexGrowth(value, o, false);
    var f := Saved(VideoFile(value, LIMIT - 20), Some(o));
    PlainUnit();
    TransformedSize(f.config, o, false);
  }

  lemma OffIsSafe()
    ensures GoodValue("OFF") && Safe(Reflex) == "OFF" && |"OFF"| == 3 && |"ON+BOOST"| == 8
    ensures ValidUndo(map[NameOf(Reflex) := "ON+BOOST"])
    ensures forall i | 0 <= i < |"OFF"| :: "OFF"[i] as int < 0x80
  {
    assert SettingOf(NameOf(Reflex)) == Some(Reflex);
  }
}
