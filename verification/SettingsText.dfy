// The text of a settings file: its encodings and its lines
// (native/graphics_settings.rs; UTF-16 is section 2 of RFC 2781).

module SettingsText {
  import opened Prelude

  type Byte = x: int | 0 <= x < 0x100
  type Word = x: int | 0 <= x < 0x1_0000
  type Text = seq<char>

  // ----- UTF-16 --------------------------------------------------------------------

  function WordsOf(c: char): seq<Word> {
    var n := c as int;
    if n < 0x1_0000 then [n]
    else [0xD800 + (n - 0x1_0000) / 0x400, 0xDC00 + (n - 0x1_0000) % 0x400]
  }

  function EncodeWords(text: Text): seq<Word> {
    if text == [] then [] else WordsOf(text[0]) + EncodeWords(text[1..])
  }

  /** The first character of a sequence of words, unless a surrogate is unpaired. */
  function FirstOfWords(words: seq<Word>): Option<char>
    requires words != []
  {
    if !(0xD800 <= words[0] < 0xE000) then Some(words[0] as char)
    else if words[0] < 0xDC00 && |words| > 1 && 0xDC00 <= words[1] < 0xE000 then
      var high: int, low: int := words[0] - 0xD800, words[1] - 0xDC00;
      Some((0x1_0000 + high * 0x400 + low) as char)
    else None
  }

  function DecodeWords(words: seq<Word>): Option<Text>
    decreases |words|
  {
    if words == [] then Some([])
    else
      var c := FirstOfWords(words);
      if c.None? then None
      else
        var rest := DecodeWords(words[|WordsOf(c.value)|..]);
        if rest.None? then None else Some([c.value] + rest.value)
  }

  lemma FirstWord(c: char, rest: seq<Word>)
    ensures FirstOfWords(WordsOf(c) + rest) == Some(c)
    ensures (WordsOf(c) + rest)[|WordsOf(c)|..] == rest
  {
  }

  lemma WordsAgain(words: seq<Word>)
    requires words != [] && FirstOfWords(words).Some?
    ensures var c := FirstOfWords(words).value;
            |WordsOf(c)| <= |words| && WordsOf(c) == words[..|WordsOf(c)|]
  {
  }

  lemma {:induction false} DecodeEncodedWords(text: Text)
    ensures DecodeWords(EncodeWords(text)) == Some(text)
  {
    if text != [] {
      FirstWord(text[0], EncodeWords(text[1..]));
      assert [text[0]] + text[1..] == text;
      DecodeEncodedWords(text[1..]);
    }
  }

  lemma {:induction false} EncodeDecodedWords(words: seq<Word>)
    requires DecodeWords(words).Some?
    ensures EncodeWords(DecodeWords(words).value) == words
    decreases |words|
  {
    if words != [] {
      WordsAgain(words);
      var n := |WordsOf(FirstOfWords(words).value)|;
      EncodeDecodedWords(words[n..]);
      assert words[..n] + words[n..] == words;
    }
  }

  // ----- UTF-8 -----------------------------------------------------------------------

  function BytesOf(c: char): seq<Byte> {
    var n := c as int;
    var n1, n2, n3 := n / 0x40, n / 0x40 / 0x40, n / 0x40 / 0x40 / 0x40;
    if n < 0x80 then [n]
    else if n < 0x800 then [0xC0 + n1, 0x80 + n % 0x40]
    else if n < 0x1_0000 then [0xE0 + n2, 0x80 + n1 % 0x40, 0x80 + n % 0x40]
    else [0xF0 + n3, 0x80 + n2 % 0x40, 0x80 + n1 % 0x40, 0x80 + n % 0x40]
  }

  function EncodeBytes(text: Text): seq<Byte> {
    if text == [] then [] else BytesOf(text[0]) + EncodeBytes(text[1..])
  }

  /** What the first byte of a sequence of `n` bytes is at least. */
  function Lead(n: nat): int {
    if n == 1 then 0 else if n == 2 then 0xC0 else if n == 3 then 0xE0 else 0xF0
  }

  /** The least number that takes `n` bytes. */
  function Least(n: nat): int {
    if n == 1 then 0 else if n == 2 then 0x80 else if n == 3 then 0x800 else 0x1_0000
  }

  /** The number that the first byte of a sequence of `n` bytes and its continuations stand for. */
  function Joined(bytes: seq<Byte>, lead: int, n: nat): Option<int>
    requires 1 <= n <= 4
  {
    if |bytes| < n || !forall i | 1 <= i < n :: 0x80 <= bytes[i] < 0xC0 then None
    else
      var first: int := bytes[0] - lead;
      if n == 2 then Some(first * 0x40 + (bytes[1] - 0x80) as int)
      else if n == 3 then Some((first * 0x40 + (bytes[1] - 0x80) as int) * 0x40 + (bytes[2] - 0x80) as int)
      else if n == 4 then
        Some(((first * 0x40 + (bytes[1] - 0x80) as int) * 0x40 + (bytes[2] - 0x80) as int) * 0x40 + (bytes[3] - 0x80) as int)
      else Some(first)
  }

  function Scalar(n: Option<int>, least: nat): Option<char> {
    if n.Some? && least <= n.value < 0x11_0000 && !(0xD800 <= n.value < 0xE000) then Some(n.value as char) else None
  }

  /** The character that the first bytes stand for: shortest form only, and no surrogates. */
  function FirstOfBytes(bytes: seq<Byte>): Option<char>
    requires bytes != []
  {
    var b := bytes[0];
    if b < 0x80 then Scalar(Joined(bytes, Lead(1), 1), Least(1))
    else if 0xC0 <= b < 0xE0 then Scalar(Joined(bytes, Lead(2), 2), Least(2))
    else if 0xE0 <= b < 0xF0 then Scalar(Joined(bytes, Lead(3), 3), Least(3))
    else if 0xF0 <= b < 0xF8 then Scalar(Joined(bytes, Lead(4), 4), Least(4))
    else None
  }

  function DecodeBytes(bytes: seq<Byte>): Option<Text>
    decreases |bytes|
  {
    if bytes == [] then Some([])
    else
      var c := FirstOfBytes(bytes);
      if c.None? then None
      else
        var rest := DecodeBytes(bytes[|BytesOf(c.value)|..]);
        if rest.None? then None else Some([c.value] + rest.value)
  }

  lemma FirstByte(c: char, rest: seq<Byte>)
    ensures FirstOfBytes(BytesOf(c) + rest) == Some(c)
    ensures (BytesOf(c) + rest)[|BytesOf(c)|..] == rest
  {
    var n := |BytesOf(c)|;
    assert Joined(BytesOf(c) + rest, Lead(n), n) == Some(c as int) by {
      Joins(c, rest);
    }
    assert (BytesOf(c) + rest)[0] == BytesOf(c)[0];
  }

  lemma Joins(c: char, rest: seq<Byte>)
    ensures var n := |BytesOf(c)|;
            1 <= n <= 4 && Joined(BytesOf(c) + rest, Lead(n), n) == Some(c as int)
  {
    var n, bytes := c as int, BytesOf(c) + rest;
    assert forall i | 0 <= i < |BytesOf(c)| :: bytes[i] == BytesOf(c)[i];
    Digits(n);
    Digits(n / 0x40);
    Digits(n / 0x40 / 0x40);
  }

  lemma Digits(n: int)
    ensures n == n / 0x40 * 0x40 + n % 0x40
  {
  }

  lemma BytesAgain(bytes: seq<Byte>)
    requires bytes != [] && FirstOfBytes(bytes).Some?
    ensures var c := FirstOfBytes(bytes).value;
            |BytesOf(c)| <= |bytes| && BytesOf(c) == bytes[..|BytesOf(c)|]
  {
    hide BytesOf, Joined;
    var b := bytes[0];
    var n := if b < 0x80 then 1 else if b < 0xE0 then 2 else if b < 0xF0 then 3 else 4;
    JoinedAgain(bytes, n, Joined(bytes, Lead(n), n).value);
  }

  lemma JoinedAgain(bytes: seq<Byte>, n: nat, v: int)
    requires 1 <= n <= 4 && bytes != [] && Joined(bytes, Lead(n), n) == Some(v) && Scalar(Some(v), Least(n)).Some?
    requires bytes[0] < if n == 1 then 0x80 else if n == 2 then 0xE0 else if n == 3 then 0xF0 else 0xF8
    ensures n <= |bytes| && BytesOf(v as char) == bytes[..n]
  {
    var first: int := bytes[0] - Lead(n);
    if n > 1 {
      Digit(first, bytes[1] - 0x80);
      var second := first * 0x40 + (bytes[1] - 0x80) as int;
      if n > 2 {
        Digit(second, bytes[2] - 0x80);
        var third := second * 0x40 + (bytes[2] - 0x80) as int;
        if n > 3 {
          Digit(third, bytes[3] - 0x80);
        }
      }
    }
  }

  lemma Digit(a: int, d: int)
    requires 0 <= d < 0x40
    ensures (a * 0x40 + d) / 0x40 == a && (a * 0x40 + d) % 0x40 == d
  {
  }

  lemma {:induction false} DecodeEncodedBytes(text: Text)
    ensures DecodeBytes(EncodeBytes(text)) == Some(text)
  {
    if text != [] {
      FirstByte(text[0], EncodeBytes(text[1..]));
      assert [text[0]] + text[1..] == text;
      DecodeEncodedBytes(text[1..]);
    }
  }

  lemma {:induction false} EncodeDecodedBytes(bytes: seq<Byte>)
    requires DecodeBytes(bytes).Some?
    ensures EncodeBytes(DecodeBytes(bytes).value) == bytes
    decreases |bytes|
  {
    hide FirstOfBytes, BytesOf;
    if bytes != [] {
      BytesAgain(bytes);
      NotNone(FirstOfBytes(bytes).value);
      var n := |BytesOf(FirstOfBytes(bytes).value)|;
      EncodeDecodedBytes(bytes[n..]);
      assert bytes[..n] + bytes[n..] == bytes;
    }
  }

  // ----- Files ---------------------------------------------------------------------

  datatype Encoding = Plain | Marked | LittleEndian | BigEndian

  const BYTE_ORDER_MARK := '\U{FEFF}'

  function Pair(w: Word, little: bool): seq<Byte> {
    if little then [w % 0x100, w / 0x100] else [w / 0x100, w % 0x100]
  }

  function PairsOf(words: seq<Word>, little: bool): seq<Byte> {
    if words == [] then [] else Pair(words[0], little) + PairsOf(words[1..], little)
  }

  function WordAt(first: Byte, second: Byte, little: bool): Word {
    if little then first + second * 0x100 else first * 0x100 + second
  }

  function FromPairs(bytes: seq<Byte>, little: bool): seq<Word>
    requires |bytes| % 2 == 0
  {
    if bytes == [] then [] else [WordAt(bytes[0], bytes[1], little)] + FromPairs(bytes[2..], little)
  }

  lemma {:induction false} PairsAgain(words: seq<Word>, little: bool)
    ensures |PairsOf(words, little)| % 2 == 0 && FromPairs(PairsOf(words, little), little) == words
  {
    if words != [] {
      PairsAgain(words[1..], little);
      var bytes := PairsOf(words, little);
      assert bytes[2..] == PairsOf(words[1..], little);
      assert WordAt(bytes[0], bytes[1], little) == words[0];
    }
  }

  lemma {:induction false} WordsFromPairs(bytes: seq<Byte>, little: bool)
    requires |bytes| % 2 == 0
    ensures PairsOf(FromPairs(bytes, little), little) == bytes
  {
    if bytes != [] {
      WordsFromPairs(bytes[2..], little);
      var word: Word := WordAt(bytes[0], bytes[1], little);
      assert FromPairs(bytes, little)[1..] == FromPairs(bytes[2..], little);
      assert Pair(word, little) == bytes[..2];
      assert bytes[..2] + bytes[2..] == bytes;
    }
  }

  predicate Wide(bytes: seq<Byte>) {
    |bytes| >= 2 && bytes[..2] in {[0xFF, 0xFE], [0xFE, 0xFF]}
  }

  function Decode(bytes: seq<Byte>): Option<(Text, Encoding)> {
    if Wide(bytes) then
      var little := bytes[0] == 0xFF;
      if |bytes| % 2 != 0 then None
      else
        var text := DecodeWords(FromPairs(bytes[2..], little));
        if text.None? then None else Some((text.value, if little then LittleEndian else BigEndian))
    else
      var marked := |bytes| >= 3 && bytes[..3] == [0xEF, 0xBB, 0xBF];
      var text := DecodeBytes(if marked then bytes[3..] else bytes);
      if text.None? then None else Some((text.value, if marked then Marked else Plain))
  }

  function Encode(text: Text, encoding: Encoding): seq<Byte> {
    match encoding
    case LittleEndian => [0xFF, 0xFE] + PairsOf(EncodeWords(text), true)
    case BigEndian => [0xFE, 0xFF] + PairsOf(EncodeWords(text), false)
    case Marked => [0xEF, 0xBB, 0xBF] + EncodeBytes(text)
    case Plain => EncodeBytes(text)
  }

  /** Text that can be stored without a byte order mark does not begin with one. */
  predicate Storable(text: Text, encoding: Encoding) {
    encoding == Plain && text != [] ==> text[0] != BYTE_ORDER_MARK
  }

  lemma FirstByteOf(c: char)
    ensures BytesOf(c)[0] < 0xF5
    ensures BytesOf(c)[0] == 0xEF ==> |BytesOf(c)| == 3
    ensures BytesOf(c) == [0xEF, 0xBB, 0xBF] <==> c == BYTE_ORDER_MARK
  {
    var n := c as int;
    if BytesOf(c) == [0xEF, 0xBB, 0xBF] {
      assert n / 0x40 / 0x40 == 0xF && n / 0x40 % 0x40 == 0x3B && n % 0x40 == 0x3F;
      assert n == ((n / 0x40 / 0x40) * 0x40 + n / 0x40 % 0x40) * 0x40 + n % 0x40;
      assert n == 0xFEFF;
    }
  }

  lemma PlainStart(text: Text)
    ensures !Wide(EncodeBytes(text))
    ensures |EncodeBytes(text)| >= 3 && EncodeBytes(text)[..3] == [0xEF, 0xBB, 0xBF] <==> text != [] && text[0] == BYTE_ORDER_MARK
  {
    hide BytesOf;
    if text != [] {
      FirstByteOf(text[0]);
      var bytes := EncodeBytes(text);
      assert bytes == BytesOf(text[0]) + EncodeBytes(text[1..]);
      assert 0 < |BytesOf(text[0])| by {
        NotNone(text[0]);
      }
      assert bytes[0] == BytesOf(text[0])[0];
      if |BytesOf(text[0])| == 3 {
        assert bytes[..3] == BytesOf(text[0]);
      }
    }
  }

  lemma NotNone(c: char)
    ensures 0 < |BytesOf(c)| <= 4
  {
  }

  /** What was written is read back, in the same encoding. */
  lemma DecodeEncoded(text: Text, encoding: Encoding)
    requires Storable(text, encoding)
    ensures Decode(Encode(text, encoding)) == Some((text, encoding))
  {
    hide EncodeWords, EncodeBytes, DecodeWords, DecodeBytes, PairsOf, FromPairs;
    DecodeEncodedWords(text);
    DecodeEncodedBytes(text);
    PlainStart(text);
    var words, bytes := EncodeWords(text), Encode(text, encoding);
    PairsAgain(words, true);
    PairsAgain(words, false);
    match encoding
    case LittleEndian => assert bytes[..2] == [0xFF, 0xFE] && bytes[2..] == PairsOf(words, true);
    case BigEndian => assert bytes[..2] == [0xFE, 0xFF] && bytes[2..] == PairsOf(words, false);
    case Marked =>
      assert bytes[..3] == [0xEF, 0xBB, 0xBF] && bytes[3..] == EncodeBytes(text);
      assert bytes[..2] == [0xEF, 0xBB];
    case Plain =>
      assert bytes == EncodeBytes(text);
  }

  /** What was read is written back, byte for byte. */
  lemma EncodeDecoded(bytes: seq<Byte>)
    requires Decode(bytes).Some?
    ensures Encode(Decode(bytes).value.0, Decode(bytes).value.1) == bytes
    ensures Storable(Decode(bytes).value.0, Decode(bytes).value.1)
  {
    hide EncodeWords, EncodeBytes, DecodeWords, DecodeBytes, PairsOf, FromPairs;
    if Wide(bytes) {
      var little := bytes[0] == 0xFF;
      WordsFromPairs(bytes[2..], little);
      EncodeDecodedWords(FromPairs(bytes[2..], little));
      assert bytes == bytes[..2] + bytes[2..];
    } else {
      var marked := |bytes| >= 3 && bytes[..3] == [0xEF, 0xBB, 0xBF];
      var rest := if marked then bytes[3..] else bytes;
      EncodeDecodedBytes(rest);
      PlainStart(Decode(bytes).value.0);
      if marked {
        assert bytes == bytes[..3] + bytes[3..];
      }
    }
  }

  // ----- Words and white space -----------------------------------------------------

  predicate Blank(c: char) {
    c == ' ' || c == '\t'
  }

  /** The characters that trimming removes: Unicode's white space. */
  predicate White(c: char) {
    var n := c as int;
    9 <= n <= 13 || n in [0x20, 0x85, 0xA0, 0x1680, 0x2028, 0x2029, 0x202F, 0x205F, 0x3000] || 0x2000 <= n <= 0x200A
  }

  predicate Dark(c: char) {
    !Blank(c) && c != '\r' && c != '\n'
  }

  datatype Class = Blanks | Whites | Darks | NotBlanks

  predicate In(c: char, class_: Class) {
    match class_
    case Blanks => Blank(c)
    case Whites => White(c)
    case Darks => Dark(c)
    case NotBlanks => !Blank(c)
  }

  predicate AllIn(t: Text, class_: Class) {
    forall i | 0 <= i < |t| :: In(t[i], class_)
  }

  /** The length of the longest prefix of one class. */
  function Run(t: Text, class_: Class): (n: nat)
    ensures n <= |t| && forall i | 0 <= i < n :: In(t[i], class_)
    ensures n < |t| ==> !In(t[n], class_)
  {
    if t == [] || !In(t[0], class_) then 0 else 1 + Run(t[1..], class_)
  }

  lemma RunIs(t: Text, class_: Class, n: nat)
    requires n <= |t| && (forall i | 0 <= i < n :: In(t[i], class_)) && (n < |t| ==> !In(t[n], class_))
    ensures Run(t, class_) == n
  {
  }

  function TrimEnd(t: Text): (r: Text)
    ensures r <= t
    ensures r != [] ==> !White(r[|r| - 1])
    ensures forall i | |r| <= i < |t| :: White(t[i])
  {
    if t == [] || !White(t[|t| - 1]) then t else TrimEnd(t[..|t| - 1])
  }

  function Trim(t: Text): Text {
    TrimEnd(t[Run(t, Whites)..])
  }

  function Token(t: Text): Text {
    t[..Run(t, NotBlanks)]
  }

  // ----- Lines ----------------------------------------------------------------------

  /** Where the first line ends, its line break included. */
  function LineEnd(text: Text): (n: nat)
    ensures n <= |text| && (text != [] ==> n > 0)
  {
    if text == [] then 0 else if text[0] == '\n' then 1 else 1 + LineEnd(text[1..])
  }

  function Split(text: Text): seq<Text>
    decreases |text|
  {
    if text == [] then [] else [text[..LineEnd(text)]] + Split(text[LineEnd(text)..])
  }

  function Join(lines: seq<Text>): Text {
    if lines == [] then [] else lines[0] + Join(lines[1..])
  }

  /** A line break ends a line and is nowhere else in it. */
  predicate IsLine(line: Text) {
    line != [] && forall i | 0 <= i < |line| - 1 :: line[i] != '\n'
  }

  predicate AreLines(lines: seq<Text>) {
    && (forall i | 0 <= i < |lines| :: IsLine(lines[i]))
    && (forall i | 0 <= i < |lines| - 1 :: lines[i][|lines[i]| - 1] == '\n')
  }

  lemma {:induction false} FirstLine(text: Text)
    requires text != []
    ensures IsLine(text[..LineEnd(text)])
    ensures LineEnd(text) < |text| ==> text[LineEnd(text) - 1] == '\n'
  {
    if text[0] != '\n' && |text| > 1 {
      FirstLine(text[1..]);
      var rest := text[1..][..LineEnd(text[1..])];
      forall i | 0 < i < LineEnd(text) - 1 ensures text[i] != '\n' {
        assert rest[i - 1] == text[i];
      }
    }
  }

  lemma OneMoreLine(line: Text, lines: seq<Text>)
    requires IsLine(line) && AreLines(lines)
    requires lines != [] ==> line[|line| - 1] == '\n'
    ensures AreLines([line] + lines)
  {
    var all := [line] + lines;
    forall i | 0 <= i < |all| ensures IsLine(all[i]) && (i < |all| - 1 ==> all[i][|all[i]| - 1] == '\n') {
      assert i > 0 ==> all[i] == lines[i - 1];
    }
  }

  lemma {:induction false} SplitGivesLines(text: Text)
    ensures AreLines(Split(text)) && Join(Split(text)) == text
    decreases |text|
  {
    hide AreLines, IsLine, LineEnd;
    if text == [] {
      NoLines();
    } else {
      var n := LineEnd(text);
      var line, rest := text[..n], text[n..];
      FirstLine(text);
      SplitGivesLines(rest);
      OneMoreLine(line, Split(rest));
      assert ([line] + Split(rest))[1..] == Split(rest);
      assert line + rest == text;
    }
  }

  lemma NoLines()
    ensures AreLines([])
  {
  }

  lemma {:induction false} EndOfLine(line: Text, rest: Text)
    requires IsLine(line) && (rest != [] ==> line[|line| - 1] == '\n')
    ensures LineEnd(line + rest) == |line|
  {
    if |line| > 1 {
      assert (line + rest)[1..] == line[1..] + rest;
      EndOfLine(line[1..], rest);
    } else if line[0] != '\n' {
      assert (line + rest)[1..] == [];
    }
  }

  lemma {:induction false} SplitJoined(lines: seq<Text>)
    requires AreLines(lines)
    ensures Split(Join(lines)) == lines
  {
    if lines != [] {
      var rest := Join(lines[1..]);
      SplitJoined(lines[1..]);
      EndOfLine(lines[0], rest);
      assert (lines[0] + rest)[..|lines[0]|] == lines[0] && (lines[0] + rest)[|lines[0]|..] == rest;
    }
  }

  lemma {:induction false} JoinAppends(lines: seq<Text>, line: Text)
    ensures Join(lines + [line]) == Join(lines) + line
  {
    if lines == [] {
      assert [line][1..] == [];
    } else {
      assert (lines + [line])[1..] == lines[1..] + [line];
      JoinAppends(lines[1..], line);
    }
  }

  // ----- Sizes -----------------------------------------------------------------------

  /** How many bytes an ASCII character takes. */
  function Unit(encoding: Encoding): nat {
    if encoding in {LittleEndian, BigEndian} then 2 else 1
  }

  /** How many bytes a text takes, without a byte order mark. */
  function Weight(text: Text, encoding: Encoding): nat {
    if encoding in {LittleEndian, BigEndian} then 2 * |EncodeWords(text)| else |EncodeBytes(text)|
  }

  lemma {:induction false} PairsSize(words: seq<Word>, little: bool)
    ensures |PairsOf(words, little)| == 2 * |words|
  {
    if words != [] {
      PairsSize(words[1..], little);
    }
  }

  lemma EncodedSize(text: Text, encoding: Encoding)
    ensures |Encode(text, encoding)| ==
            Weight(text, encoding) + (match encoding case Plain => 0 case Marked => 3 case _ => 2)
  {
    PairsSize(EncodeWords(text), true);
    PairsSize(EncodeWords(text), false);
  }

  lemma {:induction false} WeightAdds(a: Text, b: Text, encoding: Encoding)
    ensures Weight(a + b, encoding) == Weight(a, encoding) + Weight(b, encoding)
  {
    hide WordsOf, BytesOf;
    if a == [] {
      assert a + b == b;
    } else {
      assert (a + b)[1..] == a[1..] + b;
      WeightAdds(a[1..], b, encoding);
    }
  }

  lemma {:induction false} WeightOfAscii(text: Text, encoding: Encoding)
    requires forall i | 0 <= i < |text| :: text[i] as int < 0x80
    ensures Weight(text, encoding) == Unit(encoding) * |text|
  {
    if text != [] {
      WeightOfAscii(text[1..], encoding);
    }
  }
}
