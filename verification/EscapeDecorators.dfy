/**
 The tables of `c_dec`, `xml_dec` and `csv_dec`, the hexadecimal loop of `c_ascii_dec`, and the
 decoders that undo them: simple escapes of ISO C99 (section 6.4.4.4), predefined entities of
 XML 1.0 (section 4.6), doubled quotes of RFC 4180 (section 2).
 */
module EscapeDecorators {
  import opened Records
  import opened CharDecorator

  function Codes(s: string): (t: Text)
    ensures |t| == |s| && forall i :: 0 <= i < |s| ==> t[i] == s[i] as nat
  {
    seq(|s|, i requires 0 <= i < |s| => s[i] as nat)
  }

  const BACKSLASH: nat := 92
  const QUOTE: nat := 34
  const AMPERSAND: nat := 38

  // Backslash, \a, \b, \f, \n, \r, \t, \v, apostrophe, quote and question mark, by their codes.
  const C_PATTERNS: seq<nat> := [92, 7, 8, 12, 10, 13, 9, 11, 39, 34, 63]
  const C_LETTERS: seq<nat> := [92, 97, 98, 102, 110, 114, 116, 118, 39, 34, 63]

  // A C escape is a backslash and a letter.
  function CTable(): (t: seq<Decoration>)
    ensures |t| == 11
  {
    seq(11, i requires 0 <= i < 11 => Decoration([C_PATTERNS[i]], [BACKSLASH, C_LETTERS[i]]))
  }

  function XmlTable(): seq<Decoration> {
    [Decoration(Codes("&"), Codes("&amp;")), Decoration(Codes("<"), Codes("&lt;")),
     Decoration(Codes(">"), Codes("&gt;")), Decoration(Codes("'"), Codes("&apos;"))]
  }

  function CsvTable(): seq<Decoration> {
    [Decoration(Codes("\""), Codes("\"\""))]
  }

  lemma CTableFacts()
    ensures Escaping(CTable()) && LaterAbsent(CTable())
  {
    forall i, j | 0 <= i < j < 11
      ensures C_PATTERNS[j] != BACKSLASH && C_PATTERNS[j] != C_LETTERS[i] && C_PATTERNS[i] != C_PATTERNS[j]
    {
    }
  }

  lemma XmlTableCodes()
    ensures XmlTable() ==
      [Decoration([38], [38, 97, 109, 112, 59]), Decoration([60], [38, 108, 116, 59]),
       Decoration([62], [38, 103, 116, 59]), Decoration([39], [38, 97, 112, 111, 115, 59])]
  {
    assert Codes("&") == [38] && Codes("&amp;") == [38, 97, 109, 112, 59];
    assert Codes("<") == [60] && Codes("&lt;") == [38, 108, 116, 59];
    assert Codes(">") == [62] && Codes("&gt;") == [38, 103, 116, 59];
    assert Codes("'") == [39] && Codes("&apos;") == [38, 97, 112, 111, 115, 59];
  }

  lemma XmlTableFacts()
    ensures Escaping(XmlTable()) && LaterAbsent(XmlTable())
  {
    XmlTableCodes();
    assert Escaping(XmlTable());
    forall i, j | 0 <= i < j < 4 ensures XmlTable()[j].pattern[0] !in XmlTable()[i].replacement {
      XmlEntityText(i);
    }
  }

  // The first three entities are spelled with characters that are not patterns, but for the ampersand.
  lemma XmlEntityText(i: nat)
    requires i < 3
    ensures forall c :: c in XmlTable()[i].replacement ==> c != 60 && c != 62 && c != 39
  {
    XmlTableCodes();
    var e := XmlTable()[i].replacement;
    if i == 0 {
      assert e == [38, 97, 109, 112, 59];
    } else if i == 1 {
      assert e == [38, 108, 116, 59];
    } else {
      assert e == [38, 103, 116, 59];
    }
  }

  lemma CsvTableFacts()
    ensures Escaping(CsvTable()) && LaterAbsent(CsvTable())
  {
  }

  // In the order listed, none of the tables rewrites what it has written.
  lemma TablesAreOnePass(s: Text)
    ensures ReplaceEach(CTable(), s) == OnePass(CTable(), s)
    ensures ReplaceEach(XmlTable(), s) == OnePass(XmlTable(), s)
    ensures ReplaceEach(CsvTable(), s) == OnePass(CsvTable(), s)
  {
    CTableFacts();
    XmlTableFacts();
    CsvTableFacts();
    SequentialIsOnePass(CTable(), s);
    SequentialIsOnePass(XmlTable(), s);
    SequentialIsOnePass(CsvTable(), s);
  }

  // The characters escaped are the backslash, the control characters from bell to carriage return and the
  // quotation and question marks; in XML the ampersand, the angle brackets and the apostrophe; in CSV the
  // quotation mark. A text without them is left alone.
  lemma TablesChangeIff(s: Text)
    ensures ReplaceEach(CTable(), s) == s
            <==> forall i :: 0 <= i < |s| ==> !(7 <= s[i] <= 13) && s[i] !in {34, 39, 63, 92}
    ensures ReplaceEach(XmlTable(), s) == s <==> forall i :: 0 <= i < |s| ==> s[i] !in {38, 39, 60, 62}
    ensures ReplaceEach(CsvTable(), s) == s <==> forall i :: 0 <= i < |s| ==> s[i] != 34
  {
    CTableFacts();
    XmlTableFacts();
    CsvTableFacts();
    SequenceKeepsIff(CTable(), s);
    SequenceKeepsIff(XmlTable(), s);
    SequenceKeepsIff(CsvTable(), s);
    CPatterns(s);
    XmlPatterns(s);
    assert CsvTable()[0].pattern[0] == 34;
  }

  lemma CPatterns(s: Text)
    ensures (forall j :: 0 <= j < 11 ==> CTable()[j].pattern[0] !in s)
            <==> forall i :: 0 <= i < |s| ==> !(7 <= s[i] <= 13) && s[i] !in {34, 39, 63, 92}
  {
    forall c: nat ensures c in C_PATTERNS <==> 7 <= c <= 13 || c in {34, 39, 63, 92} {
      if 7 <= c <= 13 || c in {34, 39, 63, 92} {
        assert C_PATTERNS[if c == 92 then 0 else if c == 7 then 1 else if c == 8 then 2 else if c == 12 then 3
                          else if c == 10 then 4 else if c == 13 then 5 else if c == 9 then 6 else if c == 11 then 7
                          else if c == 39 then 8 else if c == 34 then 9 else 10] == c;
      }
    }
    forall c: nat ensures c in C_PATTERNS <==> exists j :: 0 <= j < 11 && CTable()[j].pattern[0] == c {
      if c in C_PATTERNS {
        var j :| 0 <= j < 11 && C_PATTERNS[j] == c;
        assert CTable()[j].pattern[0] == c;
      }
    }
    if i :| 0 <= i < |s| && s[i] in C_PATTERNS {
      var j :| 0 <= j < 11 && CTable()[j].pattern[0] == s[i];
    }
  }

  lemma XmlPatterns(s: Text)
    ensures (forall j :: 0 <= j < 4 ==> XmlTable()[j].pattern[0] !in s)
            <==> forall i :: 0 <= i < |s| ==> s[i] !in {38, 39, 60, 62}
  {
    XmlTableCodes();
    var t := XmlTable();
    assert t[0].pattern[0] == 38 && t[1].pattern[0] == 60 && t[2].pattern[0] == 62 && t[3].pattern[0] == 39;
  }

  // ----- Hexadecimal escapes -----

  predicate Printable(c: nat) {
    0x20 <= c <= 0x7e
  }

  function Pow16(digits: nat): (p: nat)
    ensures p > 0
  {
    if digits == 0 then 1 else 16 * Pow16(digits - 1)
  }

  function HexDigit(v: nat): nat
    requires v < 16
  {
    if v < 10 then '0' as nat + v else 'A' as nat + (v - 10)
  }

  function HexDigits(digits: nat, c: nat): (t: Text)
    ensures |t| == digits
  {
    if digits == 0 then [] else HexDigits(digits - 1, c / 16) + [HexDigit(c % 16)]
  }

  function HexEscape(digits: nat, c: nat): (t: Text)
    ensures |t| == digits + 2
  {
    [BACKSLASH, 'x' as nat] + HexDigits(digits, c)
  }

  lemma DivDiv(c: nat, p: nat)
    requires p > 0
    ensures c / 16 / p == c / (16 * p)
  {
    var q := c / (16 * p);
    var r := c % (16 * p);
    assert c == q * (16 * p) + r;
    assert q * (16 * p) == 16 * (q * p);
    assert c / 16 == q * p + r / 16;
    assert 0 <= r / 16 < p;
    Quotient(c / 16, p, q, r / 16);
  }

  lemma Quotient(x: nat, p: nat, q: nat, r: nat)
    requires x == q * p + r && r < p
    ensures x / p == q
  {
    var d := q - x / p;
    assert x == x / p * p + x % p;
    assert d * p == x % p - r;
  }

  // An escape is a backslash, an x, and the upper-case hexadecimal digits of the value, the highest first.
  lemma HexEscapeAt(digits: nat, c: nat, k: nat)
    requires k < digits
    ensures HexEscape(digits, c)[..2] == Codes("\\x")
    ensures HexEscape(digits, c)[2 + k] == "0123456789ABCDEF"[c / Pow16(digits - 1 - k) % 16] as nat
  {
    HexDigitsAt(digits, c, k);
  }

  lemma {:induction false} HexDigitsAt(digits: nat, c: nat, k: nat)
    requires k < digits
    ensures HexDigits(digits, c)[k] == "0123456789ABCDEF"[c / Pow16(digits - 1 - k) % 16] as nat
  {
    if k == digits - 1 {
      assert Pow16(0) == 1;
    } else {
      HexDigitsAt(digits - 1, c / 16, k);
      DivDiv(c, Pow16(digits - 2 - k));
    }
  }

  lemma {:induction false} HexDigitsPrintable(digits: nat, c: nat)
    ensures AllPrintable(HexDigits(digits, c))
  {
    if digits == 0 {
    } else {
      HexDigitsPrintable(digits - 1, c / 16);
    }
  }

  lemma HexEscapePrintable(digits: nat, c: nat)
    ensures AllPrintable(HexEscape(digits, c))
  {
    HexDigitsPrintable(digits, c);
  }

  function HexCode(digits: nat, c: nat): Text {
    if Printable(c) then [c] else HexEscape(digits, c)
  }

  // The map that `c_ascii_dec` promises: every character outside 0x20..0x7e becomes its escape.
  function HexPass(digits: nat, s: Text): Text {
    if s == [] then [] else HexCode(digits, s[0]) + HexPass(digits, s[1..])
  }

  lemma Associate(a: Text, b: Text, c: Text)
    ensures a + (b + c) == a + b + c
  {
  }

  lemma {:induction false} HexPassConcat(digits: nat, a: Text, b: Text)
    ensures HexPass(digits, a + b) == HexPass(digits, a) + HexPass(digits, b)
  {
    if a == [] {
      assert a + b == b;
    } else {
      HexPassConcat(digits, a[1..], b);
      assert (a + b)[1..] == a[1..] + b;
      Associate(HexCode(digits, a[0]), HexPass(digits, a[1..]), HexPass(digits, b));
    }
  }

  // A code unit is unprintable only within the range the digits can tell apart.
  predicate InRange(digits: nat, s: Text) {
    forall i :: 0 <= i < |s| ==> Printable(s[i]) || s[i] < Pow16(digits)
  }

  predicate PrintableUpto(s: Text, n: nat)
    requires n <= |s|
  {
    forall i :: 0 <= i < n ==> Printable(s[i])
  }

  predicate AllPrintable(s: Text) {
    forall i :: 0 <= i < |s| ==> Printable(s[i])
  }

  lemma {:induction false} HexPassPrintable(digits: nat, s: Text)
    requires AllPrintable(s)
    ensures HexPass(digits, s) == s
  {
    if s == [] {
    } else {
      HexPassPrintable(digits, s[1..]);
    }
  }

  function Unprintables(s: Text): nat {
    if s == [] then 0 else (if Printable(s[0]) then 0 else 1) + Unprintables(s[1..])
  }

  lemma {:induction false} UnprintablesConcat(a: Text, b: Text)
    ensures Unprintables(a + b) == Unprintables(a) + Unprintables(b)
  {
    if a == [] {
      assert a + b == b;
    } else {
      UnprintablesConcat(a[1..], b);
      assert (a + b)[1..] == a[1..] + b;
    }
  }

  lemma {:induction false} UnprintablesNone(s: Text)
    requires AllPrintable(s)
    ensures Unprintables(s) == 0
  {
    if s == [] {
    } else {
      UnprintablesNone(s[1..]);
    }
  }

  // The text after the character at `pos` is replaced by its escape.
  function Escaped(digits: nat, s: Text, pos: nat): Text
    requires pos < |s|
  {
    s[..pos] + HexEscape(digits, s[pos]) + s[pos + 1..]
  }

  // Replacing one unprintable character by its escape keeps the mapped text and leaves one less.
  lemma EscapeOne(digits: nat, s: Text, pos: nat)
    requires pos < |s| && !Printable(s[pos])
    ensures var r := Escaped(digits, s, pos);
      HexPass(digits, r) == HexPass(digits, s) && Unprintables(r) == Unprintables(s) - 1
  {
    var a, e, b := s[..pos], HexEscape(digits, s[pos]), s[pos + 1..];
    assert s == a + ([s[pos]] + b) && a + e + b == a + (e + b);
    HexPassConcat(digits, a, [s[pos]] + b);
    HexPassConcat(digits, a, e + b);
    HexPassConcat(digits, e, b);
    HexEscapePrintable(digits, s[pos]);
    HexPassPrintable(digits, e);
    UnprintablesConcat(a, [s[pos]] + b);
    UnprintablesConcat(a, e + b);
    UnprintablesConcat(e, b);
    UnprintablesNone(e);
    assert ([s[pos]] + b)[1..] == b;
  }

  // `buf` has room for `(bits + 3) / 4 + 3` characters, where `bits` counts the value
  // bits of the character type; for signed and unsigned types of `size` bytes that is the escape of
  // `2 * size` digits and its terminator, exactly.
  lemma EscapeFitsBuffer(size: nat, bits: nat)
    requires size > 0 && (bits == 8 * size || bits == 8 * size - 1)
    ensures (bits + 3) / 4 + 3 == |HexEscape(2 * size, 0)| + 1
  {
  }

  // snprintf with format "\\x%0.2X" (or four or eight digits): the escape and a terminator.
  method PrintEscaped(buf: array<nat>, digits: nat, c: nat) returns (n: nat)
    requires buf.Length >= digits + 3 && c < Pow16(digits)
    modifies buf
    ensures n == digits + 2 && buf[..n] == HexEscape(digits, c) && buf[n] == 0
  {
    n := digits + 2;
    buf[0], buf[1], buf[n] := BACKSLASH, 'x' as nat, 0;
    var i, v := digits, c;
    while i > 0
      invariant 0 <= i <= digits
      invariant buf[0] == BACKSLASH && buf[1] == 'x' as nat && buf[n] == 0
      invariant HexDigits(i, v) + buf[2 + i..n] == HexDigits(digits, c)
    {
      ghost var higher, done := HexDigits(i - 1, v / 16), buf[2 + i..n];
      var digit := HexDigit(v % 16);
      buf[1 + i] := digit;
      assert buf[2 + i..n] == done && buf[1 + i..n] == [digit] + done;
      assert higher + ([digit] + done) == (higher + [digit]) + done;
      i, v := i - 1, v / 16;
    }
    assert buf[..n] == [BACKSLASH, 'x' as nat] + buf[2..n];
  }

  // The loop of `fmt_c_ascii_decorator`. After each replacement the cursor restarts right behind
  // offset `n`, which may lie before or behind the place of the replacement.
  method EscapeUnprintable(formatted: Text, digits: nat) returns (storage: Text)
    requires InRange(digits, formatted)
    ensures storage == HexPass(digits, formatted)
    ensures forall i :: 0 <= i < |storage| ==> 0x20 <= storage[i] <= 0x7e
    ensures storage == formatted <==> forall i :: 0 <= i < |formatted| ==> 0x20 <= formatted[i] <= 0x7e
  {
    storage := formatted;
    var it := 0;
    while it != |storage|
      invariant it <= |storage| && PrintableUpto(storage, it)
      invariant InRange(digits, storage)
      invariant HexPass(digits, storage) == HexPass(digits, formatted)
      decreases Unprintables(storage), |storage| - it
    {
      var c := storage[it];
      ghost var before, pos := storage, it;
      if c < 0x20 || c > 0x7e {
        var buf := new nat[digits + 3];
        var n := PrintEscaped(buf, digits, c);
        var escape := buf[..n];
        storage := storage[..it] + escape + storage[it + 1..];
        it := n - 1;
        EscapeOne(digits, before, pos);
        RestartIsPrintable(digits, before, pos);
      }
      it := it + 1;
    }
    HexPassPrintable(digits, storage);
    HexPassIsPrintable(digits, formatted);
  }

  // Whether the replaced character stood before or behind offset n, everything up to there is printable.
  lemma RestartIsPrintable(digits: nat, s: Text, pos: nat)
    requires pos < |s| && PrintableUpto(s, pos) && InRange(digits, s)
    ensures var r := Escaped(digits, s, pos);
      digits + 2 <= |r| && PrintableUpto(r, digits + 2) && InRange(digits, r)
  {
    var e := HexEscape(digits, s[pos]);
    var r := Escaped(digits, s, pos);
    HexEscapePrintable(digits, s[pos]);
    forall i | 0 <= i < |r| ensures Printable(r[i]) || r[i] < Pow16(digits) {
      if pos <= i < pos + |e| {
        assert r[i] == e[i - pos];
      } else {
        assert r[i] == s[if i < pos then i else i - |e| + 1];
      }
    }
    forall i | 0 <= i < digits + 2 ensures Printable(r[i]) {
      if i < pos {
        assert r[i] == s[i];
      } else {
        assert r[i] == e[i - pos];
      }
    }
  }

  // ----- Decoders -----

  function HexValueOf(c: nat): Option<nat> {
    if '0' as nat <= c <= '9' as nat then Some(c - '0' as nat)
    else if 'A' as nat <= c <= 'F' as nat then Some(c - 'A' as nat + 10)
    else None
  }

  // The value of a run of hexadecimal digits.
  function HexValue(t: Text): Option<nat> {
    if t == [] then Some(0)
    else
      var high, low := HexValue(t[..|t| - 1]), HexValueOf(t[|t| - 1]);
      if high.Some? && low.Some? then Some(16 * high.value + low.value) else None
  }

  lemma {:induction false} HexRoundTrip(digits: nat, c: nat)
    requires c < Pow16(digits)
    ensures HexValue(HexDigits(digits, c)) == Some(c)
  {
    if digits == 0 {
    } else {
      HexRoundTrip(digits - 1, c / 16);
      assert HexDigits(digits, c)[..digits - 1] == HexDigits(digits - 1, c / 16);
    }
  }

  function SimpleEscape(letter: nat): Option<nat> {
    if letter == 92 || letter == 39 || letter == 34 || letter == 63 then Some(letter)
    else if letter == 'a' as nat then Some(7)
    else if letter == 'b' as nat then Some(8)
    else if letter == 'f' as nat then Some(12)
    else if letter == 'n' as nat then Some(10)
    else if letter == 'r' as nat then Some(13)
    else if letter == 't' as nat then Some(9)
    else if letter == 'v' as nat then Some(11)
    else None
  }

  function Prepend(c: nat, rest: Option<Text>): Option<Text> {
    if rest.Some? then Some([c] + rest.value) else None
  }

  // Reads simple escapes, and hexadecimal escapes of exactly `digits` digits.
  function DecodeC(digits: nat, t: Text): Option<Text>
    decreases |t|
  {
    if t == [] then Some([])
    else if t[0] != BACKSLASH then Prepend(t[0], DecodeC(digits, t[1..]))
    else if |t| < 2 then None
    else if t[1] == 'x' as nat then
      if |t| < digits + 2 || HexValue(t[2..digits + 2]).None? then None
      else Prepend(HexValue(t[2..digits + 2]).value, DecodeC(digits, t[digits + 2..]))
    else if SimpleEscape(t[1]).None? then None
    else Prepend(SimpleEscape(t[1]).value, DecodeC(digits, t[2..]))
  }

  predicate StartsWith(t: Text, prefix: Text) {
    |prefix| <= |t| && t[..|prefix|] == prefix
  }

  // The character of the predefined entity `t` starts with, and the entity's length.
  function Entity(t: Text): Option<(nat, nat)> {
    if StartsWith(t, Codes("&amp;")) then Some((38, 5))
    else if StartsWith(t, Codes("&lt;")) then Some((60, 4))
    else if StartsWith(t, Codes("&gt;")) then Some((62, 4))
    else if StartsWith(t, Codes("&apos;")) then Some((39, 6))
    else if StartsWith(t, Codes("&quot;")) then Some((34, 6))
    else None
  }

  function DecodeXml(t: Text): Option<Text>
    decreases |t|
  {
    if t == [] then Some([])
    else if t[0] != AMPERSAND then Prepend(t[0], DecodeXml(t[1..]))
    else if Entity(t).None? then None
    else Prepend(Entity(t).value.0, DecodeXml(t[Entity(t).value.1..]))
  }

  function DecodeCsv(t: Text): Option<Text>
    decreases |t|
  {
    if t == [] then Some([])
    else if t[0] != QUOTE then Prepend(t[0], DecodeCsv(t[1..]))
    else if |t| < 2 || t[1] != QUOTE then None
    else Prepend(QUOTE, DecodeCsv(t[2..]))
  }

  // ----- Round trips -----

  // Each entry of the C table escapes its character by a letter that decodes to it.
  lemma CTableEntries(c: nat)
    ensures (Escape(CTable(), c) == [c] && c != BACKSLASH)
         || (|Escape(CTable(), c)| == 2 && Escape(CTable(), c)[0] == BACKSLASH
             && SimpleEscape(Escape(CTable(), c)[1]) == Some(c)
             && Printable(Escape(CTable(), c)[1]))
  {
    if i :| 0 <= i < 11 && C_PATTERNS[i] == c {
      CTableFacts();
      EscapeAt(CTable(), i);
      CLetters(i);
    } else {
      EscapeOther(CTable(), c);
      assert C_PATTERNS[0] == BACKSLASH;
    }
  }

  lemma CLetters(i: nat)
    requires i < 11
    ensures SimpleEscape(C_LETTERS[i]) == Some(C_PATTERNS[i]) && Printable(C_LETTERS[i])
  {
  }

  lemma {:induction false} EscapeAt(decorations: seq<Decoration>, i: nat)
    requires i < |decorations| && |decorations[i].pattern| == 1
    requires forall k :: 0 <= k < i ==> decorations[k].pattern != decorations[i].pattern
    ensures Escape(decorations, decorations[i].pattern[0]) == decorations[i].replacement
  {
    assert decorations[i].pattern == [decorations[i].pattern[0]];
    if i == 0 {
    } else {
      EscapeAt(decorations[1..], i - 1);
    }
  }

  // What `c_ascii_dec` makes of one character: the C escape, or the hexadecimal one.
  function AsciiEscape(digits: nat, c: nat): Text {
    HexPass(digits, Escape(CTable(), c))
  }

  lemma CStep(digits: nat, c: nat, rest: Text)
    ensures DecodeC(digits, Escape(CTable(), c) + rest) == Prepend(c, DecodeC(digits, rest))
  {
    CTableEntries(c);
    var e := Escape(CTable(), c);
    var t := e + rest;
    assert t[0] == e[0] && t[|e|..] == rest;
    if |e| == 2 {
      assert t[1] == e[1];
    }
  }

  lemma AsciiStep(digits: nat, c: nat, rest: Text)
    requires c < Pow16(digits)
    ensures DecodeC(digits, AsciiEscape(digits, c) + rest) == Prepend(c, DecodeC(digits, rest))
  {
    CTableEntries(c);
    var e := Escape(CTable(), c);
    if AllPrintable(e) {
      HexPassPrintable(digits, e);
      CStep(digits, c, rest);
    } else {
      assert e == [c] && !Printable(c);
      var h := HexEscape(digits, c);
      assert HexPass(digits, [c]) == h + HexPass(digits, [c][1..]) == h;
      HexStep(digits, c, rest);
    }
  }

  lemma HexStep(digits: nat, c: nat, rest: Text)
    requires c < Pow16(digits)
    ensures DecodeC(digits, HexEscape(digits, c) + rest) == Prepend(c, DecodeC(digits, rest))
  {
    var t := HexEscape(digits, c) + rest;
    assert t[0] == BACKSLASH && t[1] == 'x' as nat;
    assert t[2..digits + 2] == HexDigits(digits, c) && t[digits + 2..] == rest;
    HexRoundTrip(digits, c);
  }

  // `c_dec` loses nothing.
  lemma {:induction false} CRoundTrip(digits: nat, s: Text)
    ensures DecodeC(digits, OnePass(CTable(), s)) == Some(s)
  {
    if s == [] {
    } else {
      CRoundTrip(digits, s[1..]);
      CStep(digits, s[0], OnePass(CTable(), s[1..]));
      assert [s[0]] + s[1..] == s;
    }
  }

  // Neither does `c_ascii_dec`.
  lemma {:induction false} CAsciiRoundTrip(digits: nat, s: Text)
    requires forall i :: 0 <= i < |s| ==> s[i] < Pow16(digits)
    ensures DecodeC(digits, HexPass(digits, OnePass(CTable(), s))) == Some(s)
  {
    if s == [] {
    } else {
      CAsciiRoundTrip(digits, s[1..]);
      var e, tail := Escape(CTable(), s[0]), OnePass(CTable(), s[1..]);
      HexPassConcat(digits, e, tail);
      AsciiStep(digits, s[0], HexPass(digits, tail));
      assert HexPass(digits, OnePass(CTable(), s)) == AsciiEscape(digits, s[0]) + HexPass(digits, tail);
      assert [s[0]] + s[1..] == s;
    }
  }

  // Its output is printable ASCII throughout, and differs from the text exactly if that is not.
  lemma {:induction false} HexPassIsPrintable(digits: nat, s: Text)
    ensures forall i :: 0 <= i < |HexPass(digits, s)| ==> 0x20 <= HexPass(digits, s)[i] <= 0x7e
    ensures HexPass(digits, s) == s <==> forall i :: 0 <= i < |s| ==> 0x20 <= s[i] <= 0x7e
  {
    if s == [] {
    } else {
      HexPassIsPrintable(digits, s[1..]);
      HexEscapePrintable(digits, s[0]);
      if Printable(s[0]) {
        assert HexPass(digits, s)[1..] == HexPass(digits, s[1..]);
        assert forall i :: 0 < i < |s| ==> s[i] == s[1..][i - 1];
      } else {
        assert HexPass(digits, s) != s by {
          assert HexPass(digits, s)[0] == BACKSLASH;
        }
      }
    }
  }

  // Behind a backslash there is one of the characters that may follow it, and nothing else is left.
  ghost predicate CClean(t: Text) {
    forall i :: 0 <= i < |t| ==> CleanAt(t, i)
  }

  predicate CleanAt(t: Text, i: nat)
    requires i < |t|
  {
    !(7 <= t[i] <= 13) && (t[i] == 34 || t[i] == 39 || t[i] == 63 ==> i > 0 && t[i - 1] == 92)
  }

  lemma CCleanConcat(a: Text, b: Text)
    requires CClean(a) && CClean(b)
    ensures CClean(a + b)
  {
    var t := a + b;
    forall i | 0 <= i < |t| ensures CleanAt(t, i) {
      if i < |a| {
        assert CleanAt(a, i);
      } else {
        assert CleanAt(b, i - |a|);
      }
    }
  }

  // Escaped text holds no control characters of the table and no quotation or question mark of its own; in
  // XML no angle bracket or apostrophe.
  lemma {:induction false} EscapedIsClean(s: Text)
    ensures CClean(OnePass(CTable(), s))
    ensures forall i :: 0 <= i < |OnePass(XmlTable(), s)| ==> OnePass(XmlTable(), s)[i] !in {39, 60, 62}
  {
    if s == [] {
    } else {
      EscapedIsClean(s[1..]);
      CEscapeIsClean(s[0]);
      XmlEscapeIsClean(s[0]);
      CCleanConcat(Escape(CTable(), s[0]), OnePass(CTable(), s[1..]));
    }
  }

  lemma CEscapeIsClean(c: nat)
    ensures CClean(Escape(CTable(), c))
  {
    CTableEntries(c);
    if i :| 0 <= i < 11 && C_PATTERNS[i] == c {
      CTableFacts();
      EscapeAt(CTable(), i);
    } else {
      EscapeOther(CTable(), c);
      assert forall k :: 0 <= k < 11 ==> C_PATTERNS[k] != c;
      CharacterIsClean(c);
    }
  }

  lemma CharacterIsClean(c: nat)
    requires forall k :: 0 <= k < 11 ==> C_PATTERNS[k] != c
    ensures CClean([c])
  {
    assert C_PATTERNS[1] == 7 && C_PATTERNS[2] == 8 && C_PATTERNS[3] == 12 && C_PATTERNS[4] == 10;
    assert C_PATTERNS[5] == 13 && C_PATTERNS[6] == 9 && C_PATTERNS[7] == 11;
    assert C_PATTERNS[8] == 39 && C_PATTERNS[9] == 34 && C_PATTERNS[10] == 63;
  }

  lemma XmlEscapeIsClean(c: nat)
    ensures forall i :: 0 <= i < |Escape(XmlTable(), c)| ==> Escape(XmlTable(), c)[i] !in {39, 60, 62}
  {
    XmlTableCodes();
    if i :| 0 <= i < 4 && XmlTable()[i].pattern == [c] {
      EscapeAt(XmlTable(), i);
    } else {
      EscapeOther(XmlTable(), c);
      assert XmlTable()[1].pattern == [60] && XmlTable()[2].pattern == [62] && XmlTable()[3].pattern == [39];
    }
  }

  lemma XmlStep(c: nat, rest: Text)
    ensures DecodeXml(Escape(XmlTable(), c) + rest) == Prepend(c, DecodeXml(rest))
  {
    var e := Escape(XmlTable(), c);
    XmlTableCodes();
    if i :| 0 <= i < 4 && XmlTable()[i].pattern == [c] {
      EscapeAt(XmlTable(), i);
      var t := e + rest;
      assert t[..|e|] == e && t[|e|..] == rest;
      EntityAt(i, rest);
    } else {
      EscapeOther(XmlTable(), c);
      assert XmlTable()[0].pattern == [38];
      assert ([c] + rest)[1..] == rest;
    }
  }

  lemma EntityAt(i: nat, rest: Text)
    requires i < 4
    ensures var d := XmlTable()[i]; Entity(d.replacement + rest) == Some((d.pattern[0], |d.replacement|))
  {
    var e := XmlTable()[i].replacement;
    var t := e + rest;
    assert StartsWith(t, e);
    assert t[1] == e[1];
    assert |e| > 1 && (Codes("&amp;")[1] == 97 && Codes("&amp;")[2] == 109);
    assert Codes("&lt;")[1] == 108 && Codes("&gt;")[1] == 103 && Codes("&apos;")[1] == 97 && Codes("&apos;")[2] == 112;
    if StartsWith(t, Codes("&amp;")) {
      assert t[..5][1] == 97 && t[..5][2] == 109;
    } else if StartsWith(t, Codes("&lt;")) {
      assert t[..4][1] == 108;
    } else if StartsWith(t, Codes("&gt;")) {
      assert t[..4][1] == 103;
    }
  }

  lemma {:induction false} XmlRoundTrip(s: Text)
    ensures DecodeXml(OnePass(XmlTable(), s)) == Some(s)
  {
    if s == [] {
    } else {
      XmlRoundTrip(s[1..]);
      XmlStep(s[0], OnePass(XmlTable(), s[1..]));
      assert [s[0]] + s[1..] == s;
    }
  }

  lemma {:induction false} CsvRoundTrip(s: Text)
    ensures DecodeCsv(OnePass(CsvTable(), s)) == Some(s)
  {
    if s == [] {
    } else {
      CsvRoundTrip(s[1..]);
      var rest := OnePass(CsvTable(), s[1..]);
      assert [s[0]] + s[1..] == s;
      if s[0] == QUOTE {
        EscapeAt(CsvTable(), 0);
        assert ([QUOTE, QUOTE] + rest)[2..] == rest;
      } else {
        EscapeOther(CsvTable(), s[0]);
        assert ([s[0]] + rest)[1..] == rest;
      }
    }
  }

  // The decorators as they run, undone.
  lemma DecoratorsRoundTrip(digits: nat, s: Text)
    ensures DecodeC(digits, ReplaceEach(CTable(), s)) == Some(s)
    ensures DecodeXml(ReplaceEach(XmlTable(), s)) == Some(s)
    ensures DecodeCsv(ReplaceEach(CsvTable(), s)) == Some(s)
    ensures (forall i :: 0 <= i < |s| ==> s[i] < Pow16(digits)) ==>
              DecodeC(digits, HexPass(digits, ReplaceEach(CTable(), s))) == Some(s)
  {
    TablesAreOnePass(s);
    CRoundTrip(digits, s);
    XmlRoundTrip(s);
    CsvRoundTrip(s);
    if forall i :: 0 <= i < |s| ==> s[i] < Pow16(digits) {
      CAsciiRoundTrip(digits, s);
    }
  }
}
