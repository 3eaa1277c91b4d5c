/** `JSON.stringify` of a string, and a reader for such texts (section 7 of RFC 8259). */
module JsonString {
  import opened Wrappers
  import opened Utf16

  function HexDigit(d: int): Unit
    requires 0 <= d < 16
  {
    if d < 10 then 0x30 + d else 0x57 + d
  }

  function Hex4(u: Unit): Text {
    [HexDigit(u / 16 / 16 / 16), HexDigit(u / 16 / 16 % 16), HexDigit(u / 16 % 16), HexDigit(u % 16)]
  }

  // The letter of a two-character escape, for the units that have one.
  function Letter(u: Unit): Option<Unit> {
    if u == QUOTE || u == BACKSLASH then Some(u)
    else if u == 0x08 then Some(0x62)
    else if u == 0x09 then Some(0x74)
    else if u == 0x0A then Some(0x6E)
    else if u == 0x0C then Some(0x66)
    else if u == 0x0D then Some(0x72)
    else None
  }

  // A lone surrogate and every remaining control character become a six-character escape.
  function EscapeUnit(u: Unit): Text {
    if Letter(u).Some? then [BACKSLASH, Letter(u).value]
    else if u < 0x20 || IsHigh(u) || IsLow(u) then [BACKSLASH, 0x75] + Hex4(u)
    else [u]
  }

  function Escape(s: Text): Text {
    if s == [] then []
    else if IsHigh(s[0]) && |s| > 1 && IsLow(s[1]) then [s[0], s[1]] + Escape(s[2..])
    else EscapeUnit(s[0]) + Escape(s[1..])
  }

  function Quote(s: Text): Text {
    [QUOTE] + Escape(s) + [QUOTE]
  }

  // ---- Reading ---------------------------------------------------------------------------

  datatype Read = Read(content: Text, rest: Text)

  function HexValue(u: Unit): Option<int> {
    if 0x30 <= u <= 0x39 then Some(u - 0x30)
    else if 0x61 <= u <= 0x66 then Some(u - 0x57)
    else if 0x41 <= u <= 0x46 then Some(u - 0x37)
    else None
  }

  function UnletterUnit(letter: Unit): Option<Unit> {
    if letter == QUOTE || letter == BACKSLASH || letter == 0x2F then Some(letter)
    else if letter == 0x62 then Some(0x08)
    else if letter == 0x74 then Some(0x09)
    else if letter == 0x6E then Some(0x0A)
    else if letter == 0x66 then Some(0x0C)
    else if letter == 0x72 then Some(0x0D)
    else None
  }

  // One character of the body of a string, and the number of units it took.
  function ReadUnit(t: Text): Option<(Unit, nat)>
    ensures ReadUnit(t).Some? ==> 1 <= ReadUnit(t).value.1 <= |t|
  {
    if t == [] || t[0] == QUOTE || t[0] < 0x20 then None
    else if t[0] != BACKSLASH then Some((t[0], 1))
    else if |t| < 2 then None
    else if t[1] == 0x75 then
      if |t| < 6 then None
      else
        var a, b, c, d := HexValue(t[2]), HexValue(t[3]), HexValue(t[4]), HexValue(t[5]);
        if a.None? || b.None? || c.None? || d.None? then None
        else
          var v := a.value * 4096 + b.value * 256 + c.value * 16 + d.value;
          if 0 <= v < 0x1_0000 then Some((v, 6)) else None
    else
      var u := UnletterUnit(t[1]);
      if u.None? then None else Some((u.value, 2))
  }

  // Reads up to and including the closing quote.
  function ReadBody(t: Text): Option<Read>
    decreases |t|
  {
    if t != [] && t[0] == QUOTE then Some(Read([], t[1..]))
    else
      var u := ReadUnit(t);
      if u.None? then None
      else
        var tail := ReadBody(t[u.value.1..]);
        if tail.None? then None else Some(Read([u.value.0] + tail.value.content, tail.value.rest))
  }

  lemma HexRoundTrip(d: int)
    requires 0 <= d < 16
    ensures HexValue(HexDigit(d)) == Some(d)
  {
  }

  lemma Hex4RoundTrip(u: Unit)
    ensures
      var h := Hex4(u);
      && |h| == 4 && (forall i :: 0 <= i < 4 ==> HexValue(h[i]).Some?)
      && HexValue(h[0]).value * 4096 + HexValue(h[1]).value * 256
         + HexValue(h[2]).value * 16 + HexValue(h[3]).value == u
  {
    hide HexValue, HexDigit;
    HexRoundTrip(u / 16 / 16 / 16);
    HexRoundTrip(u / 16 / 16 % 16);
    HexRoundTrip(u / 16 % 16);
    HexRoundTrip(u % 16);
  }

  lemma ReadEscapedUnit(u: Unit, rest: Text)
    ensures ReadUnit(EscapeUnit(u) + rest) == Some((u, |EscapeUnit(u)|))
    ensures EscapeUnit(u) != [] && EscapeUnit(u)[0] != QUOTE
  {
    hide HexValue, Hex4;
    var t := EscapeUnit(u) + rest;
    if Letter(u).None? && (u < 0x20 || IsHigh(u) || IsLow(u)) {
      var h := Hex4(u);
      Hex4RoundTrip(u);
      assert t[2] == h[0] && t[3] == h[1] && t[4] == h[2] && t[5] == h[3];
    }
  }

  lemma ReadLiteral(u: Unit, rest: Text)
    requires IsHigh(u) || IsLow(u)
    ensures ReadUnit([u] + rest) == Some((u, 1))
  {
  }

  // Reading one more character in front of a body that reads back.
  lemma ReadBodyStep(written: Text, u: Unit, body: Text, s: Text, rest: Text)
    requires written != [] && written[0] != QUOTE
    requires ReadUnit(written + (body + [QUOTE] + rest)) == Some((u, |written|))
    requires ReadBody(body + [QUOTE] + rest) == Some(Read(s, rest))
    ensures ReadBody((written + body) + [QUOTE] + rest) == Some(Read([u] + s, rest))
  {
    hide ReadUnit;
    var t := written + (body + [QUOTE] + rest);
    assert t[|written|..] == body + [QUOTE] + rest;
    assert (written + body) + [QUOTE] + rest == t;
  }

  lemma ReadNothing(rest: Text)
    ensures ReadBody([] + [QUOTE] + rest) == Some(Read([], rest))
  {
    assert [] + [QUOTE] + rest == [QUOTE] + rest;
    assert ([QUOTE] + rest)[1..] == rest;
  }

  /** Reading a quoted text back gives the string it came from and stops right behind it. */
  lemma {:induction false} ReadEscaped(s: Text, rest: Text)
    ensures ReadBody(Escape(s) + [QUOTE] + rest) == Some(Read(s, rest))
    decreases |s|
  {
    hide ReadUnit, EscapeUnit, ReadBody;
    if s == [] {
      ReadNothing(rest);
    } else if IsHigh(s[0]) && |s| > 1 && IsLow(s[1]) {
      var body := Escape(s[2..]);
      ReadEscaped(s[2..], rest);
      ReadLiteral(s[1], body + [QUOTE] + rest);
      ReadBodyStep([s[1]], s[1], body, s[2..], rest);
      ReadLiteral(s[0], ([s[1]] + body) + [QUOTE] + rest);
      ReadBodyStep([s[0]], s[0], [s[1]] + body, [s[1]] + s[2..], rest);
      assert [s[0], s[1]] + body == [s[0]] + ([s[1]] + body);
      assert s == [s[0]] + ([s[1]] + s[2..]);
    } else {
      var body := Escape(s[1..]);
      ReadEscaped(s[1..], rest);
      ReadEscapedUnit(s[0], body + [QUOTE] + rest);
      ReadBodyStep(EscapeUnit(s[0]), s[0], body, s[1..], rest);
      assert s == [s[0]] + s[1..];
    }
  }

  /** Two quoted strings that open the same text are the same string, followed by the same text. */
  lemma QuoteIsPrefixFree(a: Text, b: Text, restA: Text, restB: Text)
    requires Quote(a) + restA == Quote(b) + restB
    ensures a == b && restA == restB
  {
    hide Escape, ReadBody;
    ReadEscaped(a, restA);
    ReadEscaped(b, restB);
    assert (Quote(a) + restA)[1..] == Escape(a) + [QUOTE] + restA;
    assert (Quote(b) + restB)[1..] == Escape(b) + [QUOTE] + restB;
  }
}
