/**
 JSON string literals over UTF-16 code units: the reader of section 7 of RFC 8259 and the writer of
 JSON.stringify, with the search for the closing quote that the scanners share.
 */
module JsonStrings {
  import opened Wrappers

  newtype Unit = x: int | 0 <= x < 0x1_0000

  type Text = seq<Unit>

  const QUOTE: Unit := 0x22
  const BACKSLASH: Unit := 0x5c
  const COLON: Unit := 0x3a
  const COMMA: Unit := 0x2c
  const LOWER_U: Unit := 0x75

  predicate High(u: Unit)
  {
    0xd800 <= u < 0xdc00
  }

  predicate Low(u: Unit)
  {
    0xdc00 <= u < 0xe000
  }

  function HexDigit(n: Unit): Unit
    requires n < 16
  {
    if n < 10 then 0x30 + n else 0x61 + (n - 10)
  }

  function HexValue(u: Unit): Option<Unit>
  {
    if 0x30 <= u <= 0x39 then Some(u - 0x30)
    else if 0x61 <= u <= 0x66 then Some(u - 0x61 + 10)
    else if 0x41 <= u <= 0x46 then Some(u - 0x41 + 10)
    else None
  }

  function UnicodeEscape(u: Unit): Text
  {
    [BACKSLASH, LOWER_U, HexDigit(u / 4096), HexDigit(u / 256 % 16), HexDigit(u / 16 % 16), HexDigit(u % 16)]
  }

  function ReadHex(a: Unit, b: Unit, c: Unit, d: Unit): Option<Unit>
  {
    var w, x, y, z := HexValue(a), HexValue(b), HexValue(c), HexValue(d);
    if w.None? || x.None? || y.None? || z.None? then None
    else Some(w.value * 4096 + x.value * 256 + y.value * 16 + z.value)
  }

  function ReadSimple(u: Unit): Option<Unit>
  {
    if u == QUOTE || u == BACKSLASH || u == 0x2f then Some(u)
    else if u == 0x62 then Some(8)
    else if u == 0x66 then Some(12)
    else if u == 0x6e then Some(10)
    else if u == 0x72 then Some(13)
    else if u == 0x74 then Some(9)
    else None
  }

  /** How many units the first character of a string body takes, and what it stands for. */
  function ReadOne(body: Text): Option<(nat, Unit)>
    requires body != []
    ensures ReadOne(body).Some? ==> 0 < ReadOne(body).value.0 <= |body|
  {
    if body[0] != BACKSLASH then
      if body[0] < 0x20 || body[0] == QUOTE then None else Some((1, body[0]))
    else if |body| < 2 then None
    else if body[1] != LOWER_U then
      var simple := ReadSimple(body[1]);
      if simple.None? then None else Some((2, simple.value))
    else if |body| < 6 then None
    else
      var u := ReadHex(body[2], body[3], body[4], body[5]);
      if u.None? then None else Some((6, u.value))
  }

  /** The text that a string body stands for, if it is one. */
  function Decode(body: Text): Option<Text>
  {
    if body == [] then Some([])
    else
      var one := ReadOne(body);
      if one.None? then None
      else
        var rest := Decode(body[one.value.0..]);
        if rest.None? then None else Some([one.value.1] + rest.value)
  }

  /** JSON.stringify for one unit that is not half of a surrogate pair. */
  function WriteOne(u: Unit): Text
  {
    if u == QUOTE || u == BACKSLASH then [BACKSLASH, u]
    else if u == 8 then [BACKSLASH, 0x62]
    else if u == 12 then [BACKSLASH, 0x66]
    else if u == 10 then [BACKSLASH, 0x6e]
    else if u == 13 then [BACKSLASH, 0x72]
    else if u == 9 then [BACKSLASH, 0x74]
    else if u < 0x20 || High(u) || Low(u) then UnicodeEscape(u)
    else [u]
  }

  function Escape(text: Text): Text
  {
    if text == [] then []
    else if |text| >= 2 && High(text[0]) && Low(text[1]) then [text[0], text[1]] + Escape(text[2..])
    else WriteOne(text[0]) + Escape(text[1..])
  }

  /** Offset of the first unescaped quote. */
  function Closing(text: Text, escaped: bool): Option<nat>
    ensures Closing(text, escaped).Some? ==> Closing(text, escaped).value < |text|
  {
    if text == [] then None
    else if !escaped && text[0] == QUOTE then Some(0)
    else
      var rest := Closing(text[1..], !escaped && text[0] == BACKSLASH);
      if rest.None? then None else Some(rest.value + 1)
  }

  lemma HexRoundTrip(n: Unit)
    requires n < 16
    ensures HexValue(HexDigit(n)) == Some(n)
  {
  }

  lemma FourDigits(u: Unit)
    ensures u / 4096 < 16
    ensures u / 4096 * 4096 + u / 256 % 16 * 256 + u / 16 % 16 * 16 + u % 16 == u
  {
    var n := u as int;
    assert n / 16 / 16 == n / 256 && n / 256 / 16 == n / 4096;
  }

  lemma ReadAfterUnicodeEscape(u: Unit, rest: Text)
    ensures ReadOne(UnicodeEscape(u) + rest) == Some((6, u))
  {
    FourDigits(u);
    HexRoundTrip(u / 4096);
    HexRoundTrip(u / 256 % 16);
    HexRoundTrip(u / 16 % 16);
    HexRoundTrip(u % 16);
    var e := UnicodeEscape(u);
    assert ReadHex(e[2], e[3], e[4], e[5]) == Some(u);
    var text := e + rest;
    assert text[0] == BACKSLASH && text[1] == LOWER_U;
    assert text[2] == e[2] && text[3] == e[3] && text[4] == e[4] && text[5] == e[5];
  }

  lemma ReadAfterWrite(u: Unit, rest: Text)
    ensures WriteOne(u) != [] && ReadOne(WriteOne(u) + rest) == Some((|WriteOne(u)|, u))
    ensures (WriteOne(u) + rest)[|WriteOne(u)|..] == rest
  {
    ReadAfterUnicodeEscape(u, rest);
  }

  lemma DecodeHead(chunk: Text, u: Unit, rest: Text)
    requires chunk != [] && ReadOne(chunk + rest) == Some((|chunk|, u)) && Decode(rest).Some?
    ensures Decode(chunk + rest) == Some([u] + Decode(rest).value)
  {
    assert (chunk + rest)[|chunk|..] == rest;
  }

  lemma ReadsOneUnit(body: Text, u: Unit)
    requires Decode(body) == Some([u])
    ensures body != [] && ReadOne(body).Some? && ReadOne(body).value.1 == u
  {
    var one := ReadOne(body).value;
    assert ([one.1] + Decode(body[one.0..]).value)[0] == one.1;
  }

  /** The units that a backslash and one more unit can stand for. */
  predicate Simple(u: Unit)
  {
    u == QUOTE || u == BACKSLASH || u == 0x2f || u == 8 || u == 12 || u == 10 || u == 13 || u == 9
  }

  lemma ReadShort(body: Text)
    requires body != [] && ReadOne(body).Some?
    ensures var (n, u) := ReadOne(body).value;
            && n in {1, 2, 6}
            && (n == 1 ==> u >= 0x20 && u != QUOTE && u != BACKSLASH)
            && (n == 2 ==> Simple(u))
  {
  }

  lemma WrittenLength(u: Unit)
    requires !High(u) && !Low(u)
    ensures |WriteOne(u)| ==
            if u >= 0x20 && u != QUOTE && u != BACKSLASH then 1 else if Simple(u) then 2 else 6
  {
  }

  /** No literal of a unit is shorter than the one written, unless the unit is half of a surrogate pair. */
  lemma WrittenIsShortest(u: Unit, body: Text)
    requires Decode(body) == Some([u]) && !High(u) && !Low(u)
    ensures |WriteOne(u)| <= |body|
  {
    ReadsOneUnit(body, u);
    ReadShort(body);
    WrittenLength(u);
  }

  /** Such a half is written as an escape, and hexadecimal digits are small letters. */
  lemma WrittenEscapes(u: Unit)
    ensures High(u) || Low(u) ==> |WriteOne(u)| == 6
    ensures forall i :: 2 <= i < |WriteOne(u)| ==> 0x30 <= WriteOne(u)[i] <= 0x39 || 0x61 <= WriteOne(u)[i] <= 0x66
  {
    if |WriteOne(u)| == 6 {
      var e := UnicodeEscape(u);
      assert WriteOne(u) == e;
    }
  }

  /** Every text, lone surrogates included, is read back from its literal. */
  lemma {:induction false} DecodeAfterEscape(text: Text)
    ensures Decode(Escape(text)) == Some(text)
  {
    if text == [] {
    } else if |text| >= 2 && High(text[0]) && Low(text[1]) {
      var rest := Escape(text[2..]);
      DecodeAfterEscape(text[2..]);
      DecodeHead([text[1]], text[1], rest);
      DecodeHead([text[0]], text[0], [text[1]] + rest);
      assert [text[0], text[1]] + rest == [text[0]] + ([text[1]] + rest);
      assert [text[0]] + ([text[1]] + text[2..]) == text;
    } else {
      var rest := Escape(text[1..]);
      DecodeAfterEscape(text[1..]);
      ReadAfterWrite(text[0], rest);
      DecodeHead(WriteOne(text[0]), text[0], rest);
      assert [text[0]] + text[1..] == text;
    }
  }

  function Shifted(offset: Option<nat>, n: nat): Option<nat>
  {
    if offset.None? then None else Some(offset.value + n)
  }

  lemma ClosingSkipsPlain(text: Text)
    requires text != [] && text[0] != QUOTE && text[0] != BACKSLASH
    ensures Closing(text, false) == Shifted(Closing(text[1..], false), 1)
  {
  }

  lemma ClosingSkipsEscape(text: Text)
    requires |text| >= 2 && text[0] == BACKSLASH
    ensures Closing(text, false) == Shifted(Closing(text[2..], false), 2)
  {
    assert text[1..][1..] == text[2..];
  }

  lemma ClosingSkips(chunk: Text, rest: Text)
    requires |chunk| == 1 ==> chunk[0] != QUOTE && chunk[0] != BACKSLASH
    requires |chunk| == 2 ==> chunk[0] == BACKSLASH
    requires |chunk| == 6 ==> chunk[0] == BACKSLASH && forall i :: 2 <= i < 6 ==> HexValue(chunk[i]).Some?
    requires |chunk| in {1, 2, 6}
    ensures Closing(chunk + rest, false) == Shifted(Closing(rest, false), |chunk|)
  {
    var t := chunk + rest;
    assert t[|chunk|..] == rest;
    if |chunk| == 1 {
      ClosingSkipsPlain(t);
    } else {
      ClosingSkipsEscape(t);
      if |chunk| == 6 {
        assert forall i :: 2 <= i < 6 ==> t[i] == chunk[i];
        ClosingSkipsPlain(t[2..]);
        ClosingSkipsPlain(t[3..]);
        ClosingSkipsPlain(t[4..]);
        ClosingSkipsPlain(t[5..]);
        assert t[2..][1..] == t[3..] && t[3..][1..] == t[4..] && t[4..][1..] == t[5..] && t[5..][1..] == t[6..];
      }
    }
  }

  /** The search stops exactly behind a well-formed body. */
  lemma {:induction false} ClosingOfBody(body: Text, rest: Text)
    requires Decode(body).Some?
    ensures Closing(body + [QUOTE] + rest, false) == Some(|body|)
    decreases |body|
  {
    if body == [] {
      assert body + [QUOTE] + rest == [QUOTE] + rest;
    } else {
      var n := ReadOne(body).value.0;
      ClosingOfBody(body[n..], rest);
      ClosingSkips(body[..n], body[n..] + [QUOTE] + rest);
      assert body[..n] + (body[n..] + [QUOTE] + rest) == body + [QUOTE] + rest;
    }
  }

  function Quoted(text: Text): Text
  {
    [QUOTE] + Escape(text) + [QUOTE]
  }

  /** Literals are told apart even when more text follows. */
  lemma QuotedUnique(a: Text, b: Text, x: Text, y: Text)
    requires Quoted(a) + x == Quoted(b) + y
    ensures a == b && x == y
  {
    DecodeAfterEscape(a);
    DecodeAfterEscape(b);
    ClosingOfBody(Escape(a), x);
    ClosingOfBody(Escape(b), y);
    AfterQuote(Escape(a), x);
    AfterQuote(Escape(b), y);
    assert |Escape(a)| == |Escape(b)|;
    assert Escape(a) == Escape(b);
  }

  lemma AfterQuote(body: Text, rest: Text)
    ensures var all := [QUOTE] + body + [QUOTE] + rest;
            all[1..] == body + [QUOTE] + rest
            && all[1..][..|body|] == body && all[1..][|body| + 1..] == rest
  {
  }
}
