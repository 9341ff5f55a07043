/**
 The request body of the tenant-token call. The secret never becomes a string: its JSON literal is
 written byte by byte into a buffer whose length is computed beforehand.
 */
module SecretEscaper {
  import opened Wrappers
  import opened JsonStrings
  import opened JsonScanners

  predicate NeedsEscape(u: Unit)
  {
    u == QUOTE || u == BACKSLASH
  }

  function EscapedByte(byte: Unit): Text
  {
    if NeedsEscape(byte) then [BACKSLASH, byte] else [byte]
  }

  function EscapedSecret(secret: Text): Text
  {
    if secret == [] then []
    else
      var last := secret[|secret| - 1];
      EscapedSecret(secret[..|secret| - 1]) + EscapedByte(last)
  }

  method EscapedSecretLength(secret: array<Unit>) returns (length: nat)
    ensures length == |EscapedSecret(secret[..])|
  {
    length := secret.Length;
    var index := 0;
    while index < secret.Length
      invariant index <= secret.Length
      invariant length == secret.Length - index + |EscapedSecret(secret[..index])|
    {
      assert secret[..index + 1][..index] == secret[..index];
      if NeedsEscape(secret[index]) {
        length := length + 1;
      }
      index := index + 1;
    }
    assert secret[..index] == secret[..];
  }

  lemma {:induction false} EscapedPrefix(secret: Text, n: nat)
    requires n <= |secret|
    ensures |EscapedSecret(secret[..n])| + (|secret| - n) <= |EscapedSecret(secret)|
    decreases |secret| - n
  {
    if n == |secret| {
      assert secret[..n] == secret;
    } else {
      EscapedPrefix(secret, n + 1);
      assert secret[..n + 1][..n] == secret[..n];
    }
  }

  /** What one turn of the loop adds to the buffer, and that the rest still fits. */
  lemma EscapedStep(prefix: Text, secret: Text, n: nat, before: Text)
    requires n < |secret| && before == prefix + EscapedSecret(secret[..n])
    ensures before + EscapedByte(secret[n]) == prefix + EscapedSecret(secret[..n + 1])
    ensures |EscapedSecret(secret[..n + 1])| + (|secret| - (n + 1)) <= |EscapedSecret(secret)|
    ensures |EscapedSecret(secret[..n + 1])| == |EscapedSecret(secret[..n])| + |EscapedByte(secret[n])|
  {
    EscapedPrefix(secret, n + 1);
    assert secret[..n + 1][..n] == secret[..n];
  }

  /** `body.set(source, offset)`. */
  method Set(body: array<Unit>, source: array<Unit>, offset: nat)
    requires body != source && offset + source.Length <= body.Length
    modifies body
    ensures body[..offset] == old(body[..offset])
    ensures body[offset..offset + source.Length] == source[..]
  {
    forall i | 0 <= i < source.Length {
      body[offset + i] := source[i];
    }
    assert forall i :: 0 <= i < source.Length ==> body[offset + i] == source[i];
  }

  /** One byte of the secret, with the backslash that it may need. */
  method Put(body: array<Unit>, byte: Unit, offset: nat) returns (next: nat)
    requires offset + |EscapedByte(byte)| <= body.Length
    modifies body
    ensures next == offset + |EscapedByte(byte)|
    ensures body[..next] == old(body[..offset]) + EscapedByte(byte)
  {
    next := offset;
    if NeedsEscape(byte) {
      body[next] := BACKSLASH;
      next := next + 1;
    }
    body[next] := byte;
    next := next + 1;
  }

  /** Fills the whole buffer and nothing beyond it: every store is within bounds and the last one ends at its end. */
  method RequestBody(prefix: array<Unit>, suffix: array<Unit>, secret: array<Unit>) returns (body: array<Unit>)
    ensures body[..] == prefix[..] + EscapedSecret(secret[..]) + suffix[..]
  {
    ghost var s, p := secret[..], prefix[..];
    var length := EscapedSecretLength(secret);
    body := new Unit[prefix.Length + length + suffix.Length];
    Set(body, prefix, 0);
    var offset := prefix.Length;
    var index := 0;
    EscapedPrefix(s, 0);
    assert body[..offset] == p + EscapedSecret(s[..0]);
    while index < secret.Length
      invariant index <= secret.Length
      invariant offset == prefix.Length + |EscapedSecret(s[..index])|
      invariant |EscapedSecret(s[..index])| + (secret.Length - index) <= length
      invariant body[..offset] == p + EscapedSecret(s[..index])
    {
      ghost var before := body[..offset];
      EscapedStep(p, s, index, before);
      offset := Put(body, secret[index], offset);
      index := index + 1;
    }
    assert s[..index] == s;
    Set(body, suffix, offset);
    assert body[..] == body[..offset] + body[offset..offset + suffix.Length];
    assert secret[..] == s && prefix[..] == p;
  }

  predicate NoControl(text: Text)
  {
    forall i :: 0 <= i < |text| ==> text[i] >= 0x20
  }

  lemma {:induction false} EscapedConcat(a: Text, b: Text)
    ensures EscapedSecret(a + b) == EscapedSecret(a) + EscapedSecret(b)
  {
    if b == [] {
      assert a + b == a;
    } else {
      var rest, last := b[..|b| - 1], EscapedByte(b[|b| - 1]);
      EscapedConcat(a, rest);
      assert (a + b)[..|a + b| - 1] == a + rest;
      assert EscapedSecret(a) + EscapedSecret(rest) + last == EscapedSecret(a) + (EscapedSecret(rest) + last);
    }
  }

  lemma EscapedHead(text: Text)
    requires text != []
    ensures EscapedSecret(text) == EscapedByte(text[0]) + EscapedSecret(text[1..])
  {
    EscapedConcat([text[0]], text[1..]);
    assert [text[0]] + text[1..] == text;
    EscapedOne(text[0]);
  }

  lemma EscapedOne(byte: Unit)
    ensures EscapedSecret([byte]) == EscapedByte(byte)
  {
    var none: Text := [];
    assert [byte][..0] == none && EscapedSecret(none) == none;
    assert none + EscapedByte(byte) == EscapedByte(byte);
  }

  /**
   The literal reads back as the secret if and only if the secret has no control character; the guard
   that admits only the bytes 0x21 to 0x7e is what makes the short escaper enough.
   */
  lemma {:induction false} SecretReadsBack(secret: Text)
    ensures Decode(EscapedSecret(secret)) == Some(secret) <==> NoControl(secret)
  {
    if secret != [] {
      var rest := EscapedSecret(secret[1..]);
      SecretReadsBack(secret[1..]);
      EscapedHead(secret);
      var chunk := EscapedByte(secret[0]);
      var body := chunk + rest;
      assert body[|chunk|..] == rest;
      assert secret == [secret[0]] + secret[1..];
      if secret[0] < 0x20 {
        assert ReadOne(body).None?;
      } else {
        assert ReadOne(body) == Some((|chunk|, secret[0]));
        assert Decode(body) == if Decode(rest).None? then None else Some([secret[0]] + Decode(rest).value);
        if Decode(body) == Some(secret) {
          assert Decode(rest).value == ([secret[0]] + Decode(rest).value)[1..] == secret[1..];
        }
        assert NoControl(secret) <==> NoControl(secret[1..]) by {
          assert forall i :: 0 <= i < |secret| - 1 ==> secret[1..][i] == secret[i + 1];
          if NoControl(secret[1..]) {
            assert forall i :: 0 < i < |secret| ==> secret[i] == secret[1..][i - 1];
          }
        }
      }
    }
  }

  predicate Printable(secret: Text)
  {
    forall i :: 0 <= i < |secret| ==> 0x21 <= secret[i] <= 0x7e
  }

  /** On admitted secrets the hand-written escaper is JSON.stringify. */
  lemma {:induction false} AgreesWithStringify(secret: Text)
    requires Printable(secret)
    ensures EscapedSecret(secret) == Escape(secret)
  {
    if secret != [] {
      AgreesWithStringify(secret[1..]);
      EscapedHead(secret);
    }
  }

  /** `{"a":…,"b":"` */
  function Prefix(a: Text, value: Text, b: Text): Text
  {
    [OPEN] + [QUOTE] + a + [QUOTE] + [COLON] + Quoted(value) + [COMMA] + [QUOTE] + b + [QUOTE] + [COLON] + [QUOTE]
  }

  function Suffix(): Text
  {
    [QUOTE, CLOSE]
  }

  function StringMember(name: Text, body: Text): Member
  {
    Member([], name, [], Element([], Quotation(body), []))
  }

  /** The JSON object that the body is meant to be. */
  function Request(a: Text, value: Text, b: Text, secret: Text): Element
  {
    Element([], Object(TwoMembers(a, Escape(value), b, EscapedSecret(secret))), [])
  }

  function TwoMembers(a: Text, first: Text, b: Text, second: Text): Members
  {
    FirstMember(StringMember(a, first), LastMember(StringMember(b, second)))
  }

  lemma TwoMembersAreWell(a: Text, first: Text, b: Text, second: Text)
    requires Decode(a) == Some(a) && Decode(b) == Some(b) && a != b
    requires Decode(first).Some? && Decode(second).Some?
    ensures var members := TwoMembers(a, first, b, second);
            && WellMembers(members)
            && Names(members) == [a, b]
            && !Repeating(Names(members))
            && !RepeatsInMembers(members)
  {
    var members := TwoMembers(a, first, b, second);
    assert WellMembers(members.others) && WellMembers(members);
    assert Names(members.others) == [b] && Names(members) == [a] + [b];
    assert !RepeatsInMembers(members.others);
  }

  predicate PlainText(name: Text)
  {
    forall i :: 0 <= i < |name| ==> 0x20 < name[i] < 0x7f && !NeedsEscape(name[i])
  }

  lemma PlainName(name: Text)
    requires PlainText(name)
    ensures Escape(name) == name && Decode(name) == Some(name)
  {
    PlainEscape(name);
    DecodeAfterEscape(name);
  }

  lemma {:induction false} PlainEscape(name: Text)
    requires PlainText(name)
    ensures Escape(name) == name
  {
    if name != [] {
      PlainEscape(name[1..]);
      assert name == [name[0]] + name[1..];
    }
  }

  /**
   What is sent is the JSON text of an object with exactly the two members `a` and `b` (app_id and
   app_secret), whose values read as the given identifier and the given secret, and which the
   duplicate scanner passes.
   */
  lemma BodyIsTheRequest(a: Text, appId: Text, b: Text, secret: Text)
    requires PlainText(a) && PlainText(b) && a != b && Printable(secret)
    ensures var e := Request(a, appId, b, secret);
            && Prefix(a, appId, b) + EscapedSecret(secret) + Suffix() == Document(e)
            && WellElement(e)
            && Names(e.value.members) == [a, b]
            && Decode(e.value.members.member.element.value.body) == Some(appId)
            && Decode(e.value.members.others.member.element.value.body) == Some(secret)
            && !Scan(Document(e), [])
  {
    DecodeAfterEscape(appId);
    SecretReadsBack(secret);
    PlainName(a);
    PlainName(b);
    TwoMembersAreWell(a, Escape(appId), b, EscapedSecret(secret));
    DuplicateObjectKeyIsExact(Request(a, appId, b, secret));
    BodyText(a, Escape(appId), b, EscapedSecret(secret));
  }

  lemma MemberText(name: Text, body: Text, k: Text)
    ensures PrintMember(StringMember(name, body), k) ==
            [QUOTE] + (name + [QUOTE] + ([COLON] + ([QUOTE] + (body + [QUOTE] + k))))
  {
    var m := StringMember(name, body);
    assert m.element.after + k == k;
    assert Print(m.element.value, k) == [QUOTE] + (body + [QUOTE] + k);
    assert m.element.before + Print(m.element.value, k) == Print(m.element.value, k);
    var value := [COLON] + PrintElement(m.element, k);
    assert m.after + value == value;
    assert m.before + PrintQuotation(name, value) == PrintQuotation(name, value);
  }

  lemma BodyText(a: Text, first: Text, b: Text, second: Text)
    ensures [OPEN] + [QUOTE] + a + [QUOTE] + [COLON] + ([QUOTE] + first + [QUOTE]) + [COMMA] + [QUOTE] + b + [QUOTE]
              + [COLON] + [QUOTE] + second + Suffix()
            == Document(Element([], Object(TwoMembers(a, first, b, second)), []))
  {
    TwoMembersText(a, first, b, second);
    ObjectDocument(TwoMembers(a, first, b, second));
  }

  lemma TwoMembersText(a: Text, first: Text, b: Text, second: Text)
    ensures PrintMembers(TwoMembers(a, first, b, second), [CLOSE]) ==
            [QUOTE] + (a + [QUOTE] + ([COLON] + ([QUOTE] + (first + [QUOTE] + ([COMMA] +
              ([QUOTE] + (b + [QUOTE] + ([COLON] + ([QUOTE] + (second + [QUOTE] + [CLOSE]))))))))))
  {
    var last := PrintMember(StringMember(b, second), [CLOSE]);
    MemberText(b, second, [CLOSE]);
    MemberText(a, first, [COMMA] + last);
    assert PrintMembers(TwoMembers(a, first, b, second).others, [CLOSE]) == last;
  }

  lemma ObjectDocument(members: Members)
    ensures Document(Element([], Object(members), [])) == [OPEN] + PrintMembers(members, [CLOSE])
  {
    var nothing: Text := [];
    assert nothing + nothing == nothing && [CLOSE] + nothing == [CLOSE];
    assert Document(Element([], Object(members), [])) == nothing + Print(Object(members), nothing);
  }
}
