/**
 The two digest inputs of a Bot message. SHA-256 is taken as injective, so a digest is its input text.
 */
module ReceiptDigest {
  import opened Wrappers
  import opened JsonStrings
  import opened TextOrder
  import opened CanonicalJson

  datatype Mention = Mention(key: Text, principal: Text)

  datatype BotMessage = BotMessage(
    account: Text,
    app: Text,
    tenant: Text,
    bot: Text,
    delivery: Text,
    message: Text,
    chat: Text,
    chatType: Text,
    visibility: Text,
    sender: Text,
    messageType: Text,
    createTime: Text,
    content: Json,
    mentions: seq<Mention>,
    root: Option<Text>,
    parent: Option<Text>,
    thread: Option<Text>)

  const MentionKey := (m: Mention) => m.key + [0] + m.principal

  function MentionValue(m: Mention): Json
  {
    Arr([Str(m.key), Str(m.principal)])
  }

  function MentionValues(mentions: seq<Mention>): seq<Json>
  {
    seq(|mentions|, i requires 0 <= i < |mentions| => MentionValue(mentions[i]))
  }

  function Optional(text: Option<Text>): Json
  {
    if text.Some? then Str(text.value) else Null
  }

  function Strings(texts: seq<Text>): seq<Json>
  {
    seq(|texts|, i requires 0 <= i < |texts| => Str(texts[i]))
  }

  function Scalars(e: BotMessage): seq<Text>
  {
    [e.account, e.app, e.tenant, e.bot, e.message, e.chat, e.chatType, e.visibility, e.sender,
     e.messageType, e.createTime, Canonical(e.content)]
  }

  function Links(e: BotMessage): seq<Json>
  {
    [Optional(e.root), Optional(e.parent), Optional(e.thread)]
  }

  /** The array whose JSON text is hashed into the event digest. */
  function EventValue(e: BotMessage): Json
  {
    Arr(Strings(Scalars(e)) + [Arr(MentionValues(SortBy(e.mentions, MentionKey)))] + Links(e))
  }

  function MessageKeyValue(e: BotMessage): Json
  {
    Arr(Strings([e.account, e.app, e.tenant, e.message]))
  }

  function EventDigest(e: BotMessage): Text
  {
    Canonical(EventValue(e))
  }

  function MessageKeyDigest(e: BotMessage): Text
  {
    Canonical(MessageKeyValue(e))
  }

  /** What the event parser guarantees: JSON content, and no control characters in mention keys. */
  predicate Parsed(e: BotMessage)
  {
    Valid(e.content) && forall i :: 0 <= i < |e.mentions| ==> 0 !in e.mentions[i].key
  }

  /** The same message in the same state, delivered again. */
  ghost predicate SameMessage(e: BotMessage, f: BotMessage)
  {
    && Equivalent(e.content, f.content)
    && multiset(e.mentions) == multiset(f.mentions)
    && e.(delivery := f.delivery, content := f.content, mentions := f.mentions) == f
  }

  lemma MentionsKeyedApart(mentions: seq<Mention>)
    requires forall i :: 0 <= i < |mentions| ==> 0 !in mentions[i].key
    ensures KeyedApart(mentions, MentionKey)
  {
    forall a, b | a in mentions && b in mentions && MentionKey(a) == MentionKey(b)
      ensures a == b
    {
      KeyUnique(a.key, b.key, a.principal, b.principal);
    }
  }

  lemma KeyUnique(a: Text, b: Text, x: Text, y: Text)
    requires 0 !in a && 0 !in b && a + [0] + x == b + [0] + y
    ensures a == b && x == y
  {
    var s, t := a + [0] + x, b + [0] + y;
    assert s[|a|] == 0 && t[|b|] == 0;
    assert forall i :: 0 <= i < |a| ==> s[i] == a[i] && a[i] in a;
    assert forall i :: 0 <= i < |b| ==> t[i] == b[i] && b[i] in b;
    assert s[..|a|] == a && t[..|b|] == b;
    assert s[|a| + 1..] == x && t[|b| + 1..] == y;
  }

  lemma EventValueValid(e: BotMessage)
    ensures Valid(EventValue(e)) && Valid(MessageKeyValue(e))
  {
    var items := MentionValues(SortBy(e.mentions, MentionKey));
    assert forall i :: 0 <= i < |items| ==> Valid(items[i]);
    assert Valid(Arr(items));
  }

  lemma MentionValuesUnique(a: seq<Mention>, b: seq<Mention>)
    requires Equivalent(Arr(MentionValues(a)), Arr(MentionValues(b)))
    ensures a == b
  {
    forall i | 0 <= i < |a|
      ensures a[i] == b[i]
    {
      assert Equivalent(MentionValues(a)[i], MentionValues(b)[i]);
      assert Equivalent(MentionValue(a[i]).items[0], MentionValue(b[i]).items[0]);
      assert Equivalent(MentionValue(a[i]).items[1], MentionValue(b[i]).items[1]);
    }
  }

  lemma StringsUnique(a: seq<Text>, b: seq<Text>)
    requires |a| == |b| && forall i :: 0 <= i < |a| ==> Equivalent(Strings(a)[i], Strings(b)[i])
    ensures a == b
  {
    forall i | 0 <= i < |a|
      ensures a[i] == b[i]
    {
      assert Equivalent(Strings(a)[i], Strings(b)[i]);
    }
  }

  lemma ItemsEquivalent(a: seq<Json>, x: Json, b: seq<Json>, c: seq<Json>, y: Json, d: seq<Json>)
    requires |a| == |c| && |b| == |d| && Equivalent(Arr(a + [x] + b), Arr(c + [y] + d))
    ensures Equivalent(x, y)
    ensures forall i :: 0 <= i < |a| ==> Equivalent(a[i], c[i])
    ensures forall i :: 0 <= i < |b| ==> Equivalent(b[i], d[i])
  {
    var s, t := a + [x] + b, c + [y] + d;
    assert Equivalent(s[|a|], t[|a|]);
    forall i | 0 <= i < |a|
      ensures Equivalent(a[i], c[i])
    {
      assert Equivalent(s[i], t[i]);
    }
    forall i | 0 <= i < |b|
      ensures Equivalent(b[i], d[i])
    {
      assert Equivalent(s[|a| + 1 + i], t[|a| + 1 + i]);
    }
  }

  lemma LinksUnique(e: BotMessage, f: BotMessage)
    requires forall i :: 0 <= i < 3 ==> Equivalent(Links(e)[i], Links(f)[i])
    ensures e.root == f.root && e.parent == f.parent && e.thread == f.thread
  {
    assert Equivalent(Links(e)[0], Links(f)[0]);
    assert Equivalent(Links(e)[1], Links(f)[1]);
    assert Equivalent(Links(e)[2], Links(f)[2]);
  }

  lemma ScalarsUnique(e: BotMessage, f: BotMessage)
    requires Scalars(e) == Scalars(f)
    ensures Canonical(e.content) == Canonical(f.content)
    ensures e.(delivery := f.delivery, content := f.content, mentions := f.mentions,
               root := f.root, parent := f.parent, thread := f.thread) == f
  {
    var a, b := Scalars(e), Scalars(f);
    assert a[0] == b[0] && a[1] == b[1] && a[2] == b[2] && a[3] == b[3] && a[4] == b[4] && a[5] == b[5];
    assert a[6] == b[6] && a[7] == b[7] && a[8] == b[8] && a[9] == b[9] && a[10] == b[10] && a[11] == b[11];
  }

  /** Equivalence of the two hashed arrays, field by field. */
  lemma EventValuesEquivalent(e: BotMessage, f: BotMessage)
    requires Equivalent(EventValue(e), EventValue(f))
    ensures Canonical(e.content) == Canonical(f.content)
    ensures SortBy(e.mentions, MentionKey) == SortBy(f.mentions, MentionKey)
    ensures e.(delivery := f.delivery, content := f.content, mentions := f.mentions) == f
  {
    var m, n := SortBy(e.mentions, MentionKey), SortBy(f.mentions, MentionKey);
    ItemsEquivalent(Strings(Scalars(e)), Arr(MentionValues(m)), Links(e),
                    Strings(Scalars(f)), Arr(MentionValues(n)), Links(f));
    StringsUnique(Scalars(e), Scalars(f));
    ScalarsUnique(e, f);
    LinksUnique(e, f);
    MentionValuesUnique(m, n);
  }

  /**
   Two parsed messages have the same event digest exactly when they differ only in the delivery id, the
   order of their mentions and the member order of their content.
   */
  lemma EventDigestIdentifies(e: BotMessage, f: BotMessage)
    requires Parsed(e) && Parsed(f)
    ensures EventDigest(e) == EventDigest(f) <==> SameMessage(e, f)
  {
    EventValueValid(e);
    EventValueValid(f);
    CanonicalIdentifies(EventValue(e), EventValue(f));
    CanonicalIdentifies(e.content, f.content);
    if EventDigest(e) == EventDigest(f) {
      EventValuesEquivalent(e, f);
      SortKeeps(e.mentions, MentionKey);
      SortKeeps(f.mentions, MentionKey);
    }
    if SameMessage(e, f) {
      MentionsKeyedApart(e.mentions);
      SortPermutation(e.mentions, f.mentions, MentionKey);
      assert Scalars(e) == Scalars(f) && Links(e) == Links(f);
      assert EventValue(e) == EventValue(f);
    }
  }

  /** The receipt key is the message within its tenant, whatever else the event says. */
  lemma MessageKeyIdentifies(e: BotMessage, f: BotMessage)
    ensures MessageKeyDigest(e) == MessageKeyDigest(f) <==>
              e.account == f.account && e.app == f.app && e.tenant == f.tenant && e.message == f.message
  {
    EventValueValid(e);
    EventValueValid(f);
    CanonicalIdentifies(MessageKeyValue(e), MessageKeyValue(f));
    var a, b := [e.account, e.app, e.tenant, e.message], [f.account, f.app, f.tenant, f.message];
    if Equivalent(MessageKeyValue(e), MessageKeyValue(f)) {
      StringsUnique(a, b);
      assert a[0] == b[0] && a[1] == b[1] && a[2] == b[2] && a[3] == b[3];
    } else {
      assert a != b;
    }
  }
}
