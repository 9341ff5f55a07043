/** The two texts that are hashed for a Bot message, field by field. */
module DigestText {
  import opened Wrappers
  import opened JsonStrings
  import opened TextOrder
  import opened CanonicalJson
  import opened CanonicalText
  import Scanners = JsonScanners
  import opened ReceiptDigest

  /** By key and principal, which a zero unit separates. */
  ghost predicate InOrder(mentions: seq<Mention>)
  {
    forall i, j :: 0 <= i < j < |mentions| ==>
      !Precedes(mentions[j].key + [0] + mentions[j].principal, mentions[i].key + [0] + mentions[i].principal)
  }

  function OrNull(text: Option<Text>): Json
  {
    match text
    case Some(value) => Str(value)
    case None => Null
  }

  /** The list that stands for a message, with its mentions in this order and this text for its content. */
  function Listed(e: BotMessage, content: Text, mentions: seq<Mention>): Json
  {
    Arr([Str(e.account), Str(e.app), Str(e.tenant), Str(e.bot), Str(e.message), Str(e.chat), Str(e.chatType),
         Str(e.visibility), Str(e.sender), Str(e.messageType), Str(e.createTime), Str(content),
         Arr(seq(|mentions|, i requires 0 <= i < |mentions| => Arr([Str(mentions[i].key), Str(mentions[i].principal)]))),
         OrNull(e.root), OrNull(e.parent), OrNull(e.thread)])
  }

  lemma EventValueIsListed(e: BotMessage)
    ensures EventValue(e) == Listed(e, Canonical(e.content), SortBy(e.mentions, MentionKey))
  {
    var mentions := SortBy(e.mentions, MentionKey);
    assert MentionValues(mentions) ==
           seq(|mentions|, i requires 0 <= i < |mentions| => Arr([Str(mentions[i].key), Str(mentions[i].principal)]));
    assert Strings(Scalars(e)) ==
           [Str(e.account), Str(e.app), Str(e.tenant), Str(e.bot), Str(e.message), Str(e.chat), Str(e.chatType),
            Str(e.visibility), Str(e.sender), Str(e.messageType), Str(e.createTime), Str(Canonical(e.content))];
  }

  lemma MentionsInOrder(mentions: seq<Mention>)
    ensures InOrder(SortBy(mentions, MentionKey)) && multiset(SortBy(mentions, MentionKey)) == multiset(mentions)
  {
    SortKeeps(mentions, MentionKey);
    var sorted := SortBy(mentions, MentionKey);
    forall i, j | 0 <= i < j < |sorted|
      ensures !Precedes(sorted[j].key + [0] + sorted[j].principal, sorted[i].key + [0] + sorted[i].principal)
    {
      LessPrecedes(MentionKey(sorted[j]), MentionKey(sorted[i]));
    }
  }

  /** What is hashed for the event is a JSON text of these sixteen fields in this order, the content in canonical form. */
  ghost predicate HashesEvent(e: BotMessage, mentions: seq<Mention>, t: Scanners.Value, text: Text)
  {
    && multiset(mentions) == multiset(e.mentions) && InOrder(mentions)
    && IsTextOf(t, Listed(e, Canonical(e.content), mentions), text)
  }

  lemma EventDigestText(e: BotMessage)
    requires Parsed(e)
    ensures exists mentions, t :: HashesEvent(e, mentions, t, EventDigest(e))
  {
    EventValueValid(e);
    EventValueIsListed(e);
    MentionsInOrder(e.mentions);
    CanonicalIsJson(EventValue(e));
    var t :| IsTextOf(t, EventValue(e), Canonical(EventValue(e)));
    assert HashesEvent(e, SortBy(e.mentions, MentionKey), t, EventDigest(e));
  }

  function KeyListed(e: BotMessage): Json
  {
    Arr([Str(e.account), Str(e.app), Str(e.tenant), Str(e.message)])
  }

  lemma KeyValueIsListed(e: BotMessage)
    ensures MessageKeyValue(e) == KeyListed(e)
  {
    assert Strings([e.account, e.app, e.tenant, e.message]) == KeyListed(e).items;
  }

  /** And for the key a JSON text of account, application, tenant and message. */
  lemma MessageKeyText(e: BotMessage)
    ensures exists t :: IsTextOf(t, KeyListed(e), MessageKeyDigest(e))
  {
    EventValueValid(e);
    KeyValueIsListed(e);
    CanonicalIsJson(MessageKeyValue(e));
    var t :| IsTextOf(t, MessageKeyValue(e), Canonical(MessageKeyValue(e)));
    assert IsTextOf(t, KeyListed(e), MessageKeyDigest(e));
  }
}
