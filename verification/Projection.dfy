/**
 Conversation projection: how one batch of normalized messages is folded into the stored thread and
 work item of each conversation. Instants are integers; digests are the identities they stand for.
 */
module Projection {
  import opened Wrappers

  /** A normalized message. `event` identifies the message in one source state. */
  datatype Message = Message(
    event: nat,
    conversation: nat,
    source: nat,
    occurredAt: int,
    receivedAt: int,
    direct: bool,
    requiresReply: bool,
    deleted: bool,
    summary: string)

  /** Identity of an external reference: the conversation, or one source message. */
  datatype Key = ConversationKey(conversation: nat) | MessageKey(source: nat)

  datatype Reference = Reference(key: Key, stamp: Option<int>)

  datatype InboxState = NeedsReply | NeedsReview | Waiting | Done

  datatype Thread = Thread(
    subject: string,
    references: seq<Reference>,
    events: seq<nat>,
    createdAt: int,
    updatedAt: int)

  datatype Presentation = Presentation(
    inboxState: InboxState,
    title: string,
    summary: string,
    attentionReason: string)

  datatype WorkItem = WorkItem(
    conversation: nat,
    events: seq<nat>,
    shown: Presentation,
    persona: Option<nat>,
    createdAt: int,
    updatedAt: int)

  datatype Stored = Stored(thread: Thread, workItem: WorkItem)

  datatype Error = ProjectionConflict | InvalidRecord

  /** What the message itself asks to be shown. */
  function Shown(m: Message): Presentation
  {
    if m.deleted then
      Presentation(Done, "Feishu message deleted", m.summary, "The source message was deleted.")
    else if m.requiresReply then
      Presentation(NeedsReply, "Reply to a Feishu message", m.summary,
                   "A direct message or explicit mention is waiting for attention.")
    else
      Presentation(NeedsReview, "Review a Feishu group message", m.summary,
                   "A newly discovered group message may require review.")
  }

  // Sorting, as toSorted with a comparator does it

  function Insert(m: Message, sorted: seq<Message>, before: (Message, Message) -> bool): seq<Message>
  {
    if sorted == [] then [m]
    else if before(sorted[0], m) then [sorted[0]] + Insert(m, sorted[1..], before)
    else [m] + sorted
  }

  function Sort(messages: seq<Message>, before: (Message, Message) -> bool): seq<Message>
  {
    if messages == [] then [] else Insert(messages[0], Sort(messages[1..], before), before)
  }

  /** Oldest first; ties by event identity. */
  predicate Earlier(a: Message, b: Message)
  {
    a.occurredAt < b.occurredAt || (a.occurredAt == b.occurredAt && a.event < b.event)
  }

  /** Newest first; ties by event identity. */
  predicate Later(a: Message, b: Message)
  {
    a.occurredAt > b.occurredAt || (a.occurredAt == b.occurredAt && a.event < b.event)
  }

  lemma {:induction false} InsertKeeps(m: Message, sorted: seq<Message>, before: (Message, Message) -> bool)
    ensures multiset(Insert(m, sorted, before)) == multiset(sorted) + multiset{m}
  {
    if sorted != [] && before(sorted[0], m) {
      InsertKeeps(m, sorted[1..], before);
      assert sorted == [sorted[0]] + sorted[1..];
    }
  }

  lemma {:induction false} SortKeeps(messages: seq<Message>, before: (Message, Message) -> bool)
    ensures multiset(Sort(messages, before)) == multiset(messages)
    ensures |Sort(messages, before)| == |messages|
    ensures forall m :: m in Sort(messages, before) <==> m in messages
  {
    if messages != [] {
      SortKeeps(messages[1..], before);
      InsertKeeps(messages[0], Sort(messages[1..], before), before);
      assert messages == [messages[0]] + messages[1..];
    }
    var s := Sort(messages, before);
    assert |multiset(s)| == |s| && |multiset(messages)| == |messages|;
    forall m
      ensures m in s <==> m in messages
    {
      assert m in s <==> m in multiset(s);
      assert m in messages <==> m in multiset(messages);
    }
  }

  /** The head after sorting newest first is a newest message. */
  lemma {:induction false} HeadIsNewest(messages: seq<Message>)
    requires messages != []
    ensures Sort(messages, Later) != []
    ensures var h := Sort(messages, Later)[0];
            h in messages && forall m :: m in messages ==> m.occurredAt <= h.occurredAt
  {
    SortKeeps(messages, Later);
    if |messages| > 1 {
      HeadIsNewest(messages[1..]);
      assert messages == [messages[0]] + messages[1..];
    }
  }

  // References

  function IndexOf(references: seq<Reference>, key: Key): Option<nat>
  {
    if references == [] then None
    else if references[|references| - 1].key == key then Some(|references| - 1)
    else IndexOf(references[..|references| - 1], key)
  }

  lemma {:induction false} IndexOfFinds(references: seq<Reference>, key: Key)
    ensures var i := IndexOf(references, key);
            if i.Some? then
              && i.value < |references| && references[i.value].key == key
              && forall j :: i.value < j < |references| ==> references[j].key != key
            else forall j :: 0 <= j < |references| ==> references[j].key != key
  {
    if references != [] && references[|references| - 1].key != key {
      IndexOfFinds(references[..|references| - 1], key);
    }
  }

  function MergeOne(references: seq<Reference>, addition: Reference): seq<Reference>
  {
    var i := IndexOf(references, addition.key);
    if i.None? then references + [addition]
    else
      IndexOfFinds(references, addition.key);
      var current := references[i.value];
      if addition.stamp.Some? && (current.stamp.None? || addition.stamp.value > current.stamp.value)
      then references[i.value := current.(stamp := addition.stamp)]
      else references
  }

  function MergeAll(references: seq<Reference>, additions: seq<Reference>): seq<Reference>
  {
    if additions == [] then references
    else MergeOne(MergeAll(references, additions[..|additions| - 1]), additions[|additions| - 1])
  }

  /** mergeReferences, with its index map. */
  method MergeReferences(existing: seq<Reference>, additions: seq<Reference>) returns (result: seq<Reference>)
    ensures result == MergeAll(existing, additions)
  {
    result := existing;
    var indexes: map<Key, nat> := map[];
    for i := 0 to |existing|
      invariant forall k :: k in indexes <==> IndexOf(existing[..i], k).Some?
      invariant forall k :: k in indexes ==> IndexOf(existing[..i], k) == Some(indexes[k])
    {
      assert existing[..i + 1][..i] == existing[..i];
      indexes := indexes[existing[i].key := i];
    }
    assert existing[..|existing|] == existing;
    for i := 0 to |additions|
      invariant result == MergeAll(existing, additions[..i])
      invariant forall k :: k in indexes <==> IndexOf(result, k).Some?
      invariant forall k :: k in indexes ==> IndexOf(result, k) == Some(indexes[k])
    {
      assert additions[..i + 1][..i] == additions[..i];
      var addition := additions[i];
      IndexOfFinds(result, addition.key);
      ghost var before := result;
      if addition.key !in indexes {
        indexes := indexes[addition.key := |result|];
        result := result + [addition];
        assert result[..|before|] == before;
      } else {
        var index := indexes[addition.key];
        var current := result[index];
        if addition.stamp.Some? && (current.stamp.None? || addition.stamp.value > current.stamp.value) {
          result := result[index := current.(stamp := addition.stamp)];
          SameKeysSameIndex(before, result);
        }
      }
    }
    assert additions[..|additions|] == additions;
  }

  lemma {:induction false} SameKeysSameIndex(a: seq<Reference>, b: seq<Reference>)
    requires |a| == |b| && forall i :: 0 <= i < |a| ==> a[i].key == b[i].key
    ensures forall k :: IndexOf(a, k) == IndexOf(b, k)
  {
    forall k
      ensures IndexOf(a, k) == IndexOf(b, k)
    {
      IndexOfFinds(a, k);
      IndexOfFinds(b, k);
    }
  }

  function ReferencesOf(messages: seq<Message>): seq<Reference>
  {
    if messages == [] then []
    else
      var m := messages[|messages| - 1];
      ReferencesOf(messages[..|messages| - 1])
      + [Reference(ConversationKey(m.conversation), Some(m.occurredAt)),
         Reference(MessageKey(m.source), Some(m.occurredAt))]
  }

  // One group

  function Unseen(group: seq<Message>, events: seq<nat>): seq<Message>
  {
    if group == [] then []
    else
      var rest := Unseen(group[..|group| - 1], events);
      if group[|group| - 1].event in events then rest else rest + [group[|group| - 1]]
  }

  function EventsOf(messages: seq<Message>): seq<nat>
  {
    seq(|messages|, i requires 0 <= i < |messages| => messages[i].event)
  }

  function Earliest(messages: seq<Message>, start: int): int
  {
    if messages == [] then start
    else
      var before := Earliest(messages[..|messages| - 1], start);
      var t := messages[|messages| - 1].occurredAt;
      if t < before then t else before
  }

  function LastReceived(messages: seq<Message>, start: int): int
  {
    if messages == [] then start
    else
      var before := LastReceived(messages[..|messages| - 1], start);
      var t := messages[|messages| - 1].receivedAt;
      if t > before then t else before
  }

  /** The newest source time among the message references already stored. */
  function NewestStored(references: seq<Reference>): Option<int>
  {
    if references == [] then None
    else
      var before := NewestStored(references[..|references| - 1]);
      var r := references[|references| - 1];
      if r.key.MessageKey? && r.stamp.Some? && (before.None? || r.stamp.value > before.value)
      then r.stamp
      else before
  }

  predicate Distinct<T(==)>(s: seq<T>)
  {
    forall i, j :: 0 <= i < j < |s| ==> s[i] != s[j]
  }

  /** The checks of the domain parser that depend on the values computed here. */
  predicate Parses(t: Thread, w: WorkItem)
  {
    && t.references != [] && t.events != []
    && Distinct(t.events)
    && (forall i, j :: 0 <= i < j < |t.references| ==> t.references[i].key != t.references[j].key)
    && t.createdAt <= t.updatedAt
    && w.createdAt <= w.updatedAt
  }

  /** The thread and work item that replace the stored ones when there is something to add. */
  function Assemble(
    conversation: nat, first: Message, thread: Option<Thread>, workItem: Option<WorkItem>, additions: seq<Message>)
    : Stored
    requires additions != []
  {
    HeadIsNewest(additions);
    var latest := Sort(additions, Later)[0];
    var events := (if thread.Some? then thread.value.events else []) + EventsOf(additions);
    var stored := if thread.Some? then thread.value.references else [];
    var createdAt := if thread.Some? then thread.value.createdAt else Earliest(additions, first.occurredAt);
    var updatedAt := LastReceived(additions, if thread.Some? then thread.value.updatedAt else createdAt);
    var newest := NewestStored(stored);
    var advances := workItem.None? || newest.None? || latest.occurredAt >= newest.value;
    Stored(
      Thread(
        if thread.Some? then thread.value.subject
        else if first.direct then "Feishu direct conversation" else "Feishu group conversation",
        MergeAll(stored, ReferencesOf(additions)), events, createdAt, updatedAt),
      WorkItem(
        conversation, events,
        if advances then Shown(latest) else workItem.value.shown,
        if workItem.Some? then workItem.value.persona else None,
        if workItem.Some? then workItem.value.createdAt else createdAt,
        updatedAt))
  }

  /** One group against what is stored for its conversation. */
  function Project(
    conversation: nat, group: seq<Message>, thread: Option<Thread>, workItem: Option<WorkItem>)
    : Result<Option<Stored>, Error>
    requires group != []
  {
    if thread.None? != workItem.None? || (workItem.Some? && workItem.value.conversation != conversation) then
      Err(ProjectionConflict)
    else
      var additions := Sort(Unseen(group, if thread.Some? then thread.value.events else []), Earlier);
      if additions == [] then Ok(None)
      else
        var stored := Assemble(conversation, group[0], thread, workItem, additions);
        if Parses(stored.thread, stored.workItem) then Ok(Some(stored)) else Err(InvalidRecord)
  }

  // A batch

  datatype Store = Store(threads: map<nat, Thread>, workItems: map<nat, WorkItem>)

  datatype Projected = Projected(conversation: nat, stored: Stored)

  /** Conversations of a batch in the order of their first message. */
  function Conversations(batch: seq<Message>): seq<nat>
  {
    if batch == [] then []
    else
      var before := Conversations(batch[..|batch| - 1]);
      var c := batch[|batch| - 1].conversation;
      if c in before then before else before + [c]
  }

  function GroupOf(batch: seq<Message>, conversation: nat): seq<Message>
  {
    if batch == [] then []
    else
      var before := GroupOf(batch[..|batch| - 1], conversation);
      var m := batch[|batch| - 1];
      if m.conversation == conversation then before + [m] else before
  }

  function Lookup<T>(m: map<nat, T>, key: nat): Option<T>
  {
    if key in m then Some(m[key]) else None
  }

  function ProjectConversation(batch: seq<Message>, conversation: nat, store: Store)
    : Result<Option<Stored>, Error>
  {
    var group := GroupOf(batch, conversation);
    if group == [] then Ok(None)
    else Project(conversation, group, Lookup(store.threads, conversation), Lookup(store.workItems, conversation))
  }

  /** The projections of the listed conversations; the first failure fails the batch. */
  function ProjectAll(batch: seq<Message>, conversations: seq<nat>, store: Store)
    : Result<seq<Projected>, Error>
  {
    if conversations == [] then Ok([])
    else
      var before := ProjectAll(batch, conversations[..|conversations| - 1], store);
      if before.Err? then before
      else
        var c := conversations[|conversations| - 1];
        match ProjectConversation(batch, c, store)
        case Err(error) => Err(error)
        case Ok(None) => before
        case Ok(Some(stored)) => Ok(before.value + [Projected(c, stored)])
  }

  /** The first loop of projectionGroups: a map that keeps insertion order. */
  method GroupBatch(batch: seq<Message>) returns (groups: map<nat, seq<Message>>, order: seq<nat>)
    ensures order == Conversations(batch)
    ensures forall c :: c in groups <==> c in order
    ensures forall c :: c in groups ==> groups[c] == GroupOf(batch, c)
  {
    groups, order := map[], [];
    for i := 0 to |batch|
      invariant order == Conversations(batch[..i])
      invariant forall c :: c in groups <==> c in order
      invariant forall c :: c in groups ==> groups[c] == GroupOf(batch[..i], c)
      invariant forall c :: c !in groups ==> GroupOf(batch[..i], c) == []
    {
      assert batch[..i + 1][..i] == batch[..i];
      var m := batch[i];
      if m.conversation !in groups {
        groups := groups[m.conversation := [m]];
        order := order + [m.conversation];
      } else {
        groups := groups[m.conversation := groups[m.conversation] + [m]];
      }
    }
    assert batch[..|batch|] == batch;
  }

  /** projectionGroups: project each group in turn. */
  method ProjectBatch(batch: seq<Message>, store: Store) returns (r: Result<seq<Projected>, Error>)
    ensures r == ProjectAll(batch, Conversations(batch), store)
  {
    var groups, order := GroupBatch(batch);
    var projections: seq<Projected> := [];
    var k := 0;
    while k < |order|
      invariant 0 <= k <= |order|
      invariant ProjectAll(batch, order[..k], store) == Ok(projections)
    {
      var c := order[k];
      assert order[..k + 1][..k] == order[..k];
      assert c in order;
      var group := groups[c];
      var projected: Result<Option<Stored>, Error> := Ok(None);
      if group != [] {
        projected := Project(c, group, Lookup(store.threads, c), Lookup(store.workItems, c));
      }
      assert projected == ProjectConversation(batch, c, store);
      if projected.Err? {
        ProjectAllStops(batch, order, store, k + 1);
        return Err(projected.error);
      }
      if projected.value.Some? {
        projections := projections + [Projected(c, projected.value.value)];
      }
      k := k + 1;
    }
    assert order[..|order|] == order;
    return Ok(projections);
  }

  lemma {:induction false} ProjectAllStops(batch: seq<Message>, conversations: seq<nat>, store: Store, n: nat)
    requires n <= |conversations| && ProjectAll(batch, conversations[..n], store).Err?
    ensures ProjectAll(batch, conversations, store) == ProjectAll(batch, conversations[..n], store)
  {
    if n < |conversations| {
      assert conversations[..|conversations| - 1][..n] == conversations[..n];
      ProjectAllStops(batch, conversations[..|conversations| - 1], store, n);
    } else {
      assert conversations[..n] == conversations;
    }
  }

  function Save(store: Store, projections: seq<Projected>): Store
  {
    if projections == [] then store
    else
      var before := Save(store, projections[..|projections| - 1]);
      var p := projections[|projections| - 1];
      Store(before.threads[p.conversation := p.stored.thread],
            before.workItems[p.conversation := p.stored.workItem])
  }

  /** A batch is stored as a whole or, when it fails, not at all. */
  function Deliver(store: Store, batch: seq<Message>): Store
  {
    match ProjectAll(batch, Conversations(batch), store)
    case Err(_) => store
    case Ok(projections) => Save(store, projections)
  }

  function DeliverAll(store: Store, batches: seq<seq<Message>>): Store
  {
    if batches == [] then store
    else Deliver(DeliverAll(store, batches[..|batches| - 1]), batches[|batches| - 1])
  }
}
