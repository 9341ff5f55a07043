/**
 Convergence of the projection. What is stored after any sequence of batches, in which events may come
 again at any time and under new observation times, is decided by the first delivery of each event in
 its conversation; and all ways to deliver the same events end with the same events, references and,
 where messages tied for the newest source time agree, the same presentation.
 */
module ProjectionConvergence {
  import opened Wrappers
  import opened Sequences
  import opened Projection

  ghost predicate Newest(m: Message, messages: set<Message>)
  {
    m in messages && forall o :: o in messages ==> o.occurredAt <= m.occurredAt
  }

  predicate Concerns(m: Message, key: Key)
  {
    key == ConversationKey(m.conversation) || key == MessageKey(m.source)
  }

  /** Some message dates this reference at exactly `t`, and none dates it later. */
  ghost predicate Dates(messages: set<Message>, key: Key, t: int)
  {
    && (exists m :: m in messages && Concerns(m, key) && m.occurredAt == t)
    && (forall m :: m in messages && Concerns(m, key) ==> m.occurredAt <= t)
  }

  ghost predicate UniqueKeys(references: seq<Reference>)
  {
    forall i, j :: 0 <= i < j < |references| ==> references[i].key != references[j].key
  }

  ghost predicate HasKey(references: seq<Reference>, key: Key)
  {
    exists i :: 0 <= i < |references| && references[i].key == key
  }

  /** The references are exactly those of the messages, each with its newest time. */
  ghost predicate RefersTo(references: seq<Reference>, messages: set<Message>)
  {
    && UniqueKeys(references)
    && (forall i :: 0 <= i < |references| ==>
          references[i].stamp.Some? && Dates(messages, references[i].key, references[i].stamp.value))
    && (forall m, key :: m in messages && Concerns(m, key) ==> HasKey(references, key))
  }

  ghost predicate EventsAre(events: seq<nat>, messages: set<Message>)
  {
    && Distinct(events)
    && (forall m :: m in messages ==> m.event in events)
    && (forall e :: e in events ==> exists m :: m in messages && m.event == e)
  }

  ghost predicate LastReceipt(t: int, messages: set<Message>)
  {
    && (exists m :: m in messages && m.receivedAt == t)
    && (forall m :: m in messages ==> m.receivedAt <= t)
  }

  /** What a work item says about the message that it shows. */
  predicate Presents(shown: Presentation, m: Message)
  {
    && shown.summary == m.summary
    && match shown.inboxState
       case Done =>
         && m.deleted
         && shown.title == "Feishu message deleted"
         && shown.attentionReason == "The source message was deleted."
       case NeedsReply =>
         && !m.deleted && m.requiresReply
         && shown.title == "Reply to a Feishu message"
         && shown.attentionReason == "A direct message or explicit mention is waiting for attention."
       case NeedsReview =>
         && !m.deleted && !m.requiresReply
         && shown.title == "Review a Feishu group message"
         && shown.attentionReason == "A newly discovered group message may require review."
       case Waiting => false
  }

  lemma PresentsWhatItAsks(shown: Presentation, m: Message)
    ensures Presents(shown, m) <==> shown == Shown(m)
  {
  }

  ghost predicate ShowsANewest(shown: Presentation, messages: set<Message>)
  {
    exists m :: Newest(m, messages) && Presents(shown, m)
  }

  /** The events, references and times of a thread and work item, as the messages of their conversation have them. */
  ghost predicate Records(t: Thread, w: WorkItem, conversation: nat, messages: set<Message>)
  {
    && w.conversation == conversation
    && w.events == t.events
    && EventsAre(t.events, messages)
    && RefersTo(t.references, messages)
    && LastReceipt(t.updatedAt, messages)
    && w.updatedAt == t.updatedAt
    && t.createdAt <= t.updatedAt && w.createdAt <= w.updatedAt
  }

  /** What a stored thread and work item must say about the messages of their conversation. */
  ghost predicate Reflects(t: Thread, w: WorkItem, conversation: nat, messages: set<Message>)
  {
    Records(t, w, conversation, messages) && ShowsANewest(w.shown, messages)
  }

  ghost predicate StoreReflects(store: Store, conversation: nat, messages: set<Message>)
  {
    if messages == {} then
      conversation !in store.threads && conversation !in store.workItems
    else
      && conversation in store.threads && conversation in store.workItems
      && Reflects(store.threads[conversation], store.workItems[conversation], conversation, messages)
  }

  ghost predicate UniqueEvents(messages: set<Message>)
  {
    forall m, o :: m in messages && o in messages && m.event == o.event ==> m == o
  }

  ghost predicate Observed(messages: set<Message>)
  {
    forall m :: m in messages ==> m.occurredAt <= m.receivedAt
  }

  function Elements(s: seq<Message>): set<Message>
  {
    set m | m in s
  }

  /** The event of this message was delivered before, perhaps with other contents or observed at another time. */
  ghost predicate SeenBefore(m: Message, messages: set<Message>)
  {
    exists d :: d in messages && d.event == m.event && d.conversation == m.conversation
  }

  ghost function New(messages: set<Message>, seen: set<Message>): set<Message>
  {
    set m | m in messages && !SeenBefore(m, seen)
  }

  // References

  lemma MergeReflects(references: seq<Reference>, messages: set<Message>, m: Message, key: Key, done: set<Message>)
    requires Concerns(m, key)
    requires UniqueKeys(references)
    requires forall i :: 0 <= i < |references| ==>
               references[i].stamp.Some?
               && (if references[i].key == key then Dates(messages, key, references[i].stamp.value)
                   else Dates(done, references[i].key, references[i].stamp.value))
    requires forall o :: o in messages && Concerns(o, key) ==> HasKey(references, key)
    ensures var merged := MergeOne(references, Reference(key, Some(m.occurredAt)));
            && UniqueKeys(merged)
            && (forall i :: 0 <= i < |merged| ==>
                  merged[i].stamp.Some?
                  && (if merged[i].key == key then Dates(messages + {m}, key, merged[i].stamp.value)
                      else Dates(done, merged[i].key, merged[i].stamp.value)))
            && HasKey(merged, key)
            && (forall k :: HasKey(references, k) ==> HasKey(merged, k))
  {
    var addition := Reference(key, Some(m.occurredAt));
    var merged := MergeOne(references, addition);
    IndexOfFinds(references, key);
    var at := IndexOf(references, key);
    var j := if at.None? then |references| else at.value;
    assert merged[j].key == key;
    assert m in messages + {m};
    if at.Some? {
      var t := references[j].stamp.value;
      var o :| o in messages && Concerns(o, key) && o.occurredAt == t;
      assert o in messages + {m};
    }
    assert Dates(messages + {m}, key, merged[j].stamp.value);
    forall k | HasKey(references, k)
      ensures HasKey(merged, k)
    {
      var i :| 0 <= i < |references| && references[i].key == k;
      assert merged[i].key == k;
    }
  }

  lemma DatesElsewhere(messages: set<Message>, m: Message, key: Key, t: int)
    requires !Concerns(m, key)
    ensures Dates(messages + {m}, key, t) <==> Dates(messages, key, t)
  {
  }

  lemma MergeMessage(references: seq<Reference>, messages: set<Message>, m: Message)
    requires RefersTo(references, messages)
    ensures RefersTo(
              MergeOne(MergeOne(references, Reference(ConversationKey(m.conversation), Some(m.occurredAt))),
                       Reference(MessageKey(m.source), Some(m.occurredAt))),
              messages + {m})
  {
    var first, second := ConversationKey(m.conversation), MessageKey(m.source);
    var r1 := MergeOne(references, Reference(first, Some(m.occurredAt)));
    var r2 := MergeOne(r1, Reference(second, Some(m.occurredAt)));
    MergeReflects(references, messages, m, first, messages);
    MergeSecond(references, r1, messages, m);
    forall o, key | o in messages + {m} && Concerns(o, key)
      ensures HasKey(r2, key)
    {
      if o in messages {
        assert HasKey(references, key);
      }
    }
  }

  /** The second merge of one message, told apart from the first by the kind of its key. */
  lemma MergeSecond(references: seq<Reference>, r1: seq<Reference>, messages: set<Message>, m: Message)
    requires RefersTo(references, messages)
    requires r1 == MergeOne(references, Reference(ConversationKey(m.conversation), Some(m.occurredAt)))
    requires UniqueKeys(r1)
    requires HasKey(r1, ConversationKey(m.conversation))
    requires forall k :: HasKey(references, k) ==> HasKey(r1, k)
    requires forall i :: 0 <= i < |r1| ==>
               r1[i].stamp.Some?
               && (if r1[i].key == ConversationKey(m.conversation)
                   then Dates(messages + {m}, r1[i].key, r1[i].stamp.value)
                   else Dates(messages, r1[i].key, r1[i].stamp.value))
    ensures var r2 := MergeOne(r1, Reference(MessageKey(m.source), Some(m.occurredAt)));
            && UniqueKeys(r2)
            && (forall i :: 0 <= i < |r2| ==>
                  r2[i].stamp.Some? && Dates(messages + {m}, r2[i].key, r2[i].stamp.value))
            && HasKey(r2, MessageKey(m.source))
            && (forall k :: HasKey(r1, k) ==> HasKey(r2, k))
  {
    var second := MessageKey(m.source);
    forall i | 0 <= i < |r1| && r1[i].key != second
      ensures Dates(messages + {m}, r1[i].key, r1[i].stamp.value)
    {
      if !Concerns(m, r1[i].key) {
        DatesElsewhere(messages, m, r1[i].key, r1[i].stamp.value);
      }
    }
    forall o | o in messages && Concerns(o, second)
      ensures HasKey(r1, second)
    {
      assert HasKey(references, second);
    }
    MergeReflects(r1, messages, m, second, messages + {m});
  }

  lemma MergeTwo(references: seq<Reference>, before: seq<Reference>, a: Reference, b: Reference)
    ensures MergeAll(references, before + [a, b]) == MergeOne(MergeOne(MergeAll(references, before), a), b)
  {
    var all := before + [a, b];
    assert all[..|all| - 1] == before + [a];
    assert (before + [a])[..|before|] == before;
  }

  lemma MergeNext(references: seq<Reference>, messages: set<Message>, before: seq<Reference>, m: Message)
    requires RefersTo(MergeAll(references, before), messages)
    ensures RefersTo(MergeAll(references, before + [Reference(ConversationKey(m.conversation), Some(m.occurredAt)),
                                                    Reference(MessageKey(m.source), Some(m.occurredAt))]),
                     messages + {m})
  {
    MergeMessage(MergeAll(references, before), messages, m);
    MergeTwo(references, before, Reference(ConversationKey(m.conversation), Some(m.occurredAt)),
             Reference(MessageKey(m.source), Some(m.occurredAt)));
  }

  lemma ElementsSnoc(additions: seq<Message>)
    requires additions != []
    ensures Elements(additions[..|additions| - 1]) + {additions[|additions| - 1]} == Elements(additions)
  {
    assert additions == additions[..|additions| - 1] + [additions[|additions| - 1]];
  }

  lemma {:induction false} MergeMessages(references: seq<Reference>, messages: set<Message>, additions: seq<Message>)
    requires RefersTo(references, messages)
    ensures RefersTo(MergeAll(references, ReferencesOf(additions)), messages + Elements(additions))
  {
    if additions == [] {
      assert messages + Elements(additions) == messages;
    } else {
      var n := |additions| - 1;
      MergeMessages(references, messages, additions[..n]);
      MergeNext(references, messages + Elements(additions[..n]), ReferencesOf(additions[..n]), additions[n]);
      ElementsSnoc(additions);
      assert messages + Elements(additions[..n]) + {additions[n]} == messages + Elements(additions);
    }
  }

  lemma {:induction false} NewestStoredBounds(references: seq<Reference>)
    ensures var n := NewestStored(references);
            && (forall i :: 0 <= i < |references| && references[i].key.MessageKey? && references[i].stamp.Some? ==>
                  n.Some? && references[i].stamp.value <= n.value)
            && (n.Some? ==> exists i :: 0 <= i < |references| && references[i].key.MessageKey? && references[i].stamp == n)
  {
    if references != [] {
      NewestStoredBounds(references[..|references| - 1]);
      var n := NewestStored(references[..|references| - 1]);
      if n.Some? {
        var i :| 0 <= i < |references| - 1 && references[..|references| - 1][i].key.MessageKey?
                 && references[..|references| - 1][i].stamp == n;
        assert references[i].stamp == n;
      }
    }
  }

  lemma DatesAtMost(messages: set<Message>, key: Key, t: int, m: Message)
    requires Dates(messages, key, t) && Newest(m, messages)
    ensures t <= m.occurredAt
    ensures Concerns(m, key) ==> t == m.occurredAt
  {
  }

  lemma StampAt(references: seq<Reference>, messages: set<Message>, key: Key) returns (i: nat)
    requires RefersTo(references, messages) && HasKey(references, key)
    ensures i < |references| && references[i].key == key
    ensures references[i].stamp.Some? && Dates(messages, key, references[i].stamp.value)
  {
    i :| 0 <= i < |references| && references[i].key == key;
  }

  /** The stored message references reveal the newest source time absorbed so far. */
  lemma NewestStoredIsNewest(references: seq<Reference>, messages: set<Message>, m: Message)
    requires RefersTo(references, messages) && Newest(m, messages)
    ensures NewestStored(references) == Some(m.occurredAt)
  {
    NewestStoredBounds(references);
    assert Concerns(m, MessageKey(m.source));
    var i := StampAt(references, messages, MessageKey(m.source));
    DatesAtMost(messages, MessageKey(m.source), references[i].stamp.value, m);
    var n := NewestStored(references);
    var k :| 0 <= k < |references| && references[k].key.MessageKey? && references[k].stamp == n;
    DatesAtMost(messages, references[k].key, n.value, m);
  }

  // One group

  lemma {:induction false} UnseenAre(group: seq<Message>, events: seq<nat>)
    ensures forall m :: m in Unseen(group, events) <==> m in group && m.event !in events
    ensures Distinct(group) ==> Distinct(Unseen(group, events))
  {
    if group != [] {
      var n := |group| - 1;
      UnseenAre(group[..n], events);
      assert group == group[..n] + [group[n]];
      if Distinct(group) {
        var rest := Unseen(group[..n], events);
        assert forall i :: 0 <= i < |rest| ==> rest[i] in group[..n];
      }
    }
  }

  lemma {:induction false} NoneUnseen(group: seq<Message>, events: seq<nat>)
    requires forall m :: m in group ==> m.event in events
    ensures Unseen(group, events) == []
  {
    if group != [] {
      assert group[|group| - 1] in group;
      NoneUnseen(group[..|group| - 1], events);
    }
  }

  lemma {:induction false} EarliestBounds(messages: seq<Message>, start: int)
    ensures var e := Earliest(messages, start);
            && e <= start
            && (forall m :: m in messages ==> e <= m.occurredAt)
  {
    if messages != [] {
      EarliestBounds(messages[..|messages| - 1], start);
      assert messages == messages[..|messages| - 1] + [messages[|messages| - 1]];
    }
  }

  lemma {:induction false} LastReceivedBounds(messages: seq<Message>, start: int)
    ensures var l := LastReceived(messages, start);
            && start <= l
            && (forall m :: m in messages ==> m.receivedAt <= l)
            && (l == start || exists m :: m in messages && m.receivedAt == l)
  {
    if messages != [] {
      var n := |messages| - 1;
      LastReceivedBounds(messages[..n], start);
      assert messages == messages[..n] + [messages[n]];
      var before := LastReceived(messages[..n], start);
      if before != start {
        var m :| m in messages[..n] && m.receivedAt == before;
        assert m in messages;
      }
      assert messages[n] in messages;
    }
  }

  lemma {:induction false} DistinctByMultiset(a: seq<Message>, b: seq<Message>)
    requires multiset(a) == multiset(b) && Distinct(a)
    ensures Distinct(b)
  {
    forall i, j | 0 <= i < j < |b|
      ensures b[i] != b[j]
    {
      if b[i] == b[j] {
        TwiceIn(b, i, j);
        CountedOnce(a, b[i]);
      }
    }
  }

  lemma {:induction false} CountedOnce(a: seq<Message>, x: Message)
    requires Distinct(a)
    ensures multiset(a)[x] <= 1
  {
    if a != [] {
      var n := |a| - 1;
      CountedOnce(a[..n], x);
      assert a == a[..n] + [a[n]];
      if a[n] == x {
        assert x !in a[..n];
      }
    }
  }

  lemma EventsAppend(events: seq<nat>, messages: set<Message>, additions: seq<Message>)
    requires EventsAre(events, messages)
    requires Distinct(additions)
    requires UniqueEvents(messages + Elements(additions))
    requires forall m :: m in additions ==> m.event !in events
    ensures EventsAre(events + EventsOf(additions), messages + Elements(additions))
  {
    var added := EventsOf(additions);
    var all := events + added;
    forall i, j | 0 <= i < j < |all|
      ensures all[i] != all[j]
    {
      if |events| <= i {
        var a, b := additions[i - |events|], additions[j - |events|];
        assert a in Elements(additions) && b in Elements(additions);
      } else if |events| <= j {
        assert additions[j - |events|] in additions;
      }
    }
    forall m | m in messages + Elements(additions)
      ensures m.event in all
    {
      if m in additions {
        var i :| 0 <= i < |additions| && additions[i] == m;
        assert all[|events| + i] == m.event;
      }
    }
    forall e | e in all
      ensures exists m :: m in messages + Elements(additions) && m.event == e
    {
      if e in events {
        var m :| m in messages && m.event == e;
        assert m in messages + Elements(additions);
      } else {
        var i :| 0 <= i < |added| && added[i] == e;
        assert additions[i] in messages + Elements(additions);
      }
    }
  }

  lemma ReceiptAppend(t: int, messages: set<Message>, additions: seq<Message>, start: int)
    requires if messages == {} then (forall m :: m in additions ==> start <= m.receivedAt) else LastReceipt(start, messages)
    requires additions != []
    requires t == LastReceived(additions, start)
    ensures LastReceipt(t, messages + Elements(additions))
  {
    LastReceivedBounds(additions, start);
    var all := messages + Elements(additions);
    assert additions[0] in Elements(additions);
    if t == start {
      if messages == {} {
        assert additions[0].receivedAt == t;
      } else {
        var m :| m in messages && m.receivedAt == t;
        assert m in all;
      }
    } else {
      var m :| m in additions && m.receivedAt == t;
      assert m in all;
    }
  }

  ghost predicate AllIn(messages: set<Message>, conversation: nat)
  {
    forall m :: m in messages ==> m.conversation == conversation
  }

  lemma KnownIsSeen(m: Message, known: seq<nat>, here: set<Message>, c: nat)
    requires EventsAre(known, here) && AllIn(here, c) && m.conversation == c
    ensures m.event in known <==> SeenBefore(m, here)
  {
  }

  lemma NewestOfUnion(messages: set<Message>, additions: seq<Message>, latest: Message, shown: Message)
    requires latest in additions && forall m :: m in additions ==> m.occurredAt <= latest.occurredAt
    requires messages != {} ==> Newest(shown, messages)
    ensures var all := messages + Elements(additions);
            if messages == {} || latest.occurredAt >= shown.occurredAt then Newest(latest, all) else Newest(shown, all)
  {
  }

  /** What is shown after the additions is what some newest message of the union asks for. */
  lemma ShowsNewest(
    stored: seq<Reference>, workItem: Option<WorkItem>, messages: set<Message>, additions: seq<Message>, latest: Message)
    requires latest in additions && forall m :: m in additions ==> m.occurredAt <= latest.occurredAt
    requires RefersTo(stored, messages)
    requires (messages == {}) == workItem.None?
    requires workItem.Some? ==> ShowsANewest(workItem.value.shown, messages)
    ensures var newest := NewestStored(stored);
            var advances := workItem.None? || newest.None? || latest.occurredAt >= newest.value;
            var shown := if advances then Shown(latest) else workItem.value.shown;
            ShowsANewest(shown, messages + Elements(additions))
  {
    if messages == {} {
      NewestOfUnion(messages, additions, latest, latest);
    } else {
      var shown :| Newest(shown, messages) && Presents(workItem.value.shown, shown);
      NewestStoredIsNewest(stored, messages, shown);
      NewestOfUnion(messages, additions, latest, shown);
    }
  }

  lemma TimesGrow(
    thread: Option<Thread>, messages: set<Message>, additions: seq<Message>, first: int)
    requires additions != [] && Observed(messages + Elements(additions))
    requires (messages == {}) == thread.None?
    requires thread.Some? ==> LastReceipt(thread.value.updatedAt, messages) && thread.value.createdAt <= thread.value.updatedAt
    ensures var createdAt := if thread.Some? then thread.value.createdAt else Earliest(additions, first);
            var start := if thread.Some? then thread.value.updatedAt else createdAt;
            var updatedAt := LastReceived(additions, start);
            && createdAt <= updatedAt && start <= updatedAt
            && LastReceipt(updatedAt, messages + Elements(additions))
  {
    EarliestBounds(additions, first);
    var createdAt := if thread.Some? then thread.value.createdAt else Earliest(additions, first);
    var start := if thread.Some? then thread.value.updatedAt else createdAt;
    LastReceivedBounds(additions, start);
    forall m | m in additions
      ensures m.occurredAt <= m.receivedAt
    {
      assert m in messages + Elements(additions);
    }
    ReceiptAppend(LastReceived(additions, start), messages, additions, start);
  }

  lemma NotEmpty(references: seq<Reference>, messages: set<Message>, additions: seq<Message>)
    requires additions != [] && RefersTo(references, messages + Elements(additions))
    ensures references != []
  {
    assert Concerns(additions[0], MessageKey(additions[0].source)) && additions[0] in messages + Elements(additions);
    assert HasKey(references, MessageKey(additions[0].source));
  }

  lemma AssembleRecords(
    conversation: nat, first: Message, thread: Option<Thread>, workItem: Option<WorkItem>,
    messages: set<Message>, additions: seq<Message>)
    requires additions != [] && Distinct(additions)
    requires forall m :: m in additions ==> m.event !in (if thread.Some? then thread.value.events else [])
    requires UniqueEvents(messages + Elements(additions)) && Observed(messages + Elements(additions))
    requires if messages == {} then thread.None? && workItem.None?
             else thread.Some? && workItem.Some? && Records(thread.value, workItem.value, conversation, messages)
    ensures var s := Assemble(conversation, first, thread, workItem, additions);
            && Records(s.thread, s.workItem, conversation, messages + Elements(additions))
            && Parses(s.thread, s.workItem)
  {
    var known := if thread.Some? then thread.value.events else [];
    var stored := if thread.Some? then thread.value.references else [];
    HeadIsNewest(additions);
    assert RefersTo(stored, messages) && EventsAre(known, messages);
    MergeMessages(stored, messages, additions);
    EventsAppend(known, messages, additions);
    TimesGrow(thread, messages, additions, first.occurredAt);
    NotEmpty(MergeAll(stored, ReferencesOf(additions)), messages, additions);
    assert EventsOf(additions)[0] == additions[0].event;
  }

  lemma AssembleReflects(
    conversation: nat, first: Message, thread: Option<Thread>, workItem: Option<WorkItem>,
    messages: set<Message>, additions: seq<Message>)
    requires additions != [] && Distinct(additions)
    requires forall m :: m in additions ==> m.event !in (if thread.Some? then thread.value.events else [])
    requires UniqueEvents(messages + Elements(additions)) && Observed(messages + Elements(additions))
    requires if messages == {} then thread.None? && workItem.None?
             else thread.Some? && workItem.Some? && Reflects(thread.value, workItem.value, conversation, messages)
    ensures var s := Assemble(conversation, first, thread, workItem, additions);
            && Reflects(s.thread, s.workItem, conversation, messages + Elements(additions))
            && Parses(s.thread, s.workItem)
  {
    AssembleRecords(conversation, first, thread, workItem, messages, additions);
    HeadIsNewest(additions);
    var stored := if thread.Some? then thread.value.references else [];
    ShowsNewest(stored, workItem, messages, additions, Sort(additions, Later)[0]);
  }

  ghost predicate Follows(thread: Option<Thread>, workItem: Option<WorkItem>, conversation: nat, messages: set<Message>)
  {
    if messages == {} then thread.None? && workItem.None?
    else thread.Some? && workItem.Some? && Reflects(thread.value, workItem.value, conversation, messages)
  }

  function Known(thread: Option<Thread>): seq<nat>
  {
    if thread.Some? then thread.value.events else []
  }

  lemma AdditionsAre(group: seq<Message>, known: seq<nat>, here: set<Message>, c: nat)
    requires Distinct(group) && AllIn(here, c) && AllIn(Elements(group), c) && EventsAre(known, here)
    ensures var additions := Sort(Unseen(group, known), Earlier);
            && Distinct(additions)
            && Elements(additions) == New(Elements(group), here)
            && forall m :: m in additions ==> m.event !in known
  {
    UnseenAre(group, known);
    SortKeeps(Unseen(group, known), Earlier);
    DistinctByMultiset(Unseen(group, known), Sort(Unseen(group, known), Earlier));
    forall m | m in group
      ensures m.event in known <==> SeenBefore(m, here)
    {
      assert m in Elements(group);
      KnownIsSeen(m, known, here, c);
    }
  }

  lemma NewIsUnique(messages: set<Message>, here: set<Message>, c: nat)
    requires UniqueEvents(here) && UniqueEvents(messages) && AllIn(here, c) && AllIn(messages, c)
    ensures UniqueEvents(here + New(messages, here))
  {
    forall m, o | m in here + New(messages, here) && o in here + New(messages, here) && m.event == o.event
      ensures m == o
    {
      assert o in here ==> SeenBefore(m, here);
      assert m in here ==> SeenBefore(o, here);
    }
  }

  predicate Matches(thread: Option<Thread>, workItem: Option<WorkItem>, conversation: nat)
  {
    (thread.Some? <==> workItem.Some?) && (workItem.Some? ==> workItem.value.conversation == conversation)
  }

  /** A projection of additions that fit together with what is stored. */
  lemma ProjectAdds(
    conversation: nat, group: seq<Message>, thread: Option<Thread>, workItem: Option<WorkItem>, additions: seq<Message>)
    requires group != [] && Matches(thread, workItem, conversation)
    requires Sort(Unseen(group, Known(thread)), Earlier) == additions
    ensures additions == [] ==> Project(conversation, group, thread, workItem) == Ok(None)
    ensures additions != [] ==>
              var stored := Assemble(conversation, group[0], thread, workItem, additions);
              Parses(stored.thread, stored.workItem) ==> Project(conversation, group, thread, workItem) == Ok(Some(stored))
  {
  }

  /** Projecting one group: nothing when all is known, otherwise exactly what the new messages add. */
  lemma ProjectReflects(
    conversation: nat, group: seq<Message>, thread: Option<Thread>, workItem: Option<WorkItem>, here: set<Message>)
    requires group != [] && Distinct(group) && UniqueEvents(Elements(group)) && Observed(Elements(group))
    requires UniqueEvents(here) && Observed(here) && AllIn(here, conversation) && AllIn(Elements(group), conversation)
    requires Follows(thread, workItem, conversation, here)
    ensures var r := Project(conversation, group, thread, workItem);
            var added := New(Elements(group), here);
            && r.Ok?
            && (r.value.None? <==> added == {})
            && (r.value.Some? ==> Reflects(r.value.value.thread, r.value.value.workItem, conversation, here + added))
  {
    assert EventsAre(Known(thread), here);
    AdditionsAre(group, Known(thread), here, conversation);
    NewIsUnique(Elements(group), here, conversation);
    var additions := Sort(Unseen(group, Known(thread)), Earlier);
    if additions == [] {
      assert Elements(additions) == {};
      ProjectAdds(conversation, group, thread, workItem, additions);
    } else {
      assert additions[0] in Elements(additions);
      NewReflects(conversation, group, thread, workItem, here, additions);
    }
  }

  lemma NewReflects(
    conversation: nat, group: seq<Message>, thread: Option<Thread>, workItem: Option<WorkItem>,
    messages: set<Message>, additions: seq<Message>)
    requires group != [] && additions != [] && Distinct(additions)
    requires Sort(Unseen(group, Known(thread)), Earlier) == additions
    requires forall m :: m in additions ==> m.event !in Known(thread)
    requires UniqueEvents(messages + Elements(additions)) && Observed(messages + Elements(additions))
    requires Follows(thread, workItem, conversation, messages)
    ensures var r := Project(conversation, group, thread, workItem);
            r.Ok? && r.value.Some?
            && Reflects(r.value.value.thread, r.value.value.workItem, conversation, messages + Elements(additions))
  {
    ProjectAdds(conversation, group, thread, workItem, additions);
    AssembleReflects(conversation, group[0], thread, workItem, messages, additions);
  }

  // A batch

  function In(messages: set<Message>, conversation: nat): set<Message>
  {
    set m | m in messages && m.conversation == conversation
  }

  lemma {:induction false} GroupHolds(batch: seq<Message>, c: nat)
    ensures forall m :: m in GroupOf(batch, c) <==> m in batch && m.conversation == c
    ensures Distinct(batch) ==> Distinct(GroupOf(batch, c))
  {
    if batch != [] {
      var n := |batch| - 1;
      GroupHolds(batch[..n], c);
      assert batch == batch[..n] + [batch[n]];
      if Distinct(batch) {
        assert batch[n] !in batch[..n];
      }
    }
  }

  lemma {:induction false} GroupIs(batch: seq<Message>, c: nat)
    ensures forall m :: m in GroupOf(batch, c) <==> m in batch && m.conversation == c
    ensures Distinct(batch) ==> Distinct(GroupOf(batch, c))
    ensures c in Conversations(batch) <==> GroupOf(batch, c) != []
    ensures Distinct(Conversations(batch))
  {
    GroupHolds(batch, c);
    if batch != [] {
      var n := |batch| - 1;
      GroupIs(batch[..n], c);
      GroupIs(batch[..n], batch[n].conversation);
    }
  }

  function Outcome(batch: seq<Message>, conversations: seq<nat>, store: Store, c: nat): Option<Stored>
  {
    if c in conversations && ProjectConversation(batch, c, store).Ok?
    then ProjectConversation(batch, c, store).value
    else None
  }

  lemma SavedOne(store: Store, before: seq<Projected>, p: Projected, c: nat)
    ensures var saved, earlier := Save(store, before + [p]), Save(store, before);
            && Lookup(saved.threads, c) == (if c == p.conversation then Some(p.stored.thread) else Lookup(earlier.threads, c))
            && Lookup(saved.workItems, c) == (if c == p.conversation then Some(p.stored.workItem) else Lookup(earlier.workItems, c))
  {
    assert (before + [p])[..|before|] == before;
  }

  /** What is stored for c after these conversations were projected and saved. */
  ghost predicate SavedAs(batch: seq<Message>, conversations: seq<nat>, store: Store, c: nat)
  {
    var r := ProjectAll(batch, conversations, store);
    var x := Outcome(batch, conversations, store, c);
    r.Ok? &&
    var saved := Save(store, r.value);
    && Lookup(saved.threads, c) == (if x.Some? then Some(x.value.thread) else Lookup(store.threads, c))
    && Lookup(saved.workItems, c) == (if x.Some? then Some(x.value.workItem) else Lookup(store.workItems, c))
  }

  lemma OutcomeNext(batch: seq<Message>, conversations: seq<nat>, store: Store, c: nat)
    requires conversations != [] && Distinct(conversations)
    ensures var n := |conversations| - 1;
            Outcome(batch, conversations, store, c) ==
            if c == conversations[n] then Outcome(batch, [c], store, c) else Outcome(batch, conversations[..n], store, c)
    ensures Outcome(batch, conversations[..|conversations| - 1], store, conversations[|conversations| - 1]) == None
  {
    var n := |conversations| - 1;
    assert conversations == conversations[..n] + [conversations[n]];
  }

  lemma SavedNext(batch: seq<Message>, conversations: seq<nat>, store: Store, c: nat, before: seq<Projected>)
    requires conversations != [] && Distinct(conversations)
    requires ProjectConversation(batch, conversations[|conversations| - 1], store).Ok?
    requires ProjectAll(batch, conversations[..|conversations| - 1], store) == Ok(before)
    requires SavedAs(batch, conversations[..|conversations| - 1], store, c)
    ensures SavedAs(batch, conversations, store, c)
  {
    var n := |conversations| - 1;
    var d := conversations[n];
    var x := ProjectConversation(batch, d, store).value;
    var all := if x.Some? then before + [Projected(d, x.value)] else before;
    assert ProjectAll(batch, conversations, store) == Ok(all);
    if x.Some? {
      SavedOne(store, before, Projected(d, x.value), c);
    }
    OutcomeNext(batch, conversations, store, c);
  }

  /** Saving the projections of a batch changes each conversation by its own projection only. */
  lemma {:induction false} SavedAt(batch: seq<Message>, conversations: seq<nat>, store: Store, c: nat)
    requires Distinct(conversations)
    requires forall d :: d in conversations ==> ProjectConversation(batch, d, store).Ok?
    ensures SavedAs(batch, conversations, store, c)
  {
    if conversations != [] {
      var n := |conversations| - 1;
      var d := conversations[n];
      SavedAt(batch, conversations[..n], store, c);
      var before := ProjectAll(batch, conversations[..n], store).value;
      SavedNext(batch, conversations, store, c, before);
    }
  }

  lemma ConversationReflects(store: Store, c: nat, batch: seq<Message>, messages: set<Message>)
    requires Acceptable(batch) && OnePerEvent(messages) && Observed(messages)
    requires StoreReflects(store, c, In(messages, c))
    ensures ProjectConversation(batch, c, store).Ok?
    ensures var x := ProjectConversation(batch, c, store).value;
            var all := In(Absorbed(messages, batch), c);
            if x.Some? then all != {} && Reflects(x.value.thread, x.value.workItem, c, all)
            else all == In(messages, c)
  {
    GroupAdds(c, batch, messages);
    var group := GroupOf(batch, c);
    var here := In(messages, c);
    if group == [] {
      assert Elements(group) == {} && New(Elements(group), here) == {};
    } else {
      ProjectReflects(c, group, Lookup(store.threads, c), Lookup(store.workItems, c), here);
      if New(Elements(group), here) != {} {
        var m :| m in New(Elements(group), here);
        assert m in In(Absorbed(messages, batch), c);
      }
    }
  }

  lemma GroupAdds(c: nat, batch: seq<Message>, messages: set<Message>)
    requires Acceptable(batch) && OnePerEvent(messages)
    ensures var group := GroupOf(batch, c);
            var here := In(messages, c);
            && Distinct(group) && UniqueEvents(Elements(group)) && Observed(Elements(group)) && AllIn(Elements(group), c)
            && UniqueEvents(here) && AllIn(here, c)
            && here + New(Elements(group), here) == In(Absorbed(messages, batch), c)
  {
    GroupIs(batch, c);
    var group, here := GroupOf(batch, c), In(messages, c);
    assert forall m :: m in Elements(group) <==> m in Elements(batch) && m.conversation == c;
    forall m: Message | m.conversation == c
      ensures SeenBefore(m, here) <==> SeenBefore(m, messages)
    {
      SeenHere(m, messages);
    }
    forall m: Message
      ensures m in here + New(Elements(group), here) <==> m in In(Absorbed(messages, batch), c)
    {
    }
  }

  lemma SeenHere(m: Message, messages: set<Message>)
    ensures SeenBefore(m, In(messages, m.conversation)) <==> SeenBefore(m, messages)
  {
    if SeenBefore(m, messages) {
      var d :| d in messages && d.event == m.event && d.conversation == m.conversation;
      assert d in In(messages, m.conversation);
    }
  }

  /** A batch of normalized messages: no event twice, none observed before it happened. */
  ghost predicate Acceptable(batch: seq<Message>)
  {
    Distinct(batch) && UniqueEvents(Elements(batch)) && Observed(Elements(batch))
  }

  /** What the store has absorbed after one more batch. */
  ghost function Absorbed(messages: set<Message>, batch: seq<Message>): set<Message>
  {
    messages + New(Elements(batch), messages)
  }

  ghost predicate OnePerEvent(messages: set<Message>)
  {
    forall m, o :: m in messages && o in messages && m.event == o.event && m.conversation == o.conversation ==> m == o
  }

  lemma AbsorbedIsFit(messages: set<Message>, batch: seq<Message>)
    requires Acceptable(batch) && OnePerEvent(messages) && Observed(messages)
    ensures OnePerEvent(Absorbed(messages, batch)) && Observed(Absorbed(messages, batch))
  {
    var all := Absorbed(messages, batch);
    forall m, o | m in all && o in all && m.event == o.event && m.conversation == o.conversation
      ensures m == o
    {
      assert o in messages ==> SeenBefore(m, messages);
      assert m in messages ==> SeenBefore(o, messages);
    }
  }

  ghost predicate AllReflect(store: Store, messages: set<Message>)
  {
    forall c: nat :: StoreReflects(store, c, In(messages, c))
  }

  lemma DeliveredAt(store: Store, batch: seq<Message>, messages: set<Message>, c: nat)
    requires Acceptable(batch) && OnePerEvent(messages) && Observed(messages)
    requires StoreReflects(store, c, In(messages, c))
    requires SavedAs(batch, Conversations(batch), store, c)
    ensures StoreReflects(Deliver(store, batch), c, In(Absorbed(messages, batch), c))
  {
    ConversationReflects(store, c, batch, messages);
    GroupIs(batch, c);
    var x := Outcome(batch, Conversations(batch), store, c);
    var after := Deliver(store, batch);
    if x.Some? {
      assert Lookup(after.threads, c) == Some(x.value.thread);
    } else {
      assert Lookup(after.threads, c) == Lookup(store.threads, c);
      assert Lookup(after.workItems, c) == Lookup(store.workItems, c);
    }
  }

  /** One batch: it is accepted, and the store then reflects what was absorbed and what is new in it. */
  lemma DeliverReflects(store: Store, batch: seq<Message>, messages: set<Message>)
    requires Acceptable(batch) && OnePerEvent(messages) && Observed(messages)
    requires AllReflect(store, messages)
    ensures ProjectAll(batch, Conversations(batch), store).Ok?
    ensures AllReflect(Deliver(store, batch), Absorbed(messages, batch))
  {
    var conversations := Conversations(batch);
    forall c: nat
      ensures ProjectConversation(batch, c, store).Ok?
    {
      assert StoreReflects(store, c, In(messages, c));
      ConversationReflects(store, c, batch, messages);
    }
    GroupIs(batch, 0);
    SavedAt(batch, conversations, store, 0);
    forall c: nat
      ensures StoreReflects(Deliver(store, batch), c, In(Absorbed(messages, batch), c))
    {
      assert StoreReflects(store, c, In(messages, c));
      SavedAt(batch, conversations, store, c);
      DeliveredAt(store, batch, messages, c);
    }
  }

  /** Any batches that the normalizer and the domain parser let through; nothing is asked across batches. */
  ghost predicate AllAcceptable(batches: seq<seq<Message>>)
  {
    forall i :: 0 <= i < |batches| ==> Acceptable(batches[i])
  }

  function Delivered(batches: seq<seq<Message>>): set<Message>
  {
    if batches == [] then {} else Delivered(batches[..|batches| - 1]) + Elements(batches[|batches| - 1])
  }

  /** The first delivery of each event in its conversation. */
  ghost function FirstSeen(batches: seq<seq<Message>>): set<Message>
  {
    if batches == [] then {} else Absorbed(FirstSeen(batches[..|batches| - 1]), batches[|batches| - 1])
  }

  lemma {:induction false} FirstSeenIsFit(batches: seq<seq<Message>>)
    requires AllAcceptable(batches)
    ensures OnePerEvent(FirstSeen(batches)) && Observed(FirstSeen(batches))
    ensures FirstSeen(batches) <= Delivered(batches)
    ensures forall m :: SeenBefore(m, FirstSeen(batches)) <==> SeenBefore(m, Delivered(batches))
  {
    if batches != [] {
      var rest, last := batches[..|batches| - 1], batches[|batches| - 1];
      FirstSeenIsFit(rest);
      AbsorbedIsFit(FirstSeen(rest), last);
      forall m
        ensures SeenBefore(m, FirstSeen(batches)) <==> SeenBefore(m, Delivered(batches))
      {
        SeenInBoth(m, FirstSeen(rest), Delivered(rest), last);
      }
    }
  }

  lemma SeenInBoth(m: Message, first: set<Message>, delivered: set<Message>, last: seq<Message>)
    requires SeenBefore(m, first) <==> SeenBefore(m, delivered)
    requires first <= delivered
    ensures SeenBefore(m, Absorbed(first, last)) <==> SeenBefore(m, delivered + Elements(last))
  {
    if SeenBefore(m, first) {
      var d :| d in first && d.event == m.event && d.conversation == m.conversation;
      assert d in Absorbed(first, last) && d in delivered + Elements(last);
    } else if d :| d in delivered + Elements(last) && d.event == m.event && d.conversation == m.conversation {
      assert d in Elements(last) && !SeenBefore(d, first);
      assert d in Absorbed(first, last);
    }
  }

  const EMPTY: Store := Store(map[], map[])

  /**
   After any deliveries, every conversation shows exactly the first deliveries of its events: the events once
   each, the references with the newest times, the last receipt time, and the presentation of a newest
   message. Events that come again, in the same batch as new ones or not, change nothing.
   */
  lemma {:induction false} DeliveriesReflect(batches: seq<seq<Message>>)
    requires AllAcceptable(batches)
    ensures AllReflect(DeliverAll(EMPTY, batches), FirstSeen(batches))
  {
    if batches != [] {
      var n := |batches| - 1;
      DeliveriesReflect(batches[..n]);
      FirstSeenIsFit(batches[..n]);
      DeliverReflects(DeliverAll(EMPTY, batches[..n]), batches[n], FirstSeen(batches[..n]));
    }
  }

  /**
   Delivering again what was delivered before projects nothing and stores nothing, whatever the order, the
   grouping, the repetition, the contents and the new observation times.
   */
  lemma ReplayIsSilent(batches: seq<seq<Message>>, again: seq<Message>)
    requires AllAcceptable(batches)
    requires forall m :: m in again ==> SeenBefore(m, Delivered(batches))
    ensures ProjectAll(again, Conversations(again), DeliverAll(EMPTY, batches)) == Ok([])
    ensures Deliver(DeliverAll(EMPTY, batches), again) == DeliverAll(EMPTY, batches)
  {
    var store := DeliverAll(EMPTY, batches);
    DeliveriesReflect(batches);
    FirstSeenIsFit(batches);
    forall c: nat
      ensures ProjectConversation(again, c, store) == Ok(None)
    {
      var group := GroupOf(again, c);
      GroupIs(again, c);
      if group != [] {
        ReplayedGroup(store, c, group, FirstSeen(batches));
      }
    }
    AllSilent(again, Conversations(again), store);
  }

  lemma ReplayedGroup(store: Store, c: nat, group: seq<Message>, messages: set<Message>)
    requires group != [] && StoreReflects(store, c, In(messages, c))
    requires forall m :: m in group ==> m.conversation == c && SeenBefore(m, messages)
    ensures Project(c, group, Lookup(store.threads, c), Lookup(store.workItems, c)) == Ok(None)
  {
    forall m | m in group
      ensures exists d :: d in In(messages, c) && d.event == m.event
    {
      var d :| d in messages && d.event == m.event && d.conversation == m.conversation;
      assert d in In(messages, c);
    }
    assert group[0] in group;
    NoneUnseen(group, store.threads[c].events);
  }

  lemma {:induction false} AllSilent(batch: seq<Message>, conversations: seq<nat>, store: Store)
    requires forall c: nat :: ProjectConversation(batch, c, store) == Ok(None)
    ensures ProjectAll(batch, conversations, store) == Ok([])
  {
    if conversations != [] {
      AllSilent(batch, conversations[..|conversations| - 1], store);
    }
  }

  // Convergence

  ghost predicate SameContents(a: Stored, b: Stored)
  {
    && (forall e :: e in a.thread.events <==> e in b.thread.events)
    && |a.thread.events| == |b.thread.events|
    && (forall r :: r in a.thread.references <==> r in b.thread.references)
    && |a.thread.references| == |b.thread.references|
  }

  /** Both are deleted, both wait for a reply or both for a review, and the texts are the same. */
  predicate PresentAlike(m: Message, o: Message)
  {
    m.summary == o.summary && m.deleted == o.deleted && (m.deleted || m.requiresReply == o.requiresReply)
  }

  lemma AlikeAsks(m: Message, o: Message)
    ensures PresentAlike(m, o) <==> Shown(m) == Shown(o)
  {
  }

  /** Messages tied for the newest source time ask for the same presentation. */
  ghost predicate TiesAgree(messages: set<Message>)
  {
    forall m, o :: Newest(m, messages) && Newest(o, messages) ==> PresentAlike(m, o)
  }

  lemma {:induction false} SameSizeBySet<T>(a: seq<T>, b: seq<T>)
    requires Distinct(a) && Distinct(b)
    requires forall x :: x in a <==> x in b
    ensures |a| == |b|
  {
    var s := set x | x in a;
    assert s == set x | x in b;
    SizeOfDistinct(a);
    SizeOfDistinct(b);
  }

  lemma {:induction false} SizeOfDistinct<T>(a: seq<T>)
    requires Distinct(a)
    ensures |set x | x in a| == |a|
  {
    if a != [] {
      var n := |a| - 1;
      SizeOfDistinct(a[..n]);
      assert a == a[..n] + [a[n]];
      assert (set x | x in a) == (set x | x in a[..n]) + {a[n]};
      assert a[n] !in a[..n];
    }
  }

  lemma ReferenceDetermined(a: seq<Reference>, b: seq<Reference>, first: set<Message>, second: set<Message>, r: Reference)
    requires RefersTo(a, first) && RefersTo(b, second) && Copied(first, second) && Copied(second, first) && r in a
    ensures r in b
  {
    var i :| 0 <= i < |a| && a[i] == r;
    DatesCarry(first, second, r.key, r.stamp.value);
    var m :| m in second && Concerns(m, r.key) && m.occurredAt == r.stamp.value;
    assert HasKey(b, r.key);
    var j := StampAt(b, second, r.key);
    assert b[j].stamp == r.stamp;
    assert b[j] == r;
  }

  /** The same state of the same message, however often and with what contents it was delivered. */
  predicate SameState(m: Message, o: Message)
  {
    m.event == o.event && m.conversation == o.conversation && m.source == o.source && m.occurredAt == o.occurredAt
  }

  ghost predicate HasCopy(m: Message, messages: set<Message>)
  {
    exists o :: o in messages && SameState(m, o)
  }

  ghost predicate Copied(first: set<Message>, second: set<Message>)
  {
    forall m {:trigger HasCopy(m, second)} :: m in first ==> HasCopy(m, second)
  }

  lemma CopyOf(first: set<Message>, second: set<Message>, m: Message) returns (o: Message)
    requires Copied(first, second) && m in first
    ensures o in second && SameState(m, o)
  {
    assert HasCopy(m, second);
    o :| o in second && SameState(m, o);
  }

  lemma DatesCarry(first: set<Message>, second: set<Message>, key: Key, t: int)
    requires Copied(first, second) && Copied(second, first) && Dates(first, key, t)
    ensures Dates(second, key, t)
  {
    var m :| m in first && Concerns(m, key) && m.occurredAt == t;
    var o := CopyOf(first, second, m);
    assert Concerns(o, key) && o.occurredAt == t;
    forall n | n in second && Concerns(n, key)
      ensures n.occurredAt <= t
    {
      var k := CopyOf(second, first, n);
      assert Concerns(k, key);
    }
  }

  /** A newest message of one set is tied with those of the other. */
  lemma NewestCarries(first: set<Message>, second: set<Message>, m: Message, all: set<Message>)
    requires Copied(all, first) && first <= all && Newest(m, first)
    ensures Newest(m, all)
  {
    forall o | o in all
      ensures o.occurredAt <= m.occurredAt
    {
      var k := CopyOf(all, first, o);
    }
  }

  lemma UniqueKeysDistinct(a: seq<Reference>)
    requires UniqueKeys(a)
    ensures Distinct(a)
  {
  }

  lemma SameReferences(a: seq<Reference>, b: seq<Reference>, first: set<Message>, second: set<Message>)
    requires RefersTo(a, first) && RefersTo(b, second) && Copied(first, second) && Copied(second, first)
    ensures forall r :: r in a <==> r in b
    ensures |a| == |b|
  {
    forall r
      ensures r in a <==> r in b
    {
      if r in a {
        ReferenceDetermined(a, b, first, second, r);
      }
      if r in b {
        ReferenceDetermined(b, a, second, first, r);
      }
    }
    UniqueKeysDistinct(a);
    UniqueKeysDistinct(b);
    SameSizeBySet(a, b);
  }

  lemma SameEvents(a: seq<nat>, b: seq<nat>, first: set<Message>, second: set<Message>)
    requires EventsAre(a, first) && EventsAre(b, second) && Copied(first, second) && Copied(second, first)
    ensures forall e :: e in a <==> e in b
    ensures |a| == |b|
  {
    forall e
      ensures e in a <==> e in b
    {
      if e in a {
        var m :| m in first && m.event == e;
        var o := CopyOf(first, second, m);
      }
      if e in b {
        var m :| m in second && m.event == e;
        var o := CopyOf(second, first, m);
      }
    }
    SameSizeBySet(a, b);
  }

  /** Both show a newest message of all that was delivered. */
  lemma SameShown(a: Presentation, b: Presentation, first: set<Message>, second: set<Message>, all: set<Message>)
    requires ShowsANewest(a, first) && ShowsANewest(b, second)
    requires first <= all && second <= all && Copied(all, first) && Copied(all, second)
    ensures TiesAgree(all) ==> a == b
  {
    var m :| Newest(m, first) && Presents(a, m);
    var o :| Newest(o, second) && Presents(b, o);
    PresentsWhatItAsks(a, m);
    PresentsWhatItAsks(b, o);
    AlikeAsks(m, o);
    NewestCarries(first, second, m, all);
    NewestCarries(second, first, o, all);
  }

  ghost predicate Agree(a: Store, b: Store, c: nat, shown: bool)
  {
    && (c in a.threads <==> c in b.threads) && (c in a.workItems <==> c in b.workItems)
    && (c in a.threads <==> c in a.workItems)
    && (c in a.threads ==>
          var x, y := Stored(a.threads[c], a.workItems[c]), Stored(b.threads[c], b.workItems[c]);
          SameContents(x, y) && (shown ==> x.workItem.shown == y.workItem.shown))
  }

  /** Everything that was delivered under one event and conversation is one state of one message. */
  ghost predicate OneState(messages: set<Message>)
  {
    forall m, o :: m in messages && o in messages && m.event == o.event && m.conversation == o.conversation ==>
      SameState(m, o)
  }

  ghost predicate SameDeliveries(first: set<Message>, second: set<Message>)
  {
    forall m :: SeenBefore(m, first) <==> SeenBefore(m, second)
  }

  /** What one run first saw in a conversation stands for all of it. */
  lemma FirstSeenStands(seen: set<Message>, all: set<Message>, c: nat)
    requires seen <= all && OneState(all) && SameDeliveries(seen, all)
    ensures In(seen, c) <= In(all, c) && Copied(In(all, c), In(seen, c))
  {
    forall m | m in In(all, c)
      ensures HasCopy(m, In(seen, c))
    {
      assert SeenBefore(m, all) && SeenBefore(m, seen);
      var o :| o in seen && o.event == m.event && o.conversation == m.conversation;
      assert SameState(m, o) && o in In(seen, c);
    }
  }

  lemma CopiedThrough(first: set<Message>, second: set<Message>, all: set<Message>)
    requires first <= all && Copied(all, second)
    ensures Copied(first, second)
  {
    forall m | m in first
      ensures HasCopy(m, second)
    {
      var o := CopyOf(all, second, m);
    }
  }

  lemma SameEmptiness(first: set<Message>, second: set<Message>)
    requires Copied(first, second) && Copied(second, first)
    ensures first == {} <==> second == {}
  {
    if m :| m in first {
      var o := CopyOf(first, second, m);
    } else if m :| m in second {
      var o := CopyOf(second, first, m);
    }
  }

  lemma SameInBoth(a: Store, b: Store, c: nat, first: set<Message>, second: set<Message>, all: set<Message>)
    requires StoreReflects(a, c, first) && StoreReflects(b, c, second)
    requires first <= all && second <= all && Copied(all, first) && Copied(all, second)
    ensures Agree(a, b, c, TiesAgree(all))
  {
    CopiedThrough(first, second, all);
    CopiedThrough(second, first, all);
    SameEmptiness(first, second);
    if first != {} {
      SameEvents(a.threads[c].events, b.threads[c].events, first, second);
      SameReferences(a.threads[c].references, b.threads[c].references, first, second);
      SameShown(a.workItems[c].shown, b.workItems[c].shown, first, second, all);
    }
  }

  lemma SeenInUnion(m: Message, first: set<Message>, second: set<Message>)
    ensures SeenBefore(m, first + second) <==> SeenBefore(m, first) || SeenBefore(m, second)
  {
    if d :| d in first && d.event == m.event && d.conversation == m.conversation {
      assert d in first + second;
    } else if d :| d in second && d.event == m.event && d.conversation == m.conversation {
      assert d in first + second;
    }
  }

  lemma UnionDelivers(first: set<Message>, second: set<Message>)
    requires SameDeliveries(first, second)
    ensures SameDeliveries(first, first + second) && SameDeliveries(second, first + second)
  {
    forall m
      ensures SeenBefore(m, first + second) <==> SeenBefore(m, first)
    {
      SeenInUnion(m, first, second);
    }
  }

  lemma SameFirstSeen(first: seq<seq<Message>>, second: seq<seq<Message>>)
    requires AllAcceptable(first) && AllAcceptable(second)
    requires SameDeliveries(Delivered(first), Delivered(second))
    ensures SameDeliveries(FirstSeen(first), FirstSeen(first) + FirstSeen(second))
    ensures SameDeliveries(FirstSeen(second), FirstSeen(first) + FirstSeen(second))
  {
    FirstSeenIsFit(first);
    FirstSeenIsFit(second);
    UnionDelivers(FirstSeen(first), FirstSeen(second));
  }

  /**
   Any two ways to deliver the same events, in any order, split and repetition, with whatever observation
   times and even contents, end with the same events and references in each conversation, and with the
   same presentation if all that was first seen for its newest time presents alike.
   */
  lemma Convergence(first: seq<seq<Message>>, second: seq<seq<Message>>, c: nat)
    requires AllAcceptable(first) && AllAcceptable(second)
    requires SameDeliveries(Delivered(first), Delivered(second)) && OneState(FirstSeen(first) + FirstSeen(second))
    ensures Agree(DeliverAll(EMPTY, first), DeliverAll(EMPTY, second), c, TiesAgree(In(FirstSeen(first) + FirstSeen(second), c)))
  {
    var all := FirstSeen(first) + FirstSeen(second);
    SameFirstSeen(first, second);
    DeliveriesReflect(first);
    DeliveriesReflect(second);
    FirstSeenStands(FirstSeen(first), all, c);
    FirstSeenStands(FirstSeen(second), all, c);
    assert StoreReflects(DeliverAll(EMPTY, first), c, In(FirstSeen(first), c));
    assert StoreReflects(DeliverAll(EMPTY, second), c, In(FirstSeen(second), c));
    SameInBoth(DeliverAll(EMPTY, first), DeliverAll(EMPTY, second), c,
               In(FirstSeen(first), c), In(FirstSeen(second), c), In(all, c));
  }

  /** Any order of a set, one message per batch, ending with `last`. */
  lemma {:induction false} DeliverLast(messages: set<Message>, last: Message) returns (batches: seq<seq<Message>>)
    requires last in messages && Observed(messages)
    ensures AllAcceptable(batches) && Delivered(batches) == messages
    ensures batches != [] && batches[|batches| - 1] == [last]
    ensures last !in Delivered(batches[..|batches| - 1])
    decreases |messages|
  {
    var rest := messages - {last};
    var before: seq<seq<Message>> := [];
    if rest != {} {
      var other :| other in rest;
      before := DeliverLast(rest, other);
    }
    batches := before + [[last]];
    assert batches[..|batches| - 1] == before;
    assert Delivered(before) == rest;
    assert Elements([last]) == {last};
    assert rest + {last} == messages;
  }

  lemma SingleGroup(last: Message, known: seq<nat>)
    requires last.event !in known
    ensures Sort(Unseen([last], known), Earlier) == [last]
    ensures Sort([last], Later) == [last]
    ensures Conversations([last]) == [last.conversation]
    ensures GroupOf([last], last.conversation) == [last]
  {
    assert [last][..0] == [] && [last][1..] == [];
    assert Unseen([last], known) == [last];
  }

  lemma SingleShown(last: Message, thread: Option<Thread>, workItem: Option<WorkItem>, here: set<Message>)
    requires Newest(last, here + {last})
    requires Follows(thread, workItem, last.conversation, here)
    ensures Sort([last], Later) == [last] ==>
              Assemble(last.conversation, last, thread, workItem, [last]).workItem.shown == Shown(last)
  {
    if here != {} {
      var shown :| Newest(shown, here) && Presents(workItem.value.shown, shown);
      NewestStoredIsNewest(thread.value.references, here, shown);
      assert shown in here + {last};
    }
  }

  lemma SingleAdded(last: Message, thread: Option<Thread>, workItem: Option<WorkItem>, here: set<Message>)
    requires last !in here && UniqueEvents(here + {last})
    requires Follows(thread, workItem, last.conversation, here)
    ensures last.event !in Known(thread)
    ensures Sort(Unseen([last], Known(thread)), Earlier) == [last] && Sort([last], Later) == [last]
  {
    assert Elements([last]) == {last};
    assert EventsAre(Known(thread), here);
    assert forall o :: o in here ==> o in here + {last} && o.event != last.event;
    SingleGroup(last, Known(thread));
  }

  lemma SingleAssembled(last: Message, thread: Option<Thread>, workItem: Option<WorkItem>, here: set<Message>)
    requires last !in here && Newest(last, here + {last})
    requires UniqueEvents(here + {last}) && Observed(here + {last})
    requires Follows(thread, workItem, last.conversation, here)
    ensures var stored := Assemble(last.conversation, last, thread, workItem, [last]);
            Parses(stored.thread, stored.workItem) && stored.workItem.shown == Shown(last)
  {
    assert Elements([last]) == {last};
    SingleAdded(last, thread, workItem, here);
    SingleShown(last, thread, workItem, here);
    AssembleReflects(last.conversation, last, thread, workItem, here, [last]);
  }

  lemma ProjectSingle(last: Message, thread: Option<Thread>, workItem: Option<WorkItem>, here: set<Message>)
    requires last !in here && Newest(last, here + {last})
    requires UniqueEvents(here + {last}) && Observed(here + {last})
    requires Follows(thread, workItem, last.conversation, here)
    ensures var r := Project(last.conversation, [last], thread, workItem);
            r.Ok? && r.value.Some? && r.value.value.workItem.shown == Shown(last)
  {
    SingleAdded(last, thread, workItem, here);
    SingleAssembled(last, thread, workItem, here);
    ProjectAdds(last.conversation, [last], thread, workItem, [last]);
  }

  /** A message that ties for newest is shown when it is delivered last and alone. */
  lemma LastBatch(batches: seq<seq<Message>>, last: Message)
    requires batches != [] && batches[|batches| - 1] == [last]
    ensures Delivered(batches) == Delivered(batches[..|batches| - 1]) + {last}
    ensures DeliverAll(EMPTY, batches) == Deliver(DeliverAll(EMPTY, batches[..|batches| - 1]), [last])
  {
    assert Elements([last]) == {last};
  }

  /** Where no event comes twice, all is seen for the first time. */
  lemma {:induction false} NothingTwice(batches: seq<seq<Message>>)
    requires OnePerEvent(Delivered(batches))
    ensures FirstSeen(batches) == Delivered(batches)
  {
    if batches != [] {
      var rest, last := batches[..|batches| - 1], batches[|batches| - 1];
      NothingTwice(rest);
      forall m | m in Elements(last) && SeenBefore(m, Delivered(rest))
        ensures m in Delivered(rest)
      {
        var d :| d in Delivered(rest) && d.event == m.event && d.conversation == m.conversation;
        assert d in Delivered(batches) && m in Delivered(batches);
      }
    }
  }

  lemma EachOnce(batches: seq<seq<Message>>)
    requires AllAcceptable(batches) && OnePerEvent(Delivered(batches))
    ensures AllReflect(DeliverAll(EMPTY, batches), Delivered(batches)) && Observed(Delivered(batches))
  {
    NothingTwice(batches);
    DeliveriesReflect(batches);
    FirstSeenIsFit(batches);
  }

  lemma LastTieShown(batches: seq<seq<Message>>, last: Message)
    requires AllAcceptable(batches) && OnePerEvent(Delivered(batches))
    requires batches != [] && batches[|batches| - 1] == [last] && last !in Delivered(batches[..|batches| - 1])
    requires Newest(last, In(Delivered(batches), last.conversation))
    ensures var s := DeliverAll(EMPTY, batches);
            last.conversation in s.workItems && s.workItems[last.conversation].shown == Shown(last)
  {
    var n := |batches| - 1;
    EachOnce(batches);
    LastBatch(batches, last);
    EachOnce(batches[..n]);
    SingleDelivered(DeliverAll(EMPTY, batches[..n]), Delivered(batches[..n]), last);
  }

  lemma SingleDelivered(store: Store, messages: set<Message>, last: Message)
    requires AllReflect(store, messages) && last !in messages
    requires OnePerEvent(messages + {last}) && Observed(messages + {last})
    requires Newest(last, In(messages + {last}, last.conversation))
    ensures var s := Deliver(store, [last]);
            last.conversation in s.workItems && s.workItems[last.conversation].shown == Shown(last)
  {
    var c := last.conversation;
    var here := In(messages, c);
    assert StoreReflects(store, c, here);
    assert here + {last} == In(messages + {last}, c);
    ProjectSingle(last, Lookup(store.threads, c), Lookup(store.workItems, c), here);
    SingleGroup(last, []);
    SavedAt([last], [c], store, c);
  }

  ghost predicate ShowsSame(first: seq<seq<Message>>, second: seq<seq<Message>>, c: nat)
  {
    var a, b := DeliverAll(EMPTY, first), DeliverAll(EMPTY, second);
    c in a.workItems && c in b.workItems && a.workItems[c].shown == b.workItems[c].shown
  }

  /** One message, observed at some time. */
  predicate Observes(d: Message, m: Message)
  {
    d == m.(receivedAt := d.receivedAt)
  }

  /** Every message is delivered, any number of times and observed at any time, and nothing else is. */
  ghost predicate Delivers(batches: seq<seq<Message>>, messages: set<Message>)
  {
    AllAcceptable(batches) && Views(Delivered(batches), messages)
  }

  ghost predicate IsView(d: Message, messages: set<Message>)
  {
    exists m :: m in messages && Observes(d, m)
  }

  ghost predicate HasView(m: Message, seen: set<Message>)
  {
    exists d :: d in seen && Observes(d, m)
  }

  /** Observations of the messages, at least one of each. */
  ghost predicate Views(seen: set<Message>, messages: set<Message>)
  {
    && (forall d {:trigger IsView(d, messages)} :: d in seen ==> IsView(d, messages))
    && (forall m {:trigger HasView(m, seen)} :: m in messages ==> HasView(m, seen))
  }

  lemma MessageOf(seen: set<Message>, messages: set<Message>, d: Message) returns (m: Message)
    requires Views(seen, messages) && d in seen
    ensures m in messages && Observes(d, m)
  {
    assert IsView(d, messages);
    m :| m in messages && Observes(d, m);
  }

  lemma ViewOf(seen: set<Message>, messages: set<Message>, m: Message) returns (d: Message)
    requires Views(seen, messages) && m in messages
    ensures d in seen && Observes(d, m)
  {
    assert HasView(m, seen);
    d :| d in seen && Observes(d, m);
  }

  lemma SeenIffListed(seen: set<Message>, messages: set<Message>, m: Message)
    requires Views(seen, messages)
    ensures SeenBefore(m, seen) <==> SeenBefore(m, messages)
  {
    if SeenBefore(m, seen) {
      var d :| d in seen && d.event == m.event && d.conversation == m.conversation;
      var o := MessageOf(seen, messages, d);
      assert o.event == m.event && o.conversation == m.conversation;
    }
    if SeenBefore(m, messages) {
      var o :| o in messages && o.event == m.event && o.conversation == m.conversation;
      var d := ViewOf(seen, messages, o);
      assert d.event == m.event && d.conversation == m.conversation;
    }
  }

  lemma FirstViewed(batches: seq<seq<Message>>, messages: set<Message>, m: Message)
    requires Delivers(batches, messages) && OnePerEvent(messages) && m in messages
    requires SeenBefore(m, FirstSeen(batches)) && FirstSeen(batches) <= Delivered(batches)
    ensures HasView(m, FirstSeen(batches))
  {
    var d :| d in FirstSeen(batches) && d.event == m.event && d.conversation == m.conversation;
    var o := MessageOf(Delivered(batches), messages, d);
    assert o == m;
  }

  lemma FirstSeenViews(batches: seq<seq<Message>>, messages: set<Message>)
    requires Delivers(batches, messages) && OnePerEvent(messages)
    ensures Views(FirstSeen(batches), messages)
  {
    FirstSeenIsFit(batches);
    forall m | m in messages
      ensures HasView(m, FirstSeen(batches))
    {
      assert SeenBefore(m, messages);
      SeenIffListed(Delivered(batches), messages, m);
      FirstViewed(batches, messages, m);
    }
    forall d | d in FirstSeen(batches)
      ensures IsView(d, messages)
    {
      var m := MessageOf(Delivered(batches), messages, d);
    }
  }

  lemma ViewsTogether(first: set<Message>, second: set<Message>, messages: set<Message>)
    requires Views(first, messages) && Views(second, messages)
    ensures Views(first + second, messages)
  {
    forall m | m in messages
      ensures HasView(m, first + second)
    {
      var d := ViewOf(first, messages, m);
      assert d in first + second;
    }
    forall d | d in first + second
      ensures IsView(d, messages)
    {
      if d in first {
        var m := MessageOf(first, messages, d);
      } else {
        var m := MessageOf(second, messages, d);
      }
    }
  }

  lemma ViewsAreOneState(seen: set<Message>, messages: set<Message>)
    requires Views(seen, messages) && OnePerEvent(messages)
    ensures OneState(seen)
  {
    forall d, e | d in seen && e in seen && d.event == e.event && d.conversation == e.conversation
      ensures SameState(d, e)
    {
      var m := MessageOf(seen, messages, d);
      var o := MessageOf(seen, messages, e);
      assert m == o;
    }
  }

  lemma ViewIsNewest(seen: set<Message>, messages: set<Message>, c: nat, d: Message) returns (m: Message)
    requires Views(seen, messages) && Newest(d, In(seen, c))
    ensures Newest(m, In(messages, c)) && PresentAlike(m, d)
  {
    m := MessageOf(seen, messages, d);
    forall o | o in In(messages, c)
      ensures o.occurredAt <= m.occurredAt
    {
      var e := ViewOf(seen, messages, o);
      assert e in In(seen, c);
    }
  }

  lemma TiesCarry(seen: set<Message>, messages: set<Message>, c: nat)
    requires Views(seen, messages) && TiesAgree(In(messages, c))
    ensures TiesAgree(In(seen, c))
  {
    forall d, e | Newest(d, In(seen, c)) && Newest(e, In(seen, c))
      ensures PresentAlike(d, e)
    {
      var m := ViewIsNewest(seen, messages, c, d);
      var o := ViewIsNewest(seen, messages, c, e);
    }
  }

  lemma TiesAgreeing(first: seq<seq<Message>>, second: seq<seq<Message>>, messages: set<Message>, c: nat)
    requires Delivers(first, messages) && Delivers(second, messages) && OnePerEvent(messages)
    requires In(messages, c) != {} && TiesAgree(In(messages, c))
    ensures ShowsSame(first, second, c)
  {
    forall m
      ensures SeenBefore(m, Delivered(first)) <==> SeenBefore(m, Delivered(second))
    {
      SeenIffListed(Delivered(first), messages, m);
      SeenIffListed(Delivered(second), messages, m);
    }
    FirstSeenViews(first, messages);
    FirstSeenViews(second, messages);
    ViewsTogether(FirstSeen(first), FirstSeen(second), messages);
    ViewsAreOneState(FirstSeen(first) + FirstSeen(second), messages);
    TiesCarry(FirstSeen(first) + FirstSeen(second), messages, c);
    Convergence(first, second, c);
    Appears(first, messages, c);
  }

  lemma Appears(batches: seq<seq<Message>>, messages: set<Message>, c: nat)
    requires AllAcceptable(batches) && Views(FirstSeen(batches), messages) && In(messages, c) != {}
    ensures c in DeliverAll(EMPTY, batches).workItems && c in DeliverAll(EMPTY, batches).threads
  {
    DeliveriesReflect(batches);
    var m :| m in In(messages, c);
    var d := ViewOf(FirstSeen(batches), messages, m);
    assert d in In(FirstSeen(batches), c);
    assert StoreReflects(DeliverAll(EMPTY, batches), c, In(FirstSeen(batches), c));
  }

  lemma OnceIsDelivery(batches: seq<seq<Message>>, messages: set<Message>)
    requires AllAcceptable(batches) && Delivered(batches) == messages
    ensures Delivers(batches, messages)
  {
    forall m | m in messages
      ensures IsView(m, messages) && HasView(m, Delivered(batches))
    {
      assert Observes(m, m);
    }
  }

  /**
   Exactly when the presentation does not depend on how the messages of a conversation arrive, with any
   repetition and any observation times: all messages tied for its newest source time ask for the same one.
   */
  lemma OrderIndependentIffTiesAgree(messages: set<Message>, c: nat)
    requires OnePerEvent(messages) && Observed(messages) && In(messages, c) != {}
    ensures TiesAgree(In(messages, c)) <==>
            forall first, second :: Delivers(first, messages) && Delivers(second, messages) ==> ShowsSame(first, second, c)
  {
    if TiesAgree(In(messages, c)) {
      forall first, second | Delivers(first, messages) && Delivers(second, messages)
        ensures ShowsSame(first, second, c)
      {
        TiesAgreeing(first, second, messages, c);
      }
    } else {
      var m, o :| Newest(m, In(messages, c)) && Newest(o, In(messages, c)) && !PresentAlike(m, o);
      AlikeAsks(m, o);
      var first := DeliverLast(messages, m);
      var second := DeliverLast(messages, o);
      LastTieShown(first, m);
      LastTieShown(second, o);
      OnceIsDelivery(first, messages);
      OnceIsDelivery(second, messages);
      assert !ShowsSame(first, second, c);
    }
  }
}
