/** What projecting one group of messages onto any stored thread and work item answers, keeps, adds and shows. */
module ProjectionOutcomes {
  import opened Wrappers
  import opened Projection
  import opened ProjectionConvergence

  // Sorting

  predicate NotLater(m: Message, o: Message)
  {
    m.occurredAt < o.occurredAt || (m.occurredAt == o.occurredAt && m.event <= o.event)
  }

  predicate OldestFirst(messages: seq<Message>)
  {
    forall i, j :: 0 <= i < j < |messages| ==> NotLater(messages[i], messages[j])
  }

  lemma {:induction false} InsertOldestFirst(m: Message, sorted: seq<Message>)
    requires OldestFirst(sorted)
    ensures OldestFirst(Insert(m, sorted, Earlier))
  {
    if sorted != [] && Earlier(sorted[0], m) {
      InsertOldestFirst(m, sorted[1..]);
      var rest := Insert(m, sorted[1..], Earlier);
      forall i | 0 <= i < |rest|
        ensures NotLater(sorted[0], rest[i])
      {
        InsertKeeps(m, sorted[1..], Earlier);
        assert rest[i] in multiset(rest);
        assert rest[i] == m || rest[i] in sorted[1..];
      }
      FirstIsOldest(sorted[0], rest);
    } else if sorted != [] {
      assert forall i :: 0 <= i < |sorted| ==> NotLater(sorted[0], sorted[i]) || i == 0;
      FirstIsOldest(m, sorted);
    }
  }

  lemma FirstIsOldest(m: Message, rest: seq<Message>)
    requires OldestFirst(rest) && forall i :: 0 <= i < |rest| ==> NotLater(m, rest[i])
    ensures OldestFirst([m] + rest)
  {
  }

  lemma {:induction false} SortOldestFirst(messages: seq<Message>)
    ensures OldestFirst(Sort(messages, Earlier))
  {
    if messages != [] {
      SortOldestFirst(messages[1..]);
      InsertOldestFirst(messages[0], Sort(messages[1..], Earlier));
    }
  }

  /** The newest message, and of several with one time the one with the smallest event. */
  ghost predicate Foremost(m: Message, messages: seq<Message>)
  {
    m in messages && forall o :: o in messages ==>
      o.occurredAt < m.occurredAt || (o.occurredAt == m.occurredAt && m.event <= o.event)
  }

  lemma {:induction false} HeadIsForemost(messages: seq<Message>)
    requires messages != []
    ensures Sort(messages, Later) != [] && Foremost(Sort(messages, Later)[0], messages)
  {
    Projection.SortKeeps(messages, Later);
    if |messages| > 1 {
      HeadIsForemost(messages[1..]);
      assert messages == [messages[0]] + messages[1..];
    }
  }

  // The records

  predicate Answered(x: Result<Option<Stored>, Error>)
  {
    x.Ok? && x.value.Some?
  }

  /** Thread and work item come in pairs, and belong to the conversation. */
  predicate Consistent(conversation: nat, thread: Option<Thread>, workItem: Option<WorkItem>)
  {
    (thread.Some? <==> workItem.Some?) && (workItem.Some? ==> workItem.value.conversation == conversation)
  }

  predicate AllKnown(group: seq<Message>, thread: Option<Thread>)
  {
    thread.Some? && forall m :: m in group ==> m.event in thread.value.events
  }

  lemma {:induction false} UnseenIs(group: seq<Message>, events: seq<nat>)
    ensures forall m :: m in Unseen(group, events) <==> m in group && m.event !in events
  {
    if group != [] {
      UnseenIs(group[..|group| - 1], events);
      assert group == group[..|group| - 1] + [group[|group| - 1]];
    }
  }

  /** An inconsistent pair is a conflict, and a group without a new event is no change; nothing else is either. */
  lemma ProjectAnswers(conversation: nat, group: seq<Message>, thread: Option<Thread>, workItem: Option<WorkItem>)
    requires group != []
    ensures var r := Project(conversation, group, thread, workItem);
            && (r == Err(ProjectionConflict) <==> !Consistent(conversation, thread, workItem))
            && (r == Ok(None) <==> Consistent(conversation, thread, workItem) && AllKnown(group, thread))
  {
    var known := Known(thread);
    UnseenIs(group, known);
    Projection.SortKeeps(Unseen(group, known), Earlier);
    var additions := Sort(Unseen(group, known), Earlier);
    if additions == [] {
      forall m | m in group
        ensures m.event in known
      {
        assert m !in additions;
      }
      assert group[0].event in known;
    } else {
      assert additions[0] in additions;
    }
  }

  /** What the thread had is kept: its subject, its creation, its events in order. */
  predicate KeepsThread(before: Thread, after: Thread)
  {
    && after.subject == before.subject && after.createdAt == before.createdAt
    && before.events <= after.events
  }

  predicate KeepsWorkItem(before: WorkItem, after: WorkItem)
  {
    after.persona == before.persona && after.createdAt == before.createdAt
  }

  /** Exactly the new events are added, oldest first. */
  ghost predicate AddsNew(group: seq<Message>, known: seq<nat>, added: seq<Message>, events: seq<nat>)
  {
    && OldestFirst(added)
    && (forall m :: m in added <==> m in group && m.event !in known)
    && events == known + seq(|added|, i requires 0 <= i < |added| => added[i].event)
  }

  /** The time of a stored reference to a message. */
  predicate StampedAt(references: seq<Reference>, i: int)
  {
    0 <= i < |references| && references[i].key.MessageKey? && references[i].stamp.Some?
  }

  lemma {:induction false} NewestStoredIs(references: seq<Reference>)
    ensures var t := NewestStored(references);
            && (t.None? <==> forall i :: !StampedAt(references, i))
            && (t.Some? ==> forall i :: StampedAt(references, i) ==> references[i].stamp.value <= t.value)
            && (t.Some? ==> exists i :: StampedAt(references, i) && references[i].stamp == t)
  {
    if references != [] {
      var n := |references| - 1;
      var before := references[..n];
      NewestStoredIs(before);
      assert forall i :: StampedAt(before, i) ==> StampedAt(references, i) && references[i] == before[i];
      assert forall i :: StampedAt(references, i) && i < n ==> StampedAt(before, i);
      if NewestStored(references) == references[n].stamp && StampedAt(references, n) {
      } else if NewestStored(before).Some? {
        var i :| StampedAt(before, i) && before[i].stamp == NewestStored(before);
        assert StampedAt(references, i) && references[i].stamp == NewestStored(references);
      }
    }
  }

  ghost predicate NewerStored(references: seq<Reference>, m: Message)
  {
    exists i :: StampedAt(references, i) && references[i].stamp.value > m.occurredAt
  }

  /** The presentation follows the foremost new message, unless a message stored before is newer. */
  ghost predicate PresentsForemost(thread: Option<Thread>, workItem: Option<WorkItem>, m: Message, after: WorkItem)
  {
    if workItem.Some? && thread.Some? && NewerStored(thread.value.references, m)
    then after.shown == workItem.value.shown
    else Presents(after.shown, m)
  }

  /** What a first batch founds a conversation with. */
  ghost predicate Founds(group: seq<Message>, t: Thread, w: WorkItem)
    requires group != []
  {
    && t.subject == (if group[0].direct then "Feishu direct conversation" else "Feishu group conversation")
    && (forall m :: m in group ==> t.createdAt <= m.occurredAt)
    && (exists m :: m in group && m.occurredAt == t.createdAt)
    && w.createdAt == t.createdAt && w.persona.None?
  }

  lemma AssembleKeeps(
    conversation: nat, first: Message, thread: Option<Thread>, workItem: Option<WorkItem>, additions: seq<Message>)
    requires additions != []
    ensures var x := Assemble(conversation, first, thread, workItem, additions);
            && x.workItem.conversation == conversation && x.workItem.events == x.thread.events
            && x.workItem.updatedAt == x.thread.updatedAt
            && (thread.Some? ==> KeepsThread(thread.value, x.thread))
            && (workItem.Some? ==> KeepsWorkItem(workItem.value, x.workItem))
            && x.thread.events == Known(thread) + seq(|additions|, i requires 0 <= i < |additions| => additions[i].event)
  {
  }

  lemma AssemblePresents(
    conversation: nat, first: Message, thread: Option<Thread>, workItem: Option<WorkItem>, additions: seq<Message>)
    requires additions != [] && (thread.Some? <==> workItem.Some?)
    ensures var x := Assemble(conversation, first, thread, workItem, additions);
            exists m :: Foremost(m, additions) && PresentsForemost(thread, workItem, m, x.workItem)
  {
    HeadIsForemost(additions);
    var m := Sort(additions, Later)[0];
    PresentsWhatItAsks(Shown(m), m);
    if thread.Some? {
      NewestStoredIs(thread.value.references);
    }
    assert PresentsForemost(thread, workItem, m, Assemble(conversation, first, thread, workItem, additions).workItem);
  }

  lemma {:induction false} EarliestIs(messages: seq<Message>, start: int)
    ensures var t := Earliest(messages, start);
            && t <= start && (forall m :: m in messages ==> t <= m.occurredAt)
            && (t == start || exists m :: m in messages && m.occurredAt == t)
  {
    if messages != [] {
      EarliestIs(messages[..|messages| - 1], start);
      assert messages == messages[..|messages| - 1] + [messages[|messages| - 1]];
    }
  }

  lemma AssembleFounds(conversation: nat, group: seq<Message>, additions: seq<Message>)
    requires group != [] && additions != [] && forall m :: m in additions <==> m in group
    ensures var x := Assemble(conversation, group[0], None, None, additions);
            Founds(group, x.thread, x.workItem)
  {
    EarliestIs(additions, group[0].occurredAt);
    var x := Assemble(conversation, group[0], None, None, additions);
    assert x.thread.createdAt == Earliest(additions, group[0].occurredAt);
    if x.thread.createdAt == group[0].occurredAt {
      assert group[0] in group;
    }
  }

  /**
   A projection that adds something, onto whatever is stored: subject, creation and Persona stay as they were, or are
   founded by the first batch; exactly the new events are appended, oldest first; and the work item presents the
   foremost of them, unless something newer is stored.
   */
  lemma ProjectionOutcome(conversation: nat, group: seq<Message>, thread: Option<Thread>, workItem: Option<WorkItem>)
    requires group != [] && Answered(Project(conversation, group, thread, workItem))
    ensures var x := Project(conversation, group, thread, workItem).value.value;
            && (thread.Some? ==> KeepsThread(thread.value, x.thread))
            && (workItem.Some? ==> KeepsWorkItem(workItem.value, x.workItem))
            && (thread.None? ==> Founds(group, x.thread, x.workItem))
            && (exists added :: AddsNew(group, Known(thread), added, x.thread.events)
                                && exists m :: Foremost(m, added) && PresentsForemost(thread, workItem, m, x.workItem))
  {
    var unseen := Unseen(group, Known(thread));
    var additions := Sort(unseen, Earlier);
    UnseenIs(group, Known(thread));
    Projection.SortKeeps(unseen, Earlier);
    SortOldestFirst(unseen);
    AssembleKeeps(conversation, group[0], thread, workItem, additions);
    AssemblePresents(conversation, group[0], thread, workItem, additions);
    if thread.None? {
      AssembleFounds(conversation, group, additions);
    }
    assert AddsNew(group, Known(thread), additions, Assemble(conversation, group[0], thread, workItem, additions).thread.events);
  }

  predicate InPlace(before: Reference, after: Reference)
  {
    && after.key == before.key
    && (before.stamp.Some? ==> after.stamp.Some? && before.stamp.value <= after.stamp.value)
  }

  lemma MergeOneInPlace(references: seq<Reference>, addition: Reference)
    ensures var merged := MergeOne(references, addition);
            |references| <= |merged| && forall i :: 0 <= i < |references| ==> InPlace(references[i], merged[i])
  {
    IndexOfFinds(references, addition.key);
  }

  /** Merging keeps the references in their places, and moves no time back. */
  lemma {:induction false} MergeKeepsPlaces(references: seq<Reference>, additions: seq<Reference>)
    ensures var merged := MergeAll(references, additions);
            |references| <= |merged| && forall i :: 0 <= i < |references| ==> InPlace(references[i], merged[i])
  {
    if additions != [] {
      var n := |additions| - 1;
      MergeKeepsPlaces(references, additions[..n]);
      var before := MergeAll(references, additions[..n]);
      MergeOneInPlace(before, additions[n]);
      assert forall i :: 0 <= i < |references| ==> InPlace(references[i], before[i]);
    }
  }

  ghost predicate Refuses(batch: seq<Message>, conversation: nat, store: Store)
  {
    ProjectConversation(batch, conversation, store).Err?
  }

  ghost predicate AnyRefuses(batch: seq<Message>, conversations: seq<nat>, store: Store)
  {
    exists c :: c in conversations && Refuses(batch, c, store)
  }

  lemma OneMoreRefuses(batch: seq<Message>, conversations: seq<nat>, store: Store)
    requires conversations != []
    ensures var n := |conversations| - 1;
            AnyRefuses(batch, conversations, store) <==>
            AnyRefuses(batch, conversations[..n], store) || Refuses(batch, conversations[n], store)
  {
    var n := |conversations| - 1;
    assert forall c :: c in conversations <==> c in conversations[..n] || c == conversations[n];
  }

  lemma OneMoreProjects(batch: seq<Message>, conversations: seq<nat>, store: Store)
    requires conversations != []
    ensures var n := |conversations| - 1;
            ProjectAll(batch, conversations, store).Err? <==>
            ProjectAll(batch, conversations[..n], store).Err? || Refuses(batch, conversations[n], store)
  {
  }

  lemma {:induction false} AnyRefusalFails(batch: seq<Message>, conversations: seq<nat>, store: Store)
    ensures ProjectAll(batch, conversations, store).Err? <==> AnyRefuses(batch, conversations, store)
  {
    if conversations != [] {
      var n := |conversations| - 1;
      AnyRefusalFails(batch, conversations[..n], store);
      OneMoreProjects(batch, conversations, store);
      OneMoreRefuses(batch, conversations, store);
    }
  }

  /** One conversation that cannot be projected fails the batch, and nothing of it is stored. */
  lemma BatchIsAllOrNothing(batch: seq<Message>, store: Store)
    ensures ProjectAll(batch, Conversations(batch), store).Err? <==> AnyRefuses(batch, Conversations(batch), store)
    ensures AnyRefuses(batch, Conversations(batch), store) ==> Deliver(store, batch) == store
  {
    AnyRefusalFails(batch, Conversations(batch), store);
  }
}
