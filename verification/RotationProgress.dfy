/**
 That the protocol also does its work: from any state in which the journal is at rest, an undisturbed
 refresh rotates the credential, and an undisturbed replacement unblocks a blocked sequence.
 */
module RotationProgress {
  import opened Wrappers
  import opened AppendLog
  import opened RotationEvents
  import opened RotationJournal
  import opened JournalAnswers
  import opened RotationRuns
  import opened RotationSteps
  import Replacement = RotationReplacement

  const CLEAN: Io := Io(Loads, Commits)

  /** Nothing is under way in the journal that this process has loaded. */
  predicate AtRest(s: System)
  {
    && s.journal.loaded && s.holder.None? && s.next !in s.parties
    && (s.journal.latest.Some? ==> WellFormed(s.journal.latest.value))
  }

  /** The same state but for the record of what was taken back. */
  predicate UpToReverted(s: System, t: System)
  {
    s == t.(reverted := s.reverted)
  }

  lemma StepIsAct(c: Format, s: System, a: Action)
    ensures UpToReverted(Step(c, s, a), Act(c, s, a))
  {
  }

  lemma PersistIs(c: Format, s: System, a: Action)
    requires OfPersist(a)
    ensures Step(c, s, a) == StepPersist(s, a)
  {
    PersistJournal(s, a);
    ActPersists(c, s, a);
    SameTakesNothingBack(c, s.journal);
  }

  lemma ActPersists(c: Format, s: System, a: Action)
    requires OfPersist(a)
    ensures Act(c, s, a) == StepPersist(s, a)
  {
  }

  lemma PersistJournal(s: System, a: Action)
    requires OfPersist(a)
    ensures StepPersist(s, a).journal == s.journal
  {
  }

  lemma RemoteIs(c: Format, s: System, a: Action)
    requires a.CallRemote? || a.RemoteAnswers? || a.ReadCredential? || a.DecideRefresh?
    ensures Step(c, s, a) == StepRefresh(c, s, a)
  {
    assert StepRefresh(c, s, a).journal == s.journal;
    SameTakesNothingBack(c, s.journal);
  }

  function Completion(opening: Event, later: int, renewed: int): Event
  {
    Event(CURRENT_VERSION, opening.sequence, Completed, opening.source, later, Some(renewed))
  }

  function With(c: Format, disk: Bytes, e: Event): Bytes
  {
    Appended(c, disk, Encode(e), |Line(c, Encode(e))|)
  }

  /** The call `id` up to its durable reservation, and from there to its end, with nothing in between. */
  function Reserving(c: Format, s: System, id: nat, now: int): System
  {
    Step(c, Deciding(c, s, id, now), RunReserve(id, CLEAN))
  }

  function Deciding(c: Format, s: System, id: nat, now: int): System
  {
    Step(c, Step(c, Step(c, s, StartRefresh(CLEAN)), ReadCredential(id, false)), DecideRefresh(id, now))
  }

  function Finishing(c: Format, s: System, id: nat, later: int, renewed: int): System
  {
    Step(c, Step(c, Step(c, s, CallRemote(id)), RemoteAnswers(id, Rotated(renewed), Some(later))), CloseRefresh(id, CLEAN))
  }

  /** The credential may be used: the last rotation is over, and nothing newer than the credential came of it. */
  predicate MayRefresh(s: System, obtained: int)
  {
    && AtRest(s) && s.keychain == Some(obtained)
    && (s.journal.latest.Some? ==>
          Terminal(s.journal.latest.value.state) && s.journal.latest.value.result.value <= obtained)
    && NextSequence(s.journal.latest) <= MAX_SAFE_INTEGER
  }

  lemma Decides(c: Format, s: System, id: nat, latest: Option<Event>, obtained: int, now: int)
    requires id in s.parties && s.parties[id] == RefreshRead(latest) && s.keychain == Some(obtained)
    requires latest.Some? ==> Terminal(latest.value.state) && latest.value.result.Some? && latest.value.result.value <= obtained
    ensures Step(c, Step(c, s, ReadCredential(id, false)), DecideRefresh(id, now)) ==
            s.(parties := s.parties[id := RefreshReserves(obtained, now)])
  {
    var t := Step(c, s, ReadCredential(id, false));
    assert t == s.(parties := s.parties[id := RefreshHas(latest, obtained, false)]);
    var u := Step(c, t, DecideRefresh(id, now));
    assert u == t.(parties := t.parties[id := RefreshReserves(obtained, now)]);
    assert u.parties == s.parties[id := RefreshReserves(obtained, now)];
  }

  lemma ReserveStep(c: Format, s: System, id: nat, obtained: int, now: int)
    requires id in s.parties && s.parties[id] == RefreshReserves(obtained, now) && s.holder.None?
    requires s.journal.loaded && obtained <= now && NextSequence(s.journal.latest) <= MAX_SAFE_INTEGER
    requires var latest := s.journal.latest;
             latest.Some? ==> WellFormed(latest.value) && Terminal(latest.value.state) && latest.value.result.value <= obtained
    requires HasRoom(c, s.journal.disk, Opening(s.journal.latest, obtained, now))
    ensures var e := Opening(s.journal.latest, obtained, now);
            && WellFormed(e)
            && UpToReverted(Step(c, s, RunReserve(id, CLEAN)),
                            s.(journal := Journal(With(c, s.journal.disk, e), true, Some(e), Some(e.sequence)),
                               parties := s.parties[id := RefreshReserved(e)]))
  {
    ReserveCommits(c, s.journal, obtained, now);
    StepIsAct(c, s, RunReserve(id, CLEAN));
    RunReserveActs(c, s, id, CLEAN);
  }

  lemma StartStep(c: Format, s: System)
    requires s.journal.loaded && s.holder.None?
    ensures Step(c, s, StartRefresh(CLEAN)) ==
            s.(parties := s.parties[s.next := RefreshRead(s.journal.latest)], next := s.next + 1)
  {
  }

  /** Up to the durable reservation, before anything remote has happened. */
  lemma ReservesFirst(c: Format, s: System, obtained: int, now: int)
    requires MayRefresh(s, obtained) && obtained <= now
    requires HasRoom(c, s.journal.disk, Opening(s.journal.latest, obtained, now))
    ensures var e := Opening(s.journal.latest, obtained, now);
            var t := Reserving(c, s, s.next, now);
            && UpToReverted(t, s.(journal := Journal(With(c, s.journal.disk, e), true, Some(e), Some(e.sequence)),
                                  parties := s.parties[s.next := RefreshReserved(e)], next := s.next + 1))
            && WellFormed(e)
  {
    StartStep(c, s);
    Decides(c, Step(c, s, StartRefresh(CLEAN)), s.next, s.journal.latest, obtained, now);
    var decided := Deciding(c, s, s.next, now);
    DecidedParties(s, obtained, now);
    ReservesFrom(c, s, decided, obtained, now);
  }

  lemma DecidedParties(s: System, obtained: int, now: int)
    ensures s.parties[s.next := RefreshRead(s.journal.latest)][s.next := RefreshReserves(obtained, now)] ==
            s.parties[s.next := RefreshReserves(obtained, now)]
  {
  }

  lemma ReservesFrom(c: Format, s: System, decided: System, obtained: int, now: int)
    requires MayRefresh(s, obtained) && obtained <= now
    requires HasRoom(c, s.journal.disk, Opening(s.journal.latest, obtained, now))
    requires decided == s.(parties := s.parties[s.next := RefreshReserves(obtained, now)], next := s.next + 1)
    ensures var e := Opening(s.journal.latest, obtained, now);
            var t := Step(c, decided, RunReserve(s.next, CLEAN));
            && UpToReverted(t, s.(journal := Journal(With(c, s.journal.disk, e), true, Some(e), Some(e.sequence)),
                                  parties := s.parties[s.next := RefreshReserved(e)], next := s.next + 1))
            && WellFormed(e)
  {
    var e := Opening(s.journal.latest, obtained, now);
    ReserveStep(c, decided, s.next, obtained, now);
    assert decided.parties[s.next := RefreshReserved(e)] == s.parties[s.next := RefreshReserved(e)];
  }

  lemma ReserveCommits(c: Format, j: Journal, obtained: int, now: int)
    requires j.loaded && obtained <= now && NextSequence(j.latest) <= MAX_SAFE_INTEGER
    requires j.latest.Some? ==> WellFormed(j.latest.value) && Terminal(j.latest.value.state)
                                && j.latest.value.result.value <= obtained
    requires HasRoom(c, j.disk, Opening(j.latest, obtained, now))
    ensures var e := Opening(j.latest, obtained, now);
            && WellFormed(e)
            && Reserve(c, j, obtained, now, CLEAN) ==
               (Journal(With(c, j.disk, e), true, Some(e), Some(e.sequence)), Ok(e))
  {
    var e := Opening(j.latest, obtained, now);
    assert BuildEvent(e) == Ok(e);
    assert ValidTransition(j.latest, e);
  }

  lemma SettleCommits(c: Format, j: Journal, e: Event, later: int, renewed: int)
    requires j.loaded && j.latest == Some(e) && WellFormed(e) && e.state.Reserved? && e.version == CURRENT_VERSION
    requires e.source < renewed <= later
    requires HasRoom(c, j.disk, Completion(e, later, renewed))
    ensures var f := Completion(e, later, renewed);
            Settle(c, j, e.sequence, Completed, later, Some(renewed), CLEAN) ==
            (Journal(With(c, j.disk, f), true, Some(f), None), Ok(f))
  {
    var f := Completion(e, later, renewed);
    assert BuildEvent(f) == Ok(f);
    assert ValidTransition(j.latest, f);
  }

  /** The rest of it: one remote call, the new credential in the Keychain, and the sequence completed. */
  lemma CompletesAfter(c: Format, s: System, id: nat, e: Event, later: int, renewed: int)
    requires id in s.parties && s.parties[id] == RefreshReserved(e) && s.holder.None?
    requires s.journal.loaded && s.journal.latest == Some(e) && WellFormed(e) && e.state.Reserved?
    requires e.version == CURRENT_VERSION && e.source < renewed <= later
    requires HasRoom(c, s.journal.disk, Completion(e, later, renewed))
    ensures var f := Completion(e, later, renewed);
            UpToReverted(Finishing(c, s, id, later, renewed),
                         s.(journal := Journal(With(c, s.journal.disk, f), true, Some(f), None),
                            parties := s.parties - {id}, keychain := Some(renewed), refreshed := s.refreshed + [e.source],
                            settled := s.settled + [Settlement(e.sequence, e.source, renewed)]))
  {
    var s1 := Step(c, s, CallRemote(id));
    CallStep(c, s, id, e);
    var s2 := Step(c, s1, RemoteAnswers(id, Rotated(renewed), Some(later)));
    AnswerStep(c, s1, id, e, later, renewed);
    CloseStep(c, s2, id, e, later, renewed);
    assert s2.parties - {id} == s.parties - {id};
  }

  lemma CallStep(c: Format, s: System, id: nat, e: Event)
    requires id in s.parties && s.parties[id] == RefreshReserved(e)
    ensures Step(c, s, CallRemote(id)) ==
            s.(parties := s.parties[id := RefreshCalled(e)], refreshed := s.refreshed + [e.source])
  {
    RemoteIs(c, s, CallRemote(id));
  }

  lemma AnswerStep(c: Format, s: System, id: nat, e: Event, later: int, renewed: int)
    requires id in s.parties && s.parties[id] == RefreshCalled(e) && e.source < renewed
    ensures Step(c, s, RemoteAnswers(id, Rotated(renewed), Some(later))) ==
            s.(parties := s.parties[id := RefreshCloses(e, Completed, later, Some(renewed))], keychain := Some(renewed))
  {
    RemoteIs(c, s, RemoteAnswers(id, Rotated(renewed), Some(later)));
  }

  lemma CloseStep(c: Format, s: System, id: nat, e: Event, later: int, renewed: int)
    requires id in s.parties && s.parties[id] == RefreshCloses(e, Completed, later, Some(renewed)) && s.holder.None?
    requires s.journal.loaded && s.journal.latest == Some(e) && WellFormed(e) && e.state.Reserved?
    requires e.version == CURRENT_VERSION && e.source < renewed <= later
    requires HasRoom(c, s.journal.disk, Completion(e, later, renewed))
    ensures var f := Completion(e, later, renewed);
            UpToReverted(Step(c, s, CloseRefresh(id, CLEAN)),
                         s.(journal := Journal(With(c, s.journal.disk, f), true, Some(f), None), parties := s.parties - {id},
                            settled := s.settled + [Settlement(e.sequence, e.source, renewed)]))
  {
    SettleCommits(c, s.journal, e, later, renewed);
    StepIsAct(c, s, CloseRefresh(id, CLEAN));
    CloseRefreshActs(c, s, id, CLEAN);
  }

  predicate Refreshed(s: System, t: System, obtained: int, now: int, later: int, renewed: int)
  {
    && t.refreshed == s.refreshed + [obtained] && t.keychain == Some(renewed) && t.parties == s.parties
    && t.journal.latest == Some(Completion(Opening(s.journal.latest, obtained, now), later, renewed))
    && t.journal.active.None?
    && t.settled == s.settled + [Settlement(NextSequence(s.journal.latest), obtained, renewed)]
  }

  lemma RotatesFrom(c: Format, s: System, reserved: System, obtained: int, now: int, later: int, renewed: int)
    requires MayRefresh(s, obtained) && obtained <= now && obtained < renewed <= later
    requires var e := Opening(s.journal.latest, obtained, now);
             && WellFormed(e) && HasRoom(c, With(c, s.journal.disk, e), Completion(e, later, renewed))
             && UpToReverted(reserved, s.(journal := Journal(With(c, s.journal.disk, e), true, Some(e), Some(e.sequence)),
                                          parties := s.parties[s.next := RefreshReserved(e)], next := s.next + 1))
    ensures Refreshed(s, Finishing(c, reserved, s.next, later, renewed), obtained, now, later, renewed)
  {
    var e := Opening(s.journal.latest, obtained, now);
    CompletesAfter(c, reserved, s.next, e, later, renewed);
    BackAtRest(c, s, reserved, Finishing(c, reserved, s.next, later, renewed), e, now, later, renewed);
  }

  lemma BackAtRest(c: Format, s: System, reserved: System, t: System, e: Event, now: int, later: int, renewed: int)
    requires s.next !in s.parties && e == Opening(s.journal.latest, e.source, now)
    requires reserved.parties == s.parties[s.next := RefreshReserved(e)]
    requires reserved.refreshed == s.refreshed && reserved.settled == s.settled
    requires t.journal.latest == Some(Completion(e, later, renewed)) && t.journal.active.None?
    requires t.parties == reserved.parties - {s.next} && t.keychain == Some(renewed)
    requires t.refreshed == reserved.refreshed + [e.source]
    requires t.settled == reserved.settled + [Settlement(e.sequence, e.source, renewed)]
    ensures Refreshed(s, t, e.source, now, later, renewed)
  {
    assert s.parties[s.next := RefreshReserved(e)] - {s.next} == s.parties;
  }

  /**
   An undisturbed refresh: from any state with the journal at rest and an expired credential that the
   last rotation left, the remote endpoint is called once, with that credential; the Keychain then holds
   the new one and the journal says completed.
   */
  lemma RefreshRotates(c: Format, s: System, obtained: int, now: int, later: int, renewed: int)
    requires MayRefresh(s, obtained) && obtained <= now && obtained < renewed <= later
    requires var e := Opening(s.journal.latest, obtained, now);
             && HasRoom(c, s.journal.disk, e)
             && HasRoom(c, With(c, s.journal.disk, e), Completion(e, later, renewed))
    ensures Refreshed(s, Finishing(c, Reserving(c, s, s.next, now), s.next, later, renewed), obtained, now, later, renewed)
  {
    ReservesFirst(c, s, obtained, now);
    RotatesFrom(c, s, Reserving(c, s, s.next, now), obtained, now, later, renewed);
  }

  function Reservation(blocked: Event, now: int): Event
  {
    Event(CURRENT_VERSION, blocked.sequence, ReauthorizationReserved, blocked.source, now, None)
  }

  function Unblocking(blocked: Event, later: int, token: int): Event
  {
    Event(CURRENT_VERSION, blocked.sequence, Reauthorized, blocked.source, later, Some(token))
  }

  predicate Blocked(s: System, blocked: Event)
  {
    AtRest(s) && s.journal.latest == Some(blocked) && blocked.state.ReauthorizationRequired?
  }

  lemma BeginCommits(c: Format, j: Journal, blocked: Event, now: int)
    requires j.loaded && j.latest == Some(blocked) && WellFormed(blocked) && blocked.state.ReauthorizationRequired?
    requires blocked.source <= now && HasRoom(c, j.disk, Reservation(blocked, now))
    ensures var r := Reservation(blocked, now);
            WellFormed(r) && BeginReplacement(c, j, now, CLEAN) ==
                             (j.(disk := With(c, j.disk, r), latest := Some(r)), Ok((blocked, r)))
  {
    var r := Reservation(blocked, now);
    assert BuildEvent(r) == Ok(r);
    assert ValidTransition(j.latest, r);
  }

  lemma FinishCommits(c: Format, j: Journal, r: Event, later: int, token: int)
    requires j.loaded && j.latest == Some(r) && WellFormed(r) && r.state.ReauthorizationReserved?
    requires r.source < token <= later && HasRoom(c, j.disk, Unblocking(r, later, token))
    ensures var f := Unblocking(r, later, token);
            FinishReplacement(c, j, r, later, token, Commits).0.latest == Some(f)
  {
    var f := Unblocking(r, later, token);
    assert BuildEvent(f) == Ok(f);
    assert ValidTransition(Some(r), f);
  }

  lemma BeginStep(c: Format, s: System, blocked: Event, now: int)
    requires Blocked(s, blocked) && blocked.source <= now && HasRoom(c, s.journal.disk, Reservation(blocked, now))
    ensures var id, r := s.next, Reservation(blocked, now);
            && WellFormed(r)
            && UpToReverted(
                 Step(c, s, StartReplace(now, CLEAN)),
                 s.(journal := s.journal.(disk := With(c, s.journal.disk, r), latest := Some(r)),
                    parties := s.parties[id := Replaces(blocked, r)], next := id + 1, holder := Some(id), reservedBy := Some(id)))
  {
    BeginCommits(c, s.journal, blocked, now);
    StepIsAct(c, s, StartReplace(now, CLEAN));
    StartReplaceActs(c, s, now, CLEAN);
  }

  /** The callback, undisturbed: its checks, the principal, the bundle, and the Keychain command, which takes effect. */
  function Persisting(c: Format, s: System, id: nat, later: int, token: int): System
  {
    Written(c, Checked(c, s, id, later, token), id)
  }

  function Checked(c: Format, s: System, id: nat, later: int, token: int): System
  {
    var s1 := Step(c, s, EnterPersist(id, Some(later), token, None, Replacement.Aborts(false, false, false)));
    Step(c, Step(c, s1, StageEnds(id)), StageEnds(id))
  }

  function Written(c: Format, s: System, id: nat): System
  {
    Step(c, Step(c, Step(c, s, StageEnds(id)), WriteLands(id)), StageEnds(id))
  }

  lemma EnterStep(c: Format, s: System, id: nat, blocked: Event, r: Event, later: int, token: int)
    requires id in s.parties && s.parties[id] == Replaces(blocked, r) && blocked.source < token <= later
    ensures Step(c, s, EnterPersist(id, Some(later), token, None, Replacement.Aborts(false, false, false))) ==
            s.(parties := s.parties[id := Persists(blocked.sequence, r, later, token, Replacement.Verifying)])
  {
    PersistIs(c, s, EnterPersist(id, Some(later), token, None, Replacement.Aborts(false, false, false)));
  }

  lemma StageStep(c: Format, s: System, id: nat, sequence: int, r: Event, later: int, token: int, stage: Replacement.Stage)
    requires id in s.parties && s.parties[id] == Persists(sequence, r, later, token, stage)
    requires stage.Verifying? || stage.Encoding?
    ensures Step(c, s, StageEnds(id)) ==
            s.(parties := s.parties[id := Persists(sequence, r, later, token, NextStage(stage))])
  {
    PersistIs(c, s, StageEnds(id));
  }

  lemma CheckedState(c: Format, s: System, id: nat, blocked: Event, r: Event, later: int, token: int)
    requires id in s.parties && s.parties[id] == Replaces(blocked, r) && blocked.source < token <= later
    ensures Checked(c, s, id, later, token) ==
            s.(parties := s.parties[id := Persists(blocked.sequence, r, later, token, Replacement.Replacing)])
  {
    var s1 := Step(c, s, EnterPersist(id, Some(later), token, None, Replacement.Aborts(false, false, false)));
    EnterStep(c, s, id, blocked, r, later, token);
    StageStep(c, s1, id, blocked.sequence, r, later, token, Replacement.Verifying);
    StageStep(c, Step(c, s1, StageEnds(id)), id, blocked.sequence, r, later, token, Replacement.Encoding);
  }

  lemma CommandStep(c: Format, s: System, id: nat, sequence: int, r: Event, later: int, token: int)
    requires id in s.parties && s.parties[id] == Persists(sequence, r, later, token, Replacement.Replacing)
    ensures Step(c, s, StageEnds(id)) ==
            s.(parties := s.parties[id := Persists(sequence, r, later, token, Replacement.Writing)],
               touched := s.touched + {id}, commands := s.commands[id := token])
  {
    PersistIs(c, s, StageEnds(id));
  }

  lemma LandStep(c: Format, s: System, id: nat)
    requires id in s.commands
    ensures Step(c, s, WriteLands(id)) ==
            s.(keychain := Some(s.commands[id]), commands := s.commands - {id}, wrote := s.wrote + {id})
  {
    PersistIs(c, s, WriteLands(id));
  }

  lemma ReturnStep(c: Format, s: System, id: nat, sequence: int, r: Event, later: int, token: int)
    requires id in s.parties && s.parties[id] == Persists(sequence, r, later, token, Replacement.Writing) && id in s.wrote
    ensures Step(c, s, StageEnds(id)) == s.(parties := s.parties[id := ReplacePersisted(r, later, token)])
  {
    PersistIs(c, s, StageEnds(id));
  }

  lemma WrittenState(c: Format, s: System, id: nat, sequence: int, r: Event, later: int, token: int)
    requires id in s.parties && s.parties[id] == Persists(sequence, r, later, token, Replacement.Replacing)
    ensures Written(c, s, id) ==
            s.(parties := s.parties[id := ReplacePersisted(r, later, token)], touched := s.touched + {id},
               commands := s.commands - {id}, wrote := s.wrote + {id}, keychain := Some(token))
  {
    CommandStep(c, s, id, sequence, r, later, token);
    var s1 := Step(c, s, StageEnds(id));
    LandStep(c, s1, id);
    ReturnStep(c, Step(c, s1, WriteLands(id)), id, sequence, r, later, token);
    assert s.commands[id := token] - {id} == s.commands - {id};
  }

  lemma FinishStep(c: Format, s: System, id: nat, r: Event, later: int, token: int)
    requires id in s.parties && s.parties[id] == ReplacePersisted(r, later, token)
    requires s.journal.loaded && s.journal.latest == Some(r) && WellFormed(r) && r.state.ReauthorizationReserved?
    requires r.source < token <= later && HasRoom(c, s.journal.disk, Unblocking(r, later, token))
    ensures var t := Step(c, s, FinishReplace(id, Commits));
            && t.journal.latest == Some(Unblocking(r, later, token)) && t.keychain == s.keychain
            && t.parties == s.parties - {id} && t.holder.None? && t.refreshed == s.refreshed
  {
    StepIsAct(c, s, FinishReplace(id, Commits));
    FinishReplaceActs(c, s, id, Commits);
    FinishCommits(c, s.journal, r, later, token);
  }

  lemma PersistedState(c: Format, s: System, id: nat, blocked: Event, r: Event, later: int, token: int)
    requires id in s.parties && s.parties[id] == Replaces(blocked, r) && blocked.source < token <= later
    ensures Persisting(c, s, id, later, token) ==
            s.(parties := s.parties[id := ReplacePersisted(r, later, token)], touched := s.touched + {id},
               commands := s.commands - {id}, wrote := s.wrote + {id}, keychain := Some(token))
  {
    CheckedState(c, s, id, blocked, r, later, token);
    WrittenState(c, Checked(c, s, id, later, token), id, blocked.sequence, r, later, token);
  }

  function Replacing(c: Format, s: System, now: int, later: int, token: int): System
  {
    var begun := Step(c, s, StartReplace(now, CLEAN));
    Step(c, Persisting(c, begun, s.next, later, token), FinishReplace(s.next, Commits))
  }

  predicate Unblocked(s: System, t: System, blocked: Event, later: int, token: int)
  {
    && t.journal.latest == Some(Unblocking(blocked, later, token)) && t.keychain == Some(token)
    && t.parties == s.parties && t.holder.None? && t.refreshed == s.refreshed
  }

  /** Where the persister has returned, with everything else as before the replacement. */
  predicate Returned(c: Format, s: System, p: System, r: Event, later: int, token: int)
  {
    var id := s.next;
    && p.journal == s.journal.(disk := With(c, s.journal.disk, r), latest := Some(r))
    && p.parties == s.parties[id := ReplacePersisted(r, later, token)]
    && p.keychain == Some(token) && p.refreshed == s.refreshed
  }

  lemma ReturnsFrom(c: Format, s: System, begun: System, blocked: Event, r: Event, later: int, token: int)
    requires begun.journal == s.journal.(disk := With(c, s.journal.disk, r), latest := Some(r))
    requires begun.parties == s.parties[s.next := Replaces(blocked, r)] && begun.refreshed == s.refreshed
    requires blocked.source < token <= later
    ensures Returned(c, s, Persisting(c, begun, s.next, later, token), r, later, token)
  {
    PersistedState(c, begun, s.next, blocked, r, later, token);
  }

  lemma FinishesFrom(c: Format, s: System, p: System, blocked: Event, r: Event, later: int, token: int)
    requires Returned(c, s, p, r, later, token) && s.journal.loaded && s.next !in s.parties
    requires r.sequence == blocked.sequence && r.source == blocked.source
    requires WellFormed(r) && r.state.ReauthorizationReserved? && r.source < token <= later
    requires HasRoom(c, p.journal.disk, Unblocking(r, later, token))
    ensures Unblocked(s, Step(c, p, FinishReplace(s.next, Commits)), blocked, later, token)
  {
    FinishStep(c, p, s.next, r, later, token);
    assert s.parties[s.next := ReplacePersisted(r, later, token)] - {s.next} == s.parties;
  }

  /** An undisturbed reauthorization: the blocked sequence ends with the evidence that is now in the Keychain. */
  lemma ReplacementUnblocks(c: Format, s: System, blocked: Event, now: int, later: int, token: int)
    requires Blocked(s, blocked) && blocked.source <= now && blocked.source < token <= later
    requires HasRoom(c, s.journal.disk, Reservation(blocked, now))
    requires HasRoom(c, With(c, s.journal.disk, Reservation(blocked, now)), Unblocking(blocked, later, token))
    ensures Unblocked(s, Replacing(c, s, now, later, token), blocked, later, token)
  {
    var id, r := s.next, Reservation(blocked, now);
    BeginStep(c, s, blocked, now);
    var begun := Step(c, s, StartReplace(now, CLEAN));
    ReturnsFrom(c, s, begun, blocked, r, later, token);
    FinishesFrom(c, s, Persisting(c, begun, id, later, token), blocked, r, later, token);
  }
}
