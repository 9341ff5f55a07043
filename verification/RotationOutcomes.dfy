/**
 What an undisturbed call of each party ends with, in every case: a refresh that finds nothing to do, a rotation to
 recover, or a remote refusal; a reconciliation with and without evidence; a replacement that fails.
 */
module RotationOutcomes {
  import opened Wrappers
  import opened AppendLog
  import opened RotationEvents
  import opened RotationJournal
  import opened JournalAnswers
  import opened RotationRuns
  import opened RotationInvariant
  import opened RotationSteps
  import opened RotationProgress
  import Replacement = RotationReplacement

  /** The journal queue is free, and the file loads if it is not loaded yet. */
  predicate Opens(c: Format, s: System)
  {
    s.holder.None? && Load(c, s.journal, Loads).1.Ok?
  }

  function Opened(c: Format, s: System): Journal
  {
    Load(c, s.journal, Loads).0
  }

  lemma OpenedFacts(c: Format, s: System)
    requires SystemInv(c, s) && Opens(c, s)
    ensures var j := Opened(c, s);
            && j.loaded && JournalInv(c, j) && j.active == s.journal.active && s.next !in s.parties
            && !TakenBack(c, s.journal, j) && Load(c, s.journal, Loads) == (j, Ok(()))
  {
    LoadKeeps(c, s.journal, Loads);
    LoadTakesNothingBack(c, s.journal, Opened(c, s));
  }

  lemma AnyStep(c: Format, s: System, a: Action, t: System)
    requires Act(c, s, a) == t && !TakenBack(c, s.journal, t.journal)
    ensures Step(c, s, a) == t
  {
  }

  /** A call that is not there does nothing. */
  lemma AbsentStep(c: Format, s: System, a: Action)
    requires (a.ReadCredential? || a.DecideRefresh? || a.RunReserve? || a.RunSettle?
              || a.ReadEvidence? || a.CheckReconcile?) && a.id !in s.parties
    ensures Step(c, s, a) == s
  {
    SameTakesNothingBack(c, s.journal);
    assert Act(c, s, a) == s;
  }

  /** A step of a call that leaves the journal alone. */
  predicate Private(a: Action)
  {
    a.ReadCredential? || a.DecideRefresh? || a.ReadEvidence?
  }

  lemma PrivateStep(c: Format, s: System, a: Action)
    requires Private(a)
    ensures Step(c, s, a) == Act(c, s, a)
  {
    assert Act(c, s, a).journal == s.journal;
    SameTakesNothingBack(c, s.journal);
  }

  // A refresh

  /** From its start to its decision, and the settlement if that is what it decided; a reservation stays undone. */
  function Refreshing(c: Format, s: System, usable: bool, now: int): System
  {
    Step(c, RefreshDecides(c, s, usable, now), RunSettle(s.next, CLEAN))
  }

  function RefreshDecides(c: Format, s: System, usable: bool, now: int): System
  {
    Step(c, Step(c, Step(c, s, StartRefresh(CLEAN)), ReadCredential(s.next, usable)), DecideRefresh(s.next, now))
  }

  lemma RefreshStarts(c: Format, s: System)
    requires SystemInv(c, s) && Opens(c, s)
    ensures var j := Opened(c, s);
            Step(c, s, StartRefresh(CLEAN)) ==
            s.(journal := j, parties := s.parties[s.next := RefreshRead(j.latest)], next := s.next + 1)
  {
    OpenedFacts(c, s);
    var j := Opened(c, s);
    assert Inspect(c, s.journal, CLEAN) == (j, Ok(j.latest));
    StartRefreshActs(c, s, CLEAN);
    AnyStep(c, s, StartRefresh(CLEAN),
            s.(journal := j, parties := s.parties[s.next := RefreshRead(j.latest)], next := s.next + 1));
  }

  lemma ReadsNothing(c: Format, s: System, id: nat, usable: bool)
    requires id in s.parties && s.parties[id].RefreshRead? && s.keychain.None?
    ensures Step(c, s, ReadCredential(id, usable)) == s.(parties := s.parties - {id})
  {
    PrivateStep(c, s, ReadCredential(id, usable));
  }

  lemma ReadsCredential(c: Format, s: System, id: nat, latest: Option<Event>, usable: bool)
    requires id in s.parties && s.parties[id] == RefreshRead(latest) && s.keychain.Some?
    ensures Step(c, s, ReadCredential(id, usable)) ==
            s.(parties := s.parties[id := RefreshHas(latest, s.keychain.value, usable)])
  {
    PrivateStep(c, s, ReadCredential(id, usable));
  }

  /** The last event is a reservation of a refresh of this process that is still under way. */
  predicate UnderWay(j: Journal)
  {
    j.latest.Some? && j.latest.value.state.Reserved? && j.active == Some(j.latest.value.sequence)
  }

  /** Whether the credential in the Keychain shows that something was written since the reservation. */
  predicate Evident(latest: Option<Event>, keychain: Option<int>)
  {
    latest.Some? && keychain.Some? && keychain.value > latest.value.source
  }

  /**
   When there is nothing for a refresh to do: no credential; the last rotation is over and its result is later than
   the credential, or the credential is usable; a refresh is under way; or the last rotation is open, not
   just reserved, and without evidence.
   */
  predicate NothingToRefresh(j: Journal, keychain: Option<int>, usable: bool)
  {
    || keychain.None?
    || (Over(j.latest) && usable)
    || (Over(j.latest) && j.latest.Some? && j.latest.value.result.Some? && keychain.value < j.latest.value.result.value)
    || UnderWay(j)
    || (!Over(j.latest) && !j.latest.value.state.Reserved? && !Evident(j.latest, keychain))
  }

  lemma DecidesNothing(c: Format, s: System, id: nat, obtained: int, usable: bool, now: int)
    requires id in s.parties && s.parties[id] == RefreshHas(s.journal.latest, obtained, usable)
    requires NothingToRefresh(s.journal, Some(obtained), usable)
    ensures Step(c, s, DecideRefresh(id, now)) == s.(parties := s.parties - {id})
  {
    PrivateStep(c, s, DecideRefresh(id, now));
  }

  lemma Undone(s: System, p: Party)
    requires s.next !in s.parties
    ensures s.parties[s.next := p] - {s.next} == s.parties
  {
  }

  lemma Overwritten(s: System, p: Party, q: Party)
    ensures s.parties[s.next := p][s.next := q] == s.parties[s.next := q]
  {
  }

  lemma EndsUndone(c: Format, s: System, t: System, p: Party)
    requires SystemInv(c, s) && Opens(c, s)
    requires t == s.(journal := Opened(c, s), parties := s.parties[s.next := p] - {s.next}, next := s.next + 1)
    ensures Step(c, t, RunSettle(s.next, CLEAN)) == s.(journal := Opened(c, s), next := s.next + 1)
  {
    OpenedFacts(c, s);
    Undone(s, p);
    AbsentStep(c, t, RunSettle(s.next, CLEAN));
  }

  /**
   An undisturbed refresh with nothing to do leaves everything as it was: the journal, once loaded, the Keychain,
   the record of remote calls and of settlements, and the other calls.
   */
  lemma RefreshStandsStill(c: Format, s: System, usable: bool, now: int)
    requires SystemInv(c, s) && Opens(c, s) && NothingToRefresh(Opened(c, s), s.keychain, usable)
    ensures Refreshing(c, s, usable, now) == s.(journal := Opened(c, s), next := s.next + 1)
  {
    var id, j := s.next, Opened(c, s);
    RefreshStarts(c, s);
    var s1 := Step(c, s, StartRefresh(CLEAN));
    if s.keychain.None? {
      ReadsNothing(c, s1, id, usable);
      AbsentStep(c, Step(c, s1, ReadCredential(id, usable)), DecideRefresh(id, now));
      EndsUndone(c, s, Step(c, s1, ReadCredential(id, usable)), RefreshRead(j.latest));
    } else {
      ReadsCredential(c, s1, id, j.latest, usable);
      var s2 := Step(c, s1, ReadCredential(id, usable));
      DecidesNothing(c, s2, id, s.keychain.value, usable, now);
      Overwritten(s, RefreshRead(j.latest), RefreshHas(j.latest, s.keychain.value, usable));
      EndsUndone(c, s, Step(c, s2, DecideRefresh(id, now)), RefreshHas(j.latest, s.keychain.value, usable));
    }
  }

  /** The event that ends an open sequence on the evidence in the Keychain. */
  function Recovery(open: Event, now: int, evidence: int): Event
  {
    Event(CURRENT_VERSION, open.sequence,
          if open.state.Reserved? || open.state.Uncertain? then Completed else Reauthorized,
          open.source, now, Some(evidence))
  }

  function GivenUp(open: Event, now: int): Event
  {
    Event(CURRENT_VERSION, open.sequence, Uncertain, open.source, now, None)
  }

  /** The settlement that an open rotation asks for: on evidence it ends, without evidence a reservation is uncertain. */
  function Asked(open: Event, keychain: int, now: int): Event
  {
    if keychain > open.source then Recovery(open, now, keychain) else GivenUp(open, now)
  }

  /** An open sequence that a refresh settles: any with evidence, and a reservation without it. */
  predicate ToSettle(j: Journal, keychain: Option<int>)
  {
    && !Over(j.latest) && keychain.Some? && !UnderWay(j)
    && (Evident(j.latest, keychain) || j.latest.value.state.Reserved?)
  }

  function Settling(e: Event): Party
  {
    Settles(e.sequence, e.state, e.recorded, e.result)
  }

  lemma DecidesToSettle(c: Format, s: System, id: nat, obtained: int, usable: bool, now: int)
    requires id in s.parties && s.parties[id] == RefreshHas(s.journal.latest, obtained, usable)
    requires ToSettle(s.journal, Some(obtained))
    ensures Step(c, s, DecideRefresh(id, now)) ==
            s.(parties := s.parties[id := Settling(Asked(s.journal.latest.value, obtained, now))])
  {
    PrivateStep(c, s, DecideRefresh(id, now));
  }

  /** What the clock, the version and the file must allow for the settlement to be written. */
  predicate Writable(c: Format, j: Journal, e: Event)
  {
    && j.latest.Some? && HasRoom(c, j.disk, e)
    && e.source <= e.recorded && (e.result.Some? ==> e.source < e.result.value <= e.recorded)
    && (j.latest.value.state.ReauthorizationRequired? ==> j.latest.value.version < CURRENT_VERSION)
  }

  /** The state after the settlement `e` of a call that has ended with it. */
  function After(c: Format, s: System, j: Journal, e: Event): System
  {
    s.(journal := Journal(With(c, j.disk, e), true, Some(e), None), next := s.next + 1,
       settled := if e.result.Some? then s.settled + [Settlement(e.sequence, e.source, e.result.value)] else s.settled)
  }

  lemma SettleWrites(c: Format, j: Journal, keychain: int, now: int)
    requires j.loaded && j.latest.Some? && WellFormed(j.latest.value) && ToSettle(j, Some(keychain))
    requires Writable(c, j, Asked(j.latest.value, keychain, now))
    ensures var e := Asked(j.latest.value, keychain, now);
            Settle(c, j, e.sequence, e.state, e.recorded, e.result, CLEAN) ==
            (Journal(With(c, j.disk, e), true, Some(e), None), Ok(e))
  {
    var e := Asked(j.latest.value, keychain, now);
    assert BuildEvent(e) == Ok(e);
    assert ValidTransition(j.latest, e);
  }

  lemma SettleRuns(c: Format, s: System, j: Journal, e: Event, t: System)
    requires s.next !in s.parties && s.holder.None?
    requires t == s.(journal := j, parties := s.parties[s.next := Settling(e)], next := s.next + 1)
    requires Settle(c, j, e.sequence, e.state, e.recorded, e.result, CLEAN) ==
             (Journal(With(c, j.disk, e), true, Some(e), None), Ok(e))
    ensures UpToReverted(Step(c, t, RunSettle(s.next, CLEAN)), After(c, s, j, e))
  {
    RunSettleActs(c, t, s.next, CLEAN);
    StepIsAct(c, t, RunSettle(s.next, CLEAN));
    Undone(s, Settling(e));
  }

  /**
   An undisturbed refresh that finds the last rotation open. With a credential beyond its source, any open
   sequence ends on that evidence: as completed if it was reserved or uncertain, as reauthorized if it was blocked.
   Without one, a reservation that no call of this process holds becomes uncertain. Nothing is refreshed.
   */
  lemma RefreshSettles(c: Format, s: System, usable: bool, now: int)
    requires SystemInv(c, s) && Opens(c, s) && ToSettle(Opened(c, s), s.keychain)
    requires Writable(c, Opened(c, s), Asked(Opened(c, s).latest.value, s.keychain.value, now))
    ensures UpToReverted(Refreshing(c, s, usable, now),
                         After(c, s, Opened(c, s), Asked(Opened(c, s).latest.value, s.keychain.value, now)))
  {
    var id, j, obtained := s.next, Opened(c, s), s.keychain.value;
    OpenedFacts(c, s);
    RefreshStarts(c, s);
    var s1 := Step(c, s, StartRefresh(CLEAN));
    ReadsCredential(c, s1, id, j.latest, usable);
    var s2 := Step(c, s1, ReadCredential(id, usable));
    DecidesToSettle(c, s2, id, obtained, usable, now);
    var e := Asked(j.latest.value, obtained, now);
    Overwritten(s, RefreshRead(j.latest), RefreshHas(j.latest, obtained, usable));
    Overwritten(s, RefreshHas(j.latest, obtained, usable), Settling(e));
    SettleWrites(c, j, obtained, now);
    SettleRuns(c, s, j, e, RefreshDecides(c, s, usable, now));
  }

  lemma BlockedRefuses(c: Format, j: Journal, keychain: int, now: int)
    requires j.loaded && j.latest.Some? && WellFormed(j.latest.value) && ToSettle(j, Some(keychain))
    requires j.latest.value.state.ReauthorizationRequired? && j.latest.value.version == CURRENT_VERSION
    ensures var e := Asked(j.latest.value, keychain, now);
            Settle(c, j, e.sequence, e.state, e.recorded, e.result, CLEAN).0 == j &&
            Settle(c, j, e.sequence, e.state, e.recorded, e.result, CLEAN).1.Err?
  {
    assert !ValidTransition(j.latest, Asked(j.latest.value, keychain, now));
  }

  lemma RefusalRuns(c: Format, s: System, j: Journal, e: Event, t: System)
    requires s.next !in s.parties && s.holder.None?
    requires t == s.(journal := j, parties := s.parties[s.next := Settling(e)], next := s.next + 1)
    requires Settle(c, j, e.sequence, e.state, e.recorded, e.result, CLEAN).0 == j
    requires Settle(c, j, e.sequence, e.state, e.recorded, e.result, CLEAN).1.Err?
    ensures Step(c, t, RunSettle(s.next, CLEAN)) == s.(journal := j, next := s.next + 1)
  {
    RunSettleActs(c, t, s.next, CLEAN);
    Undone(s, Settling(e));
    SameTakesNothingBack(c, j);
    AnyStep(c, t, RunSettle(s.next, CLEAN), s.(journal := j, next := s.next + 1));
  }

  /** A sequence that the current version blocked is left to a replacement: evidence or not, nothing changes. */
  lemma RefreshLeavesBlocked(c: Format, s: System, usable: bool, now: int)
    requires SystemInv(c, s) && Opens(c, s) && Opened(c, s).latest.Some?
    requires Opened(c, s).latest.value.state.ReauthorizationRequired?
    requires Opened(c, s).latest.value.version == CURRENT_VERSION
    ensures Refreshing(c, s, usable, now) == s.(journal := Opened(c, s), next := s.next + 1)
  {
    var id, j := s.next, Opened(c, s);
    OpenedFacts(c, s);
    if !Evident(j.latest, s.keychain) {
      RefreshStandsStill(c, s, usable, now);
    } else {
      var obtained := s.keychain.value;
      RefreshStarts(c, s);
      var s1 := Step(c, s, StartRefresh(CLEAN));
      ReadsCredential(c, s1, id, j.latest, usable);
      DecidesToSettle(c, Step(c, s1, ReadCredential(id, usable)), id, obtained, usable, now);
      var e := Asked(j.latest.value, obtained, now);
      Overwritten(s, RefreshRead(j.latest), RefreshHas(j.latest, obtained, usable));
      Overwritten(s, RefreshHas(j.latest, obtained, usable), Settling(e));
      BlockedRefuses(c, j, obtained, now);
      RefusalRuns(c, s, j, e, RefreshDecides(c, s, usable, now));
    }
  }

  predicate Starts(a: Action)
  {
    a.StartRefresh? || a.StartReconcile? || a.StartReplace?
  }

  /** While a replacement holds the queue nothing starts. */
  lemma HeldStartsNothing(c: Format, s: System, a: Action)
    requires s.holder.Some? && Starts(a)
    ensures Step(c, s, a) == s
  {
    SameTakesNothingBack(c, s.journal);
    assert Act(c, s, a) == s;
  }

  lemma UnloadedActs(c: Format, s: System, a: Action)
    requires s.holder.None? && Starts(a) && Load(c, s.journal, a.io.load).1.Err?
    ensures Act(c, s, a) == s.(journal := Load(c, s.journal, a.io.load).0)
  {
    match a
    case StartRefresh(io) => StartRefreshActs(c, s, io);
    case StartReconcile(io) => StartReconcileActs(c, s, io);
    case StartReplace(now, io) => StartReplaceActs(c, s, now, io);
  }

  /** Where the file does not load no call comes of it. */
  lemma UnloadedStartsNothing(c: Format, s: System, a: Action)
    requires SystemInv(c, s) && s.holder.None? && Starts(a) && Load(c, s.journal, a.io.load).1.Err?
    ensures Step(c, s, a) == s.(journal := Load(c, s.journal, a.io.load).0)
  {
    UnloadedActs(c, s, a);
    LoadKeeps(c, s.journal, a.io.load);
    LoadTakesNothingBack(c, s.journal, Load(c, s.journal, a.io.load).0);
  }

  /** A reservation that is refused or not written ends the call before anything remote happens. */
  lemma UnreservedEnds(c: Format, s: System, id: nat, io: Io)
    requires id in s.parties && s.parties[id].RefreshReserves? && s.holder.None? && s.journal.loaded
    requires Reserve(c, s.journal, s.parties[id].source, s.parties[id].recorded, io).1.Err?
    ensures var t := Step(c, s, RunReserve(id, io));
            && t.parties == s.parties - {id} && t.refreshed == s.refreshed && t.keychain == s.keychain
            && t.settled == s.settled && t.journal.latest == s.journal.latest && t.journal.active == s.journal.active
  {
    StepIsAct(c, s, RunReserve(id, io));
    RunReserveActs(c, s, id, io);
  }

  // A remote refresh that does not succeed

  /** What came back brought no later credential. */
  predicate Fails(answer: Answer, source: int)
  {
    answer.Rotated? ==> answer.obtainedAt <= source
  }

  function Failure(opening: Event, answer: Answer, later: int): Event
  {
    Event(CURRENT_VERSION, opening.sequence, if answer.Refused? then ReauthorizationRequired else Uncertain,
          opening.source, later, None)
  }

  /** What the Keychain holds after an outcome of which only the write is known. */
  function Stored(answer: Answer, source: int, keychain: Option<int>): Option<int>
  {
    if answer.LostAfterWrite? && answer.obtainedAt > source then Some(answer.obtainedAt) else keychain
  }

  function FailingRemotely(c: Format, s: System, id: nat, answer: Answer, later: int): System
  {
    Step(c, Step(c, Step(c, s, CallRemote(id)), RemoteAnswers(id, answer, Some(later))), CloseRefresh(id, CLEAN))
  }

  lemma FailingAnswer(c: Format, s: System, id: nat, e: Event, answer: Answer, later: int)
    requires id in s.parties && s.parties[id] == RefreshCalled(e) && Fails(answer, e.source)
    ensures Step(c, s, RemoteAnswers(id, answer, Some(later))) ==
            s.(parties := s.parties[id := RefreshCloses(e, Failure(e, answer, later).state, later, None)],
               keychain := Stored(answer, e.source, s.keychain))
  {
    RemoteIs(c, s, RemoteAnswers(id, answer, Some(later)));
  }

  lemma FailureCommits(c: Format, j: Journal, e: Event, answer: Answer, later: int)
    requires j.loaded && j.latest == Some(e) && WellFormed(e) && e.state.Reserved? && e.source <= later
    requires HasRoom(c, j.disk, Failure(e, answer, later))
    ensures var f := Failure(e, answer, later);
            Settle(c, j, e.sequence, f.state, later, None, CLEAN) == (Journal(With(c, j.disk, f), true, Some(f), None), Ok(f))
  {
    var f := Failure(e, answer, later);
    assert BuildEvent(f) == Ok(f);
    assert ValidTransition(j.latest, f);
  }

  lemma FailingClose(c: Format, s: System, id: nat, e: Event, answer: Answer, later: int)
    requires id in s.parties && s.parties[id] == RefreshCloses(e, Failure(e, answer, later).state, later, None)
    requires s.holder.None? && s.journal.loaded && s.journal.latest == Some(e) && WellFormed(e) && e.state.Reserved?
    requires e.source <= later && HasRoom(c, s.journal.disk, Failure(e, answer, later))
    ensures var f := Failure(e, answer, later);
            UpToReverted(Step(c, s, CloseRefresh(id, CLEAN)),
                         s.(journal := Journal(With(c, s.journal.disk, f), true, Some(f), None), parties := s.parties - {id}))
  {
    FailureCommits(c, s.journal, e, answer, later);
    StepIsAct(c, s, CloseRefresh(id, CLEAN));
    CloseRefreshActs(c, s, id, CLEAN);
  }

  /**
   A refresh that has its reservation and gets no later credential from the remote endpoint: after one remote call
   the sequence requires reauthorization if the endpoint refused, and is uncertain in every other case,
   also if the write had been done. The Keychain changes only by that write.
   */
  lemma RemoteFailureIsRecorded(c: Format, s: System, id: nat, e: Event, answer: Answer, later: int)
    requires id in s.parties && s.parties[id] == RefreshReserved(e) && s.holder.None?
    requires s.journal.loaded && s.journal.latest == Some(e) && WellFormed(e) && e.state.Reserved?
    requires Fails(answer, e.source) && e.source <= later && HasRoom(c, s.journal.disk, Failure(e, answer, later))
    ensures var f := Failure(e, answer, later);
            UpToReverted(FailingRemotely(c, s, id, answer, later),
                         s.(journal := Journal(With(c, s.journal.disk, f), true, Some(f), None), parties := s.parties - {id},
                            keychain := Stored(answer, e.source, s.keychain), refreshed := s.refreshed + [e.source]))
  {
    CallStep(c, s, id, e);
    var s1 := Step(c, s, CallRemote(id));
    FailingAnswer(c, s1, id, e, answer, later);
    var s2 := Step(c, s1, RemoteAnswers(id, answer, Some(later)));
    FailingClose(c, s2, id, e, answer, later);
    assert s2.parties - {id} == s.parties - {id};
  }

  // A reconciliation

  function Reconciling(c: Format, s: System, expired: bool, now: int): System
  {
    Step(c, Checking(c, s, expired, now), RunSettle(s.next, CLEAN))
  }

  function Checking(c: Format, s: System, expired: bool, now: int): System
  {
    Step(c, Step(c, Step(c, s, StartReconcile(CLEAN)), ReadEvidence(s.next, expired)), CheckReconcile(s.next, now, CLEAN))
  }

  /** Open sequences that evidence can end, unless a refresh of this process is working on them. */
  predicate Unsettled(j: Journal)
  {
    && j.latest.Some? && !UnderWay(j)
    && (j.latest.value.state.Reserved? || j.latest.value.state.Uncertain? || j.latest.value.state.ReauthorizationReserved?)
  }

  lemma ReconcileStarts(c: Format, s: System)
    requires SystemInv(c, s) && Opens(c, s)
    ensures var j := Opened(c, s);
            Step(c, s, StartReconcile(CLEAN)) ==
            if Unsettled(j) then
              s.(journal := j, parties := s.parties[s.next := ReconcileRead(j.latest.value)], next := s.next + 1)
            else s.(journal := j)
  {
    OpenedFacts(c, s);
    var j := Opened(c, s);
    assert Inspect(c, s.journal, CLEAN) == (j, Ok(j.latest));
    StartReconcileActs(c, s, CLEAN);
    AnyStep(c, s, StartReconcile(CLEAN), Act(c, s, StartReconcile(CLEAN)));
  }

  lemma ReadsEvidence(c: Format, s: System, id: nat, e: Event, expired: bool)
    requires id in s.parties && s.parties[id] == ReconcileRead(e)
    ensures Step(c, s, ReadEvidence(id, expired)) ==
            if s.keychain.Some? && !expired && s.keychain.value > e.source
            then s.(parties := s.parties[id := ReconcileHas(e, s.keychain.value)])
            else s.(parties := s.parties - {id})
  {
    PrivateStep(c, s, ReadEvidence(id, expired));
  }

  lemma ChecksAgain(c: Format, s: System, id: nat, obtained: int, now: int)
    requires s.journal.loaded && s.journal.latest.Some? && s.holder.None?
    requires id in s.parties && s.parties[id] == ReconcileHas(s.journal.latest.value, obtained)
    requires Unsettled(s.journal)
    ensures Step(c, s, CheckReconcile(id, now, CLEAN)) ==
            s.(parties := s.parties[id := Settling(Recovery(s.journal.latest.value, now, obtained))])
  {
    CheckReconcileActs(c, s, id, now, CLEAN);
    SameTakesNothingBack(c, s.journal);
  }

  /** An undisturbed reconciliation with an unexpired credential beyond the source ends the sequence on that evidence. */
  lemma ReconcilerSettles(c: Format, s: System, now: int)
    requires SystemInv(c, s) && Opens(c, s) && Unsettled(Opened(c, s)) && Evident(Opened(c, s).latest, s.keychain)
    requires Writable(c, Opened(c, s), Recovery(Opened(c, s).latest.value, now, s.keychain.value))
    ensures UpToReverted(Reconciling(c, s, false, now),
                         After(c, s, Opened(c, s), Recovery(Opened(c, s).latest.value, now, s.keychain.value)))
  {
    var id, j, obtained := s.next, Opened(c, s), s.keychain.value;
    OpenedFacts(c, s);
    ReconcileStarts(c, s);
    var s1 := Step(c, s, StartReconcile(CLEAN));
    ReadsEvidence(c, s1, id, j.latest.value, false);
    var s2 := Step(c, s1, ReadEvidence(id, false));
    ChecksAgain(c, s2, id, obtained, now);
    Overwritten(s, ReconcileRead(j.latest.value), ReconcileHas(j.latest.value, obtained));
    Overwritten(s, ReconcileHas(j.latest.value, obtained), Settling(Recovery(j.latest.value, now, obtained)));
    SettleWrites(c, j, obtained, now);
    SettleRuns(c, s, j, Recovery(j.latest.value, now, obtained), Checking(c, s, false, now));
  }

  lemma StaysAbsent(c: Format, t: System, id: nat, now: int)
    requires id !in t.parties
    ensures Step(c, Step(c, t, CheckReconcile(id, now, CLEAN)), RunSettle(id, CLEAN)) == t
  {
    AbsentStep(c, t, CheckReconcile(id, now, CLEAN));
    AbsentStep(c, t, RunSettle(id, CLEAN));
  }

  /** With an expired credential, one that is not beyond the source, or nothing open, everything stays as it was. */
  lemma ReconcilerStandsStill(c: Format, s: System, expired: bool, now: int)
    requires SystemInv(c, s) && Opens(c, s)
    requires !Unsettled(Opened(c, s)) || expired || !Evident(Opened(c, s).latest, s.keychain)
    ensures var t := Reconciling(c, s, expired, now);
            t == s.(journal := Opened(c, s), next := t.next)
  {
    var id, j := s.next, Opened(c, s);
    OpenedFacts(c, s);
    ReconcileStarts(c, s);
    var s1 := Step(c, s, StartReconcile(CLEAN));
    if Unsettled(j) {
      ReadsEvidence(c, s1, id, j.latest.value, expired);
      Undone(s, ReconcileRead(j.latest.value));
    } else {
      AbsentStep(c, s1, ReadEvidence(id, expired));
    }
    StaysAbsent(c, Step(c, s1, ReadEvidence(id, expired)), id, now);
  }

  /** The journal is looked at again: where the event has changed meanwhile the reconciliation ends without a settlement. */
  lemma ReconcilerRechecks(c: Format, s: System, id: nat, e: Event, obtained: int, now: int)
    requires s.journal.loaded && s.holder.None? && id in s.parties && s.parties[id] == ReconcileHas(e, obtained)
    requires var latest := s.journal.latest;
             latest.None? || latest.value.sequence != e.sequence || latest.value.state != e.state || latest.value.source != e.source
    ensures Step(c, s, CheckReconcile(id, now, CLEAN)) == s.(parties := s.parties - {id})
  {
    CheckReconcileActs(c, s, id, now, CLEAN);
    SameTakesNothingBack(c, s.journal);
  }

  // A replacement that is refused or fails

  /** Without a blocked sequence a replacement does not begin. */
  lemma ReplacementRefused(c: Format, s: System, now: int)
    requires SystemInv(c, s) && Opens(c, s)
    requires var latest := Opened(c, s).latest; latest.None? || !latest.value.state.ReauthorizationRequired?
    ensures Step(c, s, StartReplace(now, CLEAN)) == s.(journal := Opened(c, s))
  {
    OpenedFacts(c, s);
    StartReplaceActs(c, s, now, CLEAN);
    AnyStep(c, s, StartReplace(now, CLEAN), s.(journal := Opened(c, s)));
  }

  /** What the callback refuses before it does anything: its clock, its inputs, or a token outside the window. */
  predicate Unacceptable(
    source: int, clock: Option<int>, token: int, refusal: Option<Replacement.Thrown>, aborts: Replacement.Aborts)
  {
    || clock.None? || clock.value < source || token <= source || token > clock.value
    || (refusal.Some? && Replacement.Raises(Replacement.Checking, refusal.value, aborts))
  }

  /** The callback is over, and the call goes to restore its reservation. */
  function Unwound(s: System, id: nat, sequence: int): System
  {
    s.(holder := None, parties := s.parties[id := Restores(sequence)])
  }

  lemma EnterRefuses(
    c: Format, s: System, id: nat, blocked: Event, r: Event,
    clock: Option<int>, token: int, refusal: Option<Replacement.Thrown>, aborts: Replacement.Aborts)
    requires id in s.parties && s.parties[id] == Replaces(blocked, r) && Replacement.Monotone(aborts)
    requires Unacceptable(blocked.source, clock, token, refusal, aborts)
    ensures Step(c, s, EnterPersist(id, clock, token, refusal, aborts)) == Unwound(s, id, blocked.sequence)
  {
    PersistIs(c, s, EnterPersist(id, clock, token, refusal, aborts));
  }

  lemma StageRefuses(
    c: Format, s: System, id: nat, sequence: int, r: Event, recorded: int, token: int, stage: Replacement.Stage,
    error: Replacement.Thrown, aborts: Replacement.Aborts)
    requires id in s.parties && s.parties[id] == Persists(sequence, r, recorded, token, stage)
    requires Replacement.Raises(stage, error, aborts) && Replacement.Monotone(aborts)
    ensures Step(c, s, StageFails(id, error, aborts)) ==
            if stage.Writing? then s.(holder := None, parties := s.parties - {id}) else Unwound(s, id, sequence)
  {
    Replacement.LeftIffStarted(stage, error, aborts);
    PersistIs(c, s, StageFails(id, error, aborts));
  }

  function Required(r: Event, later: int): Event
  {
    Event(CURRENT_VERSION, r.sequence, ReauthorizationRequired, r.source, later, None)
  }

  lemma RestoreCommits(c: Format, j: Journal, r: Event, later: int)
    requires j.loaded && j.latest == Some(r) && WellFormed(r) && r.state.ReauthorizationReserved? && r.source <= later
    requires HasRoom(c, j.disk, Required(r, later))
    ensures var f := Required(r, later);
            Settle(c, j, r.sequence, ReauthorizationRequired, later, None, CLEAN) ==
            (Journal(With(c, j.disk, f), true, Some(f), None), Ok(f))
  {
    var f := Required(r, later);
    assert BuildEvent(f) == Ok(f);
    assert ValidTransition(j.latest, f);
  }

  lemma InspectsRestore(c: Format, s: System, id: nat, r: Event, later: int)
    requires id in s.parties && s.parties[id] == Restores(r.sequence) && s.holder.None?
    requires s.journal.loaded && s.journal.latest == Some(r) && r.state.ReauthorizationReserved?
    ensures Step(c, s, InspectRestore(id, later, CLEAN)) == s.(parties := s.parties[id := RestoreSettles(r.sequence, later)])
  {
    InspectRestoreActs(c, s, id, later, CLEAN);
    SameTakesNothingBack(c, s.journal);
  }

  lemma RunsRestore(c: Format, s: System, id: nat, r: Event, later: int)
    requires id in s.parties && s.parties[id] == RestoreSettles(r.sequence, later) && s.holder.None?
    requires s.journal.loaded && s.journal.latest == Some(r) && WellFormed(r) && r.state.ReauthorizationReserved?
    requires r.source <= later && HasRoom(c, s.journal.disk, Required(r, later)) && s.reservedBy == Some(id)
    ensures var f := Required(r, later);
            Step(c, s, RunRestore(id, CLEAN)) ==
            s.(journal := Journal(With(c, s.journal.disk, f), true, Some(f), None), parties := s.parties - {id},
               reverted := s.reverted + {id})
  {
    RestoreActs(c, s, id, CLEAN);
    RestoreCommits(c, s.journal, r, later);
  }

  function Restoring(c: Format, s: System, id: nat, later: int): System
  {
    Step(c, Step(c, s, InspectRestore(id, later, CLEAN)), RunRestore(id, CLEAN))
  }

  /** The sequence is blocked again, as before the replacement, and the reservation counts as taken back. */
  lemma RestoresReservation(c: Format, s: System, id: nat, r: Event, later: int)
    requires id in s.parties && s.parties[id] == Restores(r.sequence) && s.holder.None?
    requires s.journal.loaded && s.journal.latest == Some(r) && WellFormed(r) && r.state.ReauthorizationReserved?
    requires r.source <= later && HasRoom(c, s.journal.disk, Required(r, later)) && s.reservedBy == Some(id)
    ensures var f := Required(r, later);
            Restoring(c, s, id, later) ==
            s.(journal := Journal(With(c, s.journal.disk, f), true, Some(f), None), parties := s.parties - {id},
               reverted := s.reverted + {id})
  {
    InspectsRestore(c, s, id, r, later);
    var t := Step(c, s, InspectRestore(id, later, CLEAN));
    RunsRestore(c, t, id, r, later);
    assert t.parties - {id} == s.parties - {id};
  }

  /** The callback up to the start of the Keychain command, so far as it gets: after its checks, the principal or the bundle. */
  function Progressed(c: Format, s: System, id: nat, clock: int, token: int, stage: Replacement.Stage): System
    requires stage.Verifying? || stage.Encoding? || stage.Replacing?
  {
    var s1 := Step(c, s, EnterPersist(id, Some(clock), token, None, Replacement.Aborts(false, false, false)));
    if stage.Verifying? then s1
    else if stage.Encoding? then Step(c, s1, StageEnds(id))
    else Step(c, Step(c, s1, StageEnds(id)), StageEnds(id))
  }

  lemma ProgressedState(c: Format, s: System, id: nat, blocked: Event, r: Event, clock: int, token: int, stage: Replacement.Stage)
    requires stage.Verifying? || stage.Encoding? || stage.Replacing?
    requires id in s.parties && s.parties[id] == Replaces(blocked, r) && blocked.source < token <= clock
    ensures Progressed(c, s, id, clock, token, stage) ==
            s.(parties := s.parties[id := Persists(blocked.sequence, r, clock, token, stage)])
  {
    EnterStep(c, s, id, blocked, r, clock, token);
    var s1 := Step(c, s, EnterPersist(id, Some(clock), token, None, Replacement.Aborts(false, false, false)));
    if !stage.Verifying? {
      StageStep(c, s1, id, blocked.sequence, r, clock, token, Replacement.Verifying);
      if stage.Replacing? {
        StageStep(c, Step(c, s1, StageEnds(id)), id, blocked.sequence, r, clock, token, Replacement.Encoding);
      }
    }
  }

  /** A replacement has begun for a blocked sequence, and nothing else happened. */
  predicate Began(c: Format, s: System, t: System, blocked: Event, now: int)
  {
    var id, r := s.next, Reservation(blocked, now);
    && WellFormed(r)
    && UpToReverted(t, s.(journal := s.journal.(disk := With(c, s.journal.disk, r), latest := Some(r)),
                          parties := s.parties[id := Replaces(blocked, r)], next := id + 1, holder := Some(id),
                          reservedBy := Some(id)))
  }

  /** Back to where the replacement began, with two more events on record. */
  predicate BlockedAgain(c: Format, s: System, t: System, blocked: Event, now: int, later: int)
  {
    var r, f := Reservation(blocked, now), Required(Reservation(blocked, now), later);
    && t.journal == Journal(With(c, With(c, s.journal.disk, r), f), true, Some(f), None)
    && t.keychain == s.keychain && t.parties == s.parties && t.holder.None? && t.commands == s.commands
    && t.refreshed == s.refreshed && t.settled == s.settled && s.next in t.reverted
  }

  lemma RestoredParties(s: System, p: Party, q: Party)
    requires s.next !in s.parties
    ensures s.parties[s.next := p][s.next := q] - {s.next} == s.parties
  {
  }

  lemma RestoresFrom(c: Format, s: System, begun: System, t: System, blocked: Event, now: int, later: int)
    requires Blocked(s, blocked) && Began(c, s, begun, blocked, now) && blocked.source <= later
    requires t == Unwound(begun, s.next, blocked.sequence)
    requires HasRoom(c, With(c, s.journal.disk, Reservation(blocked, now)), Required(Reservation(blocked, now), later))
    ensures BlockedAgain(c, s, Restoring(c, t, s.next, later), blocked, now, later)
  {
    RestoresReservation(c, t, s.next, Reservation(blocked, now), later);
    RestoredParties(s, Replaces(blocked, Reservation(blocked, now)), Restores(blocked.sequence));
  }

  /**
   A replacement whose callback refuses, or whose principal check, encoding or Keychain access fails before the
   command is started, in whatever way: the sequence is blocked as before, so that it can be replaced again.
   */
  lemma RefusedReplacementRestores(
    c: Format, s: System, blocked: Event, now: int, clock: Option<int>, token: int,
    refusal: Option<Replacement.Thrown>, aborts: Replacement.Aborts, later: int)
    requires Blocked(s, blocked) && blocked.source <= now && blocked.source <= later && Replacement.Monotone(aborts)
    requires Unacceptable(blocked.source, clock, token, refusal, aborts)
    requires HasRoom(c, s.journal.disk, Reservation(blocked, now))
    requires HasRoom(c, With(c, s.journal.disk, Reservation(blocked, now)), Required(Reservation(blocked, now), later))
    ensures var begun := Step(c, s, StartReplace(now, CLEAN));
            var refused := Step(c, begun, EnterPersist(s.next, clock, token, refusal, aborts));
            BlockedAgain(c, s, Restoring(c, refused, s.next, later), blocked, now, later)
  {
    BeginStep(c, s, blocked, now);
    var begun := Step(c, s, StartReplace(now, CLEAN));
    EnterRefuses(c, begun, s.next, blocked, Reservation(blocked, now), clock, token, refusal, aborts);
    RestoresFrom(c, s, begun, Unwound(begun, s.next, blocked.sequence), blocked, now, later);
  }

  lemma FailsFrom(
    c: Format, s: System, id: nat, blocked: Event, r: Event, clock: int, token: int, stage: Replacement.Stage,
    error: Replacement.Thrown, aborts: Replacement.Aborts)
    requires id in s.parties && s.parties[id] == Replaces(blocked, r) && blocked.source < token <= clock
    requires stage.Verifying? || stage.Encoding? || stage.Replacing?
    requires Replacement.Raises(stage, error, aborts) && Replacement.Monotone(aborts)
    ensures Step(c, Progressed(c, s, id, clock, token, stage), StageFails(id, error, aborts)) ==
            Unwound(s, id, blocked.sequence)
  {
    ProgressedState(c, s, id, blocked, r, clock, token, stage);
    StageRefuses(c, Progressed(c, s, id, clock, token, stage), id, blocked.sequence, r, clock, token, stage, error, aborts);
    assert s.parties[id := Persists(blocked.sequence, r, clock, token, stage)][id := Restores(blocked.sequence)] ==
           s.parties[id := Restores(blocked.sequence)];
  }

  lemma FailedReplacementRestores(
    c: Format, s: System, blocked: Event, now: int, clock: int, token: int, stage: Replacement.Stage,
    error: Replacement.Thrown, aborts: Replacement.Aborts, later: int)
    requires Blocked(s, blocked) && blocked.source <= now && blocked.source <= later && blocked.source < token <= clock
    requires stage.Verifying? || stage.Encoding? || stage.Replacing?
    requires Replacement.Raises(stage, error, aborts) && Replacement.Monotone(aborts)
    requires HasRoom(c, s.journal.disk, Reservation(blocked, now))
    requires HasRoom(c, With(c, s.journal.disk, Reservation(blocked, now)), Required(Reservation(blocked, now), later))
    ensures var begun := Step(c, s, StartReplace(now, CLEAN));
            var failed := Step(c, Progressed(c, begun, s.next, clock, token, stage), StageFails(s.next, error, aborts));
            BlockedAgain(c, s, Restoring(c, failed, s.next, later), blocked, now, later)
  {
    BeginStep(c, s, blocked, now);
    var begun := Step(c, s, StartReplace(now, CLEAN));
    FailsFrom(c, begun, s.next, blocked, Reservation(blocked, now), clock, token, stage, error, aborts);
    RestoresFrom(c, s, begun, Unwound(begun, s.next, blocked.sequence), blocked, now, later);
  }

  /** The start of the command, and its failure from then on. */
  function StartThenFail(c: Format, s: System, id: nat, error: Replacement.Thrown, aborts: Replacement.Aborts): System
  {
    Step(c, Step(c, s, StageEnds(id)), StageFails(id, error, aborts))
  }

  lemma CommandFails(
    c: Format, s: System, id: nat, sequence: int, r: Event, clock: int, token: int,
    error: Replacement.Thrown, aborts: Replacement.Aborts)
    requires id in s.parties && s.parties[id] == Persists(sequence, r, clock, token, Replacement.Replacing)
    requires Replacement.Raises(Replacement.Writing, error, aborts) && Replacement.Monotone(aborts)
    ensures StartThenFail(c, s, id, error, aborts) ==
            s.(holder := None, parties := s.parties - {id}, touched := s.touched + {id}, commands := s.commands[id := token])
  {
    CommandStep(c, s, id, sequence, r, clock, token);
    var t := Step(c, s, StageEnds(id));
    StageRefuses(c, t, id, sequence, r, clock, token, Replacement.Writing, error, aborts);
    assert t.parties - {id} == s.parties - {id};
  }

  /** The reservation is on record, and the command may still take effect. */
  predicate LeftReserved(s: System, t: System, blocked: Event, now: int, token: int)
  {
    && t.journal.latest == Some(Reservation(blocked, now)) && t.keychain == s.keychain
    && t.parties == s.parties && t.holder.None? && t.commands == s.commands[s.next := token]
  }

  lemma StaysFrom(
    c: Format, s: System, begun: System, p: System, blocked: Event, now: int, clock: int, token: int,
    error: Replacement.Thrown, aborts: Replacement.Aborts)
    requires AtRest(s) && Began(c, s, begun, blocked, now)
    requires p == begun.(parties := begun.parties[s.next := Persists(blocked.sequence, Reservation(blocked, now), clock, token, Replacement.Replacing)])
    requires Replacement.Raises(Replacement.Writing, error, aborts) && Replacement.Monotone(aborts)
    ensures LeftReserved(s, StartThenFail(c, p, s.next, error, aborts), blocked, now, token)
  {
    CommandFails(c, p, s.next, blocked.sequence, Reservation(blocked, now), clock, token, error, aborts);
    assert p.parties - {s.next} == s.parties;
  }

  /** Where the command had been started the reservation stays, for the reconciler to end on what the Keychain shows. */
  lemma StartedReplacementStays(
    c: Format, s: System, blocked: Event, now: int, clock: int, token: int,
    error: Replacement.Thrown, aborts: Replacement.Aborts)
    requires Blocked(s, blocked) && blocked.source <= now && blocked.source < token <= clock
    requires Replacement.Raises(Replacement.Writing, error, aborts) && Replacement.Monotone(aborts)
    requires HasRoom(c, s.journal.disk, Reservation(blocked, now))
    ensures var p := Progressed(c, Step(c, s, StartReplace(now, CLEAN)), s.next, clock, token, Replacement.Replacing);
            LeftReserved(s, StartThenFail(c, p, s.next, error, aborts), blocked, now, token)
  {
    BeginStep(c, s, blocked, now);
    var begun := Step(c, s, StartReplace(now, CLEAN));
    ProgressedState(c, begun, s.next, blocked, Reservation(blocked, now), clock, token, Replacement.Replacing);
    StaysFrom(c, s, begun, Progressed(c, begun, s.next, clock, token, Replacement.Replacing), blocked, now, clock, token, error, aborts);
  }
}
