/** Every step of the rotation parties keeps the invariant: one lemma per kind of step. */
module RotationSteps {
  import opened Wrappers
  import opened AppendLog
  import opened RotationEvents
  import opened RotationJournal
  import opened RotationRuns
  import opened RotationInvariant
  import Replacement = RotationReplacement

  // Moves that leave the journal alone

  lemma EndingKeeps(c: Format, s: System, id: nat)
    requires SystemInv(c, s) && s.holder != Some(id)
    ensures SystemInv(c, Ended(s, id))
  {
    PartiesEnd(FactsOf(s), s.journal.loaded, s.parties, s.next, id);
    assert FactsOf(Ended(s, id)) == FactsOf(s);
  }

  lemma MovingKeeps(c: Format, s: System, id: nat, p: Party)
    requires SystemInv(c, s) && s.holder != Some(id) && id in s.parties
    requires PartyInv(FactsOf(s), id, p) && !InCallback(p)
    requires Owner(p) ==> Owner(s.parties[id])
    ensures SystemInv(c, Goes(s, id, p))
  {
    PartiesMove(FactsOf(s), s.parties, s.next, id, p);
    assert FactsOf(Goes(s, id, p)) == FactsOf(s);
  }

  lemma StartingKeeps(c: Format, s: System, p: Party)
    requires SystemInv(c, s) && s.journal.loaded
    requires PartyInv(FactsOf(s), s.next, p) && !Owner(p) && !InCallback(p)
    ensures SystemInv(c, Goes(s, s.next, p).(next := s.next + 1))
  {
    var t := Goes(s, s.next, p).(next := s.next + 1);
    PartiesMove(FactsOf(s), s.parties, s.next + 1, s.next, p);
    assert FactsOf(t) == FactsOf(s);
  }

  lemma KeychainKeeps(c: Format, s: System, content: Option<int>)
    requires SystemInv(c, s)
    ensures SystemInv(c, s.(keychain := content))
  {
    assert FactsOf(s.(keychain := content)) == FactsOf(s);
  }

  // Loading and resting journals

  lemma LoadedKeeps(c: Format, s: System, j: Journal)
    requires SystemInv(c, s) && JournalInv(c, j) && (j == s.journal || Loading(c, s.journal, j))
    ensures SystemInv(c, WithJournal(s, j))
  {
    if j == s.journal {
      assert WithJournal(s, j) == s;
    } else {
      assert s.parties == map[];
    }
  }

  lemma RestingKeeps(c: Format, s: System, k: Journal)
    requires SystemInv(c, s) && s.journal.loaded && JournalInv(c, k) && Rests(s.journal, k)
    ensures SystemInv(c, WithJournal(s, k))
  {
    LoadedRecord(c, k, s.refreshed, s.settled);
    assert FactsOf(WithJournal(s, k)) == FactsOf(s);
  }

  lemma InspectKeeps(c: Format, s: System, io: Io)
    requires SystemInv(c, s)
    ensures var (j, r) := Inspect(c, s.journal, io);
            && SystemInv(c, WithJournal(s, j))
            && (r.Ok? ==> j.loaded && r.value == j.latest)
            && !TakenBack(c, s.journal, j)
            && (s.journal.loaded ==> j == s.journal)
  {
    LoadKeeps(c, s.journal, io.load);
    var (j, r) := Inspect(c, s.journal, io);
    LoadedKeeps(c, s, j);
    LoadTakesNothingBack(c, s.journal, j);
  }

  // The refresh

  lemma StartRefreshActs(c: Format, s: System, io: Io)
    requires s.holder.None?
    ensures var (j, r) := Inspect(c, s.journal, io);
            var t := WithJournal(s, j);
            Act(c, s, StartRefresh(io)) ==
            if r.Err? then t else Goes(t, t.next, RefreshRead(r.value)).(next := t.next + 1)
  {
  }

  lemma StartRefreshKeeps(c: Format, s: System, io: Io)
    requires SystemInv(c, s)
    ensures SystemInv(c, Act(c, s, StartRefresh(io)))
    ensures !TakenBack(c, s.journal, Act(c, s, StartRefresh(io)).journal)
  {
    if s.holder.None? {
      InspectKeeps(c, s, io);
      StartRefreshActs(c, s, io);
      var (j, r) := Inspect(c, s.journal, io);
      if r.Ok? {
        StartingKeeps(c, WithJournal(s, j), RefreshRead(r.value));
      }
    } else {
      assert Act(c, s, StartRefresh(io)) == s;
    }
  }

  lemma PartyFacts(c: Format, s: System, id: nat)
    requires SystemInv(c, s) && id in s.parties
    ensures s.journal.loaded && id < s.next && PartyInv(FactsOf(s), id, s.parties[id])
    ensures InCallback(s.parties[id]) <==> s.holder == Some(id)
  {
    if InCallback(s.parties[id]) {
      CallbackHolds(FactsOf(s), id, s.parties[id]);
    }
  }

  lemma ReadCredentialKeeps(c: Format, s: System, id: nat, usable: bool)
    requires SystemInv(c, s)
    ensures SystemInv(c, Act(c, s, ReadCredential(id, usable)))
    ensures Act(c, s, ReadCredential(id, usable)).journal == s.journal
  {
    if id in s.parties && s.parties[id].RefreshRead? {
      PartyFacts(c, s, id);
      if s.keychain.None? {
        EndingKeeps(c, s, id);
      } else {
        MovingKeeps(c, s, id, RefreshHas(s.parties[id].snapshot, s.keychain.value, usable));
      }
    }
  }

  lemma DecisionHolds(f: Facts, id: nat, p: Party, now: int)
    requires p.RefreshHas? && PartyInv(f, id, p)
    requires f.active.Some? ==> f.latest.Some? && f.latest.value.state.Reserved? && f.latest.value.sequence == f.active.value
    ensures var d := Decision(f.active, p.snapshot, p.obtained, p.usable, now);
            d.Some? ==> PartyInv(f, id, d.value) && (d.value.Settles? || d.value.RefreshReserves?)
  {
  }

  lemma DecideKeeps(c: Format, s: System, id: nat, now: int)
    requires SystemInv(c, s)
    ensures SystemInv(c, Act(c, s, DecideRefresh(id, now)))
    ensures Act(c, s, DecideRefresh(id, now)).journal == s.journal
  {
    if id in s.parties && s.parties[id].RefreshHas? {
      var p := s.parties[id];
      PartyFacts(c, s, id);
      DecisionHolds(FactsOf(s), id, p, now);
      var d := Decision(s.journal.active, p.snapshot, p.obtained, p.usable, now);
      if d.None? {
        EndingKeeps(c, s, id);
      } else {
        MovingKeeps(c, s, id, d.value);
      }
    }
  }

  /** After a terminal event nobody owns a reservation, and without a holder nobody is inside a callback. */
  lemma NobodyThere(c: Format, s: System, k: nat)
    requires SystemInv(c, s) && s.holder.None? && k in s.parties
    requires s.journal.active.None?
    ensures !InCallback(s.parties[k]) && !Owner(s.parties[k])
  {
    PartyFacts(c, s, k);
    if Owner(s.parties[k]) {
      NotOwning(FactsOf(s), k, s.parties[k]);
    }
  }

  lemma ReservedSystem(c: Format, s: System, k: Journal, e: Event, id: nat)
    requires SystemInv(c, s) && s.journal.loaded && s.holder.None? && id in s.parties
    requires s.journal.latest.None? || Terminal(s.journal.latest.value.state)
    requires JournalInv(c, k) && Advances(s.journal, k, e) && e.state.Reserved? && k.active == Some(e.sequence)
    ensures SystemInv(c, Goes(WithJournal(s, k), id, RefreshReserved(e)))
  {
    forall o | o in s.parties
      ensures !InCallback(s.parties[o]) && !Owner(s.parties[o])
    {
      NobodyThere(c, s, o);
    }
    var t := Goes(WithJournal(s, k), id, RefreshReserved(e));
    OthersAfterReserve(FactsOf(s), e, s.parties, s.next, id);
    assert FactsOf(t) == FactsOf(s).(latest := Some(e), active := Some(e.sequence));
    RecordStep(s.refreshed, s.settled, s.journal.latest, e);
    PartiesMove(FactsOf(t), s.parties - {id}, s.next, id, RefreshReserved(e));
    assert (s.parties - {id})[id := RefreshReserved(e)] == t.parties;
    LoadedRecord(c, k, s.refreshed, s.settled);
  }

  lemma RunReserveActs(c: Format, s: System, id: nat, io: Io)
    requires id in s.parties && s.parties[id].RefreshReserves? && s.holder.None?
    ensures var (k, r) := Reserve(c, s.journal, s.parties[id].source, s.parties[id].recorded, io);
            Act(c, s, RunReserve(id, io)) ==
            if r.Err? then Ended(WithJournal(s, k), id) else Goes(WithJournal(s, k), id, RefreshReserved(r.value))
  {
  }

  lemma RunReserveKeeps(c: Format, s: System, id: nat, io: Io)
    requires SoundFormat(c) && SystemInv(c, s)
    ensures SystemInv(c, Act(c, s, RunReserve(id, io)))
    ensures !TakenBack(c, s.journal, Act(c, s, RunReserve(id, io)).journal)
  {
    if id in s.parties && s.parties[id].RefreshReserves? && s.holder.None? {
      var p := s.parties[id];
      PartyFacts(c, s, id);
      RunReserveActs(c, s, id, io);
      ReserveMoves(c, s.journal, p.source, p.recorded, io);
      var (k, r) := Reserve(c, s.journal, p.source, p.recorded, io);
      if r.Err? {
        RestingKeeps(c, s, k);
        EndingKeeps(c, WithJournal(s, k), id);
      } else {
        ReservedSystem(c, s, k, r.value, id);
      }
    } else {
      assert Act(c, s, RunReserve(id, io)) == s;
    }
  }

  /** The remote call: the log of credentials grows, and nobody else stands where it matters. */
  lemma OthersAfterCall(f: Facts, parties: map<nat, Party>, next: nat, id: nat, log: seq<int>)
    requires PartiesInv(f, true, parties, next) && id in parties && Owner(parties[id])
    ensures PartiesInv(f.(refreshed := log), true, parties - {id}, next)
  {
    var g := f.(refreshed := log);
    forall k | k in parties - {id}
      ensures PartyInv(g, k, parties[k])
    {
      assert PartyInv(f, k, parties[k]) && !Owner(parties[k]);
    }
  }

  lemma CalledSystem(c: Format, s: System, id: nat, e: Event)
    requires SystemInv(c, s) && id in s.parties && s.parties[id] == RefreshReserved(e)
    ensures SystemInv(c, Goes(s, id, RefreshCalled(e)).(refreshed := s.refreshed + [e.source]))
  {
    var log := s.refreshed + [e.source];
    var t := Goes(s, id, RefreshCalled(e)).(refreshed := log);
    PartyFacts(c, s, id);
    OthersAfterCall(FactsOf(s), s.parties, s.next, id, log);
    assert FactsOf(t) == FactsOf(s).(refreshed := log);
    forall k | k in s.parties - {id}
      ensures !Owner(s.parties[k])
    {
    }
    PartiesMove(FactsOf(t), s.parties - {id}, s.next, id, RefreshCalled(e));
    assert (s.parties - {id})[id := RefreshCalled(e)] == t.parties;
    LoadedRecord(c, s.journal, log, s.settled);
  }

  lemma CallRemoteKeeps(c: Format, s: System, id: nat)
    requires SystemInv(c, s)
    ensures SystemInv(c, Act(c, s, CallRemote(id)))
    ensures Act(c, s, CallRemote(id)).journal == s.journal
  {
    if id in s.parties && s.parties[id].RefreshReserved? {
      var e := s.parties[id].event;
      CalledSystem(c, s, id, e);
      assert Act(c, s, CallRemote(id)) == Goes(s, id, RefreshCalled(e)).(refreshed := s.refreshed + [e.source]);
    }
  }

  lemma AnsweredActs(c: Format, s: System, id: nat, answer: Answer, clock: Option<int>)
    requires id in s.parties && s.parties[id].RefreshCalled?
    ensures var e := s.parties[id].event;
            Act(c, s, RemoteAnswers(id, answer, clock)) ==
            Answered(s, id, e, answer, clock).(keychain := KeychainAfter(e, answer, s.keychain))
  {
  }

  lemma ClosingHolds(f: Facts, id: nat, e: Event, answer: Answer, now: int)
    requires PartyInv(f, id, RefreshCalled(e))
    ensures PartyInv(f, id, Closing(e, answer, now)) && Closing(e, answer, now).RefreshCloses?
  {
  }

  lemma AnsweredKeeps(c: Format, s: System, id: nat, e: Event, answer: Answer, clock: Option<int>)
    requires SystemInv(c, s) && id in s.parties && s.parties[id] == RefreshCalled(e)
    ensures SystemInv(c, Answered(s, id, e, answer, clock))
  {
    PartyFacts(c, s, id);
    if clock.Some? {
      ClosingHolds(FactsOf(s), id, e, answer, clock.value);
      MovingKeeps(c, s, id, Closing(e, answer, clock.value));
    } else {
      EndingKeeps(c, s, id);
    }
  }

  lemma RemoteAnswersKeeps(c: Format, s: System, id: nat, answer: Answer, clock: Option<int>)
    requires SystemInv(c, s)
    ensures SystemInv(c, Act(c, s, RemoteAnswers(id, answer, clock)))
    ensures Act(c, s, RemoteAnswers(id, answer, clock)).journal == s.journal
  {
    if id in s.parties && s.parties[id].RefreshCalled? {
      AnsweredActs(c, s, id, answer, clock);
      var e := s.parties[id].event;
      AnsweredKeeps(c, s, id, e, answer, clock);
      KeychainKeeps(c, Answered(s, id, e, answer, clock), KeychainAfter(e, answer, s.keychain));
    }
  }

  // Settling

  lemma SettledSystem(c: Format, s: System, k: Journal, r: Result<Event, Error>, id: nat)
    requires SystemInv(c, s) && s.journal.loaded && s.holder.None? && id in s.parties
    requires JournalInv(c, k) && r.Ok? && Advances(s.journal, k, r.value) && k.active.None?
    requires !r.value.state.Reserved? && s.journal.latest.Some? && !Terminal(s.journal.latest.value.state)
    requires Owner(s.parties[id]) || s.journal.active.None?
    requires r.value.state.ReauthorizationRequired? && s.journal.latest.value.state.ReauthorizationReserved? ==>
               s.reservedBy == Some(id)
    ensures SystemInv(c, Ended(Settled(s, k, r), id))
  {
    forall o | o in s.parties && o != id
      ensures !InCallback(s.parties[o]) && !Owner(s.parties[o])
    {
      PartyFacts(c, s, o);
      if Owner(s.parties[o]) {
        NotOwning(FactsOf(s), o, s.parties[o]);
      }
    }
    OthersAfterSettle(FactsOf(s), r.value, s.parties, s.next, id);
    LogsAfter(c, s.journal, k, s.refreshed, s.settled, r);
    assert FactsOf(Ended(Settled(s, k, r), id)) == FactsOf(s).(latest := k.latest, active := None);
  }

  /** A settle operation of a call that ends with it. */
  lemma SettlingKeeps(c: Format, s: System, id: nat, sequence: int, state: State, recorded: int, result: Option<int>, io: Io)
    requires SoundFormat(c) && SystemInv(c, s) && s.holder.None? && id in s.parties && !state.Reserved?
    requires (Owner(s.parties[id]) && s.journal.active == Some(sequence))
          || (s.journal.active != Some(sequence) && !state.ReauthorizationRequired?)
    ensures var (k, r) := Settle(c, s.journal, sequence, state, recorded, result, io);
            SystemInv(c, Ended(Settled(s, k, r), id)) && !TakenBack(c, s.journal, k)
  {
    PartyFacts(c, s, id);
    SettleMoves(c, s.journal, sequence, state, recorded, result, io);
    var (k, r) := Settle(c, s.journal, sequence, state, recorded, result, io);
    if k != s.journal || r.Ok? {
      NothingBack(c, s.journal, k, SettledEvent(s.journal.latest.value, state, recorded, result));
    }
    if r.Err? {
      RestingKeeps(c, s, k);
      EndingKeeps(c, WithJournal(s, k), id);
      assert Settled(s, k, r) == WithJournal(s, k);
    } else {
      SettledSystem(c, s, k, r, id);
    }
  }

  lemma CloseRefreshActs(c: Format, s: System, id: nat, io: Io)
    requires id in s.parties && s.parties[id].RefreshCloses? && s.holder.None?
    ensures var p := s.parties[id];
            var (k, r) := Settle(c, s.journal, p.event.sequence, p.state, p.recorded, p.result, io);
            Act(c, s, CloseRefresh(id, io)) == Ended(Settled(s, k, r), id)
  {
  }

  lemma CloseRefreshKeeps(c: Format, s: System, id: nat, io: Io)
    requires SoundFormat(c) && SystemInv(c, s)
    ensures SystemInv(c, Act(c, s, CloseRefresh(id, io)))
    ensures !TakenBack(c, s.journal, Act(c, s, CloseRefresh(id, io)).journal)
  {
    if id in s.parties && s.parties[id].RefreshCloses? && s.holder.None? {
      var p := s.parties[id];
      PartyFacts(c, s, id);
      CloseRefreshActs(c, s, id, io);
      SettlingKeeps(c, s, id, p.event.sequence, p.state, p.recorded, p.result, io);
    } else {
      assert Act(c, s, CloseRefresh(id, io)) == s;
    }
  }

  lemma RunSettleActs(c: Format, s: System, id: nat, io: Io)
    requires id in s.parties && s.parties[id].Settles? && s.holder.None?
    ensures var p := s.parties[id];
            var (k, r) := Settle(c, s.journal, p.sequence, p.state, p.recorded, p.result, io);
            Act(c, s, RunSettle(id, io)) == Ended(Settled(s, k, r), id)
  {
  }

  lemma RunSettleKeeps(c: Format, s: System, id: nat, io: Io)
    requires SoundFormat(c) && SystemInv(c, s)
    ensures SystemInv(c, Act(c, s, RunSettle(id, io)))
    ensures !TakenBack(c, s.journal, Act(c, s, RunSettle(id, io)).journal)
  {
    if id in s.parties && s.parties[id].Settles? && s.holder.None? {
      var p := s.parties[id];
      PartyFacts(c, s, id);
      RunSettleActs(c, s, id, io);
      SettlingKeeps(c, s, id, p.sequence, p.state, p.recorded, p.result, io);
    } else {
      assert Act(c, s, RunSettle(id, io)) == s;
    }
  }

  // The reconciler

  predicate Reconcilable(j: Journal, r: Result<Option<Event>, Error>)
  {
    && r.Ok? && r.value.Some? && Pending(r.value.value.state)
    && !(r.value.value.state.Reserved? && j.active == Some(r.value.value.sequence))
  }

  lemma StartReconcileActs(c: Format, s: System, io: Io)
    requires s.holder.None?
    ensures var (j, r) := Inspect(c, s.journal, io);
            var t := WithJournal(s, j);
            Act(c, s, StartReconcile(io)) ==
            if Reconcilable(j, r) then Goes(t, t.next, ReconcileRead(r.value.value)).(next := t.next + 1) else t
  {
  }

  lemma StartReconcileKeeps(c: Format, s: System, io: Io)
    requires SystemInv(c, s)
    ensures SystemInv(c, Act(c, s, StartReconcile(io)))
    ensures !TakenBack(c, s.journal, Act(c, s, StartReconcile(io)).journal)
  {
    if s.holder.None? {
      InspectKeeps(c, s, io);
      StartReconcileActs(c, s, io);
      var (j, r) := Inspect(c, s.journal, io);
      if Reconcilable(j, r) {
        StartingKeeps(c, WithJournal(s, j), ReconcileRead(r.value.value));
      }
    } else {
      assert Act(c, s, StartReconcile(io)) == s;
    }
  }

  lemma ReadEvidenceKeeps(c: Format, s: System, id: nat, expired: bool)
    requires SystemInv(c, s)
    ensures SystemInv(c, Act(c, s, ReadEvidence(id, expired)))
    ensures Act(c, s, ReadEvidence(id, expired)).journal == s.journal
  {
    if id in s.parties && s.parties[id].ReconcileRead? {
      PartyFacts(c, s, id);
      var expected := s.parties[id].expected;
      if s.keychain.None? || expired || s.keychain.value <= expected.source {
        EndingKeeps(c, s, id);
      } else {
        MovingKeeps(c, s, id, ReconcileHas(expected, s.keychain.value));
      }
    }
  }

  function Checked(latest: Option<Event>, p: Party, now: int): Option<Party>
    requires p.ReconcileHas?
  {
    if latest.None?
      || latest.value.sequence != p.expected.sequence
      || latest.value.state != p.expected.state
      || latest.value.source != p.expected.source
    then None
    else
      var state := if latest.value.state.ReauthorizationReserved? then Reauthorized else Completed;
      Some(Settles(latest.value.sequence, state, now, Some(p.obtained)))
  }

  lemma CheckReconcileActs(c: Format, s: System, id: nat, now: int, io: Io)
    requires id in s.parties && s.parties[id].ReconcileHas? && s.holder.None? && s.journal.loaded
    ensures var q := Checked(s.journal.latest, s.parties[id], now);
            Act(c, s, CheckReconcile(id, now, io)) == if q.None? then Ended(s, id) else Goes(s, id, q.value)
  {
    assert Inspect(c, s.journal, io) == (s.journal, Ok(s.journal.latest));
    assert WithJournal(s, s.journal) == s;
  }

  lemma CheckReconcileKeeps(c: Format, s: System, id: nat, now: int, io: Io)
    requires SystemInv(c, s)
    ensures SystemInv(c, Act(c, s, CheckReconcile(id, now, io)))
    ensures Act(c, s, CheckReconcile(id, now, io)).journal == s.journal
  {
    if id in s.parties && s.parties[id].ReconcileHas? && s.holder.None? {
      PartyFacts(c, s, id);
      CheckReconcileActs(c, s, id, now, io);
      var q := Checked(s.journal.latest, s.parties[id], now);
      if q.None? {
        EndingKeeps(c, s, id);
      } else {
        MovingKeeps(c, s, id, q.value);
      }
    } else {
      assert Act(c, s, CheckReconcile(id, now, io)) == s;
    }
  }

  // Replacements

  lemma StartReplaceActs(c: Format, s: System, now: int, io: Io)
    requires s.holder.None?
    ensures var (k, r) := BeginReplacement(c, s.journal, now, io);
            Act(c, s, StartReplace(now, io)) ==
            if r.Err? then WithJournal(s, k)
            else
              Goes(WithJournal(s, k), s.next, Replaces(r.value.0, r.value.1))
              .(next := s.next + 1, holder := Some(s.next), reservedBy := Some(s.next))
  {
  }

  /** With a blocked sequence nobody relies on the reservation that is about to be replaced. */
  lemma AfterBegin(f: Facts, e: Event, k: nat, p: Party, id: nat)
    requires PartyInv(f, k, p) && !InCallback(p) && !Owner(p) && k != id
    requires ValidTransition(f.latest, e) && e.state.ReauthorizationReserved?
    requires f.latest.Some? && f.latest.value.state.ReauthorizationRequired?
    ensures PartyInv(f.(latest := Some(e), active := None, holder := Some(id), reservedBy := Some(id)), k, p)
  {
  }

  lemma BegunParties(c: Format, s: System, e: Event)
    requires SystemInv(c, s) && s.journal.loaded && s.holder.None?
    requires s.journal.latest.Some? && s.journal.latest.value.state.ReauthorizationRequired?
    requires ValidTransition(s.journal.latest, e) && e.state.ReauthorizationReserved?
    ensures var g := FactsOf(s).(latest := Some(e), active := None, holder := Some(s.next), reservedBy := Some(s.next));
            PartiesInv(g, true, s.parties, s.next + 1) && (forall k :: k in s.parties ==> !Owner(s.parties[k]))
  {
    var g := FactsOf(s).(latest := Some(e), active := None, holder := Some(s.next), reservedBy := Some(s.next));
    forall k | k in s.parties
      ensures !Owner(s.parties[k]) && PartyInv(g, k, s.parties[k])
    {
      PartyFacts(c, s, k);
      NobodyThere(c, s, k);
      AfterBegin(FactsOf(s), e, k, s.parties[k], s.next);
    }
  }

  lemma BegunSystem(c: Format, s: System, k: Journal, blocked: Event, reservation: Event)
    requires SystemInv(c, s) && s.journal.loaded && s.holder.None?
    requires JournalInv(c, k) && Advances(s.journal, k, reservation) && k.active.None?
    requires s.journal.latest == Some(blocked) && blocked.state.ReauthorizationRequired?
    requires reservation.state.ReauthorizationReserved?
    ensures SystemInv(c, Goes(WithJournal(s, k), s.next, Replaces(blocked, reservation))
                         .(next := s.next + 1, holder := Some(s.next), reservedBy := Some(s.next)))
  {
    var p := Replaces(blocked, reservation);
    var t := Goes(WithJournal(s, k), s.next, p).(next := s.next + 1, holder := Some(s.next), reservedBy := Some(s.next));
    BegunParties(c, s, reservation);
    assert FactsOf(t) ==
           FactsOf(s).(latest := Some(reservation), active := None, holder := Some(s.next), reservedBy := Some(s.next));
    PartiesMove(FactsOf(t), s.parties, s.next + 1, s.next, p);
    RecordStep(s.refreshed, s.settled, s.journal.latest, reservation);
    LoadedRecord(c, k, s.refreshed, s.settled);
  }

  lemma BeginOnLoaded(c: Format, j: Journal, now: int, io: Io)
    requires Load(c, j, io.load).1.Ok? && Load(c, j, io.load).0.loaded
    ensures BeginReplacement(c, j, now, io) == BeginReplacement(c, Load(c, j, io.load).0, now, io)
  {
  }

  /** Loading first, and then reserving on the loaded journal. */
  lemma BeginTakesNothingBack(c: Format, j: Journal, l: Journal, k: Journal)
    requires JournalInv(c, j) && (l == j || Loading(c, j, l)) && !TakenBack(c, l, k)
    ensures !TakenBack(c, j, k)
  {
  }

  lemma BegunKeeps(c: Format, u: System, now: int, io: Io)
    requires SoundFormat(c) && SystemInv(c, u) && u.journal.loaded && u.holder.None?
    ensures var (k, r) := BeginReplacement(c, u.journal, now, io);
            && !TakenBack(c, u.journal, k)
            && SystemInv(c, if r.Err? then WithJournal(u, k)
                            else Goes(WithJournal(u, k), u.next, Replaces(r.value.0, r.value.1))
                                 .(next := u.next + 1, holder := Some(u.next), reservedBy := Some(u.next)))
  {
    BeginMoves(c, u.journal, now, io);
    var (k, r) := BeginReplacement(c, u.journal, now, io);
    if r.Ok? {
      BegunSystem(c, u, k, r.value.0, r.value.1);
    } else {
      RestingKeeps(c, u, k);
    }
  }

  lemma LoadThenWith(s: System, l: Journal, k: Journal)
    ensures WithJournal(WithJournal(s, l), k) == WithJournal(s, k)
  {
  }

  lemma StartReplaceKeeps(c: Format, s: System, now: int, io: Io)
    requires SoundFormat(c) && SystemInv(c, s)
    ensures SystemInv(c, Act(c, s, StartReplace(now, io)))
    ensures !TakenBack(c, s.journal, Act(c, s, StartReplace(now, io)).journal)
  {
    if s.holder.None? {
      StartReplaceActs(c, s, now, io);
      LoadKeeps(c, s.journal, io.load);
      var (l, loaded) := Load(c, s.journal, io.load);
      LoadedKeeps(c, s, l);
      if loaded.Err? {
        LoadTakesNothingBack(c, s.journal, l);
        assert Act(c, s, StartReplace(now, io)) == WithJournal(s, l);
      } else {
        BeginOnLoaded(c, s.journal, now, io);
        BegunKeeps(c, WithJournal(s, l), now, io);
        var k := BeginReplacement(c, l, now, io).0;
        BeginTakesNothingBack(c, s.journal, l, k);
        LoadThenWith(s, l, k);
      }
    } else {
      assert Act(c, s, StartReplace(now, io)) == s;
    }
  }

  /** The holder leaves the callback: the queue is free, and it goes on to restore or it ends. */
  lemma UnwindKeeps(c: Format, s: System, id: nat, sequence: int, d: Replacement.Disposition)
    requires SystemInv(c, s) && id in s.parties && InCallback(s.parties[id])
    requires d.Restore? ==>
               id !in s.touched && s.journal.latest.Some? && s.journal.latest.value.sequence == sequence
    ensures SystemInv(c, Unwinds(s, id, sequence, d))
  {
    PartyFacts(c, s, id);
    var t := Unwinds(s, id, sequence, d);
    OthersOutside(FactsOf(s), FactsOf(t), s.parties, s.next, id);
    if d.Restore? {
      PutBack(FactsOf(t), s.parties, s.next, id, Restores(sequence));
    }
  }

  /** The holder moves on inside the callback. */
  lemma HolderMoves(c: Format, s: System, id: nat, p: Party)
    requires SystemInv(c, s) && id in s.parties && InCallback(s.parties[id]) && InCallback(p)
    requires PartyInv(FactsOf(s), id, p)
    ensures SystemInv(c, Goes(s, id, p))
  {
    PartyFacts(c, s, id);
    PartiesMove(FactsOf(s), s.parties, s.next, id, p);
    assert FactsOf(Goes(s, id, p)) == FactsOf(s);
  }

  lemma EnterPersistKeeps(c: Format, s: System, a: Action)
    requires SystemInv(c, s) && a.EnterPersist?
    ensures SystemInv(c, StepPersist(s, a)) && StepPersist(s, a).journal == s.journal
  {
    var id := a.id;
    if id in s.parties && s.parties[id].Replaces? && Replacement.Monotone(a.aborts) {
      var p := s.parties[id];
      PartyFacts(c, s, id);
      var e := Refusal(p.blocked.source, a.clock, a.token, a.refusal, a.aborts);
      if e.Some? {
        UnwindKeeps(c, s, id, p.blocked.sequence, Replacement.Caught(e.value, false, a.aborts.last, true));
      } else {
        HolderMoves(c, s, id, Persists(p.blocked.sequence, p.reservation, a.clock.value, a.token, Replacement.Verifying));
      }
    }
  }

  /** The start of the Keychain command: from now on the reservation stays. */
  lemma CommandStarts(c: Format, s: System, id: nat)
    requires SystemInv(c, s) && id in s.parties && s.parties[id].Persists? && s.parties[id].stage.Replacing?
    ensures SystemInv(c, Advanced(s, id, s.parties[id]))
  {
    PartyFacts(c, s, id);
    var t := Advanced(s, id, s.parties[id]);
    OthersOutside(FactsOf(s), FactsOf(t), s.parties, s.next, id);
    PutBack(FactsOf(t), s.parties, s.next, id, t.parties[id]);
    assert id !in s.reverted;
  }

  lemma StageEndsKeeps(c: Format, s: System, id: nat)
    requires SystemInv(c, s)
    ensures SystemInv(c, StepPersist(s, StageEnds(id))) && StepPersist(s, StageEnds(id)).journal == s.journal
  {
    if id in s.parties && s.parties[id].Persists? {
      var p := s.parties[id];
      PartyFacts(c, s, id);
      if p.stage.Replacing? {
        CommandStarts(c, s, id);
      } else if !p.stage.Writing? {
        HolderMoves(c, s, id, p.(stage := NextStage(p.stage)));
      } else if id in s.wrote {
        HolderMoves(c, s, id, ReplacePersisted(p.reservation, p.recorded, p.token));
      }
    }
  }

  lemma StageFailsKeeps(c: Format, s: System, a: Action)
    requires SystemInv(c, s) && a.StageFails?
    ensures SystemInv(c, StepPersist(s, a)) && StepPersist(s, a).journal == s.journal
  {
    var id := a.id;
    if id in s.parties && s.parties[id].Persists? && Replacement.Monotone(a.aborts)
      && Replacement.Raises(s.parties[id].stage, a.error, a.aborts) {
      var p := s.parties[id];
      PartyFacts(c, s, id);
      Replacement.LeftIffStarted(p.stage, a.error, a.aborts);
      UnwindKeeps(c, s, id, p.sequence, Replacement.Outcome(p.stage, a.error, a.aborts));
    }
  }

  /** A command takes effect, perhaps long after its call ended or the process crashed. */
  lemma AfterLanding(f: Facts, id: nat, k: nat, p: Party)
    requires PartyInv(f, k, p)
    ensures PartyInv(f.(wrote := f.wrote + {id}), k, p)
  {
  }

  lemma WriteLandsKeeps(c: Format, s: System, id: nat)
    requires SystemInv(c, s)
    ensures SystemInv(c, StepPersist(s, WriteLands(id))) && StepPersist(s, WriteLands(id)).journal == s.journal
  {
    var t := StepPersist(s, WriteLands(id));
    if id in s.commands {
      assert FactsOf(t) == FactsOf(s).(wrote := s.wrote + {id});
      forall k | k in s.parties
        ensures PartyInv(FactsOf(t), k, s.parties[k])
      {
        AfterLanding(FactsOf(s), id, k, s.parties[k]);
      }
    }
  }

  lemma FinishReplaceActs(c: Format, s: System, id: nat, append: AppendIo)
    requires id in s.parties && s.parties[id].ReplacePersisted?
    ensures var p := s.parties[id];
            var (k, r) := FinishReplacement(c, s.journal, p.reservation, p.recorded, p.evidence, append);
            Act(c, s, FinishReplace(id, append)) == Ended(Released(Settled(s, k, r)), id)
  {
  }

  lemma FinishedSystem(c: Format, s: System, k: Journal, r: Result<Event, Error>, id: nat)
    requires SystemInv(c, s) && id in s.parties && InCallback(s.parties[id])
    requires JournalInv(c, k) && k.loaded
    requires if r.Ok? then Advances(s.journal, k, r.value) && k.active.None? && r.value.state.Reauthorized?
             else Rests(s.journal, k)
    ensures SystemInv(c, Ended(Released(Settled(s, k, r)), id))
  {
    PartyFacts(c, s, id);
    var t := Ended(Released(Settled(s, k, r)), id);
    var f := FactsOf(s).(holder := None);
    OthersOutside(FactsOf(s), f, s.parties, s.next, id);
    LogsAfter(c, s.journal, k, s.refreshed, s.settled, r);
    if r.Ok? {
      forall o | o in s.parties - {id}
        ensures !InCallback(s.parties[o]) && !Owner(s.parties[o])
      {
        PartyFacts(c, s, o);
        if Owner(s.parties[o]) {
          NotOwning(FactsOf(s), o, s.parties[o]);
        }
      }
      OthersAfterSettle(f, r.value, s.parties - {id}, s.next, id);
      assert s.parties - {id} - {id} == t.parties;
      assert FactsOf(t) == f.(latest := k.latest, active := None);
    } else {
      assert FactsOf(t) == f;
    }
  }

  lemma FinishReplaceKeeps(c: Format, s: System, id: nat, append: AppendIo)
    requires SoundFormat(c) && SystemInv(c, s)
    ensures SystemInv(c, Act(c, s, FinishReplace(id, append)))
    ensures !TakenBack(c, s.journal, Act(c, s, FinishReplace(id, append)).journal)
  {
    if id in s.parties && s.parties[id].ReplacePersisted? {
      var p := s.parties[id];
      PartyFacts(c, s, id);
      FinishReplaceActs(c, s, id, append);
      FinishMoves(c, s.journal, p.reservation, p.recorded, p.evidence, append);
      var (k, r) := FinishReplacement(c, s.journal, p.reservation, p.recorded, p.evidence, append);
      FinishedSystem(c, s, k, r, id);
    } else {
      assert Act(c, s, FinishReplace(id, append)) == s;
    }
  }

  predicate Restorable(latest: Option<Event>, sequence: int)
  {
    latest.Some? && latest.value.sequence == sequence && latest.value.state.ReauthorizationReserved?
  }

  lemma InspectRestoreActs(c: Format, s: System, id: nat, now: int, io: Io)
    requires id in s.parties && s.parties[id].Restores? && s.holder.None? && s.journal.loaded
    ensures var sequence := s.parties[id].sequence;
            Act(c, s, InspectRestore(id, now, io)) ==
            if Restorable(s.journal.latest, sequence) then Goes(s, id, RestoreSettles(sequence, now)) else Ended(s, id)
  {
    assert Inspect(c, s.journal, io) == (s.journal, Ok(s.journal.latest));
    assert WithJournal(s, s.journal) == s;
  }

  lemma InspectRestoreKeeps(c: Format, s: System, id: nat, now: int, io: Io)
    requires SystemInv(c, s)
    ensures SystemInv(c, Act(c, s, InspectRestore(id, now, io)))
    ensures Act(c, s, InspectRestore(id, now, io)).journal == s.journal
  {
    if id in s.parties && s.parties[id].Restores? && s.holder.None? {
      PartyFacts(c, s, id);
      InspectRestoreActs(c, s, id, now, io);
      var sequence := s.parties[id].sequence;
      if Restorable(s.journal.latest, sequence) {
        MovingKeeps(c, s, id, RestoreSettles(sequence, now));
      } else {
        EndingKeeps(c, s, id);
      }
    } else {
      assert Act(c, s, InspectRestore(id, now, io)) == s;
    }
  }

  lemma RestoreActs(c: Format, s: System, id: nat, io: Io)
    requires id in s.parties && s.parties[id].RestoreSettles? && s.holder.None?
    ensures var p := s.parties[id];
            var (k, r) := Settle(c, s.journal, p.sequence, ReauthorizationRequired, p.recorded, None, io);
            Act(c, s, RunRestore(id, io)) == Ended(WithJournal(s, k), id)
            && (r.Ok? ==> Settled(s, k, r) == WithJournal(s, k))
  {
  }

  lemma RevertedKeeps(c: Format, s: System, id: nat)
    requires SystemInv(c, s) && id < s.next && id !in s.parties && id !in s.touched
    ensures SystemInv(c, s.(reverted := s.reverted + {id}))
  {
    assert FactsOf(s.(reverted := s.reverted + {id})) == FactsOf(s);
  }

  /** A restore takes back its own reservation, or none. */
  lemma RestoreOwns(c: Format, s: System, id: nat, io: Io)
    requires SoundFormat(c) && SystemInv(c, s)
    requires id in s.parties && s.parties[id].RestoreSettles?
    ensures var k := Settle(c, s.journal, s.parties[id].sequence, ReauthorizationRequired, s.parties[id].recorded, None, io).0;
            k != s.journal ==> s.reservedBy == Some(id)
  {
    PartyFacts(c, s, id);
    SettleMoves(c, s.journal, s.parties[id].sequence, ReauthorizationRequired, s.parties[id].recorded, None, io);
  }

  lemma RestoreKeeps(c: Format, s: System, id: nat, io: Io)
    requires SoundFormat(c) && SystemInv(c, s)
    ensures SystemInv(c, Act(c, s, RunRestore(id, io)))
    ensures TakenBack(c, s.journal, Act(c, s, RunRestore(id, io)).journal) ==>
              s.reservedBy == Some(id) && id !in s.touched && id !in Act(c, s, RunRestore(id, io)).parties
  {
    if id in s.parties && s.parties[id].RestoreSettles? && s.holder.None? {
      var p := s.parties[id];
      PartyFacts(c, s, id);
      RestoreActs(c, s, id, io);
      SettleMoves(c, s.journal, p.sequence, ReauthorizationRequired, p.recorded, None, io);
      RestoreOwns(c, s, id, io);
      var (k, r) := Settle(c, s.journal, p.sequence, ReauthorizationRequired, p.recorded, None, io);
      if r.Ok? {
        RestoredSystem(c, s, k, r, id);
      } else {
        RestingKeeps(c, s, k);
        EndingKeeps(c, WithJournal(s, k), id);
      }
    } else {
      assert Act(c, s, RunRestore(id, io)) == s;
    }
  }

  lemma RestoredSystem(c: Format, s: System, k: Journal, r: Result<Event, Error>, id: nat)
    requires SystemInv(c, s) && s.holder.None? && id in s.parties && s.parties[id].RestoreSettles?
    requires JournalInv(c, k) && r.Ok? && Advances(s.journal, k, r.value) && k.active.None?
    requires r.value.state.ReauthorizationRequired? && r.value.sequence == s.parties[id].sequence
    requires s.reservedBy == Some(id)
    ensures SystemInv(c, Ended(Settled(s, k, r), id))
  {
    PartyFacts(c, s, id);
    SettledSystem(c, s, k, r, id);
  }

  lemma CrashKeeps(c: Format, s: System)
    requires SystemInv(c, s)
    ensures SystemInv(c, Crashed(s)) && !TakenBack(c, s.journal, Crashed(s).journal)
  {
  }

  /** The invariant after a step, which takes no reservation back. */
  ghost predicate Kept(c: Format, s: System, t: System)
  {
    SystemInv(c, t) && !TakenBack(c, s.journal, t.journal)
  }

  lemma RefreshKeeps(c: Format, s: System, a: Action)
    requires SoundFormat(c) && SystemInv(c, s) && OfRefresh(a)
    ensures Kept(c, s, Act(c, s, a))
  {
    match a
    case StartRefresh(io) => StartRefreshKeeps(c, s, io);
    case ReadCredential(id, usable) => ReadCredentialKeeps(c, s, id, usable);
    case DecideRefresh(id, now) => DecideKeeps(c, s, id, now);
    case RunReserve(id, io) => RunReserveKeeps(c, s, id, io);
    case CallRemote(id) => CallRemoteKeeps(c, s, id);
    case RemoteAnswers(id, answer, clock) => RemoteAnswersKeeps(c, s, id, answer, clock);
    case CloseRefresh(id, io) => CloseRefreshKeeps(c, s, id, io);
  }

  lemma ReconcileKeeps(c: Format, s: System, a: Action)
    requires SoundFormat(c) && SystemInv(c, s) && OfReconcile(a)
    ensures Kept(c, s, Act(c, s, a))
  {
    match a
    case StartReconcile(io) => StartReconcileKeeps(c, s, io);
    case ReadEvidence(id, expired) => ReadEvidenceKeeps(c, s, id, expired);
    case CheckReconcile(id, now, io) => CheckReconcileKeeps(c, s, id, now, io);
    case RunSettle(id, io) => RunSettleKeeps(c, s, id, io);
  }

  lemma ReplaceKeeps(c: Format, s: System, a: Action)
    requires SoundFormat(c) && SystemInv(c, s) && OfReplace(a) && !a.RunRestore?
    ensures Kept(c, s, Act(c, s, a))
  {
    match a
    case StartReplace(now, io) => StartReplaceKeeps(c, s, now, io);
    case FinishReplace(id, append) => FinishReplaceKeeps(c, s, id, append);
    case InspectRestore(id, now, io) => InspectRestoreKeeps(c, s, id, now, io);
  }

  lemma PersistKeeps(c: Format, s: System, a: Action)
    requires SystemInv(c, s) && OfPersist(a)
    ensures SystemInv(c, StepPersist(s, a)) && StepPersist(s, a).journal == s.journal
  {
    match a
    case EnterPersist(_, _, _, _, _) => EnterPersistKeeps(c, s, a);
    case StageEnds(id) => StageEndsKeeps(c, s, id);
    case StageFails(_, _, _) => StageFailsKeeps(c, s, a);
    case WriteLands(id) => WriteLandsKeeps(c, s, id);
  }

  lemma SameTakesNothingBack(c: Format, j: Journal)
    ensures !TakenBack(c, j, j)
  {
  }

  /** No step but a restore takes a reservation back. */
  lemma ActKeeps(c: Format, s: System, a: Action)
    requires SoundFormat(c) && SystemInv(c, s)
    ensures SystemInv(c, Act(c, s, a))
    ensures !a.RunRestore? ==> !TakenBack(c, s.journal, Act(c, s, a).journal)
  {
    SameTakesNothingBack(c, s.journal);
    if OfRefresh(a) {
      RefreshKeeps(c, s, a);
    } else if OfReconcile(a) {
      ReconcileKeeps(c, s, a);
    } else if a.RunRestore? {
      RestoreKeeps(c, s, a.id, a.io);
    } else if OfReplace(a) {
      ReplaceKeeps(c, s, a);
    } else if OfPersist(a) {
      PersistKeeps(c, s, a);
    } else if a.OtherKeychainWrite? {
      KeychainKeeps(c, s, a.content);
    } else {
      CrashKeeps(c, s);
    }
  }

  lemma StepKeeps(c: Format, s: System, a: Action)
    requires SoundFormat(c) && SystemInv(c, s)
    ensures SystemInv(c, Step(c, s, a))
  {
    ActKeeps(c, s, a);
    if TakenBack(c, s.journal, Act(c, s, a).journal) {
      RestoreKeeps(c, s, a.id, a.io);
      RestoreNext(c, s, a.id, a.io);
      RevertedKeeps(c, Act(c, s, a), a.id);
    }
  }

  lemma RestoreNext(c: Format, s: System, id: nat, io: Io)
    ensures var t := Act(c, s, RunRestore(id, io)); t.next == s.next && t.touched == s.touched && t.reservedBy == s.reservedBy
  {
  }

  lemma InitialHolds(c: Format, disk: Bytes, keychain: Option<int>)
    ensures SystemInv(c, Initial(disk, keychain))
  {
  }

  lemma {:induction false} RunKeeps(c: Format, s: System, actions: seq<Action>)
    requires SoundFormat(c) && SystemInv(c, s)
    ensures SystemInv(c, Run(c, s, actions))
  {
    if actions != [] {
      RunKeeps(c, s, actions[..|actions| - 1]);
      StepKeeps(c, Run(c, s, actions[..|actions| - 1]), actions[|actions| - 1]);
    }
  }
}
