/**
 Reservations that nobody owns. The journal keeps the sequence of a refresh in progress; when that refresh
 cannot record its end, the sequence stays, and the process does nothing more with the journal.
 */
module RotationAbandoned {
  import opened Wrappers
  import opened AppendLog
  import opened RotationEvents
  import opened RotationJournal
  import opened JournalAnswers
  import opened RotationRuns
  import opened RotationInvariant
  import opened RotationSteps
  import opened RotationProgress
  import opened RotationSafety

  ghost predicate HasOwner(s: System)
  {
    exists id :: id in s.parties && Owner(s.parties[id])
  }

  /** The memory says that a refresh is in progress, and none is. */
  ghost predicate Abandoned(s: System)
  {
    s.journal.active.Some? && !HasOwner(s)
  }

  /** What every step but the end of a refresh leaves alone: the owners, and the reservation in progress. */
  ghost predicate OwnersStay(s: System, t: System)
  {
    && (forall id :: id in s.parties && Owner(s.parties[id]) ==> id in t.parties && Owner(t.parties[id]))
    && (t.journal.active.Some? ==> t.journal.active == s.journal.active || HasOwner(t))
  }

  lemma OwnersGo(s: System, t: System, id: nat, p: Party)
    requires t.parties == s.parties[id := p] && (id in s.parties && Owner(s.parties[id]) ==> Owner(p))
    requires t.journal.active.Some? ==> t.journal.active == s.journal.active || Owner(p)
    ensures OwnersStay(s, t)
  {
    assert id in t.parties && t.parties[id] == p;
  }

  lemma OwnersEnd(s: System, t: System, id: nat)
    requires t.parties == s.parties - {id} && (id in s.parties ==> !Owner(s.parties[id]))
    requires t.journal.active.Some? ==> t.journal.active == s.journal.active
    ensures OwnersStay(s, t)
  {
  }

  lemma LoadedActive(c: Format, j: Journal, io: LoadIo)
    requires JournalInv(c, j)
    ensures Load(c, j, io).0.active == j.active
  {
    LoadKeeps(c, j, io);
  }

  lemma StepActive(c: Format, j: Journal, io: Io)
    requires j.loaded
    ensures forall sequence, state, recorded, result ::
              var k := Settle(c, j, sequence, state, recorded, result, io).0; k.active.None? || k.active == j.active
  {
  }

  lemma OwnersAfterRefresh(c: Format, s: System, a: Action)
    requires a.ReadCredential? || a.DecideRefresh? || a.CallRemote? || (a.RemoteAnswers? && a.clock.Some?)
    ensures OwnersStay(s, StepRefresh(c, s, a))
  {
    var t := StepRefresh(c, s, a);
    if a.id in s.parties && t != s {
      if a.id in t.parties {
        OwnersGo(s, t, a.id, t.parties[a.id]);
      } else {
        OwnersEnd(s, t, a.id);
      }
    }
  }

  lemma OwnersAfterInspect(c: Format, s: System, a: Action)
    requires SystemInv(c, s) && (a.StartRefresh? || a.StartReconcile?) && s.holder.None? && s.next !in s.parties
    ensures OwnersStay(s, Act(c, s, a))
  {
    LoadedActive(c, s.journal, a.io.load);
    if a.StartRefresh? {
      StartRefreshActs(c, s, a.io);
    } else {
      StartReconcileActs(c, s, a.io);
    }
  }

  lemma OwnersAfterReserve(c: Format, s: System, id: nat, io: Io)
    requires SystemInv(c, s)
    ensures OwnersStay(s, Act(c, s, RunReserve(id, io)))
  {
    if id in s.parties && s.parties[id].RefreshReserves? && s.holder.None? {
      PartyFacts(c, s, id);
      RunReserveActs(c, s, id, io);
      var t := Act(c, s, RunReserve(id, io));
      var (k, r) := Reserve(c, s.journal, s.parties[id].source, s.parties[id].recorded, io);
      if r.Ok? {
        OwnersGo(s, t, id, RefreshReserved(r.value));
      } else {
        assert k.active == s.journal.active;
        OwnersEnd(s, t, id);
      }
    }
  }

  lemma OwnersAfterReconcile(c: Format, s: System, a: Action)
    requires SystemInv(c, s) && (a.ReadEvidence? || a.CheckReconcile? || a.RunSettle?)
    ensures OwnersStay(s, StepReconcile(c, s, a))
  {
    if a.id in s.parties {
      PartyFacts(c, s, a.id);
      var t := StepReconcile(c, s, a);
      if a.id in t.parties {
        OwnersGo(s, t, a.id, t.parties[a.id]);
      } else {
        StepActive(c, s.journal, if a.RunSettle? then a.io else Io(Loads, Commits));
        OwnersEnd(s, t, a.id);
      }
    }
  }

  lemma OwnersAfterStart(c: Format, s: System, now: int, io: Io)
    requires SystemInv(c, s) && s.holder.None? && s.next !in s.parties
    ensures OwnersStay(s, Act(c, s, StartReplace(now, io)))
  {
    StartReplaceActs(c, s, now, io);
    BeginActive(c, s.journal, now, io);
  }

  lemma BeginActive(c: Format, j: Journal, now: int, io: Io)
    requires JournalInv(c, j)
    ensures BeginReplacement(c, j, now, io).0.active == j.active
  {
    LoadedActive(c, j, io.load);
  }

  lemma OwnersAfterReplace(c: Format, s: System, a: Action)
    requires SystemInv(c, s) && (a.FinishReplace? || a.InspectRestore? || a.RunRestore?)
    ensures OwnersStay(s, StepReplace(c, s, a))
  {
    if a.id in s.parties {
      PartyFacts(c, s, a.id);
      var t := StepReplace(c, s, a);
      if a.id in t.parties {
        OwnersGo(s, t, a.id, t.parties[a.id]);
      } else {
        StepActive(c, s.journal, if a.RunRestore? then a.io else Io(Loads, Commits));
        OwnersEnd(s, t, a.id);
      }
    }
  }

  lemma OwnersAfterPersist(s: System, a: Action)
    requires OfPersist(a)
    ensures OwnersStay(s, StepPersist(s, a))
  {
  }

  lemma Unstarted(c: Format, s: System)
    requires SystemInv(c, s)
    ensures s.next !in s.parties
  {
  }

  lemma OwnersAfterAct(c: Format, s: System, a: Action)
    requires SystemInv(c, s) && !a.Crash? && !a.CloseRefresh? && (a.RemoteAnswers? ==> a.clock.Some?)
    ensures OwnersStay(s, Act(c, s, a))
  {
    Unstarted(c, s);
    if a.RunReserve? {
      OwnersAfterReserve(c, s, a.id, a.io);
    } else if a.StartRefresh? || a.StartReconcile? {
      if s.holder.None? {
        OwnersAfterInspect(c, s, a);
      }
    } else if a.StartReplace? {
      if s.holder.None? {
        OwnersAfterStart(c, s, a.now, a.io);
      }
    } else if OfReconcile(a) {
      OwnersAfterReconcile(c, s, a);
    } else if OfReplace(a) {
      OwnersAfterReplace(c, s, a);
    } else if OfPersist(a) {
      OwnersAfterPersist(s, a);
    } else if OfRefresh(a) {
      OwnersAfterRefresh(c, s, a);
    }
  }

  /** The event that closes a refresh. */
  function ClosingEvent(p: Party): Event
    requires p.RefreshCloses?
  {
    SettledEvent(p.event, p.state, p.recorded, p.result)
  }

  /**
   What lets the settlement of a refresh fail, before it is tried: the clock went back behind the credential or
   its successor, the file has no room for the event, or the append is going to fail.
   */
  predicate CannotClose(c: Format, disk: Bytes, p: Party, io: Io)
    requires p.RefreshCloses?
  {
    || p.recorded < p.event.source
    || (p.result.Some? && p.recorded < p.result.value)
    || |disk| + |Line(c, Encode(ClosingEvent(p)))| > MAX_BYTES
    || io.append.Fails?
  }

  /** A refresh comes to its end and is not going to record it: there is no usable clock, or the settlement fails. */
  predicate FailsToClose(c: Format, s: System, a: Action)
  {
    || (a.RemoteAnswers? && a.clock.None? && a.id in s.parties && s.parties[a.id].RefreshCalled?)
    || (a.CloseRefresh? && a.id in s.parties && s.parties[a.id].RefreshCloses?
        && CannotClose(c, s.journal.disk, s.parties[a.id], a.io))
  }

  lemma ClosingFits(j: Journal, p: Party)
    requires p.RefreshCloses? && j.latest == Some(p.event) && WellFormed(p.event) && p.event.state.Reserved?
    requires p.state.Completed? || p.state.Uncertain? || p.state.ReauthorizationRequired?
    requires (p.result.Some? <==> p.state.Completed?) && (p.result.Some? ==> p.event.source < p.result.value)
    ensures WellFormed(ClosingEvent(p)) <==>
            p.event.source <= p.recorded && (p.result.Some? ==> p.result.value <= p.recorded)
    ensures ValidTransition(j.latest, ClosingEvent(p))
  {
  }

  lemma SettlesOrNot(c: Format, j: Journal, p: Party, io: Io)
    requires p.RefreshCloses? && j.loaded && j.latest == Some(p.event) && WellFormed(p.event) && p.event.state.Reserved?
    requires p.state.Completed? || p.state.Uncertain? || p.state.ReauthorizationRequired?
    requires (p.result.Some? <==> p.state.Completed?) && (p.result.Some? ==> p.event.source < p.result.value)
    ensures Settle(c, j, p.event.sequence, p.state, p.recorded, p.result, io).1.Err? <==> CannotClose(c, j.disk, p, io)
  {
    ClosingFits(j, p);
    assert Settle(c, j, p.event.sequence, p.state, p.recorded, p.result, io) == Advance(c, j, ClosingEvent(p), None, io.append);
  }

  /** Exactly then the settlement of a refresh fails. */
  lemma ClosingOutcome(c: Format, s: System, id: nat, io: Io)
    requires SystemInv(c, s) && id in s.parties && s.parties[id].RefreshCloses?
    ensures var p := s.parties[id];
            && s.holder.None? && s.journal.active.Some?
            && (Settle(c, s.journal, p.event.sequence, p.state, p.recorded, p.result, io).1.Err? <==>
                CannotClose(c, s.journal.disk, p, io))
  {
    PartyFacts(c, s, id);
    SettlesOrNot(c, s.journal, s.parties[id], io);
    if s.holder.Some? {
      PartyFacts(c, s, s.holder.value);
    }
  }

  lemma ClosedMemory(c: Format, j: Journal, sequence: int, state: State, recorded: int, result: Option<int>, io: Io)
    requires j.loaded
    ensures var (k, r) := Settle(c, j, sequence, state, recorded, result, io);
            k.active == if r.Ok? then None else j.active
  {
  }

  /** A settled refresh leaves no active reservation, and one that fails to settle leaves one without an owner. */
  lemma ClosingAbandons(c: Format, s: System, id: nat, io: Io)
    requires SystemInv(c, s) && id in s.parties && s.parties[id].RefreshCloses?
    ensures Abandoned(Act(c, s, CloseRefresh(id, io))) <==> CannotClose(c, s.journal.disk, s.parties[id], io)
  {
    var p := s.parties[id];
    ClosingOutcome(c, s, id, io);
    CloseRefreshActs(c, s, id, io);
    PartyFacts(c, s, id);
    ClosedMemory(c, s.journal, p.event.sequence, p.state, p.recorded, p.result, io);
    var t := Act(c, s, CloseRefresh(id, io));
    assert t.parties == s.parties - {id};
    assert forall k :: k in t.parties ==> !Owner(t.parties[k]);
  }

  lemma LastOwner(c: Format, s: System, t: System, id: nat)
    requires SystemInv(c, s) && id in s.parties && Owner(s.parties[id])
    requires t.parties == s.parties - {id} && t.journal == s.journal
    ensures Abandoned(t)
  {
    PartyFacts(c, s, id);
    assert forall k :: k in t.parties ==> !Owner(t.parties[k]);
  }

  /** Without a usable clock the settlement is not even asked for. */
  lemma UnclockedAbandons(c: Format, s: System, id: nat, answer: Answer)
    requires SystemInv(c, s)
    ensures var t := Act(c, s, RemoteAnswers(id, answer, None));
            if id in s.parties && s.parties[id].RefreshCalled? then Abandoned(t) else t == s
  {
    if id in s.parties && s.parties[id].RefreshCalled? {
      AnsweredActs(c, s, id, answer, None);
      LastOwner(c, s, Act(c, s, RemoteAnswers(id, answer, None)), id);
    }
  }

  lemma NoClosing(c: Format, s: System, id: nat, io: Io)
    requires !(id in s.parties && s.parties[id].RefreshCloses?)
    ensures Act(c, s, CloseRefresh(id, io)) == s
  {
  }

  lemma AbandonedActs(c: Format, s: System, a: Action)
    ensures Abandoned(Step(c, s, a)) <==> Abandoned(Act(c, s, a))
  {
    assert Step(c, s, a).parties == Act(c, s, a).parties && Step(c, s, a).journal == Act(c, s, a).journal;
  }

  lemma OwnersKept(s: System, t: System)
    requires OwnersStay(s, t) && !Abandoned(s)
    ensures !Abandoned(t)
  {
    if HasOwner(s) {
      var id :| id in s.parties && Owner(s.parties[id]);
      assert id in t.parties && Owner(t.parties[id]);
    }
  }

  lemma CrashForgets(c: Format, s: System)
    ensures !Abandoned(Act(c, s, Crash))
  {
    assert Act(c, s, Crash).journal.active.None?;
  }

  /** Nothing is on record beyond what was. */
  predicate Standstill(s: System, t: System)
  {
    t.journal == s.journal && t.refreshed == s.refreshed && t.settled == s.settled
  }

  lemma AbandonedFacts(c: Format, s: System, id: nat)
    requires SystemInv(c, s) && Abandoned(s) && id in s.parties
    ensures s.journal.loaded && s.journal.latest.Some? && s.journal.latest.value.state.Reserved?
    ensures !Owner(s.parties[id]) && !InCallback(s.parties[id])
    ensures var p := s.parties[id];
            p.Settles? || p.RestoreSettles? ==> p.sequence != s.journal.latest.value.sequence
  {
    PartyFacts(c, s, id);
  }

  lemma OtherSequence(c: Format, j: Journal, sequence: int, state: State, recorded: int, result: Option<int>, io: Io)
    requires j.loaded && j.latest.Some? && j.latest.value.sequence != sequence
    ensures Settle(c, j, sequence, state, recorded, result, io) == (j, Err(InvalidRequest))
  {
  }

  lemma StandstillRefresh(c: Format, s: System, a: Action)
    requires SystemInv(c, s) && Abandoned(s)
    requires OfRefresh(a)
    ensures Standstill(s, StepRefresh(c, s, a)) && Abandoned(StepRefresh(c, s, a))
  {
    assert s.journal.loaded && !Terminal(s.journal.latest.value.state);
    if !a.StartRefresh? && a.id in s.parties {
      AbandonedFacts(c, s, a.id);
    }
  }

  lemma StandstillReconcile(c: Format, s: System, a: Action)
    requires SystemInv(c, s) && Abandoned(s)
    requires OfReconcile(a)
    ensures Standstill(s, StepReconcile(c, s, a)) && Abandoned(StepReconcile(c, s, a))
  {
    assert s.journal.loaded;
    if !a.StartReconcile? && a.id in s.parties {
      AbandonedFacts(c, s, a.id);
      if a.RunSettle? && s.parties[a.id].Settles? {
        var p := s.parties[a.id];
        OtherSequence(c, s.journal, p.sequence, p.state, p.recorded, p.result, a.io);
      }
    }
  }

  lemma StandstillReplace(c: Format, s: System, a: Action)
    requires SystemInv(c, s) && Abandoned(s)
    requires OfReplace(a)
    ensures Standstill(s, StepReplace(c, s, a)) && Abandoned(StepReplace(c, s, a))
  {
    assert s.journal.loaded && s.journal.latest.value.state.Reserved?;
    if !a.StartReplace? && a.id in s.parties {
      AbandonedFacts(c, s, a.id);
      if a.RunRestore? && s.parties[a.id].RestoreSettles? {
        var p := s.parties[a.id];
        OtherSequence(c, s.journal, p.sequence, ReauthorizationRequired, p.recorded, None, a.io);
      }
    }
  }

  lemma StandstillPersist(c: Format, s: System, a: Action)
    requires SystemInv(c, s) && Abandoned(s)
    requires OfPersist(a)
    ensures Standstill(s, StepPersist(s, a)) && Abandoned(StepPersist(s, a))
  {
    if a.id in s.parties {
      AbandonedFacts(c, s, a.id);
    }
  }

  lemma StandstillActs(c: Format, s: System, a: Action)
    ensures Standstill(s, Step(c, s, a)) <==> Standstill(s, Act(c, s, a))
  {
  }

  lemma StandstillStep(c: Format, s: System, a: Action)
    requires SystemInv(c, s) && Abandoned(s) && !a.Crash?
    ensures Standstill(s, Step(c, s, a)) && Abandoned(Step(c, s, a))
  {
    AbandonedActs(c, s, a);
    StandstillActs(c, s, a);
    if OfReconcile(a) {
      StandstillReconcile(c, s, a);
    } else if OfReplace(a) {
      StandstillReplace(c, s, a);
    } else if OfPersist(a) {
      StandstillPersist(c, s, a);
    } else if !a.OtherKeychainWrite? {
      StandstillRefresh(c, s, a);
    }
  }

  lemma AbandonedStep(c: Format, s: System, a: Action)
    requires SystemInv(c, s)
    ensures Abandoned(Step(c, s, a)) <==> (Abandoned(s) && !a.Crash?) || FailsToClose(c, s, a)
  {
    AbandonedActs(c, s, a);
    CrashForgets(c, s);
    if Abandoned(s) {
      if !a.Crash? {
        StandstillStep(c, s, a);
      }
    } else if a.CloseRefresh? {
      if a.id in s.parties && s.parties[a.id].RefreshCloses? {
        ClosingAbandons(c, s, a.id, a.io);
      } else {
        NoClosing(c, s, a.id, a.io);
      }
    } else if a.RemoteAnswers? && a.clock.None? {
      UnclockedAbandons(c, s, a.id, a.answer);
    } else if !a.Crash? {
      OwnersAfterAct(c, s, a);
      OwnersKept(s, Act(c, s, a));
    }
  }

  /**
   Exactly when a step leaves a reservation that nobody owns: there was one before and the process goes on, or a
   refresh comes to its end that cannot be settled.
   */
  lemma AbandonedIffCloseFails(c: Format, disk: Bytes, keychain: Option<int>, actions: seq<Action>, a: Action)
    requires SoundFormat(c)
    ensures var s := Run(c, Initial(disk, keychain), actions);
            Abandoned(Step(c, s, a)) <==> (Abandoned(s) && !a.Crash?) || FailsToClose(c, s, a)
  {
    Reachable(c, disk, keychain, actions);
    AbandonedStep(c, Run(c, Initial(disk, keychain), actions), a);
  }

  /**
   From then on until the process ends nothing is refreshed, settled or replaced: the journal stands still in
   every continuation without a crash.
   */
  lemma {:induction false} AbandonedUntilCrash(c: Format, s: System, actions: seq<Action>)
    requires SoundFormat(c) && SystemInv(c, s) && Abandoned(s)
    requires forall i :: 0 <= i < |actions| ==> !actions[i].Crash?
    ensures Standstill(s, Run(c, s, actions)) && Abandoned(Run(c, s, actions))
  {
    if actions != [] {
      var n := |actions| - 1;
      AbandonedUntilCrash(c, s, actions[..n]);
      RunKeeps(c, s, actions[..n]);
      StandstillStep(c, Run(c, s, actions[..n]), actions[n]);
    }
  }

  // Such a run

  /** The first call opens the file and is heard of no more, the second one reserves. */
  function UpToReservation(now: int): seq<Action>
  {
    [StartRefresh(CLEAN), StartRefresh(CLEAN), ReadCredential(1, false), DecideRefresh(1, now), RunReserve(1, CLEAN)]
  }

  function UpToRefusal(now: int): seq<Action>
  {
    UpToReservation(now) + [CallRemote(1)] + [RemoteAnswers(1, Refused, Some(now))]
  }

  function FailedClose(now: int, written: nat): seq<Action>
  {
    UpToRefusal(now) + [CloseRefresh(1, Io(Loads, Fails(written)))]
  }

  lemma OneMore(c: Format, start: System, actions: seq<Action>, a: Action)
    ensures Run(c, start, actions + [a]) == Step(c, Run(c, start, actions), a)
  {
    assert (actions + [a])[..|actions|] == actions;
  }

  lemma ReservationRun(c: Format, start: System, now: int)
    ensures Run(c, start, UpToReservation(now)) == Reserving(c, Step(c, start, StartRefresh(CLEAN)), 1, now)
  {
    var actions := UpToReservation(now);
    assert actions[..4] + [actions[4]] == actions;
    forall i | 0 <= i < 4
      ensures actions[..i] + [actions[i]] == actions[..i + 1]
    {
    }
    forall i | 0 <= i < 5
      ensures Run(c, start, actions[..i] + [actions[i]]) == Step(c, Run(c, start, actions[..i]), actions[i])
    {
      OneMore(c, start, actions[..i], actions[i]);
    }
    assert Run(c, start, actions[..0]) == start;
    assert Run(c, start, actions[..1]) == Step(c, start, actions[0]);
    assert Run(c, start, actions[..2]) == Step(c, Run(c, start, actions[..1]), actions[1]);
    assert Run(c, start, actions[..3]) == Step(c, Run(c, start, actions[..2]), actions[2]);
    assert Run(c, start, actions[..4]) == Step(c, Run(c, start, actions[..3]), actions[3]);
  }

  lemma FirstStart(c: Format, obtained: int)
    ensures var s := Step(c, Initial([], Some(obtained)), StartRefresh(CLEAN));
            && s.journal == Journal([], true, None, None) && s.keychain == Some(obtained)
            && s.holder.None? && s.next == 1 && s.parties == map[0 := RefreshRead(None)]
  {
    WholeFile([]);
    StepIsAct(c, Initial([], Some(obtained)), StartRefresh(CLEAN));
    StartRefreshActs(c, Initial([], Some(obtained)), CLEAN);
  }

  lemma Reserves(c: Format, obtained: int, now: int)
    requires obtained <= now && HasRoom(c, [], Opening(None, obtained, now))
    ensures var s := Run(c, Initial([], Some(obtained)), UpToReservation(now));
            1 in s.parties && s.parties[1] == RefreshReserved(Opening(None, obtained, now))
  {
    var start := Initial([], Some(obtained));
    FirstStart(c, obtained);
    ReservationRun(c, start, now);
    ReservesFirst(c, Step(c, start, StartRefresh(CLEAN)), obtained, now);
  }

  lemma RefusedStep(c: Format, s: System, id: nat, e: Event, now: int)
    requires id in s.parties && s.parties[id] == RefreshCalled(e)
    ensures var t := Step(c, s, RemoteAnswers(id, Refused, Some(now)));
            id in t.parties && t.parties[id] == RefreshCloses(e, ReauthorizationRequired, now, None)
  {
    RemoteIs(c, s, RemoteAnswers(id, Refused, Some(now)));
  }

  lemma IsRefused(c: Format, obtained: int, now: int)
    requires obtained <= now && HasRoom(c, [], Opening(None, obtained, now))
    ensures var s := Run(c, Initial([], Some(obtained)), UpToRefusal(now));
            1 in s.parties && s.parties[1].RefreshCloses?
  {
    var start := Initial([], Some(obtained));
    var actions := UpToReservation(now);
    Reserves(c, obtained, now);
    OneMore(c, start, actions, CallRemote(1));
    OneMore(c, start, actions + [CallRemote(1)], RemoteAnswers(1, Refused, Some(now)));
    CallStep(c, Run(c, start, actions), 1, Opening(None, obtained, now));
    RefusedStep(c, Run(c, start, actions + [CallRemote(1)]), 1, Opening(None, obtained, now), now);
  }

  /**
   From an empty file: a refresh reserves, the remote endpoint refuses it, and the append that should say so fails.
   Nobody owns the reservation, and nothing is done until the process ends.
   */
  lemma AbandonedRun(c: Format, obtained: int, now: int, written: nat, more: seq<Action>)
    requires SoundFormat(c) && obtained <= now && HasRoom(c, [], Opening(None, obtained, now))
    requires forall i :: 0 <= i < |more| ==> !more[i].Crash?
    ensures var s := Run(c, Initial([], Some(obtained)), FailedClose(now, written));
            Abandoned(s) && Standstill(s, Run(c, s, more))
  {
    var start := Initial([], Some(obtained));
    IsRefused(c, obtained, now);
    AbandonedIffCloseFails(c, [], Some(obtained), UpToRefusal(now), CloseRefresh(1, Io(Loads, Fails(written))));
    OneMore(c, start, UpToRefusal(now), CloseRefresh(1, Io(Loads, Fails(written))));
    Reachable(c, [], Some(obtained), FailedClose(now, written));
    AbandonedUntilCrash(c, Run(c, start, FailedClose(now, written)), more);
  }
}
