/** Runs in which appends fail only by a crash: the file always loads, to what the process remembers. */
module RotationFiles {
  import opened Wrappers
  import opened AppendLog
  import opened RotationEvents
  import opened RotationJournal
  import opened RotationRuns
  import opened RotationInvariant
  import opened RotationSteps

  /** The append of this step commits, or is refused for its size. Loads may fail. */
  predicate Clean(a: Action)
  {
    match a
    case RunReserve(_, io) => io.append.Commits?
    case CloseRefresh(_, io) => io.append.Commits?
    case RunSettle(_, io) => io.append.Commits?
    case StartReplace(_, io) => io.append.Commits?
    case FinishReplace(_, append) => append.Commits?
    case RunRestore(_, io) => io.append.Commits?
    case _ => true
  }

  predicate CleanAt(actions: seq<Action>, i: nat)
    requires i < |actions|
  {
    Clean(actions[i]) || (i + 1 < |actions| && actions[i + 1].Crash?)
  }

  /** An append that does not commit is cut short by a crash, after any part of its line. */
  predicate OnlyCrashesFail(actions: seq<Action>)
  {
    forall i :: 0 <= i < |actions| ==> CleanAt(actions, i)
  }

  ghost predicate FileMatches(c: Format, j: Journal)
  {
    && Reload(c, j.disk).Ok?
    && (j.loaded ==> Whole(j.disk) && Reload(c, j.disk) == Ok(j.latest))
    && (j.latest.Some? ==> WellFormed(j.latest.value))
  }

  /** After an operation with this append the file loads, and it matches if the append committed. */
  ghost predicate Survives(c: Format, k: Journal, io: AppendIo)
  {
    Reload(c, k.disk).Ok? && (io.Commits? ==> FileMatches(c, k))
  }

  lemma LoadCases(c: Format, j: Journal, io: LoadIo)
    ensures var (k, r) := Load(c, j, io);
            if j.loaded then k == j && r.Ok?
            else if r.Ok? then k == Journal(Repaired(j.disk), true, Reload(c, j.disk).value, j.active) && Reload(c, j.disk).Ok?
            else !k.loaded && k.latest == j.latest && (k.disk == j.disk || k.disk == Repaired(j.disk))
  {
  }

  lemma LoadMatches(c: Format, j: Journal, io: LoadIo)
    requires FileMatches(c, j)
    ensures FileMatches(c, Load(c, j, io).0)
    ensures Load(c, j, io).1.Ok? ==> Load(c, j, io).0.loaded
  {
    LoadCases(c, j, io);
    WholeFile(Repaired(j.disk));
    RepairReloads(c, j.disk);
    ReloadWellFormed(c, j.disk);
  }

  lemma AdvanceSurvives(c: Format, j: Journal, e: Event, active: Option<int>, io: AppendIo)
    requires SoundFormat(c) && FileMatches(c, j) && j.loaded
    ensures Survives(c, Advance(c, j, e, active, io).0, io)
  {
    AdvanceCases(c, j, e, active, io);
    var (k, r) := Advance(c, j, e, active, io);
    if k != j {
      WholeFile(j.disk);
      var written := if r.Ok? then |Line(c, Encode(e))| else io.written;
      AppendedShape(c, j.disk, Encode(e), written);
      ReloadAfterAppend(c, j.disk, e, written);
    }
  }

  lemma SettleIsAdvance(c: Format, j: Journal, sequence: int, state: State, recorded: int, result: Option<int>, io: Io)
    ensures var (l, loaded) := Load(c, j, io.load);
            var k := Settle(c, j, sequence, state, recorded, result, io).0;
            k == l ||
            (loaded.Ok? && l.latest.Some? &&
             k == Advance(c, l, Event(CURRENT_VERSION, sequence, state, l.latest.value.source, recorded, result),
                          None, io.append).0)
  {
  }

  lemma SettleSurvives(c: Format, j: Journal, sequence: int, state: State, recorded: int, result: Option<int>, io: Io)
    requires SoundFormat(c) && FileMatches(c, j)
    ensures Survives(c, Settle(c, j, sequence, state, recorded, result, io).0, io.append)
  {
    LoadMatches(c, j, io.load);
    SettleIsAdvance(c, j, sequence, state, recorded, result, io);
    var l := Load(c, j, io.load).0;
    if l.loaded && l.latest.Some? {
      AdvanceSurvives(c, l, Event(CURRENT_VERSION, sequence, state, l.latest.value.source, recorded, result), None, io.append);
    }
  }

  lemma ReserveSurvives(c: Format, j: Journal, source: int, recorded: int, io: Io)
    requires SoundFormat(c) && FileMatches(c, j)
    ensures Survives(c, Reserve(c, j, source, recorded, io).0, io.append)
  {
    LoadMatches(c, j, io.load);
    var l := Load(c, j, io.load).0;
    if l.loaded {
      var sequence := NextSequence(l.latest);
      AdvanceSurvives(c, l, Event(CURRENT_VERSION, sequence, Reserved, source, recorded, None), Some(sequence), io.append);
    }
  }

  lemma BeginSurvives(c: Format, j: Journal, now: int, io: Io)
    requires SoundFormat(c) && FileMatches(c, j)
    ensures Survives(c, BeginReplacement(c, j, now, io).0, io.append)
  {
    LoadMatches(c, j, io.load);
    var l := Load(c, j, io.load).0;
    if l.loaded && l.latest.Some? {
      AdvanceSurvives(c, l, SettledEvent(l.latest.value, ReauthorizationReserved, now, None), l.active, io.append);
    }
  }

  lemma FinishReplaceJournal(c: Format, s: System, id: nat, append: AppendIo)
    requires id in s.parties && s.parties[id].ReplacePersisted?
    requires s.journal.latest == Some(s.parties[id].reservation)
    ensures var p := s.parties[id];
            Act(c, s, FinishReplace(id, append)).journal ==
            Advance(c, s.journal, FinalEvent(p.reservation, p.recorded, p.evidence), None, append).0
  {
    var p := s.parties[id];
    FinishReplaceActs(c, s, id, append);
    FinishIsAdvance(c, s.journal, p.reservation, p.recorded, p.evidence, append);
  }

  lemma FinishSurvives(c: Format, s: System, id: nat, append: AppendIo)
    requires SoundFormat(c) && SystemInv(c, s) && FileMatches(c, s.journal)
    ensures Survives(c, Act(c, s, FinishReplace(id, append)).journal, append)
  {
    if id in s.parties && s.parties[id].ReplacePersisted? {
      var p := s.parties[id];
      PartyFacts(c, s, id);
      FinishReplaceJournal(c, s, id, append);
      AdvanceSurvives(c, s.journal, FinalEvent(p.reservation, p.recorded, p.evidence), None, append);
    } else {
      assert Act(c, s, FinishReplace(id, append)) == s;
    }
  }

  ghost predicate StepSurvives(c: Format, k: Journal, a: Action)
  {
    Reload(c, k.disk).Ok? && (Clean(a) ==> FileMatches(c, k))
  }

  lemma RunReserveSurvives(c: Format, s: System, id: nat, io: Io)
    requires SoundFormat(c) && FileMatches(c, s.journal)
    ensures Survives(c, Act(c, s, RunReserve(id, io)).journal, io.append)
  {
    if id in s.parties && s.parties[id].RefreshReserves? && s.holder.None? {
      ReserveSurvives(c, s.journal, s.parties[id].source, s.parties[id].recorded, io);
      RunReserveActs(c, s, id, io);
    } else {
      assert Act(c, s, RunReserve(id, io)) == s;
    }
  }

  lemma CloseRefreshSurvives(c: Format, s: System, id: nat, io: Io)
    requires SoundFormat(c) && FileMatches(c, s.journal)
    ensures Survives(c, Act(c, s, CloseRefresh(id, io)).journal, io.append)
  {
    if id in s.parties && s.parties[id].RefreshCloses? && s.holder.None? {
      var p := s.parties[id];
      SettleSurvives(c, s.journal, p.event.sequence, p.state, p.recorded, p.result, io);
      CloseRefreshActs(c, s, id, io);
    } else {
      assert Act(c, s, CloseRefresh(id, io)) == s;
    }
  }

  lemma InspectingSurvives(c: Format, s: System, a: Action)
    requires FileMatches(c, s.journal) && (a.StartRefresh? || a.StartReconcile? || a.CheckReconcile? || a.InspectRestore?)
    ensures FileMatches(c, Act(c, s, a).journal)
  {
    LoadMatches(c, s.journal, a.io.load);
    assert Act(c, s, a).journal == s.journal || Act(c, s, a).journal == Inspect(c, s.journal, a.io).0;
  }

  lemma RefreshSurvives(c: Format, s: System, a: Action)
    requires SoundFormat(c) && FileMatches(c, s.journal) && OfRefresh(a)
    ensures StepSurvives(c, Act(c, s, a).journal, a)
  {
    if a.StartRefresh? {
      InspectingSurvives(c, s, a);
    } else if a.RunReserve? {
      RunReserveSurvives(c, s, a.id, a.io);
    } else if a.CloseRefresh? {
      CloseRefreshSurvives(c, s, a.id, a.io);
    } else {
      assert Act(c, s, a).journal == s.journal;
    }
  }

  lemma RunSettleSurvives(c: Format, s: System, id: nat, io: Io)
    requires SoundFormat(c) && FileMatches(c, s.journal)
    ensures Survives(c, Act(c, s, RunSettle(id, io)).journal, io.append)
  {
    if id in s.parties && s.parties[id].Settles? && s.holder.None? {
      var p := s.parties[id];
      SettleSurvives(c, s.journal, p.sequence, p.state, p.recorded, p.result, io);
      RunSettleActs(c, s, id, io);
    } else {
      assert Act(c, s, RunSettle(id, io)) == s;
    }
  }

  lemma ReconcileSurvives(c: Format, s: System, a: Action)
    requires SoundFormat(c) && FileMatches(c, s.journal) && OfReconcile(a)
    ensures StepSurvives(c, Act(c, s, a).journal, a)
  {
    if a.StartReconcile? || a.CheckReconcile? {
      InspectingSurvives(c, s, a);
    } else if a.RunSettle? {
      RunSettleSurvives(c, s, a.id, a.io);
    } else {
      assert Act(c, s, a).journal == s.journal;
    }
  }

  lemma RunRestoreSurvives(c: Format, s: System, id: nat, io: Io)
    requires SoundFormat(c) && FileMatches(c, s.journal)
    ensures Survives(c, Act(c, s, RunRestore(id, io)).journal, io.append)
  {
    if id in s.parties && s.parties[id].RestoreSettles? && s.holder.None? {
      var p := s.parties[id];
      SettleSurvives(c, s.journal, p.sequence, ReauthorizationRequired, p.recorded, None, io);
      RestoreActs(c, s, id, io);
    } else {
      assert Act(c, s, RunRestore(id, io)) == s;
    }
  }

  lemma RestoreSurvives(c: Format, s: System, a: Action)
    requires SoundFormat(c) && FileMatches(c, s.journal) && (a.InspectRestore? || a.RunRestore?)
    ensures StepSurvives(c, Act(c, s, a).journal, a)
  {
    if a.InspectRestore? {
      InspectingSurvives(c, s, a);
    } else {
      RunRestoreSurvives(c, s, a.id, a.io);
    }
  }

  lemma StartReplaceSurvives(c: Format, s: System, now: int, io: Io)
    requires SoundFormat(c) && FileMatches(c, s.journal)
    ensures Survives(c, Act(c, s, StartReplace(now, io)).journal, io.append)
  {
    if s.holder.None? {
      BeginSurvives(c, s.journal, now, io);
      StartReplaceActs(c, s, now, io);
    } else {
      assert Act(c, s, StartReplace(now, io)) == s;
    }
  }

  lemma UnchangedSurvives(c: Format, j: Journal, a: Action)
    requires FileMatches(c, j)
    ensures StepSurvives(c, j, a)
  {
  }

  lemma ActSurvives(c: Format, s: System, a: Action)
    requires SoundFormat(c) && SystemInv(c, s) && FileMatches(c, s.journal)
    ensures StepSurvives(c, Act(c, s, a).journal, a)
  {
    if OfRefresh(a) {
      RefreshSurvives(c, s, a);
    } else if OfReconcile(a) {
      ReconcileSurvives(c, s, a);
    } else if a.StartReplace? {
      StartReplaceSurvives(c, s, a.now, a.io);
    } else if a.FinishReplace? {
      FinishSurvives(c, s, a.id, a.append);
    } else if OfReplace(a) {
      RestoreSurvives(c, s, a);
    } else if OfPersist(a) {
      PersistKeeps(c, s, a);
      UnchangedSurvives(c, s.journal, a);
    } else if a.OtherKeychainWrite? {
      UnchangedSurvives(c, s.journal, a);
    } else {
      CrashedMatches(c, s);
    }
  }

  lemma StepLeavesFile(c: Format, s: System, a: Action)
    requires SoundFormat(c) && SystemInv(c, s) && FileMatches(c, s.journal)
    ensures StepSurvives(c, Step(c, s, a).journal, a)
  {
    ActSurvives(c, s, a);
    assert Step(c, s, a).journal == Act(c, s, a).journal;
  }

  /** A crash inside any step. */
  lemma CrashInside(c: Format, s: System, a: Action)
    requires SoundFormat(c) && SystemInv(c, s) && FileMatches(c, s.journal)
    ensures FileMatches(c, Step(c, Step(c, s, a), Crash).journal)
  {
    StepLeavesFile(c, s, a);
    CrashedMatches(c, Step(c, s, a));
  }

  lemma CrashedMatches(c: Format, s: System)
    requires Reload(c, s.journal.disk).Ok?
    ensures FileMatches(c, Step(c, s, Crash).journal)
  {
    assert Step(c, s, Crash).journal == Crashed(s).journal;
  }

  lemma EarlierCleans(actions: seq<Action>, n: nat)
    requires n <= |actions| && OnlyCrashesFail(actions) && (n > 0 ==> Clean(actions[n - 1]))
    ensures OnlyCrashesFail(actions[..n])
  {
    forall i | 0 <= i < n
      ensures CleanAt(actions[..n], i)
    {
      assert CleanAt(actions, i);
    }
  }

  ghost predicate Good(c: Format, s: System)
  {
    SystemInv(c, s) && FileMatches(c, s.journal)
  }

  lemma CleanLast(c: Format, s: System, actions: seq<Action>)
    requires SoundFormat(c) && actions != [] && Clean(actions[|actions| - 1])
    requires Good(c, Run(c, s, actions[..|actions| - 1]))
    ensures Good(c, Run(c, s, actions))
  {
    var n := |actions| - 1;
    StepLeavesFile(c, Run(c, s, actions[..n]), actions[n]);
    StepKeeps(c, Run(c, s, actions[..n]), actions[n]);
  }

  lemma CrashLast(c: Format, s: System, actions: seq<Action>)
    requires SoundFormat(c) && |actions| >= 2 && actions[|actions| - 1].Crash?
    requires Good(c, Run(c, s, actions[..|actions| - 2]))
    ensures Good(c, Run(c, s, actions))
  {
    var n := |actions| - 2;
    var t := Run(c, s, actions[..n]);
    assert actions[..n + 1][..n] == actions[..n];
    assert Run(c, s, actions[..n + 1]) == Step(c, t, actions[n]);
    CrashInside(c, t, actions[n]);
    StepKeeps(c, t, actions[n]);
    StepKeeps(c, Step(c, t, actions[n]), Crash);
  }

  lemma {:induction false} FilesStayGood(c: Format, s: System, actions: seq<Action>)
    requires SoundFormat(c) && Good(c, s) && OnlyCrashesFail(actions)
    ensures Good(c, Run(c, s, actions))
  {
    var n := |actions|;
    if actions == [] {
    } else if n == 1 || Clean(actions[n - 2]) {
      assert CleanAt(actions, n - 1);
      EarlierCleans(actions, n - 1);
      FilesStayGood(c, s, actions[..n - 1]);
      CleanLast(c, s, actions);
    } else {
      BeforeCrash(actions);
      FilesStayGood(c, s, actions[..n - 2]);
      CrashLast(c, s, actions);
    }
  }

  lemma BeforeCrash(actions: seq<Action>)
    requires |actions| >= 2 && OnlyCrashesFail(actions) && !Clean(actions[|actions| - 2])
    ensures actions[|actions| - 1].Crash? && OnlyCrashesFail(actions[..|actions| - 2])
  {
    var n := |actions| - 2;
    assert CleanAt(actions, n);
    if n > 0 {
      assert CleanAt(actions, n - 1);
    }
    EarlierCleans(actions, n);
  }

  lemma HasJournal(c: Format, disk: Bytes)
    requires SoundFormat(c) && Reload(c, disk).Ok?
    ensures Whole(Repaired(disk)) && exists events :: IsJournal(c, Lines(Repaired(disk)), events)
  {
    WholeFile(disk);
    LoadsIffReplayable(c, Lines(Repaired(disk)));
  }

  /**
   As long as appends fail only by a crash, inside an append or anywhere else, the file always loads, and
   whatever the process remembers is the last event of a replayable journal in a whole file.
   */
  lemma MemoryMatchesFile(c: Format, disk: Bytes, keychain: Option<int>, actions: seq<Action>)
    requires SoundFormat(c) && Reload(c, disk).Ok? && OnlyCrashesFail(actions)
    ensures var j := Run(c, Initial(disk, keychain), actions).journal;
            && Whole(Repaired(j.disk)) && (exists events :: IsJournal(c, Lines(Repaired(j.disk)), events))
            && (j.loaded ==> Whole(j.disk) && Reload(c, j.disk) == Ok(j.latest))
  {
    InitialHolds(c, disk, keychain);
    FilesStayGood(c, Initial(disk, keychain), actions);
    HasJournal(c, Run(c, Initial(disk, keychain), actions).journal.disk);
  }
}
