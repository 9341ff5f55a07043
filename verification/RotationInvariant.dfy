/**
 The invariant of the rotation parties. The facts that a call relies on depend on a few values of the
 state only, so that most steps keep the facts of all other calls by leaving those values alone.
 */
module RotationInvariant {
  import opened Wrappers
  import opened AppendLog
  import opened RotationEvents
  import opened RotationJournal
  import opened RotationRuns

  // The journal

  ghost predicate JournalInv(c: Format, j: Journal)
  {
    && (j.loaded ==> Torn(c, Tail(j.disk)) && OneStep(Reload(c, j.disk), j.latest))
    && (!j.loaded ==> j.latest.None? && j.active.None?)
    && (j.latest.Some? ==> WellFormed(j.latest.value))
    && (j.active.Some? ==>
          j.latest.Some? && j.latest.value.state.Reserved? && j.latest.value.sequence == j.active.value)
  }

  /** The memory takes one event. */
  ghost predicate Advances(j: Journal, k: Journal, e: Event)
  {
    && k.loaded && k.latest == Some(e) && WellFormed(e) && ValidTransition(j.latest, e)
  }

  predicate Rests(j: Journal, k: Journal)
  {
    k.latest == j.latest && k.active == j.active && k.loaded == j.loaded
  }

  ghost predicate Loading(c: Format, j: Journal, k: Journal)
  {
    && !j.loaded && k.active.None?
    && (k.loaded ==> Reload(c, j.disk) == Ok(k.latest))
    && (!k.loaded ==> k.latest.None?)
    && Reload(c, k.disk) == Reload(c, j.disk)
  }

  /** What an attempt to append an event may change for a restart. */
  ghost predicate Attempted(c: Format, j: Journal, k: Journal, e: Event)
  {
    || Reload(c, k.disk) == Reload(c, j.disk)
    || Reload(c, k.disk).Err?
    || (Reload(c, k.disk) == Ok(Some(e)) && ValidTransition(j.latest, e))
  }

  lemma ReloadWellFormed(c: Format, disk: Bytes)
    ensures var r := Reload(c, disk); r.Ok? && r.value.Some? ==> WellFormed(r.value.value)
  {
    WholeFile(disk);
    if Reload(c, disk).Ok? {
      var events := EventsOf(c, Lines(Repaired(disk)));
    }
  }

  lemma LoadKeeps(c: Format, j: Journal, io: LoadIo)
    requires JournalInv(c, j)
    ensures var (k, r) := Load(c, j, io);
            && JournalInv(c, k)
            && (j.loaded ==> k == j && r.Ok?)
            && (r.Ok? ==> k.loaded)
            && (!j.loaded ==> Loading(c, j, k))
  {
    RepairReloads(c, j.disk);
    ReloadWellFormed(c, j.disk);
  }

  lemma RepairReloads(c: Format, disk: Bytes)
    ensures Reload(c, Repaired(disk)) == Reload(c, disk) && Torn(c, Tail(Repaired(disk)))
  {
    WholeFile(disk);
    WholeFile(Repaired(disk));
  }

  lemma AdvanceCases(c: Format, j: Journal, e: Event, active: Option<int>, io: AppendIo)
    ensures var (k, r) := Advance(c, j, e, active, io);
            if r.Ok? then
              && WellFormed(e) && ValidTransition(j.latest, e) && r == Ok(e)
              && k == j.(disk := Appended(c, j.disk, Encode(e), |Line(c, Encode(e))|), latest := Some(e), active := active)
            else
              k == j ||
              (WellFormed(e) && ValidTransition(j.latest, e) && io.Fails? &&
               k == j.(disk := Appended(c, j.disk, Encode(e), io.written)))
  {
  }

  lemma AppendKeepsStep(c: Format, disk: Bytes, latest: Option<Event>, e: Event, written: nat)
    requires SoundFormat(c) && Torn(c, Tail(disk)) && OneStep(Reload(c, disk), latest)
    requires WellFormed(e) && ValidTransition(latest, e)
    ensures var after := Appended(c, disk, Encode(e), written);
            && Torn(c, Tail(after)) && OneStep(Reload(c, after), latest)
            && (Reload(c, after) == Reload(c, disk) || Reload(c, after).Err? || Reload(c, after) == Ok(Some(e)))
            && (written >= |Line(c, Encode(e))| && Reload(c, after).Ok? ==> Reload(c, after) == Ok(Some(e)))
  {
    AppendedShape(c, disk, Encode(e), written);
    ReloadAfterAppend(c, disk, e, written);
  }

  lemma AdvanceKeeps(c: Format, j: Journal, e: Event, active: Option<int>, io: AppendIo)
    requires SoundFormat(c) && JournalInv(c, j) && j.loaded
    requires active.Some? ==> e.state.Reserved? && active == Some(e.sequence)
    ensures var (k, r) := Advance(c, j, e, active, io);
            && JournalInv(c, k) && k.loaded && Attempted(c, j, k, e)
            && (r.Ok? ==> r == Ok(e) && Advances(j, k, e) && k.active == active)
            && (r.Err? ==> Rests(j, k))
  {
    AdvanceCases(c, j, e, active, io);
    if Advance(c, j, e, active, io).0 != j {
      var written := if Advance(c, j, e, active, io).1.Ok? then |Line(c, Encode(e))| else io.written;
      AppendKeepsStep(c, j.disk, j.latest, e, written);
    }
  }

  /** No attempt takes a reservation back but one that writes `reauthorization_required` on top of it. */
  lemma NothingBack(c: Format, j: Journal, k: Journal, e: Event)
    requires j.loaded && OneStep(Reload(c, j.disk), j.latest) && Attempted(c, j, k, e)
    requires Rests(j, k) || k.latest == Some(e)
    requires e.state.ReauthorizationRequired? ==> j.latest.Some? && j.latest.value.state.Reserved?
    ensures !TakenBack(c, j, k)
  {
  }

  lemma LoadTakesNothingBack(c: Format, j: Journal, k: Journal)
    requires JournalInv(c, j) && (k == j || Loading(c, j, k))
    ensures !TakenBack(c, j, k)
  {
  }

  lemma FinishIsAdvance(c: Format, j: Journal, reservation: Event, recorded: int, result: int, io: AppendIo)
    requires j.latest == Some(reservation)
    ensures FinishReplacement(c, j, reservation, recorded, result, io) ==
              Advance(c, j, FinalEvent(reservation, recorded, result), None, io)
  {
  }

  function FinalEvent(reservation: Event, recorded: int, evidence: int): Event
  {
    Event(CURRENT_VERSION, reservation.sequence, Reauthorized, reservation.source, recorded, Some(evidence))
  }

  function SettledEvent(latest: Event, state: State, recorded: int, result: Option<int>): Event
  {
    Event(CURRENT_VERSION, latest.sequence, state, latest.source, recorded, result)
  }

  /** What a settle operation does to a loaded journal. */
  lemma SettleMoves(c: Format, j: Journal, sequence: int, state: State, recorded: int, result: Option<int>, io: Io)
    requires SoundFormat(c) && JournalInv(c, j) && j.loaded && !state.Reserved?
    ensures var (k, r) := Settle(c, j, sequence, state, recorded, result, io);
            && JournalInv(c, k) && k.loaded
            && (r.Err? ==> Rests(j, k))
            && (r.Ok? ==> Advances(j, k, r.value) && k.active.None?)
            && (k != j || r.Ok? ==>
                  && j.latest.Some? && !Terminal(j.latest.value.state) && j.latest.value.sequence == sequence
                  && Attempted(c, j, k, SettledEvent(j.latest.value, state, recorded, result))
                  && (r.Ok? ==> r.value == SettledEvent(j.latest.value, state, recorded, result)))
  {
    if j.latest.Some? && !Terminal(j.latest.value.state) && j.latest.value.sequence == sequence
      && Terminal(state) == result.Some? {
      AdvanceKeeps(c, j, SettledEvent(j.latest.value, state, recorded, result), None, io.append);
    }
  }

  lemma ReserveMoves(c: Format, j: Journal, source: int, recorded: int, io: Io)
    requires SoundFormat(c) && JournalInv(c, j) && j.loaded
    ensures var (k, r) := Reserve(c, j, source, recorded, io);
            && JournalInv(c, k) && k.loaded && !TakenBack(c, j, k)
            && (r.Err? ==> Rests(j, k))
            && (r.Ok? ==> Advances(j, k, r.value) && r.value.state.Reserved? && k.active == Some(r.value.sequence)
                          && (j.latest.None? || Terminal(j.latest.value.state)))
  {
    if j.latest.None? || Terminal(j.latest.value.state) {
      var e := Event(CURRENT_VERSION, NextSequence(j.latest), Reserved, source, recorded, None);
      AdvanceKeeps(c, j, e, Some(e.sequence), io.append);
      NothingBack(c, j, Advance(c, j, e, Some(e.sequence), io.append).0, e);
    }
  }

  lemma BeginMoves(c: Format, l: Journal, now: int, io: Io)
    requires SoundFormat(c) && JournalInv(c, l) && l.loaded
    ensures var (k, r) := BeginReplacement(c, l, now, io);
            && JournalInv(c, k) && k.loaded && !TakenBack(c, l, k)
            && (r.Err? ==> Rests(l, k))
            && (r.Ok? ==>
                  var (blocked, reservation) := r.value;
                  && Advances(l, k, reservation) && k.active.None?
                  && l.latest == Some(blocked) && blocked.state.ReauthorizationRequired?
                  && reservation.state.ReauthorizationReserved?)
  {
    if l.latest.Some? && l.latest.value.state.ReauthorizationRequired? {
      var e := SettledEvent(l.latest.value, ReauthorizationReserved, now, None);
      AdvanceKeeps(c, l, e, l.active, io.append);
      NothingBack(c, l, Advance(c, l, e, l.active, io.append).0, e);
    }
  }

  lemma FinishMoves(c: Format, j: Journal, reservation: Event, recorded: int, evidence: int, io: AppendIo)
    requires SoundFormat(c) && JournalInv(c, j) && j.loaded && j.latest == Some(reservation)
    ensures var (k, r) := FinishReplacement(c, j, reservation, recorded, evidence, io);
            && JournalInv(c, k) && k.loaded && !TakenBack(c, j, k)
            && (r.Err? ==> Rests(j, k))
            && (r.Ok? ==> r.value == FinalEvent(reservation, recorded, evidence) && Advances(j, k, r.value) && k.active.None?)
  {
    var e := FinalEvent(reservation, recorded, evidence);
    FinishIsAdvance(c, j, reservation, recorded, evidence, io);
    AdvanceKeeps(c, j, e, None, io);
    NothingBack(c, j, Advance(c, j, e, None, io).0, e);
  }

  // The records of the run

  ghost predicate AllBelow(log: seq<int>, bound: int)
  {
    forall i :: 0 <= i < |log| ==> log[i] < bound
  }

  ghost predicate Increasing(log: seq<int>)
  {
    forall i, j :: 0 <= i < j < |log| ==> log[i] < log[j]
  }

  /** No sequence twice, every evidence beyond its source, and no later source before an earlier evidence. */
  ghost predicate Chained(log: seq<Settlement>)
  {
    && (forall i :: 0 <= i < |log| ==> log[i].source < log[i].evidence)
    && (forall i, j :: 0 <= i < j < |log| ==>
          log[i].sequence < log[j].sequence && log[i].evidence <= log[j].source)
  }

  predicate SettledBy(s: Settlement, latest: Event)
  {
    || (s.sequence < latest.sequence && s.evidence <= latest.source)
    || (s.sequence == latest.sequence && Terminal(latest.state) && latest.result == Some(s.evidence))
  }

  /** The last event has seen every remote call and every settlement. */
  ghost predicate OnRecord(refreshed: seq<int>, settled: seq<Settlement>, latest: Option<Event>)
  {
    && (forall i :: 0 <= i < |refreshed| ==> latest.Some? && refreshed[i] <= latest.value.source)
    && (forall i :: 0 <= i < |settled| ==> latest.Some? && SettledBy(settled[i], latest.value))
  }

  ghost predicate LogsInv(c: Format, j: Journal, refreshed: seq<int>, settled: seq<Settlement>)
  {
    && Increasing(refreshed) && Chained(settled)
    && (j.loaded ==> OnRecord(refreshed, settled, j.latest))
    && (Reload(c, j.disk).Ok? ==> OnRecord(refreshed, settled, Reload(c, j.disk).value))
  }

  lemma RecordStep(refreshed: seq<int>, settled: seq<Settlement>, latest: Option<Event>, e: Event)
    requires OnRecord(refreshed, settled, latest) && ValidTransition(latest, e)
    requires latest.Some? ==> WellFormed(latest.value)
    ensures OnRecord(refreshed, settled, Some(e))
    ensures e.state.Reserved? ==> AllBelow(refreshed, e.source)
  {
  }

  /** With the journal loaded the memory decides what is on record. */
  lemma LoadedRecord(c: Format, k: Journal, refreshed: seq<int>, settled: seq<Settlement>)
    requires JournalInv(c, k) && k.loaded
    requires Increasing(refreshed) && Chained(settled) && OnRecord(refreshed, settled, k.latest)
    ensures LogsInv(c, k, refreshed, settled)
  {
    var r := Reload(c, k.disk);
    if r.Ok? && r.value != k.latest {
      RecordStep(refreshed, settled, k.latest, r.value.value);
    }
  }

  lemma SettlementRecorded(refreshed: seq<int>, settled: seq<Settlement>, latest: Option<Event>, e: Event)
    requires OnRecord(refreshed, settled, latest) && Chained(settled) && ValidTransition(latest, e)
    requires WellFormed(e) && (latest.Some? ==> WellFormed(latest.value))
    ensures Chained(Recorded(settled, Ok(e))) && OnRecord(refreshed, Recorded(settled, Ok(e)), Some(e))
  {
    RecordStep(refreshed, settled, latest, e);
  }

  /** Every journal operation on a loaded journal keeps the records. */
  lemma LogsAfter(c: Format, j: Journal, k: Journal, refreshed: seq<int>, settled: seq<Settlement>, r: Result<Event, Error>)
    requires JournalInv(c, j) && j.loaded && LogsInv(c, j, refreshed, settled) && JournalInv(c, k) && k.loaded
    requires if r.Ok? then Advances(j, k, r.value) else Rests(j, k)
    ensures LogsInv(c, k, refreshed, Recorded(settled, r))
  {
    if r.Ok? {
      SettlementRecorded(refreshed, settled, j.latest, r.value);
    }
    LoadedRecord(c, k, refreshed, Recorded(settled, r));
  }

  // The calls

  /** The values that the facts of a call depend on. */
  datatype Facts = Facts(
    latest: Option<Event>,
    active: Option<int>,
    refreshed: seq<int>,
    holder: Option<nat>,
    reservedBy: Option<nat>,
    touched: set<nat>,
    wrote: set<nat>)

  function FactsOf(s: System): Facts
  {
    Facts(s.journal.latest, s.journal.active, s.refreshed, s.holder, s.reservedBy, s.touched, s.wrote)
  }

  /** A snapshot taken earlier in this process. */
  predicate NotNewer(e: Event, latest: Option<Event>)
  {
    latest.Some? &&
    (e.sequence < latest.value.sequence ||
     (e.sequence == latest.value.sequence && (latest.value.state.Reserved? ==> e == latest.value)))
  }

  predicate Owner(p: Party)
  {
    p.RefreshReserved? || p.RefreshCalled? || p.RefreshCloses?
  }

  predicate InCallback(p: Party)
  {
    p.Replaces? || p.Persists? || p.ReplacePersisted?
  }

  predicate MayRestore(f: Facts, id: nat, sequence: int)
  {
    && id !in f.touched
    && f.latest.Some?
    && (sequence < f.latest.value.sequence ||
        (sequence == f.latest.value.sequence &&
         (Terminal(f.latest.value.state) ||
          (f.latest.value.state.ReauthorizationReserved? && f.reservedBy == Some(id)))))
  }

  /** The replacement whose reservation is the last event. */
  predicate Replacing(f: Facts, id: nat, r: Event)
  {
    f.latest == Some(r) && r.state.ReauthorizationReserved? && f.holder == Some(id) && f.reservedBy == Some(id)
  }

  predicate Snapshot(snapshot: Option<Event>, latest: Option<Event>)
  {
    snapshot.Some? ==> NotNewer(snapshot.value, latest)
  }

  predicate Expects(f: Facts, e: Event)
  {
    NotNewer(e, f.latest) && (e.state.Reserved? ==> f.active != Some(e.sequence))
  }

  ghost predicate PartyInv(f: Facts, id: nat, p: Party)
  {
    match p
    case RefreshRead(snapshot) => Snapshot(snapshot, f.latest)
    case RefreshHas(snapshot, _, _) => Snapshot(snapshot, f.latest)
    case RefreshReserves(_, _) => true
    case RefreshReserved(e) =>
      f.latest == Some(e) && f.active == Some(e.sequence) && AllBelow(f.refreshed, e.source)
    case RefreshCalled(e) => f.latest == Some(e) && f.active == Some(e.sequence)
    case RefreshCloses(e, state, _, result) =>
      && f.latest == Some(e) && f.active == Some(e.sequence)
      && (state.Completed? || state.Uncertain? || state.ReauthorizationRequired?)
      && (result.Some? <==> state.Completed?) && (result.Some? ==> e.source < result.value)
    case ReconcileRead(e) => Expects(f, e)
    case ReconcileHas(e, _) => Expects(f, e)
    case Settles(sequence, state, _, _) =>
      && f.latest.Some? && sequence <= f.latest.value.sequence && f.active != Some(sequence)
      && !state.ReauthorizationRequired? && !state.Reserved?
    case Replaces(blocked, r) =>
      Replacing(f, id, r) && id !in f.touched && blocked.sequence == r.sequence && blocked.source == r.source
    case Persists(sequence, r, recorded, token, stage) =>
      && Replacing(f, id, r) && sequence == r.sequence && r.source < token <= recorded
      && (id in f.touched <==> stage.Writing?)
    case ReplacePersisted(r, recorded, evidence) =>
      Replacing(f, id, r) && r.source < evidence <= recorded && id in f.wrote
    case Restores(sequence) => MayRestore(f, id, sequence)
    case RestoreSettles(sequence, _) => MayRestore(f, id, sequence)
  }

  ghost predicate PartiesInv(f: Facts, loaded: bool, parties: map<nat, Party>, next: nat)
  {
    && (parties != map[] ==> loaded)
    && (forall id :: id in parties ==> id < next && PartyInv(f, id, parties[id]))
    && (forall a, b :: a in parties && b in parties && Owner(parties[a]) && Owner(parties[b]) ==> a == b)
  }

  ghost predicate BooksInv(s: System)
  {
    && (s.holder.Some? ==> s.holder.value in s.parties && InCallback(s.parties[s.holder.value]))
    && (forall id :: id in s.reverted ==> id < s.next && id !in s.parties)
    && (forall id :: id in s.touched ==> id < s.next)
    && (s.reservedBy.Some? ==> s.reservedBy.value < s.next)
    && s.commands.Keys <= s.touched && s.wrote <= s.touched
    && s.touched !! s.reverted
  }

  ghost predicate SystemInv(c: Format, s: System)
  {
    && JournalInv(c, s.journal)
    && LogsInv(c, s.journal, s.refreshed, s.settled)
    && PartiesInv(FactsOf(s), s.journal.loaded, s.parties, s.next)
    && BooksInv(s)
  }

  // What happens to the calls when one of them moves

  lemma PartiesEnd(f: Facts, loaded: bool, parties: map<nat, Party>, next: nat, id: nat)
    requires PartiesInv(f, loaded, parties, next)
    ensures PartiesInv(f, loaded, parties - {id}, next)
  {
  }

  lemma PartiesMove(f: Facts, parties: map<nat, Party>, next: nat, id: nat, p: Party)
    requires PartiesInv(f, true, parties, next) && id < next && PartyInv(f, id, p)
    requires Owner(p) ==> (id in parties && Owner(parties[id])) || forall k :: k in parties ==> !Owner(parties[k])
    ensures PartiesInv(f, true, parties[id := p], next)
  {
  }

  /** The calls outside the callback do not depend on who holds the queue or writes the Keychain. */
  lemma OutsideStays(f: Facts, g: Facts, k: nat, p: Party)
    requires PartyInv(f, k, p) && !InCallback(p)
    requires g == f.(holder := g.holder, touched := g.touched, wrote := g.wrote)
    requires k in g.touched ==> k in f.touched
    ensures PartyInv(g, k, p)
  {
  }

  /** Only the holder is inside a callback. */
  lemma CallbackHolds(f: Facts, k: nat, p: Party)
    requires PartyInv(f, k, p) && InCallback(p)
    ensures f.holder == Some(k)
  {
  }

  /** The holder's own moves: the queue may be released, its command started or landed. */
  lemma OthersOutside(f: Facts, g: Facts, parties: map<nat, Party>, next: nat, id: nat)
    requires PartiesInv(f, true, parties, next) && f.holder == Some(id)
    requires g == f.(holder := g.holder, touched := g.touched, wrote := g.wrote)
    requires forall k :: k in g.touched && k != id ==> k in f.touched
    ensures PartiesInv(g, true, parties - {id}, next)
  {
    forall k | k in parties - {id}
      ensures PartyInv(g, k, parties[k])
    {
      if InCallback(parties[k]) {
        CallbackHolds(f, k, parties[k]);
      }
      OutsideStays(f, g, k, parties[k]);
    }
  }

  lemma PutBack(f: Facts, parties: map<nat, Party>, next: nat, id: nat, p: Party)
    requires PartiesInv(f, true, parties - {id}, next) && id < next && PartyInv(f, id, p) && !Owner(p)
    ensures PartiesInv(f, true, parties[id := p], next)
  {
    assert (parties - {id})[id := p] == parties[id := p];
  }

  // What happens to the facts of one call when the memory takes an event

  lemma NotOwning(f: Facts, k: nat, p: Party)
    requires PartyInv(f, k, p) && Owner(p)
    ensures f.latest.Some? && f.active == Some(f.latest.value.sequence)
  {
  }

  lemma AfterReserve(f: Facts, e: Event, k: nat, p: Party)
    requires PartyInv(f, k, p) && !InCallback(p) && !Owner(p)
    requires ValidTransition(f.latest, e) && e.state.Reserved?
    requires f.latest.Some? ==> Terminal(f.latest.value.state)
    ensures PartyInv(f.(latest := Some(e), active := Some(e.sequence)), k, p)
  {
  }

  lemma AfterSettle(f: Facts, e: Event, k: nat, p: Party)
    requires PartyInv(f, k, p) && !InCallback(p) && !Owner(p)
    requires ValidTransition(f.latest, e) && !e.state.Reserved? && f.latest.Some? && !Terminal(f.latest.value.state)
    requires e.state.ReauthorizationRequired? && f.latest.value.state.ReauthorizationReserved? ==> f.reservedBy != Some(k)
    requires e.state.ReauthorizationReserved? ==> !f.latest.value.state.ReauthorizationReserved?
    ensures PartyInv(f.(latest := Some(e), active := None), k, p)
  {
  }

  /** The same, for all calls but one. */
  lemma OthersAfterSettle(f: Facts, e: Event, parties: map<nat, Party>, next: nat, id: nat)
    requires PartiesInv(f, true, parties, next)
    requires forall k :: k in parties && k != id ==> !InCallback(parties[k]) && !Owner(parties[k])
    requires ValidTransition(f.latest, e) && !e.state.Reserved? && f.latest.Some? && !Terminal(f.latest.value.state)
    requires e.state.ReauthorizationRequired? && f.latest.value.state.ReauthorizationReserved? ==> f.reservedBy == Some(id)
    requires e.state.ReauthorizationReserved? ==> !f.latest.value.state.ReauthorizationReserved?
    ensures PartiesInv(f.(latest := Some(e), active := None), true, parties - {id}, next)
  {
    var g := f.(latest := Some(e), active := None);
    forall k | k in parties - {id}
      ensures PartyInv(g, k, parties[k])
    {
      AfterSettle(f, e, k, parties[k]);
    }
  }

  lemma OthersAfterReserve(f: Facts, e: Event, parties: map<nat, Party>, next: nat, id: nat)
    requires PartiesInv(f, true, parties, next)
    requires forall k :: k in parties ==> !InCallback(parties[k]) && !Owner(parties[k])
    requires ValidTransition(f.latest, e) && e.state.Reserved?
    requires f.latest.Some? ==> Terminal(f.latest.value.state)
    ensures PartiesInv(f.(latest := Some(e), active := Some(e.sequence)), true, parties - {id}, next)
  {
    var g := f.(latest := Some(e), active := Some(e.sequence));
    forall k | k in parties - {id}
      ensures PartyInv(g, k, parties[k])
    {
      AfterReserve(f, e, k, parties[k]);
    }
  }
}
