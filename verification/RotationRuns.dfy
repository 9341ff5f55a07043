/**
 Every interleaving of the three parties that use one rotation journal (the refresh coordinator,
 the reconciler and the reauthorizer), with failed appends, failed loads, crashes and restarts.
 A step is what one asynchronous call does between two awaits.
 */
module RotationRuns {
  import opened Wrappers
  import opened AppendLog
  import opened RotationEvents
  import opened RotationJournal
  import Replacement = RotationReplacement

  /** Where a call stands. The keys of `System.parties` name the calls of the running process. */
  datatype Party =
    | RefreshRead(snapshot: Option<Event>)
    | RefreshHas(snapshot: Option<Event>, obtained: int, usable: bool)
    | RefreshReserves(source: int, recorded: int)
    | RefreshReserved(event: Event)
    | RefreshCalled(event: Event)
    | RefreshCloses(event: Event, state: State, recorded: int, result: Option<int>)
    | ReconcileRead(expected: Event)
    | ReconcileHas(expected: Event, obtained: int)
    | Settles(sequence: int, state: State, recorded: int, result: Option<int>)
    | Replaces(blocked: Event, reservation: Event)
    | Persists(sequence: int, reservation: Event, recorded: int, token: int, stage: Replacement.Stage)
    | ReplacePersisted(reservation: Event, recorded: int, evidence: int)
    | Restores(sequence: int)
    | RestoreSettles(sequence: int, recorded: int)

  /** A sequence that a call closed, with the evidence it gave. */
  datatype Settlement = Settlement(sequence: int, source: int, evidence: int)

  /**
   `holder` is the call inside a replacement callback: it keeps the journal queue to itself. `commands` are
   the Keychain commands that were started and have not taken effect; they outlive the process.
   The other fields only record the run: remote refresh calls by credential, terminal events that were
   acknowledged, the replacement that made the latest reservation, those whose Keychain command was
   started, those whose command took effect, and those whose reservation was taken back.
   */
  datatype System = System(
    journal: Journal,
    keychain: Option<int>,
    parties: map<nat, Party>,
    holder: Option<nat>,
    next: nat,
    commands: map<nat, int>,
    refreshed: seq<int>,
    settled: seq<Settlement>,
    reservedBy: Option<nat>,
    touched: set<nat>,
    wrote: set<nat>,
    reverted: set<nat>)

  /** What came back from a remote refresh, its encoding and its Keychain write. */
  datatype Answer =
    | Rotated(obtainedAt: int)
    | LostAfterWrite(obtainedAt: int)
    | LostBeforeWrite
    | Refused

  datatype Action =
    | Crash
    | OtherKeychainWrite(content: Option<int>)
    | StartRefresh(io: Io)
    | ReadCredential(id: nat, usable: bool)
    | DecideRefresh(id: nat, now: int)
    | RunReserve(id: nat, io: Io)
    | CallRemote(id: nat)
    | RemoteAnswers(id: nat, answer: Answer, clock: Option<int>)
    | CloseRefresh(id: nat, io: Io)
    | StartReconcile(io: Io)
    | ReadEvidence(id: nat, expired: bool)
    | CheckReconcile(id: nat, now: int, io: Io)
    | RunSettle(id: nat, io: Io)
    | StartReplace(now: int, io: Io)
    | EnterPersist(id: nat, clock: Option<int>, token: int, refusal: Option<Replacement.Thrown>, aborts: Replacement.Aborts)
    | StageEnds(id: nat)
    | StageFails(id: nat, error: Replacement.Thrown, aborts: Replacement.Aborts)
    | WriteLands(id: nat)
    | FinishReplace(id: nat, append: AppendIo)
    | InspectRestore(id: nat, now: int, io: Io)
    | RunRestore(id: nat, io: Io)

  predicate OfRefresh(a: Action)
  {
    || a.StartRefresh? || a.ReadCredential? || a.DecideRefresh? || a.RunReserve?
    || a.CallRemote? || a.RemoteAnswers? || a.CloseRefresh?
  }

  predicate OfReconcile(a: Action)
  {
    a.StartReconcile? || a.ReadEvidence? || a.CheckReconcile? || a.RunSettle?
  }

  /** The steps of the reauthorizer in the journal. */
  predicate OfReplace(a: Action)
  {
    a.StartReplace? || a.FinishReplace? || a.InspectRestore? || a.RunRestore?
  }

  /** The steps inside a replacement callback, and what they leave behind. */
  predicate OfPersist(a: Action)
  {
    a.EnterPersist? || a.StageEnds? || a.StageFails? || a.WriteLands?
  }

  function Initial(disk: Bytes, keychain: Option<int>): System
  {
    System(Journal(disk, false, None, None), keychain, map[], None, 0, map[], [], [], None, {}, {}, {})
  }

  function Ended(s: System, id: nat): System
  {
    s.(parties := s.parties - {id})
  }

  function Goes(s: System, id: nat, p: Party): System
  {
    s.(parties := s.parties[id := p])
  }

  /** The record of terminal events after one more settlement. */
  function Recorded(settled: seq<Settlement>, r: Result<Event, Error>): seq<Settlement>
  {
    if r.Ok? && r.value.result.Some?
    then settled + [Settlement(r.value.sequence, r.value.source, r.value.result.value)]
    else settled
  }

  function Pending(state: State): bool
  {
    state.Reserved? || state.Uncertain? || state.ReauthorizationReserved?
  }

  /** The synchronous part of the coordinator between the credential and its next journal call. */
  function Decision(active: Option<int>, snapshot: Option<Event>, obtained: int, usable: bool, now: int)
    : Option<Party>
  {
    if snapshot.Some? && !Terminal(snapshot.value.state) then
      var latest := snapshot.value;
      if latest.state.Reserved? && active == Some(latest.sequence) then None
      else if obtained > latest.source then
        var reauthorized := latest.state.ReauthorizationRequired? || latest.state.ReauthorizationReserved?;
        Some(Settles(latest.sequence, if reauthorized then Reauthorized else Completed, now, Some(obtained)))
      else if latest.state.Reserved? then Some(Settles(latest.sequence, Uncertain, now, None))
      else None
    else if snapshot.Some? && snapshot.value.result.Some? && obtained < snapshot.value.result.value then None
    else if usable then None
    else Some(RefreshReserves(obtained, now))
  }

  /** How the three kinds of remote outcome are closed. */
  function Closing(event: Event, answer: Answer, now: int): Party
  {
    match answer
    case Rotated(obtainedAt) =>
      if obtainedAt > event.source then RefreshCloses(event, Completed, now, Some(obtainedAt))
      else RefreshCloses(event, Uncertain, now, None)
    case LostAfterWrite(_) => RefreshCloses(event, Uncertain, now, None)
    case LostBeforeWrite => RefreshCloses(event, Uncertain, now, None)
    case Refused => RefreshCloses(event, ReauthorizationRequired, now, None)
  }

  /** The clock is read before the settlement is asked for; without a usable instant the call throws. */
  function Answered(s: System, id: nat, event: Event, answer: Answer, clock: Option<int>): System
  {
    if clock.None? then Ended(s, id) else Goes(s, id, Closing(event, answer, clock.value))
  }

  function KeychainAfter(event: Event, answer: Answer, keychain: Option<int>): Option<int>
  {
    if (answer.Rotated? || answer.LostAfterWrite?) && answer.obtainedAt > event.source
    then Some(answer.obtainedAt)
    else keychain
  }

  function WithJournal(s: System, j: Journal): System
  {
    s.(journal := j)
  }

  function Settled(s: System, j: Journal, r: Result<Event, Error>): System
  {
    s.(journal := j, settled := Recorded(s.settled, r))
  }

  function StepRefresh(c: Format, s: System, a: Action): System
    requires OfRefresh(a)
  {
    match a
    case StartRefresh(io) =>
      if s.holder.Some? then s
      else
        var (j, r) := Inspect(c, s.journal, io);
        if r.Err? then WithJournal(s, j)
        else Goes(WithJournal(s, j), s.next, RefreshRead(r.value)).(next := s.next + 1)
    case ReadCredential(id, usable) =>
      if id in s.parties && s.parties[id].RefreshRead? then
        if s.keychain.None? then Ended(s, id)
        else Goes(s, id, RefreshHas(s.parties[id].snapshot, s.keychain.value, usable))
      else s
    case DecideRefresh(id, now) =>
      if id in s.parties && s.parties[id].RefreshHas? then
        var p := s.parties[id];
        var d := Decision(s.journal.active, p.snapshot, p.obtained, p.usable, now);
        if d.None? then Ended(s, id) else Goes(s, id, d.value)
      else s
    case RunReserve(id, io) =>
      if id in s.parties && s.parties[id].RefreshReserves? && s.holder.None? then
        var (j, r) := Reserve(c, s.journal, s.parties[id].source, s.parties[id].recorded, io);
        if r.Err? then Ended(WithJournal(s, j), id)
        else Goes(WithJournal(s, j), id, RefreshReserved(r.value))
      else s
    case CallRemote(id) =>
      if id in s.parties && s.parties[id].RefreshReserved? then
        var e := s.parties[id].event;
        Goes(s, id, RefreshCalled(e)).(refreshed := s.refreshed + [e.source])
      else s
    case RemoteAnswers(id, answer, clock) =>
      if id in s.parties && s.parties[id].RefreshCalled? then
        var e := s.parties[id].event;
        Answered(s, id, e, answer, clock).(keychain := KeychainAfter(e, answer, s.keychain))
      else s
    case CloseRefresh(id, io) =>
      if id in s.parties && s.parties[id].RefreshCloses? && s.holder.None? then
        var p := s.parties[id];
        var (j, r) := Settle(c, s.journal, p.event.sequence, p.state, p.recorded, p.result, io);
        Ended(Settled(s, j, r), id)
      else s
  }

  function StepReconcile(c: Format, s: System, a: Action): System
    requires OfReconcile(a)
  {
    match a
    case StartReconcile(io) =>
      if s.holder.Some? then s
      else
        var (j, r) := Inspect(c, s.journal, io);
        if r.Err? || r.value.None? || !Pending(r.value.value.state)
          || (r.value.value.state.Reserved? && j.active == Some(r.value.value.sequence))
        then WithJournal(s, j)
        else Goes(WithJournal(s, j), s.next, ReconcileRead(r.value.value)).(next := s.next + 1)
    case ReadEvidence(id, expired) =>
      if id in s.parties && s.parties[id].ReconcileRead? then
        var expected := s.parties[id].expected;
        if s.keychain.None? || expired || s.keychain.value <= expected.source then Ended(s, id)
        else Goes(s, id, ReconcileHas(expected, s.keychain.value))
      else s
    case CheckReconcile(id, now, io) =>
      if id in s.parties && s.parties[id].ReconcileHas? && s.holder.None? then
        var p := s.parties[id];
        var (j, r) := Inspect(c, s.journal, io);
        if r.Err? || r.value.None?
          || r.value.value.sequence != p.expected.sequence
          || r.value.value.state != p.expected.state
          || r.value.value.source != p.expected.source
        then Ended(WithJournal(s, j), id)
        else
          var state := if r.value.value.state.ReauthorizationReserved? then Reauthorized else Completed;
          Goes(WithJournal(s, j), id, Settles(r.value.value.sequence, state, now, Some(p.obtained)))
      else s
    case RunSettle(id, io) =>
      if id in s.parties && s.parties[id].Settles? && s.holder.None? then
        var p := s.parties[id];
        var (j, r) := Settle(c, s.journal, p.sequence, p.state, p.recorded, p.result, io);
        Ended(Settled(s, j, r), id)
      else s
  }

  function Released(s: System): System
  {
    s.(holder := None)
  }

  /** The callback throws: the queue is free again, and the call restores the reservation or ends. */
  function Unwinds(s: System, id: nat, sequence: int, d: Replacement.Disposition): System
  {
    if d.Restore? then Goes(Released(s), id, Restores(sequence)) else Ended(Released(s), id)
  }

  /** The checks before the first await of the callback: its clock, the inputs, and the chronology window. */
  function Refusal(source: int, clock: Option<int>, token: int, refusal: Option<Replacement.Thrown>, a: Replacement.Aborts)
    : Option<Replacement.Thrown>
  {
    if clock.None? || clock.value < source then Some(Replacement.ReauthorizationFailed)
    else if refusal.Some? && Replacement.Raises(Replacement.Checking, refusal.value, a) then refusal
    else if token <= source || token > clock.value then Some(Replacement.PersistenceFailed(Replacement.RequestInvalid))
    else None
  }

  /** The next stage of persistWithResult; the Keychain command starts with the last one. */
  function NextStage(stage: Replacement.Stage): Replacement.Stage
  {
    match stage
    case Checking => Replacement.Verifying
    case Verifying => Replacement.Encoding
    case Encoding => Replacement.Replacing
    case Replacing => Replacement.Writing
    case Writing => Replacement.Writing
  }

  function Advanced(s: System, id: nat, p: Party): System
    requires p.Persists?
  {
    var t := Goes(s, id, p.(stage := NextStage(p.stage)));
    if p.stage.Replacing?
    then t.(touched := s.touched + {id}, commands := s.commands[id := p.token])
    else t
  }

  function StepReplace(c: Format, s: System, a: Action): System
    requires OfReplace(a)
  {
    match a
    case StartReplace(now, io) =>
      if s.holder.Some? then s
      else
        var (j, r) := BeginReplacement(c, s.journal, now, io);
        if r.Err? then WithJournal(s, j)
        else
          Goes(WithJournal(s, j), s.next, Replaces(r.value.0, r.value.1))
          .(next := s.next + 1, holder := Some(s.next), reservedBy := Some(s.next))
    case FinishReplace(id, append) =>
      if id in s.parties && s.parties[id].ReplacePersisted? then
        var p := s.parties[id];
        var (j, r) := FinishReplacement(c, s.journal, p.reservation, p.recorded, p.evidence, append);
        Ended(Released(Settled(s, j, r)), id)
      else s
    case InspectRestore(id, now, io) =>
      if id in s.parties && s.parties[id].Restores? && s.holder.None? then
        var sequence := s.parties[id].sequence;
        var (j, r) := Inspect(c, s.journal, io);
        if r.Ok? && r.value.Some? && r.value.value.sequence == sequence
          && r.value.value.state.ReauthorizationReserved?
        then Goes(WithJournal(s, j), id, RestoreSettles(sequence, now))
        else Ended(WithJournal(s, j), id)
      else s
    case RunRestore(id, io) =>
      if id in s.parties && s.parties[id].RestoreSettles? && s.holder.None? then
        var p := s.parties[id];
        var (j, _) := Settle(c, s.journal, p.sequence, ReauthorizationRequired, p.recorded, None, io);
        Ended(WithJournal(s, j), id)
      else s
  }

  /** Inside the replacement callback, where nothing touches the journal. */
  function StepPersist(s: System, a: Action): System
    requires OfPersist(a)
  {
    match a
    case EnterPersist(id, clock, token, refusal, aborts) =>
      if id in s.parties && s.parties[id].Replaces? && Replacement.Monotone(aborts) then
        var p := s.parties[id];
        var e := Refusal(p.blocked.source, clock, token, refusal, aborts);
        if e.Some? then Unwinds(s, id, p.blocked.sequence, Replacement.Caught(e.value, false, aborts.last, true))
        else Goes(s, id, Persists(p.blocked.sequence, p.reservation, clock.value, token, Replacement.Verifying))
      else s
    case StageEnds(id) =>
      if id in s.parties && s.parties[id].Persists? then
        var p := s.parties[id];
        if !p.stage.Writing? then Advanced(s, id, p)
        else if id in s.wrote then Goes(s, id, ReplacePersisted(p.reservation, p.recorded, p.token))
        else s
      else s
    case StageFails(id, error, aborts) =>
      if id in s.parties && s.parties[id].Persists? && Replacement.Monotone(aborts)
        && Replacement.Raises(s.parties[id].stage, error, aborts) then
        Unwinds(s, id, s.parties[id].sequence, Replacement.Outcome(s.parties[id].stage, error, aborts))
      else s
    case WriteLands(id) =>
      if id in s.commands then
        s.(keychain := Some(s.commands[id]), commands := s.commands - {id}, wrote := s.wrote + {id})
      else s
  }

  /** A crash ends every call of the process and forgets what the journal held in memory. */
  function Crashed(s: System): System
  {
    s.(journal := Journal(s.journal.disk, false, None, None), parties := map[], holder := None)
  }

  function Act(c: Format, s: System, a: Action): System
  {
    if OfRefresh(a) then StepRefresh(c, s, a)
    else if OfReconcile(a) then StepReconcile(c, s, a)
    else if OfReplace(a) then StepReplace(c, s, a)
    else if OfPersist(a) then StepPersist(s, a)
    else if a.OtherKeychainWrite? then s.(keychain := a.content)
    else Crashed(s)
  }

  predicate Back(before: Option<Event>, after: Option<Event>)
  {
    && before.Some? && before.value.state.ReauthorizationReserved?
    && after.Some? && after.value.state.ReauthorizationRequired?
  }

  /** Whoever did it: in memory or for a restart, the last event went from reserved back to required. */
  predicate TakenBack(c: Format, before: Journal, after: Journal)
  {
    var was, now := Reload(c, before.disk), Reload(c, after.disk);
    Back(before.latest, after.latest) || (was.Ok? && now.Ok? && Back(was.value, now.value))
  }

  function Step(c: Format, s: System, a: Action): System
  {
    var t := Act(c, s, a);
    if TakenBack(c, s.journal, t.journal) && s.reservedBy.Some?
    then t.(reverted := t.reverted + {s.reservedBy.value})
    else t
  }

  function Run(c: Format, s: System, actions: seq<Action>): System
  {
    if actions == [] then s
    else Step(c, Run(c, s, actions[..|actions| - 1]), actions[|actions| - 1])
  }
}
