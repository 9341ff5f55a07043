/**
 The supervisor that hands the Feishu runtime lease back and forth between calls that take it for
 themselves (base calls) and one shared owner that polls. Its asynchronous methods are split at
 their awaits; a step is what runs between two of them.
 */
module RuntimeSupervisor {
  import opened Wrappers
  import Tails = PromiseTail
  import Owners = RuntimeOwner

  datatype Operation = Refreshes | Quiesces | Closes

  datatype AfterStop = Disable | Replace(key: string) | Restart | Stops

  datatype AfterOwner = Disabled | Replaced(key: string) | DatabaseCloses

  datatype AfterBase = Acquires(key: string) | OwnerCloses

  /** Where the running operation waits. `Ended` is the moment before its promise settles. */
  datatype Phase =
    | Reading
    | StoppingPolling(run: Option<nat>, afterStop: AfterStop)
    | ClosingOwner(owner: Option<nat>, afterOwner: AfterOwner)
    | WaitingBase(afterBase: AfterBase)
    | Acquiring(key: string)
    | Ended

  datatype PollingRun = PollingRun(owner: nat, aborted: bool, reported: bool)

  datatype Recovery = Reauthorize | GrantScope | RepairConfiguration | RestartHost

  datatype Status = NotConfigured | Starting | Running | Stopped | Attention(recovery: Recovery)

  datatype Call = Waiting(key: string, wellFormed: bool) | InBase | InOwner(owner: nat) | Over

  datatype Quiescence = NotAsked | Asked | Done

  datatype Closure = Open | AwaitsQuiescence | Queued

  /**
   `owners` keeps every owner ever acquired and `calls` every call ever made; `runs` holds the
   polling runs whose completion has not settled. `begun` records the calls whose use of the lease
   has started.
   */
  datatype Supervisor = Supervisor(
    tail: Tails.Tail<Operation>,
    phase: Option<Phase>,
    owner: Option<nat>,
    ownerKey: Option<string>,
    owners: map<nat, Owners.Owner>,
    polling: Option<nat>,
    runs: map<nat, PollingRun>,
    baseOperations: int,
    baseDrained: Option<bool>,
    quiescing: bool,
    quiesced: Quiescence,
    closing: Closure,
    status: Status,
    databaseClosed: bool,
    calls: map<nat, Call>,
    nextCall: nat,
    nextOwner: nat,
    nextRun: nat,
    begun: set<nat>)

  function Initial(): Supervisor
  {
    Supervisor(Tails.Resolved(), None, None, None, map[], None, map[], 0, None, false, NotAsked, Open,
               NotConfigured, false, map[], 0, 0, 0, {})
  }

  datatype Configuration = ReadFails | NoUser | User(key: string)

  datatype Action =
    | CallWithLease(key: string, wellFormed: bool)
    | CallRefresh
    | CallQuiesce
    | CallClose
    | CloseGoesOn
    | RunJob(aborted: bool, held: bool)
    | BaseReturns(id: nat)
    | OwnerReturns(id: nat)
    | ConfigurationRead(answer: Configuration)
    | PollingEnds(run: nat, recovery: Recovery)
    | PollingSettles(run: nat)
    | OwnerDrains(owner: nat)
    | OwnerReleases(owner: nat, clean: bool)
    | Resumes(acquired: bool, built: bool)
    | OperationSettles

  function Enqueue(s: Supervisor, operation: Operation): Supervisor
    requires s.tail.promises != []
  {
    s.(tail := Tails.Enqueue(s.tail, operation))
  }

  function Await(s: Supervisor, key: string, wellFormed: bool): Supervisor
    requires s.tail.promises != []
  {
    s.(tail := Tails.Wait(s.tail, s.nextCall),
       calls := s.calls[s.nextCall := Waiting(key, wellFormed)],
       nextCall := s.nextCall + 1)
  }

  function Quiesce(s: Supervisor): Supervisor
    requires s.tail.promises != []
  {
    var t := s.(quiescing := true);
    if s.quiesced.NotAsked? then Enqueue(t.(quiesced := Asked), Quiesces) else t
  }

  /** What the running operation leaves alone. */
  predicate LeavesCalls(s: Supervisor, t: Supervisor)
  {
    && t.tail == s.tail && t.calls == s.calls && t.begun == s.begun && t.nextCall == s.nextCall
    && t.quiescing == s.quiescing && t.closing == s.closing && (s.quiesced.Done? ==> t.quiesced.Done?)
  }

  /** The operation returned. */
  function Finish(s: Supervisor): (r: Supervisor)
    ensures LeavesCalls(s, r) && r.phase.Some? && r.nextOwner == s.nextOwner
  {
    s.(phase := Some(Ended))
  }

  /** A refresh threw. */
  function Fail(s: Supervisor): (r: Supervisor)
    ensures LeavesCalls(s, r) && r.phase.Some? && r.nextOwner == s.nextOwner
  {
    s.(phase := Some(Ended), status := if s.quiescing then s.status else Attention(RestartHost))
  }

  function StopPolling(s: Supervisor, after: AfterStop): (r: Supervisor)
    ensures LeavesCalls(s, r) && r.phase.Some? && r.nextOwner == s.nextOwner
  {
    var t := s.(phase := Some(StoppingPolling(s.polling, after)));
    if s.polling.Some? && s.polling.value in s.runs then
      t.(runs := s.runs[s.polling.value := s.runs[s.polling.value].(aborted := true)])
    else t
  }

  function CloseOwner(s: Supervisor, after: AfterOwner): (r: Supervisor)
    ensures LeavesCalls(s, r) && r.phase.Some? && r.nextOwner == s.nextOwner
  {
    var t := s.(owner := None, ownerKey := None, phase := Some(ClosingOwner(s.owner, after)));
    if s.owner.Some? && s.owner.value in s.owners then
      t.(owners := s.owners[s.owner.value := Owners.Close(s.owners[s.owner.value])])
    else t
  }

  function WaitForBase(s: Supervisor, after: AfterBase): (r: Supervisor)
    ensures LeavesCalls(s, r) && r.phase.Some? && r.nextOwner == s.nextOwner
  {
    var t := s.(phase := Some(WaitingBase(after)));
    if s.baseOperations == 0 || s.baseDrained.Some? then t else t.(baseDrained := Some(false))
  }

  function StartPolling(s: Supervisor, built: bool): (r: Supervisor)
    ensures LeavesCalls(s, r) && r.phase.Some? && r.nextOwner == s.nextOwner
  {
    if s.owner.None? || !built then Fail(s)
    else
      s.(runs := s.runs[s.nextRun := PollingRun(s.owner.value, false, false)],
         polling := Some(s.nextRun),
         nextRun := s.nextRun + 1,
         status := Running,
         phase := Some(Ended))
  }

  function StartOperation(s: Supervisor, operation: Operation): (r: Supervisor)
    ensures LeavesCalls(s, r) && r.phase.Some? && r.nextOwner == s.nextOwner
  {
    match operation
    case Refreshes => if s.quiescing then Fail(s) else s.(status := Starting, phase := Some(Reading))
    case Quiesces => StopPolling(s, Stops)
    case Closes => WaitForBase(s, OwnerCloses)
  }

  function ContinueCall(s: Supervisor, id: nat, aborted: bool, held: bool): (r: Supervisor)
    ensures r.tail == s.tail && r.phase == s.phase && r.quiescing == s.quiescing && r.quiesced == s.quiesced
    ensures r.nextOwner == s.nextOwner && (s.quiescing ==> r.begun == s.begun)
  {
    if id !in s.calls || !s.calls[id].Waiting? then s
    else if s.quiescing then s.(calls := s.calls[id := Over])
    else if s.owner.Some? && s.owner.value in s.owners then
      var o := s.owner.value;
      var request := Owners.Request(s.calls[id].key, s.calls[id].wellFormed, aborted, held);
      if Owners.Enter(s.owners[o].lease, request).Err? then s.(calls := s.calls[id := Over])
      else
        s.(owners := s.owners[o := Owners.Admit(s.owners[o], id, request)],
           calls := s.calls[id := InOwner(o)],
           begun := s.begun + {id})
    else
      s.(baseOperations := s.baseOperations + 1,
         calls := s.calls[id := InBase],
         begun := s.begun + {id})
  }

  function TakeJob(s: Supervisor, aborted: bool, held: bool): (r: Supervisor)
    ensures r.nextOwner == s.nextOwner && r.quiescing == s.quiescing
    ensures s.quiescing ==> r.begun == s.begun
    ensures s.quiesced.Done? ==> r.quiesced.Done?
  {
    if s.tail.jobs == [] then s
    else
      var t := s.(tail := Tails.Take(s.tail));
      match s.tail.jobs[0]
      case Continues(id) => ContinueCall(t, id, aborted, held)
      case Starts(_, operation) => StartOperation(t, operation)
  }

  function ReturnFromBase(s: Supervisor, id: nat): Supervisor
  {
    if id !in s.calls || !s.calls[id].InBase? then s
    else
      var left := s.baseOperations - 1;
      s.(calls := s.calls[id := Over],
         baseOperations := left,
         baseDrained := if left == 0 && s.baseDrained.Some? then Some(true) else s.baseDrained)
  }

  function ReturnFromOwner(s: Supervisor, id: nat): Supervisor
  {
    if id !in s.calls || !s.calls[id].InOwner? || s.calls[id].owner !in s.owners then s
    else
      var o := s.calls[id].owner;
      s.(calls := s.calls[id := Over], owners := s.owners[o := Owners.Return(s.owners[o], id)])
  }

  function ReadConfiguration(s: Supervisor, answer: Configuration): (r: Supervisor)
    ensures LeavesCalls(s, r) && (r.phase.Some? <==> s.phase.Some?) && r.nextOwner == s.nextOwner
  {
    if s.phase != Some(Reading) then s
    else
      match answer
      case ReadFails => Fail(s)
      case NoUser => StopPolling(s, Disable)
      case User(key) => StopPolling(s, if s.ownerKey == Some(key) then Restart else Replace(key))
  }

  function EndPolling(s: Supervisor, run: nat, recovery: Recovery): Supervisor
  {
    if run !in s.runs || s.runs[run].reported then s
    else
      s.(runs := s.runs[run := s.runs[run].(reported := true)],
         status := if !s.runs[run].aborted && s.polling == Some(run) then Attention(recovery) else s.status)
  }

  function SettlePolling(s: Supervisor, run: nat): Supervisor
  {
    if run !in s.runs || !s.runs[run].reported then s
    else s.(runs := s.runs - {run}, polling := if s.polling == Some(run) then None else s.polling)
  }

  function MoveOwner(s: Supervisor, o: nat, m: Owners.Move): Supervisor
  {
    if o !in s.owners then s else s.(owners := s.owners[o := Owners.Step(s.owners[o], m)])
  }

  /** `stopPolling` has returned. */
  function AfterPolling(s: Supervisor, run: Option<nat>, after: AfterStop, built: bool): (r: Supervisor)
    ensures LeavesCalls(s, r) && r.phase.Some? && r.nextOwner == s.nextOwner
  {
    var t := if run.Some? && s.polling == run then s.(polling := None) else s;
    match after
    case Disable => CloseOwner(t, Disabled)
    case Replace(key) => CloseOwner(t, Replaced(key))
    case Restart => StartPolling(t, built)
    case Stops => Finish(t.(status := Stopped, quiesced := Done))
  }

  /** The owner's `close` has returned, or has thrown (`!clean`). */
  function AfterClosing(s: Supervisor, after: AfterOwner, clean: bool): (r: Supervisor)
    ensures LeavesCalls(s, r) && r.phase.Some? && r.nextOwner == s.nextOwner
  {
    match after
    case DatabaseCloses => Finish(s.(databaseClosed := true))
    case Disabled => if clean then Finish(s.(status := NotConfigured)) else Fail(s)
    case Replaced(key) => if clean then WaitForBase(s, Acquires(key)) else Fail(s)
  }

  function AfterDraining(s: Supervisor, after: AfterBase): (r: Supervisor)
    ensures LeavesCalls(s, r) && r.phase.Some? && r.nextOwner == s.nextOwner
  {
    var t := s.(baseDrained := None);
    match after
    case Acquires(key) => if s.quiescing then Fail(t) else t.(phase := Some(Acquiring(key)))
    case OwnerCloses => CloseOwner(t, DatabaseCloses)
  }

  function AfterAcquiring(s: Supervisor, key: string, acquired: bool, built: bool): (r: Supervisor)
    ensures LeavesCalls(s, r) && r.phase.Some?
  {
    if !acquired then Fail(s)
    else
      StartPolling(s.(owners := s.owners[s.nextOwner := Owners.Acquired(key)],
                      owner := Some(s.nextOwner),
                      ownerKey := Some(key),
                      nextOwner := s.nextOwner + 1), built)
  }

  /** The running operation goes on if what it awaits is there. */
  function Resume(s: Supervisor, acquired: bool, built: bool): (r: Supervisor)
    ensures LeavesCalls(s, r) && (r.phase.Some? <==> s.phase.Some?)
    ensures r.nextOwner == s.nextOwner || (s.phase.Some? && s.phase.value.Acquiring?)
  {
    if s.phase.None? then s
    else
      match s.phase.value
      case Reading => s
      case StoppingPolling(run, after) =>
        if run.Some? && run.value in s.runs then s else AfterPolling(s, run, after, built)
      case ClosingOwner(o, after) =>
        if o.None? || o.value !in s.owners then AfterClosing(s, after, true)
        else if s.owners[o.value].stage.Closed? then AfterClosing(s, after, s.owners[o.value].stage.released)
        else s
      case WaitingBase(after) =>
        if s.baseDrained == Some(false) then s else AfterDraining(s, after)
      case Acquiring(key) => AfterAcquiring(s, key, acquired, built)
      case Ended => s
  }

  function SettleOperation(s: Supervisor): Supervisor
  {
    var n := Tails.Started(s.tail.begun);
    if s.phase != Some(Ended) || n >= |s.tail.promises| then s
    else s.(tail := Tails.Settle(s.tail, n), phase := None)
  }

  function Step(s: Supervisor, a: Action): Supervisor
    requires s.tail.promises != []
  {
    match a
    case CallWithLease(key, wellFormed) => Await(s, key, wellFormed)
    case CallRefresh => if s.quiescing then s else Enqueue(s, Refreshes)
    case CallQuiesce => Quiesce(s)
    case CallClose => if s.closing.Open? then Quiesce(s.(closing := AwaitsQuiescence)) else s
    case CloseGoesOn =>
      if s.closing.AwaitsQuiescence? && s.quiesced.Done? then Enqueue(s.(closing := Queued), Closes) else s
    case RunJob(aborted, held) => TakeJob(s, aborted, held)
    case BaseReturns(id) => ReturnFromBase(s, id)
    case OwnerReturns(id) => ReturnFromOwner(s, id)
    case ConfigurationRead(answer) => ReadConfiguration(s, answer)
    case PollingEnds(run, recovery) => EndPolling(s, run, recovery)
    case PollingSettles(run) => SettlePolling(s, run)
    case OwnerDrains(o) => MoveOwner(s, o, Owners.Drains)
    case OwnerReleases(o, clean) => MoveOwner(s, o, Owners.Releases(clean))
    case Resumes(acquired, built) => Resume(s, acquired, built)
    case OperationSettles => SettleOperation(s)
  }
}
