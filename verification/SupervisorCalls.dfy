/** What becomes of each call for the lease, of an asked quiescence, and of polling runs and refreshes that fail. */
module SupervisorCalls {
  import opened Wrappers
  import Tails = PromiseTail
  import Owners = RuntimeOwner
  import opened RuntimeSupervisor
  import opened SupervisorSafety
  import opened SupervisorLiveness
  import opened SupervisorProgress

  /** The turn of this call has come. */
  predicate Turn(s: Supervisor, id: nat)
  {
    s.tail.jobs != [] && s.tail.jobs[0] == Tails.Continues(id) && id in s.calls && s.calls[id].Waiting?
  }

  /** What the owner asks of a call: a good request for its own configuration, not aborted, with the lease held. */
  predicate Admissible(s: Supervisor, call: Call, aborted: bool, held: bool)
    requires call.Waiting?
  {
    call.wellFormed && !aborted && held && s.ownerKey == Some(call.key)
  }

  /**
   What its turn brings a call: a refusal after quiesce was asked for, the lease for itself if there is no owner, a
   place inside the owner exactly if it is admissible.
   */
  function Outcome(s: Supervisor, id: nat, aborted: bool, held: bool): Call
    requires Turn(s, id)
  {
    if s.quiescing then Over
    else if s.owner.None? then InBase
    else if Admissible(s, s.calls[id], aborted, held) then InOwner(s.owner.value)
    else Over
  }

  lemma TurnContinues(s: Supervisor, id: nat, aborted: bool, held: bool)
    requires s.tail.promises != [] && Turn(s, id)
    ensures Step(s, RunJob(aborted, held)) == ContinueCall(s.(tail := Tails.Take(s.tail)), id, aborted, held)
  {
  }

  /** The callbacks of the owners change by the call that was let in, and by nothing else. */
  predicate OnlyEnters(s: Supervisor, t: Supervisor, id: nat, outcome: Call)
  {
    && t.owners.Keys == s.owners.Keys
    && (forall o :: o in s.owners && outcome != InOwner(o) ==> t.owners[o] == s.owners[o])
    && (outcome.InOwner? ==>
          outcome.owner in s.owners && t.owners[outcome.owner].callbacks == s.owners[outcome.owner].callbacks + {id})
  }

  lemma ContinuesTo(s: Supervisor, id: nat, aborted: bool, held: bool)
    requires OwnerInv(s) && Turn(s, id)
    ensures var t := ContinueCall(s, id, aborted, held);
            var outcome := Outcome(s, id, aborted, held);
            && t.calls == s.calls[id := outcome]
            && t.begun == (if outcome.Over? then s.begun else s.begun + {id})
            && t.baseOperations == s.baseOperations + (if outcome.InBase? then 1 else 0)
            && t == s.(calls := t.calls, begun := t.begun, baseOperations := t.baseOperations, owners := t.owners)
  {
    if s.owner.Some? {
      assert Owners.Inv(s.owners[s.owner.value]);
    }
  }

  lemma ContinuesInside(s: Supervisor, id: nat, aborted: bool, held: bool)
    requires OwnerInv(s) && CallInv(s) && Turn(s, id)
    ensures OnlyEnters(s, ContinueCall(s, id, aborted, held), id, Outcome(s, id, aborted, held))
  {
    if s.owner.Some? {
      assert Owners.Inv(s.owners[s.owner.value]);
      assert id !in s.owners[s.owner.value].callbacks;
    }
  }

  /** The turn of a call, in every reachable state: it gets its outcome and is counted, and nothing else happens. */
  lemma CallIsServed(actions: seq<Action>, s: Supervisor, id: nat, aborted: bool, held: bool)
    requires Reaches(Initial(), actions, s) && s.tail.promises != [] && Turn(s, id)
    ensures var t := Step(s, RunJob(aborted, held));
            var outcome := Outcome(s, id, aborted, held);
            && t.calls == s.calls[id := outcome]
            && t.begun == (if outcome.Over? then s.begun else s.begun + {id})
            && t.baseOperations == s.baseOperations + (if outcome.InBase? then 1 else 0)
            && OnlyEnters(s, t, id, outcome)
            && t.phase == s.phase && t.status == s.status && t.owner == s.owner && t.polling == s.polling
  {
    Reachable(actions, s);
    TurnContinues(s, id, aborted, held);
    ServedFrom(s, s.(tail := Tails.Take(s.tail)), id, aborted, held);
  }

  lemma ServedFrom(s: Supervisor, u: Supervisor, id: nat, aborted: bool, held: bool)
    requires OwnerInv(s) && CallInv(s) && Turn(s, id) && u == s.(tail := u.tail)
    ensures var t := ContinueCall(u, id, aborted, held);
            var outcome := Outcome(s, id, aborted, held);
            && t.calls == s.calls[id := outcome]
            && t.begun == (if outcome.Over? then s.begun else s.begun + {id})
            && t.baseOperations == s.baseOperations + (if outcome.InBase? then 1 else 0)
            && OnlyEnters(s, t, id, outcome)
            && t.phase == s.phase && t.status == s.status && t.owner == s.owner && t.polling == s.polling
  {
    ContinuesTo(s, id, aborted, held);
    ContinuesInside(s, id, aborted, held);
    assert ContinueCall(u, id, aborted, held) == ContinueCall(s, id, aborted, held).(tail := u.tail);
  }

  /** A call that was let in gives back what it used, once: the count of base calls, or its place in the owner. */
  lemma CallReturns(actions: seq<Action>, s: Supervisor, id: nat)
    requires Reaches(Initial(), actions, s) && s.tail.promises != [] && id in s.calls
    ensures s.calls[id].InBase? ==>
              var t := Step(s, BaseReturns(id));
              t.calls == s.calls[id := Over] && t.baseOperations == s.baseOperations - 1 && t.baseOperations >= 0
    ensures s.calls[id].InOwner? ==>
              var t := Step(s, OwnerReturns(id));
              && t.calls == s.calls[id := Over] && s.calls[id].owner in t.owners
              && t.owners[s.calls[id].owner].callbacks == s.owners[s.calls[id].owner].callbacks - {id}
  {
    Reachable(actions, s);
    if s.calls[id].InBase? {
      assert id in BaseCalls(s);
    }
  }

  // No call is forgotten

  predicate WaitsAt(tail: Tails.Tail<Operation>, i: int, id: nat)
  {
    |tail.begun| <= i < |tail.arrived| && tail.arrived[i] == Tails.Continues(id)
  }

  ghost predicate InLine(tail: Tails.Tail<Operation>, id: nat)
  {
    exists i :: WaitsAt(tail, i, id)
  }

  ghost predicate AllInLine(s: Supervisor)
  {
    forall id :: id in s.calls && s.calls[id].Waiting? ==> InLine(s.tail, id)
  }

  lemma InLineStays(tail: Tails.Tail<Operation>, after: Tails.Tail<Operation>, id: nat)
    requires InLine(tail, id) && after.begun == tail.begun && tail.arrived <= after.arrived
    ensures InLine(after, id)
  {
    var i :| WaitsAt(tail, i, id);
    assert WaitsAt(after, i, id);
  }

  /** A longer line, and no call that waits but did not before. */
  lemma LongerKeeps(s: Supervisor, t: Supervisor)
    requires AllInLine(s) && t.tail.begun == s.tail.begun && s.tail.arrived <= t.tail.arrived
    requires forall id :: id in t.calls && t.calls[id].Waiting? ==> (id in s.calls && s.calls[id].Waiting?) || InLine(t.tail, id)
    ensures AllInLine(t)
  {
    forall id | id in t.calls && t.calls[id].Waiting?
      ensures InLine(t.tail, id)
    {
      if id in s.calls && s.calls[id].Waiting? {
        InLineStays(s.tail, t.tail, id);
      }
    }
  }

  predicate Lengthens(s: Supervisor, t: Supervisor)
  {
    t.tail.begun == s.tail.begun && s.tail.arrived <= t.tail.arrived && t.calls == s.calls
  }

  lemma EnqueueLengthens(s: Supervisor, operation: Operation)
    requires LineInv(s)
    ensures Lengthens(s, Enqueue(s, operation))
  {
    LineIsLong(s);
    EnqueuedLine(s.tail, operation);
  }

  lemma QuiesceLengthens(s: Supervisor)
    requires LineInv(s)
    ensures Lengthens(s, Quiesce(s))
  {
    if s.quiesced.NotAsked? {
      EnqueueLengthens(s.(quiescing := true, quiesced := Asked), Quiesces);
    }
  }

  lemma RequestLengthens(s: Supervisor, a: Action)
    requires LineInv(s) && IsRequest(a) && !a.CallWithLease?
    ensures Lengthens(s, Step(s, a))
  {
    match a
    case CallRefresh => EnqueueLengthens(s, Refreshes);
    case CallQuiesce => QuiesceLengthens(s);
    case CallClose => QuiesceLengthens(s.(closing := AwaitsQuiescence));
    case CloseGoesOn => EnqueueLengthens(s.(closing := Queued), Operation.Closes);
  }

  lemma AwaitLonger(s: Supervisor, key: string, wellFormed: bool)
    requires Inv(s)
    ensures var t := Await(s, key, wellFormed);
            && t.tail.begun == s.tail.begun && s.tail.arrived <= t.tail.arrived
            && InLine(t.tail, s.nextCall) && t.calls == s.calls[s.nextCall := Waiting(key, wellFormed)]
  {
    var t := Await(s, key, wellFormed);
    assert t.tail.arrived == s.tail.arrived + [Tails.Continues(s.nextCall)];
    LineIsLong(s);
    assert WaitsAt(t.tail, |s.tail.arrived|, s.nextCall);
  }

  lemma JobKeepsLine(s: Supervisor, aborted: bool, held: bool)
    requires Inv(s) && AllInLine(s) && s.tail.jobs != []
    ensures AllInLine(TakeJob(s, aborted, held))
  {
    var t := TakeJob(s, aborted, held);
    LineIsLong(s);
    TakenTail(s, aborted, held);
    TakenCalls(s, aborted, held);
    forall id | id in t.calls && t.calls[id].Waiting?
      ensures InLine(t.tail, id)
    {
      var i :| WaitsAt(s.tail, i, id);
      if i > |s.tail.begun| {
        assert WaitsAt(t.tail, i, id);
      }
    }
  }

  /** No call waits that did not wait before, and the one whose turn it was waits no longer. */
  lemma TakenCalls(s: Supervisor, aborted: bool, held: bool)
    requires s.tail.jobs != []
    ensures var t := TakeJob(s, aborted, held);
            forall id :: id in t.calls && t.calls[id].Waiting? ==>
              id in s.calls && s.calls[id].Waiting? && s.tail.jobs[0] != Tails.Continues(id)
  {
    var u := s.(tail := Tails.Take(s.tail));
    match s.tail.jobs[0]
    case Continues(id) => assert TakeJob(s, aborted, held) == ContinueCall(u, id, aborted, held);
    case Starts(_, operation) =>
      StartedCalls(u, operation);
      assert TakeJob(s, aborted, held) == StartOperation(u, operation);
  }

  lemma StartedCalls(s: Supervisor, operation: Operation)
    ensures StartOperation(s, operation).calls == s.calls
  {
  }

  lemma OthersKeepCalls(s: Supervisor, a: Action)
    requires s.tail.promises != [] && !IsRequest(a) && !a.RunJob?
    ensures var t := Step(s, a);
            && t.tail.begun == s.tail.begun && t.tail.arrived == s.tail.arrived
            && forall id :: id in t.calls && t.calls[id].Waiting? ==> id in s.calls && s.calls[id].Waiting?
  {
    if a.Resumes? {
      assert Step(s, a) == Resume(s, a.acquired, a.built);
    } else if a.ConfigurationRead? {
      assert Step(s, a) == ReadConfiguration(s, a.answer);
    }
  }

  lemma StepKeepsLine(s: Supervisor, a: Action)
    requires Inv(s) && AllInLine(s)
    ensures AllInLine(Step(s, a))
  {
    if a.CallWithLease? {
      AwaitLonger(s, a.key, a.wellFormed);
      LongerKeeps(s, Step(s, a));
    } else if IsRequest(a) {
      RequestLengthens(s, a);
      LongerKeeps(s, Step(s, a));
    } else if a.RunJob? {
      if s.tail.jobs != [] {
        JobKeepsLine(s, a.aborted, a.held);
      }
    } else {
      OthersKeepCalls(s, a);
      LongerKeeps(s, Step(s, a));
    }
  }

  lemma {:induction false} RunKeepsLine(s: Supervisor, actions: seq<Action>, t: Supervisor)
    requires Inv(s) && AllInLine(s) && Reaches(s, actions, t)
    ensures AllInLine(t)
    decreases actions
  {
    if actions != [] {
      StepKeeps(s, actions[0]);
      StepKeepsLine(s, actions[0]);
      RunKeepsLine(Step(s, actions[0]), actions[1..], t);
    }
  }

  /** Every call comes to its turn and to its end: where nothing is left to do, no call waits and none uses the lease. */
  lemma EveryCallEnds(actions: seq<Action>, s: Supervisor)
    requires Reaches(Initial(), actions, s) && s.tail.promises != [] && Settled(s)
    ensures forall id :: id in s.calls ==> s.calls[id].Over?
  {
    InitialFits();
    RunKeepsLine(Initial(), actions, s);
    SettledIsDone(actions, s);
    assert forall id, i :: !WaitsAt(s.tail, i, id);
    assert forall id :: id in s.calls ==> !UsesLease(s.calls[id]);
  }

  /** Quiescence that was asked for comes: where nothing is left to do, polling is over for good and the status says so. */
  lemma QuiesceCompletes(actions: seq<Action>, s: Supervisor)
    requires Reaches(Initial(), actions, s) && s.tail.promises != [] && Settled(s) && !s.quiesced.NotAsked?
    ensures s.quiesced.Done? && s.status.Stopped? && s.polling.None? && s.runs == map[]
  {
    InitialFits();
    RunRemembers(Initial(), actions, s);
    SettledIsDone(actions, s);
    assert forall operation, i :: !AwaitedAt(s.tail, i, operation);
    QuiescedForGood(actions, s, [], s);
  }

  // Failures show

  /** A polling run that ends by itself calls for what it says; one that was stopped changes nothing but itself. */
  lemma EndedRunShows(s: Supervisor, run: nat, recovery: Recovery)
    requires Inv(s) && run in s.runs && !s.runs[run].reported
    ensures var t := Step(s, PollingEnds(run, recovery));
            && t.status == (if s.runs[run].aborted then s.status else Attention(recovery))
            && t == s.(runs := s.runs[run := s.runs[run].(reported := true)], status := t.status)
  {
  }

  /** What makes a refresh fail: an unreadable configuration, an owner that keeps the lease, none to acquire, or no polling. */
  predicate RefreshFails(s: Supervisor, a: Action)
  {
    && s.phase.Some?
    && match s.phase.value
       case Reading => a == ConfigurationRead(ReadFails)
       case StoppingPolling(run, after) =>
         a.Resumes? && !a.built && after.Restart? && !(run.Some? && run.value in s.runs)
       case ClosingOwner(o, after) =>
         && a.Resumes? && !after.DatabaseCloses? && o.Some? && o.value in s.owners
         && s.owners[o.value].stage == Owners.Closed(false)
       case Acquiring(_) => a.Resumes? && !(a.acquired && a.built)
       case _ => false
  }

  /** Then the operation is over, and unless quiesce was asked for the status calls for a restart. */
  lemma FailedRefreshShows(s: Supervisor, a: Action)
    requires Inv(s) && RefreshFails(s, a)
    ensures var t := Step(s, a);
            t.phase == Some(Ended) && t.status == (if s.quiescing then s.status else Attention(RestartHost))
  {
    if a.Resumes? {
      assert Step(s, a) == Resume(s, a.acquired, a.built);
    }
  }

  // A refresh that finds the configuration unchanged

  /** The operation under way only restarts the polling, or is over; nothing has begun since. */
  predicate OnlyRestarts(s: Supervisor, t: Supervisor)
  {
    && t.owner == s.owner && t.ownerKey == s.ownerKey && t.nextOwner == s.nextOwner
    && (t.phase.None? || t.phase == Some(Ended) || (t.phase.value.StoppingPolling? && t.phase.value.afterStop.Restart?))
  }

  predicate KeptOrMore(s: Supervisor, t: Supervisor)
  {
    |t.tail.begun| > |s.tail.begun| || (|t.tail.begun| == |s.tail.begun| && OnlyRestarts(s, t))
  }

  lemma RestartKeeps(s: Supervisor, t: Supervisor, a: Action)
    requires t.tail.promises != [] && OnlyRestarts(s, t) && Works(t, a) && !a.RunJob?
    ensures OnlyRestarts(s, Step(t, a))
  {
    if a.Resumes? {
      assert Step(t, a) == Resume(t, a.acquired, a.built);
    } else if a.ConfigurationRead? {
      assert Step(t, a) == t;
    }
  }

  lemma BegunGrows(t: Supervisor, a: Action)
    requires t.tail.promises != []
    ensures |t.tail.begun| <= |Step(t, a).tail.begun|
    ensures a.RunJob? && t.tail.jobs != [] ==> |t.tail.begun| < |Step(t, a).tail.begun|
    ensures a.RunJob? && t.tail.jobs == [] ==> Step(t, a) == t
  {
    if a.RunJob? {
      if t.tail.jobs != [] {
        TakenTail(t, a.aborted, a.held);
      }
    } else if !IsRequest(a) {
      OthersKeepCalls(t, a);
    }
  }

  lemma {:induction false} RestartsRun(s: Supervisor, t: Supervisor, more: seq<Action>, u: Supervisor)
    requires KeptOrMore(s, t) && AllWork(t, more) && Reaches(t, more, u)
    ensures KeptOrMore(s, u)
    decreases more
  {
    if more != [] {
      var a := more[0];
      BegunGrows(t, a);
      if OnlyRestarts(s, t) && !a.RunJob? {
        RestartKeeps(s, t, a);
      }
      RestartsRun(s, Step(t, a), more[1..], u);
    }
  }

  /**
   A refresh that reads the configuration the owner has keeps the owner and its lease: whatever is done until the
   next operation or call begins, the owner is the same and no other comes into being.
   */
  lemma UnchangedConfigurationKeepsOwner(s: Supervisor, key: string, more: seq<Action>, t: Supervisor)
    requires s.tail.promises != [] && s.phase == Some(Reading) && s.ownerKey == Some(key)
    requires var read := Step(s, ConfigurationRead(User(key))); AllWork(read, more) && Reaches(read, more, t)
    requires t.tail.begun == s.tail.begun
    ensures t.owner == s.owner && t.ownerKey == s.ownerKey && t.nextOwner == s.nextOwner
  {
    var read := Step(s, ConfigurationRead(User(key)));
    StopPollingFrame(s, Restart);
    RestartsRun(s, read, more, t);
  }

  // A refresh that quiesce overtakes

  predicate AcquiresNone(s: Supervisor, t: Supervisor)
  {
    t.quiescing && t.nextOwner == s.nextOwner && !(t.phase.Some? && t.phase.value.Acquiring?)
  }

  lemma ResumeAcquiresNone(t: Supervisor, acquired: bool, built: bool)
    requires t.quiescing && !(t.phase.Some? && t.phase.value.Acquiring?)
    ensures var u := Resume(t, acquired, built); !(u.phase.Some? && u.phase.value.Acquiring?)
  {
    if Resume(t, acquired, built) != t {
      match t.phase.value
      case StoppingPolling(run, after) => PolledPhase(t, run, after, built);
      case _ =>
    }
  }

  lemma PolledPhase(t: Supervisor, run: Option<nat>, after: AfterStop, built: bool)
    ensures var u := AfterPolling(t, run, after, built); !u.phase.value.Acquiring?
  {
    var u := if run.Some? && t.polling == run then t.(polling := None) else t;
    match after
    case Disable => ClosingRank(u, Disabled);
    case Replace(key) => ClosingRank(u, Replaced(key));
    case Restart =>
    case Stops =>
  }

  lemma JobAcquiresNone(t: Supervisor, aborted: bool, held: bool)
    requires !(t.phase.Some? && t.phase.value.Acquiring?)
    ensures var u := TakeJob(t, aborted, held); !(u.phase.Some? && u.phase.value.Acquiring?)
  {
    if t.tail.jobs != [] {
      var u := t.(tail := Tails.Take(t.tail));
      match t.tail.jobs[0]
      case Continues(id) => assert TakeJob(t, aborted, held) == ContinueCall(u, id, aborted, held);
      case Starts(_, operation) =>
        StartedPhase(u, operation);
        assert TakeJob(t, aborted, held) == StartOperation(u, operation);
    }
  }

  lemma StartedPhase(s: Supervisor, operation: Operation)
    ensures !StartOperation(s, operation).phase.value.Acquiring?
  {
  }

  lemma StepAcquiresNone(s: Supervisor, t: Supervisor, a: Action)
    requires Inv(t) && AcquiresNone(s, t)
    ensures AcquiresNone(s, Step(t, a))
  {
    QuiescingStays(t, a);
    if Step(t, a).nextOwner != t.nextOwner {
      OnlyAcquiringMakesOwners(t, a);
    }
    if a.Resumes? {
      ResumeAcquiresNone(t, a.acquired, a.built);
    } else if a.RunJob? {
      JobAcquiresNone(t, a.aborted, a.held);
    } else if a.ConfigurationRead? {
      assert Step(t, a) == ReadConfiguration(t, a.answer);
    } else {
      PhaseStays(t, a);
    }
  }

  lemma PhaseStays(t: Supervisor, a: Action)
    requires t.tail.promises != [] && (IsRequest(a) || IsReturn(a) || IsEnding(a) || a.OperationSettles?)
    ensures Step(t, a).phase == t.phase || Step(t, a).phase.None?
  {
  }

  /**
   From the moment quiesce is asked for no owner comes into being, whatever was queued or under way, unless one was
   being acquired already.
   */
  lemma {:induction false} NoOwnerAfterQuiesce(s: Supervisor, t: Supervisor, actions: seq<Action>, u: Supervisor)
    requires Inv(t) && AcquiresNone(s, t) && Reaches(t, actions, u)
    ensures AcquiresNone(s, u)
    decreases actions
  {
    if actions != [] {
      StepKeeps(t, actions[0]);
      StepAcquiresNone(s, t, actions[0]);
      NoOwnerAfterQuiesce(s, Step(t, actions[0]), actions[1..], u);
    }
  }
}
