/** What every run of the runtime supervisor keeps. */
module SupervisorSafety {
  import opened Wrappers
  import Tails = PromiseTail
  import Owners = RuntimeOwner
  import opened RuntimeSupervisor

  ghost predicate LineInv(s: Supervisor)
  {
    && Tails.Inv(s.tail)
    && Tails.Ordered(s.tail)
    && (s.phase.Some? <==> s.tail.running != {})
  }

  predicate Closes(s: Supervisor, o: nat)
  {
    s.phase.Some? && s.phase.value.ClosingOwner? && s.phase.value.owner == Some(o)
  }

  ghost predicate OwnerInv(s: Supervisor)
  {
    && (s.owner.Some? <==> s.ownerKey.Some?)
    && (s.owner.Some? ==> s.owner.value in s.owners && s.owners[s.owner.value].stage.Open?
                          && s.owners[s.owner.value].lease.key == s.ownerKey.value)
    && (forall o :: o in s.owners ==> o < s.nextOwner && Owners.Inv(s.owners[o]))
    && (forall o :: o in s.owners && s.owners[o].kernel ==> s.owner == Some(o) || Closes(s, o))
    && (s.phase.Some? ==> PhaseOwnerInv(s, s.phase.value))
  }

  ghost predicate PhaseOwnerInv(s: Supervisor, p: Phase)
  {
    match p
    case StoppingPolling(_, after) => after.Restart? ==> s.owner.Some?
    case ClosingOwner(o, _) => s.owner.None? && (o.Some? ==> o.value in s.owners && !s.owners[o.value].stage.Open?)
    case WaitingBase(after) => after.Acquires? ==> s.owner.None?
    case Acquiring(_) => s.owner.None?
    case _ => true
  }

  /** The lease belongs to an owner, or is on its way to or from one. */
  predicate Taken(s: Supervisor)
  {
    || s.owner.Some?
    || (s.phase.Some? && s.phase.value.ClosingOwner? &&
        (s.phase.value.owner.Some? || s.phase.value.afterOwner.DatabaseCloses?))
    || (s.phase.Some? && s.phase.value.Acquiring?)
    || s.databaseClosed
  }

  function BaseCalls(s: Supervisor): set<nat>
  {
    set id | id in s.calls && s.calls[id].InBase?
  }

  predicate WaitsForBase(s: Supervisor)
  {
    s.phase.Some? && s.phase.value.WaitingBase?
  }

  ghost predicate BaseInv(s: Supervisor)
  {
    && s.baseOperations == |BaseCalls(s)|
    && (Taken(s) ==> s.baseOperations == 0)
    && (s.baseDrained.Some? ==> WaitsForBase(s))
    && (WaitsForBase(s) ==> (s.baseDrained == Some(false) <==> s.baseOperations != 0))
  }

  predicate UsesLease(c: Call)
  {
    c.InBase? || c.InOwner?
  }

  ghost predicate CallInv(s: Supervisor)
  {
    && (forall id :: id in s.calls ==> id < s.nextCall)
    && (forall id :: id in s.calls && UsesLease(s.calls[id]) ==> id in s.begun)
    && (forall id :: id in s.begun ==> id in s.calls && !s.calls[id].Waiting?)
    && (forall id :: id in s.calls && s.calls[id].InOwner? ==>
          s.calls[id].owner in s.owners && id in s.owners[s.calls[id].owner].callbacks)
    && (forall o, id :: o in s.owners && id in s.owners[o].callbacks ==>
          id in s.calls && s.calls[id] == InOwner(o))
  }

  ghost predicate PollingInv(s: Supervisor)
  {
    && (forall r :: r in s.runs ==> r < s.nextRun && s.polling == Some(r) && s.owner == Some(s.runs[r].owner))
    && (s.polling.Some? ==> s.polling.value in s.runs)
    && (s.phase.Some? ==> PhasePollingInv(s, s.phase.value))
  }

  ghost predicate PhasePollingInv(s: Supervisor, p: Phase)
  {
    match p
    case Reading => true
    case StoppingPolling(run, _) =>
      s.polling.Some? ==> s.polling == run && s.polling.value in s.runs && s.runs[s.polling.value].aborted
    case Ended => true
    case _ => s.polling.None?
  }

  /** The phases an operation can be in once the polling has been stopped for good. */
  predicate Quiet(p: Phase)
  {
    match p
    case StoppingPolling(_, after) => after.Stops?
    case WaitingBase(after) => after.OwnerCloses?
    case ClosingOwner(_, after) => after.DatabaseCloses?
    case Ended => true
    case _ => false
  }

  ghost predicate QuietInv(s: Supervisor)
  {
    && (!s.quiesced.NotAsked? ==> s.quiescing)
    && (!s.closing.Open? ==> s.quiescing)
    && (forall i :: 0 <= i < |s.tail.arrived| && s.tail.arrived[i].Starts? ==>
          Allowed(s, s.tail.arrived[i].operation))
    && (s.quiesced.Done? ==> s.polling.None? && s.status.Stopped? && (s.phase.Some? ==> Quiet(s.phase.value)))
    && (s.phase.Some? ==> PhaseQuietInv(s, s.phase.value))
    && (s.databaseClosed ==>
          s.quiesced.Done? && s.owner.None? && (forall o :: o in s.owners ==> !s.owners[o].kernel))
  }

  ghost predicate Allowed(s: Supervisor, operation: Operation)
  {
    match operation
    case Refreshes => true
    case Quiesces => s.quiescing
    case Closes => s.quiesced.Done?
  }

  ghost predicate PhaseQuietInv(s: Supervisor, p: Phase)
  {
    match p
    case StoppingPolling(_, after) => after.Stops? ==> s.quiescing
    case WaitingBase(after) => after.OwnerCloses? ==> s.quiesced.Done?
    case ClosingOwner(_, after) => after.DatabaseCloses? ==> s.quiesced.Done?
    case _ => true
  }

  /** Everything but the line of promises. */
  ghost predicate Rest(s: Supervisor)
  {
    OwnerInv(s) && BaseInv(s) && CallInv(s) && PollingInv(s) && QuietInv(s)
  }

  ghost predicate Inv(s: Supervisor)
  {
    LineInv(s) && Rest(s)
  }

  lemma CountsAlike(s: Supervisor, t: Supervisor)
    requires forall id :: (id in t.calls && t.calls[id].InBase?) <==> (id in s.calls && s.calls[id].InBase?)
    ensures BaseCalls(t) == BaseCalls(s)
  {
  }

  lemma CallsStay(s: Supervisor, t: Supervisor)
    requires CallInv(s) && t.calls == s.calls && t.nextCall == s.nextCall && t.begun == s.begun
    requires forall o :: o in t.owners <==> o in s.owners
    requires forall o :: o in s.owners ==> t.owners[o].callbacks == s.owners[o].callbacks
    ensures CallInv(t)
  {
  }

  /** Only the line of promises has changed. */
  lemma OnlyLine(s: Supervisor, t: Supervisor)
    requires Rest(s) && t == s.(tail := t.tail)
    requires forall i :: 0 <= i < |t.tail.arrived| && t.tail.arrived[i].Starts? ==> Allowed(s, t.tail.arrived[i].operation)
    ensures Rest(t)
  {
    CountsAlike(s, t);
    assert OwnerInv(t);
    CallsStay(s, t);
  }

  /** Only the calls and the count of base calls have changed. */
  lemma PartsStay(s: Supervisor, t: Supervisor)
    requires OwnerInv(s) && PollingInv(s) && QuietInv(s)
    requires t == s.(calls := t.calls, nextCall := t.nextCall, begun := t.begun, baseOperations := t.baseOperations)
    ensures OwnerInv(t) && PollingInv(t) && QuietInv(t)
  {
  }

  lemma EnqueueKeeps(s: Supervisor, operation: Operation)
    requires Inv(s) && Allowed(s, operation)
    ensures Inv(Enqueue(s, operation))
  {
    Tails.EnqueueKeeps(s.tail, operation);
    Tails.EnqueueIsOrdered(s.tail, operation);
    var t := Enqueue(s, operation);
    assert t.tail.arrived == s.tail.arrived + [Tails.Starts(|s.tail.promises|, operation)];
    OnlyLine(s, t);
  }

  lemma AwaitCalls(s: Supervisor, key: string, wellFormed: bool)
    requires CallInv(s) && s.tail.promises != []
    ensures CallInv(Await(s, key, wellFormed))
  {
  }

  lemma AwaitBase(s: Supervisor, key: string, wellFormed: bool)
    requires BaseInv(s) && s.tail.promises != [] && s.nextCall !in s.calls
    ensures BaseInv(Await(s, key, wellFormed))
  {
    CountsAlike(s, Await(s, key, wellFormed));
  }

  lemma AwaitKeeps(s: Supervisor, key: string, wellFormed: bool)
    requires Inv(s)
    ensures Inv(Await(s, key, wellFormed))
  {
    Tails.RegisterKeeps(s.tail, s.nextCall);
    Tails.WaitIsOrdered(s.tail, Tails.Continues(s.nextCall));
    AwaitCalls(s, key, wellFormed);
    AwaitBase(s, key, wellFormed);
    var u := s.(tail := Await(s, key, wellFormed).tail);
    OnlyLine(s, u);
    PartsStay(u, Await(s, key, wellFormed));
  }

  lemma MarkKeeps(s: Supervisor, quiesced: Quiescence, closing: Closure)
    requires Inv(s)
    requires quiesced == s.quiesced || (s.quiesced.NotAsked? && quiesced.Asked?)
    ensures Inv(s.(quiescing := true, quiesced := quiesced, closing := closing))
  {
    var t := s.(quiescing := true, quiesced := quiesced, closing := closing);
    CountsAlike(s, t);
    CallsStay(s, t);
    assert OwnerInv(t);
    MarkQuiet(s, t);
  }

  lemma MarkQuiet(s: Supervisor, t: Supervisor)
    requires QuietInv(s) && t == s.(quiescing := true, quiesced := t.quiesced, closing := t.closing)
    requires t.quiesced == s.quiesced || (s.quiesced.NotAsked? && t.quiesced.Asked?)
    ensures QuietInv(t)
  {
  }

  lemma QuiesceKeeps(s: Supervisor)
    requires Inv(s)
    ensures Inv(Quiesce(s))
  {
    if s.quiesced.NotAsked? {
      MarkKeeps(s, Asked, s.closing);
      EnqueueKeeps(s.(quiescing := true, quiesced := Asked), Quiesces);
    } else {
      MarkKeeps(s, s.quiesced, s.closing);
    }
  }

  lemma CloseCallKeeps(s: Supervisor)
    requires Inv(s)
    ensures Inv(Quiesce(s.(closing := AwaitsQuiescence)))
  {
    var t := s.(closing := AwaitsQuiescence);
    MarkKeeps(s, if s.quiesced.NotAsked? then Asked else s.quiesced, AwaitsQuiescence);
    if s.quiesced.NotAsked? {
      EnqueueKeeps(s.(quiescing := true, quiesced := Asked, closing := AwaitsQuiescence), Quiesces);
    }
  }

  lemma CloseGoesOnKeeps(s: Supervisor)
    requires Inv(s) && s.quiesced.Done?
    ensures Inv(Enqueue(s.(closing := Queued), Operation.Closes))
  {
    MarkKeeps(s, s.quiesced, Queued);
    assert s.(quiescing := true, closing := Queued) == s.(closing := Queued);
    EnqueueKeeps(s.(closing := Queued), Operation.Closes);
  }

  lemma FinishKeeps(s: Supervisor, status: Status)
    requires Rest(s) && (s.phase.Some? ==> !WaitsForBase(s)) && (s.quiesced.Done? ==> status.Stopped?)
    requires forall o :: o in s.owners && s.owners[o].kernel ==> s.owner == Some(o)
    ensures Rest(s.(phase := Some(Ended), status := status))
  {
    CountsAlike(s, s.(phase := Some(Ended), status := status));
  }

  lemma FailKeeps(s: Supervisor)
    requires Rest(s) && !WaitsForBase(s)
    requires forall o :: o in s.owners && s.owners[o].kernel ==> s.owner == Some(o)
    ensures Rest(Fail(s))
  {
    FinishKeeps(s, if s.quiescing then s.status else Attention(RestartHost));
  }

  /** Stopping starts from the beginning of an operation or from its read of the configuration. */
  lemma StopPollingKeeps(s: Supervisor, after: AfterStop)
    requires Rest(s) && (s.phase.None? || s.phase == Some(Reading))
    requires after.Restart? ==> s.owner.Some?
    requires after.Stops? ==> s.quiescing
    requires s.quiesced.Done? ==> after.Stops?
    ensures Rest(StopPolling(s, after))
  {
    var t := StopPolling(s, after);
    CallsStay(s, t);
    StopPollingBase(s, after);
    StopPollingRuns(s, after);
    StopPollingOwners(s, after);
    StopPollingQuiet(s, after);
  }

  lemma StopPollingOwners(s: Supervisor, after: AfterStop)
    requires OwnerInv(s) && (s.phase.None? || s.phase == Some(Reading)) && (after.Restart? ==> s.owner.Some?)
    ensures OwnerInv(StopPolling(s, after))
  {
    StopPollingFrame(s, after);
  }

  lemma StopPollingFrame(s: Supervisor, after: AfterStop)
    ensures var t := StopPolling(s, after);
            && t.owner == s.owner && t.owners == s.owners && t.ownerKey == s.ownerKey && t.nextOwner == s.nextOwner
            && t.phase == Some(StoppingPolling(s.polling, after))
  {
  }

  lemma StopPollingQuiet(s: Supervisor, after: AfterStop)
    requires QuietInv(s) && (after.Stops? ==> s.quiescing) && (s.quiesced.Done? ==> after.Stops?)
    ensures QuietInv(StopPolling(s, after))
  {
  }

  lemma StopPollingBase(s: Supervisor, after: AfterStop)
    requires BaseInv(s) && (s.phase.None? || s.phase == Some(Reading))
    ensures BaseInv(StopPolling(s, after))
  {
    CountsAlike(s, StopPolling(s, after));
  }

  lemma StopPollingRuns(s: Supervisor, after: AfterStop)
    requires PollingInv(s) && QuietInv(s)
    requires after.Stops? ==> s.quiescing
    requires s.quiesced.Done? ==> after.Stops?
    ensures PollingInv(StopPolling(s, after)) && QuietInv(StopPolling(s, after))
  {
  }

  lemma WaitForBaseKeeps(s: Supervisor, after: AfterBase)
    requires Rest(s) && !WaitsForBase(s)
    requires after.Acquires? ==> s.owner.None? && !s.quiesced.Done?
    requires after.OwnerCloses? ==> s.quiesced.Done?
    requires s.polling.None?
    requires forall o :: o in s.owners && s.owners[o].kernel ==> s.owner == Some(o)
    ensures Rest(WaitForBase(s, after))
  {
    var t := WaitForBase(s, after);
    CallsStay(s, t);
    WaitForBaseBase(s, after);
    assert t.owner == s.owner && t.owners == s.owners && t.ownerKey == s.ownerKey;
    assert OwnerInv(t);
    assert t.runs == s.runs && t.polling == s.polling && t.tail == s.tail;
  }

  lemma WaitForBaseBase(s: Supervisor, after: AfterBase)
    requires BaseInv(s) && !WaitsForBase(s)
    ensures BaseInv(WaitForBase(s, after))
  {
    CountsAlike(s, WaitForBase(s, after));
  }

  lemma CloseOwnerOwners(s: Supervisor, after: AfterOwner)
    requires OwnerInv(s) && !(s.phase.Some? && s.phase.value.ClosingOwner?)
    ensures OwnerInv(CloseOwner(s, after))
    ensures forall o :: o in CloseOwner(s, after).owners <==> o in s.owners
    ensures forall o :: o in s.owners ==> CloseOwner(s, after).owners[o].callbacks == s.owners[o].callbacks
  {
    var t := CloseOwner(s, after);
    if s.owner.Some? {
      var o := s.owner.value;
      Owners.StepKeeps(s.owners[o], Owners.Closes);
      assert t.owners[o] == Owners.Close(s.owners[o]);
      assert Closes(t, o);
    }
  }

  lemma CloseOwnerBase(s: Supervisor, after: AfterOwner)
    requires BaseInv(s) && s.baseDrained.None?
    requires after.DatabaseCloses? ==> s.baseOperations == 0
    ensures BaseInv(CloseOwner(s, after))
  {
    CountsAlike(s, CloseOwner(s, after));
  }

  lemma CloseOwnerQuiet(s: Supervisor, after: AfterOwner)
    requires QuietInv(s) && PollingInv(s) && s.polling.None?
    requires after.DatabaseCloses? <==> s.quiesced.Done?
    ensures QuietInv(CloseOwner(s, after)) && PollingInv(CloseOwner(s, after))
  {
    var t := CloseOwner(s, after);
    assert t.tail == s.tail && t.runs == s.runs && t.polling == s.polling;
    if s.databaseClosed {
      assert s.owner.None? && t.owners == s.owners;
    }
  }

  lemma CloseOwnerKeeps(s: Supervisor, after: AfterOwner)
    requires Rest(s) && s.polling.None? && s.baseDrained.None? && !(s.phase.Some? && s.phase.value.ClosingOwner?)
    requires after.DatabaseCloses? <==> s.quiesced.Done?
    requires after.DatabaseCloses? ==> s.baseOperations == 0
    ensures Rest(CloseOwner(s, after))
  {
    CloseOwnerOwners(s, after);
    CloseOwnerBase(s, after);
    CallsStay(s, CloseOwner(s, after));
    CloseOwnerQuiet(s, after);
  }

  lemma StartPollingKeeps(s: Supervisor, built: bool)
    requires Rest(s) && s.owner.Some? && s.polling.None? && !s.quiesced.Done?
    requires !WaitsForBase(s)
    requires forall o :: o in s.owners && s.owners[o].kernel ==> s.owner == Some(o)
    ensures Rest(StartPolling(s, built))
  {
    if built {
      CountsAlike(s, StartPolling(s, built));
    } else {
      FailKeeps(s);
    }
  }

  lemma StartOperationKeeps(s: Supervisor, operation: Operation)
    requires Rest(s) && s.phase.None? && Allowed(s, operation)
    ensures Rest(StartOperation(s, operation))
  {
    match operation
    case Refreshes =>
      if s.quiescing {
        FailKeeps(s);
      } else {
        CountsAlike(s, StartOperation(s, operation));
      }
    case Quiesces => StopPollingKeeps(s, Stops);
    case Closes => WaitForBaseKeeps(s, OwnerCloses);
  }

  /** Of no concern to calls that come and go inside an owner: the base calls, the polling and the end. */
  lemma OthersStay(s: Supervisor, t: Supervisor)
    requires BaseInv(s) && PollingInv(s) && QuietInv(s)
    requires t == s.(owners := t.owners, calls := t.calls, begun := t.begun)
    requires forall id :: (id in t.calls && t.calls[id].InBase?) <==> (id in s.calls && s.calls[id].InBase?)
    requires forall o :: o in t.owners && t.owners[o].kernel ==> o in s.owners && s.owners[o].kernel
    ensures BaseInv(t) && PollingInv(t) && QuietInv(t)
  {
    CountsAlike(s, t);
  }

  lemma CallEndsKeeps(s: Supervisor, id: nat)
    requires Rest(s) && id in s.calls && s.calls[id].Waiting?
    ensures Rest(s.(calls := s.calls[id := Over]))
  {
    var t := s.(calls := s.calls[id := Over]);
    CountsAlike(s, t);
    PartsStay(s, t);
    CallOver(s, t, id);
  }

  lemma CallOver(s: Supervisor, t: Supervisor, id: nat)
    requires CallInv(s) && id in s.calls && s.calls[id].Waiting? && t == s.(calls := s.calls[id := Over])
    ensures CallInv(t)
  {
  }

  lemma BaseBeginsKeeps(s: Supervisor, id: nat)
    requires Rest(s) && s.phase.None? && !s.quiescing && s.owner.None?
    requires id in s.calls && s.calls[id].Waiting?
    ensures Rest(s.(baseOperations := s.baseOperations + 1, calls := s.calls[id := InBase], begun := s.begun + {id}))
  {
    var t := s.(baseOperations := s.baseOperations + 1, calls := s.calls[id := InBase], begun := s.begun + {id});
    PartsStay(s, t);
    BaseBeginsCalls(s, t, id);
    assert BaseCalls(t) == BaseCalls(s) + {id};
  }

  lemma BaseBeginsCalls(s: Supervisor, t: Supervisor, id: nat)
    requires CallInv(s) && id in s.calls && s.calls[id].Waiting?
    requires t == s.(baseOperations := t.baseOperations, calls := s.calls[id := InBase], begun := s.begun + {id})
    ensures CallInv(t)
  {
  }

  lemma OwnerReplaced(s: Supervisor, o: nat, n: Owners.Owner)
    requires OwnerInv(s) && o in s.owners && Owners.Inv(n)
    requires n.stage.Open? == s.owners[o].stage.Open? && n.lease.key == s.owners[o].lease.key
    requires n.kernel ==> s.owners[o].kernel
    ensures OwnerInv(s.(owners := s.owners[o := n]))
  {
  }

  lemma OwnerChanges(s: Supervisor, o: nat, m: Owners.Move)
    requires OwnerInv(s) && o in s.owners && !m.Closes?
    ensures OwnerInv(s.(owners := s.owners[o := Owners.Step(s.owners[o], m)]))
  {
    Owners.StepKeeps(s.owners[o], m);
    Owners.StepKeepsKey(s.owners[o], m);
    Owners.OnlyCloseShuts(s.owners[o], m);
    OwnerReplaced(s, o, Owners.Step(s.owners[o], m));
  }

  lemma OwnerBeginsCalls(s: Supervisor, o: nat, id: nat, request: Owners.Request)
    requires CallInv(s) && o in s.owners && id in s.calls && s.calls[id].Waiting?
    requires Owners.Enter(s.owners[o].lease, request).Ok?
    ensures CallInv(s.(owners := s.owners[o := Owners.Admit(s.owners[o], id, request)],
                       calls := s.calls[id := InOwner(o)],
                       begun := s.begun + {id}))
  {
    assert id !in s.owners[o].callbacks;
  }

  lemma OwnerBeginsKeeps(s: Supervisor, o: nat, id: nat, request: Owners.Request)
    requires Rest(s) && s.phase.None? && s.owner == Some(o) && id in s.calls && s.calls[id].Waiting?
    requires Owners.Enter(s.owners[o].lease, request).Ok?
    ensures Rest(s.(owners := s.owners[o := Owners.Admit(s.owners[o], id, request)],
                    calls := s.calls[id := InOwner(o)],
                    begun := s.begun + {id}))
  {
    var t := s.(owners := s.owners[o := Owners.Admit(s.owners[o], id, request)],
                calls := s.calls[id := InOwner(o)],
                begun := s.begun + {id});
    OwnerChanges(s, o, Owners.Calls(id, request));
    assert OwnerInv(t);
    OwnerBeginsCalls(s, o, id, request);
    OthersStay(s, t);
  }

  lemma ContinueCallKeeps(s: Supervisor, id: nat, aborted: bool, held: bool)
    requires Rest(s) && s.phase.None?
    ensures Rest(ContinueCall(s, id, aborted, held))
    ensures ContinueCall(s, id, aborted, held).tail == s.tail
    ensures ContinueCall(s, id, aborted, held).phase == s.phase
  {
    if id in s.calls && s.calls[id].Waiting? {
      if s.quiescing {
        CallEndsKeeps(s, id);
      } else if s.owner.Some? {
        var request := Owners.Request(s.calls[id].key, s.calls[id].wellFormed, aborted, held);
        if Owners.Enter(s.owners[s.owner.value].lease, request).Err? {
          CallEndsKeeps(s, id);
        } else {
          OwnerBeginsKeeps(s, s.owner.value, id, request);
        }
      } else {
        BaseBeginsKeeps(s, id);
      }
    }
  }

  lemma ReturnFromBaseKeeps(s: Supervisor, id: nat)
    requires Rest(s)
    ensures Rest(ReturnFromBase(s, id))
  {
    if id in s.calls && s.calls[id].InBase? {
      var t := ReturnFromBase(s, id);
      assert BaseCalls(t) == BaseCalls(s) - {id};
      assert id in BaseCalls(s);
    }
  }

  lemma ReturnFromOwnerCalls(s: Supervisor, id: nat)
    requires CallInv(s) && id in s.calls && s.calls[id].InOwner?
    ensures CallInv(ReturnFromOwner(s, id))
  {
  }

  lemma ReturnFromOwnerKeeps(s: Supervisor, id: nat)
    requires Rest(s)
    ensures Rest(ReturnFromOwner(s, id))
  {
    if id in s.calls && s.calls[id].InOwner? {
      ReturnFromOwnerOwners(s, id);
      ReturnFromOwnerCalls(s, id);
      OthersStay(s, ReturnFromOwner(s, id));
    }
  }

  lemma ReturnFromOwnerOwners(s: Supervisor, id: nat)
    requires OwnerInv(s) && CallInv(s) && id in s.calls && s.calls[id].InOwner?
    ensures OwnerInv(ReturnFromOwner(s, id))
  {
    OwnerChanges(s, s.calls[id].owner, Owners.Returns(id));
    assert ReturnFromOwner(s, id).owners ==
           s.owners[s.calls[id].owner := Owners.Step(s.owners[s.calls[id].owner], Owners.Returns(id))];
  }

  lemma MoveOwnerKeeps(s: Supervisor, o: nat, m: Owners.Move)
    requires Rest(s) && (m.Drains? || m.Releases?)
    ensures Rest(MoveOwner(s, o, m))
  {
    if o in s.owners {
      OwnerChanges(s, o, m);
      CallsStay(s, MoveOwner(s, o, m));
      OthersStay(s, MoveOwner(s, o, m));
    }
  }

  lemma EndPollingKeeps(s: Supervisor, run: nat, recovery: Recovery)
    requires Rest(s)
    ensures Rest(EndPolling(s, run, recovery))
  {
    CountsAlike(s, EndPolling(s, run, recovery));
  }

  lemma SettlePollingKeeps(s: Supervisor, run: nat)
    requires Rest(s)
    ensures Rest(SettlePolling(s, run))
  {
    CountsAlike(s, SettlePolling(s, run));
  }

  lemma ReadConfigurationKeeps(s: Supervisor, answer: Configuration)
    requires Rest(s)
    ensures Rest(ReadConfiguration(s, answer))
  {
    if s.phase == Some(Reading) {
      match answer
      case ReadFails => FailKeeps(s);
      case NoUser => StopPollingKeeps(s, Disable);
      case User(key) => StopPollingKeeps(s, if s.ownerKey == Some(key) then Restart else Replace(key));
    }
  }

  lemma AfterPollingKeeps(s: Supervisor, run: Option<nat>, after: AfterStop, built: bool)
    requires Rest(s) && s.phase == Some(StoppingPolling(run, after)) && !(run.Some? && run.value in s.runs)
    ensures Rest(AfterPolling(s, run, after, built))
  {
    assert s.polling.None?;
    match after
    case Disable => CloseOwnerKeeps(s, Disabled);
    case Replace(key) => CloseOwnerKeeps(s, Replaced(key));
    case Restart => StartPollingKeeps(s, built);
    case Stops => PollingStopped(s);
  }

  lemma PollingStopped(s: Supervisor)
    requires Rest(s) && s.polling.None? && s.phase.Some? && s.phase.value.StoppingPolling? && s.phase.value.afterStop.Stops?
    ensures Rest(Finish(s.(status := Stopped, quiesced := Done)))
  {
    var t := Finish(s.(status := Stopped, quiesced := Done));
    CountsAlike(s, t);
    assert OwnerInv(t);
    CallsStay(s, t);
  }

  lemma DatabaseClosedKeeps(s: Supervisor, o: Option<nat>)
    requires Rest(s) && s.phase == Some(ClosingOwner(o, DatabaseCloses)) && (o.Some? ==> s.owners[o.value].stage.Closed?)
    ensures Rest(Finish(s.(databaseClosed := true)))
  {
    var t := Finish(s.(databaseClosed := true));
    CountsAlike(s, t);
    CallsStay(s, t);
    assert OwnerInv(t);
  }

  lemma AfterClosingKeeps(s: Supervisor, o: Option<nat>, after: AfterOwner, clean: bool)
    requires Rest(s) && s.phase == Some(ClosingOwner(o, after)) && (o.Some? ==> s.owners[o.value].stage.Closed?)
    ensures Rest(AfterClosing(s, after, clean))
  {
    match after
    case DatabaseCloses =>
      DatabaseClosedKeeps(s, o);
    case Disabled =>
      if clean {
        FinishKeeps(s, NotConfigured);
      } else {
        FailKeeps(s);
      }
    case Replaced(key) =>
      if clean {
        WaitForBaseKeeps(s, Acquires(key));
      } else {
        FailKeeps(s);
      }
  }

  lemma DrainedKeeps(s: Supervisor, after: AfterBase)
    requires Rest(s) && s.phase == Some(WaitingBase(after)) && s.baseDrained != Some(false)
    ensures s.baseOperations == 0
    ensures Rest(s.(baseDrained := None))
  {
    CountsAlike(s, s.(baseDrained := None));
  }

  lemma AcquireKeeps(s: Supervisor, key: string)
    requires Rest(s) && s.phase == Some(WaitingBase(Acquires(key))) && s.baseDrained.None? && s.baseOperations == 0
    ensures Rest(s.(phase := Some(Acquiring(key))))
  {
    CallsStay(s, s.(phase := Some(Acquiring(key))));
    CountsAlike(s, s.(phase := Some(Acquiring(key))));
  }

  lemma AbandonKeeps(s: Supervisor, key: string)
    requires Rest(s) && s.phase == Some(WaitingBase(Acquires(key))) && s.baseDrained.None? && s.quiescing
    ensures Rest(Fail(s))
  {
    CallsStay(s, Fail(s));
    CountsAlike(s, Fail(s));
  }

  lemma AfterDrainingKeeps(s: Supervisor, after: AfterBase)
    requires Rest(s) && s.phase == Some(WaitingBase(after)) && s.baseDrained != Some(false)
    ensures Rest(AfterDraining(s, after))
  {
    DrainedKeeps(s, after);
    var t := s.(baseDrained := None);
    match after
    case Acquires(key) =>
      if s.quiescing {
        AbandonKeeps(t, key);
      } else {
        AcquireKeeps(t, key);
      }
    case OwnerCloses => CloseOwnerKeeps(t, DatabaseCloses);
  }

  lemma AcquiredKeeps(s: Supervisor, key: string)
    requires Rest(s) && s.phase == Some(Acquiring(key))
    ensures Rest(s.(owners := s.owners[s.nextOwner := Owners.Acquired(key)], owner := Some(s.nextOwner),
                    ownerKey := Some(key), nextOwner := s.nextOwner + 1, phase := Some(Ended)))
  {
    var t := s.(owners := s.owners[s.nextOwner := Owners.Acquired(key)], owner := Some(s.nextOwner),
                ownerKey := Some(key), nextOwner := s.nextOwner + 1, phase := Some(Ended));
    CountsAlike(s, t);
    assert OwnerInv(t);
    assert CallInv(t);
  }

  lemma AfterAcquiringKeeps(s: Supervisor, key: string, acquired: bool, built: bool)
    requires Rest(s) && s.phase == Some(Acquiring(key))
    ensures Rest(AfterAcquiring(s, key, acquired, built))
  {
    if acquired {
      AcquiredKeeps(s, key);
      var t := s.(owners := s.owners[s.nextOwner := Owners.Acquired(key)], owner := Some(s.nextOwner),
                  ownerKey := Some(key), nextOwner := s.nextOwner + 1, phase := Some(Ended));
      StartPollingKeeps(t, built);
      assert StartPolling(t, built) == AfterAcquiring(s, key, acquired, built);
    } else {
      FailKeeps(s);
    }
  }

  lemma ResumeKeeps(s: Supervisor, acquired: bool, built: bool)
    requires Rest(s)
    ensures Rest(Resume(s, acquired, built))
  {
    if s.phase.Some? {
      match s.phase.value
      case StoppingPolling(run, after) =>
        if !(run.Some? && run.value in s.runs) {
          AfterPollingKeeps(s, run, after, built);
        }
      case ClosingOwner(o, after) =>
        if o.None? {
          AfterClosingKeeps(s, o, after, true);
        } else if s.owners[o.value].stage.Closed? {
          AfterClosingKeeps(s, o, after, s.owners[o.value].stage.released);
        }
      case WaitingBase(after) =>
        if s.baseDrained != Some(false) {
          AfterDrainingKeeps(s, after);
        }
      case Acquiring(key) => AfterAcquiringKeeps(s, key, acquired, built);
      case _ =>
    }
  }

  lemma HeadArrived(s: Supervisor)
    requires Tails.Ordered(s.tail) && s.tail.jobs != []
    ensures s.tail.jobs[0] in s.tail.arrived
  {
    var all := s.tail.begun + (s.tail.jobs + Tails.Registered(s.tail.promises));
    assert all[|s.tail.begun|] == s.tail.jobs[0];
  }

  lemma TakeJobKeeps(s: Supervisor, aborted: bool, held: bool)
    requires Inv(s)
    ensures Inv(TakeJob(s, aborted, held))
  {
    if s.tail.jobs != [] {
      Tails.TakeKeeps(s.tail);
      var t := s.(tail := Tails.Take(s.tail));
      var head := s.tail.jobs[0];
      HeadArrived(s);
      OnlyLine(s, t);
      if head.Starts? {
        StartOperationKeeps(t, head.operation);
        assert TakeJob(s, aborted, held) == StartOperation(t, head.operation);
      } else {
        ContinueCallKeeps(t, head.call, aborted, held);
        assert TakeJob(s, aborted, held) == ContinueCall(t, head.call, aborted, held);
      }
    }
  }

  lemma SettleOperationKeeps(s: Supervisor)
    requires Inv(s)
    ensures Inv(SettleOperation(s))
  {
    if s.phase == Some(Ended) {
      Tails.SettleKeeps(s.tail, Tails.Started(s.tail.begun));
      EndedRests(s, SettleOperation(s));
    }
  }

  /** The phase is over, and the line goes on. */
  lemma EndedRests(s: Supervisor, t: Supervisor)
    requires Rest(s) && s.phase == Some(Ended)
    requires t == s.(tail := t.tail, phase := None) && t.tail.arrived == s.tail.arrived
    ensures Rest(t)
  {
    CountsAlike(s, t);
    assert OwnerInv(t);
    CallsStay(s, t);
  }

  lemma AsideKeeps(s: Supervisor, t: Supervisor)
    requires Inv(s) && Rest(t) && t.tail == s.tail && (t.phase.Some? <==> s.phase.Some?)
    ensures Inv(t)
  {
  }

  predicate IsRequest(a: Action)
  {
    a.CallWithLease? || a.CallRefresh? || a.CallQuiesce? || a.CallClose? || a.CloseGoesOn?
  }

  lemma RequestKeeps(s: Supervisor, a: Action)
    requires Inv(s) && IsRequest(a)
    ensures Inv(Step(s, a))
  {
    if a.CallWithLease? {
      AwaitKeeps(s, a.key, a.wellFormed);
    } else if a.CallRefresh? {
      if !s.quiescing {
        EnqueueKeeps(s, Refreshes);
      }
    } else if a.CallQuiesce? {
      QuiesceKeeps(s);
    } else if a.CallClose? {
      if s.closing.Open? {
        CloseCallKeeps(s);
      }
    } else if s.closing.AwaitsQuiescence? && s.quiesced.Done? {
      CloseGoesOnKeeps(s);
    }
  }

  predicate IsReturn(a: Action)
  {
    a.BaseReturns? || a.OwnerReturns?
  }

  lemma ReturnKeeps(s: Supervisor, a: Action)
    requires Inv(s) && IsReturn(a)
    ensures Inv(Step(s, a))
  {
    if a.BaseReturns? {
      ReturnFromBaseKeeps(s, a.id);
      AsideKeeps(s, ReturnFromBase(s, a.id));
    } else {
      ReturnFromOwnerKeeps(s, a.id);
      AsideKeeps(s, ReturnFromOwner(s, a.id));
    }
  }

  predicate IsEnding(a: Action)
  {
    a.OwnerDrains? || a.OwnerReleases? || a.PollingEnds? || a.PollingSettles?
  }

  lemma EndingKeeps(s: Supervisor, a: Action)
    requires Inv(s) && IsEnding(a)
    ensures Inv(Step(s, a))
  {
    if a.PollingEnds? {
      EndPollingKeeps(s, a.run, a.recovery);
      AsideKeeps(s, EndPolling(s, a.run, a.recovery));
    } else if a.PollingSettles? {
      SettlePollingKeeps(s, a.run);
      AsideKeeps(s, SettlePolling(s, a.run));
    } else {
      var m := if a.OwnerDrains? then Owners.Drains else Owners.Releases(a.clean);
      MoveOwnerKeeps(s, a.owner, m);
      AsideKeeps(s, MoveOwner(s, a.owner, m));
    }
  }

  lemma StepKeeps(s: Supervisor, a: Action)
    requires Inv(s)
    ensures Inv(Step(s, a))
  {
    if IsRequest(a) {
      RequestKeeps(s, a);
    } else if IsReturn(a) {
      ReturnKeeps(s, a);
    } else if IsEnding(a) {
      EndingKeeps(s, a);
    } else if a.RunJob? {
      TakeJobKeeps(s, a.aborted, a.held);
    } else if a.ConfigurationRead? {
      ReadConfigurationKeeps(s, a.answer);
      AsideKeeps(s, ReadConfiguration(s, a.answer));
    } else if a.Resumes? {
      ResumeKeeps(s, a.acquired, a.built);
      AsideKeeps(s, Resume(s, a.acquired, a.built));
    } else {
      SettleOperationKeeps(s);
    }
  }

  ghost predicate Reaches(s: Supervisor, actions: seq<Action>, t: Supervisor)
    decreases actions
  {
    if actions == [] then t == s
    else s.tail.promises != [] && Reaches(Step(s, actions[0]), actions[1..], t)
  }

  lemma {:induction false} ReachableKeeps(s: Supervisor, actions: seq<Action>, t: Supervisor)
    requires Inv(s) && Reaches(s, actions, t)
    ensures Inv(t)
    decreases actions
  {
    if actions != [] {
      StepKeeps(s, actions[0]);
      ReachableKeeps(Step(s, actions[0]), actions[1..], t);
    }
  }

  lemma Reachable(actions: seq<Action>, s: Supervisor)
    requires Reaches(Initial(), actions, s)
    ensures Inv(s)
  {
    assert BaseCalls(Initial()) == {};
    ReachableKeeps(Initial(), actions, s);
  }

  /**
   The lease has one user at a time. In every reachable state at most one owner holds it; while one
   does, or one is being acquired, no call uses the lease for itself; and a call that runs inside an
   owner runs while that owner holds the lease.
   */
  lemma LeaseIsExclusive(actions: seq<Action>, s: Supervisor)
    requires Reaches(Initial(), actions, s)
    ensures forall o, p :: o in s.owners && p in s.owners && s.owners[o].kernel && s.owners[p].kernel ==> o == p
    ensures (exists o :: o in s.owners && s.owners[o].kernel) || (s.phase.Some? && s.phase.value.Acquiring?) ==>
              forall id :: id in s.calls ==> !s.calls[id].InBase?
    ensures forall id :: id in s.calls && s.calls[id].InOwner? ==>
              s.calls[id].owner in s.owners && s.owners[s.calls[id].owner].kernel
    ensures s.owner.Some? ==> s.owner.value in s.owners && s.owners[s.owner.value].kernel
                              && s.owners[s.owner.value].lease.accepting
  {
    Reachable(actions, s);
    if Taken(s) {
      forall id | id in s.calls ensures !s.calls[id].InBase? {
        assert id !in BaseCalls(s);
      }
    }
  }

  /**
   Hand-over: whenever a step brings a new owner into being, every earlier owner has drained and
   released the lease, no call is using the lease in any way, and no polling run is left.
   */
  lemma HandOver(actions: seq<Action>, s: Supervisor, a: Action)
    requires Reaches(Initial(), actions, s)
    requires s.tail.promises != [] && Step(s, a).nextOwner != s.nextOwner
    ensures forall o :: o in s.owners ==> !s.owners[o].kernel && s.owners[o].callbacks == {}
    ensures forall id :: id in s.calls ==> !s.calls[id].InBase? && !s.calls[id].InOwner?
    ensures s.runs == map[] && s.polling.None?
  {
    Reachable(actions, s);
    OnlyAcquiringMakesOwners(s, a);
    LeaseIsExclusive(actions, s);
    assert forall r :: r !in s.runs;
  }

  lemma OnlyAcquiringMakesOwners(s: Supervisor, a: Action)
    requires Inv(s) && Step(s, a).nextOwner != s.nextOwner
    ensures s.phase.Some? && s.phase.value.Acquiring?
  {
    if a.Resumes? {
      assert Step(s, a) == Resume(s, a.acquired, a.built);
    }
  }

  /** At most one polling run is live; it polls under the owner of the moment, and is the one that `stopPolling` would stop. */
  lemma OnePollingRun(actions: seq<Action>, s: Supervisor)
    requires Reaches(Initial(), actions, s)
    ensures forall r :: r in s.runs ==> s.polling == Some(r) && s.owner == Some(s.runs[r].owner)
    ensures s.polling.Some? ==> s.polling.value in s.runs
    ensures |s.runs| <= 1
  {
    Reachable(actions, s);
    if s.polling.Some? {
      assert s.runs.Keys == {s.polling.value};
      assert |s.runs.Keys| == 1;
    } else {
      assert s.runs.Keys == {};
    }
  }

  /** The guard of `startPolling` against a missing owner never fires. */
  lemma PollingAlwaysHasAnOwner(actions: seq<Action>, s: Supervisor, run: Option<nat>)
    requires Reaches(Initial(), actions, s) && s.phase == Some(StoppingPolling(run, Restart))
    ensures s.owner.Some? && s.owner.value in s.owners && s.owners[s.owner.value].stage.Open?
  {
    Reachable(actions, s);
  }

  lemma QuiescingStays(s: Supervisor, a: Action)
    requires s.tail.promises != [] && s.quiescing
    ensures Step(s, a).quiescing && Step(s, a).begun == s.begun
    ensures s.quiesced.Done? ==> Step(s, a).quiesced.Done?
  {
    if a.Resumes? {
      assert Step(s, a) == Resume(s, a.acquired, a.built);
    } else if a.RunJob? {
      assert Step(s, a) == TakeJob(s, a.aborted, a.held);
    } else if IsRequest(a) || IsReturn(a) || IsEnding(a) {
    }
  }

  /** From the moment `quiesce` is called, no call starts to use the lease: neither later calls nor those still waiting. */
  lemma {:induction false} NothingBeginsAfterQuiesce(s: Supervisor, actions: seq<Action>, t: Supervisor)
    requires Inv(s) && s.quiescing && Reaches(s, actions, t)
    ensures t.quiescing && t.begun == s.begun
    ensures forall id :: id in t.calls && UsesLease(t.calls[id]) ==>
              id in s.begun && id in s.calls && !s.calls[id].Waiting?
    ensures s.quiesced.Done? ==> t.quiesced.Done?
    decreases actions
  {
    if actions != [] {
      QuiescingStays(s, actions[0]);
      StepKeeps(s, actions[0]);
      NothingBeginsAfterQuiesce(Step(s, actions[0]), actions[1..], t);
    }
  }

  /** Once `quiesce` has done its work the polling is over for good and the status says so. */
  lemma QuiescedForGood(actions: seq<Action>, s: Supervisor, more: seq<Action>, t: Supervisor)
    requires Reaches(Initial(), actions, s) && s.quiesced.Done? && Reaches(s, more, t)
    ensures t.polling.None? && t.runs == map[] && t.status.Stopped?
  {
    Reachable(actions, s);
    NothingBeginsAfterQuiesce(s, more, t);
    ReachableKeeps(s, more, t);
    assert forall r :: r !in t.runs;
  }

  /** `close` closes the database only when nothing is left of the lease: no owner, no call, no polling. */
  lemma ClosedReleasesEverything(actions: seq<Action>, s: Supervisor)
    requires Reaches(Initial(), actions, s) && s.databaseClosed
    ensures s.owner.None? && forall o :: o in s.owners ==> !s.owners[o].kernel && s.owners[o].callbacks == {}
    ensures forall id :: id in s.calls ==> !s.calls[id].InBase? && !s.calls[id].InOwner?
    ensures s.runs == map[] && s.status.Stopped?
  {
    Reachable(actions, s);
    forall id | id in s.calls ensures !s.calls[id].InBase? && !s.calls[id].InOwner? {
      assert id !in BaseCalls(s);
    }
    assert forall r :: r !in s.runs;
  }

  /** No wait is missed: the promises an operation waits for are resolved exactly when what they stand for has happened. */
  lemma NoLostWakeup(actions: seq<Action>, s: Supervisor)
    requires Reaches(Initial(), actions, s) && s.phase.Some?
    ensures s.phase.value.WaitingBase? ==>
              (s.baseDrained != Some(false) <==> forall id :: id in s.calls ==> !s.calls[id].InBase?)
    ensures forall o :: s.phase.value.ClosingOwner? && s.phase.value.owner == Some(o) ==>
              o in s.owners
              && (s.owners[o].stage.Draining? ==>
                    (Owners.Drained(s.owners[o].lease) <==> s.owners[o].callbacks == {}))
  {
    Reachable(actions, s);
    if s.baseOperations == 0 {
      assert BaseCalls(s) == {};
      assert forall id :: id in s.calls && s.calls[id].InBase? ==> id in BaseCalls(s);
    } else {
      var id :| id in BaseCalls(s);
      assert s.calls[id].InBase?;
    }
  }
}
