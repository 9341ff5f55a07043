/**
 What the supervisor does for the configuration: whenever no operation is under way, status, owner and polling
 match the configuration read last, and a refresh brings them in line with the configuration it reads.
 */
module SupervisorProgress {
  import opened Wrappers
  import Tails = PromiseTail
  import Owners = RuntimeOwner
  import opened RuntimeSupervisor
  import opened SupervisorSafety
  import opened SupervisorLiveness

  /** The configuration that was read last, when a step is made and in a whole run. */
  function Noted(s: Supervisor, a: Action, read: Option<Configuration>): Option<Configuration>
  {
    if a.ConfigurationRead? && s.phase == Some(Reading) then Some(a.answer) else read
  }

  function ReadLast(s: Supervisor, actions: seq<Action>, read: Option<Configuration>): Option<Configuration>
    decreases actions
  {
    if actions == [] || s.tail.promises == [] then read
    else ReadLast(Step(s, actions[0]), actions[1..], Noted(s, actions[0], read))
  }

  /** The current polling run goes on: nobody has stopped it, and it has not reported its end. */
  predicate Polls(s: Supervisor)
  {
    && s.polling.Some? && s.polling.value in s.runs
    && !s.runs[s.polling.value].aborted && !s.runs[s.polling.value].reported
  }

  predicate Up(s: Supervisor, key: string)
  {
    s.status.Running? && s.ownerKey == Some(key) && Polls(s)
  }

  predicate Down(s: Supervisor)
  {
    s.status.NotConfigured? && s.ownerKey.None? && s.polling.None?
  }

  predicate Matches(s: Supervisor, read: Option<Configuration>)
  {
    if read.None? || read.value.NoUser? then Down(s) else read.value.User? && Up(s, read.value.key)
  }

  predicate Idle(phase: Option<Phase>)
  {
    phase.None? || phase.value.Ended?
  }

  predicate Unaborted(s: Supervisor)
  {
    s.polling.Some? && s.polling.value in s.runs ==> !s.runs[s.polling.value].aborted
  }

  /** What an operation is doing is what the configuration asks for. */
  predicate Fits(s: Supervisor, read: Option<Configuration>)
  {
    if Idle(s.phase) then Unaborted(s) && (s.status.Attention? || Matches(s, read))
    else
      match s.phase.value
      case Reading => Unaborted(s)
      case StoppingPolling(_, after) =>
        (match after
         case Disable => read == Some(NoUser)
         case Replace(key) => read == Some(User(key))
         case Restart => read.Some? && read.value.User? && s.ownerKey == Some(read.value.key)
         case Stops => false)
      case ClosingOwner(_, after) =>
        (match after
         case Disabled => read == Some(NoUser)
         case Replaced(key) => read == Some(User(key))
         case DatabaseCloses => false)
      case WaitingBase(after) => after.Acquires? && read == Some(User(after.key))
      case Acquiring(key) => read == Some(User(key))
      case Ended => true
  }

  // Every step keeps the fit

  lemma FitsFailed(s: Supervisor, read: Option<Configuration>)
    requires !s.quiescing && Unaborted(s)
    ensures Fits(Fail(s), read)
  {
  }

  lemma FitsRead(s: Supervisor, answer: Configuration)
    requires !s.quiescing && s.phase == Some(Reading) && Fits(s, None)
    ensures Fits(ReadConfiguration(s, answer), Some(answer))
  {
    match answer
    case ReadFails => FitsFailed(s, Some(answer));
    case NoUser => StopPollingFrame(s, Disable);
    case User(key) => StopPollingFrame(s, if s.ownerKey == Some(key) then Restart else Replace(key));
  }

  lemma FitsStarted(s: Supervisor, key: string, built: bool)
    requires !s.quiescing && s.owner.Some? && s.ownerKey == Some(key) && s.polling.None?
    ensures Fits(StartPolling(s, built), Some(User(key)))
    ensures built ==> Up(StartPolling(s, built), key)
  {
  }

  lemma FitsPolled(s: Supervisor, run: Option<nat>, after: AfterStop, built: bool, read: Option<Configuration>)
    requires Inv(s) && !s.quiescing && s.phase == Some(StoppingPolling(run, after)) && Fits(s, read)
    requires !(run.Some? && run.value in s.runs)
    ensures Fits(AfterPolling(s, run, after, built), read)
    ensures after.Restart? && built ==> Up(AfterPolling(s, run, after, built), read.value.key)
  {
    assert s.polling.None?;
    match after
    case Disable => ClosingRank(s, Disabled);
    case Replace(key) => ClosingRank(s, Replaced(key));
    case Restart => FitsStarted(s, read.value.key, built);
    case Stops =>
  }

  lemma FitsClosed(s: Supervisor, o: Option<nat>, after: AfterOwner, clean: bool, read: Option<Configuration>)
    requires Inv(s) && !s.quiescing && s.phase == Some(ClosingOwner(o, after)) && Fits(s, read)
    ensures Fits(AfterClosing(s, after, clean), read)
  {
    assert s.polling.None? && s.ownerKey.None?;
  }

  lemma FitsDrained(s: Supervisor, after: AfterBase, read: Option<Configuration>)
    requires Inv(s) && !s.quiescing && s.phase == Some(WaitingBase(after)) && Fits(s, read)
    ensures Fits(AfterDraining(s, after), read) && AfterDraining(s, after).phase == Some(Acquiring(after.key))
  {
  }

  lemma FitsAcquired(s: Supervisor, key: string, acquired: bool, built: bool, read: Option<Configuration>)
    requires Inv(s) && !s.quiescing && s.phase == Some(Acquiring(key)) && Fits(s, read)
    ensures Fits(AfterAcquiring(s, key, acquired, built), read)
    ensures acquired && built ==> Up(AfterAcquiring(s, key, acquired, built), key)
  {
    assert s.polling.None?;
    if acquired {
      FitsStarted(s.(owners := s.owners[s.nextOwner := Owners.Acquired(key)], owner := Some(s.nextOwner),
                     ownerKey := Some(key), nextOwner := s.nextOwner + 1), key, built);
    } else {
      FitsFailed(s, read);
    }
  }

  lemma FitsResumed(s: Supervisor, acquired: bool, built: bool, read: Option<Configuration>)
    requires Inv(s) && !s.quiescing && Fits(s, read)
    ensures Fits(Resume(s, acquired, built), read)
  {
    if Resume(s, acquired, built) != s {
      match s.phase.value
      case StoppingPolling(run, after) => FitsPolled(s, run, after, built, read);
      case ClosingOwner(o, after) =>
        FitsClosed(s, o, after, true, read);
        FitsClosed(s, o, after, false, read);
      case WaitingBase(after) => FitsDrained(s, after, read);
      case Acquiring(key) => FitsAcquired(s, key, acquired, built, read);
      case _ =>
    }
  }

  /** Of what the fit is made. */
  predicate SameFit(s: Supervisor, t: Supervisor)
  {
    && t.phase == s.phase && t.ownerKey == s.ownerKey && t.polling == s.polling && t.runs == s.runs
    && t.status == s.status
  }

  lemma SameFits(s: Supervisor, t: Supervisor, read: Option<Configuration>)
    requires SameFit(s, t) && Fits(s, read)
    ensures Fits(t, read)
  {
  }

  lemma ContinueSame(s: Supervisor, id: nat, aborted: bool, held: bool)
    ensures SameFit(s, ContinueCall(s, id, aborted, held))
  {
  }

  /** While nobody has asked to quiesce, the only operations are refreshes. */
  lemma OnlyRefreshes(s: Supervisor)
    requires Inv(s) && !s.quiescing && s.tail.jobs != [] && s.tail.jobs[0].Starts?
    ensures s.tail.jobs[0].operation.Refreshes?
  {
    HeadArrived(s);
  }

  lemma JobTaken(s: Supervisor, aborted: bool, held: bool)
    requires Inv(s) && !s.quiescing && s.tail.jobs != []
    ensures var t := TakeJob(s, aborted, held);
            && s.phase.None?
            && (if s.tail.jobs[0].Starts?
                then SameFit(s.(phase := Some(Reading), status := Starting), t) else SameFit(s, t))
  {
    Tails.TakeKeeps(s.tail);
    var u := s.(tail := Tails.Take(s.tail));
    match s.tail.jobs[0]
    case Continues(id) =>
      assert TakeJob(s, aborted, held) == ContinueCall(u, id, aborted, held);
      ContinueSame(u, id, aborted, held);
    case Starts(_, operation) => OnlyRefreshes(s);
  }

  lemma FitsJob(s: Supervisor, aborted: bool, held: bool, read: Option<Configuration>)
    requires Inv(s) && !s.quiescing && Fits(s, read) && s.tail.jobs != []
    ensures Fits(TakeJob(s, aborted, held), read)
  {
    JobTaken(s, aborted, held);
    if !s.tail.jobs[0].Starts? {
      SameFits(s, TakeJob(s, aborted, held), read);
    }
  }

  lemma FitsEnding(s: Supervisor, a: Action, read: Option<Configuration>)
    requires Inv(s) && Fits(s, read) && (a.PollingEnds? || a.PollingSettles?)
    ensures Fits(Step(s, a), read)
  {
    if a.run in s.runs {
      assert s.polling == Some(a.run);
    }
  }

  lemma QueuedSame(s: Supervisor, operation: Operation, closing: Closure)
    requires s.tail.promises != []
    ensures SameFit(s, Enqueue(s.(closing := closing), operation))
  {
  }

  lemma WaitingSame(s: Supervisor, key: string, wellFormed: bool)
    requires s.tail.promises != []
    ensures SameFit(s, Await(s, key, wellFormed))
  {
  }

  lemma QuiesceQuiesces(s: Supervisor)
    requires s.tail.promises != []
    ensures Quiesce(s).quiescing
  {
  }

  lemma RequestsSame(s: Supervisor, a: Action)
    requires s.tail.promises != [] && !Step(s, a).quiescing && IsRequest(a)
    ensures SameFit(s, Step(s, a))
  {
    match a
    case CallWithLease(key, wellFormed) => WaitingSame(s, key, wellFormed);
    case CallRefresh => QueuedSame(s, Refreshes, s.closing);
    case CallQuiesce => QuiesceQuiesces(s);
    case CallClose => QuiesceQuiesces(s.(closing := AwaitsQuiescence));
    case CloseGoesOn => QueuedSame(s, Operation.Closes, Queued);
  }

  lemma ReturnsSame(s: Supervisor, a: Action)
    requires s.tail.promises != [] && (IsReturn(a) || a.OwnerDrains? || a.OwnerReleases?)
    ensures SameFit(s, Step(s, a))
  {
  }

  lemma FitsSettled(s: Supervisor, read: Option<Configuration>)
    requires Fits(s, read)
    ensures Fits(SettleOperation(s), read)
  {
  }

  lemma FitsStep(s: Supervisor, a: Action, read: Option<Configuration>)
    requires Inv(s) && !s.quiescing && !Step(s, a).quiescing && Fits(s, read)
    ensures Fits(Step(s, a), Noted(s, a, read))
  {
    if a.ConfigurationRead? {
      if s.phase == Some(Reading) {
        FitsRead(s, a.answer);
      }
    } else if a.Resumes? {
      FitsResumed(s, a.acquired, a.built, read);
    } else if a.RunJob? {
      if s.tail.jobs != [] {
        FitsJob(s, a.aborted, a.held, read);
      }
    } else if a.PollingEnds? || a.PollingSettles? {
      FitsEnding(s, a, read);
    } else if a.OperationSettles? {
      FitsSettled(s, read);
    } else {
      if IsRequest(a) {
        RequestsSame(s, a);
      } else {
        ReturnsSame(s, a);
      }
      SameFits(s, Step(s, a), read);
    }
  }

  lemma NotYetQuiescing(s: Supervisor, a: Action)
    requires s.tail.promises != [] && !Step(s, a).quiescing
    ensures !s.quiescing
  {
    if s.quiescing {
      QuiescingStays(s, a);
    }
  }

  lemma {:induction false} NeverQuiesced(s: Supervisor, actions: seq<Action>, t: Supervisor)
    requires Reaches(s, actions, t) && !t.quiescing
    ensures !s.quiescing
    decreases actions
  {
    if actions != [] {
      NeverQuiesced(Step(s, actions[0]), actions[1..], t);
      NotYetQuiescing(s, actions[0]);
    }
  }

  lemma {:induction false} FitsRun(s: Supervisor, actions: seq<Action>, t: Supervisor, read: Option<Configuration>)
    requires Inv(s) && Reaches(s, actions, t) && !t.quiescing && Fits(s, read)
    ensures Fits(t, ReadLast(s, actions, read))
    decreases actions
  {
    if actions != [] {
      NeverQuiesced(s, actions, t);
      NeverQuiesced(Step(s, actions[0]), actions[1..], t);
      StepKeeps(s, actions[0]);
      FitsStep(s, actions[0], read);
      FitsRun(Step(s, actions[0]), actions[1..], t, Noted(s, actions[0], read));
    }
  }

  lemma InitialFits()
    ensures Inv(Initial()) && Fits(Initial(), None)
  {
    assert BaseCalls(Initial()) == {};
  }

  lemma ReachedFits(actions: seq<Action>, s: Supervisor)
    requires Reaches(Initial(), actions, s) && !s.quiescing
    ensures Inv(s) && Fits(s, ReadLast(Initial(), actions, None))
  {
    InitialFits();
    ReachableKeeps(Initial(), actions, s);
    FitsRun(Initial(), actions, s, None);
  }

  /** The owner of the moment has the lease, for this configuration. */
  predicate Owned(s: Supervisor, key: string)
  {
    && s.owner.Some? && s.owner.value in s.owners && s.owners[s.owner.value].stage.Open?
    && s.owners[s.owner.value].kernel && s.owners[s.owner.value].lease.key == key
  }

  lemma UpIsOwned(s: Supervisor, key: string)
    requires Inv(s) && Up(s, key)
    ensures Owned(s, key) && s.runs[s.polling.value].owner == s.owner.value
  {
    assert Owners.Inv(s.owners[s.owner.value]);
  }

  /**
   In every run in which nobody has asked to quiesce, whenever no operation is under way: either the status calls
   for attention, or it is what the configuration read last asks for. For a configured user a single owner holds
   the lease for exactly that configuration and the current polling run goes on under it; without one
   there is no owner and no polling.
   */
  lemma MatchesConfiguration(actions: seq<Action>, s: Supervisor)
    requires Reaches(Initial(), actions, s) && s.phase.None? && !s.quiescing
    ensures var read := ReadLast(Initial(), actions, None);
            && (s.status.Attention? || Matches(s, read))
            && (Matches(s, read) && read.Some? && read.value.User? ==>
                  Owned(s, read.value.key) && s.runs[s.polling.value].owner == s.owner.value)
            && (Matches(s, read) && !(read.Some? && read.value.User?) ==> s.owner.None? && s.runs == map[])
  {
    ReachedFits(actions, s);
    var read := ReadLast(Initial(), actions, None);
    if Matches(s, read) {
      if read.Some? && read.value.User? {
        UpIsOwned(s, read.value.key);
      } else {
        assert forall r :: r !in s.runs;
      }
    }
  }

  // A refresh

  /** The owner that an operation closes has not failed to release the lease. */
  predicate ReleasesCleanly(s: Supervisor)
  {
    s.phase.Some? && s.phase.value.ClosingOwner? && s.phase.value.owner.Some? && s.phase.value.owner.value in s.owners ==>
      s.owners[s.phase.value.owner.value].stage != Owners.Closed(false)
  }

  /** A refresh has read this configuration, and nothing has failed since. */
  predicate Serves(s: Supervisor, key: string)
  {
    && s.phase != Some(Reading) && Fits(s, Some(User(key))) && ReleasesCleanly(s)
    && (Idle(s.phase) ==> Up(s, key))
  }

  /** A refresh is going to read the configuration, or has read it. */
  ghost predicate Refreshing(s: Supervisor, key: string)
  {
    Awaited(s.tail, Refreshes) || s.phase == Some(Reading) || Serves(s, key)
  }

  lemma ServesRead(s: Supervisor, key: string)
    requires !s.quiescing && s.phase == Some(Reading) && Unaborted(s)
    ensures Serves(ReadConfiguration(s, User(key)), key)
  {
    FitsRead(s, User(key));
    StopPollingFrame(s, if s.ownerKey == Some(key) then Restart else Replace(key));
  }

  lemma ServesPolled(s: Supervisor, run: Option<nat>, after: AfterStop, key: string)
    requires Inv(s) && !s.quiescing && s.phase == Some(StoppingPolling(run, after)) && Serves(s, key)
    requires !(run.Some? && run.value in s.runs)
    ensures Serves(AfterPolling(s, run, after, true), key)
  {
    FitsPolled(s, run, after, true, Some(User(key)));
    if after.Replace? {
      ReplacedCloses(s, key);
    }
  }

  lemma ReplacedCloses(s: Supervisor, key: string)
    requires Inv(s) && s.phase.Some? && s.phase.value.StoppingPolling?
    ensures CloseOwner(s, Replaced(key)).phase == Some(ClosingOwner(s.owner, Replaced(key)))
    ensures ReleasesCleanly(CloseOwner(s, Replaced(key)))
  {
    if s.owner.Some? {
      assert Owners.Inv(s.owners[s.owner.value]);
      assert CloseOwner(s, Replaced(key)).owners[s.owner.value] == Owners.Close(s.owners[s.owner.value]);
    }
  }

  lemma ServesClosed(s: Supervisor, o: Option<nat>, after: AfterOwner, key: string)
    requires Inv(s) && !s.quiescing && s.phase == Some(ClosingOwner(o, after)) && Serves(s, key)
    ensures Serves(AfterClosing(s, after, true), key)
  {
    FitsClosed(s, o, after, true, Some(User(key)));
    assert AfterClosing(s, after, true) == WaitForBase(s, Acquires(key));
  }

  lemma ServesResumed(s: Supervisor, key: string)
    requires Inv(s) && !s.quiescing && Serves(s, key)
    ensures Serves(Resume(s, true, true), key)
  {
    if Resume(s, true, true) != s {
      match s.phase.value
      case StoppingPolling(run, after) => ServesPolled(s, run, after, key);
      case ClosingOwner(o, after) => ServesClosed(s, o, after, key);
      case WaitingBase(after) => FitsDrained(s, after, Some(User(key)));
      case Acquiring(_) => FitsAcquired(s, key, true, true, Some(User(key)));
      case _ =>
    }
  }

  lemma ServesMoved(s: Supervisor, o: nat, m: Owners.Move, key: string)
    requires Inv(s) && Serves(s, key) && (m.Drains? || m == Owners.Releases(true))
    ensures Serves(MoveOwner(s, o, m), key)
  {
    SameFits(s, MoveOwner(s, o, m), Some(User(key)));
  }

  lemma ServesEnding(s: Supervisor, a: Action, key: string)
    requires Inv(s) && Serves(s, key) && Works(s, a) && (a.PollingEnds? || a.PollingSettles?)
    ensures Serves(Step(s, a), key)
  {
    FitsEnding(s, a, Some(User(key)));
    if a.run in s.runs {
      assert s.polling == Some(a.run);
    }
  }

  lemma ServesReturn(s: Supervisor, a: Action, key: string)
    requires Inv(s) && Serves(s, key) && IsReturn(a)
    ensures Serves(Step(s, a), key)
  {
    SameFits(s, Step(s, a), Some(User(key)));
  }

  /** Everything but the jobs of the queue. */
  lemma ServesStep(s: Supervisor, a: Action, key: string)
    requires Inv(s) && !s.quiescing && Serves(s, key) && Works(s, a) && Smooth(a, key) && !a.RunJob?
    ensures Serves(Step(s, a), key)
  {
    match a
    case BaseReturns(_) => ServesReturn(s, a, key);
    case OwnerReturns(_) => ServesReturn(s, a, key);
    case PollingEnds(_, _) => ServesEnding(s, a, key);
    case PollingSettles(_) => ServesEnding(s, a, key);
    case OwnerDrains(o) => ServesMoved(s, o, Owners.Drains, key);
    case OwnerReleases(o, clean) => ServesMoved(s, o, Owners.Releases(clean), key);
    case Resumes(_, _) => ServesResumed(s, key);
    case OperationSettles => FitsSettled(s, Some(User(key)));
    case _ =>
  }

  lemma RefreshingJob(s: Supervisor, aborted: bool, held: bool, key: string)
    requires Inv(s) && !s.quiescing && Refreshing(s, key) && s.tail.jobs != []
    ensures Refreshing(TakeJob(s, aborted, held), key)
  {
    JobTaken(s, aborted, held);
    if !s.tail.jobs[0].Starts? {
      TakenTail(s, aborted, held);
      if Awaited(s.tail, Refreshes) {
        AwaitedTaken(s, Refreshes);
      } else {
        SameFits(s, TakeJob(s, aborted, held), Some(User(key)));
      }
    }
  }

  /** What goes on with what is under way leaves the line alone, but for the jobs. */
  lemma WorkLeavesLine(s: Supervisor, a: Action)
    requires Inv(s) && !s.quiescing && Works(s, a) && !a.RunJob?
    ensures Step(s, a).tail.begun == s.tail.begun && Step(s, a).tail.arrived == s.tail.arrived
    ensures !Step(s, a).quiescing
    ensures s.phase == Some(Reading) && !a.ConfigurationRead? ==> Step(s, a).phase == Some(Reading)
  {
  }

  lemma RefreshingStep(s: Supervisor, a: Action, key: string, read: Option<Configuration>)
    requires Inv(s) && !s.quiescing && Fits(s, read) && Refreshing(s, key) && Works(s, a) && Smooth(a, key)
    ensures Refreshing(Step(s, a), key) && !Step(s, a).quiescing
  {
    if a.RunJob? {
      if s.tail.jobs != [] {
        RefreshingJob(s, a.aborted, a.held, key);
      }
    } else {
      WorkLeavesLine(s, a);
      if Awaited(s.tail, Refreshes) {
        AwaitedStays(s.tail, Step(s, a).tail, Refreshes);
      } else if s.phase == Some(Reading) {
        if a.ConfigurationRead? {
          ServesRead(s, key);
        }
      } else {
        ServesStep(s, a, key);
      }
    }
  }

  lemma {:induction false} RefreshingRun(
    s: Supervisor, actions: seq<Action>, t: Supervisor, key: string, read: Option<Configuration>)
    requires Inv(s) && !s.quiescing && Fits(s, read) && Refreshing(s, key)
    requires AllWork(s, actions) && AllSmooth(actions, key) && Reaches(s, actions, t)
    ensures Inv(t) && Refreshing(t, key)
    decreases actions
  {
    if actions != [] {
      assert Smooth(actions[0], key);
      StepKeeps(s, actions[0]);
      RefreshingStep(s, actions[0], key, read);
      FitsStep(s, actions[0], read);
      RefreshingRun(Step(s, actions[0]), actions[1..], t, key, Noted(s, actions[0], read));
    }
  }

  lemma RefreshCalled(s: Supervisor, key: string, read: Option<Configuration>)
    requires Inv(s) && !s.quiescing && Fits(s, read)
    ensures var t := Step(s, CallRefresh);
            Inv(t) && !t.quiescing && Fits(t, read) && Refreshing(t, key)
  {
    StepKeeps(s, CallRefresh);
    LineIsLong(s);
    EnqueuedLine(s.tail, Refreshes);
    SameFits(s, Step(s, CallRefresh), read);
  }

  lemma RefreshedSettled(t: Supervisor, key: string)
    requires Inv(t) && Refreshing(t, key) && Settled(t)
    ensures Up(t, key) && Owned(t, key) && t.runs[t.polling.value].owner == t.owner.value
  {
    assert Rests(t, key);
    NothingRuns(t, key);
    LineIsDone(t);
    assert forall i :: !AwaitedAt(t.tail, i, Refreshes);
    UpIsOwned(t, key);
  }

  /**
   A refresh takes effect: called in any reachable state before quiesce, whatever is queued before it or under way,
   once everything is worked off without a failure and with `key` configured, an owner holds the lease for
   exactly that configuration, a polling run goes on under it, and the status says so.
   */
  lemma RefreshTakesEffect(before: seq<Action>, s: Supervisor, key: string, more: seq<Action>, t: Supervisor)
    requires Reaches(Initial(), before, s) && !s.quiescing && s.tail.promises != []
    requires var called := Step(s, CallRefresh);
             AllWork(called, more) && AllSmooth(more, key) && Reaches(called, more, t)
    requires t.tail.promises != [] && Settled(t)
    ensures Up(t, key) && Owned(t, key) && t.runs[t.polling.value].owner == t.owner.value
  {
    ReachedFits(before, s);
    var read := ReadLast(Initial(), before, None);
    RefreshCalled(s, key, read);
    RefreshingRun(Step(s, CallRefresh), more, t, key, read);
    RefreshedSettled(t, key);
  }

  /** And from every such state everything can be worked off in that way. */
  lemma RefreshCanTakeEffect(before: seq<Action>, s: Supervisor, key: string) returns (more: seq<Action>, t: Supervisor)
    requires Reaches(Initial(), before, s) && !s.quiescing && s.tail.promises != []
    ensures var called := Step(s, CallRefresh);
            AllWork(called, more) && AllSmooth(more, key) && Reaches(called, more, t)
    ensures t.tail.promises != [] && Settled(t) && Up(t, key)
  {
    Reachable(before, s);
    StepKeeps(s, CallRefresh);
    more, t := WorksOff(Step(s, CallRefresh), key);
    RefreshTakesEffect(before, s, key, more, t);
  }
}
