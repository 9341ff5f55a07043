/**
 That the supervisor never gets stuck. What is under way can always be worked off: every useful step
 lowers a rank, so working it off ends, and where nothing useful is left to do everything queued has run
 and a close that was asked for has closed the database.
 */
module SupervisorLiveness {
  import opened Wrappers
  import Tails = PromiseTail
  import Owners = RuntimeOwner
  import opened RuntimeSupervisor
  import opened SupervisorSafety

  /**
   The steps that only go on with what is under way: jobs run, operations go on, callers give the lease
   back, aborted polling runs end. Nobody asks for anything new, and nobody stops a polling run.
   */
  predicate Works(s: Supervisor, a: Action)
  {
    match a
    case CallWithLease(_, _) => false
    case CallRefresh => false
    case CallQuiesce => false
    case CallClose => false
    case PollingEnds(run, _) => run in s.runs && s.runs[run].aborted
    case _ => true
  }

  // Every useful step lowers the rank

  function UsingCalls(s: Supervisor): set<nat>
  {
    set id | id in s.calls && UsesLease(s.calls[id])
  }

  function PhaseRank(phase: Option<Phase>): nat
  {
    if phase.None? then 0
    else
      match phase.value
      case Reading => 6
      case StoppingPolling(_, _) => 5
      case ClosingOwner(_, after) => if after.DatabaseCloses? then 2 else 4
      case WaitingBase(_) => 3
      case Acquiring(_) => 2
      case Ended => 1
  }

  function RunWeight(s: Supervisor): nat
  {
    if s.polling.Some? && s.polling.value in s.runs then (if s.runs[s.polling.value].reported then 1 else 2) else 0
  }

  function OwnerWeight(s: Supervisor): nat
  {
    if s.phase.Some? && s.phase.value.ClosingOwner? && s.phase.value.owner.Some?
       && s.phase.value.owner.value in s.owners
    then
      match s.owners[s.phase.value.owner.value].stage
      case Open => 0
      case Draining => 2
      case Stopping => 1
      case Closed(_) => 0
    else 0
  }

  function Outstanding(s: Supervisor): nat
  {
    |UsingCalls(s)| + RunWeight(s) + OwnerWeight(s)
  }

  /** A close that waits for quiescence, the reactions that have not run, the phase, and what it may wait for. */
  datatype Rank = Rank(closing: nat, line: int, phase: nat, outstanding: nat)

  function RankOf(s: Supervisor): Rank
  {
    Rank(if s.closing.AwaitsQuiescence? then 1 else 0,
         |s.tail.arrived| - |s.tail.begun|,
         PhaseRank(s.phase),
         Outstanding(s))
  }

  predicate Lower(a: Rank, b: Rank)
  {
    || a.closing < b.closing
    || (a.closing == b.closing && a.line < b.line)
    || (a.closing == b.closing && a.line == b.line && a.phase < b.phase)
    || (a.closing == b.closing && a.line == b.line && a.phase == b.phase && a.outstanding < b.outstanding)
  }

  lemma LineIsLong(s: Supervisor)
    requires LineInv(s)
    ensures |s.tail.begun| + |s.tail.jobs| <= |s.tail.arrived|
    ensures s.tail.jobs != [] ==> s.tail.arrived[|s.tail.begun|] == s.tail.jobs[0]
  {
    var all := s.tail.begun + (s.tail.jobs + Tails.Registered(s.tail.promises));
    assert |all| == |s.tail.arrived|;
    if s.tail.jobs != [] {
      assert all[|s.tail.begun|] == s.tail.jobs[0];
    }
  }

  lemma TakenTail(s: Supervisor, aborted: bool, held: bool)
    requires s.tail.jobs != []
    ensures var t := TakeJob(s, aborted, held);
            t.tail == Tails.Take(s.tail) && t.closing == s.closing && t.databaseClosed == s.databaseClosed
  {
    var u := s.(tail := Tails.Take(s.tail));
    match s.tail.jobs[0]
    case Continues(id) => assert TakeJob(s, aborted, held) == ContinueCall(u, id, aborted, held);
    case Starts(_, operation) => assert TakeJob(s, aborted, held) == StartOperation(u, operation);
  }

  lemma JobLowers(s: Supervisor, aborted: bool, held: bool)
    requires s.tail.jobs != []
    ensures Lower(RankOf(TakeJob(s, aborted, held)), RankOf(s))
  {
    TakenTail(s, aborted, held);
  }

  lemma ReadingLowers(s: Supervisor, answer: Configuration)
    requires s.phase == Some(Reading)
    ensures Lower(RankOf(ReadConfiguration(s, answer)), RankOf(s))
  {
  }

  lemma AfterPollingRank(s: Supervisor, run: Option<nat>, after: AfterStop, built: bool)
    ensures PhaseRank(AfterPolling(s, run, after, built).phase) < 5
  {
    var t := if run.Some? && s.polling == run then s.(polling := None) else s;
    match after
    case Disable => ClosingRank(t, Disabled);
    case Replace(key) => ClosingRank(t, Replaced(key));
    case Restart => assert StartPolling(t, built).phase == Some(Ended);
    case Stops =>
  }

  lemma ClosingRank(s: Supervisor, after: AfterOwner)
    ensures CloseOwner(s, after).phase == Some(ClosingOwner(s.owner, after))
  {
  }

  lemma AfterClosingRank(s: Supervisor, after: AfterOwner, clean: bool)
    ensures PhaseRank(AfterClosing(s, after, clean).phase) < if after.DatabaseCloses? then 2 else 4
  {
  }

  lemma AfterDrainingRank(s: Supervisor, after: AfterBase)
    ensures PhaseRank(AfterDraining(s, after).phase) < 3
  {
  }

  lemma ResumeLowers(s: Supervisor, acquired: bool, built: bool)
    requires Resume(s, acquired, built) != s
    ensures Lower(RankOf(Resume(s, acquired, built)), RankOf(s))
  {
    var t := Resume(s, acquired, built);
    match s.phase.value
    case StoppingPolling(run, after) => AfterPollingRank(s, run, after, built);
    case ClosingOwner(_, after) =>
      AfterClosingRank(s, after, true);
      AfterClosingRank(s, after, false);
    case WaitingBase(after) => AfterDrainingRank(s, after);
    case Acquiring(key) => assert PhaseRank(AfterAcquiring(s, key, acquired, built).phase) == 1;
    case _ =>
  }

  lemma FewerCalls(s: Supervisor, t: Supervisor, id: nat)
    requires id in s.calls && UsesLease(s.calls[id]) && t.calls == s.calls[id := Over]
    ensures |UsingCalls(t)| < |UsingCalls(s)|
  {
    assert UsingCalls(t) == UsingCalls(s) - {id};
  }

  lemma ReturnLowers(s: Supervisor, a: Action)
    requires IsReturn(a) && s.tail.promises != [] && Step(s, a) != s
    ensures Lower(RankOf(Step(s, a)), RankOf(s))
  {
    FewerCalls(s, Step(s, a), a.id);
  }

  lemma SameCalls(s: Supervisor, t: Supervisor)
    requires t.calls == s.calls
    ensures UsingCalls(t) == UsingCalls(s)
  {
  }

  lemma PollingLowers(s: Supervisor, a: Action)
    requires Inv(s) && (a.PollingEnds? || a.PollingSettles?) && Step(s, a) != s
    ensures Lower(RankOf(Step(s, a)), RankOf(s))
  {
    SameCalls(s, Step(s, a));
    assert s.polling == Some(a.run);
  }

  /** An owner that drains or releases is the one that the running operation closes. */
  lemma OwnerLowers(s: Supervisor, a: Action)
    requires Inv(s) && (a.OwnerDrains? || a.OwnerReleases?) && Step(s, a) != s
    ensures Lower(RankOf(Step(s, a)), RankOf(s))
  {
    var t := Step(s, a);
    SameCalls(s, t);
    assert Owners.Inv(s.owners[a.owner]);
    assert s.owners[a.owner].kernel && !s.owners[a.owner].stage.Open?;
    assert SupervisorSafety.Closes(s, a.owner);
    assert OwnerWeight(t) < OwnerWeight(s);
  }

  lemma SettlingLowers(s: Supervisor)
    requires SettleOperation(s) != s
    ensures Lower(RankOf(SettleOperation(s)), RankOf(s))
  {
  }

  /** Whatever is done in whatever order, every step that changes anything lowers the rank. */
  lemma WorkLowers(actions: seq<Action>, s: Supervisor, a: Action)
    requires Reaches(Initial(), actions, s) && s.tail.promises != [] && Works(s, a) && Step(s, a) != s
    ensures Lower(RankOf(Step(s, a)), RankOf(s)) && RankOf(Step(s, a)).line >= 0
  {
    Reachable(actions, s);
    StepKeeps(s, a);
    LineIsLong(Step(s, a));
    WorkLowersRank(s, a);
  }

  lemma WorkLowersRank(s: Supervisor, a: Action)
    requires Inv(s) && Works(s, a) && Step(s, a) != s
    ensures Lower(RankOf(Step(s, a)), RankOf(s))
  {
    match a
    case CloseGoesOn =>
    case RunJob(aborted, held) => JobLowers(s, aborted, held);
    case BaseReturns(_) => ReturnLowers(s, a);
    case OwnerReturns(_) => ReturnLowers(s, a);
    case ConfigurationRead(answer) => ReadingLowers(s, answer);
    case PollingEnds(_, _) => PollingLowers(s, a);
    case PollingSettles(_) => PollingLowers(s, a);
    case OwnerDrains(_) => OwnerLowers(s, a);
    case OwnerReleases(_, _) => OwnerLowers(s, a);
    case Resumes(acquired, built) => ResumeLowers(s, acquired, built);
    case OperationSettles => SettlingLowers(s);
  }

  // What is left where nothing useful can be done

  /** The steps among them in which nothing fails: `user` is configured, and what is asked of others succeeds. */
  predicate Smooth(a: Action, user: string)
  {
    match a
    case ConfigurationRead(answer) => answer == User(user)
    case OwnerReleases(_, clean) => clean
    case Resumes(acquired, built) => acquired && built
    case _ => true
  }

  /** No step that goes on with what is under way changes anything. */
  ghost predicate Settled(s: Supervisor)
    requires s.tail.promises != []
  {
    forall a :: Works(s, a) ==> Step(s, a) == s
  }

  /** No such step changes anything in which nothing fails. */
  ghost predicate Rests(s: Supervisor, user: string)
    requires s.tail.promises != []
  {
    forall a :: Works(s, a) && Smooth(a, user) ==> Step(s, a) == s
  }

  // What is under way can go on

  lemma EndedMoves(s: Supervisor)
    requires Inv(s)
    ensures s.phase == Some(Ended) ==> Step(s, OperationSettles) != s
  {
    if s.phase == Some(Ended) {
      assert Step(s, OperationSettles).phase.None?;
    }
  }

  lemma RunMoves(s: Supervisor, run: nat)
    requires Inv(s) && run in s.runs
    ensures Step(s, if s.runs[run].reported then PollingSettles(run) else PollingEnds(run, RestartHost)) != s
  {
    if s.runs[run].reported {
      assert run !in SettlePolling(s, run).runs;
    } else {
      assert EndPolling(s, run, RestartHost).runs[run].reported;
    }
  }

  lemma UseMoves(s: Supervisor, id: nat)
    requires Inv(s) && id in s.calls
    ensures s.calls[id].InBase? ==> Step(s, BaseReturns(id)) != s
    ensures s.calls[id].InOwner? ==> Step(s, OwnerReturns(id)) != s
  {
    if s.calls[id].InBase? {
      assert ReturnFromBase(s, id).calls[id] == Over;
    } else if s.calls[id].InOwner? {
      assert ReturnFromOwner(s, id).calls[id] == Over;
    }
  }

  lemma OwnerMoves(s: Supervisor, o: nat)
    requires Inv(s) && o in s.owners
    ensures s.owners[o].stage.Draining? && s.owners[o].callbacks == {} ==> Step(s, OwnerDrains(o)) != s
    ensures s.owners[o].stage.Stopping? ==> Step(s, OwnerReleases(o, true)) != s
  {
    assert Owners.Inv(s.owners[o]);
    if s.owners[o].stage.Draining? && s.owners[o].callbacks == {} {
      assert MoveOwner(s, o, Owners.Drains).owners[o].stage.Stopping?;
    } else if s.owners[o].stage.Stopping? {
      assert MoveOwner(s, o, Owners.Releases(true)).owners[o].stage.Closed?;
    }
  }

  lemma JobMoves(s: Supervisor)
    requires Inv(s)
    ensures s.tail.jobs != [] ==> Step(s, RunJob(false, true)) != s
  {
    if s.tail.jobs != [] {
      TakenTail(s, false, true);
      assert |Tails.Take(s.tail).jobs| < |s.tail.jobs|;
    }
  }

  // What is left where nothing can

  lemma NotEnded(s: Supervisor, user: string)
    requires Inv(s) && Rests(s, user)
    ensures s.phase != Some(Ended)
  {
    assert Works(s, OperationSettles);
    EndedMoves(s);
  }

  lemma NotReading(s: Supervisor, user: string)
    requires Inv(s) && Rests(s, user)
    ensures s.phase != Some(Reading)
  {
    assert Works(s, ConfigurationRead(User(user)));
  }

  lemma NoAbortedRun(s: Supervisor, user: string, run: nat)
    requires Inv(s) && Rests(s, user) && run in s.runs
    ensures !s.runs[run].aborted
  {
    assert Works(s, PollingSettles(run));
    assert s.runs[run].aborted ==> Works(s, PollingEnds(run, RestartHost));
    RunMoves(s, run);
  }

  lemma NotStopping(s: Supervisor, user: string)
    requires Inv(s) && Rests(s, user)
    ensures s.phase.Some? ==> !s.phase.value.StoppingPolling?
  {
    assert Works(s, Resumes(true, true));
    if s.phase.Some? && s.phase.value.StoppingPolling? {
      var run := s.phase.value.run;
      if run.Some? && run.value in s.runs {
        NoAbortedRun(s, user, run.value);
      } else {
        AfterPollingRank(s, run, s.phase.value.afterStop, true);
      }
    }
  }

  lemma NobodyUses(s: Supervisor, user: string, id: nat)
    requires Inv(s) && Rests(s, user) && id in s.calls
    ensures !UsesLease(s.calls[id])
  {
    assert Works(s, BaseReturns(id)) && Works(s, OwnerReturns(id));
    UseMoves(s, id);
  }

  lemma NotWaiting(s: Supervisor, user: string)
    requires Inv(s) && Rests(s, user)
    ensures s.phase.Some? ==> !s.phase.value.WaitingBase?
  {
    assert Works(s, Resumes(true, true));
    if s.phase.Some? && s.phase.value.WaitingBase? {
      forall id
        ensures id !in BaseCalls(s)
      {
        if id in s.calls {
          NobodyUses(s, user, id);
        }
      }
      assert BaseCalls(s) == {};
      AfterDrainingRank(s, s.phase.value.afterBase);
    }
  }

  lemma NoCallbacks(s: Supervisor, user: string, o: nat)
    requires Inv(s) && Rests(s, user) && o in s.owners
    ensures s.owners[o].callbacks == {}
  {
    forall id
      ensures id !in s.owners[o].callbacks
    {
      if id in s.calls {
        NobodyUses(s, user, id);
      }
    }
  }

  lemma NotDraining(s: Supervisor, user: string, o: nat)
    requires Inv(s) && Rests(s, user) && o in s.owners
    ensures s.owners[o].stage.Open? || s.owners[o].stage.Closed?
  {
    NoCallbacks(s, user, o);
    assert Works(s, OwnerDrains(o)) && Works(s, OwnerReleases(o, true));
    OwnerMoves(s, o);
  }

  lemma NotClosing(s: Supervisor, user: string)
    requires Inv(s) && Rests(s, user)
    ensures s.phase.Some? ==> !s.phase.value.ClosingOwner?
  {
    assert Works(s, Resumes(true, true));
    if s.phase.Some? && s.phase.value.ClosingOwner? {
      if s.phase.value.owner.Some? {
        NotDraining(s, user, s.phase.value.owner.value);
      }
      AfterClosingRank(s, s.phase.value.afterOwner, true);
      AfterClosingRank(s, s.phase.value.afterOwner, false);
    }
  }

  lemma NotAcquiring(s: Supervisor, user: string)
    requires Inv(s) && Rests(s, user)
    ensures s.phase.Some? ==> !s.phase.value.Acquiring?
  {
    assert Works(s, Resumes(true, true));
  }

  lemma NothingRuns(s: Supervisor, user: string)
    requires Inv(s) && Rests(s, user)
    ensures s.phase.None? && s.tail.jobs == []
  {
    NotEnded(s, user);
    NotReading(s, user);
    NotStopping(s, user);
    NotWaiting(s, user);
    NotClosing(s, user);
    NotAcquiring(s, user);
    assert Works(s, RunJob(false, true));
    JobMoves(s);
  }

  lemma LineIsDone(s: Supervisor)
    requires LineInv(s) && s.phase.None? && s.tail.jobs == []
    ensures s.tail.begun == s.tail.arrived
  {
    Tails.RegisteredNone(s.tail.promises);
  }

  /**
   Nothing gets stuck: where no useful step is left, every operation and every call that was queued has run,
   no operation is under way and no call uses the lease; no owner is on its way out.
   */
  lemma SettledIsDone(actions: seq<Action>, s: Supervisor)
    requires Reaches(Initial(), actions, s) && s.tail.promises != [] && Settled(s)
    ensures s.phase.None? && s.tail.jobs == [] && s.tail.begun == s.tail.arrived
    ensures forall id :: id in s.calls ==> !UsesLease(s.calls[id])
    ensures forall o :: o in s.owners ==> s.owners[o].stage.Open? || s.owners[o].stage.Closed?
  {
    Reachable(actions, s);
    assert Rests(s, "");
    NothingRuns(s, "");
    LineIsDone(s);
    forall id | id in s.calls
      ensures !UsesLease(s.calls[id])
    {
      NobodyUses(s, "", id);
    }
    forall o | o in s.owners
      ensures s.owners[o].stage.Open? || s.owners[o].stage.Closed?
    {
      NotDraining(s, "", o);
    }
  }

  lemma ReleasesNothing(s: Supervisor, user: string, o: nat, clean: bool)
    requires Inv(s) && Rests(s, user)
    ensures Step(s, OwnerReleases(o, clean)) == s
  {
    if o in s.owners {
      NotDraining(s, user, o);
      assert s.owners[o := s.owners[o]] == s.owners;
    }
  }

  /** Where nothing is left to do that succeeds, nothing is left to do. */
  lemma RestsIsSettled(s: Supervisor, user: string)
    requires Inv(s) && Rests(s, user)
    ensures Settled(s)
  {
    NothingRuns(s, user);
    forall a | Works(s, a)
      ensures Step(s, a) == s
    {
      if a.OwnerReleases? {
        ReleasesNothing(s, user, a.owner, a.clean);
      }
    }
  }

  ghost predicate AllWork(s: Supervisor, actions: seq<Action>)
    decreases actions
  {
    actions == [] ||
    (s.tail.promises != [] && Works(s, actions[0]) && AllWork(Step(s, actions[0]), actions[1..]))
  }

  lemma OneFirst(s: Supervisor, a: Action, rest: seq<Action>, t: Supervisor)
    requires s.tail.promises != [] && Works(s, a) && AllWork(Step(s, a), rest) && Reaches(Step(s, a), rest, t)
    ensures AllWork(s, [a] + rest) && Reaches(s, [a] + rest, t)
  {
    assert ([a] + rest)[1..] == rest;
  }

  predicate AllSmooth(actions: seq<Action>, user: string)
  {
    forall i :: 0 <= i < |actions| ==> Smooth(actions[i], user)
  }

  lemma NextStep(s: Supervisor, user: string) returns (a: Action)
    requires Inv(s) && !Rests(s, user)
    ensures Works(s, a) && Smooth(a, user) && Inv(Step(s, a))
    ensures Lower(RankOf(Step(s, a)), RankOf(s)) && RankOf(s).line >= 0
  {
    a :| Works(s, a) && Smooth(a, user) && Step(s, a) != s;
    StepKeeps(s, a);
    LineIsLong(s);
    WorkLowersRank(s, a);
  }

  lemma SmoothFirst(a: Action, rest: seq<Action>, user: string)
    requires Smooth(a, user) && AllSmooth(rest, user)
    ensures AllSmooth([a] + rest, user)
  {
  }

  /** From any state the supervisor can reach, what is under way can be worked off to the end, and without a failure. */
  lemma WorksOff(s: Supervisor, user: string) returns (actions: seq<Action>, t: Supervisor)
    requires Inv(s)
    ensures AllWork(s, actions) && AllSmooth(actions, user) && Reaches(s, actions, t) && Inv(t) && Settled(t)
    decreases RankOf(s).closing, RankOf(s).line, RankOf(s).phase, RankOf(s).outstanding
  {
    if Rests(s, user) {
      RestsIsSettled(s, user);
      actions, t := [], s;
    } else {
      var a := NextStep(s, user);
      var rest, last := WorksOff(Step(s, a), user);
      OneFirst(s, a, rest, last);
      SmoothFirst(a, rest, user);
      actions, t := [a] + rest, last;
    }
  }

  // A close that was asked for is never forgotten

  predicate AwaitedAt(tail: Tails.Tail<Operation>, i: int, operation: Operation)
  {
    |tail.begun| <= i < |tail.arrived| && tail.arrived[i].Starts? && tail.arrived[i].operation == operation
  }

  ghost predicate Awaited(tail: Tails.Tail<Operation>, operation: Operation)
  {
    exists i :: AwaitedAt(tail, i, operation)
  }

  predicate Stopping(phase: Option<Phase>)
  {
    phase.Some? && phase.value.StoppingPolling? && phase.value.afterStop.Stops?
  }

  predicate ClosingDown(phase: Option<Phase>)
  {
    phase.Some? &&
    ((phase.value.WaitingBase? && phase.value.afterBase.OwnerCloses?) ||
     (phase.value.ClosingOwner? && phase.value.afterOwner.DatabaseCloses?))
  }

  /** What was asked for is in the line, under way, or done. */
  ghost predicate Remembered(s: Supervisor)
  {
    && (s.quiesced.Asked? ==> Awaited(s.tail, Quiesces) || Stopping(s.phase))
    && (s.closing.AwaitsQuiescence? ==> !s.quiesced.NotAsked?)
    && (s.closing.Queued? ==> s.databaseClosed || Awaited(s.tail, Closes) || ClosingDown(s.phase))
  }

  lemma AwaitedStays(tail: Tails.Tail<Operation>, after: Tails.Tail<Operation>, operation: Operation)
    requires Awaited(tail, operation) && after.begun == tail.begun && tail.arrived <= after.arrived
    ensures Awaited(after, operation)
  {
    var i :| AwaitedAt(tail, i, operation);
    assert AwaitedAt(after, i, operation);
  }

  lemma EnqueuedLine(tail: Tails.Tail<Operation>, operation: Operation)
    requires tail.promises != [] && |tail.begun| <= |tail.arrived|
    ensures var after := Tails.Enqueue(tail, operation);
            && after.begun == tail.begun && tail.arrived <= after.arrived && Awaited(after, operation)
  {
    var after := Tails.Enqueue(tail, operation);
    assert after.arrived == tail.arrived + [Tails.Starts(|tail.promises|, operation)];
    assert AwaitedAt(after, |tail.arrived|, operation);
  }

  /** A longer line forgets nothing. */
  lemma LongerRemembers(s: Supervisor, t: Supervisor)
    requires Remembered(s) && t.tail.begun == s.tail.begun && s.tail.arrived <= t.tail.arrived
    requires t.phase == s.phase && (s.databaseClosed ==> t.databaseClosed)
    requires t.quiesced == s.quiesced || Awaited(t.tail, Quiesces)
    requires t.quiesced.NotAsked? ==> s.quiesced.NotAsked?
    requires t.closing == s.closing
          || (t.closing.AwaitsQuiescence? && !t.quiesced.NotAsked?)
          || (t.closing.Queued? && Awaited(t.tail, Closes))
    ensures Remembered(t)
  {
    if Awaited(s.tail, Quiesces) {
      AwaitedStays(s.tail, t.tail, Quiesces);
    }
    if Awaited(s.tail, Closes) {
      AwaitedStays(s.tail, t.tail, Closes);
    }
  }

  lemma QuiesceRemembers(s: Supervisor)
    requires LineInv(s) && Remembered(s)
    ensures var t := Quiesce(s);
            && Remembered(t) && !t.quiesced.NotAsked?
            && t.tail.begun == s.tail.begun && s.tail.arrived <= t.tail.arrived
            && t.phase == s.phase && t.databaseClosed == s.databaseClosed && t.closing == s.closing
            && (t.quiesced == s.quiesced || Awaited(t.tail, Quiesces))
  {
    LineIsLong(s);
    EnqueuedLine(s.tail, Quiesces);
    LongerRemembers(s, Quiesce(s));
  }

  lemma CloseRemembers(s: Supervisor)
    requires LineInv(s) && Remembered(s) && s.closing.Open?
    ensures Remembered(Quiesce(s.(closing := AwaitsQuiescence)))
  {
    QuiesceRemembers(s);
    var t := Quiesce(s.(closing := AwaitsQuiescence));
    assert t == Quiesce(s).(closing := AwaitsQuiescence);
    LongerRemembers(Quiesce(s), t);
  }

  lemma RequestRemembers(s: Supervisor, a: Action)
    requires Inv(s) && Remembered(s) && IsRequest(a)
    ensures Remembered(Step(s, a))
  {
    LineIsLong(s);
    match a
    case CallWithLease(key, wellFormed) => LongerRemembers(s, Step(s, a));
    case CallRefresh =>
      EnqueuedLine(s.tail, Refreshes);
      LongerRemembers(s, Step(s, a));
    case CallQuiesce => QuiesceRemembers(s);
    case CallClose => if s.closing.Open? { CloseRemembers(s); }
    case CloseGoesOn =>
      EnqueuedLine(s.tail, Closes);
      LongerRemembers(s, Step(s, a));
  }

  lemma AwaitedTaken(s: Supervisor, operation: Operation)
    requires LineInv(s) && s.tail.jobs != [] && Awaited(s.tail, operation)
    ensures Awaited(Tails.Take(s.tail), operation)
         || (s.tail.jobs[0].Starts? && s.tail.jobs[0].operation == operation)
  {
    LineIsLong(s);
    var i :| AwaitedAt(s.tail, i, operation);
    if i > |s.tail.begun| {
      assert AwaitedAt(Tails.Take(s.tail), i, operation);
    }
  }

  lemma StartedPhases(s: Supervisor, operation: Operation)
    ensures var t := StartOperation(s, operation);
            && (operation.Quiesces? ==> Stopping(t.phase)) && (operation.Closes? ==> ClosingDown(t.phase))
            && t.quiesced == s.quiesced && t.closing == s.closing && t.databaseClosed == s.databaseClosed
  {
  }

  lemma JobRemembers(s: Supervisor, aborted: bool, held: bool)
    requires Inv(s) && Remembered(s) && s.tail.jobs != []
    ensures Remembered(TakeJob(s, aborted, held))
  {
    Tails.TakeKeeps(s.tail);
    TakenTail(s, aborted, held);
    var u := s.(tail := Tails.Take(s.tail));
    if Awaited(s.tail, Quiesces) {
      AwaitedTaken(s, Quiesces);
    }
    if Awaited(s.tail, Closes) {
      AwaitedTaken(s, Closes);
    }
    match s.tail.jobs[0]
    case Continues(id) => assert TakeJob(s, aborted, held) == ContinueCall(u, id, aborted, held);
    case Starts(_, operation) =>
      StartedPhases(u, operation);
      assert TakeJob(s, aborted, held) == StartOperation(u, operation);
  }

  /** Nothing of what is remembered changes. */
  predicate SameMemory(s: Supervisor, t: Supervisor)
  {
    && t.tail.begun == s.tail.begun && t.tail.arrived == s.tail.arrived
    && t.quiesced == s.quiesced && t.closing == s.closing && t.databaseClosed == s.databaseClosed
  }

  lemma SameRemembers(s: Supervisor, t: Supervisor)
    requires Remembered(s) && SameMemory(s, t)
    requires Stopping(s.phase) ==> Stopping(t.phase)
    requires ClosingDown(s.phase) ==> ClosingDown(t.phase)
    ensures Remembered(t)
  {
    if Awaited(s.tail, Quiesces) {
      AwaitedStays(s.tail, t.tail, Quiesces);
    }
    if Awaited(s.tail, Closes) {
      AwaitedStays(s.tail, t.tail, Closes);
    }
  }

  lemma PolledRemembers(s: Supervisor, run: Option<nat>, after: AfterStop, built: bool)
    requires Remembered(s) && s.phase == Some(StoppingPolling(run, after))
    ensures Remembered(AfterPolling(s, run, after, built))
  {
  }

  lemma ClosedRemembers(s: Supervisor, o: Option<nat>, after: AfterOwner, clean: bool)
    requires Remembered(s) && s.phase == Some(ClosingOwner(o, after))
    ensures Remembered(AfterClosing(s, after, clean))
  {
  }

  lemma DrainedRemembers(s: Supervisor, after: AfterBase)
    requires Remembered(s) && s.phase == Some(WaitingBase(after))
    ensures Remembered(AfterDraining(s, after))
  {
  }

  lemma AcquiredRemembers(s: Supervisor, key: string, acquired: bool, built: bool)
    requires Remembered(s) && s.phase == Some(Acquiring(key))
    ensures Remembered(AfterAcquiring(s, key, acquired, built))
  {
  }

  lemma ResumeRemembers(s: Supervisor, acquired: bool, built: bool)
    requires Remembered(s)
    ensures Remembered(Resume(s, acquired, built))
  {
    if Resume(s, acquired, built) != s {
      match s.phase.value
      case StoppingPolling(run, after) => PolledRemembers(s, run, after, built);
      case ClosingOwner(o, after) =>
        ClosedRemembers(s, o, after, true);
        ClosedRemembers(s, o, after, false);
      case WaitingBase(after) => DrainedRemembers(s, after);
      case Acquiring(key) => AcquiredRemembers(s, key, acquired, built);
      case _ =>
    }
  }

  lemma ReadRemembers(s: Supervisor, answer: Configuration)
    requires Remembered(s)
    ensures Remembered(ReadConfiguration(s, answer))
  {
  }

  lemma AsideRemembers(s: Supervisor, a: Action)
    requires Remembered(s) && s.tail.promises != [] && (IsReturn(a) || IsEnding(a) || a.OperationSettles?)
    ensures Remembered(Step(s, a))
  {
    SameRemembers(s, Step(s, a));
  }

  lemma StepRemembers(s: Supervisor, a: Action)
    requires Inv(s) && Remembered(s)
    ensures Remembered(Step(s, a))
  {
    if IsRequest(a) {
      RequestRemembers(s, a);
    } else if a.RunJob? {
      if s.tail.jobs != [] {
        JobRemembers(s, a.aborted, a.held);
      }
    } else if a.ConfigurationRead? {
      ReadRemembers(s, a.answer);
    } else if a.Resumes? {
      ResumeRemembers(s, a.acquired, a.built);
    } else {
      AsideRemembers(s, a);
    }
  }

  lemma {:induction false} RunRemembers(s: Supervisor, actions: seq<Action>, t: Supervisor)
    requires Inv(s) && Remembered(s) && Reaches(s, actions, t)
    ensures Remembered(t)
    decreases actions
  {
    if actions != [] {
      StepKeeps(s, actions[0]);
      StepRemembers(s, actions[0]);
      RunRemembers(Step(s, actions[0]), actions[1..], t);
    }
  }

  lemma CloseMoves(s: Supervisor)
    requires s.tail.promises != []
    ensures s.closing.AwaitsQuiescence? && s.quiesced.Done? ==> Step(s, CloseGoesOn) != s
  {
    if s.closing.AwaitsQuiescence? && s.quiesced.Done? {
      assert Step(s, CloseGoesOn).closing.Queued?;
    }
  }

  /**
   A close always completes: whenever it was asked for, and whatever else was under way, once no useful step is
   left polling is stopped for good, the lease is released and the database is closed.
   */
  lemma CloseCompletes(actions: seq<Action>, s: Supervisor)
    requires Reaches(Initial(), actions, s) && s.tail.promises != [] && Settled(s) && !s.closing.Open?
    ensures s.databaseClosed && s.quiesced.Done? && s.owner.None?
    ensures forall o :: o in s.owners ==> !s.owners[o].kernel
  {
    assert BaseCalls(Initial()) == {};
    RunRemembers(Initial(), actions, s);
    SettledIsDone(actions, s);
    Reachable(actions, s);
    assert Works(s, CloseGoesOn);
    assert forall operation, i :: !AwaitedAt(s.tail, i, operation);
    CloseMoves(s);
  }
}
