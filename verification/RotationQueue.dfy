/**
 The journal's promise queue under the rotation parties. Journal operations are queued by the calls and
 run one after the other; a replacement keeps its operation going until its callback is over. What
 RotationRuns takes for granted, that nothing enters the journal while a replacement holds it, is
 what the queue enforces.
 */
module RotationQueue {
  import opened Wrappers
  import opened RotationJournal
  import opened RotationRuns
  import opened RotationInvariant
  import opened RotationSteps
  import opened AppendLog
  import Tails = PromiseTail

  datatype Process = Process(system: System, queue: Tails.Tail<Action>)

  /** The steps that go through the queue of the journal. */
  predicate Queued(a: Action)
  {
    || a.StartRefresh? || a.RunReserve? || a.CloseRefresh?
    || a.StartReconcile? || a.CheckReconcile? || a.RunSettle?
    || a.StartReplace? || a.InspectRestore? || a.RunRestore?
  }

  /** `Returns` settles the promise of the operation under way, which a replacement delays to the end of its callback. */
  datatype Move =
    | Asks(operation: Action)
    | RunsJob
    | Returns(number: nat)
    | Elsewhere(action: Action)
    | Dies

  /** The step that a move makes in the system, if any. There is no guard on who holds the journal. */
  function Made(p: Process, m: Move): Option<Action>
  {
    match m
    case RunsJob =>
      if p.queue.jobs != [] && p.queue.jobs[0].Starts? then Some(p.queue.jobs[0].operation) else None
    case Elsewhere(a) => if Queued(a) || a.Crash? then None else Some(a)
    case Dies => Some(Crash)
    case _ => None
  }

  function NextQueue(p: Process, m: Move): Tails.Tail<Action>
    requires p.queue.promises != []
  {
    match m
    case Asks(operation) => if Queued(operation) then Tails.Enqueue(p.queue, operation) else p.queue
    case RunsJob => if p.queue.jobs == [] then p.queue else Tails.Take(p.queue)
    case Returns(n) =>
      if n in p.queue.running && n < |p.queue.promises| && p.system.holder.None?
      then Tails.Settle(p.queue, n) else p.queue
    case Elsewhere(_) => p.queue
    case Dies => Tails.Resolved()
  }

  function Moved(c: Format, p: Process, m: Move): (q: Process)
    requires p.queue.promises != []
    ensures q.queue.promises != []
  {
    var a := Made(p, m);
    Process(if a.Some? then Step(c, p.system, a.value) else p.system, NextQueue(p, m))
  }

  function Moves(c: Format, start: System, moves: seq<Move>): (p: Process)
    ensures p.queue.promises != []
  {
    if moves == [] then Process(start, Tails.Resolved())
    else Moved(c, Moves(c, start, moves[..|moves| - 1]), moves[|moves| - 1])
  }

  ghost predicate ProcessInv(c: Format, p: Process)
  {
    && Tails.Inv(p.queue)
    && SystemInv(c, p.system)
    && (p.system.holder.Some? ==> p.queue.running != {})
  }

  lemma QueueKeeps(p: Process, m: Move)
    requires Tails.Inv(p.queue)
    ensures Tails.Inv(NextQueue(p, m))
    ensures m.RunsJob? && p.queue.jobs != [] ==> p.queue.running == {}
    ensures Made(p, m).Some? && m.RunsJob? ==> NextQueue(p, m).running != {}
  {
    match m
    case Asks(operation) => Tails.EnqueueKeeps(p.queue, operation);
    case RunsJob =>
      if p.queue.jobs != [] {
        Tails.TakeKeepsShape(p.queue);
        if p.queue.jobs[0].Starts? {
          assert p.queue.jobs[0].number in Tails.Take(p.queue).running;
        }
      }
    case Returns(n) =>
      if n in p.queue.running && n < |p.queue.promises| {
        Tails.SettleKeepsShape(p.queue, n);
      }
    case _ =>
  }

  /** Only a queued operation takes hold of the journal. */
  lemma HolderElsewhere(c: Format, s: System, a: Action)
    requires !Queued(a)
    ensures Step(c, s, a).holder.Some? ==> s.holder.Some?
  {
    assert Step(c, s, a).holder == Act(c, s, a).holder;
  }

  lemma DyingReleases(c: Format, s: System)
    ensures Step(c, s, Crash).holder.None?
  {
    assert Step(c, s, Crash).holder == Crashed(s).holder;
  }

  lemma MovedKeeps(c: Format, p: Process, m: Move)
    requires SoundFormat(c) && ProcessInv(c, p)
    ensures ProcessInv(c, Moved(c, p, m))
  {
    QueueKeeps(p, m);
    var a := Made(p, m);
    if a.Some? {
      StepKeeps(c, p.system, a.value);
      if m.Elsewhere? {
        HolderElsewhere(c, p.system, a.value);
      } else if m.Dies? {
        DyingReleases(c, p.system);
      }
    }
  }

  lemma {:induction false} MovesKeep(c: Format, start: System, moves: seq<Move>)
    requires SoundFormat(c) && SystemInv(c, start) && start.holder.None?
    ensures ProcessInv(c, Moves(c, start, moves))
  {
    if moves != [] {
      MovesKeep(c, start, moves[..|moves| - 1]);
      MovedKeeps(c, Moves(c, start, moves[..|moves| - 1]), moves[|moves| - 1]);
    }
  }

  /**
   Whenever a queued operation is about to run, be it an inspection, a reservation, a settlement or another
   replacement, no call of the process is inside a replacement callback. So no inspection sees a
   reservation whose callback is still under way, and the guard on `holder` in RotationRuns, which the
   process does not have, never decides anything.
   */
  lemma NothingRunsInsideReplacement(c: Format, disk: Bytes, keychain: Option<int>, moves: seq<Move>)
    requires SoundFormat(c)
    ensures var p := Moves(c, Initial(disk, keychain), moves);
            p.queue.jobs != [] ==>
              p.system.holder.None? && forall id :: id in p.system.parties ==> !InCallback(p.system.parties[id])
  {
    InitialHolds(c, disk, keychain);
    MovesKeep(c, Initial(disk, keychain), moves);
    var p := Moves(c, Initial(disk, keychain), moves);
    if p.queue.jobs != [] {
      QueueKeeps(p, RunsJob);
      forall id | id in p.system.parties
        ensures !InCallback(p.system.parties[id])
      {
        PartyFacts(c, p.system, id);
      }
    }
  }

  /** The steps that a process makes. */
  function Trace(c: Format, start: System, moves: seq<Move>): seq<Action>
  {
    if moves == [] then []
    else
      var rest := moves[..|moves| - 1];
      var a := Made(Moves(c, start, rest), moves[|moves| - 1]);
      Trace(c, start, rest) + if a.Some? then [a.value] else []
  }

  lemma OneMore(c: Format, start: System, actions: seq<Action>, a: Action)
    ensures Run(c, start, actions + [a]) == Step(c, Run(c, start, actions), a)
  {
    assert (actions + [a])[..|actions|] == actions;
  }

  /** A process does nothing but what RotationRuns allows, so all that holds of its runs holds of the process. */
  lemma {:induction false} ProcessIsRun(c: Format, start: System, moves: seq<Move>)
    ensures Moves(c, start, moves).system == Run(c, start, Trace(c, start, moves))
  {
    if moves != [] {
      var rest := moves[..|moves| - 1];
      ProcessIsRun(c, start, rest);
      var a := Made(Moves(c, start, rest), moves[|moves| - 1]);
      if a.Some? {
        OneMore(c, start, Trace(c, start, rest), a.value);
      } else {
        assert Trace(c, start, moves) == Trace(c, start, rest);
      }
    }
  }
}
