/**
 The promise chain behind every queue of this program: `tail` is replaced by a promise that settles
 after the operation just queued, whether it succeeds or fails, and callers that only wait for
 `tail` register a continuation on the promise they found. The reactions of one promise run in the
 order of registration, through the first-in first-out job queue.
 */
module PromiseTail {
  datatype Reaction<O> = Continues(call: nat) | Starts(number: nat, operation: O)

  datatype Chained<O> = Chained(settled: bool, reactions: seq<Reaction<O>>)

  /**
   `promises[n]` settles after the n-th operation; the last one is the current tail. `running` holds
   the operations that started and whose promise has not settled. `arrived` and `begun` record the
   reactions in the order in which they were asked for and in which they ran.
   */
  datatype Tail<O> = Tail(
    promises: seq<Chained<O>>,
    jobs: seq<Reaction<O>>,
    running: set<nat>,
    arrived: seq<Reaction<O>>,
    begun: seq<Reaction<O>>)

  function Resolved<O>(): Tail<O>
  {
    Tail([Chained(true, [])], [], {}, [], [])
  }

  function Register<O>(t: Tail<O>, r: Reaction<O>): Tail<O>
    requires t.promises != []
  {
    var last := |t.promises| - 1;
    var p := t.promises[last];
    if p.settled then
      t.(jobs := t.jobs + [r], arrived := t.arrived + [r])
    else
      t.(promises := t.promises[last := p.(reactions := p.reactions + [r])], arrived := t.arrived + [r])
  }

  /** `await tail`. */
  function Wait<O>(t: Tail<O>, call: nat): Tail<O>
    requires t.promises != []
  {
    Register(t, Continues(call))
  }

  /** `result = tail.then(operation)` and `tail = result.then(ignore, ignore)`. */
  function Enqueue<O>(t: Tail<O>, operation: O): Tail<O>
    requires t.promises != []
  {
    var u := Register(t, Starts(|t.promises|, operation));
    u.(promises := u.promises + [Chained(false, [])])
  }

  /** The next job runs; an operation has then started. */
  function Take<O>(t: Tail<O>): Tail<O>
    requires t.jobs != []
  {
    var r := t.jobs[0];
    t.(jobs := t.jobs[1..],
       begun := t.begun + [r],
       running := if r.Starts? then t.running + {r.number} else t.running)
  }

  /** The operation has returned or thrown, and its promise settles. */
  function Settle<O>(t: Tail<O>, n: nat): Tail<O>
    requires n < |t.promises|
  {
    t.(promises := t.promises[n := Chained(true, [])],
       jobs := t.jobs + t.promises[n].reactions,
       running := t.running - {n})
  }

  datatype Moment<O> = Waits(call: nat) | Queues(operation: O) | RunsJob | Settles(number: nat)

  function Step<O>(t: Tail<O>, m: Moment<O>): (u: Tail<O>)
    requires t.promises != []
    ensures u.promises != []
  {
    match m
    case Waits(call) => Wait(t, call)
    case Queues(operation) => Enqueue(t, operation)
    case RunsJob => if t.jobs == [] then t else Take(t)
    case Settles(n) => if n in t.running && n < |t.promises| then Settle(t, n) else t
  }

  function Run<O>(moments: seq<Moment<O>>): (t: Tail<O>)
    ensures t.promises != []
  {
    if moments == [] then Resolved() else Step(Run(moments[..|moments| - 1]), moments[|moments| - 1])
  }

  /** How many operations a history holds. */
  function Started<O>(history: seq<Reaction<O>>): nat
  {
    if history == [] then 0
    else Started(history[..|history| - 1]) + if history[|history| - 1].Starts? then 1 else 0
  }

  function Registered<O>(promises: seq<Chained<O>>): seq<Reaction<O>>
  {
    if promises == [] then []
    else Registered(promises[..|promises| - 1]) + promises[|promises| - 1].reactions
  }

  ghost predicate OnlyWaiters<O>(q: seq<Reaction<O>>)
  {
    forall i :: 0 <= i < |q| ==> q[i].Continues?
  }

  /** What hangs on promise `n`: the callers that found it as the tail, then the operation that replaced it. */
  ghost predicate Shape<O>(q: seq<Reaction<O>>, n: nat, current: bool)
  {
    if current then OnlyWaiters(q)
    else q != [] && OnlyWaiters(q[..|q| - 1]) && q[|q| - 1].Starts? && q[|q| - 1].number == n + 1
  }

  /** `front` operations have started. */
  ghost predicate Inv<O>(t: Tail<O>)
  {
    var front := Started(t.begun);
    && front < |t.promises|
    && (t.running == {} || t.running == {front})
    && (forall i :: 0 <= i < |t.promises| ==>
          (t.promises[i].settled <==> (i < front || (i == front && t.running == {}))))
    && (forall i :: 0 <= i < |t.promises| && t.promises[i].settled ==> t.promises[i].reactions == [])
    && (forall i :: 0 <= i < |t.promises| && !t.promises[i].settled ==>
          Shape(t.promises[i].reactions, i, i + 1 == |t.promises|))
    && (if t.running == {} then Shape(t.jobs, front, front + 1 == |t.promises|) else t.jobs == [])
  }

  ghost predicate Ordered<O>(t: Tail<O>)
  {
    t.begun + (t.jobs + Registered(t.promises)) == t.arrived
  }

  lemma StartedAppend<O>(history: seq<Reaction<O>>, r: Reaction<O>)
    ensures Started(history + [r]) == Started(history) + if r.Starts? then 1 else 0
  {
    assert (history + [r])[..|history|] == history;
  }

  lemma {:induction false} RegisteredSplit<O>(promises: seq<Chained<O>>, n: nat)
    requires n < |promises|
    ensures Registered(promises) ==
            Registered(promises[..n]) + promises[n].reactions + Registered(promises[n + 1..])
  {
    var last := |promises| - 1;
    if n == last {
      assert promises[n + 1..] == [];
    } else {
      RegisteredSplit(promises[..last], n);
      assert promises[..last][..n] == promises[..n];
      assert promises[n + 1..][..last - n - 1] == promises[..last][n + 1..];
    }
  }

  lemma {:induction false} RegisteredNone<O>(promises: seq<Chained<O>>)
    requires forall i :: 0 <= i < |promises| ==> promises[i].reactions == []
    ensures Registered(promises) == []
  {
    if promises != [] {
      RegisteredNone(promises[..|promises| - 1]);
    }
  }

  lemma RegisterKeeps<O>(t: Tail<O>, call: nat)
    requires Inv(t)
    ensures Inv(Wait(t, call))
  {
    var last := |t.promises| - 1;
    var q := t.promises[last].reactions;
    if !t.promises[last].settled {
      assert Shape(q, last, true);
      assert Shape(q + [Continues(call)], last, true);
    }
  }

  lemma WaitIsOrdered<O>(t: Tail<O>, r: Reaction<O>)
    requires Inv(t) && Ordered(t)
    ensures Ordered(Register(t, r))
  {
    var last := |t.promises| - 1;
    var u := Register(t, r);
    if t.promises[last].settled {
      RegisteredNone(t.promises);
    } else {
      assert u.promises[..last] == t.promises[..last];
      var before, q := Registered(t.promises[..last]), t.promises[last].reactions;
      assert t.begun + (t.jobs + (before + (q + [r]))) == t.begun + (t.jobs + (before + q)) + [r];
    }
  }

  lemma EnqueueKeeps<O>(t: Tail<O>, operation: O)
    requires Inv(t)
    ensures Inv(Enqueue(t, operation))
  {
    var last := |t.promises| - 1;
    var u := Enqueue(t, operation);
    var r := Starts(|t.promises|, operation);
    var p := t.promises[last];
    if p.settled {
      assert (t.jobs + [r])[..|t.jobs|] == t.jobs;
    } else {
      assert Shape(p.reactions, last, true);
      assert (p.reactions + [r])[..|p.reactions|] == p.reactions;
      assert Shape(p.reactions + [r], last, false);
      assert u.promises[last].reactions == p.reactions + [r];
    }
  }

  lemma EnqueueIsOrdered<O>(t: Tail<O>, operation: O)
    requires Inv(t) && Ordered(t)
    ensures Ordered(Enqueue(t, operation))
  {
    var r := Starts(|t.promises|, operation);
    WaitIsOrdered(t, r);
    var u := Register(t, r);
    assert (u.promises + [Chained(false, [])])[..|u.promises|] == u.promises;
  }

  lemma StartIsLast<O>(t: Tail<O>)
    requires Inv(t) && t.jobs != [] && t.jobs[0].Starts?
    ensures |t.jobs| == 1 && t.jobs[0].number == Started(t.begun) + 1
  {
    assert forall i :: 0 <= i < |t.jobs| - 1 ==> t.jobs[..|t.jobs| - 1][i] == t.jobs[i] && t.jobs[i].Continues?;
  }

  lemma TakeKeepsShape<O>(t: Tail<O>)
    requires Inv(t) && t.jobs != []
    ensures Inv(Take(t)) && t.running == {}
  {
    if t.jobs[0].Starts? {
      TakeStart(t);
    } else {
      TakeWaiter(t);
    }
  }

  lemma TakeStart<O>(t: Tail<O>)
    requires Inv(t) && t.jobs != [] && t.jobs[0].Starts?
    ensures Inv(Take(t)) && t.running == {}
  {
    StartedAppend(t.begun, t.jobs[0]);
    StartIsLast(t);
    assert Take(t).jobs == [];
  }

  lemma TakeWaiter<O>(t: Tail<O>)
    requires Inv(t) && t.jobs != [] && t.jobs[0].Continues?
    ensures Inv(Take(t)) && t.running == {}
  {
    StartedAppend(t.begun, t.jobs[0]);
    WaiterLeaves(t.jobs, Started(t.begun), Started(t.begun) + 1 == |t.promises|);
  }

  lemma WaiterLeaves<O>(q: seq<Reaction<O>>, n: nat, current: bool)
    requires Shape(q, n, current) && q != [] && q[0].Continues?
    ensures Shape(q[1..], n, current)
  {
    if !current {
      assert q[1..][..|q| - 2] == q[..|q| - 1][1..];
    }
  }

  lemma TakeIsOrdered<O>(t: Tail<O>)
    requires t.jobs != [] && Ordered(t)
    ensures Ordered(Take(t))
  {
    var r, rest, later := t.jobs[0], t.jobs[1..], Registered(t.promises);
    assert t.jobs == [r] + rest;
    assert (t.begun + [r]) + (rest + later) == t.begun + (([r] + rest) + later);
  }

  lemma TakeKeeps<O>(t: Tail<O>)
    requires Inv(t) && t.jobs != []
    ensures Inv(Take(t)) && t.running == {}
    ensures Ordered(t) ==> Ordered(Take(t))
  {
    TakeKeepsShape(t);
    if Ordered(t) {
      TakeIsOrdered(t);
    }
  }

  lemma SettleKeepsShape<O>(t: Tail<O>, n: nat)
    requires Inv(t) && n in t.running
    ensures n < |t.promises| && t.jobs == [] && t.running == {n} && n == Started(t.begun)
    ensures Inv(Settle(t, n))
  {
    var u := Settle(t, n);
    assert t.running == {n} && u.running == {};
    assert u.jobs == t.promises[n].reactions;
  }

  lemma RegisteredFrom<O>(promises: seq<Chained<O>>, n: nat)
    requires n < |promises| && forall i :: 0 <= i < n ==> promises[i].reactions == []
    ensures Registered(promises) == promises[n].reactions + Registered(promises[n + 1..])
  {
    RegisteredSplit(promises, n);
    RegisteredNone(promises[..n]);
    var none: seq<Reaction<O>> := [];
    var q := promises[n].reactions;
    assert none + q == q;
  }

  lemma SettleIsOrdered<O>(t: Tail<O>, n: nat)
    requires n < |t.promises| && t.jobs == [] && Ordered(t)
    requires forall i :: 0 <= i < n ==> t.promises[i].reactions == []
    ensures Ordered(Settle(t, n))
  {
    var p := t.promises[n := Chained(true, [])];
    RegisteredFrom(t.promises, n);
    RegisteredFrom(p, n);
    assert p[n + 1..] == t.promises[n + 1..];
    var q, later := t.promises[n].reactions, Registered(t.promises[n + 1..]);
    assert Registered(p) == later;
    assert t.jobs + (q + later) == (t.jobs + q) + later;
  }

  lemma SettleKeeps<O>(t: Tail<O>, n: nat)
    requires Inv(t) && n in t.running
    ensures n < |t.promises| && t.jobs == [] && t.running == {n}
    ensures Inv(Settle(t, n))
    ensures Ordered(t) ==> Ordered(Settle(t, n))
  {
    SettleKeepsShape(t, n);
    if Ordered(t) {
      SettleIsOrdered(t, n);
    }
  }

  lemma {:induction false} RunKeeps<O>(moments: seq<Moment<O>>)
    ensures Inv(Run(moments)) && Ordered(Run(moments))
  {
    if moments == [] {
    } else {
      var rest, m := moments[..|moments| - 1], moments[|moments| - 1];
      RunKeeps(rest);
      var t := Run(rest);
      match m
      case Waits(call) =>
        RegisterKeeps(t, call);
        WaitIsOrdered(t, Continues(call));
      case Queues(operation) =>
        EnqueueKeeps(t, operation);
        EnqueueIsOrdered(t, operation);
      case RunsJob =>
        if t.jobs != [] {
          TakeKeeps(t);
        }
      case Settles(n) =>
        if n in t.running {
          SettleKeeps(t, n);
        }
    }
  }

  /**
   The chain is one line. Whatever the operations do, reactions run in the order in which they were
   asked for; no two operations are ever under way together; and whenever anything is about to run,
   every operation that was queued before it has ended and none queued after it has started.
   */
  lemma OneLine<O>(moments: seq<Moment<O>>)
    ensures var t := Run(moments);
            && t.begun <= t.arrived
            && |t.running| <= 1
            && (t.jobs != [] ==> t.running == {} && t.begun + [t.jobs[0]] <= t.arrived)
            && Started(t.begun) < |t.promises|
            && (t.jobs != [] ==> forall n :: 0 <= n <= Started(t.begun) ==> t.promises[n].settled)
  {
    RunKeeps(moments);
    var t := Run(moments);
    assert t.begun <= t.begun + (t.jobs + Registered(t.promises));
    if t.jobs != [] {
      assert t.begun + (([t.jobs[0]] + t.jobs[1..]) + Registered(t.promises)) ==
             t.begun + [t.jobs[0]] + (t.jobs[1..] + Registered(t.promises));
      assert [t.jobs[0]] + t.jobs[1..] == t.jobs;
    }
    assert t.running == {} || t.running == {Started(t.begun)};
  }

  /** Nothing is lost: when no operation is under way and no job waits, everything asked for has run. */
  lemma NothingIsLost<O>(moments: seq<Moment<O>>)
    requires Run(moments).running == {} && Run(moments).jobs == []
    ensures Run(moments).begun == Run(moments).arrived
  {
    RunKeeps(moments);
    var t := Run(moments);
    RegisteredNone(t.promises);
  }

  /** The operations are started under their own numbers, first to last. */
  ghost predicate Numbered<O>(history: seq<Reaction<O>>)
  {
    forall i :: 0 <= i < |history| && history[i].Starts? ==> history[i].number == Started(history[..i]) + 1
  }

  lemma {:induction false} OperationsInOrder<O>(moments: seq<Moment<O>>)
    ensures Numbered(Run(moments).begun)
  {
    if moments != [] {
      var rest, m := moments[..|moments| - 1], moments[|moments| - 1];
      OperationsInOrder(rest);
      RunKeeps(rest);
      var t := Run(rest);
      if m.RunsJob? && t.jobs != [] {
        var after := t.begun + [t.jobs[0]];
        assert after[..|t.begun|] == t.begun;
        if t.jobs[0].Starts? {
          StartIsLast(t);
        }
        assert forall i :: 0 <= i < |t.begun| ==> after[..i] == t.begun[..i] && after[i] == t.begun[i];
        assert Take(t).begun == after;
      }
    }
  }
}
