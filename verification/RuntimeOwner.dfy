/**
 The shared owner of the Feishu runtime lease: one kernel-backed lease lent to any number of
 callbacks, and given back only when the last of them has returned.
 */
module RuntimeOwner {
  import opened Wrappers

  /** `drained` is the promise of `stopAndDrain`: absent, pending (`Some(false)`) or resolved. */
  datatype Lease = Lease(key: string, accepting: bool, active: int, drained: Option<bool>)

  /** What a caller of `withLease` brings; `held` is the answer of the kernel lease. */
  datatype Request = Request(key: string, wellFormed: bool, aborted: bool, held: bool)

  datatype Refusal = InvalidRequest | Cancelled | LeaseLost

  function Enter(lease: Lease, request: Request): Result<Lease, Refusal>
  {
    if !request.wellFormed then Err(InvalidRequest)
    else if request.aborted then Err(Cancelled)
    else if request.key != lease.key then Err(InvalidRequest)
    else if !lease.accepting || !request.held then Err(LeaseLost)
    else Ok(lease.(active := lease.active + 1))
  }

  function Leave(lease: Lease): Lease
  {
    var active := lease.active - 1;
    lease.(active := active, drained := if active == 0 && lease.drained.Some? then Some(true) else lease.drained)
  }

  function Stop(lease: Lease): Lease
  {
    var closed := lease.(accepting := false);
    if lease.active == 0 || lease.drained.Some? then closed else closed.(drained := Some(false))
  }

  /** Whether a `stopAndDrain` that has stopped accepting can return. */
  predicate Drained(lease: Lease)
  {
    lease.drained != Some(false)
  }

  /**
   The manager object, its fields as in the source. An asynchronous call is split at its awaits; `inside`
   is the set of calls whose callback is under way.
   */
  class SharedLeaseManager {
    const key: string
    var accepting: bool
    var activeOperations: int
    var drained: Option<bool>
    ghost var inside: set<nat>

    constructor (key: string)
      ensures Valid() && View() == Lease(key, true, 0, None) && inside == {}
    {
      this.key := key;
      accepting, activeOperations, drained := true, 0, None;
      inside := {};
    }

    function View(): Lease
      reads this
    {
      Lease(key, accepting, activeOperations, drained)
    }

    /** The counter counts the callbacks under way, and the drain promise is resolved exactly when there is none. */
    ghost predicate Valid()
      reads this
    {
      && activeOperations == |inside|
      && (drained.Some? ==> !accepting && (drained.value <==> inside == {}))
      && (!accepting && drained.None? ==> inside == {})
    }

    /** `withLease` up to the call of the callback; the guards after the increment read nothing new. */
    method Begin(ghost id: nat, request: Request) returns (r: Result<(), Refusal>)
      requires Valid() && id !in inside
      modifies this
      ensures Valid() && (r.Ok? <==> Enter(old(View()), request).Ok?)
      ensures if r.Ok? then View() == Enter(old(View()), request).value
              else View() == old(View()) && r.error == Enter(old(View()), request).error
      ensures r.Ok? <==>
              old(accepting) && request.key == key && request.wellFormed && !request.aborted && request.held
      ensures inside == if r.Ok? then old(inside) + {id} else old(inside)
      ensures old(drained.Some?) ==> r.Err?
    {
      if !request.wellFormed {
        return Err(InvalidRequest);
      }
      if request.aborted {
        return Err(Cancelled);
      }
      if request.key != key {
        return Err(InvalidRequest);
      }
      if !accepting || !request.held {
        return Err(LeaseLost);
      }
      activeOperations := activeOperations + 1;
      inside := inside + {id};
      return Ok(());
    }

    /** The `finally` of `withLease`: the last callback to leave resolves the drain promise, and no other does. */
    method End(ghost id: nat)
      requires Valid() && id in inside
      modifies this
      ensures Valid() && View() == Leave(old(View()))
      ensures inside == old(inside) - {id} && accepting == old(accepting)
      ensures old(drained) == Some(false) ==> (drained == Some(true) <==> inside == {})
      ensures old(drained.None?) ==> drained.None?
    {
      activeOperations := activeOperations - 1;
      if activeOperations == 0 && drained.Some? {
        drained := Some(true);
      }
      inside := inside - {id};
    }

    /** `stopAndDrain` up to its await: it waits exactly for the callbacks under way, and none comes after it. */
    method StopAccepting() returns (waits: bool)
      requires Valid()
      modifies this
      ensures Valid() && View() == Stop(old(View()))
      ensures !accepting && inside == old(inside)
      ensures waits <==> inside != {}
      ensures waits <==> drained == Some(false)
    {
      accepting := false;
      if activeOperations == 0 {
        return false;
      }
      if drained.None? {
        drained := Some(false);
      }
      return true;
    }
  }

  /** `close` in steps: not asked, inside `stopAndDrain`, `stopped` resolved, and `lifetime` settled. */
  datatype Stage = Open | Draining | Stopping | Closed(released: bool)

  /** `callbacks` are the callbacks under way; `kernel` says that the kernel lease callback has not returned. */
  datatype Owner = Owner(lease: Lease, stage: Stage, callbacks: set<nat>, kernel: bool)

  /** `startWorkbenchFeishuRuntimeOwner`, once the kernel lease is held. */
  function Acquired(key: string): Owner
  {
    Owner(Lease(key, true, 0, None), Open, {}, true)
  }

  datatype Move =
    | Calls(id: nat, request: Request)
    | Returns(id: nat)
    | Closes
    | Drains
    | Releases(clean: bool)

  function Admit(o: Owner, id: nat, request: Request): Owner
  {
    if id in o.callbacks || Enter(o.lease, request).Err? then o
    else o.(lease := Enter(o.lease, request).value, callbacks := o.callbacks + {id})
  }

  function Return(o: Owner, id: nat): Owner
  {
    if id !in o.callbacks then o else o.(lease := Leave(o.lease), callbacks := o.callbacks - {id})
  }

  function Close(o: Owner): Owner
  {
    if o.stage.Open? then o.(lease := Stop(o.lease), stage := Draining) else o
  }

  function Step(o: Owner, m: Move): Owner
  {
    match m
    case Calls(id, request) => Admit(o, id, request)
    case Returns(id) => Return(o, id)
    case Closes => Close(o)
    case Drains => if o.stage.Draining? && Drained(o.lease) then o.(stage := Stopping) else o
    case Releases(clean) => if o.stage.Stopping? then o.(stage := Closed(clean), kernel := false) else o
  }

  function Run(key: string, moves: seq<Move>): Owner
  {
    if moves == [] then Acquired(key) else Step(Run(key, moves[..|moves| - 1]), moves[|moves| - 1])
  }

  ghost predicate Inv(o: Owner)
  {
    && o.lease.active == |o.callbacks|
    && (o.stage.Open? <==> o.lease.accepting)
    && (o.kernel <==> !o.stage.Closed?)
    && (o.lease.drained.Some? ==> !o.stage.Open? && (o.lease.drained.value <==> o.callbacks == {}))
    && (!o.stage.Open? && o.lease.drained.None? ==> o.callbacks == {})
    && (o.stage.Stopping? || o.stage.Closed? ==> o.callbacks == {})
  }

  lemma StepKeeps(o: Owner, m: Move)
    requires Inv(o)
    ensures Inv(Step(o, m))
  {
    if m.Returns? && m.id in o.callbacks {
      var rest := o.callbacks - {m.id};
      assert |rest| == |o.callbacks| - 1;
      assert rest == {} <==> |rest| == 0;
      assert Step(o, m) == o.(lease := Leave(o.lease), callbacks := rest);
    }
  }

  lemma StepKeepsKey(o: Owner, m: Move)
    ensures Step(o, m).lease.key == o.lease.key
  {
  }

  lemma OnlyCloseShuts(o: Owner, m: Move)
    requires !m.Closes?
    ensures Step(o, m).stage.Open? == o.stage.Open? && (Step(o, m).kernel ==> o.kernel)
  {
  }

  lemma {:induction false} RunKeeps(key: string, moves: seq<Move>)
    ensures Inv(Run(key, moves)) && Run(key, moves).lease.key == key
  {
    if moves != [] {
      var before, m := Run(key, moves[..|moves| - 1]), moves[|moves| - 1];
      RunKeeps(key, moves[..|moves| - 1]);
      StepKeeps(before, m);
      StepKeepsKey(before, m);
    }
  }

  /**
   Callbacks run inside the kernel lease, in every interleaving: while one is under way the kernel
   lease is held, its release comes only when none is left, and once `close` has been called no
   callback starts any more.
   */
  lemma CallbacksInsideLease(key: string, moves: seq<Move>, m: Move)
    ensures var o, after := Run(key, moves), Step(Run(key, moves), m);
            && (o.callbacks != {} ==> o.kernel)
            && (o.kernel && !after.kernel ==> o.callbacks == {} && o.lease.active == 0 && after.stage.Closed?)
            && (!o.stage.Open? ==> after.callbacks <= o.callbacks && !after.stage.Open?)
            && (after.callbacks - o.callbacks != {} ==> m.Calls? && m.request.key == key && o.stage.Open? && o.kernel)
  {
    RunKeeps(key, moves);
    StepInside(Run(key, moves), m);
  }

  lemma AdmitsInside(o: Owner, id: nat, request: Request)
    requires Inv(o)
    ensures var after := Admit(o, id, request);
            && after.stage == o.stage && after.kernel == o.kernel
            && (!o.stage.Open? ==> after == o)
            && (after.callbacks - o.callbacks != {} ==> request.key == o.lease.key && o.stage.Open? && o.kernel)
  {
  }

  lemma OthersInside(o: Owner, m: Move)
    requires !m.Calls?
    ensures Step(o, m).callbacks <= o.callbacks
  {
  }

  lemma ReleasedInside(o: Owner, m: Move)
    requires Inv(o)
    ensures o.kernel && !Step(o, m).kernel ==> o.callbacks == {} && o.lease.active == 0 && Step(o, m).stage.Closed?
    ensures !o.stage.Open? ==> !Step(o, m).stage.Open?
  {
  }

  lemma StepInside(o: Owner, m: Move)
    requires Inv(o)
    ensures var after := Step(o, m);
            && (o.callbacks != {} ==> o.kernel)
            && (o.kernel && !after.kernel ==> o.callbacks == {} && o.lease.active == 0 && after.stage.Closed?)
            && (!o.stage.Open? ==> after.callbacks <= o.callbacks && !after.stage.Open?)
            && (after.callbacks - o.callbacks != {} ==>
                  m.Calls? && m.request.key == o.lease.key && o.stage.Open? && o.kernel)
  {
    ReleasedInside(o, m);
    if m.Calls? {
      AdmitsInside(o, m.id, m.request);
      assert Step(o, m) == Admit(o, m.id, m.request);
    } else {
      OthersInside(o, m);
    }
  }

  /** `stopAndDrain` is never left waiting: it can return exactly when no callback is under way. */
  lemma DrainNeverMissed(key: string, moves: seq<Move>)
    requires Run(key, moves).stage.Draining?
    ensures Drained(Run(key, moves).lease) <==> Run(key, moves).callbacks == {}
  {
    RunKeeps(key, moves);
  }

  predicate Admitted(m: Move, key: string, id: nat)
  {
    && m.Calls? && m.id == id && m.request.key == key
    && m.request.wellFormed && !m.request.aborted && m.request.held
  }

  lemma OnlyCallsEnter(o: Owner, m: Move, id: nat)
    requires id !in o.callbacks && id in Step(o, m).callbacks
    ensures Admitted(m, o.lease.key, id)
  {
  }

  /** Every callback that got in is one that `Calls` admitted and that has not returned yet. */
  lemma {:induction false} EveryCallbackEntered(key: string, moves: seq<Move>, id: nat)
    requires id in Run(key, moves).callbacks
    ensures exists i :: 0 <= i < |moves| && Admitted(moves[i], key, id)
  {
    if moves != [] {
      var rest := moves[..|moves| - 1];
      RunKeeps(key, rest);
      if id in Run(key, rest).callbacks {
        EveryCallbackEntered(key, rest, id);
        var i :| 0 <= i < |rest| && Admitted(rest[i], key, id);
        assert moves[i] == rest[i];
      } else {
        OnlyCallsEnter(Run(key, rest), moves[|moves| - 1], id);
      }
    }
  }
}
