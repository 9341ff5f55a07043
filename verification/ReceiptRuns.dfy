/**
 All runs of the receipt store: deliveries that pass admission, handler and append one await at a time,
 with failed loads, failed appends, and crashes between any two of them or inside an append.
 */
module ReceiptRuns {
  import opened Wrappers
  import opened AppendLog
  import opened ReceiptStore

  /** The delivery that the store's queue is working on. */
  datatype Stage = Idle | Admitted(receipt: Receipt) | Handled(receipt: Receipt)

  /** A crash while a handled receipt is being appended may leave a part of its line behind. */
  datatype Action =
    | Deliver(receipt: Receipt, load: LoadIo)
    | RunHandler(succeeds: bool)
    | Commit(append: AppendIo)
    | Crash(written: nat)

  /** What can be observed: handler calls that ended, the answers given, and crashes. */
  datatype Observation =
    | Called(key: nat, digest: nat, succeeded: bool)
    | Answered(key: nat, digest: nat, answer: Result<Disposition, Error>)
    | Crashed

  datatype System = System(store: Store, stage: Stage, log: seq<Observation>)

  /** The file that a crash leaves while `r` is being appended. */
  function Cut(c: Format, disk: Bytes, r: Receipt, written: nat): Bytes
  {
    Append(c, disk, r, Fails(written)).0
  }

  function Step(c: Format, s: System, a: Action): System
  {
    match a
    case Deliver(r, load) =>
      if !s.stage.Idle? then s
      else
        var (l, stop) := Admission(c, s.store, r, load);
        if stop.Some? then System(l, Idle, s.log + [Answered(r.key, r.digest, stop.value)])
        else System(l, Admitted(r), s.log)
    case RunHandler(succeeds) =>
      if !s.stage.Admitted? then s
      else
        var r := s.stage.receipt;
        if succeeds then System(s.store, Handled(r), s.log + [Called(r.key, r.digest, true)])
        else
          System(s.store, Idle,
                 s.log + [Called(r.key, r.digest, false)] + [Answered(r.key, r.digest, Err(DownstreamFailure))])
    case Commit(io) =>
      if !s.stage.Handled? then s
      else
        var r := s.stage.receipt;
        var (t, answer) := Commitment(c, s.store, r, io);
        System(t, Idle, s.log + [Answered(r.key, r.digest, answer)])
    case Crash(written) =>
      var disk := if s.stage.Handled? then Cut(c, s.store.disk, s.stage.receipt, written) else s.store.disk;
      System(Store(disk, false, map[]), Idle, s.log + [Crashed])
  }

  function Run(c: Format, s: System, actions: seq<Action>): System
  {
    if actions == [] then s
    else Step(c, Run(c, s, actions[..|actions| - 1]), actions[|actions| - 1])
  }

  const EMPTY: System := System(Store([], false, map[]), Idle, [])

  // What the log says

  ghost predicate WasHandled(log: seq<Observation>, key: nat, digest: nat)
  {
    Called(key, digest, true) in log
  }

  ghost predicate WasAccepted(log: seq<Observation>, key: nat, digest: nat)
  {
    Answered(key, digest, Ok(Accepted)) in log
  }

  /** Receipts that say no more than happened and forget no acceptance. */
  ghost predicate Honest(receipts: map<nat, nat>, log: seq<Observation>)
  {
    && (forall k :: k in receipts ==> WasHandled(log, k, receipts[k]))
    && (forall k, d :: WasAccepted(log, k, d) ==> k in receipts && receipts[k] == d)
  }

  predicate IsAcceptance(o: Observation)
  {
    o.Answered? && o.answer == Ok(Accepted)
  }

  predicate IsSuccess(o: Observation)
  {
    o.Called? && o.succeeded
  }

  predicate Reaches(o: Observation, key: nat)
  {
    (o.Called? || IsAcceptance(o)) && o.key == key
  }

  /** After an acceptance, its key never reaches the handler again and is never accepted again. */
  ghost predicate Settled(log: seq<Observation>)
  {
    forall i, j :: 0 <= i < j < |log| && IsAcceptance(log[i]) ==> !Reaches(log[j], log[i].key)
  }

  /** Every answer that promises a handled message follows a successful handler call for it. */
  ghost predicate Earned(log: seq<Observation>)
  {
    forall j :: 0 <= j < |log| && log[j].Answered? && log[j].answer.Ok? ==>
      WasHandled(log[..j], log[j].key, log[j].digest)
  }

  /** What comes right after a handler success: its answer, or a crash. */
  predicate Closes(o: Observation, next: Observation)
  {
    || next.Crashed?
    || (o.Called? && next.Answered? && next.key == o.key && next.digest == o.digest
        && (next.answer.Err? || IsAcceptance(next)))
  }

  predicate ClosedAt(log: seq<Observation>, i: nat)
    requires i < |log|
  {
    i + 1 < |log| ==> Closes(log[i], log[i + 1])
  }

  ghost predicate Closed(log: seq<Observation>)
  {
    forall i :: 0 <= i < |log| && IsSuccess(log[i]) ==> ClosedAt(log, i)
  }

  ghost predicate LogInv(log: seq<Observation>)
  {
    Settled(log) && Earned(log) && Closed(log)
  }

  predicate PendingSuccess(log: seq<Observation>)
  {
    log != [] && IsSuccess(log[|log| - 1])
  }

  ghost predicate StageInv(s: System)
  {
    && (!s.stage.Idle? ==> s.store.loaded && s.stage.receipt.key !in s.store.receipts)
    && (PendingSuccess(s.log) <==> s.stage.Handled?)
    && (s.stage.Handled? ==> s.log[|s.log| - 1] == Called(s.stage.receipt.key, s.stage.receipt.digest, true))
  }

  ghost predicate SystemInv(c: Format, s: System)
  {
    && Torn(c, Tail(s.store.disk)) && |s.store.disk| <= MAX_BYTES
    && (s.store.loaded ==> Honest(s.store.receipts, s.log))
    && (Reload(c, s.store.disk).Ok? ==> Honest(Reload(c, s.store.disk).value, s.log))
    && LogInv(s.log)
    && StageInv(s)
  }

  // The log grows

  lemma HonestGrows(receipts: map<nat, nat>, log: seq<Observation>, o: Observation)
    requires Honest(receipts, log) && !IsAcceptance(o)
    ensures Honest(receipts, log + [o])
  {
    forall k, d | WasAccepted(log + [o], k, d)
      ensures k in receipts && receipts[k] == d
    {
      var a := Answered(k, d, Ok(Accepted));
      assert a in log + [o] && IsAcceptance(a);
      assert WasAccepted(log, k, d);
    }
    forall k | k in receipts
      ensures WasHandled(log + [o], k, receipts[k])
    {
      assert WasHandled(log, k, receipts[k]);
    }
  }

  lemma SettledGrows(log: seq<Observation>, o: Observation)
    requires Settled(log)
    requires o.Called? || IsAcceptance(o) ==> forall d :: !WasAccepted(log, o.key, d)
    ensures Settled(log + [o])
  {
    var longer := log + [o];
    forall i, j | 0 <= i < j < |longer| && IsAcceptance(longer[i])
      ensures !Reaches(longer[j], longer[i].key)
    {
      if j == |log| {
        assert longer[i] in log;
        assert WasAccepted(log, longer[i].key, longer[i].digest);
      }
    }
  }

  lemma EarnedGrows(log: seq<Observation>, o: Observation)
    requires Earned(log)
    requires o.Answered? && o.answer.Ok? ==> WasHandled(log, o.key, o.digest)
    ensures Earned(log + [o])
  {
    var longer := log + [o];
    forall j | 0 <= j < |longer| && longer[j].Answered? && longer[j].answer.Ok?
      ensures WasHandled(longer[..j], longer[j].key, longer[j].digest)
    {
      assert longer[..j] == log[..j];
    }
  }

  lemma ClosedGrows(log: seq<Observation>, o: Observation)
    requires Closed(log)
    requires PendingSuccess(log) ==> Closes(log[|log| - 1], o)
    ensures Closed(log + [o])
  {
    var longer := log + [o];
    forall i | 0 <= i < |longer| && IsSuccess(longer[i])
      ensures ClosedAt(longer, i)
    {
      if i < |log| {
        assert ClosedAt(log, i);
      }
    }
  }

  lemma NotAccepted(receipts: map<nat, nat>, log: seq<Observation>, key: nat)
    requires Honest(receipts, log) && key !in receipts
    ensures forall d :: !WasAccepted(log, key, d)
  {
  }

  /** One more observation that is no acceptance. */
  lemma ObservationKeeps(c: Format, s: System, o: Observation, stage: Stage)
    requires SystemInv(c, s) && !IsAcceptance(o)
    requires o.Called? ==> s.store.loaded && o.key !in s.store.receipts
    requires o.Answered? && o.answer.Ok? ==> WasHandled(s.log, o.key, o.digest)
    requires PendingSuccess(s.log) ==> Closes(s.log[|s.log| - 1], o)
    requires StageInv(System(s.store, stage, s.log + [o]))
    ensures SystemInv(c, System(s.store, stage, s.log + [o]))
  {
    if o.Called? {
      NotAccepted(s.store.receipts, s.log, o.key);
    }
    SettledGrows(s.log, o);
    EarnedGrows(s.log, o);
    ClosedGrows(s.log, o);
    if s.store.loaded {
      HonestGrows(s.store.receipts, s.log, o);
    }
    if Reload(c, s.store.disk).Ok? {
      HonestGrows(Reload(c, s.store.disk).value, s.log, o);
    }
  }

  /** Adding the receipt of a handled key keeps a map honest, whether or not it was acknowledged. */
  lemma HonestWith(receipts: map<nat, nat>, log: seq<Observation>, r: Receipt)
    requires Honest(receipts, log) && WasHandled(log, r.key, r.digest)
    requires r.key !in receipts || receipts[r.key] == r.digest
    ensures Honest(receipts[r.key := r.digest], log)
  {
    var after := receipts[r.key := r.digest];
    forall k | k in after
      ensures WasHandled(log, k, after[k])
    {
      if k != r.key {
        assert WasHandled(log, k, receipts[k]);
      }
    }
  }

  lemma HonestAccepted(receipts: map<nat, nat>, log: seq<Observation>, r: Receipt)
    requires Honest(receipts, log) && r.key in receipts && receipts[r.key] == r.digest
    ensures Honest(receipts, log + [Answered(r.key, r.digest, Ok(Accepted))])
  {
    var o := Answered(r.key, r.digest, Ok(Accepted));
    forall k, d | WasAccepted(log + [o], k, d)
      ensures k in receipts && receipts[k] == d
    {
      if Answered(k, d, Ok(Accepted)) != o {
        assert WasAccepted(log, k, d);
      }
    }
    forall k | k in receipts
      ensures WasHandled(log + [o], k, receipts[k])
    {
      assert WasHandled(log, k, receipts[k]);
    }
  }

  // Steps

  /** The file after an append of a handled receipt, complete or cut short, acknowledged or not. */
  lemma AppendKeeps(c: Format, disk: Bytes, r: Receipt, written: nat, log: seq<Observation>)
    requires SoundFormat(c) && Torn(c, Tail(disk)) && WasHandled(log, r.key, r.digest)
    requires Reload(c, disk).Ok? ==> Honest(Reload(c, disk).value, log)
    ensures var after := Appended(c, disk, r, written);
            && Torn(c, Tail(after))
            && (Reload(c, after).Ok? ==> Honest(Reload(c, after).value, log))
            && (written >= |Line(c, r)| && Reload(c, after).Ok? ==>
                  r.key in Reload(c, after).value && Reload(c, after).value[r.key] == r.digest)
  {
    AppendedShape(c, disk, r, written);
    ReloadAfterAppend(c, disk, r, written);
    if written >= |Line(c, r)| && Reload(c, disk).Ok? {
      ReplayAppendedLine(c, Reload(c, disk).value, Tail(disk), r);
      var before := Reload(c, disk).value;
      if r.key !in before || before[r.key] == r.digest {
        HonestWith(before, log, r);
      }
    }
  }

  lemma AdmissionKeeps(c: Format, s: System, r: Receipt, load: LoadIo)
    requires SystemInv(c, s) && s.stage.Idle?
    ensures var (l, stop) := Admission(c, s.store, r, load);
            && SystemInv(c, System(l, Idle, s.log))
            && (stop.None? ==> l.loaded && r.key !in l.receipts)
            && (stop == Some(Ok(Duplicate)) ==> l.loaded && r.key in l.receipts && l.receipts[r.key] == r.digest)
            && (stop.Some? ==> stop.value.Err? || stop.value == Ok(Duplicate))
  {
    LoadKeeps(c, s.store, load);
  }

  lemma DeliverKeeps(c: Format, s: System, r: Receipt, load: LoadIo)
    requires SystemInv(c, s)
    ensures SystemInv(c, Step(c, s, Deliver(r, load)))
  {
    if s.stage.Idle? {
      AdmissionKeeps(c, s, r, load);
      var (l, stop) := Admission(c, s.store, r, load);
      if stop.Some? {
        ObservationKeeps(c, System(l, Idle, s.log), Answered(r.key, r.digest, stop.value), Idle);
      }
    }
  }

  lemma HandlerKeeps(c: Format, s: System, succeeds: bool)
    requires SystemInv(c, s)
    ensures SystemInv(c, Step(c, s, RunHandler(succeeds)))
  {
    if s.stage.Admitted? {
      var r := s.stage.receipt;
      var called := Called(r.key, r.digest, succeeds);
      if succeeds {
        ObservationKeeps(c, s, called, Handled(r));
      } else {
        ObservationKeeps(c, s, called, Idle);
        ObservationKeeps(c, System(s.store, Idle, s.log + [called]), Answered(r.key, r.digest, Err(DownstreamFailure)), Idle);
      }
    }
  }

  lemma PendingHandled(log: seq<Observation>, r: Receipt)
    requires log != [] && log[|log| - 1] == Called(r.key, r.digest, true)
    ensures WasHandled(log, r.key, r.digest)
  {
  }

  lemma AppendBounded(c: Format, disk: Bytes, r: Receipt, io: AppendIo)
    requires |disk| <= MAX_BYTES
    ensures |Append(c, disk, r, io).0| <= MAX_BYTES
    ensures var after := Append(c, disk, r, io).0;
            after == disk || exists n :: after == Appended(c, disk, r, n)
  {
    if |disk| + |Line(c, r)| <= MAX_BYTES {
      var n := if io.Commits? then |Line(c, r)| else io.written;
      assert Append(c, disk, r, io).0 == Appended(c, disk, r, n);
    }
  }

  /** A failed append, or one that a crash cuts short, while the answer is still open. */
  lemma LostKeeps(c: Format, s: System, io: AppendIo)
    requires SoundFormat(c) && SystemInv(c, s) && s.stage.Handled?
    ensures var disk := Append(c, s.store.disk, s.stage.receipt, io).0;
            SystemInv(c, s.(store := s.store.(disk := disk)))
  {
    var r := s.stage.receipt;
    PendingHandled(s.log, r);
    AppendBounded(c, s.store.disk, r, io);
    var disk := Append(c, s.store.disk, r, io).0;
    if disk != s.store.disk {
      var n :| disk == Appended(c, s.store.disk, r, n);
      AppendKeeps(c, s.store.disk, r, n, s.log);
    }
  }

  lemma AcceptedKeeps(c: Format, s: System)
    requires SoundFormat(c) && SystemInv(c, s) && s.stage.Handled?
    requires Commitment(c, s.store, s.stage.receipt, Commits).1.Ok?
    ensures SystemInv(c, Step(c, s, Commit(Commits)))
  {
    var r := s.stage.receipt;
    var o := Answered(r.key, r.digest, Ok(Accepted));
    PendingHandled(s.log, r);
    LostKeeps(c, s, Commits);
    AppendKeeps(c, s.store.disk, r, |Line(c, r)|, s.log);
    NotAccepted(s.store.receipts, s.log, r.key);
    SettledGrows(s.log, o);
    EarnedGrows(s.log, o);
    ClosedGrows(s.log, o);
    HonestWith(s.store.receipts, s.log, r);
    var t := Step(c, s, Commit(Commits));
    HonestAccepted(t.store.receipts, s.log, r);
    if Reload(c, t.store.disk).Ok? {
      HonestAccepted(Reload(c, t.store.disk).value, s.log, r);
    }
  }

  lemma CommitKeeps(c: Format, s: System, io: AppendIo)
    requires SoundFormat(c) && SystemInv(c, s)
    ensures SystemInv(c, Step(c, s, Commit(io)))
  {
    if s.stage.Handled? {
      var r := s.stage.receipt;
      var (t, answer) := Commitment(c, s.store, r, io);
      if answer.Ok? {
        AcceptedKeeps(c, s);
      } else {
        LostKeeps(c, s, io);
        ObservationKeeps(c, s.(store := t), Answered(r.key, r.digest, answer), Idle);
      }
    }
  }

  lemma UnloadedKeeps(c: Format, s: System)
    requires SystemInv(c, s)
    ensures SystemInv(c, System(Store(s.store.disk, false, map[]), Idle, s.log + [Crashed]))
  {
    SettledGrows(s.log, Crashed);
    EarnedGrows(s.log, Crashed);
    ClosedGrows(s.log, Crashed);
    if Reload(c, s.store.disk).Ok? {
      HonestGrows(Reload(c, s.store.disk).value, s.log, Crashed);
    }
  }

  lemma CrashKeeps(c: Format, s: System, written: nat)
    requires SoundFormat(c) && SystemInv(c, s)
    ensures SystemInv(c, Step(c, s, Crash(written)))
  {
    if s.stage.Handled? {
      LostKeeps(c, s, Fails(written));
      UnloadedKeeps(c, s.(store := s.store.(disk := Cut(c, s.store.disk, s.stage.receipt, written))));
    } else {
      UnloadedKeeps(c, s);
    }
  }

  lemma StepKeeps(c: Format, s: System, a: Action)
    requires SoundFormat(c) && SystemInv(c, s)
    ensures SystemInv(c, Step(c, s, a))
  {
    match a
    case Deliver(r, load) => DeliverKeeps(c, s, r, load);
    case RunHandler(succeeds) => HandlerKeeps(c, s, succeeds);
    case Commit(io) => CommitKeeps(c, s, io);
    case Crash(written) => CrashKeeps(c, s, written);
  }

  lemma EmptyHolds(c: Format)
    ensures SystemInv(c, EMPTY)
  {
    WholeFile([]);
  }

  lemma {:induction false} Reachable(c: Format, actions: seq<Action>)
    requires SoundFormat(c)
    ensures SystemInv(c, Run(c, EMPTY, actions))
  {
    if actions == [] {
      EmptyHolds(c);
    } else {
      Reachable(c, actions[..|actions| - 1]);
      StepKeeps(c, Run(c, EMPTY, actions[..|actions| - 1]), actions[|actions| - 1]);
    }
  }

  // The main results

  /**
   Over all deliveries, crashes and failed appends: an accepted or duplicate answer follows a successful
   handler call with that digest, and once a key is accepted no handler call and no acceptance for it
   ever follows, with whatever digest.
   */
  lemma ReceiptsAreFinal(c: Format, actions: seq<Action>)
    requires SoundFormat(c)
    ensures var log := Run(c, EMPTY, actions).log;
            Earned(log) && Settled(log)
  {
    Reachable(c, actions);
  }

  /** The memory never holds a receipt that was not handled, and a file that loads has all acknowledged ones. */
  lemma MemoryIsHonest(c: Format, actions: seq<Action>)
    requires SoundFormat(c)
    ensures var s := Run(c, EMPTY, actions);
            && (s.store.loaded ==> Honest(s.store.receipts, s.log))
            && (Reload(c, s.store.disk).Ok? ==> Honest(Reload(c, s.store.disk).value, s.log))
  {
    Reachable(c, actions);
  }

  /** A success that was lost: right after it the process crashed, or its receipt could not be appended. */
  predicate LostAt(log: seq<Observation>, i: nat)
    requires i < |log|
  {
    i + 1 < |log| && (log[i + 1].Crashed? || (log[i + 1].Answered? && log[i + 1].answer.Err?))
  }

  ghost predicate RepeatsOnlyLost(log: seq<Observation>)
  {
    forall i, j :: 0 <= i < j < |log| && IsSuccess(log[i]) && IsSuccess(log[j]) && log[i].key == log[j].key ==> LostAt(log, i)
  }

  lemma RepeatIsLost(log: seq<Observation>, i: nat, j: nat)
    requires LogInv(log) && i < j < |log| && IsSuccess(log[i]) && IsSuccess(log[j]) && log[i].key == log[j].key
    ensures LostAt(log, i)
  {
    assert ClosedAt(log, i);
    assert !(IsAcceptance(log[i + 1]) && Reaches(log[j], log[i + 1].key)) || i + 1 == j;
  }

  /**
   In every run a handler succeeds for a key again only if each earlier success for the key was lost: the
   next thing that happened was a crash, or the failure of the append of its receipt.
   */
  lemma HandledAgainOnlyIfLost(c: Format, actions: seq<Action>)
    requires SoundFormat(c)
    ensures RepeatsOnlyLost(Run(c, EMPTY, actions).log)
  {
    Reachable(c, actions);
    var log := Run(c, EMPTY, actions).log;
    forall i, j | 0 <= i < j < |log| && IsSuccess(log[i]) && IsSuccess(log[j]) && log[i].key == log[j].key
      ensures LostAt(log, i)
    {
      RepeatIsLost(log, i, j);
    }
  }

  /** After a failed append the next delivery of the key always reaches the handler, with whatever digest. */
  lemma FailedAppendRepeats(c: Format, actions: seq<Action>, io: AppendIo, again: Receipt, load: LoadIo)
    requires SoundFormat(c)
    requires var s := Run(c, EMPTY, actions);
             s.stage.Handled? && Commitment(c, s.store, s.stage.receipt, io).1.Err? && again.key == s.stage.receipt.key
    ensures var s := Run(c, EMPTY, actions);
            Step(c, Step(c, s, Commit(io)), Deliver(again, load)).stage == Admitted(again)
  {
    Reachable(c, actions);
  }

  /**
   After a crash behind the handler, exactly: the next delivery of the key reaches the handler again if and
   only if the file could be loaded before, had no receipt for the key, and got less than its whole line.
   */
  lemma CrashRepeatsIff(c: Format, s: System, written: nat, again: Receipt)
    requires SoundFormat(c) && SystemInv(c, s) && s.stage.Handled? && again.key == s.stage.receipt.key
    ensures var r := s.stage.receipt;
            var reload := Reload(c, s.store.disk);
            Step(c, Step(c, s, Crash(written)), Deliver(again, Loads)).stage == Admitted(again) <==>
            && reload.Ok? && r.key !in reload.value
            && (written < |Line(c, r)| || |s.store.disk| + |Line(c, r)| > MAX_BYTES)
  {
    var r := s.stage.receipt;
    var disk := Cut(c, s.store.disk, r, written);
    CrashKeeps(c, s, written);
    AppendBounded(c, s.store.disk, r, Fails(written));
    CrashAdmits(c, disk, s.log + [Crashed], again);
    ReloadAfterAppend(c, s.store.disk, r, written);
    if written >= |Line(c, r)| && Reload(c, s.store.disk).Ok? {
      ReplayAppendedLine(c, Reload(c, s.store.disk).value, Tail(s.store.disk), r);
    }
  }

  lemma CrashAdmits(c: Format, disk: Bytes, log: seq<Observation>, again: Receipt)
    requires |disk| <= MAX_BYTES
    ensures var s := System(Store(disk, false, map[]), Idle, log);
            Step(c, s, Deliver(again, Loads)).stage == Admitted(again) <==>
            Reload(c, disk).Ok? && again.key !in Reload(c, disk).value
  {
  }

  /** The handler succeeded, the process died before the append, and the redelivery ran the handler to success again. */
  lemma HandledTwice(c: Format, r: Receipt)
    requires SoundFormat(c) && |Line(c, r)| <= MAX_BYTES
    ensures Run(c, EMPTY, [Deliver(r, Loads), RunHandler(true), Crash(0), Deliver(r, Loads), RunHandler(true), Commit(Commits)]).log ==
              [Called(r.key, r.digest, true), Crashed, Called(r.key, r.digest, true), Answered(r.key, r.digest, Ok(Accepted))]
  {
    var first := [Deliver(r, Loads), RunHandler(true)];
    var crash := first + [Crash(0)];
    var again := crash + [Deliver(r, Loads)];
    var handled := again + [RunHandler(true)];
    WholeFile([]);
    assert Run(c, EMPTY, first) == System(Store([], true, map[]), Handled(r), [Called(r.key, r.digest, true)]) by {
      assert first[..1] == [Deliver(r, Loads)] && [Deliver(r, Loads)][..0] == [];
      assert Run(c, EMPTY, [Deliver(r, Loads)]) == Step(c, EMPTY, Deliver(r, Loads));
    }
    OneMore(c, EMPTY, first, Crash(0));
    assert Appended(c, [], r, 0) == [];
    OneMore(c, EMPTY, crash, Deliver(r, Loads));
    OneMore(c, EMPTY, again, RunHandler(true));
    OneMore(c, EMPTY, handled, Commit(Commits));
    assert handled + [Commit(Commits)] ==
           [Deliver(r, Loads), RunHandler(true), Crash(0), Deliver(r, Loads), RunHandler(true), Commit(Commits)];
  }

  lemma OneMore(c: Format, s: System, actions: seq<Action>, a: Action)
    ensures Run(c, s, actions + [a]) == Step(c, Run(c, s, actions), a)
  {
    assert (actions + [a])[..|actions|] == actions;
  }

  // Runs that lose no receipt

  /** Nothing is lost in this step: appends commit, and no crash falls between a handler's success and its answer. */
  predicate Lossless(c: Format, s: System, a: Action)
  {
    s.stage.Handled? ==>
      && !a.Crash?
      && (a.Commit? ==> a.append.Commits? && |s.store.disk| + |Line(c, s.stage.receipt)| <= MAX_BYTES)
  }

  predicate LosslessAt(c: Format, actions: seq<Action>, i: nat)
    requires i < |actions|
  {
    Lossless(c, Run(c, EMPTY, actions[..i]), actions[i])
  }

  predicate LosslessRun(c: Format, actions: seq<Action>)
  {
    forall i :: 0 <= i < |actions| ==> LosslessAt(c, actions, i)
  }

  predicate FileMatches(c: Format, s: Store)
  {
    && Whole(s.disk) && Reload(c, s.disk).Ok?
    && (s.loaded ==> Reload(c, s.disk) == Ok(s.receipts))
  }

  ghost predicate OneSuccessPerKey(log: seq<Observation>)
  {
    forall i, j :: 0 <= i < j < |log| && IsSuccess(log[i]) && IsSuccess(log[j]) ==> log[i].key != log[j].key
  }

  /** Every success is acknowledged, but for the one whose receipt is being appended. */
  ghost predicate AllAccepted(log: seq<Observation>)
  {
    forall i :: 0 <= i < |log| - 1 && IsSuccess(log[i]) ==> WasAccepted(log, log[i].key, log[i].digest)
  }

  ghost predicate NoneLost(log: seq<Observation>)
  {
    forall i :: 0 <= i < |log| && IsSuccess(log[i]) ==> !LostAt(log, i)
  }

  lemma LoadMatches(c: Format, s: Store, load: LoadIo)
    requires FileMatches(c, s)
    ensures FileMatches(c, Load(c, s, load).0)
  {
    WholeFile(s.disk);
  }

  lemma DeliverMatches(c: Format, s: System, r: Receipt, load: LoadIo)
    requires FileMatches(c, s.store)
    ensures FileMatches(c, Step(c, s, Deliver(r, load)).store)
  {
    LoadMatches(c, s.store, load);
    assert Step(c, s, Deliver(r, load)).store == s.store || Step(c, s, Deliver(r, load)).store == Load(c, s.store, load).0;
  }

  lemma CommitMatches(c: Format, s: System)
    requires SoundFormat(c) && SystemInv(c, s) && FileMatches(c, s.store) && s.stage.Handled?
    requires |s.store.disk| + |Line(c, s.stage.receipt)| <= MAX_BYTES
    ensures FileMatches(c, Step(c, s, Commit(Commits)).store)
    ensures var r := s.stage.receipt;
            Step(c, s, Commit(Commits)).log == s.log + [Answered(r.key, r.digest, Ok(Accepted))]
  {
    var r := s.stage.receipt;
    WholeFile(s.store.disk);
    AppendedShape(c, s.store.disk, r, |Line(c, r)|);
    ReloadAfterAppend(c, s.store.disk, r, |Line(c, r)|);
    ReplayAppendedLine(c, s.store.receipts, [], r);
  }

  lemma StepMatches(c: Format, s: System, a: Action)
    requires SoundFormat(c) && SystemInv(c, s) && FileMatches(c, s.store) && Lossless(c, s, a)
    ensures FileMatches(c, Step(c, s, a).store)
  {
    match a
    case Deliver(r, load) => DeliverMatches(c, s, r, load);
    case RunHandler(_) =>
    case Commit(_) =>
      if s.stage.Handled? {
        CommitMatches(c, s);
      }
    case Crash(_) =>
  }

  lemma NoneLostGrows(log: seq<Observation>, o: Observation)
    requires NoneLost(log)
    requires PendingSuccess(log) ==> IsAcceptance(o)
    ensures NoneLost(log + [o])
  {
    var longer := log + [o];
    forall i | 0 <= i < |longer| && IsSuccess(longer[i])
      ensures !LostAt(longer, i)
    {
      if i < |log| {
        assert longer[i] == log[i];
        assert !LostAt(log, i);
      }
    }
  }

  lemma StepLosesNothing(c: Format, s: System, a: Action)
    requires SoundFormat(c) && SystemInv(c, s) && FileMatches(c, s.store) && Lossless(c, s, a)
    requires NoneLost(s.log)
    ensures NoneLost(Step(c, s, a).log)
  {
    match a
    case Deliver(r, load) =>
      if s.stage.Idle? && Admission(c, s.store, r, load).1.Some? {
        NoneLostGrows(s.log, Answered(r.key, r.digest, Admission(c, s.store, r, load).1.value));
      }
    case RunHandler(succeeds) =>
      if s.stage.Admitted? {
        var r := s.stage.receipt;
        var called := Called(r.key, r.digest, succeeds);
        NoneLostGrows(s.log, called);
        if !succeeds {
          NoneLostGrows(s.log + [called], Answered(r.key, r.digest, Err(DownstreamFailure)));
        }
      }
    case Commit(_) =>
      if s.stage.Handled? {
        CommitMatches(c, s);
        NoneLostGrows(s.log, Answered(s.stage.receipt.key, s.stage.receipt.digest, Ok(Accepted)));
      }
    case Crash(_) =>
      NoneLostGrows(s.log, Crashed);
  }

  lemma {:induction false} LosslessKeeps(c: Format, actions: seq<Action>)
    requires SoundFormat(c) && LosslessRun(c, actions)
    ensures FileMatches(c, Run(c, EMPTY, actions).store) && NoneLost(Run(c, EMPTY, actions).log)
  {
    WholeFile([]);
    if actions != [] {
      var n := |actions| - 1;
      forall i | 0 <= i < n
        ensures LosslessAt(c, actions[..n], i)
      {
        assert LosslessAt(c, actions, i) && actions[..n][..i] == actions[..i];
      }
      LosslessKeeps(c, actions[..n]);
      Reachable(c, actions[..n]);
      assert LosslessAt(c, actions, n);
      StepMatches(c, Run(c, EMPTY, actions[..n]), actions[n]);
      StepLosesNothing(c, Run(c, EMPTY, actions[..n]), actions[n]);
    }
  }

  lemma NoneLostIsOnce(log: seq<Observation>)
    requires LogInv(log) && NoneLost(log)
    ensures OneSuccessPerKey(log) && AllAccepted(log)
  {
    forall i, j | 0 <= i < j < |log| && IsSuccess(log[i]) && IsSuccess(log[j])
      ensures log[i].key != log[j].key
    {
      if log[i].key == log[j].key {
        RepeatIsLost(log, i, j);
      }
    }
    forall i | 0 <= i < |log| - 1 && IsSuccess(log[i])
      ensures WasAccepted(log, log[i].key, log[i].digest)
    {
      assert ClosedAt(log, i) && !LostAt(log, i);
      assert log[i + 1] == Answered(log[i].key, log[i].digest, Ok(Accepted));
    }
  }

  /**
   In runs in which appends commit and no crash falls between a handler's success and its answer, with
   restarts and failed loads anywhere else: the handler succeeds exactly once per acknowledged key, every
   success is acknowledged, and the file is whole and holds just what the process remembers.
   */
  lemma ExactlyOnceUnlessLost(c: Format, actions: seq<Action>)
    requires SoundFormat(c) && LosslessRun(c, actions)
    ensures var s := Run(c, EMPTY, actions);
            OneSuccessPerKey(s.log) && AllAccepted(s.log) && FileMatches(c, s.store)
  {
    LosslessKeeps(c, actions);
    Reachable(c, actions);
    NoneLostIsOnce(Run(c, EMPTY, actions).log);
  }

  // A receipt that was acknowledged and cannot be read

  /** A first event is handled but its receipt's append fails after some bytes; its key is then accepted for `second`. */
  function Replaced(c: Format, first: Receipt, second: Receipt, written: nat): (Store, Store, Result<Disposition, Error>)
  {
    var loaded := Load(c, EMPTY.store, Loads).0;
    var failed := Commitment(c, loaded, first, Fails(written)).0;
    var (after, answer) := Commitment(c, failed, second, Commits);
    (failed, after, answer)
  }

  lemma FirstReceipt(c: Format, r: Receipt, written: nat)
    requires SoundFormat(c) && |Line(c, r)| <= MAX_BYTES
    ensures var disk := Appended(c, [], r, written);
            && Load(c, EMPTY.store, Loads).0 == Store([], true, map[])
            && Commitment(c, Store([], true, map[]), r, Fails(written)).0 == Store(disk, true, map[])
            && Torn(c, Tail(disk))
            && Reload(c, disk) == Ok(if written < |Line(c, r)| then map[] else map[r.key := r.digest])
  {
    WholeFile([]);
    assert ReplayLines(c, Lines([])) == Ok(map[]);
    assert Torn(c, Tail([]));
    AppendedShape(c, [], r, written);
    ReloadAfterAppend(c, [], r, written);
    ReplayAppendedLine(c, map[], [], r);
    assert Tail([]) == [];
  }

  lemma FirstTakes(c: Format, first: Receipt, second: Receipt, written: nat)
    requires SoundFormat(c) && written <= |Line(c, first)| && |Line(c, first)| <= MAX_BYTES && first.key == second.key
    ensures var disk := Appended(c, [], first, written);
            && (Whole(disk) <==> written == 0 || written == |Line(c, first)|)
            && (Takes(c, disk, second) <==> written == 0 || (written == |Line(c, first)| && first.digest == second.digest))
  {
    var disk := Appended(c, [], first, written);
    FirstReceipt(c, first, written);
    assert disk == Line(c, first)[..written] && c.writes(first);
    if 0 < written < |Line(c, first)| {
      assert disk[written - 1] in c.encode(first);
    }
  }

  /**
   Such runs, exactly: a restart can load the file after the second acknowledgement if and only if nothing of
   the first receipt had reached it, or all of it and the digests agree. With the whole line of another
   digest the file ended in a newline, and the acknowledgement still makes it unreadable.
   */
  lemma ReplacedReadableIff(c: Format, first: Receipt, second: Receipt, written: nat)
    requires SoundFormat(c) && written <= |Line(c, first)| && first.key == second.key
    requires |Line(c, first)| + |Line(c, second)| <= MAX_BYTES
    ensures var (failed, after, answer) := Replaced(c, first, second, written);
            && answer == Ok(Accepted) && Reload(c, failed.disk).Ok?
            && (Whole(failed.disk) <==> written == 0 || written == |Line(c, first)|)
            && (Reload(c, after.disk).Ok? <==>
                  written == 0 || (written == |Line(c, first)| && first.digest == second.digest))
  {
    FirstReceipt(c, first, written);
    FirstTakes(c, first, second, written);
    AcknowledgedReadable(c, Store(Appended(c, [], first, written), true, map[]), second);
  }
}
