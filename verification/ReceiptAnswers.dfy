/** Exactly what each delivery to the receipt store is answered, and what it leaves on record. */
module ReceiptAnswers {
  import opened Wrappers
  import opened AppendLog
  import opened ReceiptStore
  import opened ReceiptRuns

  // What a file says

  ghost predicate Holds(c: Format, lines: seq<Bytes>, receipts: seq<Receipt>)
  {
    |receipts| == |lines| && forall i :: 0 <= i < |lines| ==> lines[i] != [] && c.decode(lines[i]) == Some(receipts[i])
  }

  /** No key with two digests. */
  predicate Agree(receipts: seq<Receipt>)
  {
    forall i, j :: 0 <= i < |receipts| && 0 <= j < |receipts| && receipts[i].key == receipts[j].key ==>
      receipts[i].digest == receipts[j].digest
  }

  /** The map has exactly the keys of the receipts, with their digests. */
  ghost predicate Tabulates(found: map<nat, nat>, receipts: seq<Receipt>)
  {
    && (forall i :: 0 <= i < |receipts| ==> receipts[i].key in found && found[receipts[i].key] == receipts[i].digest)
    && (forall k :: k in found ==> exists i :: 0 <= i < |receipts| && receipts[i].key == k)
  }

  ghost predicate FileHolds(c: Format, lines: seq<Bytes>, receipts: seq<Receipt>)
  {
    Holds(c, lines, receipts) && Agree(receipts)
  }

  lemma {:induction false} ReplayedHolds(c: Format, lines: seq<Bytes>) returns (receipts: seq<Receipt>)
    requires ReplayLines(c, lines).Ok?
    ensures FileHolds(c, lines, receipts) && Tabulates(ReplayLines(c, lines).value, receipts)
  {
    receipts := [];
    if lines != [] {
      var n := |lines| - 1;
      var earlier := ReplayedHolds(c, lines[..n]);
      var last := c.decode(lines[n]).value;
      receipts := earlier + [last];
      HoldsMore(c, lines, earlier, last);
      AgreeMore(ReplayLines(c, lines[..n]).value, earlier, last);
    }
  }

  lemma HoldsMore(c: Format, lines: seq<Bytes>, earlier: seq<Receipt>, last: Receipt)
    requires lines != [] && Holds(c, lines[..|lines| - 1], earlier)
    requires lines[|lines| - 1] != [] && c.decode(lines[|lines| - 1]) == Some(last)
    ensures Holds(c, lines, earlier + [last])
  {
    var n := |lines| - 1;
    assert forall i :: 0 <= i < n ==> lines[i] == lines[..n][i];
  }

  lemma AgreeMore(found: map<nat, nat>, earlier: seq<Receipt>, last: Receipt)
    requires Agree(earlier) && Tabulates(found, earlier)
    requires last.key in found ==> found[last.key] == last.digest
    ensures Agree(earlier + [last]) && Tabulates(found[last.key := last.digest], earlier + [last])
  {
    var all, table := earlier + [last], found[last.key := last.digest];
    forall k | k in table
      ensures exists i :: 0 <= i < |all| && all[i].key == k
    {
      if k == last.key {
        assert all[|earlier|].key == k;
      } else {
        var i :| 0 <= i < |earlier| && earlier[i].key == k;
        assert all[i].key == k;
      }
    }
  }

  lemma LastAgrees(found: map<nat, nat>, receipts: seq<Receipt>)
    requires receipts != [] && Agree(receipts) && Tabulates(found, receipts[..|receipts| - 1])
    ensures var last := receipts[|receipts| - 1]; last.key in found ==> found[last.key] == last.digest
  {
    var n := |receipts| - 1;
    if receipts[n].key in found {
      var i :| 0 <= i < n && receipts[..n][i].key == receipts[n].key;
      assert receipts[i].digest == receipts[n].digest;
    }
  }

  lemma LineReplays(c: Format, found: map<nat, nat>, line: Bytes, r: Receipt)
    requires line != [] && c.decode(line) == Some(r) && (r.key in found ==> found[r.key] == r.digest)
    ensures ReplayLine(c, found, line) == Ok(found[r.key := r.digest])
  {
  }

  lemma HeldBefore(c: Format, lines: seq<Bytes>, receipts: seq<Receipt>)
    requires lines != [] && FileHolds(c, lines, receipts)
    ensures FileHolds(c, lines[..|lines| - 1], receipts[..|receipts| - 1])
  {
  }

  lemma {:induction false} HeldReplays(c: Format, lines: seq<Bytes>, receipts: seq<Receipt>)
    requires FileHolds(c, lines, receipts)
    ensures ReplayLines(c, lines).Ok? && Tabulates(ReplayLines(c, lines).value, receipts)
  {
    if lines != [] {
      var n := |lines| - 1;
      HeldBefore(c, lines, receipts);
      HeldReplays(c, lines[..n], receipts[..n]);
      var found := ReplayLines(c, lines[..n]).value;
      LastAgrees(found, receipts);
      LineReplays(c, found, lines[n], receipts[n]);
      AgreeMore(found, receipts[..n], receipts[n]);
      assert receipts[..n] + [receipts[n]] == receipts;
    }
  }

  /** A file loads exactly when its lines are receipts of which no two disagree, and then to the table of them. */
  lemma LoadsIffConsistent(c: Format, lines: seq<Bytes>)
    ensures ReplayLines(c, lines).Ok? <==> exists receipts :: FileHolds(c, lines, receipts)
    ensures forall receipts :: FileHolds(c, lines, receipts) ==>
              ReplayLines(c, lines).Ok? && Tabulates(ReplayLines(c, lines).value, receipts)
  {
    if ReplayLines(c, lines).Ok? {
      var receipts := ReplayedHolds(c, lines);
    }
    forall receipts | FileHolds(c, lines, receipts)
      ensures ReplayLines(c, lines).Ok? && Tabulates(ReplayLines(c, lines).value, receipts)
    {
      HeldReplays(c, lines, receipts);
    }
  }

  // What a delivery is answered

  /** The table that a delivery looks into, if there is one: the memory, or what the file loads to. */
  function OnRecord(c: Format, s: Store): Option<map<nat, nat>>
  {
    if s.loaded then Some(s.receipts)
    else if Reload(c, s.disk).Ok? then Some(Reload(c, s.disk).value)
    else None
  }

  /** The store after the file has been opened. */
  function Opened(s: Store, table: map<nat, nat>): Store
  {
    if s.loaded then s else Store(Repaired(s.disk), true, table)
  }

  lemma OpensWith(c: Format, s: Store)
    requires |s.disk| <= MAX_BYTES && OnRecord(c, s).Some?
    ensures Load(c, s, Loads) == (Opened(s, OnRecord(c, s).value), Ok(()))
  {
  }

  /** A key on record is answered at once: as a duplicate with its digest, as a conflict with another. Nothing changes. */
  lemma KnownKeyIsAnswered(c: Format, actions: seq<Action>, r: Receipt)
    requires SoundFormat(c)
    requires var s := Run(c, EMPTY, actions);
             s.stage.Idle? && OnRecord(c, s.store).Some? && r.key in OnRecord(c, s.store).value
    ensures var s := Run(c, EMPTY, actions);
            var table := OnRecord(c, s.store).value;
            var answer := if table[r.key] == r.digest then Ok(Duplicate) else Err(ReceiptConflict);
            Step(c, s, Deliver(r, Loads)) ==
            System(Opened(s.store, table), Idle, s.log + [Answered(r.key, r.digest, answer)])
  {
    Reachable(c, actions);
    OpensWith(c, Run(c, EMPTY, actions).store);
  }

  /**
   A message that was accepted and is delivered again, in the same process or after a restart that can load the
   file: it is a duplicate if and only if its content is the accepted one, and else a conflict.
   */
  lemma AcceptedKeyIsAnswered(c: Format, actions: seq<Action>, r: Receipt, accepted: nat)
    requires SoundFormat(c)
    requires var s := Run(c, EMPTY, actions);
             s.stage.Idle? && OnRecord(c, s.store).Some? && WasAccepted(s.log, r.key, accepted)
    ensures var s := Run(c, EMPTY, actions);
            var t := Step(c, s, Deliver(r, Loads));
            && (t.log == s.log + [Answered(r.key, r.digest, Ok(Duplicate))] <==> r.digest == accepted)
            && (t.log == s.log + [Answered(r.key, r.digest, Err(ReceiptConflict))] <==> r.digest != accepted)
            && t.stage.Idle? && OnRecord(c, t.store) == OnRecord(c, s.store)
            && (s.store.loaded ==> t.store == s.store)
  {
    MemoryIsHonest(c, actions);
    KnownKeyIsAnswered(c, actions, r);
    SameAnswer(Run(c, EMPTY, actions).log, r);
  }

  lemma SameAnswer(log: seq<Observation>, r: Receipt)
    ensures log + [Answered(r.key, r.digest, Ok(Duplicate))] != log + [Answered(r.key, r.digest, Err(ReceiptConflict))]
  {
    assert (log + [Answered(r.key, r.digest, Ok(Duplicate))])[|log|] !=
           (log + [Answered(r.key, r.digest, Err(ReceiptConflict))])[|log|];
  }

  /** Where the file cannot be opened the delivery fails, the handler is not called and nothing goes on record. */
  lemma UnopenedFails(c: Format, actions: seq<Action>, r: Receipt, load: LoadIo)
    requires SoundFormat(c)
    requires var s := Run(c, EMPTY, actions);
             && s.stage.Idle? && !s.store.loaded
             && (load.ReadFails? || (load.RepairFails? && Tail(s.store.disk) != []) || Reload(c, s.store.disk).Err?)
    ensures var s := Run(c, EMPTY, actions);
            var t := Step(c, s, Deliver(r, load));
            && t.stage.Idle? && !t.store.loaded && |t.log| == |s.log| + 1 && s.log <= t.log
            && t.log[|s.log|].Answered? && t.log[|s.log|].answer.Err?
            && Reload(c, t.store.disk) == Reload(c, s.store.disk)
  {
    Reachable(c, actions);
    var s := Run(c, EMPTY, actions);
    LoadKeeps(c, s.store, load);
  }

  /** The answer of a new message, by what its handler and its append do. */
  function NewAnswer(c: Format, disk: Bytes, r: Receipt, succeeds: bool, io: AppendIo): Result<Disposition, Error>
  {
    if !succeeds then Err(DownstreamFailure)
    else if |disk| + |Line(c, r)| > MAX_BYTES then Err(StoreTooLarge)
    else if io.Fails? then Err(IoError)
    else Ok(Accepted)
  }

  /** One delivery without interruption: admission, handler, append. */
  function Delivering(c: Format, s: System, r: Receipt, succeeds: bool, io: AppendIo): System
  {
    Step(c, Step(c, Step(c, s, Deliver(r, Loads)), RunHandler(succeeds)), Commit(io))
  }

  lemma NewKeyIsAdmitted(c: Format, s: System, r: Receipt)
    requires s.stage.Idle? && |s.store.disk| <= MAX_BYTES && OnRecord(c, s.store).Some? && r.key !in OnRecord(c, s.store).value
    ensures Step(c, s, Deliver(r, Loads)) == System(Opened(s.store, OnRecord(c, s.store).value), Admitted(r), s.log)
  {
    OpensWith(c, s.store);
  }

  lemma AdmittedIsHandled(c: Format, s: System, r: Receipt, succeeds: bool, io: AppendIo)
    requires s.stage == Admitted(r)
    ensures var t := Step(c, Step(c, s, RunHandler(succeeds)), Commit(io));
            var answer := NewAnswer(c, s.store.disk, r, succeeds, io);
            && t.stage.Idle?
            && t.log == s.log + [Called(r.key, r.digest, succeeds), Answered(r.key, r.digest, answer)]
            && t.store.receipts == (if answer.Ok? then s.store.receipts[r.key := r.digest] else s.store.receipts)
            && t.store.loaded == s.store.loaded
            && (answer.Ok? ==> t.store.disk == s.store.disk + Line(c, r))
            && (!succeeds || answer == Err(StoreTooLarge) ==> t.store.disk == s.store.disk)
  {
    var called := Called(r.key, r.digest, succeeds);
    var answered := Answered(r.key, r.digest, NewAnswer(c, s.store.disk, r, succeeds, io));
    assert s.log + [called] + [answered] == s.log + [called, answered];
  }

  /**
   A message that is not on record, delivered without interruption: the handler is called once; the message is
   accepted exactly if the handler succeeds, the file has room and the append commits, and then it goes on
   record with its digest. Otherwise the caller learns what failed, and nothing goes on record.
   */
  lemma NewMessageIsHandled(c: Format, actions: seq<Action>, r: Receipt, succeeds: bool, io: AppendIo)
    requires SoundFormat(c)
    requires var s := Run(c, EMPTY, actions);
             s.stage.Idle? && OnRecord(c, s.store).Some? && r.key !in OnRecord(c, s.store).value
    ensures var s := Run(c, EMPTY, actions);
            var t := Delivering(c, s, r, succeeds, io);
            var table := OnRecord(c, s.store).value;
            var answer := NewAnswer(c, Opened(s.store, table).disk, r, succeeds, io);
            && t.stage.Idle? && t.store.loaded
            && t.log == s.log + [Called(r.key, r.digest, succeeds), Answered(r.key, r.digest, answer)]
            && t.store.receipts == (if answer.Ok? then table[r.key := r.digest] else table)
  {
    Reachable(c, actions);
    var s := Run(c, EMPTY, actions);
    NewKeyIsAdmitted(c, s, r);
    AdmittedIsHandled(c, Step(c, s, Deliver(r, Loads)), r, succeeds, io);
  }
}
