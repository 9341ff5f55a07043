/** Where the credentials that are handed to the remote refresh come from, over whole runs. */
module RotationOrigins {
  import opened Wrappers
  import opened AppendLog
  import opened RotationEvents
  import opened RotationJournal
  import opened RotationRuns

  datatype Credential = Credential(obtained: int, usable: bool)

  /** The credential that a call works with. */
  function Carried(p: Party): Option<Credential>
  {
    match p
    case RefreshHas(_, obtained, usable) => Some(Credential(obtained, usable))
    case RefreshReserves(source, _) => Some(Credential(source, false))
    case RefreshReserved(e) => Some(Credential(e.source, false))
    case RefreshCalled(e) => Some(Credential(e.source, false))
    case RefreshCloses(e, _, _, _) => Some(Credential(e.source, false))
    case _ => None
  }

  function CarriedBy(s: System, id: nat): Option<Credential>
  {
    if id in s.parties then Carried(s.parties[id]) else None
  }

  /** The only ways to come by a credential: to have had it, or to read it from the Keychain as it is. */
  predicate Comes(s: System, a: Action, id: nat, x: Credential)
  {
    CarriedBy(s, id) == Some(x) || (a == ReadCredential(id, x.usable) && s.keychain == Some(x.obtained))
  }

  predicate HandsOver(s: System, t: System, id: nat, x: Credential)
  {
    CarriedBy(s, id) == Some(x) && !x.usable && t.refreshed == s.refreshed + [x.obtained]
  }

  ghost predicate Sourced(s: System, a: Action, t: System)
  {
    && (forall id: nat, x :: CarriedBy(t, id) == Some(x) ==> Comes(s, a, id, x))
    && (t.refreshed == s.refreshed || exists id: nat, x :: HandsOver(s, t, id, x))
  }

  lemma ReservedSource(c: Format, j: Journal, source: int, recorded: int, io: Io)
    ensures var r := Reserve(c, j, source, recorded, io).1; r.Ok? ==> r.value.source == source
  {
  }

  lemma RefreshSourced(c: Format, s: System, a: Action)
    requires OfRefresh(a) && !a.CallRemote?
    ensures Sourced(s, a, StepRefresh(c, s, a))
  {
    if a.RunReserve? && a.id in s.parties && s.parties[a.id].RefreshReserves? {
      ReservedSource(c, s.journal, s.parties[a.id].source, s.parties[a.id].recorded, a.io);
    }
  }

  lemma CallSourced(c: Format, s: System, id: nat)
    ensures Sourced(s, CallRemote(id), StepRefresh(c, s, CallRemote(id)))
  {
    if id in s.parties && s.parties[id].RefreshReserved? {
      assert HandsOver(s, StepRefresh(c, s, CallRemote(id)), id, Credential(s.parties[id].event.source, false));
    }
  }

  lemma ReconcileSourced(c: Format, s: System, a: Action)
    requires OfReconcile(a)
    ensures Sourced(s, a, StepReconcile(c, s, a))
  {
  }

  lemma ReplaceSourced(c: Format, s: System, a: Action)
    requires OfReplace(a)
    ensures Sourced(s, a, StepReplace(c, s, a))
  {
  }

  lemma PersistSourced(s: System, a: Action)
    requires OfPersist(a)
    ensures Sourced(s, a, StepPersist(s, a))
  {
  }

  lemma StepSourced(c: Format, s: System, a: Action)
    ensures Sourced(s, a, Step(c, s, a))
  {
    if a.CallRemote? {
      CallSourced(c, s, a.id);
    } else if OfRefresh(a) {
      RefreshSourced(c, s, a);
    } else if OfReconcile(a) {
      ReconcileSourced(c, s, a);
    } else if OfReplace(a) {
      ReplaceSourced(c, s, a);
    } else if OfPersist(a) {
      PersistSourced(s, a);
    }
    SameCalls(Act(c, s, a), Step(c, s, a), s, a);
  }

  lemma SameCalls(u: System, t: System, s: System, a: Action)
    requires Sourced(s, a, u) && t.parties == u.parties && t.refreshed == u.refreshed
    ensures Sourced(s, a, t)
  {
    forall id: nat, x | CarriedBy(t, id) == Some(x)
      ensures Comes(s, a, id, x)
    {
      assert CarriedBy(u, id) == Some(x);
    }
    if u.refreshed != s.refreshed {
      var id: nat, x :| HandsOver(s, u, id, x);
      assert HandsOver(s, t, id, x);
    }
  }

  /** At step `i` the call `id` read this credential, which was then in the Keychain. */
  predicate ReadAt(c: Format, start: System, actions: seq<Action>, i: nat, id: nat, x: Credential)
  {
    i < |actions| && actions[i] == ReadCredential(id, x.usable) && Run(c, start, actions[..i]).keychain == Some(x.obtained)
  }

  ghost predicate WasRead(c: Format, start: System, actions: seq<Action>, id: nat, x: Credential)
  {
    exists i: nat :: ReadAt(c, start, actions, i, id, x)
  }

  ghost predicate ReadAsSpent(c: Format, start: System, actions: seq<Action>, obtained: int)
  {
    exists id: nat :: WasRead(c, start, actions, id, Credential(obtained, false))
  }

  lemma StaysRead(c: Format, start: System, actions: seq<Action>, id: nat, x: Credential)
    requires actions != [] && WasRead(c, start, actions[..|actions| - 1], id, x)
    ensures WasRead(c, start, actions, id, x)
  {
    var before := actions[..|actions| - 1];
    var i: nat :| ReadAt(c, start, before, i, id, x);
    assert before[..i] == actions[..i];
    assert ReadAt(c, start, actions, i, id, x);
  }

  /** What a call carries it has read itself, and only credentials read as spent are handed over. */
  ghost predicate Origins(c: Format, start: System, actions: seq<Action>, s: System)
  {
    && (forall id: nat, x :: CarriedBy(s, id) == Some(x) ==> WasRead(c, start, actions, id, x))
    && (forall i :: 0 <= i < |s.refreshed| ==> ReadAsSpent(c, start, actions, s.refreshed[i]))
  }

  lemma OriginsGrow(c: Format, start: System, actions: seq<Action>)
    requires actions != []
    requires Origins(c, start, actions[..|actions| - 1], Run(c, start, actions[..|actions| - 1]))
    ensures Origins(c, start, actions, Run(c, start, actions))
  {
    var n := |actions| - 1;
    var before, a := actions[..n], actions[n];
    var s := Run(c, start, before);
    var t := Step(c, s, a);
    StepSourced(c, s, a);
    forall id: nat, x | CarriedBy(t, id) == Some(x)
      ensures WasRead(c, start, actions, id, x)
    {
      assert Comes(s, a, id, x);
      if CarriedBy(s, id) == Some(x) {
        StaysRead(c, start, actions, id, x);
      } else {
        assert ReadAt(c, start, actions, n, id, x);
      }
    }
    HandedOverWasRead(c, start, actions, s, t);
  }

  lemma HandedOverWasRead(c: Format, start: System, actions: seq<Action>, s: System, t: System)
    requires actions != [] && Origins(c, start, actions[..|actions| - 1], s)
    requires t.refreshed == s.refreshed || exists id: nat, x :: HandsOver(s, t, id, x)
    ensures forall i :: 0 <= i < |t.refreshed| ==> ReadAsSpent(c, start, actions, t.refreshed[i])
  {
    var before := actions[..|actions| - 1];
    forall i | 0 <= i < |t.refreshed|
      ensures ReadAsSpent(c, start, actions, t.refreshed[i])
    {
      if i < |s.refreshed| {
        assert t.refreshed[i] == s.refreshed[i] && ReadAsSpent(c, start, before, s.refreshed[i]);
        var id: nat :| WasRead(c, start, before, id, Credential(s.refreshed[i], false));
        StaysRead(c, start, actions, id, Credential(s.refreshed[i], false));
      } else {
        var id: nat, x :| HandsOver(s, t, id, x);
        assert t.refreshed[i] == x.obtained && x == Credential(x.obtained, false);
        assert WasRead(c, start, before, id, x);
        StaysRead(c, start, actions, id, x);
      }
    }
  }

  /**
   In every run, from any file, with crashes, failures and any interleaving: every credential that was handed to the
   remote refresh had been read from the Keychain, by the call that handed it over, as one with a spent access token.
   */
  lemma {:induction false} OnlySpentIsRefreshed(c: Format, disk: Bytes, keychain: Option<int>, actions: seq<Action>)
    ensures Origins(c, Initial(disk, keychain), actions, Run(c, Initial(disk, keychain), actions))
  {
    if actions != [] {
      OnlySpentIsRefreshed(c, disk, keychain, actions[..|actions| - 1]);
      OriginsGrow(c, Initial(disk, keychain), actions);
    }
  }
}
