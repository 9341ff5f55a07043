/**
 What holds in every run of the rotation parties, from any file, whatever appends fail and whenever the
 process crashes: a credential is refreshed remotely at most once, a sequence is settled at most
 once, and a replacement that may have written the Keychain is never taken back.
 */
module RotationSafety {
  import opened Wrappers
  import opened AppendLog
  import opened RotationEvents
  import opened RotationJournal
  import opened RotationRuns
  import opened RotationInvariant
  import opened RotationSteps

  /** Every state of every run. */
  lemma Reachable(c: Format, disk: Bytes, keychain: Option<int>, actions: seq<Action>)
    requires SoundFormat(c)
    ensures SystemInv(c, Run(c, Initial(disk, keychain), actions))
  {
    InitialHolds(c, disk, keychain);
    RunKeeps(c, Initial(disk, keychain), actions);
  }

  /**
   Whatever file a run starts from, whatever appends fail, whenever it crashes and however the calls
   interleave: the credentials handed to the remote refresh have strictly increasing `obtainedAt`,
   so no refresh token is submitted twice.
   */
  lemma RefreshedAtMostOnce(c: Format, disk: Bytes, keychain: Option<int>, actions: seq<Action>)
    requires SoundFormat(c)
    ensures Increasing(Run(c, Initial(disk, keychain), actions).refreshed)
  {
    Reachable(c, disk, keychain, actions);
  }

  /** Settlements are in order, and what a restart can load knows of them all. */
  ghost predicate SettlementsHold(c: Format, s: System)
  {
    && Chained(s.settled)
    && (Reload(c, s.journal.disk).Ok? ==> OnRecord(s.refreshed, s.settled, Reload(c, s.journal.disk).value))
  }

  /**
   Among coordinator, reconciler and reauthorizer at most one settles a sequence, with evidence beyond its
   source and not beyond the source of any later one; and what a restart can load knows of it.
   */
  lemma SettledAtMostOnce(c: Format, disk: Bytes, keychain: Option<int>, actions: seq<Action>)
    requires SoundFormat(c)
    ensures SettlementsHold(c, Run(c, Initial(disk, keychain), actions))
  {
    Reachable(c, disk, keychain, actions);
  }

  /**
   The reservation comes first: a call that is about to refresh remotely holds the latest event, with a
   source beyond every credential used so far, and a restart that can load the file at all finds that
   event or a later one. So does it, at any time, for every credential that was ever handed over.
   */
  lemma EveryRemoteCallIsOnRecord(c: Format, disk: Bytes, keychain: Option<int>, actions: seq<Action>, id: nat)
    requires SoundFormat(c)
    requires var s := Run(c, Initial(disk, keychain), actions);
             id in s.parties && s.parties[id].RefreshReserved?
    ensures var s := Run(c, Initial(disk, keychain), actions);
            var e := s.parties[id].event;
            var reload := Reload(c, s.journal.disk);
            && s.journal.latest == Some(e) && AllBelow(s.refreshed, e.source)
            && (reload.Ok? ==> OneStep(reload, Some(e)) && OnRecord(s.refreshed, s.settled, reload.value))
  {
    Reachable(c, disk, keychain, actions);
    PartyFacts(c, Run(c, Initial(disk, keychain), actions), id);
  }

  /**
   A reservation is taken back, in memory or for a restart, only by the replacement that made it, and only if
   that replacement has not started its Keychain command; a command that took effect, however late, was
   started by a replacement that is never taken back.
   */
  lemma NeverTakenBackAfterWrite(c: Format, disk: Bytes, keychain: Option<int>, actions: seq<Action>, a: Action)
    requires SoundFormat(c)
    ensures var s := Run(c, Initial(disk, keychain), actions);
            && s.touched !! s.reverted && s.wrote <= s.touched
            && (TakenBack(c, s.journal, Step(c, s, a).journal) ==>
                  a.RunRestore? && s.reservedBy == Some(a.id) && a.id !in s.touched)
  {
    Reachable(c, disk, keychain, actions);
    var s := Run(c, Initial(disk, keychain), actions);
    ActKeeps(c, s, a);
    if a.RunRestore? {
      RestoreKeeps(c, s, a.id, a.io);
    }
  }

  // The end of a replacement

  lemma FinishOutcome(c: Format, j: Journal, reservation: Event, recorded: int, evidence: int, append: AppendIo)
    requires j.latest == Some(reservation) && WellFormed(reservation)
    requires reservation.state.ReauthorizationReserved?
    requires reservation.source < evidence <= recorded
    ensures var e := FinalEvent(reservation, recorded, evidence);
            FinishReplacement(c, j, reservation, recorded, evidence, append).0.latest ==
              if Append(c, j.disk, e, append).1.Ok? then Some(e) else Some(reservation)
  {
  }

  predicate OnlyAppendRefuses(c: Format, s: System, id: nat, append: AppendIo)
  {
    id in s.parties && s.parties[id].ReplacePersisted? ==>
      var p := s.parties[id];
      var e := FinalEvent(p.reservation, p.recorded, p.evidence);
      Act(c, s, FinishReplace(id, append)).journal.latest ==
        if Append(c, s.journal.disk, e, append).1.Ok? then Some(e) else Some(p.reservation)
  }

  lemma FinishFromFacts(c: Format, s: System, id: nat, append: AppendIo)
    requires id in s.parties && s.parties[id].ReplacePersisted?
    requires var p := s.parties[id];
             && s.journal.latest == Some(p.reservation) && WellFormed(p.reservation)
             && p.reservation.state.ReauthorizationReserved?
             && p.reservation.source < p.evidence <= p.recorded
    ensures OnlyAppendRefuses(c, s, id, append)
  {
    var p := s.parties[id];
    FinishOutcome(c, s.journal, p.reservation, p.recorded, p.evidence, append);
  }

  /**
   When the persister has returned, in any reachable state, the Keychain command has taken effect, and the
   evidence window makes the final event pass the reader and the transition check: only its append
   can still refuse it.
   */
  lemma OnlyTheAppendCanFail(
    c: Format, disk: Bytes, keychain: Option<int>, actions: seq<Action>, id: nat, append: AppendIo)
    requires SoundFormat(c)
    ensures var s := Run(c, Initial(disk, keychain), actions);
            && OnlyAppendRefuses(c, s, id, append)
            && (id in s.parties && s.parties[id].ReplacePersisted? ==> id in s.wrote)
  {
    Reachable(c, disk, keychain, actions);
    var s := Run(c, Initial(disk, keychain), actions);
    if id in s.parties && s.parties[id].ReplacePersisted? {
      PartyFacts(c, s, id);
      FinishFromFacts(c, s, id, append);
    }
  }
}
