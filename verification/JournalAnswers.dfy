/** Exactly when each operation of the rotation journal succeeds, and what it leaves behind when it does not. */
module JournalAnswers {
  import opened Wrappers
  import opened AppendLog
  import opened RotationEvents
  import opened RotationJournal

  /** The file can be read and repaired. */
  predicate Readable(disk: Bytes, io: LoadIo)
  {
    !io.ReadFails? && |disk| <= MAX_BYTES && (io.RepairFails? ==> Tail(disk) == [])
  }

  /** The complete lines of the file are the encodings of these events, and no reader rejects their order. */
  ghost predicate FileHolds(c: Format, disk: Bytes, events: seq<Event>)
  {
    WholeFile(disk);
    IsJournal(c, Lines(Repaired(disk)), events)
  }

  /**
   Loading succeeds exactly for a readable file of bounded size whose complete lines are a journal; memory then
   holds its last event and no reservation of this process. A load that fails leaves memory as it was and
   removes nothing but a torn tail, and only a file that is too long is reported as such.
   */
  lemma LoadAnswers(c: Format, j: Journal, io: LoadIo)
    requires SoundFormat(c) && !j.loaded && j.latest.None? && j.active.None?
    ensures var (k, r) := Load(c, j, io);
            && (r.Ok? <==> Readable(j.disk, io) && exists events :: FileHolds(c, j.disk, events))
            && (forall events :: r.Ok? && FileHolds(c, j.disk, events) ==>
                  k == Journal(Repaired(j.disk), true, LastOf(events), None))
            && (r.Err? ==> !k.loaded && k.latest.None? && k.active.None? && (k.disk == j.disk || k.disk == Repaired(j.disk)))
            && (r == Err(JournalTooLarge) <==> !io.ReadFails? && |j.disk| > MAX_BYTES)
  {
    WholeFile(j.disk);
    LoadsIffReplayable(c, Lines(Repaired(j.disk)));
    assert forall events :: FileHolds(c, j.disk, events) <==> IsJournal(c, Lines(Repaired(j.disk)), events);
    NeverTooLarge(c, Lines(Repaired(j.disk)));
  }

  lemma {:induction false} NeverTooLarge(c: Format, lines: seq<Bytes>)
    ensures ReplayLines(c, lines) != Err(JournalTooLarge)
  {
    if lines != [] {
      NeverTooLarge(c, lines[..|lines| - 1]);
    }
  }

  predicate Over(latest: Option<Event>)
  {
    latest.None? || latest.value.state.Completed? || latest.value.state.Reauthorized?
  }

  predicate HasRoom(c: Format, disk: Bytes, e: Event)
  {
    |disk| + |Line(c, Encode(e))| <= MAX_BYTES
  }

  /** The journal that holds one more event, in the file and in memory. */
  function Taken(c: Format, j: Journal, e: Event, active: Option<int>): Journal
  {
    Journal(j.disk + Line(c, Encode(e)), true, Some(e), active)
  }

  /** The event that opens the sequence after the last one. */
  function Opening(latest: Option<Event>, source: int, recorded: int): Event
  {
    Event(3, if latest.Some? then latest.value.sequence + 1 else 1, Reserved, source, recorded, None)
  }

  /**
   A reservation succeeds exactly when the clock is not behind the credential, the last sequence is over with a
   result not later than the credential, a number is left, the file has room and the append commits. An
   open sequence is reported as pending, whatever its state.
   */
  lemma ReserveAnswers(c: Format, j: Journal, source: int, recorded: int, io: Io)
    requires j.loaded && (j.latest.Some? ==> WellFormed(j.latest.value))
    ensures var e := Opening(j.latest, source, recorded);
            var (k, r) := Reserve(c, j, source, recorded, io);
            && (r.Ok? <==> source <= recorded && Over(j.latest)
                           && (j.latest.Some? ==> j.latest.value.result.value <= source)
                           && e.sequence <= MAX_SAFE_INTEGER && HasRoom(c, j.disk, e) && io.append.Commits?)
            && (r.Ok? ==> r.value == e && k == Taken(c, j, e, Some(e.sequence)))
            && (r.Err? ==> k.latest == j.latest && k.active == j.active && k.loaded)
            && (r == Err(RotationPending) <==> source <= recorded && !Over(j.latest))
  {
    var e := Opening(j.latest, source, recorded);
    assert j.latest.Some? && Over(j.latest) ==> ValidTransition(j.latest, e) == (j.latest.value.result.value <= source);
  }

  /** From which state to which a sequence may go, as the reader of the journal has it. */
  const MOVES: set<(State, State)> :=
    {(Reserved, Completed), (Reserved, Uncertain), (Reserved, ReauthorizationRequired),
     (Uncertain, Completed),
     (ReauthorizationRequired, ReauthorizationReserved), (ReauthorizationRequired, Reauthorized),
     (ReauthorizationReserved, ReauthorizationRequired), (ReauthorizationReserved, Reauthorized)}

  /** The evidence of a terminal event, which others do not have, lies between its source and its time. */
  predicate Chronological(e: Event)
  {
    && e.source <= e.recorded
    && (e.result.Some? <==> e.state.Completed? || e.state.Reauthorized?)
    && (e.result.Some? ==> e.source < e.result.value <= e.recorded)
  }

  /**
   A settlement succeeds exactly when it names the open sequence, goes where the sequence may go with the evidence
   that this takes, the file has room and the append commits; from a block of the current version it
   cannot go to reauthorized.
   */
  lemma SettleAnswers(c: Format, j: Journal, sequence: int, state: State, recorded: int, result: Option<int>, io: Io)
    requires j.loaded && (j.latest.Some? ==> WellFormed(j.latest.value))
    ensures var (k, r) := Settle(c, j, sequence, state, recorded, result, io);
            && (r.Ok? <==>
                  && j.latest.Some? && j.latest.value.sequence == sequence
                  && (j.latest.value.state, state) in MOVES
                  && !(j.latest.value.state.ReauthorizationRequired? && state.Reauthorized? && j.latest.value.version == 3)
                  && var e := Event(3, sequence, state, j.latest.value.source, recorded, result);
                     Chronological(e) && HasRoom(c, j.disk, e) && io.append.Commits?)
            && (r.Ok? ==> var e := Event(3, sequence, state, j.latest.value.source, recorded, result);
                          r.value == e && k == Taken(c, j, e, None))
            && (r.Err? ==> k.latest == j.latest && k.active == j.active && k.loaded)
  {
    if j.latest.Some? {
      var p := j.latest.value;
      var e := Event(3, sequence, state, p.source, recorded, result);
      assert (p.state, state) in MOVES <==> AllowedNext(p.state, state);
      if p.sequence == sequence {
        assert WellFormed(e) <==> Chronological(e);
      }
    }
  }
}
