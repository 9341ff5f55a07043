/**
 The rotation journal: its file, its in-memory state, and its operations. The functions give
 each operation as a step on a value; the class performs the same step on its fields.
 File-system outcomes are parameters.
 */
module RotationJournal {
  import opened Wrappers
  import opened AppendLog
  import opened RotationEvents

  const MAX_BYTES := 1024 * 1024

  /** Outcome of the file system while loading. */
  datatype LoadIo = Loads | ReadFails | RepairFails(truncated: bool)

  /** Outcome of the file system while appending: committed, or failed after some bytes. */
  datatype AppendIo = Commits | Fails(written: nat)

  datatype Io = Io(load: LoadIo, append: AppendIo)

  datatype Journal = Journal(
    disk: Bytes,
    loaded: bool,
    latest: Option<Event>,
    active: Option<int>)

  type Format = Codec<Record>

  /** What is assumed of the file format: a sound codec in which every well-formed event is written. */
  ghost predicate SoundFormat(c: Format)
  {
    Sound(c) && forall e :: WellFormed(e) ==> c.writes(Encode(e))
  }

  /** One line of the file, read on top of what the lines before it gave. */
  function ReplayLine(c: Format, latest: Option<Event>, line: Bytes): Result<Option<Event>, Error>
  {
    var record := c.decode(line);
    if line == [] || record.None? then Err(JournalUnavailable)
    else
      var event := ParseEvent(record.value);
      if event.Err? then Err(event.error)
      else if !ValidTransition(latest, event.value) then Err(JournalUnavailable)
      else Ok(Some(event.value))
  }

  function ReplayLines(c: Format, lines: seq<Bytes>): Result<Option<Event>, Error>
  {
    if lines == [] then Ok(None)
    else
      var before := ReplayLines(c, lines[..|lines| - 1]);
      if before.Err? then before else ReplayLine(c, before.value, lines[|lines| - 1])
  }

  /** What a restart would read from this file. */
  function Reload(c: Format, disk: Bytes): Result<Option<Event>, Error>
  {
    WholeFile(disk);
    ReplayLines(c, Lines(Repaired(disk)))
  }

  function Load(c: Format, j: Journal, io: LoadIo): (Journal, Result<(), Error>)
  {
    if j.loaded then (j, Ok(()))
    else if io.ReadFails? then (j, Err(JournalUnavailable))
    else if |j.disk| > MAX_BYTES then (j, Err(JournalTooLarge))
    else if io.RepairFails? && Tail(j.disk) != [] then
      (if io.truncated then j.(disk := Repaired(j.disk)) else j, Err(JournalUnavailable))
    else
      var repaired := j.(disk := Repaired(j.disk));
      match Reload(c, j.disk)
      case Err(error) => (repaired, Err(error))
      case Ok(latest) => (repaired.(loaded := true, latest := latest), Ok(()))
  }

  function Append(c: Format, disk: Bytes, e: Event, io: AppendIo): (Bytes, Result<(), Error>)
  {
    var line := Line(c, Encode(e));
    if |disk| + |line| > MAX_BYTES then (disk, Err(JournalTooLarge))
    else
      match io
      case Commits => (Appended(c, disk, Encode(e), |line|), Ok(()))
      case Fails(written) => (Appended(c, disk, Encode(e), written), Err(JournalUnavailable))
  }

  /** Build an event, check it against the latest one, append it, and remember it. */
  function Advance(c: Format, j: Journal, e: Event, active: Option<int>, io: AppendIo)
    : (Journal, Result<Event, Error>)
  {
    match BuildEvent(e)
    case Err(error) => (j, Err(error))
    case Ok(event) =>
      if !ValidTransition(j.latest, event) then (j, Err(InvalidRequest))
      else
        var (disk, appended) := Append(c, j.disk, event, io);
        if appended.Err? then (j.(disk := disk), Err(appended.error))
        else (j.(disk := disk, latest := Some(event), active := active), Ok(event))
  }

  function Inspect(c: Format, j: Journal, io: Io): (Journal, Result<Option<Event>, Error>)
  {
    var (l, loaded) := Load(c, j, io.load);
    (l, if loaded.Err? then Err(loaded.error) else Ok(l.latest))
  }

  function NextSequence(latest: Option<Event>): int
  {
    (if latest.Some? then latest.value.sequence else 0) + 1
  }

  function Reserve(c: Format, j: Journal, source: int, recorded: int, io: Io)
    : (Journal, Result<Event, Error>)
  {
    var (l, loaded) := Load(c, j, io.load);
    if loaded.Err? then (l, Err(loaded.error))
    else if recorded < source then (l, Err(InvalidRequest))
    else if l.latest.Some? && !Terminal(l.latest.value.state) then (l, Err(RotationPending))
    else
      var sequence := NextSequence(l.latest);
      Advance(c, l, Event(CURRENT_VERSION, sequence, Reserved, source, recorded, None),
              Some(sequence), io.append)
  }

  function Settle(
    c: Format, j: Journal, sequence: int, state: State, recorded: int, result: Option<int>, io: Io)
    : (Journal, Result<Event, Error>)
  {
    var (l, loaded) := Load(c, j, io.load);
    if loaded.Err? then (l, Err(loaded.error))
    else if l.latest.None?
      || Terminal(l.latest.value.state)
      || l.latest.value.sequence != sequence
      || (Terminal(state) != result.Some?)
    then (l, Err(InvalidRequest))
    else
      Advance(c, l, Event(CURRENT_VERSION, sequence, state, l.latest.value.source, recorded, result),
              None, io.append)
  }

  /** First half of replaceAfterReauthorization, up to the call of the replacement. */
  function BeginReplacement(c: Format, j: Journal, recorded: int, io: Io)
    : (Journal, Result<(Event, Event), Error>)
  {
    var (l, loaded) := Load(c, j, io.load);
    if loaded.Err? then (l, Err(loaded.error))
    else if l.latest.None? || !l.latest.value.state.ReauthorizationRequired?
    then (l, Err(ReauthorizationNotPending))
    else
      var blocked := l.latest.value;
      var (advanced, reserved) :=
        Advance(c, l,
                Event(CURRENT_VERSION, blocked.sequence, ReauthorizationReserved, blocked.source, recorded, None),
                l.active, io.append);
      (advanced, if reserved.Err? then Err(reserved.error) else Ok((blocked, reserved.value)))
  }

  /** Second half, after the replacement returned its evidence. */
  function FinishReplacement(
    c: Format, j: Journal, reservation: Event, recorded: int, result: int, io: AppendIo)
    : (Journal, Result<Event, Error>)
  {
    var event := BuildEvent(
      Event(CURRENT_VERSION, reservation.sequence, Reauthorized, reservation.source, recorded, Some(result)));
    if event.Err? then (j, Err(event.error))
    else if !ValidTransition(Some(reservation), event.value) then (j, Err(InvalidRequest))
    else
      var (disk, appended) := Append(c, j.disk, event.value, io);
      if appended.Err? then (j.(disk := disk), Err(appended.error))
      else (j.(disk := disk, latest := Some(event.value), active := None), Ok(event.value))
  }

  // Replaying, appending, crashing

  /** The events of a file that replays. */
  ghost predicate Holds(c: Format, lines: seq<Bytes>, events: seq<Event>)
  {
    && |lines| == |events|
    && forall i :: 0 <= i < |lines| ==> c.decode(lines[i]) == Some(Encode(events[i]))
  }

  lemma HoldsMore(c: Format, lines: seq<Bytes>, earlier: seq<Event>, e: Event)
    requires lines != [] && Holds(c, lines[..|lines| - 1], earlier)
    requires c.decode(lines[|lines| - 1]) == Some(Encode(e))
    ensures Holds(c, lines, earlier + [e])
  {
    var n := |lines| - 1;
    forall i | 0 <= i < |lines|
      ensures c.decode(lines[i]) == Some(Encode((earlier + [e])[i]))
    {
      if i < n {
        assert lines[i] == lines[..n][i];
      }
    }
  }

  lemma AcceptedLine(c: Format, latest: Option<Event>, line: Bytes) returns (e: Event)
    requires ReplayLine(c, latest, line).Ok?
    ensures c.decode(line) == Some(Encode(e)) && WellFormed(e) && ValidTransition(latest, e)
    ensures ReplayLine(c, latest, line) == Ok(Some(e))
  {
    var record := c.decode(line).value;
    EncodeAfterParse(record);
    e := ParseEvent(record).value;
  }

  /** The events of a file that loads. */
  lemma {:induction false} EventsOf(c: Format, lines: seq<Bytes>) returns (events: seq<Event>)
    requires ReplayLines(c, lines).Ok?
    ensures Holds(c, lines, events) && Replayable(events)
    ensures ReplayLines(c, lines) == Ok(LastOf(events))
  {
    events := [];
    if lines != [] {
      var n := |lines| - 1;
      var earlier := EventsOf(c, lines[..n]);
      var last := AcceptedLine(c, LastOf(earlier), lines[n]);
      HoldsMore(c, lines, earlier, last);
      events := earlier + [last];
      assert events[..n] == earlier;
    }
  }

  lemma HoldsBefore(c: Format, lines: seq<Bytes>, events: seq<Event>)
    requires Holds(c, lines, events) && lines != []
    ensures Holds(c, lines[..|lines| - 1], events[..|events| - 1])
    ensures c.decode(lines[|lines| - 1]) == Some(Encode(events[|events| - 1]))
  {
  }

  lemma ReplayEncoded(c: Format, latest: Option<Event>, line: Bytes, e: Event)
    requires SoundFormat(c) && c.decode(line) == Some(Encode(e)) && WellFormed(e) && ValidTransition(latest, e)
    ensures ReplayLine(c, latest, line) == Ok(Some(e))
  {
    ParseAfterEncode(e);
    assert line != [];
  }

  lemma {:induction false} ReplayableLoads(c: Format, lines: seq<Bytes>, events: seq<Event>)
    requires SoundFormat(c) && Holds(c, lines, events) && Replayable(events)
    ensures ReplayLines(c, lines) == Ok(LastOf(events))
  {
    if lines != [] {
      var n := |lines| - 1;
      HoldsBefore(c, lines, events);
      ReplayableLoads(c, lines[..n], events[..n]);
      ReplayEncoded(c, LastOf(events[..n]), lines[n], events[n]);
    }
  }

  ghost predicate IsJournal(c: Format, lines: seq<Bytes>, events: seq<Event>)
  {
    Holds(c, lines, events) && Replayable(events)
  }

  /** A file loads exactly when its lines are the encodings of a replayable journal, and then to its last event. */
  lemma LoadsIffReplayable(c: Format, lines: seq<Bytes>)
    requires SoundFormat(c)
    ensures ReplayLines(c, lines).Ok? <==> exists events :: IsJournal(c, lines, events)
    ensures forall events :: IsJournal(c, lines, events) ==> ReplayLines(c, lines) == Ok(LastOf(events))
  {
    forall events | IsJournal(c, lines, events)
      ensures ReplayLines(c, lines) == Ok(LastOf(events))
    {
      ReplayableLoads(c, lines, events);
    }
    if ReplayLines(c, lines).Ok? {
      var events := EventsOf(c, lines);
      assert IsJournal(c, lines, events);
    }
  }

  /** The line that an append leaves: the event on a whole file, unreadable text behind a torn tail. */
  lemma ReplayAppendedLine(c: Format, latest: Option<Event>, tail: Bytes, e: Event)
    requires SoundFormat(c) && Torn(c, tail) && WellFormed(e)
    ensures ReplayLine(c, latest, tail + c.encode(Encode(e))) ==
              if tail != [] || !ValidTransition(latest, e) then Err(JournalUnavailable) else Ok(Some(e))
  {
    var text := c.encode(Encode(e));
    if tail == [] {
      assert tail + text == text;
      assert c.decode(text) == Some(Encode(e));
      ParseAfterEncode(e);
    } else {
      assert c.decode(tail + text) == None;
    }
  }

  /**
   Exactly what a restart reads after one append, for any file and any number of bytes written:
   a line cut short changes nothing, a whole line on a whole file adds the event, and a whole line
   glued to a torn tail makes the file unreadable.
   */
  lemma ReloadAfterAppend(c: Format, disk: Bytes, e: Event, written: nat)
    requires SoundFormat(c) && Torn(c, Tail(disk)) && WellFormed(e)
    ensures var after := Appended(c, disk, Encode(e), written);
            Reload(c, after) ==
              if written < |Line(c, Encode(e))| || Reload(c, disk).Err? then Reload(c, disk)
              else if !Whole(disk) || !ValidTransition(Reload(c, disk).value, e) then Err(JournalUnavailable)
              else Ok(Some(e))
  {
    AppendedShape(c, disk, Encode(e), written);
    WholeFile(disk);
    if written >= |Line(c, Encode(e))| {
      var after := Appended(c, disk, Encode(e), written);
      var lines := Lines(Repaired(disk));
      var added := Tail(disk) + c.encode(Encode(e));
      assert Lines(Repaired(after)) == lines + [added];
      assert (lines + [added])[..|lines|] == lines;
      if Reload(c, disk).Ok? {
        ReplayAppendedLine(c, Reload(c, disk).value, Tail(disk), e);
      }
    }
  }

  /** A restart reads what the process remembers, or one event that the process tried to append to it. */
  predicate OneStep(reload: Result<Option<Event>, Error>, latest: Option<Event>)
  {
    reload.Ok? ==>
      reload.value == latest || (reload.value.Some? && ValidTransition(latest, reload.value.value))
  }

  /** The file takes one more event: it ends in a newline, and what a restart reads from it allows the event. */
  predicate Takes(c: Format, disk: Bytes, e: Event)
  {
    var reload := Reload(c, disk);
    Whole(disk) && reload.Ok? && ValidTransition(reload.value, e)
  }

  /**
   Crash points of one append, whatever appends failed before: the restart reads the event in memory, or one
   event beyond it; it reads the event being appended once all of it is there and the file takes it; and
   it finds the file unreadable exactly if all of it is there and the file does not take it.
   */
  lemma CrashInsideAppend(c: Format, j: Journal, e: Event, written: nat)
    requires SoundFormat(c) && Torn(c, Tail(j.disk)) && OneStep(Reload(c, j.disk), j.latest)
    requires WellFormed(e) && ValidTransition(j.latest, e)
    ensures var after := Appended(c, j.disk, Encode(e), written);
            var whole := written >= |Line(c, Encode(e))|;
            && OneStep(Reload(c, after), j.latest)
            && (whole ==> (Reload(c, after) == Ok(Some(e)) <==> Takes(c, j.disk, e)))
            && (!whole ==> Reload(c, after) == Reload(c, j.disk))
            && (Reload(c, j.disk).Ok? ==> (Reload(c, after).Err? <==> whole && !Takes(c, j.disk, e)))
  {
    ReloadAfterAppend(c, j.disk, e, written);
  }

  /**
   The repair alone does not protect a process that goes on after a failed append. An append that passes
   every check against the memory is committed and acknowledged; a restart reads its event if and only if
   the file, too, takes it. It does not behind a torn tail, nor when an earlier append failed
   after its whole line had reached the file.
   */
  lemma CommittedEventReadable(c: Format, j: Journal, e: Event, active: Option<int>)
    requires SoundFormat(c) && Torn(c, Tail(j.disk))
    requires WellFormed(e) && ValidTransition(j.latest, e)
    requires |j.disk| + |Line(c, Encode(e))| <= MAX_BYTES
    ensures var (k, r) := Advance(c, j, e, active, Commits);
            && r == Ok(e) && k.latest == Some(e)
            && (Reload(c, k.disk) == Ok(Some(e)) <==> Takes(c, j.disk, e))
            && (Reload(c, k.disk).Ok? <==> Takes(c, j.disk, e))
  {
    ReloadAfterAppend(c, j.disk, e, |Line(c, Encode(e))|);
  }

  function FirstEvent(source: int, recorded: int): Event
  {
    Event(CURRENT_VERSION, 1, Reserved, source, recorded, None)
  }

  lemma FirstReservation(c: Format, source: int, recorded: int, written: nat)
    requires SoundFormat(c) && source <= recorded
    requires |Line(c, Encode(FirstEvent(source, recorded)))| <= MAX_BYTES
    ensures var e := FirstEvent(source, recorded);
            var disk := Appended(c, [], Encode(e), written);
            && WellFormed(e) && ValidTransition(None, e) && Torn(c, Tail(disk))
            && Reserve(c, Journal([], false, None, None), source, recorded, Io(Loads, Fails(written))) ==
               (Journal(disk, true, None, None), Err(JournalUnavailable))
            && Reload(c, disk) == if written < |Line(c, Encode(e))| then Ok(None) else Ok(Some(e))
  {
    EmptyFile(c);
    AppendedShape(c, [], Encode(FirstEvent(source, recorded)), written);
    ReloadAfterAppend(c, [], FirstEvent(source, recorded), written);
    FirstFails(c, source, recorded, written);
  }

  lemma EmptyFile(c: Format)
    ensures Whole([]) && Tail([]) == [] && Repaired([]) == [] && Torn(c, Tail([])) && Reload(c, []) == Ok(None)
  {
    WholeFile([]);
    assert ReplayLines(c, Lines([])) == Ok(None);
  }

  lemma FirstFails(c: Format, source: int, recorded: int, written: nat)
    requires source <= recorded && |Line(c, Encode(FirstEvent(source, recorded)))| <= MAX_BYTES
    ensures Reserve(c, Journal([], false, None, None), source, recorded, Io(Loads, Fails(written))) ==
            (Journal(Appended(c, [], Encode(FirstEvent(source, recorded)), written), true, None, None), Err(JournalUnavailable))
  {
    EmptyFile(c);
    assert BuildEvent(FirstEvent(source, recorded)) == Ok(FirstEvent(source, recorded));
  }

  /** The retry of a first reservation commits, whatever the failed one left behind. */
  lemma RetryCommits(c: Format, disk: Bytes, source: int, recorded: int)
    requires SoundFormat(c) && source <= recorded && Torn(c, Tail(disk))
    requires |disk| + |Line(c, Encode(FirstEvent(source, recorded)))| <= MAX_BYTES
    ensures var e := FirstEvent(source, recorded);
            var (k, r) := Reserve(c, Journal(disk, true, None, None), source, recorded, Io(Loads, Commits));
            && r == Ok(e) && k.latest == Some(e)
            && (Reload(c, k.disk).Ok? <==> Takes(c, disk, e))
  {
    var e := FirstEvent(source, recorded);
    assert BuildEvent(e) == Ok(e);
    CommittedEventReadable(c, Journal(disk, true, None, None), e, Some(1));
  }

  datatype Retry = Retry(first: Journal, failed: Result<Event, Error>, second: Journal, committed: Result<Event, Error>)

  /** A first reservation on an empty file whose append fails after some bytes, and the same one again. */
  function Retried(c: Format, source: int, recorded: int, written: nat): Retry
  {
    var (first, failed) := Reserve(c, Journal([], false, None, None), source, recorded, Io(Loads, Fails(written)));
    var (second, committed) := Reserve(c, first, source, recorded, Io(Loads, Commits));
    Retry(first, failed, second, committed)
  }

  lemma LineTaken(c: Format, e: Event, written: nat)
    requires SoundFormat(c) && WellFormed(e) && ValidTransition(None, e) && written <= |Line(c, Encode(e))|
    requires var disk := Appended(c, [], Encode(e), written);
             Reload(c, disk) == if written < |Line(c, Encode(e))| then Ok(None) else Ok(Some(e))
    ensures var disk := Appended(c, [], Encode(e), written);
            && (Whole(disk) <==> written == 0 || written == |Line(c, Encode(e))|)
            && (Takes(c, disk, e) <==> written == 0)
  {
    var disk := Appended(c, [], Encode(e), written);
    assert disk == Line(c, Encode(e))[..written];
    assert c.writes(Encode(e));
    if 0 < written < |Line(c, Encode(e))| {
      assert disk[written - 1] in c.encode(Encode(e));
    }
  }

  /**
   Such runs, exactly: a first reservation fails after some bytes reached the file, and its retry commits.
   A restart can load the file if and only if nothing had reached it, although the file ended in a
   newline also when the whole line had.
   */
  lemma RetryReadableIffNothingWritten(c: Format, source: int, recorded: int, written: nat)
    requires SoundFormat(c) && source <= recorded
    requires var n := |Line(c, Encode(FirstEvent(source, recorded)))|; written <= n && 2 * n <= MAX_BYTES
    ensures var run := Retried(c, source, recorded, written);
            && run.failed == Err(JournalUnavailable) && Reload(c, run.first.disk).Ok?
            && (Whole(run.first.disk) <==> written == 0 || written == |Line(c, Encode(FirstEvent(source, recorded)))|)
            && run.committed == Ok(FirstEvent(source, recorded)) && run.second.latest == Some(run.committed.value)
            && (Reload(c, run.second.disk).Ok? <==> written == 0)
  {
    var e := FirstEvent(source, recorded);
    FirstReservation(c, source, recorded, written);
    LineTaken(c, e, written);
    RetryCommits(c, Appended(c, [], Encode(e), written), source, recorded);
  }

  /** The journal object, its fields as in the source; `disk` stands for the file. */
  class RotationJournalFile {
    const format: Format
    var disk: Bytes
    var loaded: bool
    var latest: Option<Event>
    var activeSequence: Option<int>

    constructor (format: Format, disk: Bytes)
      ensures this.format == format
      ensures View() == Journal(disk, false, None, None)
    {
      this.format := format;
      this.disk, this.loaded := disk, false;
      this.latest, this.activeSequence := None, None;
    }

    function View(): Journal
      reads this
    {
      Journal(disk, loaded, latest, activeSequence)
    }

    method ReplayAll(lines: seq<Bytes>) returns (r: Result<Option<Event>, Error>)
      ensures r == ReplayLines(format, lines)
    {
      var last: Option<Event> := None;
      var i := 0;
      while i < |lines|
        invariant 0 <= i <= |lines|
        invariant ReplayLines(format, lines[..i]) == Ok(last)
        decreases |lines| - i
      {
        assert lines[..i + 1][..i] == lines[..i];
        var line := lines[i];
        var record := format.decode(line);
        if line == [] || record.None? {
          ReplayStops(format, lines, i + 1);
          return Err(JournalUnavailable);
        }
        var event := ParseEvent(record.value);
        if event.Err? {
          ReplayStops(format, lines, i + 1);
          return Err(event.error);
        }
        if !ValidTransition(last, event.value) {
          ReplayStops(format, lines, i + 1);
          return Err(JournalUnavailable);
        }
        last := Some(event.value);
        i := i + 1;
      }
      assert lines[..i] == lines;
      return Ok(last);
    }

    method EnsureLoaded(io: LoadIo) returns (r: Result<(), Error>)
      modifies this
      ensures (View(), r) == Load(format, old(View()), io)
    {
      if loaded {
        return Ok(());
      }
      if io.ReadFails? {
        return Err(JournalUnavailable);
      }
      if |disk| > MAX_BYTES {
        return Err(JournalTooLarge);
      }
      WholeFile(disk);
      if |disk| > 0 && disk[|disk| - 1] != NEWLINE {
        var n := FindRepairedLength(disk);
        if io.RepairFails? {
          if io.truncated {
            disk := disk[..n];
          }
          return Err(JournalUnavailable);
        }
        disk := disk[..n];
      }
      var lines := SplitLines(disk);
      var replayed := ReplayAll(lines);
      match replayed {
        case Err(error) => return Err(error);
        case Ok(last) =>
          latest, loaded := last, true;
          return Ok(());
      }
    }

    method AppendEvent(e: Event, io: AppendIo) returns (r: Result<(), Error>)
      modifies this`disk
      ensures (disk, r) == Append(format, old(disk), e, io)
    {
      var line := Line(format, Encode(e));
      if |disk| + |line| > MAX_BYTES {
        return Err(JournalTooLarge);
      }
      match io {
        case Commits =>
          disk := disk + line;
          return Ok(());
        case Fails(written) =>
          disk := disk + if written < |line| then line[..written] else line;
          return Err(JournalUnavailable);
      }
    }

    method InspectLatest(io: Io) returns (r: Result<Option<Event>, Error>)
      modifies this
      ensures (View(), r) == Inspect(format, old(View()), io)
    {
      var ready := EnsureLoaded(io.load);
      if ready.Err? {
        return Err(ready.error);
      }
      return Ok(latest);
    }

    method ReserveRotation(source: int, recorded: int, io: Io) returns (r: Result<Event, Error>)
      modifies this
      ensures (View(), r) == Reserve(format, old(View()), source, recorded, io)
    {
      var ready := EnsureLoaded(io.load);
      if ready.Err? {
        return Err(ready.error);
      }
      if recorded < source {
        return Err(InvalidRequest);
      }
      if latest.Some? && !Terminal(latest.value.state) {
        return Err(RotationPending);
      }
      var sequence := (if latest.Some? then latest.value.sequence else 0) + 1;
      var event := BuildEvent(Event(CURRENT_VERSION, sequence, Reserved, source, recorded, None));
      if event.Err? {
        return event;
      }
      if !ValidTransition(latest, event.value) {
        return Err(InvalidRequest);
      }
      var appended := AppendEvent(event.value, io.append);
      if appended.Err? {
        return Err(appended.error);
      }
      latest, activeSequence := Some(event.value), Some(event.value.sequence);
      return event;
    }

    method SettleRotation(sequence: int, state: State, recorded: int, result: Option<int>, io: Io)
      returns (r: Result<Event, Error>)
      modifies this
      ensures (View(), r) == Settle(format, old(View()), sequence, state, recorded, result, io)
    {
      var ready := EnsureLoaded(io.load);
      if ready.Err? {
        return Err(ready.error);
      }
      if latest.None? || Terminal(latest.value.state) || latest.value.sequence != sequence
        || Terminal(state) != result.Some? {
        return Err(InvalidRequest);
      }
      var event := BuildEvent(Event(CURRENT_VERSION, sequence, state, latest.value.source, recorded, result));
      if event.Err? {
        return event;
      }
      if !ValidTransition(latest, event.value) {
        return Err(InvalidRequest);
      }
      var appended := AppendEvent(event.value, io.append);
      if appended.Err? {
        return Err(appended.error);
      }
      latest, activeSequence := Some(event.value), None;
      return event;
    }

    method BeginReauthorization(recorded: int, io: Io) returns (r: Result<(Event, Event), Error>)
      modifies this
      ensures (View(), r) == BeginReplacement(format, old(View()), recorded, io)
    {
      var ready := EnsureLoaded(io.load);
      if ready.Err? {
        return Err(ready.error);
      }
      if latest.None? || !latest.value.state.ReauthorizationRequired? {
        return Err(ReauthorizationNotPending);
      }
      var blocked := latest.value;
      var event := BuildEvent(
        Event(CURRENT_VERSION, blocked.sequence, ReauthorizationReserved, blocked.source, recorded, None));
      if event.Err? {
        return Err(event.error);
      }
      if !ValidTransition(latest, event.value) {
        return Err(InvalidRequest);
      }
      var appended := AppendEvent(event.value, io.append);
      if appended.Err? {
        return Err(appended.error);
      }
      latest := Some(event.value);
      return Ok((blocked, event.value));
    }

    method FinishReauthorization(reservation: Event, recorded: int, result: int, io: AppendIo)
      returns (r: Result<Event, Error>)
      modifies this
      ensures (View(), r) == FinishReplacement(format, old(View()), reservation, recorded, result, io)
    {
      var event := BuildEvent(
        Event(CURRENT_VERSION, reservation.sequence, Reauthorized, reservation.source, recorded, Some(result)));
      if event.Err? {
        return event;
      }
      if !ValidTransition(Some(reservation), event.value) {
        return Err(InvalidRequest);
      }
      var appended := AppendEvent(event.value, io);
      if appended.Err? {
        return Err(appended.error);
      }
      latest, activeSequence := Some(event.value), None;
      return event;
    }
  }

  /** Once a prefix of the lines is rejected, all of them are, with the same error. */
  lemma {:induction false} ReplayStops(c: Format, lines: seq<Bytes>, n: nat)
    requires n <= |lines| && ReplayLines(c, lines[..n]).Err?
    ensures ReplayLines(c, lines) == ReplayLines(c, lines[..n])
  {
    if n < |lines| {
      var m := |lines| - 1;
      var before := lines[..m];
      assert before[..n] == lines[..n];
      ReplayStops(c, before, n);
    } else {
      assert lines[..n] == lines;
    }
  }

  /**
   The evidence window that the reauthorizer imposes is enough: with the reservation that
   BeginReplacement made, only the append itself can still refuse the final event.
   */
  lemma WindowSuffices(c: Format, j: Journal, recorded: int, io: Io, finished: int, result: int, append: AppendIo)
    requires BeginReplacement(c, j, recorded, io).1.Ok?
    requires var (blocked, _) := BeginReplacement(c, j, recorded, io).1.value;
             blocked.source < result <= finished
    requires j.loaded ==> j.latest.Some? && WellFormed(j.latest.value)
    ensures var (begun, reserved) := BeginReplacement(c, j, recorded, io);
            var (_, reservation) := reserved.value;
            var e := Event(CURRENT_VERSION, reservation.sequence, Reauthorized, reservation.source, finished, Some(result));
            FinishReplacement(c, begun, reservation, finished, result, append).1 ==
              var appended := Append(c, begun.disk, e, append).1;
              if appended.Err? then Err(appended.error) else Ok(e)
  {
    var (begun, reserved) := BeginReplacement(c, j, recorded, io);
    var r := reserved.value.1;
    assert BuildEvent(Event(CURRENT_VERSION, r.sequence, Reauthorized, r.source, finished, Some(result))).Ok?;
  }

  /**
   The coordinator settles a blocked sequence as reauthorized without a reservation of its own.
   With a committing append this works if and only if the blocking event predates version 3.
   */
  lemma DirectReauthorization(c: Format, j: Journal, recorded: int, result: int)
    requires j.loaded && j.latest.Some? && WellFormed(j.latest.value)
    requires j.latest.value.state.ReauthorizationRequired?
    requires j.latest.value.source < result <= recorded
    requires var p := j.latest.value;
             |j.disk| + |Line(c, Encode(Event(CURRENT_VERSION, p.sequence, Reauthorized, p.source, recorded, Some(result))))| <= MAX_BYTES
    ensures Settle(c, j, j.latest.value.sequence, Reauthorized, recorded, Some(result), Io(Loads, Commits)).1.Ok?
            <==> j.latest.value.version < CURRENT_VERSION
  {
  }

  /** A reservation in an empty file, and the settlement that blocks its sequence. */
  function ReservedAndBlocked(c: Format, source: int, recorded: int): (Journal, Result<Event, Error>)
  {
    var reserved := Reserve(c, Journal([], false, None, None), source, recorded, Io(Loads, Commits)).0;
    Settle(c, reserved, 1, ReauthorizationRequired, recorded, None, Io(Loads, Commits))
  }

  lemma FirstCommits(c: Format, source: int, recorded: int)
    requires source <= recorded && |Line(c, Encode(FirstEvent(source, recorded)))| <= MAX_BYTES
    ensures var e := FirstEvent(source, recorded);
            Reserve(c, Journal([], false, None, None), source, recorded, Io(Loads, Commits)) ==
            (Journal(Appended(c, [], Encode(e), |Line(c, Encode(e))|), true, Some(e), Some(1)), Ok(e))
  {
    EmptyFile(c);
    assert BuildEvent(FirstEvent(source, recorded)) == Ok(FirstEvent(source, recorded));
  }

  lemma AppendedLength(c: Format, disk: Bytes, e: Event)
    ensures |Appended(c, disk, Encode(e), |Line(c, Encode(e))|)| == |disk| + |Line(c, Encode(e))|
  {
  }

  /**
   A journal on the refusing side: a sequence that was reserved and blocked in the current version cannot be
   settled as reauthorized directly, although the evidence is beyond its source and the append would commit.
   */
  lemma BlockedRefusesDirect(c: Format, source: int, recorded: int, result: int, later: int)
    requires source <= recorded && source < result <= later
    requires var e := FirstEvent(source, recorded);
             |Line(c, Encode(e))| + |Line(c, Encode(e.(state := ReauthorizationRequired)))| <= MAX_BYTES
    ensures var (j, r) := ReservedAndBlocked(c, source, recorded);
            && r == Ok(FirstEvent(source, recorded).(state := ReauthorizationRequired)) && j.latest == Some(r.value)
            && Settle(c, j, 1, Reauthorized, later, Some(result), Io(Loads, Commits)) == (j, Err(InvalidRequest))
  {
    var e := FirstEvent(source, recorded);
    FirstCommits(c, source, recorded);
    AppendedLength(c, [], e);
    assert BuildEvent(e.(state := ReauthorizationRequired)).Ok?;
    assert BuildEvent(Event(CURRENT_VERSION, 1, Reauthorized, source, later, Some(result))).Ok?;
  }
}
