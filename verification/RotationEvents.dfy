/**
 Events of the OAuth rotation journal: the strict reader of one record, the transition
 relation between neighbours, and the shape of every journal that replays.
 Instants are integers, in milliseconds.
 */
module RotationEvents {
  import opened Wrappers

  const LEGACY_VERSION := 1
  const CURRENT_VERSION := 3
  const MAX_SAFE_INTEGER := 9007199254740991

  datatype State =
    | Reserved
    | Completed
    | Uncertain
    | ReauthorizationRequired
    | ReauthorizationReserved
    | Reauthorized

  datatype Event = Event(
    version: int,
    sequence: int,
    state: State,
    source: int,
    recorded: int,
    result: Option<int>)

  datatype Error =
    | InvalidRequest
    | UnsafeFile
    | JournalTooLarge
    | JournalUnavailable
    | RotationPending
    | ReauthorizationNotPending

  /** A member of a parsed JSON object; an instant is a text that the timestamp reader accepts. */
  datatype Field = Text(text: string) | Number(number: int) | Instant(at: int) | Other

  type Record = map<string, Field>

  predicate Terminal(s: State)
  {
    s.Completed? || s.Reauthorized?
  }

  function StateName(s: State): string
  {
    match s
    case Reserved => "reserved"
    case Completed => "completed"
    case Uncertain => "uncertain"
    case ReauthorizationRequired => "reauthorization_required"
    case ReauthorizationReserved => "reauthorization_reserved"
    case Reauthorized => "reauthorized"
  }

  function ReadState(f: Field): Option<State>
  {
    if f == Text("reserved") then Some(Reserved)
    else if f == Text("completed") then Some(Completed)
    else if f == Text("uncertain") then Some(Uncertain)
    else if f == Text("reauthorization_required") then Some(ReauthorizationRequired)
    else if f == Text("reauthorization_reserved") then Some(ReauthorizationReserved)
    else if f == Text("reauthorized") then Some(Reauthorized)
    else None
  }

  const BASE_KEYS: set<string> :=
    {"kind", "schemaVersion", "sequence", "state", "sourceObtainedAt", "recordedAt"}

  /** The object that is handed to JSON.stringify for an event. */
  function Encode(e: Event): Record
  {
    var base := map[
      "kind" := Text("feishu_oauth_rotation_event"),
      "schemaVersion" := Number(e.version),
      "sequence" := Number(e.sequence),
      "state" := Text(StateName(e.state)),
      "sourceObtainedAt" := Instant(e.source),
      "recordedAt" := Instant(e.recorded)];
    if e.result.Some? then base["resultObtainedAt" := Instant(e.result.value)] else base
  }

  /** The strict reader, check by check. */
  function ParseEvent(record: Record): Result<Event, Error>
  {
    var state := if "state" in record then ReadState(record["state"]) else None;
    var terminal := state.Some? && Terminal(state.value);
    var expected := if terminal then BASE_KEYS + {"resultObtainedAt"} else BASE_KEYS;
    if record.Keys != expected
      || record["kind"] != Text("feishu_oauth_rotation_event")
      || !record["schemaVersion"].Number?
      || !(LEGACY_VERSION <= record["schemaVersion"].number <= CURRENT_VERSION)
      || !record["sequence"].Number?
      || !(0 < record["sequence"].number <= MAX_SAFE_INTEGER)
      || state.None?
      || (record["schemaVersion"].number == LEGACY_VERSION && state.value.Reauthorized?)
      || (state.value.ReauthorizationReserved? && record["schemaVersion"].number != CURRENT_VERSION)
      || !record["sourceObtainedAt"].Instant?
      || !record["recordedAt"].Instant?
      || (terminal && !record["resultObtainedAt"].Instant?)
    then Err(UnsafeFile)
    else
      var version := record["schemaVersion"].number;
      var source := record["sourceObtainedAt"].at;
      var recorded := record["recordedAt"].at;
      var result := if terminal then Some(record["resultObtainedAt"].at) else None;
      if recorded < source
        || (result.Some? &&
            (result.value <= source || (version != LEGACY_VERSION && recorded < result.value)))
      then Err(UnsafeFile)
      else Ok(Event(version, record["sequence"].number, state.value, source, recorded, result))
  }

  /** The events that a record can stand for. */
  predicate WellFormed(e: Event)
  {
    && LEGACY_VERSION <= e.version <= CURRENT_VERSION
    && 0 < e.sequence <= MAX_SAFE_INTEGER
    && (e.version == LEGACY_VERSION ==> !e.state.Reauthorized?)
    && (e.state.ReauthorizationReserved? ==> e.version == CURRENT_VERSION)
    && (e.result.Some? <==> Terminal(e.state))
    && e.source <= e.recorded
    && (e.result.Some? ==>
          e.source < e.result.value && (e.version == LEGACY_VERSION || e.result.value <= e.recorded))
  }

  /** Writing and reading back: exactly the well-formed events survive. */
  lemma ParseAfterEncode(e: Event)
    ensures ParseEvent(Encode(e)) == if WellFormed(e) then Ok(e) else Err(UnsafeFile)
  {
    var record := Encode(e);
    assert ReadState(record["state"]) == Some(e.state);
    assert record.Keys == if e.result.Some? then BASE_KEYS + {"resultObtainedAt"} else BASE_KEYS;
    assert "resultObtainedAt" !in BASE_KEYS;
  }

  /** Reading accepts nothing else: an accepted record is the encoding of a well-formed event. */
  lemma EncodeAfterParse(record: Record)
    requires ParseEvent(record).Ok?
    ensures WellFormed(ParseEvent(record).value)
    ensures Encode(ParseEvent(record).value) == record
  {
    var e := ParseEvent(record).value;
    assert record["state"] == Text(StateName(e.state));
    assert Encode(e).Keys == record.Keys;
  }

  /** What every journal operation does with the object it builds. */
  function BuildEvent(e: Event): (r: Result<Event, Error>)
    ensures r == if WellFormed(e) then Ok(e) else Err(UnsafeFile)
  {
    ParseAfterEncode(e);
    ParseEvent(Encode(e))
  }

  predicate AllowedNext(from: State, to: State)
  {
    match from
    case Reserved => to.Completed? || to.Uncertain? || to.ReauthorizationRequired?
    case Uncertain => to.Completed?
    case ReauthorizationRequired => to.ReauthorizationReserved? || to.Reauthorized?
    case ReauthorizationReserved => to.ReauthorizationRequired? || to.Reauthorized?
    case _ => false
  }

  predicate ValidTransition(previous: Option<Event>, next: Event)
  {
    match previous
    case None => next.sequence == 1 && next.state.Reserved?
    case Some(p) =>
      if Terminal(p.state) then
        && next.sequence == p.sequence + 1
        && next.state.Reserved?
        && (p.result.Some? ==> p.result.value <= next.source)
      else
        && next.sequence == p.sequence
        && next.source == p.source
        && p.version <= next.version
        && !(p.state.ReauthorizationRequired? && next.state.Reauthorized? && p.version == CURRENT_VERSION)
        && AllowedNext(p.state, next.state)
  }

  function LastOf(events: seq<Event>): Option<Event>
  {
    if events == [] then None else Some(events[|events| - 1])
  }

  predicate Replayable(events: seq<Event>)
  {
    events == [] ||
    (Replayable(events[..|events| - 1])
     && WellFormed(events[|events| - 1])
     && ValidTransition(LastOf(events[..|events| - 1]), events[|events| - 1]))
  }

  lemma {:induction false} PrefixReplayable(events: seq<Event>, n: nat)
    requires Replayable(events) && n <= |events|
    ensures Replayable(events[..n])
  {
    if n < |events| {
      PrefixReplayable(events[..|events| - 1], n);
      assert events[..|events| - 1][..n] == events[..n];
    } else {
      assert events[..n] == events;
    }
  }

  lemma StepAt(events: seq<Event>, i: nat)
    requires Replayable(events) && i < |events|
    ensures WellFormed(events[i])
    ensures ValidTransition(if i == 0 then None else Some(events[i - 1]), events[i])
  {
    PrefixReplayable(events, i + 1);
    assert events[..i + 1][..i] == events[..i];
  }

  /** The entry at i belongs to a sequence that is over before j. */
  ghost predicate ClosedBetween(events: seq<Event>, i: nat, j: nat)
    requires i < j < |events|
  {
    exists k :: i <= k < j && ClosesBefore(events[k], events[i], events[j])
  }

  predicate ClosesBefore(closing: Event, earlier: Event, later: Event)
  {
    && Terminal(closing.state)
    && closing.sequence == earlier.sequence
    && closing.result.Some?
    && earlier.source < closing.result.value <= later.source
  }

  /** How any two entries of a replayable journal, in file order, are related. */
  ghost predicate Ordered(events: seq<Event>, i: nat, j: nat)
    requires i < j < |events|
  {
    var a, b := events[i], events[j];
    if a.sequence == b.sequence then
      && a.source == b.source
      && a.version <= b.version
      && !Terminal(a.state)
      && !b.state.Reserved?
    else
      && a.sequence < b.sequence
      && a.source < b.source
      && ClosedBetween(events, i, j)
  }

  lemma {:induction false} EntriesOrdered(events: seq<Event>, i: nat, j: nat)
    requires Replayable(events) && i < j < |events|
    ensures Ordered(events, i, j)
    decreases j
  {
    StepAt(events, j);
    StepAt(events, i);
    var p, b := events[j - 1], events[j];
    StepAt(events, j - 1);
    if i < j - 1 {
      EntriesOrdered(events, i, j - 1);
      if events[i].sequence != p.sequence {
        var k :| i <= k < j - 1 && ClosesBefore(events[k], events[i], p);
        assert ClosesBefore(events[k], events[i], b);
      }
    }
    if Terminal(p.state) && events[i].sequence == p.sequence {
      assert ClosesBefore(p, events[i], b);
    }
  }

  /** The index at which sequence n is opened. */
  lemma {:induction false} SequenceIsOpened(events: seq<Event>, n: int) returns (i: nat)
    requires Replayable(events) && events != []
    requires 1 <= n <= events[|events| - 1].sequence
    ensures i < |events| && events[i].sequence == n && events[i].state.Reserved?
  {
    var last := |events| - 1;
    if events[last].sequence == n && events[last].state.Reserved? {
      i := last;
    } else {
      StepAt(events, last);
      PrefixReplayable(events, last);
      i := SequenceIsOpened(events[..last], n);
    }
  }

  ghost predicate OpenedAt(events: seq<Event>, n: int, i: int)
  {
    0 <= i < |events| && events[i].sequence == n && events[i].state.Reserved?
  }

  ghost predicate Opened(events: seq<Event>, n: int)
  {
    exists i :: OpenedAt(events, n, i)
  }

  lemma OpenedOnce(events: seq<Event>, n: int, i: int, j: int)
    requires Replayable(events) && OpenedAt(events, n, i) && OpenedAt(events, n, j)
    ensures i == j
  {
    if i < j {
      EntriesOrdered(events, i, j);
    } else if j < i {
      EntriesOrdered(events, j, i);
    }
  }

  /**
   Every replayable journal: sequences are numbered 1, 2, 3, ... without a gap, each opened by
   exactly one `reserved` entry right after the terminal entry of the one before, each with one
   source and at most one terminal entry, and sources strictly increase from sequence to sequence.
   */
  lemma JournalStructure(events: seq<Event>)
    requires Replayable(events)
    ensures forall i :: 0 <= i < |events| ==>
              WellFormed(events[i])
              && (events[i].state.Reserved? <==> i == 0 || Terminal(events[i - 1].state))
    ensures forall i, j :: 0 <= i < j < |events| ==> Ordered(events, i, j)
    ensures forall n :: Opened(events, n) <==>
                        events != [] && 1 <= n <= events[|events| - 1].sequence
    ensures forall n, i, j :: OpenedAt(events, n, i) && OpenedAt(events, n, j) ==> i == j
  {
    forall i | 0 <= i < |events|
      ensures WellFormed(events[i])
      ensures events[i].state.Reserved? <==> i == 0 || Terminal(events[i - 1].state)
    {
      StepAt(events, i);
    }
    forall i, j | 0 <= i < j < |events|
      ensures Ordered(events, i, j)
    {
      EntriesOrdered(events, i, j);
    }
    forall n
      ensures Opened(events, n) <==> events != [] && 1 <= n <= events[|events| - 1].sequence
    {
      if events != [] && 1 <= n <= events[|events| - 1].sequence {
        var i := SequenceIsOpened(events, n);
        assert OpenedAt(events, n, i);
      }
      if Opened(events, n) {
        var i :| OpenedAt(events, n, i);
        assert WellFormed(events[i]);
        if i < |events| - 1 {
          assert Ordered(events, i, |events| - 1);
        }
      }
    }
    forall n, i, j | OpenedAt(events, n, i) && OpenedAt(events, n, j)
      ensures i == j
    {
      OpenedOnce(events, n, i, j);
    }
  }
}
