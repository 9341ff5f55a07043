/**
 Durable message receipts: the handler runs first, then its receipt is appended. Keys and digests are
 the identities their hashes stand for.
 */
module ReceiptStore {
  import opened Wrappers
  import opened AppendLog

  const MAX_BYTES := 32 * 1024 * 1024

  datatype Receipt = Receipt(key: nat, digest: nat, receivedAt: int)

  type Format = Codec<Receipt>

  /** What is assumed of the file format: a sound codec in which every receipt is written. */
  ghost predicate SoundFormat(c: Format)
  {
    Sound(c) && forall r :: c.writes(r)
  }

  datatype Error = UnsafeFile | StoreTooLarge | IoError | ReceiptConflict | DownstreamFailure

  datatype LoadIo = Loads | ReadFails | RepairFails(truncated: bool)

  datatype AppendIo = Commits | Fails(written: nat)

  datatype Store = Store(disk: Bytes, loaded: bool, receipts: map<nat, nat>)

  datatype Disposition = Accepted | Duplicate

  function ReplayLine(c: Format, before: map<nat, nat>, line: Bytes): Result<map<nat, nat>, Error>
  {
    var receipt := c.decode(line);
    if line == [] || receipt.None? then Err(UnsafeFile)
    else if receipt.value.key in before && before[receipt.value.key] != receipt.value.digest then Err(UnsafeFile)
    else Ok(before[receipt.value.key := receipt.value.digest])
  }

  function ReplayLines(c: Format, lines: seq<Bytes>): Result<map<nat, nat>, Error>
  {
    if lines == [] then Ok(map[])
    else
      var before := ReplayLines(c, lines[..|lines| - 1]);
      if before.Err? then before else ReplayLine(c, before.value, lines[|lines| - 1])
  }

  /** What a restart would read from this file. */
  function Reload(c: Format, disk: Bytes): Result<map<nat, nat>, Error>
  {
    WholeFile(disk);
    ReplayLines(c, Lines(Repaired(disk)))
  }

  function Load(c: Format, s: Store, io: LoadIo): (Store, Result<(), Error>)
  {
    if s.loaded then (s, Ok(()))
    else if io.ReadFails? then (s, Err(IoError))
    else if |s.disk| > MAX_BYTES then (s, Err(StoreTooLarge))
    else if io.RepairFails? && Tail(s.disk) != [] then
      (if io.truncated then s.(disk := Repaired(s.disk)) else s, Err(IoError))
    else
      match Reload(c, s.disk)
      case Err(error) => (s.(disk := Repaired(s.disk)), Err(error))
      case Ok(receipts) => (Store(Repaired(s.disk), true, receipts), Ok(()))
  }

  function Append(c: Format, disk: Bytes, r: Receipt, io: AppendIo): (Bytes, Result<(), Error>)
  {
    var line := Line(c, r);
    if |disk| + |line| > MAX_BYTES then (disk, Err(StoreTooLarge))
    else
      match io
      case Commits => (Appended(c, disk, r, |line|), Ok(()))
      case Fails(written) => (Appended(c, disk, r, written), Err(IoError))
  }

  /** One delivery up to the point where the handler is or is not called. */
  function Admission(c: Format, s: Store, r: Receipt, io: LoadIo): (Store, Option<Result<Disposition, Error>>)
  {
    var (l, loaded) := Load(c, s, io);
    if loaded.Err? then (l, Some(Err(loaded.error)))
    else if r.key in l.receipts then
      (l, Some(if l.receipts[r.key] == r.digest then Ok(Duplicate) else Err(ReceiptConflict)))
    else (l, None)
  }

  /** What follows a handler that succeeded. */
  function Commitment(c: Format, s: Store, r: Receipt, io: AppendIo): (Store, Result<Disposition, Error>)
  {
    var (disk, appended) := Append(c, s.disk, r, io);
    if appended.Err? then (s.(disk := disk), Err(appended.error))
    else (s.(disk := disk, receipts := s.receipts[r.key := r.digest]), Ok(Accepted))
  }

  /** The receipt store, its fields as in the source; `disk` stands for the file. */
  class ReceiptFile {
    const format: Format
    var disk: Bytes
    var loaded: bool
    var receipts: map<nat, nat>

    constructor (format: Format, disk: Bytes)
      ensures this.format == format && View() == Store(disk, false, map[])
    {
      this.format, this.disk, this.loaded, this.receipts := format, disk, false, map[];
    }

    function View(): Store
      reads this
    {
      Store(disk, loaded, receipts)
    }

    method ReplayAll(lines: seq<Bytes>) returns (r: Result<map<nat, nat>, Error>)
      ensures r == ReplayLines(format, lines)
    {
      var found: map<nat, nat> := map[];
      var i := 0;
      while i < |lines|
        invariant 0 <= i <= |lines|
        invariant ReplayLines(format, lines[..i]) == Ok(found)
      {
        assert lines[..i + 1][..i] == lines[..i];
        var receipt := format.decode(lines[i]);
        if lines[i] == [] || receipt.None?
          || (receipt.value.key in found && found[receipt.value.key] != receipt.value.digest) {
          ReplayStops(format, lines, i + 1);
          return Err(UnsafeFile);
        }
        found := found[receipt.value.key := receipt.value.digest];
        i := i + 1;
      }
      assert lines[..i] == lines;
      return Ok(found);
    }

    method EnsureLoaded(io: LoadIo) returns (r: Result<(), Error>)
      modifies this
      ensures (View(), r) == Load(format, old(View()), io)
    {
      if loaded {
        return Ok(());
      }
      if io.ReadFails? {
        return Err(IoError);
      }
      if |disk| > MAX_BYTES {
        return Err(StoreTooLarge);
      }
      WholeFile(disk);
      if |disk| > 0 && disk[|disk| - 1] != NEWLINE {
        var n := FindRepairedLength(disk);
        if io.RepairFails? {
          if io.truncated {
            disk := disk[..n];
          }
          return Err(IoError);
        }
        disk := disk[..n];
      }
      var lines := SplitLines(disk);
      var replayed := ReplayAll(lines);
      match replayed {
        case Err(error) => return Err(error);
        case Ok(found) =>
          receipts, loaded := found, true;
          return Ok(());
      }
    }

    /** consumeOnce up to the handler, which is called if there is no answer yet. */
    method Admit(r: Receipt, load: LoadIo) returns (stop: Option<Result<Disposition, Error>>)
      modifies this
      ensures (View(), stop) == Admission(format, old(View()), r, load)
    {
      var ready := EnsureLoaded(load);
      if ready.Err? {
        return Some(Err(ready.error));
      }
      if r.key in receipts {
        if receipts[r.key] != r.digest {
          return Some(Err(ReceiptConflict));
        }
        return Some(Ok(Duplicate));
      }
      return None;
    }

    /** consumeOnce from the handler's success on. */
    method Acknowledge(r: Receipt, append: AppendIo) returns (result: Result<Disposition, Error>)
      modifies this
      ensures (View(), result) == Commitment(format, old(View()), r, append)
    {
      var line := Line(format, r);
      if |disk| + |line| > MAX_BYTES {
        return Err(StoreTooLarge);
      }
      match append {
        case Commits =>
          disk := disk + line;
        case Fails(written) =>
          disk := disk + if written < |line| then line[..written] else line;
          return Err(IoError);
      }
      receipts := receipts[r.key := r.digest];
      return Ok(Accepted);
    }
  }

  lemma {:induction false} ReplayStops(c: Format, lines: seq<Bytes>, n: nat)
    requires n <= |lines| && ReplayLines(c, lines[..n]).Err?
    ensures ReplayLines(c, lines) == ReplayLines(c, lines[..n])
  {
    if n < |lines| {
      var m := |lines| - 1;
      assert lines[..m][..n] == lines[..n];
      ReplayStops(c, lines[..m], n);
    } else {
      assert lines[..n] == lines;
    }
  }

  /** The line that an append leaves: the receipt on a whole file, unreadable text behind a torn tail. */
  lemma ReplayAppendedLine(c: Format, before: map<nat, nat>, tail: Bytes, r: Receipt)
    requires SoundFormat(c) && Torn(c, tail)
    ensures ReplayLine(c, before, tail + c.encode(r)) ==
              if tail != [] || (r.key in before && before[r.key] != r.digest) then Err(UnsafeFile)
              else Ok(before[r.key := r.digest])
  {
    var text := c.encode(r);
    if tail == [] {
      assert tail + text == text;
      assert c.decode(text) == Some(r);
    } else {
      assert c.decode(tail + text) == None;
    }
  }

  /** Exactly what a restart reads after one append of any number of bytes. */
  lemma ReloadAfterAppend(c: Format, disk: Bytes, r: Receipt, written: nat)
    requires SoundFormat(c) && Torn(c, Tail(disk))
    ensures var after := Appended(c, disk, r, written);
            Reload(c, after) ==
              if written < |Line(c, r)| || Reload(c, disk).Err? then Reload(c, disk)
              else ReplayLine(c, Reload(c, disk).value, Tail(disk) + c.encode(r))
  {
    AppendedShape(c, disk, r, written);
    WholeFile(disk);
    if written >= |Line(c, r)| {
      var lines := Lines(Repaired(disk));
      var added := Tail(disk) + c.encode(r);
      assert Lines(Repaired(Appended(c, disk, r, written))) == lines + [added];
      assert (lines + [added])[..|lines|] == lines;
    }
  }

  lemma LoadKeeps(c: Format, s: Store, io: LoadIo)
    requires Torn(c, Tail(s.disk))
    ensures var (l, r) := Load(c, s, io);
            && Torn(c, Tail(l.disk))
            && Reload(c, l.disk) == Reload(c, s.disk)
            && (r.Ok? ==> l.loaded)
            && (s.loaded ==> l == s && r.Ok?)
            && (!s.loaded && l.loaded ==> Reload(c, s.disk) == Ok(l.receipts))
            && |l.disk| <= |s.disk|
  {
    WholeFile(s.disk);
    WholeFile(Repaired(s.disk));
  }

  /** The file takes one more receipt: it ends in a newline, it loads, and it has no other digest for the key. */
  predicate Takes(c: Format, disk: Bytes, r: Receipt)
  {
    var reload := Reload(c, disk);
    Whole(disk) && reload.Ok? && (r.key in reload.value ==> reload.value[r.key] == r.digest)
  }

  predicate HasReceipt(c: Format, disk: Bytes, r: Receipt)
  {
    var reload := Reload(c, disk);
    reload.Ok? && r.key in reload.value && reload.value[r.key] == r.digest
  }

  /**
   A receipt for a key without one in memory is committed and acknowledged; a restart reads it, and can
   load the file at all, if and only if the file takes it. It does not behind a torn tail, nor when an
   earlier append for the key, with another digest, failed after its whole line had reached the file.
   */
  lemma AcknowledgedReadable(c: Format, s: Store, r: Receipt)
    requires SoundFormat(c) && Torn(c, Tail(s.disk)) && s.loaded && r.key !in s.receipts
    requires |s.disk| + |Line(c, r)| <= MAX_BYTES
    ensures var (t, answer) := Commitment(c, s, r, Commits);
            && answer == Ok(Accepted) && t.receipts == s.receipts[r.key := r.digest]
            && (HasReceipt(c, t.disk, r) <==> Takes(c, s.disk, r))
            && (Reload(c, t.disk).Ok? <==> Takes(c, s.disk, r))
  {
    ReloadAfterAppend(c, s.disk, r, |Line(c, r)|);
    WholeFile(s.disk);
    if Reload(c, s.disk).Ok? {
      ReplayAppendedLine(c, Reload(c, s.disk).value, Tail(s.disk), r);
    }
  }
}
