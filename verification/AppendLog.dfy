/**
 An append-only file of newline-terminated records, as the rotation journal and the
 receipt store keep it: an append that fails may leave any prefix of its line behind,
 and the next load cuts a tail that has no newline.
 */
module AppendLog {
  import opened Wrappers

  newtype Byte = x: int | 0 <= x < 256

  const NEWLINE: Byte := 10

  type Bytes = seq<Byte>

  /** JSON.stringify and JSON.parse for one kind of record, and the records that the program writes. */
  datatype Codec<!R> = Codec(encode: R -> Bytes, decode: Bytes -> Option<R>, writes: R -> bool)

  /** Text that failed appends can leave behind: non-empty prefixes of records written, one after the other. */
  ghost predicate Torn<R(!new)>(c: Codec<R>, text: Bytes)
    decreases |text|
  {
    text == [] || exists r, n :: TornHead(c, text, r, n) && Torn(c, text[n..])
  }

  ghost predicate TornHead<R(!new)>(c: Codec<R>, text: Bytes, r: R, n: int)
  {
    c.writes(r) && 0 < n <= |text| && n <= |c.encode(r)| && text[..n] == c.encode(r)[..n]
  }

  /**
   What is assumed of the codec, for the records that are written. The third clause is what section 4 of
   RFC 8259 gives for texts that start with a brace: an object text glued behind a prefix of object
   texts is no JSON text.
   */
  ghost predicate Sound<R(!new)>(c: Codec<R>)
  {
    && (forall r :: c.writes(r) ==> c.decode(c.encode(r)) == Some(r))
    && (forall r :: c.writes(r) ==> NEWLINE !in c.encode(r))
    && (forall t, r :: t != [] && Torn(c, t) && c.writes(r) ==> c.decode(t + c.encode(r)) == None)
    && c.decode([]) == None
  }

  function Line<R>(c: Codec<R>, r: R): Bytes
  {
    c.encode(r) + [NEWLINE]
  }

  /** Length of the longest prefix that is empty or ends in a newline. */
  function RepairedLength(file: Bytes): (n: nat)
    ensures n <= |file|
    ensures n == 0 || file[n - 1] == NEWLINE
    ensures NEWLINE !in file[n..]
  {
    if file == [] then 0
    else if file[|file| - 1] == NEWLINE then |file|
    else
      var n := RepairedLength(file[..|file| - 1]);
      assert file[n..] == file[..|file| - 1][n..] + [file[|file| - 1]];
      n
  }

  function Repaired(file: Bytes): Bytes
  {
    file[..RepairedLength(file)]
  }

  function Tail(file: Bytes): Bytes
  {
    file[RepairedLength(file)..]
  }

  predicate Whole(file: Bytes)
  {
    file == [] || file[|file| - 1] == NEWLINE
  }

  /** The lines of a whole file, without their newlines. */
  function Lines(file: Bytes): seq<Bytes>
    requires Whole(file)
    decreases |file|
  {
    if file == [] then []
    else
      var body := file[..|file| - 1];
      var n := RepairedLength(body);
      Lines(body[..n]) + [body[n..]]
  }

  lemma RepairIsUnique(file: Bytes, n: nat)
    requires n <= |file|
    requires n == 0 || file[n - 1] == NEWLINE
    requires NEWLINE !in file[n..]
    ensures RepairedLength(file) == n
  {
  }

  /** Whatever the tail was, one more terminated text adds exactly one line, glued to that tail. */
  lemma LinesAfterAppend(file: Bytes, text: Bytes)
    requires NEWLINE !in text
    ensures Whole(file + text + [NEWLINE])
    ensures Lines(file + text + [NEWLINE]) == Lines(Repaired(file)) + [Tail(file) + text]
  {
    var full := file + text + [NEWLINE];
    var body := file + text;
    assert full[..|full| - 1] == body;
    var n := RepairedLength(file);
    assert body[n..] == file[n..] + text;
    RepairIsUnique(body, n);
    assert body[..n] == file[..n];
  }

  /** An unterminated text only lengthens the tail. */
  lemma TailAfterTornAppend(file: Bytes, text: Bytes)
    requires NEWLINE !in text
    ensures Repaired(file + text) == Repaired(file)
    ensures Tail(file + text) == Tail(file) + text
  {
    var n := RepairedLength(file);
    assert (file + text)[n..] == file[n..] + text;
    RepairIsUnique(file + text, n);
    assert (file + text)[..n] == file[..n];
  }

  lemma WholeFile(file: Bytes)
    ensures Whole(Repaired(file))
    ensures Whole(file) <==> Tail(file) == []
    ensures Whole(file) ==> Repaired(file) == file
  {
    if Whole(file) {
      RepairIsUnique(file, |file|);
    }
  }

  lemma {:induction false} TornGrows<R(!new)>(c: Codec<R>, text: Bytes, r: R, n: nat)
    requires Torn(c, text) && c.writes(r) && n <= |c.encode(r)|
    ensures Torn(c, text + c.encode(r)[..n])
    decreases |text|
  {
    var more := c.encode(r)[..n];
    if text == [] {
      assert text + more == more;
      if n > 0 {
        assert more[..n] == c.encode(r)[..n];
        assert more[n..] == [];
        assert TornHead(c, more, r, n) && Torn(c, more[n..]);
      }
    } else {
      var r0, n0 :| TornHead(c, text, r0, n0) && Torn(c, text[n0..]);
      TornGrows(c, text[n0..], r, n);
      assert (text + more)[..n0] == text[..n0];
      assert (text + more)[n0..] == text[n0..] + more;
      assert TornHead(c, text + more, r0, n0) && Torn(c, (text + more)[n0..]);
    }
  }

  /** What one append, committed or failed after `written` bytes, does to the file. */
  function Appended<R>(c: Codec<R>, file: Bytes, r: R, written: nat): (after: Bytes)
    ensures file <= after
  {
    var line := Line(c, r);
    file + if written < |line| then line[..written] else line
  }

  lemma AppendedShape<R(!new)>(c: Codec<R>, file: Bytes, r: R, written: nat)
    requires Sound(c) && Torn(c, Tail(file)) && c.writes(r)
    ensures Torn(c, Tail(Appended(c, file, r, written)))
    ensures var after := Appended(c, file, r, written);
            if written < |Line(c, r)| then
              && Repaired(after) == Repaired(file)
              && Tail(after) == Tail(file) + c.encode(r)[..written]
            else
              && Tail(after) == [] && Whole(after) && Repaired(after) == after
              && Lines(after) == Lines(Repaired(file)) + [Tail(file) + c.encode(r)]
  {
    var text := c.encode(r);
    if written < |Line(c, r)| {
      assert Line(c, r)[..written] == text[..written];
      TailAfterTornAppend(file, text[..written]);
      TornGrows(c, Tail(file), r, written);
    } else {
      assert file + Line(c, r) == file + text + [NEWLINE];
      LinesAfterAppend(file, text);
      WholeFile(file + Line(c, r));
    }
  }

  /** lastIndexOf(0x0a), as the repair uses it. */
  method FindRepairedLength(file: Bytes) returns (n: nat)
    ensures n == RepairedLength(file)
  {
    n := |file|;
    while n > 0 && file[n - 1] != NEWLINE
      invariant n <= |file|
      invariant NEWLINE !in file[n..]
    {
      assert file[n - 1..] == [file[n - 1]] + file[n..];
      n := n - 1;
    }
    RepairIsUnique(file, n);
  }

  /** split('\n') followed by pop() on a whole file. */
  lemma LineEndsHere(file: Bytes, start: nat, i: nat)
    requires start <= i < |file| && file[i] == NEWLINE && NEWLINE !in file[start..i]
    requires start == 0 || file[start - 1] == NEWLINE
    ensures Lines(file[..i + 1]) == Lines(file[..start]) + [file[start..i]]
  {
    WholeFile(file[..start]);
    LinesAfterAppend(file[..start], file[start..i]);
    assert file[..start] + file[start..i] + [NEWLINE] == file[..i + 1];
  }

  method SplitLines(file: Bytes) returns (lines: seq<Bytes>)
    requires Whole(file)
    ensures lines == Lines(file)
  {
    lines := [];
    var start, i := 0, 0;
    while i < |file|
      invariant 0 <= start <= i <= |file|
      invariant start == 0 || file[start - 1] == NEWLINE
      invariant NEWLINE !in file[start..i]
      invariant lines == Lines(file[..start])
      invariant i == |file| ==> start == i
    {
      if file[i] == NEWLINE {
        LineEndsHere(file, start, i);
        lines := lines + [file[start..i]];
        start := i + 1;
      }
      i := i + 1;
    }
    assert file[..start] == file;
  }

  // The assumptions on a codec can be met, for any records that have distinct texts without two of the bytes.

  const MARK: Byte := 1

  ghost predicate Unmarked<R(!new)>(text: R -> Bytes, writes: R -> bool)
  {
    && (forall r :: writes(r) ==> MARK !in text(r) && NEWLINE !in text(r))
    && (forall q, r :: writes(q) && writes(r) && text(q) == text(r) ==> q == r)
  }

  ghost predicate Reads<R(!new)>(text: R -> Bytes, writes: R -> bool, b: Bytes, r: R)
  {
    writes(r) && [MARK] + text(r) == b
  }

  ghost function ReadMarked<R(!new)>(text: R -> Bytes, writes: R -> bool, b: Bytes): Option<R>
  {
    if exists r :: Reads(text, writes, b, r) then
      var r :| Reads(text, writes, b, r);
      Some(r)
    else None
  }

  /** Every text behind one mark. */
  ghost function Marked<R(!new)>(text: R -> Bytes, writes: R -> bool): Codec<R>
  {
    Codec(r => [MARK] + text(r), b => ReadMarked(text, writes, b), writes)
  }

  lemma MarkedReads<R(!new)>(text: R -> Bytes, writes: R -> bool, r: R)
    requires Unmarked(text, writes) && writes(r)
    ensures ReadMarked(text, writes, [MARK] + text(r)) == Some(r)
  {
    assert Reads(text, writes, [MARK] + text(r), r);
    var q := ReadMarked(text, writes, [MARK] + text(r)).value;
    assert text(q) == ([MARK] + text(q))[1..] == ([MARK] + text(r))[1..] == text(r);
  }

  /** Behind a first byte a marked text cannot begin: no text has a mark inside. */
  lemma NotGlued<R(!new)>(text: R -> Bytes, writes: R -> bool, t: Bytes, r: R, q: R)
    requires Unmarked(text, writes) && t != []
    ensures !Reads(text, writes, t + ([MARK] + text(r)), q)
  {
    assert (t + ([MARK] + text(r)))[|t|] == MARK;
    if writes(q) && |t| <= |text(q)| {
      assert ([MARK] + text(q))[|t|] == text(q)[|t| - 1];
      assert text(q)[|t| - 1] in text(q);
    }
  }

  lemma MarkedGlue<R(!new)>(text: R -> Bytes, writes: R -> bool, t: Bytes, r: R)
    requires Unmarked(text, writes) && t != []
    ensures ReadMarked(text, writes, t + ([MARK] + text(r))) == None
  {
    forall q
      ensures !Reads(text, writes, t + ([MARK] + text(r)), q)
    {
      NotGlued(text, writes, t, r, q);
    }
  }

  lemma SoundCodecExists<R(!new)>(text: R -> Bytes, writes: R -> bool)
    requires Unmarked(text, writes)
    ensures Sound(Marked(text, writes))
  {
    var c := Marked(text, writes);
    forall r | c.writes(r) ensures c.decode(c.encode(r)) == Some(r) && NEWLINE !in c.encode(r) {
      MarkedReads(text, writes, r);
    }
    forall t, r | t != [] && Torn(c, t) && c.writes(r) ensures c.decode(t + c.encode(r)) == None {
      MarkedGlue(text, writes, t, r);
    }
  }
}
