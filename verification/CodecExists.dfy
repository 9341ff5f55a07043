/**
 The assumptions on the two file formats can be met: a codec for journal events and one for receipts,
 with unambiguous texts, satisfies them.
 */
module CodecExists {
  import opened Wrappers
  import opened AppendLog
  import opened RotationEvents
  import Journal = RotationJournal
  import Receipts = ReceiptStore

  function Magnitude(n: int): nat
  {
    if n < 0 then -n else n
  }

  /** A sign, one byte per unit, and an end. */
  function Num(n: int): Bytes
  {
    [if n < 0 then 2 else 3] + seq(Magnitude(n), _ => 4) + [5]
  }

  lemma NumShape(n: int, rest: Bytes)
    ensures var a := Num(n) + rest;
            && (a[0] == 2 <==> n < 0)
            && a[1 + Magnitude(n)] == 5 && forall i :: 1 <= i <= Magnitude(n) ==> a[i] == 4
  {
  }

  /** Texts that can be told apart whatever follows. */
  lemma NumUnique(m: int, n: int, s: Bytes, t: Bytes)
    requires Num(m) + s == Num(n) + t
    ensures m == n && s == t
  {
    NumShape(m, s);
    NumShape(n, t);
    assert Magnitude(m) == Magnitude(n);
    assert s == (Num(m) + s)[|Num(m)|..] && t == (Num(n) + t)[|Num(n)|..];
  }

  predicate Plain(text: Bytes)
  {
    MARK !in text && NEWLINE !in text
  }

  lemma NumPlain(n: int)
    ensures Plain(Num(n))
  {
  }

  function StateByte(s: State): Byte
  {
    match s
    case Reserved => 11
    case Completed => 12
    case Uncertain => 13
    case ReauthorizationRequired => 14
    case ReauthorizationReserved => 15
    case Reauthorized => 16
  }

  function ResultText(result: Option<int>): Bytes
  {
    if result.Some? then [7] + Num(result.value) else [6]
  }

  function EventText(e: Event): Bytes
  {
    [StateByte(e.state)] + (Num(e.version) + (Num(e.sequence) + (Num(e.source) + (Num(e.recorded) + ResultText(e.result)))))
  }

  lemma ResultUnique(a: Option<int>, b: Option<int>)
    requires ResultText(a) == ResultText(b)
    ensures a == b
  {
    assert ResultText(a)[0] == ResultText(b)[0];
    if a.Some? && b.Some? {
      assert Num(a.value) == ResultText(a)[1..] && Num(b.value) == ResultText(b)[1..];
      NumUnique(a.value, b.value, [], []);
    }
  }

  lemma EventUnique(a: Event, b: Event)
    requires EventText(a) == EventText(b)
    ensures a == b
  {
    assert EventText(a)[0] == EventText(b)[0];
    var s := Num(a.sequence) + (Num(a.source) + (Num(a.recorded) + ResultText(a.result)));
    var t := Num(b.sequence) + (Num(b.source) + (Num(b.recorded) + ResultText(b.result)));
    assert EventText(a)[1..] == Num(a.version) + s && EventText(b)[1..] == Num(b.version) + t;
    NumUnique(a.version, b.version, s, t);
    NumUnique(a.sequence, b.sequence, Num(a.source) + (Num(a.recorded) + ResultText(a.result)),
              Num(b.source) + (Num(b.recorded) + ResultText(b.result)));
    NumUnique(a.source, b.source, Num(a.recorded) + ResultText(a.result), Num(b.recorded) + ResultText(b.result));
    NumUnique(a.recorded, b.recorded, ResultText(a.result), ResultText(b.result));
    ResultUnique(a.result, b.result);
  }

  lemma EventPlain(e: Event)
    ensures Plain(EventText(e))
  {
    NumPlain(e.version);
    NumPlain(e.sequence);
    NumPlain(e.source);
    NumPlain(e.recorded);
    if e.result.Some? {
      NumPlain(e.result.value);
    }
  }

  /** The records that the journal writes: those that its reader accepts. */
  predicate Written(record: Record)
  {
    ParseEvent(record).Ok?
  }

  function RecordText(record: Record): Bytes
  {
    if ParseEvent(record).Ok? then EventText(ParseEvent(record).value) else []
  }

  lemma RecordsUnmarked()
    ensures Unmarked(RecordText, Written)
  {
    forall r | Written(r)
      ensures MARK !in RecordText(r) && NEWLINE !in RecordText(r)
    {
      EventPlain(ParseEvent(r).value);
    }
    forall q, r | Written(q) && Written(r) && RecordText(q) == RecordText(r)
      ensures q == r
    {
      EventUnique(ParseEvent(q).value, ParseEvent(r).value);
      EncodeAfterParse(q);
      EncodeAfterParse(r);
    }
  }

  lemma JournalFormatExists() returns (c: Journal.Format)
    ensures Journal.SoundFormat(c)
  {
    RecordsUnmarked();
    SoundCodecExists(RecordText, Written);
    c := Marked(RecordText, Written);
    forall e | WellFormed(e)
      ensures c.writes(Encode(e))
    {
      ParseAfterEncode(e);
    }
  }

  function ReceiptText(r: Receipts.Receipt): Bytes
  {
    Num(r.key) + (Num(r.digest) + Num(r.receivedAt))
  }

  predicate AnyReceipt(r: Receipts.Receipt)
  {
    true
  }

  lemma ReceiptsUnmarked()
    ensures Unmarked(ReceiptText, AnyReceipt)
  {
    forall r
      ensures MARK !in ReceiptText(r) && NEWLINE !in ReceiptText(r)
    {
      NumPlain(r.key);
      NumPlain(r.digest);
      NumPlain(r.receivedAt);
    }
    forall q, r | ReceiptText(q) == ReceiptText(r)
      ensures q == r
    {
      NumUnique(q.key, r.key, Num(q.digest) + Num(q.receivedAt), Num(r.digest) + Num(r.receivedAt));
      NumUnique(q.digest, r.digest, Num(q.receivedAt), Num(r.receivedAt));
      NumUnique(q.receivedAt, r.receivedAt, [], []);
    }
  }

  lemma ReceiptFormatExists() returns (c: Receipts.Format)
    ensures Receipts.SoundFormat(c)
  {
    ReceiptsUnmarked();
    SoundCodecExists(ReceiptText, AnyReceipt);
    c := Marked(ReceiptText, AnyReceipt);
  }
}
