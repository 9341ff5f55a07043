/** What redaction makes of each value: replaced as a whole and why, or shown, and which fields of a record are withheld. */
module RedactionOutcomes {
  import opened Wrappers
  import opened Redaction
  import opened RedactionSecrecy
  import opened RedactionNames

  /** What is replaced without a look inside: over a limit, met before, or nothing that JSON data can be made of. */
  predicate Unsafe(boundary: Boundary, v: Value, depth: nat, before: State)
  {
    || before.nodes >= 10_000 || depth > 16
    || match v
       case Null => false
       case Bool(_) => false
       case Number(_, finite) => !finite
       case Text(text) => |text| > 1_000_000
       case NotData => true
       case Foreign(_) => true
       case Error(id, _, _) => id in before.seen || !boundary.Errors?
       case List(id, plain, items) => id in before.seen || !plain || |items| > 10_000
       case Record(id, plain, fields, _) => id in before.seen || !plain || |fields| > 10_000
  }

  predicate LocatesSecret(v: Value)
  {
    v.Record? && exists i :: 0 <= i < |v.fields| && v.fields[i].key == "kind" && v.fields[i].value == Text("secret_reference")
  }

  predicate ReplacedFor(r: (Json, State), before: State, reason: Reason)
  {
    r.0 == JText("[REDACTED]") && r.1.counts == before.counts + multiset{reason} && r.1.nodes == before.nodes + 1
  }

  /** Unsafe values, secret references, and texts at a diagnostic boundary outside its metadata are replaced, and counted as such. */
  lemma WholeIsReplaced(o: Options, v: Value, depth: nat, allowed: bool, before: State)
    ensures Unsafe(o.boundary, v, depth, before) ==> ReplacedFor(Visit(o, v, depth, allowed, before), before, UnsafeValue)
    ensures !Unsafe(o.boundary, v, depth, before) && LocatesSecret(v) ==>
              ReplacedFor(Visit(o, v, depth, allowed, before), before, SecretReference)
    ensures !Unsafe(o.boundary, v, depth, before) && v.Text? && ForDiagnosis(o.boundary) && !allowed ==>
              ReplacedFor(Visit(o, v, depth, allowed, before), before, BusinessContent)
  {
  }

  /** Everything else keeps its kind: scalars as they are, texts cleaned, arrays and records as such. */
  lemma RestIsShown(o: Options, v: Value, depth: nat, allowed: bool, before: State)
    requires !Unsafe(o.boundary, v, depth, before) && !LocatesSecret(v)
    requires v.Text? ==> allowed || !ForDiagnosis(o.boundary)
    ensures var (j, after) := Visit(o, v, depth, allowed, before);
            match v
            case Null => j == JNull && after == before.(nodes := before.nodes + 1)
            case Bool(flag) => j == JBool(flag) && after == before.(nodes := before.nodes + 1)
            case Number(token, _) => j == JNumber(token) && after == before.(nodes := before.nodes + 1)
            case Text(text) => j == JText(o.clean(text).text) && after.counts == before.counts + o.clean(text).found
            case List(_, _, items) => j.JList? && |j.items| == |items|
            case Error(_, _, _) => j.JRecord? && after.counts == before.counts + multiset{BusinessContent}
            case Record(_, _, fields, _) => j.JRecord? && |j.members| == |Visible(fields, |fields|)|
            case _ => true
  {
    if v.List? {
      ItemsConserved(o, v, |v.items|, depth, allowed, Inside(v, before));
    } else if v.Record? {
      FieldsConserved(o, v, |v.fields|, depth, Inside(v, before));
    }
  }

  /** The state in which the parts of an object are visited. */
  function Inside(v: Value, before: State): State
    requires IsObject(v)
  {
    before.(nodes := before.nodes + 1, seen := before.seen + {v.id})
  }

  // Errors

  predicate LetterOrDigit(c: char)
  {
    'a' <= c <= 'z' || 'A' <= c <= 'Z' || '0' <= c <= '9'
  }

  /** Letters and digits, a letter first, ending in `Error` with something in front. */
  predicate ErrorClass(name: string)
  {
    && 6 <= |name| && name[|name| - 5..] == "Error"
    && LetterOrDigit(name[0]) && !('0' <= name[0] <= '9')
    && forall i :: 0 <= i < |name| ==> LetterOrDigit(name[i])
  }

  /** Small letters, digits and underscores, a letter first, of at most 64. */
  predicate CodeWord(code: string)
  {
    && 1 <= |code| <= 64 && 'a' <= code[0] <= 'z'
    && forall i :: 0 <= i < |code| ==> 'a' <= code[i] <= 'z' || '0' <= code[i] <= '9' || code[i] == '_'
  }

  /** An error shows its class and its code, if they are no more than that, and never its message. */
  lemma ErrorIsShown(o: Options, v: Value, depth: nat, allowed: bool, before: State)
    requires v.Error? && !Unsafe(o.boundary, v, depth, before)
    ensures Visit(o, v, depth, allowed, before).0 ==
            JRecord([("name", JText(if v.name.Some? && ErrorClass(v.name.value) then v.name.value else "Error")),
                     ("message", JText("[REDACTED]"))] +
                    if v.code.Some? && CodeWord(v.code.value) then [("code", JText(v.code.value))] else [])
  {
  }

  // Records

  lemma {:induction false} CountsGrowBetween(o: Options, v: Value, k: nat, n: nat, depth: nat, s: State)
    requires v.Record? && k <= n <= |v.fields|
    ensures VisitFields(o, v, k, depth, s).1.counts <= VisitFields(o, v, n, depth, s).1.counts
  {
    if k < n {
      CountsGrowBetween(o, v, k, n - 1, depth, s);
      var done := VisitFields(o, v, n - 1, depth, s);
      var f := v.fields[n - 1];
      if f.enumerable {
        KeyCounts(o, f.key, Used(done.0), done.1);
        var key := OutputKey(o, f.key, Used(done.0), done.1);
        VisitCounts(o, f.value, depth + 1, TextAllowed(o, f.key), key.1);
      }
    }
  }

  lemma MaskedCounts(o: Options, v: Value, k: nat, n: nat, depth: nat, s: State, reason: Reason)
    requires v.Record? && k < n <= |v.fields| && v.fields[k].enumerable && Mask(o, v.fields[k].key) == Some(reason)
    ensures VisitFields(o, v, k, depth, s).1.counts[reason] < VisitFields(o, v, n, depth, s).1.counts[reason]
  {
    var done := VisitFields(o, v, k, depth, s);
    KeyCounts(o, v.fields[k].key, Used(done.0), done.1);
    CountsGrowBetween(o, v, k + 1, n, depth, s);
    var key := OutputKey(o, v.fields[k].key, Used(done.0), done.1);
    assert VisitFields(o, v, k + 1, depth, s).1.counts == key.1.counts + multiset{reason};
  }

  /** The place of a field in the output: enumerable fields in front of it come before it. */
  function Place(v: Value, k: nat): nat
    requires v.Record? && k <= |v.fields|
  {
    |Visible(v.fields, k)|
  }

  /**
   The fields of a record that is looked into, by how their names read: one that names a credential, hidden reasoning or,
   for diagnosis, business content shows the marker and is counted for that reason, whatever it holds.
   */
  lemma NamedFieldsAreWithheld(
    boundary: Boundary, declared: set<string>, clean: string -> Cleaned,
    v: Value, depth: nat, allowed: bool, before: State, k: nat)
    requires v.Record? && !Unsafe(boundary, v, depth, before) && !LocatesSecret(v)
    requires k < |v.fields| && v.fields[k].enumerable
    ensures var (j, after) := Visit(Configured(boundary, declared, clean), v, depth, allowed, before);
            var reason := Withheld(boundary, declared, v.fields[k].key);
            && j.JRecord? && Place(v, k) < |j.members|
            && (reason.Some? ==> j.members[Place(v, k)].1 == JText("[REDACTED]")
                                 && after.counts[reason.value] > before.counts[reason.value])
  {
    var o := Configured(boundary, declared, clean);
    var s, n := Inside(v, before), |v.fields|;
    MaskIsWithheld(boundary, declared, clean, v.fields[k].key);
    FieldsShown(o, v, n, depth, s, k);
    var reason := Withheld(boundary, declared, v.fields[k].key);
    if reason.Some? {
      MaskedCounts(o, v, k, n, depth, s, reason.value);
      FieldsCount(o, v, k, depth, s);
    }
  }

  /** And every other field shows the redacted value, with texts shown for diagnosis exactly under names of metadata. */
  lemma OtherFieldsAreShown(
    boundary: Boundary, declared: set<string>, clean: string -> Cleaned,
    v: Value, depth: nat, allowed: bool, before: State, k: nat)
    requires v.Record? && !Unsafe(boundary, v, depth, before) && !LocatesSecret(v)
    requires k < |v.fields| && v.fields[k].enumerable && Withheld(boundary, declared, v.fields[k].key).None?
    ensures var o := Configured(boundary, declared, clean);
            var (j, _) := Visit(o, v, depth, allowed, before);
            var done := VisitFields(o, v, k, depth, Inside(v, before));
            && j.JRecord? && Place(v, k) < |j.members|
            && j.members[Place(v, k)].1 ==
               Visit(o, v.fields[k].value, depth + 1, ForDiagnosis(boundary) && NamesMetadata(v.fields[k].key),
                     OutputKey(o, v.fields[k].key, Used(done.0), done.1).1).0
  {
    MaskIsWithheld(boundary, declared, clean, v.fields[k].key);
    TextAllowedIs(boundary, declared, clean, v.fields[k].key);
    FieldsShown(Configured(boundary, declared, clean), v, |v.fields|, depth, Inside(v, before), k);
  }

  /** What is found in a name is counted: an over-long name as unsafe, and what cleaning finds in any other. */
  lemma NamesAreCounted(o: Options, v: Value, k: nat, n: nat, depth: nat, s: State)
    requires v.Record? && k < n <= |v.fields| && v.fields[k].enumerable
    ensures var found := if |v.fields[k].key| > 1024 then multiset{UnsafeValue} else o.clean(v.fields[k].key).found;
            VisitFields(o, v, k, depth, s).1.counts + found <= VisitFields(o, v, n, depth, s).1.counts
  {
    var f := v.fields[k];
    var done := VisitFields(o, v, k, depth, s);
    var key := OutputKey(o, f.key, Used(done.0), done.1);
    VisitCounts(o, f.value, depth + 1, TextAllowed(o, f.key), key.1);
    CountsGrowBetween(o, v, k + 1, n, depth, s);
  }

  /** And the name under which a field appears: that marker or the cleaned name, with as many underscores as make it new. */
  lemma NamesAreMade(o: Options, v: Value, n: nat, depth: nat, s: State, k: nat)
    requires v.Record? && k < n <= |v.fields| && v.fields[k].enumerable
    ensures var members := VisitFields(o, v, n, depth, s).0;
            var stem := if |v.fields[k].key| > 1024 then "[REDACTED]" else o.clean(v.fields[k].key).text;
            && Place(v, k) < |members|
            && stem <= members[Place(v, k)].0
            && (forall i :: |stem| <= i < |members[Place(v, k)].0| ==> members[Place(v, k)].0[i] == '_')
  {
    FieldsConserved(o, v, n, depth, s);
    VisibleGrows(v.fields, k, n);
    assert MadeFrom(o, VisitFields(o, v, n, depth, s).0[Place(v, k)], v.fields[k]);
  }

  /** Names that read alike share their fate. */
  lemma AlikeNamesShareFate(boundary: Boundary, declared: set<string>, clean: string -> Cleaned, name: string, other: string)
    requires ReadAlike(name, other)
    ensures Withheld(boundary, declared, name) == Withheld(boundary, declared, other)
    ensures NamesMetadata(name) <==> NamesMetadata(other)
  {
    AlikeIsNormal(name, other);
    MaskIsWithheld(boundary, declared, clean, name);
    MaskIsWithheld(boundary, declared, clean, other);
    NamesMetadataListed(name);
    NamesMetadataListed(other);
  }

  lemma {:induction false} SameFieldsVisitAlike(o: Options, v: Value, w: Value, n: nat, depth: nat, s: State)
    requires v.Record? && w.Record? && v.fields == w.fields && n <= |v.fields|
    ensures VisitFields(o, v, n, depth, s) == VisitFields(o, w, n, depth, s)
  {
    if n > 0 {
      SameFieldsVisitAlike(o, v, w, n - 1, depth, s);
    }
  }

  /** Properties under symbols do not show; that a record has some is counted once. */
  lemma SymbolsAreCounted(o: Options, v: Value, depth: nat, allowed: bool, before: State)
    requires v.Record? && v.symbols && !Unsafe(o.boundary, v, depth, before) && !LocatesSecret(v)
    ensures var (j, after) := Visit(o, v, depth, allowed, before);
            var (k, without) := Visit(o, v.(symbols := false), depth, allowed, before);
            j == k && after.counts == without.counts + multiset{UnsafeValue}
  {
    SameFieldsVisitAlike(o, v, v.(symbols := false), |v.fields|, depth, Inside(v, before));
  }

  // What a visit remembers

  predicate Remembers(before: State, after: State)
  {
    before.seen <= after.seen && before.nodes <= after.nodes
  }

  lemma {:induction false} VisitRemembers(o: Options, v: Value, depth: nat, allowed: bool, s: State)
    ensures var after := Visit(o, v, depth, allowed, s).1;
            && Remembers(s, after) && s.nodes < after.nodes
            && (IsObject(v) && s.nodes < 10_000 && depth <= 16 ==> v.id in after.seen)
    decreases v, 2, 0
  {
    if IsObject(v) {
      if v.List? {
        ItemsRemember(o, v, |v.items|, depth, allowed, Inside(v, s));
      } else if v.Record? {
        FieldsRemember(o, v, |v.fields|, depth, Inside(v, s));
      }
    }
  }

  lemma {:induction false} ItemsRemember(o: Options, v: Value, n: nat, depth: nat, allowed: bool, s: State)
    requires v.List? && n <= |v.items|
    ensures Remembers(s, VisitItems(o, v, n, depth, allowed, s).1)
    decreases v, 0, n
  {
    if n > 0 {
      ItemsRemember(o, v, n - 1, depth, allowed, s);
      if v.items[n - 1].Some? {
        VisitRemembers(o, v.items[n - 1].value, depth + 1, allowed, VisitItems(o, v, n - 1, depth, allowed, s).1);
      }
    }
  }

  lemma {:induction false} FieldsRemember(o: Options, v: Value, n: nat, depth: nat, s: State)
    requires v.Record? && n <= |v.fields|
    ensures Remembers(s, VisitFields(o, v, n, depth, s).1)
    decreases v, 0, n
  {
    if n > 0 {
      FieldsRemember(o, v, n - 1, depth, s);
      var done := VisitFields(o, v, n - 1, depth, s);
      var f := v.fields[n - 1];
      if f.enumerable {
        var key := OutputKey(o, f.key, Used(done.0), done.1);
        VisitRemembers(o, f.value, depth + 1, TextAllowed(o, f.key), key.1);
      }
    }
  }

  /**
   An object that comes again, in a cycle or beside itself, is replaced wherever it comes: anything visited after it,
   with a state that remembers at least as much, finds it unsafe.
   */
  lemma ComesOnce(o: Options, v: Value, depth: nat, allowed: bool, s: State, later: State, again: nat, under: bool)
    requires IsObject(v) && s.nodes < 10_000 && depth <= 16
    requires Remembers(Visit(o, v, depth, allowed, s).1, later)
    ensures ReplacedFor(Visit(o, v, again, under, later), later, UnsafeValue)
  {
    VisitRemembers(o, v, depth, allowed, s);
    WholeIsReplaced(o, v, again, under, later);
  }

  // How large the output can be

  function Depth(j: Json): nat
  {
    match j
    case JList(items) => 1 + ListDepth(items)
    case JRecord(members) => 1 + RecordDepth(members)
    case _ => 1
  }

  function ListDepth(items: seq<Json>): nat
  {
    if items == [] then 0 else
      var rest, last := ListDepth(items[..|items| - 1]), Depth(items[|items| - 1]);
      if rest > last then rest else last
  }

  function RecordDepth(members: seq<(string, Json)>): nat
  {
    if members == [] then 0 else
      var m := members[|members| - 1];
      assert m in members && m.1 < m;
      var rest, last := RecordDepth(members[..|members| - 1]), Depth(m.1);
      if rest > last then rest else last
  }

  /** How deep the output of a visit at this depth may be. */
  function Allowance(depth: nat): nat
  {
    if depth > 16 then 1 else 18 - depth
  }

  lemma ErrorIsShallow(name: Option<string>, code: Option<string>)
    ensures Depth(RedactedError(name, code)) == 2
  {
    var members := RedactedError(name, code).members;
    var none: seq<(string, Json)> := [];
    assert members[..1][..0] == none && members[..2][..1] == members[..1];
    assert RecordDepth(members[..1]) == 1;
    assert RecordDepth(members[..2]) == 1;
    if |members| == 2 {
      assert members[..2] == members;
    } else {
      assert RecordDepth(members) == 1;
    }
  }

  lemma {:induction false} VisitIsShallow(o: Options, v: Value, depth: nat, allowed: bool, s: State)
    ensures Depth(Visit(o, v, depth, allowed, s).0) <= Allowance(depth)
    decreases v, 2, 0
  {
    if IsObject(v) && s.nodes < 10_000 && depth <= 16 {
      if v.Error? {
        ErrorIsShallow(v.name, v.code);
      } else if v.List? {
        ItemsAreShallow(o, v, |v.items|, depth, allowed, Inside(v, s));
      } else if v.Record? {
        FieldsAreShallow(o, v, |v.fields|, depth, Inside(v, s));
      }
    }
  }

  lemma {:induction false} ItemsAreShallow(o: Options, v: Value, n: nat, depth: nat, allowed: bool, s: State)
    requires v.List? && n <= |v.items| && depth <= 16
    ensures ListDepth(VisitItems(o, v, n, depth, allowed, s).0) <= Allowance(depth + 1)
    decreases v, 0, n
  {
    if n > 0 {
      ItemsAreShallow(o, v, n - 1, depth, allowed, s);
      var done := VisitItems(o, v, n - 1, depth, allowed, s);
      if v.items[n - 1].Some? {
        VisitIsShallow(o, v.items[n - 1].value, depth + 1, allowed, done.1);
      }
      var all := VisitItems(o, v, n, depth, allowed, s).0;
      assert all[..|all| - 1] == done.0;
    }
  }

  lemma {:induction false} FieldsAreShallow(o: Options, v: Value, n: nat, depth: nat, s: State)
    requires v.Record? && n <= |v.fields| && depth <= 16
    ensures RecordDepth(VisitFields(o, v, n, depth, s).0) <= Allowance(depth + 1)
    decreases v, 0, n
  {
    if n > 0 {
      FieldsAreShallow(o, v, n - 1, depth, s);
      var done := VisitFields(o, v, n - 1, depth, s);
      var f := v.fields[n - 1];
      if f.enumerable {
        var key := OutputKey(o, f.key, Used(done.0), done.1);
        VisitIsShallow(o, f.value, depth + 1, TextAllowed(o, f.key), key.1);
        var all := VisitFields(o, v, n, depth, s).0;
        assert all[..|all| - 1] == done.0;
      }
    }
  }

  /** However deep the input, the output is at most 18 levels deep. */
  lemma OutputIsShallow(o: Options, v: Value)
    ensures Depth(Redact(o, v).0) <= 18
  {
    VisitIsShallow(o, v, 0, false, Start());
  }
}
