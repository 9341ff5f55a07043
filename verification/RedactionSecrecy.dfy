/** What redaction hides, what it keeps, and exactly when. */
module RedactionSecrecy {
  import opened Wrappers
  import opened Redaction

  predicate IsObject(v: Value)
  {
    v.Foreign? || v.Error? || v.List? || v.Record?
  }

  /** Objects that are replaced without a look at what they hold. */
  predicate Refused(o: Options, v: Value)
    requires IsObject(v)
  {
    match v
    case Foreign(_) => true
    case Error(_, _, _) => !o.boundary.Errors?
    case List(_, plain, items) => !plain || |items| > MAX_MEMBERS
    case Record(_, plain, fields, _) => !plain || |fields| > MAX_MEMBERS
    case _ => false
  }

  predicate UnsafeScalar(v: Value)
  {
    v.NotData? || (v.Number? && !v.finite) || (v.Text? && |v.text| > MAX_TEXT)
  }

  /** Text that a diagnostic boundary replaces whatever it says. */
  predicate WithheldText(o: Options, v: Value, allowed: bool)
  {
    v.Text? && |v.text| <= MAX_TEXT && Diagnostic(o) && !allowed
  }

  /**
   The two values differ at most in what must not be seen: the values of masked fields, everything
   inside secret references and refused objects, the messages and other content of errors, texts that
   a diagnostic boundary withholds, and which of the unsafe scalars stands somewhere.
   */
  predicate Alike(o: Options, a: Value, b: Value, allowed: bool)
    decreases a
  {
    || a == b
    || (UnsafeScalar(a) && UnsafeScalar(b))
    || (WithheldText(o, a, allowed) && WithheldText(o, b, allowed))
    || (IsObject(a) && IsObject(b) && a.id == b.id &&
        (|| (Refused(o, a) && Refused(o, b))
         || (!Refused(o, a) && !Refused(o, b) &&
             (|| (a.Error? && b.Error? && RedactedError(a.name, a.code) == RedactedError(b.name, b.code))
              || (a.List? && b.List? && |a.items| == |b.items| &&
                  forall i :: 0 <= i < |a.items| ==>
                    (a.items[i].None? && b.items[i].None?) ||
                    (a.items[i].Some? && b.items[i].Some? && Alike(o, a.items[i].value, b.items[i].value, allowed)))
              || (a.Record? && b.Record? &&
                  (|| (IsSecretReference(a.fields) && IsSecretReference(b.fields))
                   || (a.symbols == b.symbols && |a.fields| == |b.fields| &&
                       forall i :: 0 <= i < |a.fields| ==>
                         a.fields[i].key == b.fields[i].key && a.fields[i].enumerable == b.fields[i].enumerable &&
                         (Mask(o, a.fields[i].key).Some? ||
                          Alike(o, a.fields[i].value, b.fields[i].value, TextAllowed(o, a.fields[i].key))))))))))
  }

  lemma KindIsNormal()
    ensures NormalizeKey("kind") == "kind"
  {
    var k := "kind";
    assert k[1..] == "ind" && "ind"[1..] == "nd" && "nd"[1..] == "d" && "d"[1..] == "";
    assert NormalizeKey("d") == "d";
    assert NormalizeKey("nd") == "nd";
    assert NormalizeKey("ind") == "ind";
  }

  lemma KindIsNoCredential()
    ensures !CredentialKey("kind")
  {
    var k := "kind";
    forall i | 0 <= i < |CREDENTIAL_SUFFIXES| ensures !EndsWith(k, CREDENTIAL_SUFFIXES[i]) {
      if |CREDENTIAL_SUFFIXES[i]| <= 4 {
        assert false;
      }
    }
  }

  lemma KindIsPlain(o: Options)
    ensures NormalizeKey("kind") == "kind"
    ensures Mask(o, "kind").Some? <==> "kind" in o.sensitive
    ensures Diagnostic(o) ==> TextAllowed(o, "kind")
  {
    KindIsNormal();
    KindIsNoCredential();
  }

  lemma AlikeKind(o: Options, a: Value, b: Value, allowed: bool, i: nat)
    requires a.Record? && b.Record? && a.id == b.id && !Refused(o, a) && !Refused(o, b)
    requires Alike(o, a, b, allowed) && "kind" !in o.sensitive && i < |a.fields| && a.fields[i].key == "kind"
    ensures (IsSecretReference(a.fields) && IsSecretReference(b.fields)) ||
            (|a.fields| == |b.fields| && b.fields[i].key == "kind" && Alike(o, a.fields[i].value, b.fields[i].value, TextAllowed(o, "kind")))
  {
    KindIsPlain(o);
  }

  /** A visible `kind` decides alike in both. */
  lemma SameKind(o: Options, a: Value, b: Value, allowed: bool)
    requires a.Record? && b.Record? && a.id == b.id && !Refused(o, a) && !Refused(o, b)
    requires Alike(o, a, b, allowed) && "kind" !in o.sensitive
    ensures IsSecretReference(a.fields) <==> IsSecretReference(b.fields)
  {
    KindIsPlain(o);
    var t := Text("secret_reference");
    assert |t.text| <= MAX_TEXT;
    if i :| 0 <= i < |a.fields| && a.fields[i].key == "kind" && a.fields[i].value == t && !IsSecretReference(b.fields) {
      AlikeKind(o, a, b, allowed, i);
      assert b.fields[i].value == t;
    }
    if i :| 0 <= i < |b.fields| && b.fields[i].key == "kind" && b.fields[i].value == t && !IsSecretReference(a.fields) {
      assert |a.fields| == |b.fields| && a.fields[i].key == "kind";
      AlikeKind(o, a, b, allowed, i);
      assert a.fields[i].value == t;
    }
  }

  lemma {:induction false} VisitAlike(o: Options, a: Value, b: Value, depth: nat, allowed: bool, s: State)
    requires "kind" !in o.sensitive && Alike(o, a, b, allowed)
    ensures Visit(o, a, depth, allowed, s) == Visit(o, b, depth, allowed, s)
    decreases a, 2, 0
  {
    if a != b && IsObject(a) && IsObject(b) {
      var s' := s.(nodes := s.nodes + 1);
      VisitObjectAlike(o, a, b, depth, allowed, s'.(seen := s'.seen + {a.id}));
    }
  }

  lemma {:induction false} VisitObjectAlike(o: Options, a: Value, b: Value, depth: nat, allowed: bool, s: State)
    requires "kind" !in o.sensitive && Alike(o, a, b, allowed) && a != b
    requires IsObject(a) && IsObject(b)
    ensures VisitObject(o, a, depth, allowed, s) == VisitObject(o, b, depth, allowed, s)
    decreases a, 1, 0
  {
    if Refused(o, a) || Refused(o, b) {
    } else if a.Error? {
    } else if a.List? {
      ItemsAlike(o, a, b, |a.items|, depth, allowed, s);
    } else {
      SameKind(o, a, b, allowed);
      if !IsSecretReference(a.fields) {
        FieldsAlike(o, a, b, |a.fields|, depth, s);
      }
    }
  }

  lemma {:induction false} ItemsAlike(o: Options, a: Value, b: Value, n: nat, depth: nat, allowed: bool, s: State)
    requires "kind" !in o.sensitive && a.List? && b.List? && |a.items| == |b.items| && n <= |a.items|
    requires forall i :: 0 <= i < |a.items| ==>
               (a.items[i].None? && b.items[i].None?) ||
               (a.items[i].Some? && b.items[i].Some? && Alike(o, a.items[i].value, b.items[i].value, allowed))
    ensures VisitItems(o, a, n, depth, allowed, s) == VisitItems(o, b, n, depth, allowed, s)
    decreases a, 0, n
  {
    if n > 0 {
      ItemsAlike(o, a, b, n - 1, depth, allowed, s);
      var done := VisitItems(o, a, n - 1, depth, allowed, s);
      if a.items[n - 1].Some? {
        VisitAlike(o, a.items[n - 1].value, b.items[n - 1].value, depth + 1, allowed, done.1);
      }
    }
  }

  lemma {:induction false} FieldsAlike(o: Options, a: Value, b: Value, n: nat, depth: nat, s: State)
    requires "kind" !in o.sensitive && a.Record? && b.Record? && |a.fields| == |b.fields| && n <= |a.fields|
    requires forall i :: 0 <= i < |a.fields| ==>
               a.fields[i].key == b.fields[i].key && a.fields[i].enumerable == b.fields[i].enumerable &&
               (Mask(o, a.fields[i].key).Some? ||
                Alike(o, a.fields[i].value, b.fields[i].value, TextAllowed(o, a.fields[i].key)))
    ensures VisitFields(o, a, n, depth, s) == VisitFields(o, b, n, depth, s)
    decreases a, 0, n
  {
    if n > 0 {
      FieldsAlike(o, a, b, n - 1, depth, s);
      var done := VisitFields(o, a, n - 1, depth, s);
      var f, g := a.fields[n - 1], b.fields[n - 1];
      if f.enumerable && Mask(o, f.key).None? {
        var key := OutputKey(o, f.key, Used(done.0), done.1);
        VisitAlike(o, f.value, g.value, depth + 1, TextAllowed(o, f.key), key.1);
      }
    }
  }

  /** The redacted value and all counts are the same for values that differ only in what must not be seen. */
  lemma NothingLeaks(o: Options, a: Value, b: Value)
    requires "kind" !in o.sensitive && Alike(o, a, b, false)
    ensures Redact(o, a) == Redact(o, b)
  {
    VisitAlike(o, a, b, 0, false, Start());
  }

  ghost predicate Confidential(o: Options)
  {
    forall a, b :: Alike(o, a, b, false) ==> Redact(o, a) == Redact(o, b)
  }

  function OneField(key: string, text: string): Value
  {
    Record(0, true, [Field(key, Text(text), true)], false)
  }

  /** A caller that declares `kind` sensitive lets one bit of it through: whether the object is a secret reference. */
  lemma SensitiveKindShows(o: Options)
    requires "kind" in o.sensitive
    ensures var a, b := OneField("kind", "secret_reference"), OneField("kind", "other");
            Alike(o, a, b, false) && Redact(o, a).0.JText? && Redact(o, b).0.JRecord?
  {
    KindIsPlain(o);
    var a, b := OneField("kind", "secret_reference"), OneField("kind", "other");
    assert a.fields[0].key == "kind";
    assert IsSecretReference(a.fields) && !IsSecretReference(b.fields);
    assert Visit(o, a, 0, false, Start()).0 == JText(REDACTED);
    assert VisitObject(o, b, 0, false, State(multiset{}, 1, {0})).0.JRecord?;
    assert Visit(o, b, 0, false, Start()) == VisitObject(o, b, 0, false, State(multiset{}, 1, {} + {0}));
  }

  /** Redaction is confidential for exactly the callers that do not declare `kind` itself sensitive. */
  lemma ConfidentialIffKindVisible(o: Options)
    ensures Confidential(o) <==> "kind" !in o.sensitive
  {
    if "kind" in o.sensitive {
      SensitiveKindShows(o);
      var a, b := OneField("kind", "secret_reference"), OneField("kind", "other");
      assert Alike(o, a, b, false) && Redact(o, a) != Redact(o, b);
    } else {
      forall a, b | Alike(o, a, b, false) ensures Redact(o, a) == Redact(o, b) {
        NothingLeaks(o, a, b);
      }
    }
  }

  /** A text stands in the value somewhere (member names aside). */
  predicate Shows(j: Json, t: string)
  {
    match j
    case JText(text) => text == t
    case JList(items) => exists i :: 0 <= i < |items| && Shows(items[i], t)
    case JRecord(members) => exists i :: 0 <= i < |members| && Shows(members[i].1, t)
    case _ => false
  }

  /**
   The texts that may come out of `v`: cleaned texts in places where text is allowed (at a diagnostic
   boundary only under an allowlisted key), and the checked name and code of an error.
   */
  predicate Permits(o: Options, v: Value, allowed: bool, t: string)
  {
    match v
    case Text(text) => (!Diagnostic(o) || allowed) && |text| <= MAX_TEXT && t == o.clean(text).text
    case Error(_, name, code) => o.boundary.Errors? && (t == SafeName(name) || SafeCode(code) == Some(t))
    case List(_, plain, items) =>
      plain && exists i :: 0 <= i < |items| && items[i].Some? && Permits(o, items[i].value, allowed, t)
    case Record(_, plain, fields, _) =>
      plain && !IsSecretReference(fields) &&
      exists i :: 0 <= i < |fields| && fields[i].enumerable && Mask(o, fields[i].key).None?
                  && Permits(o, fields[i].value, TextAllowed(o, fields[i].key), t)
    case _ => false
  }

  lemma {:induction false} VisitShows(o: Options, v: Value, depth: nat, allowed: bool, s: State, t: string)
    requires Shows(Visit(o, v, depth, allowed, s).0, t) && t != REDACTED
    ensures Permits(o, v, allowed, t)
    decreases v, 2, 0
  {
    if IsObject(v) {
      var s' := s.(nodes := s.nodes + 1);
      ObjectShows(o, v, depth, allowed, s'.(seen := s'.seen + {v.id}), t);
    }
  }

  lemma ErrorShows(name: Option<string>, code: Option<string>, t: string)
    requires Shows(RedactedError(name, code), t) && t != REDACTED
    ensures t == SafeName(name) || SafeCode(code) == Some(t)
  {
    var members := RedactedError(name, code).members;
    var i :| 0 <= i < |members| && Shows(members[i].1, t);
    assert i == 0 || i == 1 || i == 2;
  }

  lemma {:induction false} ObjectShows(o: Options, v: Value, depth: nat, allowed: bool, s: State, t: string)
    requires IsObject(v) && Shows(VisitObject(o, v, depth, allowed, s).0, t) && t != REDACTED
    ensures Permits(o, v, allowed, t)
    decreases v, 1, 0
  {
    if Refused(o, v) {
    } else if v.Error? {
      ErrorShows(v.name, v.code, t);
    } else if v.List? {
      var items := VisitItems(o, v, |v.items|, depth, allowed, s).0;
      var i :| 0 <= i < |items| && Shows(items[i], t);
      ItemShows(o, v, |v.items|, depth, allowed, s, i, t);
    } else if !IsSecretReference(v.fields) {
      var members := VisitFields(o, v, |v.fields|, depth, s).0;
      var i :| 0 <= i < |members| && Shows(members[i].1, t);
      FieldShows(o, v, |v.fields|, depth, s, i, t);
    }
  }

  lemma {:induction false} ItemShows(o: Options, v: Value, n: nat, depth: nat, allowed: bool, s: State, i: nat, t: string)
    requires v.List? && n <= |v.items| && i < |VisitItems(o, v, n, depth, allowed, s).0|
    requires Shows(VisitItems(o, v, n, depth, allowed, s).0[i], t) && t != REDACTED
    ensures exists k :: 0 <= k < |v.items| && v.items[k].Some? && Permits(o, v.items[k].value, allowed, t)
    decreases v, 0, n
  {
    if n > 0 {
      var done := VisitItems(o, v, n - 1, depth, allowed, s);
      if i < |done.0| {
        ItemShows(o, v, n - 1, depth, allowed, s, i, t);
      } else if v.items[n - 1].Some? {
        VisitShows(o, v.items[n - 1].value, depth + 1, allowed, done.1, t);
      }
    }
  }

  lemma {:induction false} FieldShows(o: Options, v: Value, n: nat, depth: nat, s: State, i: nat, t: string)
    requires v.Record? && n <= |v.fields| && i < |VisitFields(o, v, n, depth, s).0|
    requires Shows(VisitFields(o, v, n, depth, s).0[i].1, t) && t != REDACTED
    ensures exists k :: 0 <= k < |v.fields| && v.fields[k].enumerable && Mask(o, v.fields[k].key).None?
                        && Permits(o, v.fields[k].value, TextAllowed(o, v.fields[k].key), t)
    decreases v, 0, n
  {
    if n > 0 {
      var done := VisitFields(o, v, n - 1, depth, s);
      var f := v.fields[n - 1];
      if i < |done.0| {
        FieldShows(o, v, n - 1, depth, s, i, t);
      } else if f.enumerable && Mask(o, f.key).None? {
        var key := OutputKey(o, f.key, Used(done.0), done.1);
        VisitShows(o, f.value, depth + 1, TextAllowed(o, f.key), key.1, t);
      }
    }
  }

  /** Every text in the redacted value is the marker or one that the input is permitted to show. */
  lemma SurvivingText(o: Options, v: Value, t: string)
    requires Shows(Redact(o, v).0, t) && t != REDACTED
    ensures Permits(o, v, false, t)
  {
    VisitShows(o, v, 0, false, Start(), t);
  }

  /** The fields that appear: the enumerable ones, in order. */
  function Visible(fields: seq<Field>, n: nat): seq<Field>
    requires n <= |fields|
  {
    if n == 0 then []
    else Visible(fields, n - 1) + if fields[n - 1].enumerable then [fields[n - 1]] else []
  }

  function Stem(o: Options, key: string): string
  {
    if |key| > MAX_KEY then REDACTED else o.clean(key).text
  }

  /** The member made from a field: its name with underscores added, and the marker if the field is masked. */
  predicate MadeFrom(o: Options, m: (string, Json), f: Field)
  {
    && Stem(o, f.key) <= m.0
    && (forall i :: |Stem(o, f.key)| <= i < |m.0| ==> m.0[i] == '_')
    && (Mask(o, f.key).Some? ==> m.1 == JText(REDACTED))
  }

  predicate DistinctNames(members: seq<(string, Json)>)
  {
    forall i, j :: 0 <= i < j < |members| ==> members[i].0 != members[j].0
  }

  /** What a record shows for an enumerable field: the marker if the field is masked, and its redacted value if not. */
  function FieldShown(o: Options, v: Value, k: nat, depth: nat, s: State): Json
    requires v.Record? && k < |v.fields|
  {
    var f := v.fields[k];
    var done := VisitFields(o, v, k, depth, s);
    if Mask(o, f.key).Some? then JText(REDACTED)
    else Visit(o, f.value, depth + 1, TextAllowed(o, f.key), OutputKey(o, f.key, Used(done.0), done.1).1).0
  }

  lemma {:induction false} VisibleGrows(fields: seq<Field>, k: nat, n: nat)
    requires k < n <= |fields| && fields[k].enumerable
    ensures |Visible(fields, k)| < |Visible(fields, n)| && Visible(fields, n)[|Visible(fields, k)|] == fields[k]
  {
    if k < n - 1 {
      VisibleGrows(fields, k, n - 1);
    }
  }

  /**
   No field is lost and none is merged with another, although cleaning may give two of them the same
   name: the members are the enumerable fields, one for one and in order, under distinct names.
   */
  lemma {:induction false} FieldsConserved(o: Options, v: Value, n: nat, depth: nat, s: State)
    requires v.Record? && n <= |v.fields|
    ensures var members := VisitFields(o, v, n, depth, s).0;
            && |members| == |Visible(v.fields, n)|
            && DistinctNames(members)
            && forall i :: 0 <= i < |members| ==> MadeFrom(o, members[i], Visible(v.fields, n)[i])
    decreases n
  {
    if n > 0 {
      FieldsConserved(o, v, n - 1, depth, s);
      var done := VisitFields(o, v, n - 1, depth, s);
      var f := v.fields[n - 1];
      if f.enumerable {
        var key := OutputKey(o, f.key, Used(done.0), done.1);
        assert key.0 == FreshKey(Stem(o, f.key), Used(done.0));
        forall i | 0 <= i < |done.0| ensures done.0[i].0 != key.0 {
          assert done.0[i].0 in Used(done.0);
        }
        var members := VisitFields(o, v, n, depth, s).0;
        assert members[..|done.0|] == done.0 && members[|done.0|].0 == key.0;
        assert MadeFrom(o, members[|done.0|], f);
      }
    }
  }

  /** And the member of an enumerable field, which is as far down as enumerable fields come before it, shows that field. */
  lemma {:induction false} FieldsShown(o: Options, v: Value, n: nat, depth: nat, s: State, k: nat)
    requires v.Record? && k < n <= |v.fields| && v.fields[k].enumerable
    ensures var members := VisitFields(o, v, n, depth, s).0;
            && |Visible(v.fields, k)| < |members| == |Visible(v.fields, n)|
            && members[|Visible(v.fields, k)|].1 == FieldShown(o, v, k, depth, s)
    decreases n
  {
    FieldsConserved(o, v, n, depth, s);
    VisibleGrows(v.fields, k, n);
    if k < n - 1 {
      FieldsShown(o, v, n - 1, depth, s, k);
    } else {
      FieldsConserved(o, v, k, depth, s);
    }
  }

  /** What an array shows at a position: the redacted item, visited after those before it, or the marker for a hole. */
  function ItemShown(o: Options, v: Value, i: nat, depth: nat, allowed: bool, s: State): Json
    requires v.List? && i < |v.items|
  {
    if v.items[i].None? then JText(REDACTED)
    else Visit(o, v.items[i].value, depth + 1, allowed, VisitItems(o, v, i, depth, allowed, s).1).0
  }

  /** Array positions are kept, holes included: each of them shows what became of its own item. */
  lemma {:induction false} ItemsConserved(o: Options, v: Value, n: nat, depth: nat, allowed: bool, s: State)
    requires v.List? && n <= |v.items|
    ensures |VisitItems(o, v, n, depth, allowed, s).0| == n
    ensures forall i :: 0 <= i < n ==>
              VisitItems(o, v, n, depth, allowed, s).0[i] == ItemShown(o, v, i, depth, allowed, s)
    decreases n
  {
    if n > 0 {
      ItemsConserved(o, v, n - 1, depth, allowed, s);
    }
  }

  lemma {:induction false} VisitCounts(o: Options, v: Value, depth: nat, allowed: bool, s: State)
    ensures s.counts <= Visit(o, v, depth, allowed, s).1.counts
    decreases v, 2, 0
  {
    if IsObject(v) {
      var s' := s.(nodes := s.nodes + 1);
      var t := s'.(seen := s'.seen + {v.id});
      if v.List? {
        ItemsCount(o, v, |v.items|, depth, allowed, t);
      } else if v.Record? {
        FieldsCount(o, v, |v.fields|, depth, t);
      }
    }
  }

  lemma {:induction false} ItemsCount(o: Options, v: Value, n: nat, depth: nat, allowed: bool, s: State)
    requires v.List? && n <= |v.items|
    ensures s.counts <= VisitItems(o, v, n, depth, allowed, s).1.counts
    decreases v, 0, n
  {
    if n > 0 {
      ItemsCount(o, v, n - 1, depth, allowed, s);
      if v.items[n - 1].Some? {
        VisitCounts(o, v.items[n - 1].value, depth + 1, allowed, VisitItems(o, v, n - 1, depth, allowed, s).1);
      }
    }
  }

  lemma {:induction false} FieldsCount(o: Options, v: Value, n: nat, depth: nat, s: State)
    requires v.Record? && n <= |v.fields|
    ensures s.counts <= VisitFields(o, v, n, depth, s).1.counts
    decreases v, 0, n
  {
    if n > 0 {
      FieldsCount(o, v, n - 1, depth, s);
      var done := VisitFields(o, v, n - 1, depth, s);
      var f := v.fields[n - 1];
      if f.enumerable && Mask(o, f.key).None? {
        var key := OutputKey(o, f.key, Used(done.0), done.1);
        VisitCounts(o, f.value, depth + 1, TextAllowed(o, f.key), key.1);
      }
    }
  }

  /** How many of the first fields are replaced because of their name. */
  function MaskedFields(o: Options, fields: seq<Field>, n: nat): nat
    requires n <= |fields|
  {
    if n == 0 then 0
    else MaskedFields(o, fields, n - 1) +
         if fields[n - 1].enumerable && Mask(o, fields[n - 1].key).Some? then 1 else 0
  }

  lemma LargerCounts(a: multiset<Reason>, b: multiset<Reason>)
    requires a <= b
    ensures |a| <= |b|
  {
    assert b == a + (b - a);
  }

  /** No masked field goes uncounted: the counts only grow, and by at least one for each of them. */
  lemma {:induction false} MaskedFieldsCounted(o: Options, v: Value, n: nat, depth: nat, s: State)
    requires v.Record? && n <= |v.fields|
    ensures |VisitFields(o, v, n, depth, s).1.counts| >= |s.counts| + MaskedFields(o, v.fields, n)
    decreases n
  {
    if n > 0 {
      MaskedFieldsCounted(o, v, n - 1, depth, s);
      var done := VisitFields(o, v, n - 1, depth, s);
      var f := v.fields[n - 1];
      if f.enumerable {
        var key := OutputKey(o, f.key, Used(done.0), done.1);
        LargerCounts(done.1.counts, key.1.counts);
        if Mask(o, f.key).None? {
          VisitCounts(o, f.value, depth + 1, TextAllowed(o, f.key), key.1);
          LargerCounts(key.1.counts, Visit(o, f.value, depth + 1, TextAllowed(o, f.key), key.1).1.counts);
        }
      }
    }
  }

  // Every marker is counted

  function Markers(j: Json): nat
  {
    match j
    case JText(text) => if text == REDACTED then 1 else 0
    case JList(items) => ListMarkers(items)
    case JRecord(members) => RecordMarkers(members)
    case _ => 0
  }

  function ListMarkers(items: seq<Json>): nat
  {
    if items == [] then 0 else ListMarkers(items[..|items| - 1]) + Markers(items[|items| - 1])
  }

  function RecordMarkers(members: seq<(string, Json)>): nat
  {
    if members == [] then 0
    else
      var last := members[|members| - 1];
      assert last in members && last.1 < last;
      RecordMarkers(members[..|members| - 1]) + Markers(last.1)
  }

  /** How many texts of the input read as the marker after a cleaning that found nothing. */
  function Echoes(o: Options, v: Value): nat
    decreases v, 1, 0
  {
    match v
    case Text(text) => if o.clean(text) == Cleaned(REDACTED, multiset{}) then 1 else 0
    case List(_, _, items) => ItemEchoes(o, v, |items|)
    case Record(_, _, fields, _) => FieldEchoes(o, v, |fields|)
    case _ => 0
  }

  function ItemEchoes(o: Options, v: Value, n: nat): nat
    requires v.List? && n <= |v.items|
    decreases v, 0, n
  {
    if n == 0 then 0
    else ItemEchoes(o, v, n - 1) + if v.items[n - 1].Some? then Echoes(o, v.items[n - 1].value) else 0
  }

  function FieldEchoes(o: Options, v: Value, n: nat): nat
    requires v.Record? && n <= |v.fields|
    decreases v, 0, n
  {
    if n == 0 then 0 else FieldEchoes(o, v, n - 1) + Echoes(o, v.fields[n - 1].value)
  }

  lemma OneMoreItem(items: seq<Json>, j: Json)
    ensures ListMarkers(items + [j]) == ListMarkers(items) + Markers(j)
  {
    assert (items + [j])[..|items|] == items;
  }

  lemma OneMoreMember(members: seq<(string, Json)>, m: (string, Json))
    ensures RecordMarkers(members + [m]) == RecordMarkers(members) + Markers(m.1)
  {
    assert (members + [m])[..|members|] == members;
  }

  lemma ErrorMarkers(name: Option<string>, code: Option<string>)
    ensures Markers(RedactedError(name, code)) <= 1
  {
    assert !ErrorName(REDACTED) && !ErrorCode(REDACTED);
    var n, m := ("name", JText(SafeName(name))), ("message", JText(REDACTED));
    var none: seq<(string, Json)> := [];
    OneMoreMember(none, n);
    OneMoreMember([n], m);
    assert none + [n] == [n] && [n] + [m] == [n, m];
    if SafeCode(code).Some? {
      OneMoreMember([n, m], ("code", JText(SafeCode(code).value)));
    } else {
      assert [n, m] + none == [n, m];
    }
  }

  /** The markers that a visit adds, against what it counts and what the input already reads as a marker. */
  predicate Accounted(added: nat, before: State, after: State, echoes: nat)
  {
    added + |before.counts| <= |after.counts| + echoes
  }

  lemma CleanedAccounted(o: Options, text: string, s: State)
    ensures var c := CleanText(o, text, s);
            Accounted(Markers(JText(c.0)), s, c.1, Echoes(o, Text(text))) && |s.counts| <= |c.1.counts|
  {
    var found := o.clean(text).found;
    assert |s.counts + found| == |s.counts| + |found|;
    assert |found| == 0 ==> found == multiset{};
  }

  lemma {:induction false} VisitAccounted(o: Options, v: Value, depth: nat, allowed: bool, s: State)
    ensures var r := Visit(o, v, depth, allowed, s); Accounted(Markers(r.0), s, r.1, Echoes(o, v))
    decreases v, 2, 0
  {
    var s' := s.(nodes := s.nodes + 1);
    if v.Text? {
      CleanedAccounted(o, v.text, s');
    }
    if IsObject(v) {
      ObjectAccounted(o, v, depth, allowed, s'.(seen := s'.seen + {v.id}));
    }
  }

  lemma {:induction false} ObjectAccounted(o: Options, v: Value, depth: nat, allowed: bool, s: State)
    requires IsObject(v)
    ensures var r := VisitObject(o, v, depth, allowed, s); Accounted(Markers(r.0), s, r.1, Echoes(o, v))
    decreases v, 1, 0
  {
    match v
    case Error(_, name, code) => ErrorMarkers(name, code);
    case List(_, _, items) => ItemsAccounted(o, v, |items|, depth, allowed, s);
    case Record(_, _, fields, _) => FieldsAccounted(o, v, |fields|, depth, s);
    case _ =>
  }

  lemma {:induction false} ItemsAccounted(o: Options, v: Value, n: nat, depth: nat, allowed: bool, s: State)
    requires v.List? && n <= |v.items|
    ensures var r := VisitItems(o, v, n, depth, allowed, s);
            Accounted(ListMarkers(r.0), s, r.1, ItemEchoes(o, v, n))
    decreases v, 0, n
  {
    if n > 0 {
      ItemsAccounted(o, v, n - 1, depth, allowed, s);
      var done := VisitItems(o, v, n - 1, depth, allowed, s);
      var item := v.items[n - 1];
      if item.Some? {
        VisitAccounted(o, item.value, depth + 1, allowed, done.1);
        OneMoreItem(done.0, Visit(o, item.value, depth + 1, allowed, done.1).0);
      } else {
        OneMoreItem(done.0, JText(REDACTED));
      }
    }
  }

  lemma KeyCounts(o: Options, key: string, used: set<string>, s: State)
    ensures |s.counts| <= |OutputKey(o, key, used, s).1.counts|
  {
    LargerCounts(s.counts, OutputKey(o, key, used, s).1.counts);
  }

  lemma {:induction false} FieldsAccounted(o: Options, v: Value, n: nat, depth: nat, s: State)
    requires v.Record? && n <= |v.fields|
    ensures var r := VisitFields(o, v, n, depth, s);
            Accounted(RecordMarkers(r.0), s, r.1, FieldEchoes(o, v, n))
    decreases v, 0, n
  {
    if n > 0 {
      FieldsAccounted(o, v, n - 1, depth, s);
      var done := VisitFields(o, v, n - 1, depth, s);
      var f := v.fields[n - 1];
      if f.enumerable {
        var key := OutputKey(o, f.key, Used(done.0), done.1);
        KeyCounts(o, f.key, Used(done.0), done.1);
        if Mask(o, f.key).Some? {
          OneMoreMember(done.0, (key.0, JText(REDACTED)));
        } else {
          VisitAccounted(o, f.value, depth + 1, TextAllowed(o, f.key), key.1);
          OneMoreMember(done.0, (key.0, Visit(o, f.value, depth + 1, TextAllowed(o, f.key), key.1).0));
        }
      }
    }
  }

  /** No marker of the output goes uncounted, but for texts that read as the marker in the input already. */
  lemma EveryMarkerCounted(o: Options, v: Value)
    ensures Markers(Redact(o, v).0) <= |Redact(o, v).1| + Echoes(o, v)
  {
    VisitAccounted(o, v, 0, false, Start());
  }
}
