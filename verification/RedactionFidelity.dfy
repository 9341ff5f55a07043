/** The other side of redaction: a value with nothing to hide crosses every boundary unchanged. */
module RedactionFidelity {
  import opened Wrappers
  import opened Redaction

  /** The same value as JSON. */
  function ToJson(v: Value): Json
  {
    match v
    case Bool(flag) => JBool(flag)
    case Number(token, _) => JNumber(token)
    case Text(text) => JText(text)
    case List(_, _, items) => JList(seq(|items|, i requires 0 <= i < |items| => ItemToJson(items[i])))
    case Record(_, _, fields, _) =>
      JRecord(seq(|fields|, i requires 0 <= i < |fields| => (fields[i].key, ToJson(fields[i].value))))
    case _ => JNull
  }

  function ItemToJson(item: Option<Value>): Json
  {
    if item.Some? then ToJson(item.value) else JNull
  }

  predicate CleanAlready(o: Options, text: string)
  {
    o.clean(text) == Cleaned(text, multiset{})
  }

  /** Nothing in the value gives a reason to replace or change it. */
  predicate Harmless(o: Options, v: Value, allowed: bool)
  {
    match v
    case Null => true
    case Bool(_) => true
    case Number(_, finite) => finite
    case Text(text) => |text| <= MAX_TEXT && (!Diagnostic(o) || allowed) && CleanAlready(o, text)
    case List(_, plain, items) =>
      plain && |items| <= MAX_MEMBERS &&
      forall i :: 0 <= i < |items| ==> items[i].Some? && Harmless(o, items[i].value, allowed)
    case Record(_, plain, fields, symbols) =>
      plain && !symbols && |fields| <= MAX_MEMBERS && !IsSecretReference(fields) && DistinctKeys(fields) &&
      forall i :: 0 <= i < |fields| ==>
        fields[i].enumerable && |fields[i].key| <= MAX_KEY && CleanAlready(o, fields[i].key) &&
        Mask(o, fields[i].key).None? && Harmless(o, fields[i].value, TextAllowed(o, fields[i].key))
    case _ => false
  }

  predicate DistinctKeys(fields: seq<Field>)
  {
    forall i, j :: 0 <= i < j < |fields| ==> fields[i].key != fields[j].key
  }

  predicate Compound(v: Value)
  {
    v.List? || v.Record?
  }

  /** The n-th part of an array or record. */
  function Part(v: Value, n: nat): Value
    requires Compound(v) && n < Arity(v)
    requires v.List? ==> v.items[n].Some?
    ensures Part(v, n) < v
  {
    if v.List? then v.items[n].value else v.fields[n].value
  }

  function Arity(v: Value): nat
  {
    if v.List? then |v.items| else if v.Record? then |v.fields| else 0
  }

  predicate Full(v: Value)
  {
    v.List? ==> forall i :: 0 <= i < |v.items| ==> v.items[i].Some?
  }

  /** How many values there are to visit, in all and in the first `n` parts. */
  function Nodes(v: Value): nat
    decreases v, 1, 0
  {
    1 + if Compound(v) && Full(v) then NodesUpTo(v, Arity(v)) else 0
  }

  function NodesUpTo(v: Value, n: nat): nat
    requires Compound(v) && Full(v) && n <= Arity(v)
    decreases v, 0, n
  {
    if n == 0 then 0 else NodesUpTo(v, n - 1) + Nodes(Part(v, n - 1))
  }

  predicate WithinDepth(v: Value, depth: int)
    decreases v
  {
    depth <= MAX_DEPTH &&
    (Compound(v) && Full(v) ==> forall i :: 0 <= i < Arity(v) ==> WithinDepth(Part(v, i), depth + 1))
  }

  /** The identities of the objects in a value, in all and in the first `n` parts. */
  function Ids(v: Value): set<nat>
    decreases v, 1, 0
  {
    if Compound(v) then {v.id} + (if Full(v) then IdsUpTo(v, Arity(v)) else {}) else {}
  }

  function IdsUpTo(v: Value, n: nat): set<nat>
    requires Compound(v) && Full(v) && n <= Arity(v)
    decreases v, 0, n
  {
    if n == 0 then {} else IdsUpTo(v, n - 1) + Ids(Part(v, n - 1))
  }

  /** No object occurs twice. */
  predicate Unshared(v: Value)
    decreases v
  {
    Compound(v) && Full(v) ==>
      v.id !in IdsUpTo(v, Arity(v)) &&
      forall i :: 0 <= i < Arity(v) ==> Unshared(Part(v, i)) && IdsUpTo(v, i) !! Ids(Part(v, i))
  }

  function Visited(v: Value, s: State): State
  {
    State(s.counts, s.nodes + Nodes(v), s.seen + Ids(v))
  }

  lemma {:induction false} NodesGrow(v: Value, m: nat, n: nat)
    requires Compound(v) && Full(v) && m <= n <= Arity(v)
    ensures NodesUpTo(v, m) <= NodesUpTo(v, n)
    decreases n
  {
    if m < n {
      NodesGrow(v, m, n - 1);
    }
  }

  lemma {:induction false} IdsGrow(v: Value, m: nat, n: nat)
    requires Compound(v) && Full(v) && m <= n <= Arity(v)
    ensures IdsUpTo(v, m) <= IdsUpTo(v, n)
    decreases n
  {
    if m < n {
      IdsGrow(v, m, n - 1);
    }
  }

  /** What the traversal asks of a part that is visited after those before it. */
  lemma PartFits(v: Value, n: nat, depth: nat, s: State)
    requires Compound(v) && Full(v) && n < Arity(v) && Unshared(v) && WithinDepth(v, depth)
    requires s.nodes + NodesUpTo(v, Arity(v)) <= MAX_NODES && s.seen !! IdsUpTo(v, Arity(v))
    ensures var part := Part(v, n);
            && Unshared(part) && WithinDepth(part, depth + 1)
            && s.nodes + NodesUpTo(v, n) + Nodes(part) <= MAX_NODES
            && (s.seen + IdsUpTo(v, n)) !! Ids(part)
  {
    NodesGrow(v, n + 1, Arity(v));
    IdsGrow(v, n + 1, Arity(v));
  }

  predicate Fits(v: Value, depth: nat, s: State)
  {
    Unshared(v) && WithinDepth(v, depth) && s.nodes + Nodes(v) <= MAX_NODES && s.seen !! Ids(v)
  }

  lemma LeafPasses(o: Options, v: Value, depth: nat, allowed: bool, s: State)
    requires Harmless(o, v, allowed) && Fits(v, depth, s) && !Compound(v)
    ensures Visit(o, v, depth, allowed, s) == (ToJson(v), Visited(v, s))
  {
    assert s.seen + {} == s.seen;
    assert s.counts + multiset{} == s.counts;
  }

  function Entered(v: Value, s: State): State
    requires Compound(v)
  {
    State(s.counts, s.nodes + 1, s.seen + {v.id})
  }

  lemma CompoundVisit(o: Options, v: Value, depth: nat, allowed: bool, s: State)
    requires Compound(v) && Full(v) && Fits(v, depth, s)
    ensures Visit(o, v, depth, allowed, s) == VisitObject(o, v, depth, allowed, Entered(v, s))
    ensures VisitedUpTo(v, Arity(v), Entered(v, s)) == Visited(v, s)
    ensures Entered(v, s).nodes + NodesUpTo(v, Arity(v)) <= MAX_NODES && Entered(v, s).seen !! IdsUpTo(v, Arity(v))
  {
    assert s.seen + {v.id} + IdsUpTo(v, Arity(v)) == s.seen + Ids(v);
  }

  lemma {:induction false} VisitPasses(o: Options, v: Value, depth: nat, allowed: bool, s: State)
    requires Harmless(o, v, allowed) && Fits(v, depth, s)
    ensures Visit(o, v, depth, allowed, s) == (ToJson(v), Visited(v, s))
    decreases v, 2, 0
  {
    if Compound(v) {
      CompoundVisit(o, v, depth, allowed, s);
      if v.List? {
        ListPasses(o, v, depth, allowed, Entered(v, s));
      } else {
        RecordPasses(o, v, depth, allowed, Entered(v, s));
      }
    } else {
      LeafPasses(o, v, depth, allowed, s);
    }
  }

  lemma {:induction false} ListPasses(o: Options, v: Value, depth: nat, allowed: bool, t: State)
    requires v.List? && Harmless(o, v, allowed) && Unshared(v) && WithinDepth(v, depth)
    requires t.nodes + NodesUpTo(v, Arity(v)) <= MAX_NODES && t.seen !! IdsUpTo(v, Arity(v))
    ensures VisitObject(o, v, depth, allowed, t) == (ToJson(v), VisitedUpTo(v, Arity(v), t))
    decreases v, 1, 0
  {
    PartsPass(o, v, depth, allowed, t);
    ItemsPass(o, v, |v.items|, depth, allowed, t);
    var visited := VisitItems(o, v, |v.items|, depth, allowed, t).0;
    assert ToJson(v).items == visited;
  }

  function VisitedUpTo(v: Value, n: nat, t: State): State
    requires Compound(v) && Full(v) && n <= Arity(v)
  {
    State(t.counts, t.nodes + NodesUpTo(v, n), t.seen + IdsUpTo(v, n))
  }

  lemma NothingVisited(v: Value, t: State)
    requires Compound(v) && Full(v)
    ensures VisitedUpTo(v, 0, t) == t
  {
    assert t.seen + {} == t.seen;
  }

  lemma VisitedNext(v: Value, n: nat, t: State)
    requires Compound(v) && Full(v) && n < Arity(v)
    ensures Visited(Part(v, n), VisitedUpTo(v, n, t)) == VisitedUpTo(v, n + 1, t)
  {
    assert t.seen + IdsUpTo(v, n) + Ids(Part(v, n)) == t.seen + IdsUpTo(v, n + 1);
  }

  lemma PartHarmless(o: Options, v: Value, n: nat, depth: nat, allowed: bool, t: State)
    requires Compound(v) && n < Arity(v) && Harmless(o, v, allowed) && Unshared(v) && WithinDepth(v, depth)
    requires t.nodes + NodesUpTo(v, Arity(v)) <= MAX_NODES && t.seen !! IdsUpTo(v, Arity(v))
    ensures Full(v) && Fits(Part(v, n), depth + 1, VisitedUpTo(v, n, t))
    ensures Harmless(o, Part(v, n), if v.List? then allowed else TextAllowed(o, v.fields[n].key))
  {
    PartFits(v, n, depth, t);
  }

  /** The n-th part passes when it is reached. */
  ghost predicate PartDone(o: Options, v: Value, n: nat, depth: nat, allowed: bool, t: State)
    requires Compound(v) && Full(v) && n < Arity(v)
  {
    var part, before := Part(v, n), VisitedUpTo(v, n, t);
    Visit(o, part, depth + 1, if v.List? then allowed else TextAllowed(o, v.fields[n].key), before)
    == (ToJson(part), Visited(part, before))
  }

  ghost predicate AllDone(o: Options, v: Value, depth: nat, allowed: bool, t: State)
    requires Compound(v) && Full(v)
  {
    forall i :: 0 <= i < Arity(v) ==> PartDone(o, v, i, depth, allowed, t)
  }

  lemma {:induction false} PartsPass(o: Options, v: Value, depth: nat, allowed: bool, t: State)
    requires Compound(v) && Harmless(o, v, allowed) && Unshared(v) && WithinDepth(v, depth)
    requires t.nodes + NodesUpTo(v, Arity(v)) <= MAX_NODES && t.seen !! IdsUpTo(v, Arity(v))
    ensures Full(v) && AllDone(o, v, depth, allowed, t)
    decreases v, 0
  {
    forall n | 0 <= n < Arity(v)
      ensures PartDone(o, v, n, depth, allowed, t)
    {
      PartHarmless(o, v, n, depth, allowed, t);
      VisitPasses(o, Part(v, n), depth + 1, if v.List? then allowed else TextAllowed(o, v.fields[n].key),
                  VisitedUpTo(v, n, t));
    }
  }

  predicate AllPlain(o: Options, fields: seq<Field>)
  {
    DistinctKeys(fields) &&
    forall i :: 0 <= i < |fields| ==>
      fields[i].enumerable && |fields[i].key| <= MAX_KEY && CleanAlready(o, fields[i].key) && Mask(o, fields[i].key).None?
  }

  ghost predicate ItemsVisited(o: Options, v: Value, n: nat, depth: nat, allowed: bool, t: State)
    requires v.List? && Full(v) && n <= |v.items|
  {
    var (items, after) := VisitItems(o, v, n, depth, allowed, t);
    && |items| == n && (forall i :: 0 <= i < n ==> items[i] == ItemToJson(v.items[i]))
    && after == VisitedUpTo(v, n, t)
  }

  lemma {:induction false} ItemsPass(o: Options, v: Value, n: nat, depth: nat, allowed: bool, t: State)
    requires v.List? && Full(v) && n <= |v.items| && AllDone(o, v, depth, allowed, t)
    ensures ItemsVisited(o, v, n, depth, allowed, t)
    decreases n
  {
    if n == 0 {
      NothingVisited(v, t);
    } else {
      ItemsPass(o, v, n - 1, depth, allowed, t);
      assert PartDone(o, v, n - 1, depth, allowed, t);
      VisitedNext(v, n - 1, t);
    }
  }

  lemma {:induction false} RecordPasses(o: Options, v: Value, depth: nat, allowed: bool, t: State)
    requires v.Record? && Harmless(o, v, allowed) && Unshared(v) && WithinDepth(v, depth)
    requires t.nodes + NodesUpTo(v, Arity(v)) <= MAX_NODES && t.seen !! IdsUpTo(v, Arity(v))
    ensures VisitObject(o, v, depth, allowed, t) == (ToJson(v), VisitedUpTo(v, Arity(v), t))
    decreases v, 1, 0
  {
    PartsPass(o, v, depth, allowed, t);
    FieldsPass(o, v, |v.fields|, depth, allowed, t);
    var visited := VisitFields(o, v, |v.fields|, depth, t).0;
    assert ToJson(v).members == visited;
  }

  lemma FreshAlready(o: Options, v: Value, n: nat, members: seq<(string, Json)>, s: State)
    requires v.Record? && n < |v.fields| && DistinctKeys(v.fields)
    requires |v.fields[n].key| <= MAX_KEY && CleanAlready(o, v.fields[n].key)
    requires |members| == n && forall i :: 0 <= i < n ==> members[i].0 == v.fields[i].key
    ensures OutputKey(o, v.fields[n].key, Used(members), s) == (v.fields[n].key, s)
  {
    assert v.fields[n].key !in Used(members);
    assert s.counts + multiset{} == s.counts;
  }

  ghost predicate FieldsVisited(o: Options, v: Value, n: nat, depth: nat, t: State)
    requires v.Record? && n <= |v.fields|
  {
    var (members, after) := VisitFields(o, v, n, depth, t);
    && |members| == n && (forall i :: 0 <= i < n ==> members[i] == (v.fields[i].key, ToJson(v.fields[i].value)))
    && after == VisitedUpTo(v, n, t)
  }

  lemma FieldsNext(o: Options, v: Value, n: nat, depth: nat, t: State)
    requires v.Record? && n < |v.fields| && FieldsVisited(o, v, n, depth, t) && AllPlain(o, v.fields)
    requires var f, before := v.fields[n], VisitedUpTo(v, n, t);
             Visit(o, f.value, depth + 1, TextAllowed(o, f.key), before) == (ToJson(f.value), Visited(f.value, before))
    ensures FieldsVisited(o, v, n + 1, depth, t)
  {
    VisitedNext(v, n, t);
    var (members, before) := VisitFields(o, v, n, depth, t);
    FreshAlready(o, v, n, members, before);
    var f := v.fields[n];
    assert VisitFields(o, v, n + 1, depth, t) ==
           (members + [(f.key, ToJson(f.value))], VisitedUpTo(v, n + 1, t));
  }

  lemma {:induction false} FieldsPass(o: Options, v: Value, n: nat, depth: nat, allowed: bool, t: State)
    requires v.Record? && n <= |v.fields| && AllDone(o, v, depth, allowed, t) && AllPlain(o, v.fields)
    ensures FieldsVisited(o, v, n, depth, t)
    decreases n
  {
    if n == 0 {
      NothingVisited(v, t);
    } else {
      FieldsPass(o, v, n - 1, depth, allowed, t);
      assert PartDone(o, v, n - 1, depth, allowed, t);
      FieldsNext(o, v, n - 1, depth, t);
    }
  }

  /**
   A value with nothing to hide, within the limits and without repeated objects, is returned as it is,
   and nothing is counted.
   */
  lemma HarmlessPasses(o: Options, v: Value)
    requires Harmless(o, v, false) && Unshared(v) && WithinDepth(v, 0) && Nodes(v) <= MAX_NODES
    ensures Redact(o, v) == (ToJson(v), multiset{})
  {
    VisitPasses(o, v, 0, false, Start());
  }
}
