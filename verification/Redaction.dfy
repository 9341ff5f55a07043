/**
 Redaction of one value before it crosses a boundary: logs, errors, telemetry, model context or
 exports. Cleaning of running text (known secrets and the patterns of inline credentials) is a
 parameter, a function of the text alone.
 */
module Redaction {
  import opened Wrappers

  const REDACTED := "[REDACTED]"
  const MAX_NODES := 10_000
  const MAX_DEPTH := 16
  const MAX_MEMBERS := 10_000
  const MAX_TEXT := 1_000_000
  const MAX_KEY := 1024

  datatype Boundary = Logs | ModelContext | Errors | Telemetry | Exports

  datatype Reason =
    | CredentialField
    | SecretReference
    | KnownSecret
    | InlineCredential
    | HiddenReasoning
    | BusinessContent
    | UnsafeValue

  datatype Cleaned = Cleaned(text: string, found: multiset<Reason>)

  /** `sensitive` holds normalized names, as the options parser leaves them. */
  datatype Options = Options(boundary: Boundary, sensitive: set<string>, clean: string -> Cleaned)

  /**
   A value of the host program. Objects carry their identity; an object met again, in a cycle or
   otherwise, is a value with an identity met before. `Foreign` stands for objects that are neither
   plain records, arrays nor errors or whose inspection throws, and `plain` is false for records and
   arrays that have accessor properties. `None` is a hole of an array.
   */
  datatype Value =
    | Null
    | Bool(flag: bool)
    | Number(token: string, finite: bool)
    | Text(text: string)
    | NotData
    | Foreign(id: nat)
    | Error(id: nat, name: Option<string>, code: Option<string>)
    | List(id: nat, plain: bool, items: seq<Option<Value>>)
    | Record(id: nat, plain: bool, fields: seq<Field>, symbols: bool)

  datatype Field = Field(key: string, value: Value, enumerable: bool)

  datatype Json =
    | JNull
    | JBool(flag: bool)
    | JNumber(token: string)
    | JText(text: string)
    | JList(items: seq<Json>)
    | JRecord(members: seq<(string, Json)>)

  /** `counts[reason]` is the multiplicity of the reason. */
  datatype State = State(counts: multiset<Reason>, nodes: nat, seen: set<nat>)

  function Start(): State
  {
    State(multiset{}, 0, {})
  }

  predicate Diagnostic(o: Options)
  {
    o.boundary.Logs? || o.boundary.Errors? || o.boundary.Telemetry?
  }

  predicate Letter(c: char)
  {
    'a' <= c <= 'z' || 'A' <= c <= 'Z'
  }

  predicate Digit(c: char)
  {
    '0' <= c <= '9'
  }

  function Lower(c: char): char
  {
    if 'A' <= c <= 'Z' then c - 'A' + 'a' else c
  }

  function NormalizeKey(key: string): string
  {
    if key == [] then []
    else (if Letter(key[0]) || Digit(key[0]) then [Lower(key[0])] else []) + NormalizeKey(key[1..])
  }

  predicate EndsWith(text: string, suffix: string)
  {
    |suffix| <= |text| && text[|text| - |suffix|..] == suffix
  }

  const CREDENTIAL_NAMES: set<string> :=
    {"authorization", "authorizationheader", "proxyauthorization", "proxyauthorizationheader", "auth", "authheader",
     "cookie", "setcookie", "env", "environment", "processenvironment", "environmentvariables",
     "processenvironmentvariables", "processenv", "oauth"}

  const CREDENTIAL_SUFFIXES: seq<string> :=
    ["password", "passphrase", "secret", "apikey", "privatekey", "credential", "credentials", "token",
     "secretref", "secretreference", "secretid", "secretsref", "secretsreference", "secretsid",
     "credentialref", "credentialreference", "credentialid", "credentialsref", "credentialsreference",
     "credentialsid", "keychainref", "keychainreference", "keychainid"]

  predicate CredentialKey(normalized: string)
  {
    normalized in CREDENTIAL_NAMES ||
    exists i :: 0 <= i < |CREDENTIAL_SUFFIXES| && EndsWith(normalized, CREDENTIAL_SUFFIXES[i])
  }

  const HIDDEN_REASONING_KEYS: set<string> :=
    {"chainofthought", "hiddenreasoning", "internalreasoning", "modelreasoning"}

  const BUSINESS_CONTENT_KEYS: set<string> :=
    {"attentionreason", "content", "contenttext", "details", "displayname", "externalid", "issuesummary", "messages",
     "normalized", "payload", "prompt", "rationale", "rawpayload", "subject", "summary", "text", "title",
     "toolarguments", "toolresult"}

  const SAFE_DIAGNOSTIC_TEXT_KEYS: set<string> :=
    {"actortype", "boundary", "category", "code", "component", "connectorid", "kind", "mediatype", "operation",
     "occurredat", "outcome", "reason", "referencekind", "referencekinds", "retrydisposition", "service",
     "attemptedat", "committedthrough", "createdat", "decidedat", "expiresat", "receivedat", "requestedat", "state",
     "status", "store", "timestamp", "toolname", "type", "updatedat"}

  /** Why a field is replaced whatever it holds. */
  function Mask(o: Options, key: string): Option<Reason>
  {
    var normalized := NormalizeKey(key);
    if normalized in o.sensitive || CredentialKey(normalized) then Some(CredentialField)
    else if normalized in HIDDEN_REASONING_KEYS then Some(HiddenReasoning)
    else if Diagnostic(o) && normalized in BUSINESS_CONTENT_KEYS then Some(BusinessContent)
    else None
  }

  predicate TextAllowed(o: Options, key: string)
  {
    Diagnostic(o) && NormalizeKey(key) in SAFE_DIAGNOSTIC_TEXT_KEYS
  }

  predicate ErrorName(name: string)
  {
    |name| > 5 && EndsWith(name, "Error") && Letter(name[0]) &&
    forall i :: 0 <= i < |name| ==> Letter(name[i]) || Digit(name[i])
  }

  predicate ErrorCode(code: string)
  {
    0 < |code| <= 64 && 'a' <= code[0] <= 'z' &&
    forall i :: 0 <= i < |code| ==> 'a' <= code[i] <= 'z' || Digit(code[i]) || code[i] == '_'
  }

  function Counted(s: State, reason: Reason): State
  {
    s.(counts := s.counts + multiset{reason})
  }

  function Replaced(s: State, reason: Reason): (Json, State)
  {
    (JText(REDACTED), Counted(s, reason))
  }

  function CleanText(o: Options, text: string, s: State): (string, State)
  {
    var cleaned := o.clean(text);
    (cleaned.text, s.(counts := s.counts + cleaned.found))
  }

  function SafeName(name: Option<string>): string
  {
    if name.Some? && ErrorName(name.value) then name.value else "Error"
  }

  function SafeCode(code: Option<string>): Option<string>
  {
    if code.Some? && ErrorCode(code.value) then code else None
  }

  function RedactedError(name: Option<string>, code: Option<string>): Json
  {
    var safeCode := SafeCode(code);
    JRecord([("name", JText(SafeName(name))), ("message", JText(REDACTED))] +
            if safeCode.None? then [] else [("code", JText(safeCode.value))])
  }

  /** The object whose own `kind` says that it locates a secret. */
  predicate IsSecretReference(fields: seq<Field>)
  {
    exists i :: 0 <= i < |fields| && fields[i].key == "kind" && fields[i].value == Text("secret_reference")
  }

  function AtLeast(used: set<string>, n: nat): set<string>
  {
    set k | k in used && |k| >= n
  }

  lemma SmallerSet<T>(a: set<T>, b: set<T>)
    requires a < b
    ensures |a| < |b|
  {
    var x :| x in b && x !in a;
    assert x in b - a;
    assert b == a + (b - a);
    assert |b| == |a| + |b - a|;
  }

  lemma FewerLeft(key: string, used: set<string>)
    requires key in used
    ensures |AtLeast(used, |key| + 1)| < |AtLeast(used, |key|)|
  {
    assert key in AtLeast(used, |key|) && key !in AtLeast(used, |key| + 1);
    SmallerSet(AtLeast(used, |key| + 1), AtLeast(used, |key|));
  }

  /** The first of key, key_, key__, … that is not in use. */
  function FreshKey(key: string, used: set<string>): (free: string)
    ensures free !in used && key <= free
    ensures forall i :: |key| <= i < |free| ==> free[i] == '_'
    ensures forall n :: |key| <= n < |free| ==> free[..n] in used
    decreases |AtLeast(used, |key|)|
  {
    if key in used then
      FewerLeft(key, used);
      var free := FreshKey(key + "_", used);
      assert free[..|key|] == key;
      free
    else key
  }

  /** The name under which a field appears. */
  function OutputKey(o: Options, key: string, used: set<string>, s: State): (string, State)
  {
    if |key| > MAX_KEY then (FreshKey(REDACTED, used), Counted(s, UnsafeValue))
    else
      var cleaned := CleanText(o, key, s);
      (FreshKey(cleaned.0, used), cleaned.1)
  }

  function Used(members: seq<(string, Json)>): set<string>
  {
    set i | 0 <= i < |members| :: members[i].0
  }

  function Visit(o: Options, v: Value, depth: nat, allowed: bool, before: State): (Json, State)
    decreases v, 2, 0
  {
    var s := before.(nodes := before.nodes + 1);
    if s.nodes > MAX_NODES || depth > MAX_DEPTH then Replaced(s, UnsafeValue)
    else
      match v
      case Null => (JNull, s)
      case Bool(flag) => (JBool(flag), s)
      case Number(token, finite) => if finite then (JNumber(token), s) else Replaced(s, UnsafeValue)
      case Text(text) =>
        if |text| > MAX_TEXT then Replaced(s, UnsafeValue)
        else if Diagnostic(o) && !allowed then Replaced(s, BusinessContent)
        else
          var cleaned := CleanText(o, text, s);
          (JText(cleaned.0), cleaned.1)
      case NotData => Replaced(s, UnsafeValue)
      case _ =>
        if v.id in s.seen then Replaced(s, UnsafeValue)
        else VisitObject(o, v, depth, allowed, s.(seen := s.seen + {v.id}))
  }

  function VisitObject(o: Options, v: Value, depth: nat, allowed: bool, s: State): (Json, State)
    requires v.Foreign? || v.Error? || v.List? || v.Record?
    decreases v, 1, 0
  {
    match v
    case Foreign(_) => Replaced(s, UnsafeValue)
    case Error(_, name, code) =>
      if o.boundary.Errors? then (RedactedError(name, code), Counted(s, BusinessContent)) else Replaced(s, UnsafeValue)
    case List(_, plain, items) =>
      if !plain || |items| > MAX_MEMBERS then Replaced(s, UnsafeValue)
      else
        var visited := VisitItems(o, v, |items|, depth, allowed, s);
        (JList(visited.0), visited.1)
    case Record(_, plain, fields, symbols) =>
      if !plain || |fields| > MAX_MEMBERS then Replaced(s, UnsafeValue)
      else if IsSecretReference(fields) then Replaced(s, SecretReference)
      else
        var visited := VisitFields(o, v, |fields|, depth, s);
        (JRecord(visited.0), if symbols then Counted(visited.1, UnsafeValue) else visited.1)
  }

  /** The first `n` items. */
  function VisitItems(o: Options, v: Value, n: nat, depth: nat, allowed: bool, s: State): (seq<Json>, State)
    requires v.List? && n <= |v.items|
    decreases v, 0, n
  {
    if n == 0 then ([], s)
    else
      var done := VisitItems(o, v, n - 1, depth, allowed, s);
      var item := v.items[n - 1];
      var next := if item.None? then Replaced(done.1, UnsafeValue) else Visit(o, item.value, depth + 1, allowed, done.1);
      (done.0 + [next.0], next.1)
  }

  /** The first `n` fields. */
  function VisitFields(o: Options, v: Value, n: nat, depth: nat, s: State): (seq<(string, Json)>, State)
    requires v.Record? && n <= |v.fields|
    decreases v, 0, n
  {
    if n == 0 then ([], s)
    else
      var done := VisitFields(o, v, n - 1, depth, s);
      var field := v.fields[n - 1];
      if !field.enumerable then done
      else
        var key := OutputKey(o, field.key, Used(done.0), done.1);
        var mask := Mask(o, field.key);
        var next :=
          if mask.Some? then Replaced(key.1, mask.value)
          else Visit(o, field.value, depth + 1, TextAllowed(o, field.key), key.1);
        (done.0 + [(key.0, next.0)], next.1)
  }

  /** The redacted value and the counts. */
  function Redact(o: Options, v: Value): (Json, multiset<Reason>)
  {
    var visited := Visit(o, v, 0, false, Start());
    (visited.0, visited.1.counts)
  }

  /** The closure of one redaction, with the variables it updates. */
  class Redactor {
    const options: Options
    var counts: multiset<Reason>
    var nodes: nat
    var seen: set<nat>

    constructor (options: Options)
      ensures this.options == options && View() == Start()
    {
      this.options := options;
      counts, nodes, seen := multiset{}, 0, {};
    }

    function View(): State
      reads this
    {
      State(counts, nodes, seen)
    }

    method Replace(reason: Reason) returns (r: Json)
      modifies this
      ensures (r, View()) == Replaced(old(View()), reason)
    {
      counts := counts + multiset{reason};
      r := JText(REDACTED);
    }

    method RedactText(text: string) returns (r: string)
      modifies this
      ensures (r, View()) == CleanText(options, text, old(View()))
    {
      var cleaned := options.clean(text);
      counts := counts + cleaned.found;
      r := cleaned.text;
    }

    method PickKey(rawKey: string, usedKeys: set<string>) returns (key: string)
      modifies this
      ensures (key, View()) == OutputKey(options, rawKey, usedKeys, old(View()))
    {
      if |rawKey| > MAX_KEY {
        var replaced := Replace(UnsafeValue);
        key := REDACTED;
      } else {
        key := RedactText(rawKey);
      }
      ghost var first, counted := key, View();
      while key in usedKeys
        invariant FreshKey(first, usedKeys) == FreshKey(key, usedKeys) && View() == counted
        decreases |AtLeast(usedKeys, |key|)|
      {
        FewerLeft(key, usedKeys);
        key := key + "_";
      }
      assert FreshKey(key, usedKeys) == key;
    }

    method VisitValue(v: Value, depth: nat, allowed: bool) returns (r: Json)
      modifies this
      ensures (r, View()) == Visit(options, v, depth, allowed, old(View()))
      decreases v, 2
    {
      nodes := nodes + 1;
      if nodes > MAX_NODES || depth > MAX_DEPTH {
        r := Replace(UnsafeValue);
        return;
      }
      match v {
        case Null => r := JNull;
        case Bool(flag) => r := JBool(flag);
        case Number(token, finite) =>
          if finite {
            r := JNumber(token);
          } else {
            r := Replace(UnsafeValue);
          }
        case Text(text) =>
          if |text| > MAX_TEXT {
            r := Replace(UnsafeValue);
          } else if Diagnostic(options) && !allowed {
            r := Replace(BusinessContent);
          } else {
            var cleaned := RedactText(text);
            r := JText(cleaned);
          }
        case NotData => r := Replace(UnsafeValue);
        case _ =>
          if v.id in seen {
            r := Replace(UnsafeValue);
          } else {
            seen := seen + {v.id};
            r := VisitReference(v, depth, allowed);
          }
      }
    }

    method VisitReference(v: Value, depth: nat, allowed: bool) returns (r: Json)
      requires v.Foreign? || v.Error? || v.List? || v.Record?
      modifies this
      ensures (r, View()) == VisitObject(options, v, depth, allowed, old(View()))
      decreases v, 1
    {
      match v {
        case Foreign(_) => r := Replace(UnsafeValue);
        case Error(_, name, code) =>
          if options.boundary.Errors? {
            counts := counts + multiset{BusinessContent};
            r := RedactedError(name, code);
          } else {
            r := Replace(UnsafeValue);
          }
        case List(_, plain, items) =>
          if !plain || |items| > MAX_MEMBERS {
            r := Replace(UnsafeValue);
          } else {
            r := VisitList(v, depth, allowed);
          }
        case Record(_, plain, fields, symbols) =>
          if !plain || |fields| > MAX_MEMBERS {
            r := Replace(UnsafeValue);
          } else if IsSecretReference(fields) {
            r := Replace(SecretReference);
          } else {
            r := VisitRecord(v, depth);
            if symbols {
              counts := counts + multiset{UnsafeValue};
            }
          }
      }
    }

    method VisitList(v: Value, depth: nat, allowed: bool) returns (r: Json)
      requires v.List?
      modifies this
      ensures r.JList?
      ensures (r.items, View()) == VisitItems(options, v, |v.items|, depth, allowed, old(View()))
      decreases v, 0
    {
      var result: seq<Json> := [];
      var index := 0;
      while index < |v.items|
        invariant index <= |v.items|
        invariant (result, View()) == VisitItems(options, v, index, depth, allowed, old(View()))
      {
        var next;
        if v.items[index].Some? {
          next := VisitValue(v.items[index].value, depth + 1, allowed);
        } else {
          next := Replace(UnsafeValue);
        }
        result := result + [next];
        index := index + 1;
      }
      r := JList(result);
    }

    method VisitRecord(v: Value, depth: nat) returns (r: Json)
      requires v.Record?
      modifies this
      ensures r.JRecord?
      ensures (r.members, View()) == VisitFields(options, v, |v.fields|, depth, old(View()))
      decreases v, 0
    {
      var result: seq<(string, Json)> := [];
      var usedKeys: set<string> := {};
      var index := 0;
      while index < |v.fields|
        invariant index <= |v.fields|
        invariant usedKeys == Used(result)
        invariant (result, View()) == VisitFields(options, v, index, depth, old(View()))
      {
        var field := v.fields[index];
        if field.enumerable {
          var key := PickKey(field.key, usedKeys);
          var mask := Mask(options, field.key);
          var next;
          if mask.Some? {
            next := Replace(mask.value);
          } else {
            next := VisitValue(field.value, depth + 1, TextAllowed(options, field.key));
          }
          UsedAfter(result, (key, next));
          usedKeys := usedKeys + {key};
          result := result + [(key, next)];
        }
        index := index + 1;
      }
      r := JRecord(result);
    }
  }

  lemma UsedAfter(members: seq<(string, Json)>, m: (string, Json))
    ensures Used(members + [m]) == Used(members) + {m.0}
  {
    var all := members + [m];
    assert forall i :: 0 <= i < |members| ==> all[i] == members[i];
    assert all[|members|] == m;
  }
}
