/**
 The two scanners that look for repeated member names in raw JSON text before JSON.parse, which
 would silently keep the last of them. One looks into every object, the other only at the top level.
 */
module JsonScanners {
  import opened Wrappers
  import opened JsonStrings

  const OPEN: Unit := 0x7b
  const CLOSE: Unit := 0x7d
  const OPEN_ARRAY: Unit := 0x5b
  const CLOSE_ARRAY: Unit := 0x5d

  /** `\s` of a Unicode regular expression. */
  predicate Blank(u: Unit)
  {
    || 9 <= u <= 13 || u == 0x20 || u == 0xa0 || u == 0x1680 || 0x2000 <= u <= 0x200a
    || u == 0x2028 || u == 0x2029 || u == 0x202f || u == 0x205f || u == 0x3000 || u == 0xfeff
  }

  /** The first unit that is not blank. */
  function Next(text: Text): Option<Unit>
  {
    if text == [] then None else if Blank(text[0]) then Next(text[1..]) else Some(text[0])
  }

  function Pop<T>(stack: seq<T>): seq<T>
  {
    if stack == [] then [] else stack[..|stack| - 1]
  }

  /** What the scan of `text` answers when the open objects have had the names on `stack`. */
  function Scan(text: Text, stack: seq<set<Text>>): bool
    decreases |text|
  {
    if text == [] then false
    else if text[0] == QUOTE then
      var end := Closing(text[1..], false);
      if end.None? then false
      else
        var body, rest := text[1..end.value + 1], text[end.value + 2..];
        if stack != [] && Next(rest) == Some(COLON) then
          var name := Decode(body);
          var keys := stack[|stack| - 1];
          if name.None? then false
          else if name.value in keys then true
          else Scan(rest, Pop(stack) + [keys + {name.value}])
        else Scan(rest, stack)
    else if text[0] == OPEN then Scan(text[1..], stack + [{}])
    else if text[0] == CLOSE then Scan(text[1..], Pop(stack))
    else Scan(text[1..], stack)
  }

  /** The same for the scanner that only counts braces. */
  function ScanTop(text: Text, depth: int, keys: set<Text>): bool
    decreases |text|
  {
    if text == [] then false
    else if text[0] == QUOTE then
      var end := Closing(text[1..], false);
      if end.None? then false
      else
        var body, rest := text[1..end.value + 1], text[end.value + 2..];
        if depth == 1 && Next(rest) == Some(COLON) then
          var name := Decode(body);
          if name.None? then false
          else if name.value in keys then true
          else ScanTop(rest, depth, keys + {name.value})
        else ScanTop(rest, depth, keys)
    else if text[0] == OPEN then ScanTop(text[1..], depth + 1, keys)
    else if text[0] == CLOSE then ScanTop(text[1..], depth - 1, keys)
    else ScanTop(text[1..], depth, keys)
  }

  lemma ClosingAt(text: Text, i: nat, escaped: bool)
    requires i < |text|
    ensures Closing(text[i..], escaped) ==
            if !escaped && text[i] == QUOTE then Some(0)
            else Shifted(Closing(text[i + 1..], !escaped && text[i] == BACKSLASH), 1)
  {
    assert text[i..][1..] == text[i + 1..];
  }

  method FindClosing(text: Text, start: nat) returns (index: nat)
    requires start < |text|
    ensures start < index <= |text|
    ensures Closing(text[start + 1..], false) == if index < |text| then Some(index - start - 1) else None
  {
    index := start + 1;
    var escaped := false;
    ghost var closing := Closing(text[start + 1..], false);
    while index < |text|
      invariant start < index <= |text|
      invariant closing == Shifted(Closing(text[index..], escaped), index - start - 1)
    {
      var current := text[index];
      ClosingAt(text, index, escaped);
      if !escaped && current == QUOTE {
        break;
      }
      escaped := !escaped && current == BACKSLASH;
      index := index + 1;
    }
  }

  method ColonFollows(text: Text, start: nat) returns (colon: bool)
    requires start <= |text|
    ensures colon == (Next(text[start..]) == Some(COLON))
  {
    var next := start;
    while next < |text| && Blank(text[next])
      invariant start <= next <= |text|
      invariant Next(text[start..]) == Next(text[next..])
    {
      assert text[next..][1..] == text[next + 1..];
      next := next + 1;
    }
    colon := next < |text| && text[next] == COLON;
  }

  lemma ScanAt(text: Text, i: nat, stack: seq<set<Text>>)
    requires i < |text| && text[i] != QUOTE
    ensures Scan(text[i..], stack) ==
            Scan(text[i + 1..], if text[i] == OPEN then stack + [{}] else if text[i] == CLOSE then Pop(stack) else stack)
  {
    assert text[i..][1..] == text[i + 1..];
  }

  lemma ScanStringAt(text: Text, start: nat, end: nat, stack: seq<set<Text>>)
    requires start < end <= |text| && text[start] == QUOTE
    requires Closing(text[start + 1..], false) == if end < |text| then Some(end - start - 1) else None
    ensures end == |text| ==> !Scan(text[start..], stack)
    ensures end < |text| ==>
              var rest, name := text[end + 1..], Decode(text[start + 1..end]);
              Scan(text[start..], stack) ==
              if stack == [] || Next(rest) != Some(COLON) then Scan(rest, stack)
              else if name.None? then false
              else if name.value in stack[|stack| - 1] then true
              else Scan(rest, Pop(stack) + [stack[|stack| - 1] + {name.value}])
  {
    assert text[start..][1..] == text[start + 1..];
    if end < |text| {
      assert text[start..][1..end - start] == text[start + 1..end];
      assert text[start..][end - start + 1..] == text[end + 1..];
    }
  }

  method HasDuplicateObjectKey(text: Text) returns (r: bool)
    ensures r == Scan(text, [])
  {
    var objectKeys: seq<set<Text>> := [];
    var index := 0;
    ghost var answer := Scan(text, []);
    assert text[0..] == text;
    while index < |text|
      invariant index <= |text|
      invariant answer == Scan(text[index..], objectKeys)
    {
      var character := text[index];
      if character == QUOTE {
        var start := index;
        index := FindClosing(text, start);
        ScanStringAt(text, start, index, objectKeys);
        if index >= |text| {
          return false;
        }
        var colon := ColonFollows(text, index + 1);
        if objectKeys != [] && colon {
          var name := Decode(text[start + 1..index]);
          if name.None? {
            return false;
          }
          var keys := objectKeys[|objectKeys| - 1];
          if name.value in keys {
            return true;
          }
          objectKeys := Pop(objectKeys) + [keys + {name.value}];
        }
      } else {
        ScanAt(text, index, objectKeys);
        if character == OPEN {
          objectKeys := objectKeys + [{}];
        } else if character == CLOSE {
          objectKeys := Pop(objectKeys);
        }
      }
      index := index + 1;
    }
    return false;
  }

  lemma TopAt(text: Text, i: nat, depth: int, keys: set<Text>)
    requires i < |text| && text[i] != QUOTE
    ensures ScanTop(text[i..], depth, keys) ==
            ScanTop(text[i + 1..], if text[i] == OPEN then depth + 1 else if text[i] == CLOSE then depth - 1 else depth, keys)
  {
    assert text[i..][1..] == text[i + 1..];
  }

  lemma TopStringAt(text: Text, start: nat, end: nat, depth: int, keys: set<Text>)
    requires start < end <= |text| && text[start] == QUOTE
    requires Closing(text[start + 1..], false) == if end < |text| then Some(end - start - 1) else None
    ensures end == |text| ==> !ScanTop(text[start..], depth, keys)
    ensures end < |text| ==>
              var rest, name := text[end + 1..], Decode(text[start + 1..end]);
              ScanTop(text[start..], depth, keys) ==
              if depth != 1 || Next(rest) != Some(COLON) then ScanTop(rest, depth, keys)
              else if name.None? then false
              else if name.value in keys then true
              else ScanTop(rest, depth, keys + {name.value})
  {
    assert text[start..][1..] == text[start + 1..];
    if end < |text| {
      assert text[start..][1..end - start] == text[start + 1..end];
      assert text[start..][end - start + 1..] == text[end + 1..];
    }
  }

  method DuplicateTopLevelKey(text: Text) returns (r: bool)
    ensures r == ScanTop(text, 0, {})
  {
    var keys: set<Text> := {};
    var depth := 0;
    var index := 0;
    ghost var answer := ScanTop(text, 0, {});
    assert text[0..] == text;
    while index < |text|
      invariant index <= |text|
      invariant answer == ScanTop(text[index..], depth, keys)
    {
      var character := text[index];
      if character == QUOTE {
        var start := index;
        index := FindClosing(text, start);
        TopStringAt(text, start, index, depth, keys);
        if index >= |text| {
          return false;
        }
        var colon := ColonFollows(text, index + 1);
        if depth == 1 && colon {
          var name := Decode(text[start + 1..index]);
          if name.None? {
            return false;
          }
          if name.value in keys {
            return true;
          }
          keys := keys + {name.value};
        }
      } else {
        TopAt(text, index, depth, keys);
        if character == OPEN {
          depth := depth + 1;
        } else if character == CLOSE {
          depth := depth - 1;
        }
      }
      index := index + 1;
    }
    return false;
  }

  /**
   JSON text as written (section 2 of RFC 8259): every value between two stretches of white space.
   `token` is a number or a literal name, `body` what stands between the quotes of a string.
   */
  datatype Value =
    | Literal(token: Text)
    | Quotation(body: Text)
    | EmptyArray(space: Text)
    | Array(items: Items)
    | EmptyObject(space: Text)
    | Object(members: Members)

  datatype Element = Element(before: Text, value: Value, after: Text)

  datatype Items = LastItem(item: Element) | Item(item: Element, others: Items)

  datatype Member = Member(before: Text, name: Text, after: Text, element: Element)

  datatype Members = LastMember(member: Member) | FirstMember(member: Member, others: Members)

  predicate Spaces(text: Text)
  {
    forall i :: 0 <= i < |text| ==> text[i] == 0x20 || text[i] == 9 || text[i] == 10 || text[i] == 13
  }

  predicate Spaced(e: Element)
  {
    Spaces(e.before) && Spaces(e.after)
  }

  predicate Structural(u: Unit)
  {
    u == OPEN || u == CLOSE || u == OPEN_ARRAY || u == CLOSE_ARRAY || u == COLON || u == COMMA || u == QUOTE
  }

  predicate Well(v: Value)
  {
    match v
    case Literal(token) => forall i :: 0 <= i < |token| ==> !Structural(token[i]) && !Blank(token[i])
    case Quotation(body) => Decode(body).Some?
    case EmptyArray(space) => Spaces(space)
    case Array(items) => WellItems(items)
    case EmptyObject(space) => Spaces(space)
    case Object(members) => WellMembers(members)
  }

  predicate WellItems(items: Items)
  {
    Spaced(items.item) && Well(items.item.value) && (items.Item? ==> WellItems(items.others))
  }

  predicate WellMembers(members: Members)
  {
    && Spaces(members.member.before) && Decode(members.member.name).Some? && Spaces(members.member.after)
    && Spaced(members.member.element) && Well(members.member.element.value)
    && (members.FirstMember? ==> WellMembers(members.others))
  }

  predicate WellElement(e: Element)
  {
    Spaced(e) && Well(e.value)
  }

  /** The text of a value followed by `k`. */
  function Print(v: Value, k: Text): Text
  {
    match v
    case Literal(token) => token + k
    case Quotation(body) => PrintQuotation(body, k)
    case EmptyArray(space) => [OPEN_ARRAY] + (space + ([CLOSE_ARRAY] + k))
    case Array(items) => [OPEN_ARRAY] + PrintItems(items, [CLOSE_ARRAY] + k)
    case EmptyObject(space) => [OPEN] + (space + ([CLOSE] + k))
    case Object(members) => [OPEN] + PrintMembers(members, [CLOSE] + k)
  }

  function PrintQuotation(body: Text, k: Text): Text
  {
    [QUOTE] + (body + [QUOTE] + k)
  }

  function PrintElement(e: Element, k: Text): Text
  {
    e.before + Print(e.value, e.after + k)
  }

  function PrintItems(items: Items, k: Text): Text
  {
    match items
    case LastItem(item) => PrintElement(item, k)
    case Item(item, others) => PrintElement(item, [COMMA] + PrintItems(others, k))
  }

  function PrintMember(m: Member, k: Text): Text
  {
    m.before + PrintQuotation(m.name, m.after + ([COLON] + PrintElement(m.element, k)))
  }

  function PrintMembers(members: Members, k: Text): Text
  {
    match members
    case LastMember(m) => PrintMember(m, k)
    case FirstMember(m, others) => PrintMember(m, [COMMA] + PrintMembers(others, k))
  }

  /** A whole JSON text. */
  function Document(e: Element): Text
  {
    PrintElement(e, [])
  }

  function Name(m: Member): Text
    requires Decode(m.name).Some?
  {
    Decode(m.name).value
  }

  /** The member names of one object, as they read. */
  function Names(members: Members): seq<Text>
    requires WellMembers(members)
  {
    match members
    case LastMember(m) => [Name(m)]
    case FirstMember(m, others) => [Name(m)] + Names(others)
  }

  predicate Repeating(names: seq<Text>)
  {
    exists i, j :: 0 <= i < j < |names| && names[i] == names[j]
  }

  /** Some object at any depth has two members of the same name. */
  predicate Repeats(v: Value)
    requires Well(v)
  {
    match v
    case Array(items) => RepeatsInItems(items)
    case Object(members) => Repeating(Names(members)) || RepeatsInMembers(members)
    case _ => false
  }

  predicate RepeatsInItems(items: Items)
    requires WellItems(items)
  {
    Repeats(items.item.value) || (items.Item? && RepeatsInItems(items.others))
  }

  predicate RepeatsInMembers(members: Members)
    requires WellMembers(members)
  {
    Repeats(members.member.element.value) || (members.FirstMember? && RepeatsInMembers(members.others))
  }

  /** The names of all objects that are not inside another object. */
  function OuterNames(v: Value): seq<Text>
    requires Well(v)
  {
    match v
    case Array(items) => OuterNamesOfItems(items)
    case Object(members) => Names(members)
    case _ => []
  }

  function OuterNamesOfItems(items: Items): seq<Text>
    requires WellItems(items)
  {
    OuterNames(items.item.value) + if items.Item? then OuterNamesOfItems(items.others) else []
  }

  /** A name that was seen before comes up. */
  predicate Collides(names: seq<Text>, seen: set<Text>)
  {
    names != [] && (names[0] in seen || Collides(names[1..], seen + {names[0]}))
  }

  lemma {:induction false} CollidesIff(names: seq<Text>, seen: set<Text>)
    ensures Collides(names, seen) <==> Repeating(names) || exists i :: 0 <= i < |names| && names[i] in seen
  {
    if names != [] {
      var rest := names[1..];
      CollidesIff(rest, seen + {names[0]});
      assert forall i :: 0 <= i < |rest| ==> rest[i] == names[i + 1];
      if Repeating(rest) {
        var i, j :| 0 <= i < j < |rest| && rest[i] == rest[j];
        assert names[i + 1] == names[j + 1];
      }
      if i :| 0 <= i < |rest| && rest[i] in seen + {names[0]} {
        assert names[i + 1] in seen || names[0] == names[i + 1];
      }
      if i, j :| 0 <= i < j < |names| && names[i] == names[j] {
        assert rest[j - 1] == names[j];
        if i > 0 {
          assert rest[i - 1] == rest[j - 1];
        }
      }
      if i :| 0 <= i < |names| && names[i] in seen && i > 0 {
        assert rest[i - 1] in seen;
      }
    }
  }

  lemma CollidesFresh(names: seq<Text>)
    ensures Collides(names, {}) <==> Repeating(names)
  {
    CollidesIff(names, {});
  }

  lemma {:induction false} CollidesAppend(a: seq<Text>, b: seq<Text>, seen: set<Text>)
    ensures Collides(a + b, seen) <==> Collides(a, seen) || Collides(b, seen + Elements(a))
  {
    if a == [] {
      assert a + b == b && seen + Elements(a) == seen;
    } else {
      CollidesAppend(a[1..], b, seen + {a[0]});
      assert (a + b)[1..] == a[1..] + b;
      assert seen + {a[0]} + Elements(a[1..]) == seen + Elements(a) by {
        assert a == [a[0]] + a[1..];
      }
    }
  }

  function Elements(names: seq<Text>): set<Text>
  {
    set n | n in names
  }

  lemma {:induction false} ScanPlain(plain: Text, k: Text, stack: seq<set<Text>>)
    requires forall i :: 0 <= i < |plain| ==> plain[i] != QUOTE && plain[i] != OPEN && plain[i] != CLOSE
    ensures Scan(plain + k, stack) == Scan(k, stack)
  {
    if plain == [] {
      assert plain + k == k;
    } else {
      ScanPlain(plain[1..], k, stack);
      assert (plain + k)[1..] == plain[1..] + k;
    }
  }

  lemma {:induction false} NextAfterSpaces(space: Text, k: Text)
    requires Spaces(space)
    ensures Next(space + k) == Next(k)
  {
    if space == [] {
      assert space + k == k;
    } else {
      NextAfterSpaces(space[1..], k);
      assert (space + k)[1..] == space[1..] + k;
    }
  }

  lemma ScanQuotation(body: Text, k: Text, stack: seq<set<Text>>)
    requires Decode(body).Some?
    ensures Scan(PrintQuotation(body, k), stack) ==
            if stack == [] || Next(k) != Some(COLON) then Scan(k, stack)
            else if Decode(body).value in stack[|stack| - 1] then true
            else Scan(k, Pop(stack) + [stack[|stack| - 1] + {Decode(body).value}])
  {
    ClosingOfBody(body, k);
    var text := PrintQuotation(body, k);
    assert text[1..] == body + [QUOTE] + k;
    assert text[1..|body| + 1] == body;
    assert text[|body| + 2..] == k;
  }

  lemma ScanOne(u: Unit, k: Text, stack: seq<set<Text>>)
    requires u != QUOTE
    ensures Scan([u] + k, stack) ==
            Scan(k, if u == OPEN then stack + [{}] else if u == CLOSE then Pop(stack) else stack)
  {
    assert ([u] + k)[1..] == k;
  }

  lemma {:induction false} ScanValue(v: Value, k: Text, stack: seq<set<Text>>)
    requires Well(v) && Next(k) != Some(COLON)
    ensures Scan(Print(v, k), stack) == (Repeats(v) || Scan(k, stack))
    decreases v
  {
    match v
    case Literal(token) => ScanPlain(token, k, stack);
    case Quotation(body) => ScanQuotation(body, k, stack);
    case EmptyArray(space) =>
      ScanOne(OPEN_ARRAY, space + ([CLOSE_ARRAY] + k), stack);
      ScanPlain(space, [CLOSE_ARRAY] + k, stack);
      ScanOne(CLOSE_ARRAY, k, stack);
    case Array(items) =>
      ScanOne(OPEN_ARRAY, PrintItems(items, [CLOSE_ARRAY] + k), stack);
      ScanItems(items, [CLOSE_ARRAY] + k, stack);
      ScanOne(CLOSE_ARRAY, k, stack);
    case EmptyObject(space) =>
      ScanOne(OPEN, space + ([CLOSE] + k), stack);
      ScanPlain(space, [CLOSE] + k, stack + [{}]);
      ScanOne(CLOSE, k, stack + [{}]);
      assert Pop(stack + [{}]) == stack;
    case Object(members) =>
      ScanOne(OPEN, PrintMembers(members, [CLOSE] + k), stack);
      ScanMembers(members, {}, k, stack);
      CollidesFresh(Names(members));
  }

  lemma {:induction false} ScanElement(e: Element, k: Text, stack: seq<set<Text>>)
    requires WellElement(e) && Next(k) != Some(COLON)
    ensures Scan(PrintElement(e, k), stack) == (Repeats(e.value) || Scan(k, stack))
    decreases e
  {
    ScanPlain(e.before, Print(e.value, e.after + k), stack);
    NextAfterSpaces(e.after, k);
    ScanValue(e.value, e.after + k, stack);
    ScanPlain(e.after, k, stack);
  }

  lemma {:induction false} ScanItems(items: Items, k: Text, stack: seq<set<Text>>)
    requires WellItems(items) && Next(k) != Some(COLON)
    ensures Scan(PrintItems(items, k), stack) == (RepeatsInItems(items) || Scan(k, stack))
    decreases items
  {
    match items
    case LastItem(item) => ScanElement(item, k, stack);
    case Item(item, others) =>
      var rest := PrintItems(others, k);
      ScanElement(item, [COMMA] + rest, stack);
      ScanOne(COMMA, rest, stack);
      ScanItems(others, k, stack);
  }

  lemma {:induction false} ScanMember(m: Member, seen: set<Text>, k: Text, stack: seq<set<Text>>)
    requires Spaces(m.before) && Decode(m.name).Some? && Spaces(m.after) && WellElement(m.element)
    requires Next(k) != Some(COLON)
    ensures Scan(PrintMember(m, k), stack + [seen]) ==
            (Name(m) in seen || Repeats(m.element.value) || Scan(k, stack + [seen + {Name(m)}]))
    decreases m
  {
    var value := [COLON] + PrintElement(m.element, k);
    ScanPlain(m.before, PrintQuotation(m.name, m.after + value), stack + [seen]);
    NextAfterSpaces(m.after, value);
    ScanQuotation(m.name, m.after + value, stack + [seen]);
    assert Pop(stack + [seen]) == stack;
    var now := stack + [seen + {Name(m)}];
    ScanPlain(m.after, value, now);
    ScanOne(COLON, PrintElement(m.element, k), now);
    ScanElement(m.element, k, now);
  }

  lemma OneName(m: Member, seen: set<Text>)
    requires Decode(m.name).Some?
    ensures Collides([Name(m)], seen) <==> Name(m) in seen
    ensures Elements([Name(m)]) == {Name(m)}
  {
    assert [Name(m)][1..] == [];
    assert !Collides([], seen + {Name(m)});
  }

  lemma {:induction false} ScanMembers(members: Members, seen: set<Text>, k: Text, stack: seq<set<Text>>)
    requires WellMembers(members)
    ensures Scan(PrintMembers(members, [CLOSE] + k), stack + [seen]) ==
            (Collides(Names(members), seen) || RepeatsInMembers(members) || Scan(k, stack))
    decreases members
  {
    var m := members.member;
    var now := seen + {Name(m)};
    match members
    case LastMember(_) =>
      ScanMember(m, seen, [CLOSE] + k, stack);
      ScanOne(CLOSE, k, stack + [now]);
      assert Pop(stack + [now]) == stack;
      OneName(m, seen);
      assert Names(members) == [Name(m)];
    case FirstMember(_, others) =>
      var rest := PrintMembers(others, [CLOSE] + k);
      ScanMember(m, seen, [COMMA] + rest, stack);
      ScanOne(COMMA, rest, stack + [now]);
      ScanMembers(others, now, k, stack);
      assert Names(members)[1..] == Names(others);
  }

  /** The deep scanner is exact on every JSON text: it answers true if and only if some object at any depth repeats a name. */
  lemma DuplicateObjectKeyIsExact(e: Element)
    requires WellElement(e)
    ensures Scan(Document(e), []) <==> Repeats(e.value)
  {
    ScanElement(e, [], []);
  }

  lemma {:induction false} TopPlain(plain: Text, k: Text, depth: int, keys: set<Text>)
    requires forall i :: 0 <= i < |plain| ==> plain[i] != QUOTE && plain[i] != OPEN && plain[i] != CLOSE
    ensures ScanTop(plain + k, depth, keys) == ScanTop(k, depth, keys)
  {
    if plain == [] {
      assert plain + k == k;
    } else {
      TopPlain(plain[1..], k, depth, keys);
      assert (plain + k)[1..] == plain[1..] + k;
    }
  }

  lemma TopQuotation(body: Text, k: Text, depth: int, keys: set<Text>)
    requires Decode(body).Some?
    ensures ScanTop(PrintQuotation(body, k), depth, keys) ==
            if depth != 1 || Next(k) != Some(COLON) then ScanTop(k, depth, keys)
            else if Decode(body).value in keys then true
            else ScanTop(k, depth, keys + {Decode(body).value})
  {
    ClosingOfBody(body, k);
    var text := PrintQuotation(body, k);
    assert text[1..] == body + [QUOTE] + k;
    assert text[1..|body| + 1] == body;
    assert text[|body| + 2..] == k;
  }

  lemma TopOne(u: Unit, k: Text, depth: int, keys: set<Text>)
    requires u != QUOTE
    ensures ScanTop([u] + k, depth, keys) ==
            ScanTop(k, if u == OPEN then depth + 1 else if u == CLOSE then depth - 1 else depth, keys)
  {
    assert ([u] + k)[1..] == k;
  }

  /** The names that the brace-counting scanner collects from a value found at `depth`. */
  function Collected(v: Value, depth: nat): seq<Text>
    requires Well(v)
  {
    if depth == 0 then OuterNames(v) else []
  }

  lemma {:induction false} TopValue(v: Value, k: Text, depth: nat, keys: set<Text>)
    requires Well(v) && Next(k) != Some(COLON)
    ensures ScanTop(Print(v, k), depth, keys) ==
            (Collides(Collected(v, depth), keys) || ScanTop(k, depth, keys + Elements(Collected(v, depth))))
    decreases v
  {
    assert keys + Elements([]) == keys;
    match v
    case Literal(token) => TopPlain(token, k, depth, keys);
    case Quotation(body) => TopQuotation(body, k, depth, keys);
    case EmptyArray(space) =>
      TopOne(OPEN_ARRAY, space + ([CLOSE_ARRAY] + k), depth, keys);
      TopPlain(space, [CLOSE_ARRAY] + k, depth, keys);
      TopOne(CLOSE_ARRAY, k, depth, keys);
    case Array(items) =>
      TopOne(OPEN_ARRAY, PrintItems(items, [CLOSE_ARRAY] + k), depth, keys);
      TopItems(items, [CLOSE_ARRAY] + k, depth, keys);
      var collected := if depth == 0 then OuterNamesOfItems(items) else [];
      TopOne(CLOSE_ARRAY, k, depth, keys + Elements(collected));
    case EmptyObject(space) =>
      TopOne(OPEN, space + ([CLOSE] + k), depth, keys);
      TopPlain(space, [CLOSE] + k, depth + 1, keys);
      TopOne(CLOSE, k, depth + 1, keys);
    case Object(members) =>
      TopOne(OPEN, PrintMembers(members, [CLOSE] + k), depth, keys);
      TopMembers(members, k, depth + 1, keys);
  }

  lemma {:induction false} TopElement(e: Element, k: Text, depth: nat, keys: set<Text>)
    requires WellElement(e) && Next(k) != Some(COLON)
    ensures ScanTop(PrintElement(e, k), depth, keys) ==
            (Collides(Collected(e.value, depth), keys) ||
             ScanTop(k, depth, keys + Elements(Collected(e.value, depth))))
    decreases e
  {
    TopPlain(e.before, Print(e.value, e.after + k), depth, keys);
    NextAfterSpaces(e.after, k);
    TopValue(e.value, e.after + k, depth, keys);
    TopPlain(e.after, k, depth, keys + Elements(Collected(e.value, depth)));
  }

  lemma {:induction false} TopItems(items: Items, k: Text, depth: nat, keys: set<Text>)
    requires WellItems(items) && Next(k) != Some(COLON)
    ensures var collected := if depth == 0 then OuterNamesOfItems(items) else [];
            ScanTop(PrintItems(items, k), depth, keys) ==
            (Collides(collected, keys) || ScanTop(k, depth, keys + Elements(collected)))
    decreases items
  {
    match items
    case LastItem(item) =>
      TopElement(item, k, depth, keys);
      assert OuterNamesOfItems(items) == OuterNames(item.value);
    case Item(item, others) =>
      var rest := PrintItems(others, k);
      var a := Collected(item.value, depth);
      var b := if depth == 0 then OuterNamesOfItems(others) else [];
      TopElement(item, [COMMA] + rest, depth, keys);
      TopOne(COMMA, rest, depth, keys + Elements(a));
      TopItems(others, k, depth, keys + Elements(a));
      CollidesAppend(a, b, keys);
      assert keys + Elements(a) + Elements(b) == keys + Elements(a + b);
      assert depth == 0 ==> OuterNamesOfItems(items) == a + b;
      assert depth != 0 ==> a + b == [];
  }

  lemma {:induction false} TopMember(m: Member, k: Text, depth: nat, keys: set<Text>)
    requires Spaces(m.before) && Decode(m.name).Some? && Spaces(m.after) && WellElement(m.element)
    requires Next(k) != Some(COLON) && depth > 0
    ensures ScanTop(PrintMember(m, k), depth, keys) ==
            if depth > 1 then ScanTop(k, depth, keys)
            else Name(m) in keys || ScanTop(k, depth, keys + {Name(m)})
    decreases m
  {
    var value := [COLON] + PrintElement(m.element, k);
    TopPlain(m.before, PrintQuotation(m.name, m.after + value), depth, keys);
    NextAfterSpaces(m.after, value);
    TopQuotation(m.name, m.after + value, depth, keys);
    var now := if depth > 1 then keys else keys + {Name(m)};
    TopPlain(m.after, value, depth, now);
    TopOne(COLON, PrintElement(m.element, k), depth, now);
    TopElement(m.element, k, depth, now);
    assert now + Elements([]) == now;
  }

  lemma {:induction false} TopMembers(members: Members, k: Text, depth: nat, keys: set<Text>)
    requires WellMembers(members) && depth > 0
    ensures var collected := if depth == 1 then Names(members) else [];
            ScanTop(PrintMembers(members, [CLOSE] + k), depth, keys) ==
            (Collides(collected, keys) || ScanTop(k, depth - 1, keys + Elements(collected)))
    decreases members
  {
    var m := members.member;
    var now := if depth > 1 then keys else keys + {Name(m)};
    assert keys + Elements([]) == keys;
    match members
    case LastMember(_) =>
      TopMember(m, [CLOSE] + k, depth, keys);
      TopOne(CLOSE, k, depth, now);
      OneName(m, keys);
      assert Names(members) == [Name(m)];
    case FirstMember(_, others) =>
      var rest := PrintMembers(others, [CLOSE] + k);
      TopMember(m, [COMMA] + rest, depth, keys);
      TopOne(COMMA, rest, depth, now);
      TopMembers(others, k, depth, now);
      assert Names(members)[1..] == Names(others);
      assert Elements(Names(members)) == {Name(m)} + Elements(Names(others));
      assert keys + {Name(m)} + Elements(Names(others)) == keys + ({Name(m)} + Elements(Names(others)));
  }

  /**
   The top-level scanner answers true if and only if a name comes twice among all objects that are not
   inside another object, taken together.
   */
  lemma DuplicateTopLevelKeyIsExact(e: Element)
    requires WellElement(e)
    ensures ScanTop(Document(e), 0, {}) <==> Repeating(OuterNames(e.value))
  {
    TopElement(e, [], 0, {});
    CollidesFresh(OuterNames(e.value));
  }

  /** So for a top-level object it is exact about that object, and never stricter than the deep scanner. */
  lemma TopLevelObject(e: Element)
    requires WellElement(e) && e.value.Object?
    ensures WellMembers(e.value.members)
    ensures ScanTop(Document(e), 0, {}) <==> Repeating(Names(e.value.members))
    ensures ScanTop(Document(e), 0, {}) ==> Scan(Document(e), [])
  {
    DuplicateTopLevelKeyIsExact(e);
    DuplicateObjectKeyIsExact(e);
  }

  /** `{"name":1}` */
  function OneMemberObject(name: Text): Value
  {
    Object(LastMember(Member([], name, [], Element([], Literal([0x31]), []))))
  }

  /** `[v,v]` */
  function Twice(v: Value): Element
  {
    Element([], Array(Item(Element([], v, []), LastItem(Element([], v, [])))), [])
  }

  lemma OneMemberObjectIsWell(name: Text)
    requires Decode(name).Some?
    ensures Well(OneMemberObject(name))
    ensures OuterNames(OneMemberObject(name)) == [Decode(name).value]
    ensures !Repeats(OneMemberObject(name))
  {
    var members := OneMemberObject(name).members;
    assert Well(members.member.element.value);
    assert WellMembers(members);
    assert Names(members) == [Decode(name).value];
    assert !RepeatsInMembers(members);
  }

  lemma TwiceIsWell(v: Value)
    requires Well(v)
    ensures WellElement(Twice(v))
    ensures OuterNames(Twice(v).value) == OuterNames(v) + OuterNames(v)
    ensures Repeats(Twice(v).value) <==> Repeats(v)
  {
    var items := Twice(v).value.items;
    assert WellItems(items.others);
    assert WellItems(items);
    assert OuterNamesOfItems(items.others) == OuterNames(v);
    assert RepeatsInItems(items.others) == Repeats(v);
  }

  /** For a top-level array it is not: `[{"a":1},{"a":1}]` repeats no name in any object, and is refused. */
  lemma TopLevelArrayIsRefused(name: Text)
    requires Decode(name).Some?
    ensures var e := Twice(OneMemberObject(name));
            WellElement(e) && ScanTop(Document(e), 0, {}) && !Scan(Document(e), [])
  {
    OneMemberObjectIsWell(name);
    TwiceIsWell(OneMemberObject(name));
    var e := Twice(OneMemberObject(name));
    DuplicateTopLevelKeyIsExact(e);
    DuplicateObjectKeyIsExact(e);
    assert OuterNames(e.value)[0] == OuterNames(e.value)[1];
  }
}
