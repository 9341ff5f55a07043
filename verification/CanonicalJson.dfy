/**
 The canonical JSON printer behind the receipt digest. A number is the token JSON.stringify prints
 for it; an object keeps its members in insertion order.
 */
module CanonicalJson {
  import opened JsonStrings
  import opened Sequences
  import opened TextOrder

  datatype Json =
    | Null
    | Bool(b: bool)
    | Num(token: Text)
    | Str(text: Text)
    | Arr(items: seq<Json>)
    | Obj(members: seq<Member>)

  datatype Member = Member(name: Text, value: Json)

  const OPEN_LIST: Unit := 0x5b
  const CLOSE_LIST: Unit := 0x5d
  const OPEN_OBJECT: Unit := 0x7b
  const CLOSE_OBJECT: Unit := 0x7d

  /** The characters of a number token: digits, signs, point and exponent. */
  predicate NumberUnit(u: Unit)
  {
    0x30 <= u <= 0x39 || u == 0x2d || u == 0x2b || u == 0x2e || u == 0x65 || u == 0x45
  }

  predicate NumberToken(token: Text)
  {
    && token != []
    && (forall i :: 0 <= i < |token| ==> NumberUnit(token[i]))
    && (token[0] == 0x2d || 0x30 <= token[0] <= 0x39)
  }

  /** Values as JSON.parse gives them: no name twice in one object. */
  predicate Valid(v: Json)
  {
    match v
    case Num(token) => NumberToken(token)
    case Arr(items) => forall i :: 0 <= i < |items| ==> Valid(items[i])
    case Obj(members) =>
      && (forall i :: 0 <= i < |members| ==> Valid(members[i].value))
      && (forall i, j :: 0 <= i < j < |members| ==> members[i].name != members[j].name)
    case _ => true
  }

  const Name := (m: Member) => m.name

  function Sorted(members: seq<Member>): seq<Member>
  {
    SortBy(members, Name)
  }

  ghost predicate From(members: seq<Member>, v: Json)
  {
    v.Obj? && forall m :: m in members ==> m in v.members
  }

  function Canonical(v: Json): Text
    decreases v, 1, 0
  {
    match v
    case Null => [0x6e, 0x75, 0x6c, 0x6c]
    case Bool(b) => if b then [0x74, 0x72, 0x75, 0x65] else [0x66, 0x61, 0x6c, 0x73, 0x65]
    case Num(token) => token
    case Str(text) => Quoted(text)
    case Arr(items) => [OPEN_LIST] + CanonicalItems(v, items) + [CLOSE_LIST]
    case Obj(members) =>
      SortKeeps(members, Name);
      [OPEN_OBJECT] + CanonicalMembers(v, Sorted(members)) + [CLOSE_OBJECT]
  }

  function CanonicalItems(ghost v: Json, items: seq<Json>): Text
    requires v.Arr? && forall x :: x in items ==> x in v.items
    decreases v, 0, |items|
  {
    if items == [] then []
    else
      assert items[0] in items;
      Canonical(items[0]) + if |items| == 1 then [] else [COMMA] + CanonicalItems(v, items[1..])
  }

  function CanonicalMembers(ghost v: Json, members: seq<Member>): Text
    requires From(members, v)
    decreases v, 0, |members|
  {
    if members == [] then []
    else
      assert members[0] in members;
      Quoted(members[0].name) + [COLON] + Canonical(members[0].value)
      + if |members| == 1 then [] else [COMMA] + CanonicalMembers(v, members[1..])
  }

  /** Equal up to the order of object members. */
  predicate Equivalent(v: Json, w: Json)
  {
    match v
    case Null => w.Null?
    case Bool(b) => w.Bool? && w.b == b
    case Num(token) => w.Num? && w.token == token
    case Str(text) => w.Str? && w.text == text
    case Arr(items) =>
      w.Arr? && |w.items| == |items| && forall i :: 0 <= i < |items| ==> Equivalent(items[i], w.items[i])
    case Obj(members) =>
      && w.Obj? && |w.members| == |members|
      && (forall i :: 0 <= i < |members| ==>
            exists j :: 0 <= j < |w.members| && w.members[j].name == members[i].name
                        && Equivalent(members[i].value, w.members[j].value))
  }

  /** Where a value printed in front of this text certainly ends. */
  predicate Delimited(rest: Text)
  {
    rest == [] || !NumberUnit(rest[0])
  }

  /** The first unit of a printed value tells its kind. */
  lemma FirstUnit(v: Json)
    requires Valid(v)
    ensures Canonical(v) != []
    ensures var u := Canonical(v)[0];
            && (u == 0x6e <==> v.Null?)
            && (u == 0x74 <==> v.Bool? && v.b)
            && (u == 0x66 <==> v.Bool? && !v.b)
            && (u == QUOTE <==> v.Str?)
            && (u == OPEN_LIST <==> v.Arr?)
            && (u == OPEN_OBJECT <==> v.Obj?)
            && (u == 0x2d || 0x30 <= u <= 0x39 <==> v.Num?)
  {
  }

  lemma {:induction false} TokenUnique(a: Text, b: Text, x: Text, y: Text)
    requires forall i :: 0 <= i < |a| ==> NumberUnit(a[i])
    requires forall i :: 0 <= i < |b| ==> NumberUnit(b[i])
    requires Delimited(x) && Delimited(y)
    requires a + x == b + y
    ensures a == b && x == y
  {
    assert forall i :: 0 <= i < |a| + |x| ==> (a + x)[i] == (b + y)[i];
    assert x != [] ==> (a + x)[|a|] == x[0];
    assert y != [] ==> (b + y)[|b|] == y[0];
    assert (a + x)[..|a|] == a && (b + y)[..|b|] == b;
    assert (a + x)[|a|..] == x && (b + y)[|b|..] == y;
  }

  function ItemsTail(ghost v: Json, items: seq<Json>): Text
    requires v.Arr? && forall x :: x in items ==> x in v.items
    requires items != []
  {
    if |items| == 1 then [] else [COMMA] + CanonicalItems(v, items[1..])
  }

  function MembersTail(ghost v: Json, members: seq<Member>): Text
    requires From(members, v) && members != []
  {
    if |members| == 1 then [] else [COMMA] + CanonicalMembers(v, members[1..])
  }

  ghost predicate AllValid(items: seq<Json>)
  {
    forall i :: 0 <= i < |items| ==> Valid(items[i])
  }

  ghost predicate AllMembersValid(members: seq<Member>)
  {
    forall i :: 0 <= i < |members| ==> Valid(members[i].value)
  }

  /** Printed values with delimited text behind them are told apart. */
  lemma {:induction false} Unambiguous(v: Json, w: Json, x: Text, y: Text)
    requires Valid(v) && Valid(w) && Delimited(x) && Delimited(y)
    requires Canonical(v) + x == Canonical(w) + y
    ensures Equivalent(v, w) && x == y
    decreases v, 2, 0
  {
    SameKind(v, w, x, y);
    if v.Arr? {
      ListUnambiguous(v, w, x, y);
    } else if v.Obj? {
      ObjectUnambiguous(v, w, x, y);
    } else {
      ScalarUnambiguous(v, w, x, y);
    }
  }

  lemma SameKind(v: Json, w: Json, x: Text, y: Text)
    requires Valid(v) && Valid(w) && Canonical(v) + x == Canonical(w) + y
    ensures v.Null? == w.Null? && v.Bool? == w.Bool? && (v.Bool? ==> v.b == w.b) && v.Num? == w.Num?
    ensures v.Str? == w.Str? && v.Arr? == w.Arr? && v.Obj? == w.Obj?
  {
    FirstUnit(v);
    FirstUnit(w);
    assert Canonical(v)[0] == (Canonical(v) + x)[0];
    assert Canonical(w)[0] == (Canonical(w) + y)[0];
  }

  lemma ScalarUnambiguous(v: Json, w: Json, x: Text, y: Text)
    requires Valid(v) && Valid(w) && Delimited(x) && Delimited(y)
    requires Canonical(v) + x == Canonical(w) + y
    requires v.Null? == w.Null? && v.Bool? == w.Bool? && (v.Bool? ==> v.b == w.b) && v.Num? == w.Num? && v.Str? == w.Str?
    requires !v.Arr? && !v.Obj? && !w.Arr? && !w.Obj?
    ensures Equivalent(v, w) && x == y
  {
    if v.Num? {
      TokenUnique(v.token, w.token, x, y);
    } else if v.Str? {
      QuotedUnique(v.text, w.text, x, y);
    } else {
      var n := |Canonical(v)|;
      assert (Canonical(v) + x)[n..] == x && (Canonical(w) + y)[n..] == y;
    }
  }

  lemma ObjectText(v: Json, x: Text)
    requires Valid(v) && v.Obj?
    ensures From(Sorted(v.members), v) && AllMembersValid(Sorted(v.members))
    ensures (Canonical(v) + x)[1..] == CanonicalMembers(v, Sorted(v.members)) + [CLOSE_OBJECT] + x
  {
    SortedFrom(v.members, v);
    SortedValid(v.members);
  }

  lemma SortedFrom(members: seq<Member>, v: Json)
    requires v.Obj? && members == v.members
    ensures From(Sorted(members), v)
  {
    SortKeeps(members, Name);
  }

  lemma {:induction false} ListUnambiguous(v: Json, w: Json, x: Text, y: Text)
    requires Valid(v) && Valid(w) && v.Arr? && w.Arr?
    requires Canonical(v) + x == Canonical(w) + y
    ensures Equivalent(v, w) && x == y
    decreases v, 1, 0
  {
    var a, b := CanonicalItems(v, v.items), CanonicalItems(w, w.items);
    assert (Canonical(v) + x)[1..] == a + [CLOSE_LIST] + x;
    assert (Canonical(w) + y)[1..] == b + [CLOSE_LIST] + y;
    ItemsUnambiguous(v, w, v.items, w.items, x, y);
  }

  lemma {:induction false} ObjectUnambiguous(v: Json, w: Json, x: Text, y: Text)
    requires Valid(v) && Valid(w) && v.Obj? && w.Obj?
    requires Canonical(v) + x == Canonical(w) + y
    ensures Equivalent(v, w) && x == y
    decreases v, 1, 0
  {
    ObjectText(v, x);
    ObjectText(w, y);
    MembersUnambiguous(v, w, Sorted(v.members), Sorted(w.members), x, y);
    SortedPairsEquivalent(v, w);
  }

  lemma SortedValid(members: seq<Member>)
    requires AllMembersValid(members)
    ensures AllMembersValid(Sorted(members))
  {
    SortKeeps(members, Name);
    var s := Sorted(members);
    forall i | 0 <= i < |s|
      ensures Valid(s[i].value)
    {
      assert s[i] in members;
    }
  }

  ghost predicate Paired(a: seq<Member>, b: seq<Member>)
  {
    |a| == |b| && forall i :: 0 <= i < |a| ==> a[i].name == b[i].name && Equivalent(a[i].value, b[i].value)
  }

  lemma SortedPairsEquivalent(v: Json, w: Json)
    requires v.Obj? && w.Obj? && Paired(Sorted(v.members), Sorted(w.members))
    ensures Equivalent(v, w)
  {
    SortKeeps(v.members, Name);
    SortKeeps(w.members, Name);
    var a, b := Sorted(v.members), Sorted(w.members);
    forall i | 0 <= i < |v.members|
      ensures exists j :: 0 <= j < |w.members| && w.members[j].name == v.members[i].name
                          && Equivalent(v.members[i].value, w.members[j].value)
    {
      assert v.members[i] in a;
      var k :| 0 <= k < |a| && a[k] == v.members[i];
      assert b[k] in w.members;
      var j :| 0 <= j < |w.members| && w.members[j] == b[k];
      assert w.members[j].name == v.members[i].name && Equivalent(v.members[i].value, w.members[j].value);
    }
  }

  /** How the text of a list continues: closed, or a value with delimited text behind it. */
  lemma RegroupItems(first: Text, others: Text, x: Text)
    ensures (first + others) + [CLOSE_LIST] + x == first + (others + [CLOSE_LIST] + x)
  {
  }

  lemma ItemsText(v: Json, a: seq<Json>, x: Text)
    requires v.Arr? && (forall i :: i in a ==> i in v.items) && a != []
    ensures var p := ItemsTail(v, a) + [CLOSE_LIST] + x;
            && CanonicalItems(v, a) + [CLOSE_LIST] + x == Canonical(a[0]) + p
            && (if |a| == 1 then p == [CLOSE_LIST] + x
                else p == [COMMA] + (CanonicalItems(v, a[1..]) + [CLOSE_LIST] + x))
  {
    var t := ItemsTail(v, a);
    assert CanonicalItems(v, a) == Canonical(a[0]) + t;
    RegroupItems(Canonical(a[0]), t, x);
    if |a| > 1 {
      RegroupItems([COMMA], CanonicalItems(v, a[1..]), x);
    }
  }

  lemma ItemsStart(v: Json, a: seq<Json>, x: Text)
    requires v.Arr? && (forall i :: i in a ==> i in v.items) && AllValid(a)
    ensures var s := CanonicalItems(v, a) + [CLOSE_LIST] + x;
            if a == [] then s == [CLOSE_LIST] + x
            else
              var p := ItemsTail(v, a) + [CLOSE_LIST] + x;
              && s == Canonical(a[0]) + p && s[0] != CLOSE_LIST && Delimited(p) && p != []
              && (if |a| == 1 then p == [CLOSE_LIST] + x
                  else p == [COMMA] + (CanonicalItems(v, a[1..]) + [CLOSE_LIST] + x))
  {
    if a != [] {
      FirstUnit(a[0]);
      ItemsText(v, a, x);
    }
  }

  lemma {:induction false} ItemsUnambiguous(v: Json, w: Json, a: seq<Json>, b: seq<Json>, x: Text, y: Text)
    requires v.Arr? && (forall i :: i in a ==> i in v.items) && AllValid(a)
    requires w.Arr? && (forall i :: i in b ==> i in w.items) && AllValid(b)
    requires CanonicalItems(v, a) + [CLOSE_LIST] + x == CanonicalItems(w, b) + [CLOSE_LIST] + y
    ensures |a| == |b| && x == y
    ensures forall i :: 0 <= i < |a| ==> Equivalent(a[i], b[i])
    decreases v, 0, |a|
  {
    ItemsStart(v, a, x);
    ItemsStart(w, b, y);
    if a == [] {
      assert ([CLOSE_LIST] + x)[1..] == x && ([CLOSE_LIST] + y)[1..] == y;
    } else {
      assert a[0] in a;
      var p, q := ItemsTail(v, a) + [CLOSE_LIST] + x, ItemsTail(w, b) + [CLOSE_LIST] + y;
      Unambiguous(a[0], b[0], p, q);
      if |a| == 1 {
        assert p[1..] == x && q[1..] == y;
      } else {
        assert p[1..] == CanonicalItems(v, a[1..]) + [CLOSE_LIST] + x;
        assert q[1..] == CanonicalItems(w, b[1..]) + [CLOSE_LIST] + y;
        ItemsUnambiguous(v, w, a[1..], b[1..], x, y);
        assert forall i :: 1 <= i < |a| ==> a[i] == a[1..][i - 1] && b[i] == b[1..][i - 1];
      }
    }
  }

  lemma Regroup(name: Text, value: Text, tail: Text, x: Text)
    ensures (name + [COLON] + value + tail) + [CLOSE_OBJECT] + x ==
            name + ([COLON] + (value + (tail + [CLOSE_OBJECT] + x)))
  {
  }

  lemma RegroupTail(others: Text, x: Text)
    ensures ([COMMA] + others) + [CLOSE_OBJECT] + x == [COMMA] + (others + [CLOSE_OBJECT] + x)
  {
  }

  lemma MembersStart(v: Json, a: seq<Member>, x: Text)
    requires From(a, v)
    ensures var s := CanonicalMembers(v, a) + [CLOSE_OBJECT] + x;
            if a == [] then s == [CLOSE_OBJECT] + x
            else
              var p := MembersTail(v, a) + [CLOSE_OBJECT] + x;
              && s == Quoted(a[0].name) + ([COLON] + (Canonical(a[0].value) + p)) && s[0] == QUOTE
              && Delimited(p) && p != []
              && (if |a| == 1 then p == [CLOSE_OBJECT] + x
                  else p == [COMMA] + (CanonicalMembers(v, a[1..]) + [CLOSE_OBJECT] + x))
  {
    if a != [] {
      assert a[0] in a;
      var t := MembersTail(v, a);
      assert CanonicalMembers(v, a) == Quoted(a[0].name) + [COLON] + Canonical(a[0].value) + t;
      Regroup(Quoted(a[0].name), Canonical(a[0].value), t, x);
      if |a| == 1 {
        assert t == [] && t + [CLOSE_OBJECT] + x == [CLOSE_OBJECT] + x;
      } else {
        RegroupTail(CanonicalMembers(v, a[1..]), x);
      }
    }
  }

  lemma PairedFirst(a: seq<Member>, b: seq<Member>)
    requires a != [] && b != [] && Paired([a[0]], [b[0]]) && Paired(a[1..], b[1..])
    ensures Paired(a, b)
  {
    assert forall i :: 1 <= i < |a| ==> a[i] == a[1..][i - 1];
    assert forall i :: 1 <= i < |b| ==> b[i] == b[1..][i - 1];
    assert [a[0]][0] == a[0] && [b[0]][0] == b[0];
  }

  /** What follows the first member tells whether there are more. */
  lemma SameTails(v: Json, w: Json, a: seq<Member>, b: seq<Member>, x: Text, y: Text)
    requires From(a, v) && From(b, w) && a != [] && b != []
    requires MembersTail(v, a) + [CLOSE_OBJECT] + x == MembersTail(w, b) + [CLOSE_OBJECT] + y
    ensures |a| == 1 <==> |b| == 1
    ensures |a| == 1 ==> x == y
    ensures |a| > 1 ==> CanonicalMembers(v, a[1..]) + [CLOSE_OBJECT] + x == CanonicalMembers(w, b[1..]) + [CLOSE_OBJECT] + y
  {
    TailText(v, a, x);
    TailText(w, b, y);
  }

  lemma TailText(v: Json, a: seq<Member>, x: Text)
    requires From(a, v) && a != []
    ensures var p := MembersTail(v, a) + [CLOSE_OBJECT] + x;
            && p != []
            && (|a| == 1 ==> p[0] == CLOSE_OBJECT && p[1..] == x)
            && (|a| > 1 ==> p[0] == COMMA && p[1..] == CanonicalMembers(v, a[1..]) + [CLOSE_OBJECT] + x)
  {
    if |a| == 1 {
      assert MembersTail(v, a) + [CLOSE_OBJECT] + x == [CLOSE_OBJECT] + x;
    } else {
      RegroupTail(CanonicalMembers(v, a[1..]), x);
    }
  }

  lemma {:induction false} MembersUnambiguous(v: Json, w: Json, a: seq<Member>, b: seq<Member>, x: Text, y: Text)
    requires From(a, v) && AllMembersValid(a) && From(b, w) && AllMembersValid(b)
    requires CanonicalMembers(v, a) + [CLOSE_OBJECT] + x == CanonicalMembers(w, b) + [CLOSE_OBJECT] + y
    ensures Paired(a, b) && x == y
    decreases v, 0, |a|
  {
    MembersStart(v, a, x);
    MembersStart(w, b, y);
    if a == [] {
      assert ([CLOSE_OBJECT] + x)[1..] == x && ([CLOSE_OBJECT] + y)[1..] == y;
    } else {
      assert a[0] in a && b[0] in b;
      var p, q := MembersTail(v, a) + [CLOSE_OBJECT] + x, MembersTail(w, b) + [CLOSE_OBJECT] + y;
      var m, n := Canonical(a[0].value) + p, Canonical(b[0].value) + q;
      QuotedUnique(a[0].name, b[0].name, [COLON] + m, [COLON] + n);
      assert ([COLON] + m)[1..] == m && ([COLON] + n)[1..] == n;
      Unambiguous(a[0].value, b[0].value, p, q);
      SameTails(v, w, a, b, x, y);
      if |a| > 1 {
        MembersUnambiguous(v, w, a[1..], b[1..], x, y);
        PairedFirst(a, b);
      }
    }
  }

  // The converse

  function Names(members: seq<Member>): seq<Text>
  {
    seq(|members|, i requires 0 <= i < |members| => members[i].name)
  }

  ghost predicate DistinctNames(members: seq<Member>)
  {
    forall i, j :: 0 <= i < j < |members| ==> members[i].name != members[j].name
  }

  lemma {:induction false} NameCount(members: seq<Member>)
    requires DistinctNames(members)
    ensures |set m | m in members :: m.name| == |members|
  {
    if members != [] {
      var n := |members| - 1;
      NameCount(members[..n]);
      var before := set m | m in members[..n] :: m.name;
      assert members == members[..n] + [members[n]];
      assert (set m | m in members :: m.name) == before + {members[n].name};
      assert members[n].name !in before;
    }
  }

  lemma SubsetOfSameSize(a: set<Text>, b: set<Text>)
    requires a <= b && |a| == |b|
    ensures a == b
  {
    assert |b - a| == 0;
  }

  /** Equivalent objects have the same names. */
  lemma SameNames(v: Json, w: Json)
    requires Valid(v) && Valid(w) && v.Obj? && Equivalent(v, w)
    ensures forall m :: m in w.members ==> exists n :: n in v.members && n.name == m.name
  {
    NameCount(v.members);
    NameCount(w.members);
    var a, b := set m | m in v.members :: m.name, set m | m in w.members :: m.name;
    forall name | name in a
      ensures name in b
    {
      var m :| m in v.members && m.name == name;
      var i :| 0 <= i < |v.members| && v.members[i] == m;
      var j :| 0 <= j < |w.members| && w.members[j].name == m.name;
      assert w.members[j] in w.members;
    }
    SubsetOfSameSize(a, b);
    forall m | m in w.members
      ensures exists n :: n in v.members && n.name == m.name
    {
      assert m.name in b;
      assert m.name in a;
    }
  }

  lemma SortedNamesStrict(members: seq<Member>)
    requires DistinctNames(members)
    ensures StrictlyAscending(Names(Sorted(members)))
    ensures forall name :: name in Names(Sorted(members)) <==> exists m :: m in members && m.name == name
  {
    SortKeeps(members, Name);
    var s := Sorted(members);
    forall i, j | 0 <= i < j < |s|
      ensures Less(s[i].name, s[j].name)
    {
      LessTotal(s[i].name, s[j].name);
      assert !Less(Name(s[j]), Name(s[i]));
      SortedStaysDistinct(members, i, j);
    }
    forall name
      ensures name in Names(s) <==> exists m :: m in members && m.name == name
    {
      if name in Names(s) {
        var i :| 0 <= i < |s| && s[i].name == name;
        assert s[i] in members;
      }
      if exists m :: m in members && m.name == name {
        var m :| m in members && m.name == name;
        assert m in s;
        var i :| 0 <= i < |s| && s[i] == m;
        assert Names(s)[i] == name;
      }
    }
  }

  lemma SortedStaysDistinct(members: seq<Member>, i: int, j: int)
    requires DistinctNames(members) && 0 <= i < j < |Sorted(members)|
    ensures Sorted(members)[i].name != Sorted(members)[j].name
  {
    SortKeeps(members, Name);
    var s := Sorted(members);
    if s[i].name == s[j].name {
      assert s[i] in members && s[j] in members;
      assert s[i] == s[j];
      TwiceIn(s, i, j);
      OnceEach(members, s[i]);
    }
  }

  lemma {:induction false} OnceEach(members: seq<Member>, x: Member)
    requires DistinctNames(members)
    ensures multiset(members)[x] <= 1
  {
    if members != [] {
      var n := |members| - 1;
      OnceEach(members[..n], x);
      assert members == members[..n] + [members[n]];
      if members[n] == x {
        assert x !in members[..n];
      }
    }
  }

  lemma SortedPaired(v: Json, w: Json)
    requires Valid(v) && Valid(w) && v.Obj? && Equivalent(v, w)
    ensures Paired(Sorted(v.members), Sorted(w.members))
  {
    var a, b := Sorted(v.members), Sorted(w.members);
    SortKeeps(v.members, Name);
    SortKeeps(w.members, Name);
    SortedNamesStrict(v.members);
    SortedNamesStrict(w.members);
    SameNames(v, w);
    forall name
      ensures name in Names(a) <==> name in Names(b)
    {
      if name in Names(a) {
        var m :| m in v.members && m.name == name;
        var i :| 0 <= i < |v.members| && v.members[i] == m;
        var j :| 0 <= j < |w.members| && w.members[j].name == name;
        assert w.members[j] in w.members;
      }
    }
    StrictUnique(Names(a), Names(b));
    forall k | 0 <= k < |a|
      ensures a[k].name == b[k].name && Equivalent(a[k].value, b[k].value)
    {
      assert Names(a)[k] == a[k].name && Names(b)[k] == b[k].name;
      assert a[k] in v.members && b[k] in w.members;
      var i :| 0 <= i < |v.members| && v.members[i] == a[k];
      var j :| 0 <= j < |w.members| && w.members[j].name == v.members[i].name
               && Equivalent(v.members[i].value, w.members[j].value);
      var l :| 0 <= l < |w.members| && w.members[l] == b[k];
      assert j == l;
    }
  }

  lemma {:induction false} EquivalentPrintsSame(v: Json, w: Json)
    requires Valid(v) && Valid(w) && Equivalent(v, w)
    ensures Canonical(v) == Canonical(w)
    decreases v, 1, 0
  {
    match v
    case Arr(items) => ItemsPrintSame(v, w, items, w.items);
    case Obj(members) =>
      SortKeeps(members, Name);
      SortKeeps(w.members, Name);
      SortedValid(members);
      SortedValid(w.members);
      SortedPaired(v, w);
      MembersPrintSame(v, w, Sorted(members), Sorted(w.members));
    case _ =>
  }

  lemma {:induction false} ItemsPrintSame(v: Json, w: Json, a: seq<Json>, b: seq<Json>)
    requires v.Arr? && (forall i :: i in a ==> i in v.items) && AllValid(a)
    requires w.Arr? && (forall i :: i in b ==> i in w.items) && AllValid(b)
    requires |a| == |b| && forall i :: 0 <= i < |a| ==> Equivalent(a[i], b[i])
    ensures CanonicalItems(v, a) == CanonicalItems(w, b)
    decreases v, 0, |a|
  {
    if a != [] {
      assert a[0] in a;
      EquivalentPrintsSame(a[0], b[0]);
      ItemsPrintSame(v, w, a[1..], b[1..]);
    }
  }

  lemma {:induction false} MembersPrintSame(v: Json, w: Json, a: seq<Member>, b: seq<Member>)
    requires From(a, v) && AllMembersValid(a) && From(b, w) && AllMembersValid(b) && Paired(a, b)
    ensures CanonicalMembers(v, a) == CanonicalMembers(w, b)
    decreases v, 0, |a|
  {
    if a != [] {
      assert a[0] in a;
      EquivalentPrintsSame(a[0].value, b[0].value);
      MembersPrintSame(v, w, a[1..], b[1..]);
    }
  }

  /** The canonical text identifies a value exactly up to the order of object members. */
  lemma CanonicalIdentifies(v: Json, w: Json)
    requires Valid(v) && Valid(w)
    ensures Canonical(v) == Canonical(w) <==> Equivalent(v, w)
  {
    if Canonical(v) == Canonical(w) {
      assert Canonical(v) + [] == Canonical(w) + [];
      Unambiguous(v, w, [], []);
    }
    if Equivalent(v, w) {
      EquivalentPrintsSame(v, w);
    }
  }
}
