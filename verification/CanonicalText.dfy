/**
 The canonical text itself: a JSON text without white space whose values are those of the printed value and whose
 objects list their members by code units.
 */
module CanonicalText {
  import opened Wrappers
  import opened JsonStrings
  import opened Sequences
  import opened TextOrder
  import opened CanonicalJson
  import Scanners = JsonScanners

  /** The order of Array.prototype.sort: at the first difference the smaller code unit, and a text before its extensions. */
  predicate PrecedesAt(a: Text, b: Text, i: int)
  {
    0 <= i <= |a| && i < |b| && a[..i] == b[..i] && (i == |a| || a[i] < b[i])
  }

  ghost predicate Precedes(a: Text, b: Text)
  {
    exists i :: PrecedesAt(a, b, i)
  }

  lemma SameHeads(a: Text, b: Text, i: int)
    ensures PrecedesAt(a, b, i) && i > 0 ==> a != [] && b != [] && a[0] == b[0]
  {
    if PrecedesAt(a, b, i) && i > 0 {
      assert a[..i][0] == b[..i][0];
    }
  }

  lemma {:induction false} LessPrecedes(a: Text, b: Text)
    ensures Less(a, b) <==> Precedes(a, b)
  {
    if a == [] || b == [] || a[0] != b[0] {
      if Less(a, b) {
        assert PrecedesAt(a, b, 0);
      }
      forall i
        ensures PrecedesAt(a, b, i) ==> i <= 0
      {
        SameHeads(a, b, i);
      }
    } else {
      LessPrecedes(a[1..], b[1..]);
      if i :| PrecedesAt(a[1..], b[1..], i) {
        assert a[..i + 1] == [a[0]] + a[1..][..i] && b[..i + 1] == [b[0]] + b[1..][..i];
        assert PrecedesAt(a, b, i + 1);
      }
      if i :| PrecedesAt(a, b, i) {
        if i > 0 {
          assert a[1..][..i - 1] == a[..i][1..] && b[1..][..i - 1] == b[..i][1..];
          assert PrecedesAt(a[1..], b[1..], i - 1);
        }
      }
    }
  }

  // What a JSON text says

  const NULL_TOKEN: Text := [0x6e, 0x75, 0x6c, 0x6c]
  const TRUE_TOKEN: Text := [0x74, 0x72, 0x75, 0x65]
  const FALSE_TOKEN: Text := [0x66, 0x61, 0x6c, 0x73, 0x65]

  /** The parsed text says this value, with nothing between its tokens. */
  ghost predicate Says(t: Scanners.Value, v: Json)
    decreases t
  {
    match v
    case Null => t == Scanners.Literal(NULL_TOKEN)
    case Bool(b) => t == Scanners.Literal(if b then TRUE_TOKEN else FALSE_TOKEN)
    case Num(token) => t == Scanners.Literal(token)
    case Str(text) => t.Quotation? && Decode(t.body) == Some(text)
    case Arr(items) => if items == [] then t == Scanners.EmptyArray([]) else t.Array? && SaysItems(t.items, items)
    case Obj(members) =>
      if members == [] then t == Scanners.EmptyObject([])
      else t.Object? && SaysMembers(t.members, members) && |NamesOf(t.members)| == |members| && Ascends(NamesOf(t.members))
  }

  ghost predicate SaysItems(t: Scanners.Items, items: seq<Json>)
    requires items != []
    decreases t
  {
    && t.item.before == [] && t.item.after == [] && Says(t.item.value, items[0])
    && (t.LastItem? <==> |items| == 1)
    && (t.Item? ==> SaysItems(t.others, items[1..]))
  }

  /** Each member of the text is one of the object, by its decoded name. */
  ghost predicate SaysMembers(t: Scanners.Members, members: seq<Member>)
    decreases t
  {
    && t.member.before == [] && t.member.after == [] && t.member.element.before == [] && t.member.element.after == []
    && (exists j :: 0 <= j < |members| && Decode(t.member.name) == Some(members[j].name)
                    && Says(t.member.element.value, members[j].value))
    && (t.FirstMember? ==> SaysMembers(t.others, members))
  }

  /** The names as they are written, between their quotes. */
  function NamesOf(t: Scanners.Members): seq<Text>
  {
    [t.member.name] + if t.FirstMember? then NamesOf(t.others) else []
  }

  /** Decoded, each name comes before the next one. */
  ghost predicate Ascends(names: seq<Text>)
  {
    forall i, j :: 0 <= i < j < |names| ==>
      Decode(names[i]).Some? && Decode(names[j]).Some? && Precedes(Decode(names[i]).value, Decode(names[j]).value)
  }

  // The parse of the canonical text

  function Bare(t: Scanners.Value): Scanners.Element
  {
    Scanners.Element([], t, [])
  }

  function Tree(v: Json): Scanners.Value
    decreases v, 1, 0
  {
    match v
    case Null => Scanners.Literal(NULL_TOKEN)
    case Bool(b) => Scanners.Literal(if b then TRUE_TOKEN else FALSE_TOKEN)
    case Num(token) => Scanners.Literal(token)
    case Str(text) => Scanners.Quotation(Escape(text))
    case Arr(items) => if items == [] then Scanners.EmptyArray([]) else Scanners.Array(TreeItems(v, items))
    case Obj(members) =>
      SortKeeps(members, CanonicalJson.Name);
      if members == [] then Scanners.EmptyObject([]) else Scanners.Object(TreeMembers(v, Sorted(members)))
  }

  function TreeItems(ghost v: Json, items: seq<Json>): Scanners.Items
    requires v.Arr? && items != [] && forall x :: x in items ==> x in v.items
    decreases v, 0, |items|
  {
    assert items[0] in items;
    if |items| == 1 then Scanners.LastItem(Bare(Tree(items[0])))
    else Scanners.Item(Bare(Tree(items[0])), TreeItems(v, items[1..]))
  }

  function TreeMember(ghost v: Json, m: Member): Scanners.Member
    requires v.Obj? && m in v.members
    decreases v, 0, 0
  {
    Scanners.Member([], Escape(m.name), [], Bare(Tree(m.value)))
  }

  function TreeMembers(ghost v: Json, members: seq<Member>): Scanners.Members
    requires From(members, v) && members != []
    decreases v, 0, |members|
  {
    assert members[0] in members;
    if |members| == 1 then Scanners.LastMember(TreeMember(v, members[0]))
    else Scanners.FirstMember(TreeMember(v, members[0]), TreeMembers(v, members[1..]))
  }

  lemma {:induction false} TreePrints(v: Json, k: Text)
    ensures Scanners.Print(Tree(v), k) == Canonical(v) + k
    decreases v, 2, 0
  {
    match v
    case Str(text) => assert [QUOTE] + (Escape(text) + [QUOTE] + k) == Quoted(text) + k;
    case Arr(_) => ListPrints(v, k);
    case Obj(_) => ObjectPrints(v, k);
    case _ =>
  }

  lemma Enclosed(open: Unit, body: Text, close: Unit, k: Text)
    ensures [open] + (body + ([close] + k)) == [open] + body + [close] + k
  {
  }

  lemma ListTexts(v: Json, k: Text)
    requires v.Arr?
    ensures Canonical(v) == [OPEN_LIST] + CanonicalItems(v, v.items) + [CLOSE_LIST]
    ensures Scanners.Print(Tree(v), k) ==
            [OPEN_LIST] + if v.items == [] then [] + ([CLOSE_LIST] + k)
                          else Scanners.PrintItems(TreeItems(v, v.items), [CLOSE_LIST] + k)
  {
  }

  lemma ListPrints(v: Json, k: Text)
    requires v.Arr?
    ensures Scanners.Print(Tree(v), k) == Canonical(v) + k
    decreases v, 1, 0
  {
    ListTexts(v, k);
    Enclosed(OPEN_LIST, CanonicalItems(v, v.items), CLOSE_LIST, k);
    if v.items != [] {
      ItemsPrint(v, v.items, [CLOSE_LIST] + k);
    }
  }

  lemma ObjectTexts(v: Json, k: Text)
    requires v.Obj?
    ensures From(Sorted(v.members), v) && (v.members == [] <==> Sorted(v.members) == [])
    ensures Canonical(v) == [OPEN_OBJECT] + CanonicalMembers(v, Sorted(v.members)) + [CLOSE_OBJECT]
    ensures Scanners.Print(Tree(v), k) ==
            [OPEN_OBJECT] + if v.members == [] then [] + ([CLOSE_OBJECT] + k)
                            else Scanners.PrintMembers(TreeMembers(v, Sorted(v.members)), [CLOSE_OBJECT] + k)
  {
    SortKeeps(v.members, CanonicalJson.Name);
  }

  lemma ObjectPrints(v: Json, k: Text)
    requires v.Obj?
    ensures Scanners.Print(Tree(v), k) == Canonical(v) + k
    decreases v, 1, 0
  {
    ObjectTexts(v, k);
    Enclosed(OPEN_OBJECT, CanonicalMembers(v, Sorted(v.members)), CLOSE_OBJECT, k);
    if v.members != [] {
      MembersPrint(v, Sorted(v.members), [CLOSE_OBJECT] + k);
    }
  }

  lemma {:induction false} ItemsPrint(v: Json, items: seq<Json>, k: Text)
    requires v.Arr? && items != [] && forall x :: x in items ==> x in v.items
    ensures Scanners.PrintItems(TreeItems(v, items), k) == CanonicalItems(v, items) + k
    decreases v, 0, |items|
  {
    assert items[0] in items;
    if |items| == 1 {
      BarePrints(items[0], v, k);
    } else {
      var rest := [COMMA] + (CanonicalItems(v, items[1..]) + k);
      ItemsPrint(v, items[1..], k);
      BarePrints(items[0], v, rest);
      assert Canonical(items[0]) + rest == Canonical(items[0]) + ([COMMA] + CanonicalItems(v, items[1..])) + k;
    }
  }

  lemma BarePrints(x: Json, v: Json, k: Text)
    requires x < v
    ensures Scanners.PrintElement(Bare(Tree(x)), k) == Canonical(x) + k
    decreases v, 0, 0
  {
    TreePrints(x, k);
    assert [] + k == k;
    assert [] + Scanners.Print(Tree(x), k) == Scanners.Print(Tree(x), k);
  }

  lemma MemberPrints(v: Json, m: Member, k: Text)
    requires v.Obj? && m in v.members
    ensures Scanners.PrintMember(TreeMember(v, m), k) == Quoted(m.name) + [COLON] + Canonical(m.value) + k
    decreases v, 0, 1
  {
    BarePrints(m.value, v, k);
    var after := [COLON] + (Canonical(m.value) + k);
    assert [] + after == after;
    assert [] + ([QUOTE] + (Escape(m.name) + [QUOTE] + after)) == Quoted(m.name) + [COLON] + Canonical(m.value) + k;
  }

  lemma {:induction false} MembersPrint(v: Json, members: seq<Member>, k: Text)
    requires From(members, v) && members != []
    ensures Scanners.PrintMembers(TreeMembers(v, members), k) == CanonicalMembers(v, members) + k
    decreases v, 0, |members| + 1
  {
    assert members[0] in members;
    if |members| == 1 {
      MemberPrints(v, members[0], k);
      assert Quoted(members[0].name) + [COLON] + Canonical(members[0].value) + [] ==
             Quoted(members[0].name) + [COLON] + Canonical(members[0].value);
    } else {
      var rest := [COMMA] + (CanonicalMembers(v, members[1..]) + k);
      MembersPrint(v, members[1..], k);
      MemberPrints(v, members[0], rest);
      var head := Quoted(members[0].name) + [COLON] + Canonical(members[0].value);
      assert head + rest == head + ([COMMA] + CanonicalMembers(v, members[1..])) + k;
    }
  }

  // What it says

  lemma {:induction false} TreeSays(v: Json)
    requires Valid(v)
    ensures Says(Tree(v), v)
    decreases v, 2, 0
  {
    match v
    case Str(text) => DecodeAfterEscape(text);
    case Arr(items) => if items != [] { ItemsSay(v, items); }
    case Obj(members) => if members != [] { ObjectSays(v); }
    case _ =>
  }

  lemma {:induction false} ItemsSay(v: Json, items: seq<Json>)
    requires v.Arr? && items != [] && (forall x :: x in items ==> x in v.items) && AllValid(items)
    ensures SaysItems(TreeItems(v, items), items)
    decreases v, 0, |items|
  {
    assert items[0] in items;
    TreeSays(items[0]);
    if |items| > 1 {
      ItemsSay(v, items[1..]);
    }
  }

  lemma {:induction false} MembersSay(v: Json, members: seq<Member>)
    requires From(members, v) && members != [] && Valid(v)
    ensures SaysMembers(TreeMembers(v, members), v.members)
    decreases v, 0, |members|
  {
    assert members[0] in members;
    var j :| 0 <= j < |v.members| && v.members[j] == members[0];
    TreeSays(members[0].value);
    DecodeAfterEscape(members[0].name);
    if |members| > 1 {
      MembersSay(v, members[1..]);
    }
  }

  lemma {:induction false} NamesWritten(v: Json, members: seq<Member>)
    requires From(members, v) && members != []
    ensures var names := NamesOf(TreeMembers(v, members));
            |names| == |members| && forall i :: 0 <= i < |names| ==> names[i] == Escape(members[i].name)
    decreases |members|
  {
    if |members| > 1 {
      NamesWritten(v, members[1..]);
    }
  }

  lemma SortedIsStrict(members: seq<Member>, i: nat, j: nat)
    requires i < j < |members| == |Sorted(members)|
    requires forall a, b :: 0 <= a < b < |members| ==> members[a].name != members[b].name
    ensures Precedes(Sorted(members)[i].name, Sorted(members)[j].name)
  {
    SortKeeps(members, CanonicalJson.Name);
    var s := Sorted(members);
    LessTotal(s[i].name, s[j].name);
    LessPrecedes(s[i].name, s[j].name);
    if s[i].name == s[j].name {
      NamesTwice(members, s, i, j);
    }
  }

  /** A permutation of members with distinct names has distinct names. */
  lemma NamesTwice(members: seq<Member>, s: seq<Member>, i: nat, j: nat)
    requires multiset(s) == multiset(members) && i < j < |s|
    requires forall a, b :: 0 <= a < b < |members| ==> members[a].name != members[b].name
    ensures s[i].name != s[j].name
  {
    assert s[i] in multiset(s) && s[j] in multiset(s);
    assert s[i] in multiset(members) && s[j] in multiset(members);
    var a :| 0 <= a < |members| && members[a] == s[i];
    var b :| 0 <= b < |members| && members[b] == s[j];
    if s[i] == s[j] {
      TwiceIn(s, i, j);
      OnceIn(members, a);
    }
  }

  lemma OnceIn(members: seq<Member>, a: nat)
    requires a < |members| && forall i, j :: 0 <= i < j < |members| ==> members[i].name != members[j].name
    ensures multiset(members)[members[a]] == 1
  {
    assert members == members[..a] + [members[a]] + members[a + 1..];
    assert members[a] !in members[..a] && members[a] !in members[a + 1..];
    assert multiset(members[..a])[members[a]] == 0 && multiset(members[a + 1..])[members[a]] == 0;
  }

  lemma ObjectSays(v: Json)
    requires v.Obj? && v.members != [] && Valid(v)
    ensures Says(Tree(v), v)
    decreases v, 1, 0
  {
    SortKeeps(v.members, CanonicalJson.Name);
    var sorted := Sorted(v.members);
    MembersSay(v, sorted);
    NamesWritten(v, sorted);
    var names := NamesOf(TreeMembers(v, sorted));
    forall i, j | 0 <= i < j < |names|
      ensures Decode(names[i]).Some? && Decode(names[j]).Some? && Precedes(Decode(names[i]).value, Decode(names[j]).value)
    {
      DecodeAfterEscape(sorted[i].name);
      DecodeAfterEscape(sorted[j].name);
      SortedIsStrict(v.members, i, j);
    }
  }

  /** A whole JSON text that says this value. */
  ghost predicate IsTextOf(t: Scanners.Value, v: Json, text: Text)
  {
    Scanners.Document(Bare(t)) == text && Says(t, v)
  }

  /**
   The canonical text of a value is a JSON text without white space that says exactly this value, every object listing
   its members in the order of their code units.
   */
  lemma CanonicalIsJson(v: Json)
    requires Valid(v)
    ensures exists t :: IsTextOf(t, v, Canonical(v))
  {
    TreePrints(v, []);
    TreeSays(v);
    assert [] + Scanners.Print(Tree(v), [] + []) == Canonical(v);
    assert IsTextOf(Tree(v), v, Canonical(v));
  }
}
