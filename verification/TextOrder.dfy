/** Texts ordered by code unit, as Array.prototype.sort does, and sorting by such a key. */
module TextOrder {
  import opened JsonStrings

  predicate Less(a: Text, b: Text)
  {
    b != [] && (a == [] || a[0] < b[0] || (a[0] == b[0] && Less(a[1..], b[1..])))
  }

  lemma {:induction false} LessTotal(a: Text, b: Text)
    ensures Less(a, b) || Less(b, a) || a == b
    ensures !(Less(a, b) && Less(b, a))
    ensures !Less(a, a)
  {
    if a != [] && b != [] {
      LessTotal(a[1..], b[1..]);
      assert a == [a[0]] + a[1..] && b == [b[0]] + b[1..];
    }
    if a != [] {
      LessTotal(a[1..], a[1..]);
    }
  }

  lemma {:induction false} LessTransitive(a: Text, b: Text, c: Text)
    requires Less(a, b) && Less(b, c)
    ensures Less(a, c)
  {
    if a != [] && a[0] == b[0] && b[0] == c[0] {
      LessTransitive(a[1..], b[1..], c[1..]);
    }
  }

  function Insert<T>(x: T, sorted: seq<T>, key: T -> Text): seq<T>
  {
    if sorted == [] then [x]
    else if Less(key(x), key(sorted[0])) then [x] + sorted
    else [sorted[0]] + Insert(x, sorted[1..], key)
  }

  function SortBy<T>(s: seq<T>, key: T -> Text): seq<T>
  {
    if s == [] then [] else Insert(s[|s| - 1], SortBy(s[..|s| - 1], key), key)
  }

  ghost predicate Ascending<T>(s: seq<T>, key: T -> Text)
  {
    forall i, j :: 0 <= i < j < |s| ==> !Less(key(s[j]), key(s[i]))
  }

  lemma {:induction false} InsertAdds<T>(x: T, sorted: seq<T>, key: T -> Text)
    ensures multiset(Insert(x, sorted, key)) == multiset(sorted) + multiset{x}
    ensures |Insert(x, sorted, key)| == |sorted| + 1
  {
    if sorted != [] && !Less(key(x), key(sorted[0])) {
      InsertAdds(x, sorted[1..], key);
      assert sorted == [sorted[0]] + sorted[1..];
    }
  }

  lemma {:induction false} InsertAscends<T>(x: T, sorted: seq<T>, key: T -> Text)
    requires Ascending(sorted, key)
    ensures Ascending(Insert(x, sorted, key), key)
  {
    if sorted != [] && !Less(key(x), key(sorted[0])) {
      InsertAscends(x, sorted[1..], key);
      InsertAdds(x, sorted[1..], key);
      var rest := Insert(x, sorted[1..], key);
      forall j | 0 <= j < |rest|
        ensures !Less(key(rest[j]), key(sorted[0]))
      {
        assert rest[j] in multiset(rest);
        assert rest[j] == x || rest[j] in sorted[1..];
      }
    } else {
      InsertFront(x, sorted, key);
    }
  }

  lemma InsertKeeps<T>(x: T, sorted: seq<T>, key: T -> Text)
    ensures multiset(Insert(x, sorted, key)) == multiset(sorted) + multiset{x}
    ensures |Insert(x, sorted, key)| == |sorted| + 1
    ensures Ascending(sorted, key) ==> Ascending(Insert(x, sorted, key), key)
  {
    InsertAdds(x, sorted, key);
    if Ascending(sorted, key) {
      InsertAscends(x, sorted, key);
    }
  }

  lemma InsertFront<T>(x: T, sorted: seq<T>, key: T -> Text)
    requires Ascending(sorted, key)
    requires sorted != [] ==> Less(key(x), key(sorted[0]))
    ensures Ascending([x] + sorted, key)
  {
    var s := [x] + sorted;
    forall j | 0 < j < |s|
      ensures !Less(key(s[j]), key(x))
    {
      LessTotal(key(x), key(sorted[0]));
      if Less(key(s[j]), key(x)) {
        LessTransitive(key(s[j]), key(x), key(sorted[0]));
      }
    }
  }

  lemma {:induction false} SortKeeps<T>(s: seq<T>, key: T -> Text)
    ensures multiset(SortBy(s, key)) == multiset(s)
    ensures |SortBy(s, key)| == |s|
    ensures Ascending(SortBy(s, key), key)
    ensures forall x :: x in SortBy(s, key) <==> x in s
  {
    if s != [] {
      var n := |s| - 1;
      SortKeeps(s[..n], key);
      InsertKeeps(s[n], SortBy(s[..n], key), key);
      assert s == s[..n] + [s[n]];
    }
    var t := SortBy(s, key);
    forall x
      ensures x in t <==> x in s
    {
      assert x in t <==> x in multiset(t);
      assert x in s <==> x in multiset(s);
    }
  }

  ghost predicate KeyedApart<T>(s: seq<T>, key: T -> Text)
  {
    forall x, y :: x in s && y in s && key(x) == key(y) ==> x == y
  }

  lemma HeadsAgree<T>(a: seq<T>, b: seq<T>, key: T -> Text)
    requires a != [] && b != [] && a[0] in b && b[0] in a
    requires Ascending(a, key) && Ascending(b, key) && KeyedApart(a, key)
    ensures a[0] == b[0]
  {
    var i :| 0 <= i < |b| && b[i] == a[0];
    var j :| 0 <= j < |a| && a[j] == b[0];
    LessTotal(key(a[0]), key(b[0]));
  }

  /** An ascending arrangement is determined by its elements when their keys tell them apart. */
  lemma {:induction false} AscendingUnique<T>(a: seq<T>, b: seq<T>, key: T -> Text)
    requires multiset(a) == multiset(b)
    requires Ascending(a, key) && Ascending(b, key) && KeyedApart(a, key)
    ensures a == b
  {
    assert |a| == |multiset(a)| && |b| == |multiset(b)|;
    if a != [] {
      assert a[0] in multiset(a) && b[0] in multiset(b);
      HeadsAgree(a, b, key);
      assert a == [a[0]] + a[1..] && b == [b[0]] + b[1..];
      assert multiset(a[1..]) == multiset(a) - multiset{a[0]};
      assert multiset(b[1..]) == multiset(b) - multiset{b[0]};
      AscendingUnique(a[1..], b[1..], key);
    }
  }

  lemma SortedApart<T>(a: seq<T>, key: T -> Text)
    requires KeyedApart(a, key)
    ensures KeyedApart(SortBy(a, key), key)
  {
    SortKeeps(a, key);
    var s := SortBy(a, key);
    forall x, y | x in s && y in s && key(x) == key(y)
      ensures x == y
    {
      assert x in multiset(s) && y in multiset(s);
      assert x in multiset(a) && y in multiset(a);
    }
  }

  /** Sorting undoes any permutation. */
  lemma SortPermutation<T>(a: seq<T>, b: seq<T>, key: T -> Text)
    requires multiset(a) == multiset(b) && KeyedApart(a, key)
    ensures SortBy(a, key) == SortBy(b, key)
  {
    SortedApart(a, key);
    var s, t := SortBy(a, key), SortBy(b, key);
    assert multiset(s) == multiset(a) by { SortKeeps(a, key); }
    assert multiset(t) == multiset(b) by { SortKeeps(b, key); }
    assert Ascending(s, key) by { SortKeeps(a, key); }
    assert Ascending(t, key) by { SortKeeps(b, key); }
    AscendingUnique(s, t, key);
  }

  ghost predicate StrictlyAscending(s: seq<Text>)
  {
    forall i, j :: 0 <= i < j < |s| ==> Less(s[i], s[j])
  }

  /** Strictly ascending texts are determined by the set of their elements. */
  lemma {:induction false} StrictUnique(a: seq<Text>, b: seq<Text>)
    requires StrictlyAscending(a) && StrictlyAscending(b) && |a| == |b|
    requires forall x :: x in a <==> x in b
    ensures a == b
  {
    if a != [] {
      assert a[0] in a && b[0] in b;
      var i :| 0 <= i < |b| && b[i] == a[0];
      var j :| 0 <= j < |a| && a[j] == b[0];
      LessTotal(a[0], b[0]);
      assert a[0] == b[0];
      forall x
        ensures x in a[1..] <==> x in b[1..]
      {
        LessTotal(x, x);
        assert x in a[1..] <==> x in a && x != a[0] by { assert a == [a[0]] + a[1..]; }
        assert x in b[1..] <==> x in b && x != b[0] by { assert b == [b[0]] + b[1..]; }
      }
      StrictUnique(a[1..], b[1..]);
    }
  }
}
