/**
 * The ordering used by the odds board and the props table.
 *
 * Both sort a copy with `Array.prototype.sort` and a comparator that returns -1, 1 or 0
 * from JavaScript's `<` and `>` on a sort value (a number or a string). That sort is
 * stable (section 23.1.3.30 of ECMA-262, 2024 edition): elements whose comparator result
 * is 0 keep their relative order. The model is a stable insertion sort over such values.
 */
module StableSort {

  /** A sort value: the comparator compares numbers with numbers and strings with strings. */
  datatype SortValue = Num(n: real) | Str(s: string)

  /** JavaScript's `<` on strings, compared character by character (Dafny characters are code points), a proper prefix first. */
  predicate LexLess(a: string, b: string) {
    if |a| == 0 then |b| > 0
    else if |b| == 0 then false
    else a[0] < b[0] || (a[0] == b[0] && LexLess(a[1..], b[1..]))
  }

  /**
   * `<` on sort values. A sort never mixes numbers and strings; ranking every number
   * below every string only keeps the relation a total order.
   */
  predicate Less(a: SortValue, b: SortValue) {
    match (a, b)
    case (Num(x), Num(y)) => x < y
    case (Str(x), Str(y)) => LexLess(x, y)
    case (Num(_), Str(_)) => true
    case (Str(_), Num(_)) => false
  }

  /** The comparator's "a goes first" (it returned a negative number): `<` ascending, `>` descending. */
  predicate Before(a: SortValue, b: SortValue, asc: bool) {
    if asc then Less(a, b) else Less(b, a)
  }

  /** No later element goes strictly before an earlier one. */
  ghost predicate Ordered<T>(s: seq<T>, key: T -> SortValue, asc: bool) {
    forall i, j :: 0 <= i < j < |s| ==> !Before(key(s[j]), key(s[i]), asc)
  }

  /** The elements whose key is `k`, in their order in `s`. */
  function KeyClass<T>(s: seq<T>, key: T -> SortValue, k: SortValue): seq<T> {
    if s == [] then []
    else (if key(s[0]) == k then [s[0]] else []) + KeyClass(s[1..], key, k)
  }

  /** Stability: for every key, the elements with that key appear in the same relative order. */
  ghost predicate SameKeyOrder<T>(input: seq<T>, output: seq<T>, key: T -> SortValue) {
    forall k :: KeyClass(output, key, k) == KeyClass(input, key, k)
  }

  /** Puts `x` in front of the first element that does not go strictly before it. */
  function Insert<T>(x: T, s: seq<T>, key: T -> SortValue, asc: bool): seq<T> {
    if s == [] then [x]
    else if Before(key(s[0]), key(x), asc) then [s[0]] + Insert(x, s[1..], key, asc)
      else [x] + s
  }

  /** Stable sort: the head of the input goes in front of every later element with an equal key. */
  function Sort<T>(s: seq<T>, key: T -> SortValue, asc: bool): (r: seq<T>)
    ensures multiset(r) == multiset(s)
  {
    if s == [] then []
    else
      assert s == [s[0]] + s[1..];
      InsertPermutes(s[0], Sort(s[1..], key, asc), key, asc);
      Insert(s[0], Sort(s[1..], key, asc), key, asc)
  }

  /** Inserting an element adds exactly that element. */
  lemma {:induction false} InsertPermutes<T>(x: T, s: seq<T>, key: T -> SortValue, asc: bool)
    ensures multiset(Insert(x, s, key, asc)) == multiset(s) + multiset{x}
  {
    if s != [] {
      assert s == [s[0]] + s[1..];
      if Before(key(s[0]), key(x), asc) {
        InsertPermutes(x, s[1..], key, asc);
      }
    }
  }

  lemma {:induction false} LexLessIrreflexive(a: string)
    ensures !LexLess(a, a)
  {
    if |a| > 0 {
      LexLessIrreflexive(a[1..]);
    }
  }

  lemma {:induction false} LexLessTransitive(a: string, b: string, c: string)
    requires LexLess(a, b) && LexLess(b, c)
    ensures LexLess(a, c)
  {
    if |a| > 0 && a[0] == b[0] && b[0] == c[0] {
      LexLessTransitive(a[1..], b[1..], c[1..]);
    }
  }

  lemma {:induction false} LexLessTotal(a: string, b: string)
    requires a != b
    ensures LexLess(a, b) || LexLess(b, a)
  {
    if |a| > 0 && |b| > 0 && a[0] == b[0] {
      assert a == [a[0]] + a[1..] && b == [b[0]] + b[1..];
      LexLessTotal(a[1..], b[1..]);
    }
  }

  /** `Less` is a strict total order on sort values. */
  lemma LessStrictTotalOrder(a: SortValue, b: SortValue, c: SortValue)
    ensures !Less(a, a)
    ensures Less(a, b) && Less(b, c) ==> Less(a, c)
    ensures a != b ==> Less(a, b) || Less(b, a)
  {
    if a.Str? {
      LexLessIrreflexive(a.s);
    }
    if a.Str? && b.Str? && c.Str? && Less(a, b) && Less(b, c) {
      LexLessTransitive(a.s, b.s, c.s);
    }
    if a.Str? && b.Str? && a != b {
      LexLessTotal(a.s, b.s);
    }
  }

  /** If `a` goes before `c`, every `b` goes after `a` or before `c`. */
  lemma BeforeSplits(a: SortValue, b: SortValue, c: SortValue, asc: bool)
    ensures Before(a, c, asc) ==> Before(a, b, asc) || Before(b, c, asc)
  {
    LessStrictTotalOrder(a, b, c);
    LessStrictTotalOrder(c, b, a);
    LessStrictTotalOrder(a, c, b);
    LessStrictTotalOrder(b, a, c);
    LessStrictTotalOrder(b, c, a);
    LessStrictTotalOrder(c, a, b);
  }

  lemma BeforeAsymmetric(a: SortValue, b: SortValue, asc: bool)
    requires Before(a, b, asc)
    ensures !Before(b, a, asc)
  {
    LessStrictTotalOrder(a, b, a);
    LessStrictTotalOrder(b, a, b);
  }

  lemma {:induction false} InsertOrdered<T>(x: T, s: seq<T>, key: T -> SortValue, asc: bool)
    requires Ordered(s, key, asc)
    ensures Ordered(Insert(x, s, key, asc), key, asc)
  {
    var r := Insert(x, s, key, asc);
    if s == [] {
    } else if Before(key(s[0]), key(x), asc) {
      var rest := Insert(x, s[1..], key, asc);
      InsertOrdered(x, s[1..], key, asc);
      InsertPermutes(x, s[1..], key, asc);
      assert r == [s[0]] + rest;
      forall j | 0 < j < |r|
        ensures !Before(key(r[j]), key(s[0]), asc)
      {
        assert r[j] == rest[j - 1];
        assert r[j] in multiset(rest);
        if r[j] == x {
          BeforeAsymmetric(key(s[0]), key(x), asc);
        } else {
          assert r[j] in multiset(s[1..]);
          var m :| 0 <= m < |s[1..]| && s[1..][m] == r[j];
          assert s[m + 1] == r[j];
        }
      }
    } else {
      assert r == [x] + s;
      forall j | 0 < j < |r|
        ensures !Before(key(r[j]), key(x), asc)
      {
        assert r[j] == s[j - 1];
        if j > 1 {
          BeforeSplits(key(r[j]), key(s[0]), key(x), asc);
        }
      }
    }
  }

  /** The result of `Sort` is ordered by the key. */
  lemma {:induction false} SortOrdered<T>(s: seq<T>, key: T -> SortValue, asc: bool)
    ensures Ordered(Sort(s, key, asc), key, asc)
  {
    if s != [] {
      SortOrdered(s[1..], key, asc);
      InsertOrdered(s[0], Sort(s[1..], key, asc), key, asc);
    }
  }

  lemma BeforeIrreflexive(a: SortValue, asc: bool)
    ensures !Before(a, a, asc)
  {
    LessStrictTotalOrder(a, a, a);
  }

  lemma KeyClassCons<T>(h: T, t: seq<T>, key: T -> SortValue, k: SortValue)
    ensures KeyClass([h] + t, key, k) == (if key(h) == k then [h] else []) + KeyClass(t, key, k)
  {
    assert ([h] + t)[0] == h && ([h] + t)[1..] == t;
  }

  lemma {:induction false} KeyClassOfInsert<T>(x: T, s: seq<T>, key: T -> SortValue, asc: bool, k: SortValue)
    ensures KeyClass(Insert(x, s, key, asc), key, k)
         == (if key(x) == k then [x] else []) + KeyClass(s, key, k)
  {
    if s != [] && Before(key(s[0]), key(x), asc) {
      var rest := Insert(x, s[1..], key, asc);
      var own := if key(x) == k then [x] else [];
      var head := if key(s[0]) == k then [s[0]] else [];
      var tail := KeyClass(s[1..], key, k);
      BeforeIrreflexive(k, asc);
      assert own == [] || head == [];
      calc {
        KeyClass(Insert(x, s, key, asc), key, k);
        { assert Insert(x, s, key, asc) == [s[0]] + rest; }
        KeyClass([s[0]] + rest, key, k);
        { KeyClassCons(s[0], rest, key, k); }
        head + KeyClass(rest, key, k);
        { KeyClassOfInsert(x, s[1..], key, asc, k); }
        head + (own + tail);
        own + (head + tail);
        own + KeyClass(s, key, k);
      }
    } else {
      KeyClassOfInsertFront(x, s, key, asc, k);
    }
  }

  lemma KeyClassOfInsertFront<T>(x: T, s: seq<T>, key: T -> SortValue, asc: bool, k: SortValue)
    requires s == [] || !Before(key(s[0]), key(x), asc)
    ensures KeyClass(Insert(x, s, key, asc), key, k)
         == (if key(x) == k then [x] else []) + KeyClass(s, key, k)
  {
    assert Insert(x, s, key, asc) == [x] + s;
    KeyClassCons(x, s, key, k);
  }

  /** `Sort` is stable: for every key, the elements with that key keep their input order. */
  lemma {:induction false} SortStable<T>(s: seq<T>, key: T -> SortValue, asc: bool)
    ensures SameKeyOrder(s, Sort(s, key, asc), key)
  {
    forall k
      ensures KeyClass(Sort(s, key, asc), key, k) == KeyClass(s, key, k)
    {
      SortStableAt(s, key, asc, k);
    }
  }

  lemma {:induction false} SortStableAt<T>(s: seq<T>, key: T -> SortValue, asc: bool, k: SortValue)
    ensures KeyClass(Sort(s, key, asc), key, k) == KeyClass(s, key, k)
  {
    if s != [] {
      SortStableAt(s[1..], key, asc, k);
      KeyClassOfInsert(s[0], Sort(s[1..], key, asc), key, asc, k);
    }
  }

  lemma {:induction false} KeyClassOfUniform<T>(s: seq<T>, key: T -> SortValue, k: SortValue)
    requires forall i :: 0 <= i < |s| ==> key(s[i]) == k
    ensures KeyClass(s, key, k) == s
  {
    if s != [] {
      KeyClassOfUniform(s[1..], key, k);
    }
  }

  /** When every key is equal (the comparator always returns 0) the order is unchanged. */
  lemma UniformKeyKeepsOrder<T>(s: seq<T>, key: T -> SortValue, asc: bool, k: SortValue)
    requires forall i :: 0 <= i < |s| ==> key(s[i]) == k
    ensures Sort(s, key, asc) == s
  {
    var r := Sort(s, key, asc);
    forall i | 0 <= i < |r|
      ensures key(r[i]) == k
    {
      assert r[i] in multiset(s);
    }
    KeyClassOfUniform(r, key, k);
    KeyClassOfUniform(s, key, k);
    SortStableAt(s, key, asc, k);
  }

  /** Sorting input that is already ordered leaves it as it is. */
  lemma {:induction false} SortOfOrdered<T>(s: seq<T>, key: T -> SortValue, asc: bool)
    requires Ordered(s, key, asc)
    ensures Sort(s, key, asc) == s
  {
    if s != [] {
      assert Ordered(s[1..], key, asc);
      SortOfOrdered(s[1..], key, asc);
      if |s| > 1 {
        assert !Before(key(s[1]), key(s[0]), asc);
      }
      assert s == [s[0]] + s[1..];
    }
  }
}
