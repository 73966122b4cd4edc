/**
 * Orders used by the store and by JavaScript: document ids are returned in
 * ascending id order (by code point) when a query names no other order,
 * and the default `Array.prototype.sort` compares strings by their UTF-16
 * code units.
 */
module Order {
  import opened Text

  /** Lexicographic order on strings by character code. */
  predicate Lt(a: string, b: string)
    decreases |a|
  {
    if |a| == 0 then |b| > 0
    else if |b| == 0 then false
    else if a[0] != b[0] then a[0] < b[0]
    else Lt(a[1..], b[1..])
  }

  lemma {:induction false} LtIrreflexive(a: string)
    ensures !Lt(a, a)
  {
    if |a| > 0 { LtIrreflexive(a[1..]); }
  }

  lemma {:induction false} LtTransitive(a: string, b: string, c: string)
    requires Lt(a, b) && Lt(b, c)
    ensures Lt(a, c)
    decreases |a|
  {
    if |a| > 0 && |b| > 0 && |c| > 0 && a[0] == b[0] && b[0] == c[0] {
      LtTransitive(a[1..], b[1..], c[1..]);
    }
  }

  lemma LtAsymmetric(a: string, b: string)
    requires Lt(a, b)
    ensures !Lt(b, a)
  {
    if Lt(b, a) {
      LtTransitive(a, b, a);
      LtIrreflexive(a);
    }
  }

  lemma {:induction false} LtTotal(a: string, b: string)
    requires a != b
    ensures Lt(a, b) || Lt(b, a)
    decreases |a|
  {
    if |a| > 0 && |b| > 0 && a[0] == b[0] {
      LtTotal(a[1..], b[1..]);
    }
  }

  ghost predicate StrictTotal<T(!new)>(lt: (T, T) -> bool)
  {
    (forall x :: !lt(x, x)) &&
    (forall x, y, z :: lt(x, y) && lt(y, z) ==> lt(x, z)) &&
    (forall x, y :: x != y ==> lt(x, y) || lt(y, x))
  }

  predicate IsLeast<T(==)>(x: T, s: set<T>, lt: (T, T) -> bool)
  {
    x in s && forall y :: y in s && y != x ==> lt(x, y)
  }

  lemma {:induction false} LeastExists<T(!new)>(s: set<T>, lt: (T, T) -> bool)
    requires s != {} && StrictTotal(lt)
    ensures exists x :: IsLeast(x, s, lt)
    decreases |s|
  {
    var y :| y in s;
    if s == {y} {
      assert IsLeast(y, s, lt);
    } else {
      LeastExists(s - {y}, lt);
      var x :| IsLeast(x, s - {y}, lt);
      if lt(x, y) { assert IsLeast(x, s, lt); } else { assert IsLeast(y, s, lt); }
    }
  }

  function Least<T(==,!new)>(s: set<T>, lt: (T, T) -> bool): (x: T)
    requires s != {} && StrictTotal(lt)
    ensures IsLeast(x, s, lt)
  {
    LeastExists(s, lt);
    var x :| IsLeast(x, s, lt); x
  }

  function Ordered<T(==,!new)>(s: set<T>, lt: (T, T) -> bool): (r: seq<T>)
    requires StrictTotal(lt)
    ensures forall x :: x in r <==> x in s
    ensures forall i, j :: 0 <= i < j < |r| ==> lt(r[i], r[j])
    ensures |r| == |s|
    decreases |s|
  {
    if s == {} then [] else
    var m := Least(s, lt);
    [m] + Ordered(s - {m}, lt)
  }

  lemma StringOrderStrictTotal()
    ensures StrictTotal(Lt)
  {
    forall x: string ensures !Lt(x, x) { LtIrreflexive(x); }
    forall x: string, y: string, z: string | Lt(x, y) && Lt(y, z) ensures Lt(x, z) { LtTransitive(x, y, z); }
    forall x: string, y: string | x != y ensures Lt(x, y) || Lt(y, x) { LtTotal(x, y); }
  }

  /** The least of a non-empty set of strings, under Lt. */
  function FirstKey(s: set<string>): (k: string)
    requires s != {}
    ensures k in s && forall j :: j in s && j != k ==> Lt(k, j)
  {
    StringOrderStrictTotal();
    Least(s, Lt)
  }

  /** A set of strings listed in ascending order. */
  function SortedKeys(s: set<string>): (r: seq<string>)
    ensures forall x :: x in r <==> x in s
    ensures forall i, j :: 0 <= i < j < |r| ==> Lt(r[i], r[j])
    ensures |r| == |s|
  {
    StringOrderStrictTotal();
    Ordered(s, Lt)
  }

  /**
   * The order of a query sorted on one string field: by that field, then
   * by document id. A pair is (field value, document id).
   */
  predicate PairLt(a: (string, string), b: (string, string))
  {
    Lt(a.0, b.0) || (a.0 == b.0 && Lt(a.1, b.1))
  }

  lemma PairOrderStrictTotal()
    ensures StrictTotal(PairLt)
  {
    forall x: (string, string) ensures !PairLt(x, x) {
      LtIrreflexive(x.0);
      LtIrreflexive(x.1);
    }
    forall x: (string, string), y: (string, string), z: (string, string) | PairLt(x, y) && PairLt(y, z)
      ensures PairLt(x, z)
    {
      if Lt(x.0, y.0) && Lt(y.0, z.0) { LtTransitive(x.0, y.0, z.0); }
      if x.0 == y.0 && y.0 == z.0 {
        LtIrreflexive(x.0);
        LtTransitive(x.1, y.1, z.1);
      }
    }
    forall x: (string, string), y: (string, string) | x != y ensures PairLt(x, y) || PairLt(y, x) {
      if x.0 != y.0 { LtTotal(x.0, y.0); } else { LtTotal(x.1, y.1); }
    }
  }

  /** Pairs listed by their first component, ties broken by the second. */
  function SortedPairs(s: set<(string, string)>): (r: seq<(string, string)>)
    ensures forall x :: x in r <==> x in s
    ensures forall i, j :: 0 <= i < j < |r| ==> PairLt(r[i], r[j])
    ensures |r| == |s|
  {
    PairOrderStrictTotal();
    Ordered(s, PairLt)
  }

  /**
   * The order of a query sorted descending on one number field: the larger
   * value first, ties broken by document id, also descending (the store
   * breaks ties in the direction of the last ordering). A pair is (field
   * value, document id).
   */
  predicate NewerFirst(a: (int, string), b: (int, string))
  {
    a.0 > b.0 || (a.0 == b.0 && Lt(b.1, a.1))
  }

  lemma NewerFirstStrictTotal()
    ensures StrictTotal(NewerFirst)
  {
    forall x: (int, string) ensures !NewerFirst(x, x) {
      LtIrreflexive(x.1);
    }
    forall x: (int, string), y: (int, string), z: (int, string) | NewerFirst(x, y) && NewerFirst(y, z)
      ensures NewerFirst(x, z)
    {
      if x.0 == y.0 && y.0 == z.0 {
        LtTransitive(z.1, y.1, x.1);
      }
    }
    forall x: (int, string), y: (int, string) | x != y ensures NewerFirst(x, y) || NewerFirst(y, x) {
      if x.0 == y.0 { LtTotal(x.1, y.1); }
    }
  }

  /** Pairs listed newest first. */
  function NewestFirst(s: set<(int, string)>): (r: seq<(int, string)>)
    ensures forall x :: x in r <==> x in s
    ensures forall i, j :: 0 <= i < j < |r| ==> NewerFirst(r[i], r[j])
    ensures |r| == |s|
  {
    NewerFirstStrictTotal();
    Ordered(s, NewerFirst)
  }

  // ---------------------------------------------------------------- the default sort order

  /** Lexicographic order on sequences of UTF-16 code units. */
  predicate UnitsLt(a: seq<int>, b: seq<int>)
    decreases |a|
  {
    if |a| == 0 then |b| > 0
    else if |b| == 0 then false
    else if a[0] != b[0] then a[0] < b[0]
    else UnitsLt(a[1..], b[1..])
  }

  /** The comparison of the default `sort()`: by UTF-16 code units. */
  predicate SortLt(a: string, b: string)
  {
    UnitsLt(Utf16(a), Utf16(b))
  }

  lemma {:induction false} UnitsLtAsymmetric(a: seq<int>, b: seq<int>)
    requires UnitsLt(a, b)
    ensures !UnitsLt(b, a)
    decreases |a|
  {
    if |a| > 0 && |b| > 0 && a[0] == b[0] {
      UnitsLtAsymmetric(a[1..], b[1..]);
    }
  }

  lemma {:induction false} UnitsLtTotal(a: seq<int>, b: seq<int>)
    requires a != b
    ensures UnitsLt(a, b) || UnitsLt(b, a)
    decreases |a|
  {
    if |a| > 0 && |b| > 0 && a[0] == b[0] {
      UnitsLtTotal(a[1..], b[1..]);
    }
  }

  /** The default sort order is a strict total order on strings. */
  lemma SortLtTotal(a: string, b: string)
    ensures !(SortLt(a, b) && SortLt(b, a))
    ensures a != b ==> SortLt(a, b) || SortLt(b, a)
    ensures !SortLt(a, a)
  {
    if SortLt(a, b) {
      UnitsLtAsymmetric(Utf16(a), Utf16(b));
    }
    if SortLt(a, a) {
      UnitsLtAsymmetric(Utf16(a), Utf16(a));
    }
    if a != b {
      if Utf16(a) == Utf16(b) {
        Utf16Injective(a, b);
      }
      UnitsLtTotal(Utf16(a), Utf16(b));
    }
  }

  /**
   * The two orders disagree once a character beyond U+FFFF meets one in
   * U+E000..U+FFFF: an emoji sorts before a full-width `!` by code units,
   * after it by code points.
   */
  lemma SortOrderIsNotCodePointOrder()
    ensures SortLt("\U{1F600}", "\U{FF01}") && Lt("\U{FF01}", "\U{1F600}")
  {
    assert Utf16("\U{1F600}") == [0xD83D, 0xDE00] by {
      assert CodeUnits('\U{1F600}') == [0xD83D, 0xDE00];
    }
    assert Utf16("\U{FF01}") == [0xFF01];
  }

  /** Below U+D800 a character is its own code unit, so the two orders agree there. */
  lemma {:induction false} SortOrderBelowSurrogates(a: string, b: string)
    requires forall i :: 0 <= i < |a| ==> a[i] as int < 0xD800
    requires forall i :: 0 <= i < |b| ==> b[i] as int < 0xD800
    ensures SortLt(a, b) <==> Lt(a, b)
    decreases |a|
  {
    if |a| > 0 && |b| > 0 {
      assert Utf16(a) == [a[0] as int] + Utf16(a[1..]);
      assert Utf16(b) == [b[0] as int] + Utf16(b[1..]);
      assert Utf16(a)[1..] == Utf16(a[1..]) && Utf16(b)[1..] == Utf16(b[1..]);
      SortOrderBelowSurrogates(a[1..], b[1..]);
    } else if |a| > 0 {
      assert |Utf16(a)| > 0;
    } else if |b| > 0 {
      assert |Utf16(b)| > 0;
    }
  }
}
