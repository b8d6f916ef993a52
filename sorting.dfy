/**
 * Sorting of query results by one field, ascending or descending, as `.sort({ [field]: 1 | -1 })`
 * does. Values are compared in the storage engine's cross-type order: a missing value first,
 * then numbers, then strings (compared character by character).
 */
module Sorting {

  datatype Key = Missing | Num(n: int) | Str(s: string)

  /** Lexicographic order on strings. */
  predicate LexLe(a: string, b: string)
  {
    a == [] || (b != [] && (a[0] < b[0] || (a[0] == b[0] && LexLe(a[1..], b[1..]))))
  }

  predicate KeyLe(a: Key, b: Key)
  {
    match (a, b)
    case (Missing, _) => true
    case (Num(x), Missing) => false
    case (Num(x), Num(y)) => x <= y
    case (Num(_), Str(_)) => true
    case (Str(_), Missing) => false
    case (Str(_), Num(_)) => false
    case (Str(x), Str(y)) => LexLe(x, y)
  }

  lemma {:induction false} LexLeTotal(a: string, b: string)
    ensures LexLe(a, b) || LexLe(b, a)
  {
    if a != [] && b != [] && a[0] == b[0] {
      LexLeTotal(a[1..], b[1..]);
    }
  }

  lemma {:induction false} LexLeTransitive(a: string, b: string, c: string)
    requires LexLe(a, b) && LexLe(b, c)
    ensures LexLe(a, c)
  {
    if a != [] && b != [] && c != [] && a[0] == b[0] && b[0] == c[0] {
      LexLeTransitive(a[1..], b[1..], c[1..]);
    }
  }

  lemma KeyLeTotal(a: Key, b: Key)
    ensures KeyLe(a, b) || KeyLe(b, a)
  {
    if a.Str? && b.Str? {
      LexLeTotal(a.s, b.s);
    }
  }

  lemma KeyLeTransitive(a: Key, b: Key, c: Key)
    requires KeyLe(a, b) && KeyLe(b, c)
    ensures KeyLe(a, c)
  {
    if a.Str? && b.Str? && c.Str? {
      LexLeTransitive(a.s, b.s, c.s);
    }
  }

  /** `a` may come before `b` in the requested direction. */
  predicate Before(a: Key, b: Key, ascending: bool)
  {
    if ascending then KeyLe(a, b) else KeyLe(b, a)
  }

  predicate SortedBy<T>(s: seq<T>, key: T -> Key, ascending: bool)
  {
    forall i, j :: 0 <= i < j < |s| ==> Before(key(s[i]), key(s[j]), ascending)
  }

  lemma BeforeTransitive(a: Key, b: Key, c: Key, ascending: bool)
    requires Before(a, b, ascending) && Before(b, c, ascending)
    ensures Before(a, c, ascending)
  {
    if ascending { KeyLeTransitive(a, b, c); } else { KeyLeTransitive(c, b, a); }
  }

  lemma ConsSorted<T>(h: T, s: seq<T>, key: T -> Key, ascending: bool)
    requires SortedBy(s, key, ascending)
    requires forall j :: 0 <= j < |s| ==> Before(key(h), key(s[j]), ascending)
    ensures SortedBy([h] + s, key, ascending)
  {
    var r := [h] + s;
    forall i, j | 0 <= i < j < |r| ensures Before(key(r[i]), key(r[j]), ascending) {
      assert r[j] == s[j - 1];
      if i > 0 {
        assert r[i] == s[i - 1];
      }
    }
  }

  /** Inserts `x` into a sorted sequence, in front of the first element it may precede. */
  function Insert<T>(x: T, s: seq<T>, key: T -> Key, ascending: bool): (r: seq<T>)
    requires SortedBy(s, key, ascending)
    ensures multiset(r) == multiset(s) + multiset{x}
    ensures forall i :: 0 <= i < |r| ==> r[i] == x || r[i] in s
    ensures SortedBy(r, key, ascending)
  {
    if s == [] then [x]
    else if Before(key(x), key(s[0]), ascending) then
      InsertHere(x, s, key, ascending);
      [x] + s
    else
      SortedSlice(s, key, ascending, 1, |s|);
      var rest := Insert(x, s[1..], key, ascending);
      InsertFurther(x, s, rest, key, ascending);
      [s[0]] + rest
  }

  /** Putting `x` in front of a sorted sequence whose head it may precede keeps it sorted. */
  lemma InsertHere<T>(x: T, s: seq<T>, key: T -> Key, ascending: bool)
    requires SortedBy(s, key, ascending) && s != [] && Before(key(x), key(s[0]), ascending)
    ensures SortedBy([x] + s, key, ascending)
  {
    forall j | 0 <= j < |s| ensures Before(key(x), key(s[j]), ascending) {
      if j > 0 {
        BeforeTransitive(key(x), key(s[0]), key(s[j]), ascending);
      }
    }
    ConsSorted(x, s, key, ascending);
  }

  /** When `x` goes after the head, the head followed by `x` inserted into the tail is sorted. */
  lemma InsertFurther<T>(x: T, s: seq<T>, rest: seq<T>, key: T -> Key, ascending: bool)
    requires SortedBy(s, key, ascending) && s != [] && !Before(key(x), key(s[0]), ascending)
    requires SortedBy(rest, key, ascending)
    requires multiset(rest) == multiset(s[1..]) + multiset{x}
    requires forall i :: 0 <= i < |rest| ==> rest[i] == x || rest[i] in s[1..]
    ensures multiset([s[0]] + rest) == multiset(s) + multiset{x}
    ensures forall i :: 0 <= i < |[s[0]] + rest| ==> ([s[0]] + rest)[i] == x || ([s[0]] + rest)[i] in s
    ensures SortedBy([s[0]] + rest, key, ascending)
  {
    assert s == [s[0]] + s[1..];
    KeyLeTotal(key(x), key(s[0]));
    forall j | 0 <= j < |rest| ensures Before(key(s[0]), key(rest[j]), ascending) {
      if rest[j] != x {
        var k :| 0 <= k < |s[1..]| && s[1..][k] == rest[j];
        assert s[k + 1] == rest[j];
      }
    }
    ConsSorted(s[0], rest, key, ascending);
  }

  /** An element that may precede the head of a sorted sequence is inserted in front of it. */
  lemma InsertInFront<T>(x: T, s: seq<T>, key: T -> Key, ascending: bool)
    requires SortedBy(s, key, ascending) && s != [] && Before(key(x), key(s[0]), ascending)
    ensures Insert(x, s, key, ascending) == [x] + s
  {
  }

  /**
   * The sort the model uses for `.sort`: the result is ordered by `key` in the requested
   * direction and holds exactly the input's elements. The storage engine leaves the order
   * of equal keys unspecified; this one is a particular choice.
   */
  function SortBy<T>(s: seq<T>, key: T -> Key, ascending: bool): (r: seq<T>)
    ensures multiset(r) == multiset(s)
    ensures SortedBy(r, key, ascending)
  {
    if s == [] then []
    else
      assert s == [s[0]] + s[1..];
      Insert(s[0], SortBy(s[1..], key, ascending), key, ascending)
  }

  lemma SortByLength<T>(s: seq<T>, key: T -> Key, ascending: bool)
    ensures |SortBy(s, key, ascending)| == |s|
  {
    assert |multiset(SortBy(s, key, ascending))| == |multiset(s)|;
  }

  /** Any run cut out of a sorted sequence is sorted. */
  lemma SortedSlice<T>(s: seq<T>, key: T -> Key, ascending: bool, lo: nat, hi: nat)
    requires SortedBy(s, key, ascending) && lo <= hi <= |s|
    ensures SortedBy(s[lo..hi], key, ascending)
  {
    forall i, j | 0 <= i < j < hi - lo
      ensures Before(key(s[lo..hi][i]), key(s[lo..hi][j]), ascending)
    {
      assert s[lo..hi][i] == s[lo + i] && s[lo..hi][j] == s[lo + j];
    }
  }
}
