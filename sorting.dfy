/** The descending sorts discovery performs: instances preferred-first (the
    SortedVector built at visualstudio.cpp line 140) and MSVC toolchain folders
    latest-first (the std::sort at line 186). Both order by a key made of a
    weight and a text, larger first. */
module Sorting {
  import opened TextOrder

  datatype SortKey = SortKey(weight: int, text: string)

  /** a goes strictly before b: a heavier weight, or an equal weight and a
      lexicographically greater text. */
  predicate Precedes(a: SortKey, b: SortKey) {
    a.weight > b.weight || (a.weight == b.weight && LexLess(b.text, a.text))
  }

  /** Precedes is a strict total order on keys. */
  lemma PrecedesIsStrictTotalOrder(a: SortKey, b: SortKey, c: SortKey)
    ensures !Precedes(a, a)
    ensures Precedes(a, b) ==> !Precedes(b, a)
    ensures Precedes(a, b) && Precedes(b, c) ==> Precedes(a, c)
    ensures !Precedes(a, b) && !Precedes(b, a) ==> a == b
  {
    LexLessIrreflexive(a.text);
    LexLessTrichotomy(a.text, b.text);
    if Precedes(a, b) && Precedes(b, c) && a.weight == b.weight && b.weight == c.weight {
      LexLessTransitive(c.text, b.text, a.text);
    }
  }

  /** "Not after" is transitive as well, which is what insertion needs. */
  lemma NotPrecedesTransitive(a: SortKey, b: SortKey, c: SortKey)
    requires !Precedes(a, b) && !Precedes(b, c)
    ensures !Precedes(a, c)
  {
    PrecedesIsStrictTotalOrder(a, b, c);
    PrecedesIsStrictTotalOrder(b, c, a);
    PrecedesIsStrictTotalOrder(c, a, b);
    PrecedesIsStrictTotalOrder(a, c, b);
  }

  /** No element is strictly preferred to one placed before it. */
  ghost predicate SortedBy<T>(s: seq<T>, key: T -> SortKey) {
    forall i, j :: 0 <= i < j < |s| ==> !Precedes(key(s[j]), key(s[i]))
  }

  /** A sorted sequence stays sorted when an element no later element precedes is put in front. */
  lemma SortedCons<T>(h: T, t: seq<T>, key: T -> SortKey)
    requires SortedBy(t, key)
    requires forall k :: 0 <= k < |t| ==> !Precedes(key(t[k]), key(h))
    ensures SortedBy([h] + t, key)
  {
    var s := [h] + t;
    forall i, j | 0 <= i < j < |s| ensures !Precedes(key(s[j]), key(s[i])) {
      if i > 0 {
        assert s[i] == t[i - 1] && s[j] == t[j - 1];
      } else {
        assert s[j] == t[j - 1];
      }
    }
  }

  /** Places x in front of the first element it is not strictly behind. */
  function Insert<T>(x: T, s: seq<T>, key: T -> SortKey): (r: seq<T>)
    requires SortedBy(s, key)
    ensures SortedBy(r, key)
    ensures multiset(r) == multiset(s) + multiset{x}
  {
    if s == [] then [x]
    else if Precedes(key(s[0]), key(x)) then
      var rest := Insert(x, s[1..], key);
      InsertBehindHead(x, s, rest, key);
      assert s == [s[0]] + s[1..];
      [s[0]] + rest
    else
      InsertInFront(x, s, key);
      [x] + s
  }

  lemma InsertBehindHead<T>(x: T, s: seq<T>, rest: seq<T>, key: T -> SortKey)
    requires s != [] && SortedBy(s, key) && Precedes(key(s[0]), key(x))
    requires SortedBy(rest, key) && multiset(rest) == multiset(s[1..]) + multiset{x}
    ensures SortedBy([s[0]] + rest, key)
  {
    forall k | 0 <= k < |rest| ensures !Precedes(key(rest[k]), key(s[0])) {
      assert rest[k] in multiset(rest);
      if rest[k] == x {
        PrecedesIsStrictTotalOrder(key(s[0]), key(x), key(x));
      } else {
        assert rest[k] in multiset(s[1..]);
        var m :| 0 <= m < |s[1..]| && s[1..][m] == rest[k];
        assert s[m + 1] == rest[k];
      }
    }
    SortedCons(s[0], rest, key);
  }

  lemma InsertInFront<T>(x: T, s: seq<T>, key: T -> SortKey)
    requires s != [] && SortedBy(s, key) && !Precedes(key(s[0]), key(x))
    ensures SortedBy([x] + s, key)
  {
    forall k | 0 <= k < |s| ensures !Precedes(key(s[k]), key(x)) {
      if k > 0 {
        NotPrecedesTransitive(key(s[k]), key(s[0]), key(x));
      }
    }
    SortedCons(x, s, key);
  }

  /** Insertion sort, larger keys first: a permutation of s that is sorted by key. */
  function SortDescending<T>(s: seq<T>, key: T -> SortKey): (r: seq<T>)
    ensures SortedBy(r, key)
    ensures multiset(r) == multiset(s)
  {
    if s == [] then []
    else
      assert s == [s[0]] + s[1..];
      Insert(s[0], SortDescending(s[1..], key), key)
  }
}
