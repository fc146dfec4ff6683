/** Python's `sorted` on strings and on values with a string key: a stable sort in the
    code-point order Python compares `str` values in. */
module PySort {

  /** `a < b` on Python strings: at the first difference the smaller code point wins, and a
      proper prefix comes first. */
  function Less(a: string, b: string): bool
  {
    if a == [] then b != []
    else if b == [] then false
    else if a[0] != b[0] then a[0] < b[0]
    else Less(a[1..], b[1..])
  }

  /** No two strings are each less than the other. */
  lemma {:induction false} LessAsymmetric(a: string, b: string)
    ensures !(Less(a, b) && Less(b, a))
  {
    if a != [] && b != [] && a[0] == b[0] {
      LessAsymmetric(a[1..], b[1..]);
    }
  }

  /** Of two different strings one is less than the other. */
  lemma {:induction false} LessTotal(a: string, b: string)
    ensures a == b || Less(a, b) || Less(b, a)
  {
    if a != [] && b != [] && a[0] == b[0] {
      LessTotal(a[1..], b[1..]);
      if a[1..] == b[1..] {
        assert a == [a[0]] + a[1..] && b == [b[0]] + b[1..];
      }
    }
  }

  /** Neighbours are in order: no element's key is less than its predecessor's. */
  predicate SortedBy<T>(s: seq<T>, key: T -> string)
  {
    forall i :: 0 < i < |s| ==> !Less(key(s[i]), key(s[i - 1]))
  }

  /** x placed before the first element whose key is not less than its own. */
  function Insert<T>(x: T, s: seq<T>, key: T -> string): (r: seq<T>)
    ensures |r| == |s| + 1
    ensures r[0] == x || (s != [] && r[0] == s[0])
  {
    if s == [] then [x]
    else if !Less(key(s[0]), key(x)) then [x] + s
    else [s[0]] + Insert(x, s[1..], key)
  }

  /** Inserting into a sorted sequence keeps it sorted and adds exactly x. */
  lemma {:induction false} InsertSorted<T>(x: T, s: seq<T>, key: T -> string)
    requires SortedBy(s, key)
    ensures SortedBy(Insert(x, s, key), key)
    ensures multiset(Insert(x, s, key)) == multiset(s) + multiset{x}
  {
    if s != [] && Less(key(s[0]), key(x)) {
      var rest := Insert(x, s[1..], key);
      assert SortedBy(s[1..], key) by {
        forall i | 0 < i < |s[1..]|
          ensures !Less(key(s[1..][i]), key(s[1..][i - 1]))
        {
          assert s[1..][i] == s[i + 1] && s[1..][i - 1] == s[i];
        }
      }
      InsertSorted(x, s[1..], key);
      LessAsymmetric(key(s[0]), key(x));
      var r := [s[0]] + rest;
      forall i | 0 < i < |r|
        ensures !Less(key(r[i]), key(r[i - 1]))
      {
        if i > 1 {
          assert r[i] == rest[i - 1] && r[i - 1] == rest[i - 2];
        }
      }
      assert s == [s[0]] + s[1..];
    } else if s != [] {
      var r := [x] + s;
      forall i | 0 < i < |r|
        ensures !Less(key(r[i]), key(r[i - 1]))
      {
        if i > 1 {
          assert r[i] == s[i - 1] && r[i - 1] == s[i - 2];
        }
      }
    }
  }

  /** `sorted(s, key=key)`: insertion sort, inserting earlier elements in front of equal ones. */
  function Sort<T>(s: seq<T>, key: T -> string): (r: seq<T>)
    ensures |r| == |s|
  {
    if s == [] then [] else Insert(s[0], Sort(s[1..], key), key)
  }

  /** The result is in key order and holds the same elements as the input. */
  lemma {:induction false} SortSortsAndPermutes<T>(s: seq<T>, key: T -> string)
    ensures SortedBy(Sort(s, key), key)
    ensures multiset(Sort(s, key)) == multiset(s)
  {
    if s != [] {
      SortSortsAndPermutes(s[1..], key);
      InsertSorted(s[0], Sort(s[1..], key), key);
      assert s == [s[0]] + s[1..];
    }
  }

  function Identity(s: string): string
  {
    s
  }

  /** `sorted(s)` for a list of strings. */
  function SortStrings(s: seq<string>): (r: seq<string>)
    ensures |r| == |s|
  {
    Sort(s, Identity)
  }

  /** The least string of a non-empty list, as `sorted(s)[0]` gives it. */
  function Least(s: seq<string>): string
    requires s != []
  {
    SortStrings(s)[0]
  }

  /** The first of a sorted list of strings is one of them and no other is less. */
  lemma {:induction false} LeastIsMinimum(s: seq<string>)
    requires s != []
    ensures Least(s) in s
    ensures forall x :: x in s ==> !Less(x, Least(s))
  {
    SortSortsAndPermutes(s, Identity);
    var r := SortStrings(s);
    assert r[0] in multiset(r);
    SortedLeast(r);
    forall x | x in s
      ensures !Less(x, r[0])
    {
      assert x in multiset(r);
    }
  }

  /** In a sorted list of strings nothing is less than the first. */
  lemma {:induction false} SortedLeast(r: seq<string>)
    requires r != [] && SortedBy(r, Identity)
    ensures forall x :: x in r ==> !Less(x, r[0])
  {
    LessAsymmetric(r[0], r[0]);
    if |r| > 1 {
      var t := r[1..];
      assert SortedBy(t, Identity) by {
        forall i | 0 < i < |t|
          ensures !Less(Identity(t[i]), Identity(t[i - 1]))
        {
          assert t[i] == r[i + 1] && t[i - 1] == r[i];
        }
      }
      SortedLeast(t);
      assert !Less(Identity(r[1]), Identity(r[0]));
      forall x | x in r
        ensures !Less(x, r[0])
      {
        if x != r[0] {
          assert x in t;
          LessTransitiveNot(x, r[1], r[0]);
        }
      }
    }
  }

  /** If neither a < b nor b < c then not a < c. */
  lemma {:induction false} LessTransitiveNot(a: string, b: string, c: string)
    requires !Less(a, b) && !Less(b, c)
    ensures !Less(a, c)
  {
    if a != [] && b != [] && c != [] && a[0] == b[0] && b[0] == c[0] {
      LessTransitiveNot(a[1..], b[1..], c[1..]);
    }
  }
}
