/** Splitting and joining sequences at a separator, the way JavaScript's `split`/`join`
    and PHP's `explode`/`implode` do it with a one-element separator. */
module Seqs {

  function Last<T>(s: seq<T>): T
    requires |s| > 0
  {
    s[|s| - 1]
  }

  /** Position of the first occurrence of x in s. */
  function IndexOf<T(==)>(s: seq<T>, x: T): (i: nat)
    requires x in s
    ensures i < |s| && s[i] == x && x !in s[..i]
  {
    if s[0] == x then 0
    else
      var j := IndexOf(s[1..], x);
      assert s[..1 + j] == [s[0]] + s[1..][..j];
      1 + j
  }

  lemma {:induction false} IndexOfIs<T>(s: seq<T>, x: T, j: nat)
    requires j < |s| && s[j] == x && x !in s[..j]
    ensures x in s && IndexOf(s, x) == j
  {
    var i := IndexOf(s, x);
    assert forall k :: 0 <= k < j ==> s[..j][k] == s[k];
    assert forall k :: 0 <= k < i ==> s[..i][k] == s[k];
  }

  /** The parts of s between separators; there is always at least one part, and no
      part contains the separator. */
  function Split<T(==)>(s: seq<T>, sep: T): (parts: seq<seq<T>>)
    ensures |parts| >= 1
    ensures forall i :: 0 <= i < |parts| ==> sep !in parts[i]
    ensures |parts| == 1 <==> sep !in s
    decreases |s|
  {
    if sep !in s then [s]
    else
      var i := IndexOf(s, sep);
      [s[..i]] + Split(s[i + 1..], sep)
  }

  /** The parts, with one separator between each two neighbours. */
  function Join<T>(parts: seq<seq<T>>, sep: T): seq<T>
  {
    if |parts| == 0 then []
    else if |parts| == 1 then parts[0]
    else parts[0] + [sep] + Join(parts[1..], sep)
  }

  /** Joining the parts of a split gives back the original sequence. */
  lemma {:induction false} JoinSplit<T>(s: seq<T>, sep: T)
    ensures Join(Split(s, sep), sep) == s
    decreases |s|
  {
    if sep in s {
      var i := IndexOf(s, sep);
      var rest := s[i + 1..];
      JoinSplit(rest, sep);
      JoinCons(s[..i], Split(rest, sep), sep);
      SplitAround(s, i);
    }
  }

  lemma {:induction false} SplitAround<T>(s: seq<T>, i: nat)
    requires i < |s|
    ensures s == s[..i] + [s[i]] + s[i + 1..]
  {
  }

  /** Putting one part in front adds that part and one separator. */
  lemma {:induction false} JoinCons<T>(p: seq<T>, parts: seq<seq<T>>, sep: T)
    requires |parts| >= 1
    ensures Join([p] + parts, sep) == p + [sep] + Join(parts, sep)
  {
    assert ([p] + parts)[1..] == parts;
  }

  /** Splitting a join of separator-free parts gives back the parts. */
  lemma {:induction false} SplitJoin<T>(parts: seq<seq<T>>, sep: T)
    requires |parts| >= 1
    requires forall i :: 0 <= i < |parts| ==> sep !in parts[i]
    ensures Split(Join(parts, sep), sep) == parts
  {
    if |parts| > 1 {
      var p0, tail := parts[0], parts[1..];
      assert parts == [p0] + tail;
      var rest := Join(tail, sep);
      JoinCons(p0, tail, sep);
      CutAt(p0, sep, rest);
      IndexOfIs(p0 + [sep] + rest, sep, |p0|);
      SplitJoin(tail, sep);
    }
  }

  lemma {:induction false} CutAt<T>(a: seq<T>, x: T, b: seq<T>)
    ensures var u := a + [x] + b;
      u[..|a|] == a && u[|a|] == x && u[|a| + 1..] == b
  {
  }

  /** Appending one part adds one separator and that part. */
  lemma {:induction false} JoinSnoc<T>(parts: seq<seq<T>>, last: seq<T>, sep: T)
    requires |parts| >= 1
    ensures Join(parts + [last], sep) == Join(parts, sep) + [sep] + last
  {
    if |parts| > 1 {
      assert (parts + [last])[1..] == parts[1..] + [last];
      JoinSnoc(parts[1..], last, sep);
    }
  }

  /** Joining all parts is joining all but the last, a separator, and the last. */
  lemma {:induction false} JoinInitLast<T>(parts: seq<seq<T>>, sep: T)
    requires |parts| >= 2
    ensures Join(parts[..|parts| - 1], sep) + [sep] + parts[|parts| - 1] == Join(parts, sep)
  {
    var init, last := parts[..|parts| - 1], parts[|parts| - 1];
    assert parts == init + [last];
    JoinSnoc(init, last, sep);
  }

  /** Position of the last occurrence of x in s. */
  function LastIndexOf<T(==)>(s: seq<T>, x: T): (i: nat)
    requires x in s
    ensures i < |s| && s[i] == x && x !in s[i + 1..]
  {
    if s[|s| - 1] == x then |s| - 1
    else
      var i := LastIndexOf(s[..|s| - 1], x);
      assert s[i + 1..] == s[..|s| - 1][i + 1..] + [s[|s| - 1]];
      i
  }

  /** A sequence holding the separator is what precedes its last separator, the separator,
      and what follows it; the split's last part is what follows. */
  lemma {:induction false} SplitLast<T>(s: seq<T>, sep: T)
    requires sep in s
    ensures var parts := Split(s, sep);
      && |parts| >= 2 && sep !in Last(parts)
      && Join(parts[..|parts| - 1], sep) + [sep] + Last(parts) == s
  {
    var i := LastIndexOf(s, sep);
    var pre, t := s[..i], s[i + 1..];
    SplitAround(s, i);
    SplitSnoc(pre, sep, t);
    JoinSplit(pre, sep);
    SnocParts(Split(s, sep), Split(pre, sep), t);
  }

  lemma {:induction false} SnocParts<T>(parts: seq<seq<T>>, init: seq<seq<T>>, last: seq<T>)
    requires parts == init + [last]
    ensures |parts| >= 1 && parts[..|parts| - 1] == init && Last(parts) == last
  {
  }

  /** Joining adds no element besides the separator. */
  lemma {:induction false} JoinNotContains<T>(parts: seq<seq<T>>, sep: T, x: T)
    requires x != sep
    requires forall i :: 0 <= i < |parts| ==> x !in parts[i]
    ensures x !in Join(parts, sep)
  {
    if |parts| > 1 {
      JoinNotContains(parts[1..], sep, x);
    }
  }

  /** Splitting adds no element. */
  lemma {:induction false} SplitNotContains<T>(s: seq<T>, sep: T, x: T)
    requires x !in s
    ensures forall i :: 0 <= i < |Split(s, sep)| ==> x !in Split(s, sep)[i]
    decreases |s|
  {
    if sep in s {
      var i := IndexOf(s, sep);
      assert forall j :: 0 <= j < i ==> s[..i][j] == s[j];
      assert forall j :: i + 1 <= j < |s| ==> s[i + 1..][j - i - 1] == s[j];
      SplitNotContains(s[i + 1..], sep, x);
    }
  }

  /** A separator followed by a separator-free tail adds that tail as one more part. */
  lemma {:induction false} SplitSnoc<T>(s: seq<T>, sep: T, t: seq<T>)
    requires sep !in t
    ensures Split(s + [sep] + t, sep) == Split(s, sep) + [t]
    decreases |s|
  {
    var u := s + [sep] + t;
    if sep !in s {
      SplitFirst(u, sep, |s|, s, t);
      assert Split(t, sep) == [t];
      assert Split(s, sep) == [s];
    } else {
      var i := IndexOf(s, sep);
      var rest := s[i + 1..];
      SplitAround(s, i);
      SplitFirst(u, sep, i, s[..i], rest + [sep] + t);
      SplitSnoc(rest, sep, t);
      SplitFirst(s, sep, i, s[..i], rest);
      AppendAssoc([s[..i]], Split(rest, sep), [t]);
    }
  }

  /** Splitting at the first separator, given where it is. */
  lemma {:induction false} SplitFirst<T>(u: seq<T>, sep: T, i: nat, pre: seq<T>, post: seq<T>)
    requires sep !in pre && |pre| == i && u == pre + [sep] + post
    ensures Split(u, sep) == [pre] + Split(post, sep)
  {
    assert u[..i] == pre;
    IndexOfIs(u, sep, i);
    assert u[i + 1..] == post;
  }

  /** f applied to every element, in order. */
  function Map<T, U>(f: T -> U, s: seq<T>): (r: seq<U>)
    ensures |r| == |s|
    ensures forall i :: 0 <= i < |s| ==> r[i] == f(s[i])
  {
    seq(|s|, i requires 0 <= i < |s| => f(s[i]))
  }

  /** The first n elements, or all of them when there are fewer. */
  function Take<T>(s: seq<T>, n: nat): (r: seq<T>)
  {
    if |s| <= n then s else s[..n]
  }

  /** s starts with prefix. */
  predicate IsPrefix<T(==)>(prefix: seq<T>, s: seq<T>)
  {
    |prefix| <= |s| && s[..|prefix|] == prefix
  }

  /** The elements satisfying p, in order. */
  function Filter<T(!new)>(s: seq<T>, p: T -> bool): (r: seq<T>)
    ensures |r| <= |s|
    ensures forall x :: x in r <==> x in s && p(x)
  {
    if s == [] then [] else Filter(s[..|s| - 1], p) + (if p(s[|s| - 1]) then [s[|s| - 1]] else [])
  }

  lemma {:induction false} FilterSnoc<T(!new)>(s: seq<T>, x: T, p: T -> bool)
    ensures Filter(s + [x], p) == Filter(s, p) + (if p(x) then [x] else [])
  {
    assert (s + [x])[..|s|] == s;
  }

  /** Filtering keeps a sequence whose elements all satisfy p. */
  lemma {:induction false} FilterAll<T(!new)>(s: seq<T>, p: T -> bool)
    requires forall i :: 0 <= i < |s| ==> p(s[i])
    ensures Filter(s, p) == s
  {
    if s != [] {
      FilterAll(s[..|s| - 1], p);
    }
  }

  /** The position of the first element satisfying p, or |s| when there is none. */
  function FirstIndex<T>(s: seq<T>, p: T -> bool): (i: nat)
    ensures i <= |s|
    ensures forall j :: 0 <= j < i ==> !p(s[j])
    ensures i < |s| ==> p(s[i])
  {
    if s == [] then 0 else if p(s[0]) then 0 else 1 + FirstIndex(s[1..], p)
  }

  lemma {:induction false} AppendAssoc<T>(a: seq<T>, b: seq<T>, c: seq<T>)
    ensures (a + b) + c == a + (b + c)
  {
  }
}
