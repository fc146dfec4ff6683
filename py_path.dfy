/** The POSIX `os.path` functions the metadata scripts call (Python's posixpath and
    genericpath): basename, splitext, join and relpath, on '/'-separated paths. */
module PyPath {
  import opened Seqs

  /** `str.rfind` for one character: the last index of c in s, or -1 when there is none. */
  function RFind(s: string, c: char): (i: int)
    ensures -1 <= i < |s|
    ensures i >= 0 ==> s[i] == c
    ensures forall j :: i < j < |s| ==> s[j] != c
  {
    if s == [] then -1 else if s[|s| - 1] == c then |s| - 1 else RFind(s[..|s| - 1], c)
  }

  /** `os.path.basename`: what follows the last '/'. */
  function Basename(p: string): string
  {
    p[RFind(p, '/') + 1..]
  }

  /** The base name is a '/'-free suffix of the path, and all of a '/'-free path. */
  lemma {:induction false} BasenameSuffix(p: string)
    ensures '/' !in Basename(p)
    ensures |Basename(p)| <= |p| && p == p[..|p| - |Basename(p)|] + Basename(p)
    ensures '/' !in p ==> Basename(p) == p
    ensures |Basename(p)| < |p| ==> p[|p| - |Basename(p)| - 1] == '/'
  {
    var i := RFind(p, '/');
    assert forall k :: 0 <= k < |p| - i - 1 ==> Basename(p)[k] == p[i + 1 + k];
  }

  /** Some character of p[lo..hi] is not a dot. */
  predicate HasNonDot(p: string, lo: int, hi: int)
    requires 0 <= lo <= hi <= |p|
  {
    exists k :: lo <= k < hi && p[k] != '.'
  }

  /** `os.path.splitext`: the extension starts at the last dot of the last path component,
      unless only dots precede that dot within the component; then it is empty. */
  function Splitext(p: string): (string, string)
  {
    var sep := RFind(p, '/');
    var dot := RFind(p, '.');
    if dot > sep && HasNonDot(p, sep + 1, dot) then (p[..dot], p[dot..]) else (p, "")
  }

  /** Root and extension put back together give the path; a non-empty extension is a dot
      followed by neither dots nor slashes, and the root keeps a non-dot character of the
      last component. */
  lemma {:induction false} SplitextParts(p: string)
    ensures Splitext(p).0 + Splitext(p).1 == p
    ensures var ext := Splitext(p).1;
      ext == "" || (ext[0] == '.' && '.' !in ext[1..] && '/' !in ext)
    ensures Splitext(p).1 != "" ==> Splitext(p).0 != "" && Last(Splitext(p).0) != '/'
  {
    var sep := RFind(p, '/');
    var dot := RFind(p, '.');
    if dot > sep && HasNonDot(p, sep + 1, dot) {
      var ext := p[dot..];
      assert forall k :: 0 <= k < |ext| ==> ext[k] == p[dot + k];
      assert forall k :: 0 <= k < |ext| - 1 ==> ext[1..][k] == p[dot + 1 + k];
      assert p[dot - 1] != '/';
    }
  }

  /** A last component made of one leading dot and dot-free rest, such as ".jpg", has no
      extension: it is its own root. */
  lemma {:induction false} SplitextDotfile(p: string)
    requires |Basename(p)| >= 1 && Basename(p)[0] == '.' && '.' !in Basename(p)[1..]
    ensures Splitext(p) == (p, "")
  {
    BasenameSuffix(p);
    var b := Basename(p);
    var sep := RFind(p, '/');
    var at := |p| - |b|;
    assert sep == at - 1;
    assert p[at] == '.';
    forall k | at < k < |p|
      ensures p[k] != '.'
    {
      assert p[k] == b[1..][k - at - 1];
    }
    assert RFind(p, '.') == at;
  }

  /** `os.path.join` of two paths. */
  function JoinPath(a: string, b: string): string
  {
    if |b| > 0 && b[0] == '/' then b
    else if a == "" || a[|a| - 1] == '/' then a + b
    else a + "/" + b
  }

  /** Joining a non-empty '/'-free name onto any path gives a path whose base name is that name. */
  lemma {:induction false} BasenameOfJoin(path: string, n: string)
    requires n != "" && '/' !in n
    ensures Basename(JoinPath(path, n)) == n
  {
    var p := JoinPath(path, n);
    var at := |p| - |n|;
    assert p[at..] == n;
    forall k | at <= k < |p|
      ensures p[k] != '/'
    {
      assert p[k] == n[k - at];
    }
    if path == "" {
      assert RFind(p, '/') == -1;
    } else {
      assert p[at - 1] == '/';
      assert RFind(p, '/') == at - 1;
    }
  }

  /** A name relpath keeps: not empty and not ".". */
  predicate NamePart(c: string)
  {
    c != "" && c != "."
  }

  /** What a directory listing can return: a non-empty name without '/' other than ".". */
  predicate PlainName(n: string)
  {
    NamePart(n) && '/' !in n
  }

  /** The components of a path relpath compares: '/'-separated, without empty and "." ones. */
  function Parts(p: string): seq<string>
  {
    Filter(Split(p, '/'), NamePart)
  }

  /** The parts of a sequence ending in one more separator-free piece. */
  lemma {:induction false} PartsSnoc(q: string, n: string)
    requires '/' !in n
    ensures Parts(q + ['/'] + n) == Parts(q) + (if NamePart(n) then [n] else [])
  {
    SplitSnoc(q, '/', n);
    FilterSnoc(Split(q, '/'), n, NamePart);
  }

  /** Joining a plain name adds exactly that component. */
  lemma {:induction false} PartsJoin(p: string, n: string)
    requires PlainName(n)
    ensures Parts(JoinPath(p, n)) == Parts(p) + [n]
  {
    if p == "" {
      assert JoinPath(p, n) == n;
      assert Split(n, '/') == [n];
      assert Split(p, '/') == [p];
      FilterSnoc([], n, NamePart);
      FilterSnoc([], p, NamePart);
    } else if p[|p| - 1] == '/' {
      var q := p[..|p| - 1];
      assert p == q + ['/'] + [];
      assert JoinPath(p, n) == q + ['/'] + n;
      PartsSnoc(q, []);
      PartsSnoc(q, n);
    } else {
      assert JoinPath(p, n) == p + ['/'] + n;
      PartsSnoc(p, n);
    }
  }

  /** The names joined onto base one after the other. */
  function JoinNames(base: string, names: seq<string>): string
  {
    if names == [] then base else JoinPath(JoinNames(base, names[..|names| - 1]), Last(names))
  }

  lemma {:induction false} PartsJoinNamesStep(base: string, init: seq<string>, n: string)
    requires Parts(JoinNames(base, init)) == Parts(base) + init
    requires PlainName(n)
    ensures Parts(JoinNames(base, init + [n])) == Parts(base) + (init + [n])
  {
    assert (init + [n])[..|init|] == init;
    PartsJoin(JoinNames(base, init), n);
  }

  lemma {:induction false} PartsJoinNames(base: string, names: seq<string>)
    requires forall i :: 0 <= i < |names| ==> PlainName(names[i])
    ensures Parts(JoinNames(base, names)) == Parts(base) + names
  {
    if names != [] {
      var init, n := names[..|names| - 1], names[|names| - 1];
      PartsJoinNames(base, init);
      PartsJoinNamesStep(base, init, n);
      assert names == init + [n];
    }
  }

  /** The length of the longest common prefix. */
  function CommonLength(a: seq<string>, b: seq<string>): (n: nat)
    ensures n <= |a| && n <= |b|
    ensures a[..n] == b[..n]
  {
    if a == [] || b == [] || a[0] != b[0] then 0
    else
      var n := CommonLength(a[1..], b[1..]);
      assert a[..n + 1] == [a[0]] + a[1..][..n];
      assert b[..n + 1] == [b[0]] + b[1..][..n];
      1 + n
  }

  lemma {:induction false} CommonLengthOfExtension(a: seq<string>, rest: seq<string>)
    ensures CommonLength(a + rest, a) == |a|
  {
    if a != [] {
      assert (a + rest)[1..] == a[1..] + rest;
      CommonLengthOfExtension(a[1..], rest);
    }
  }

  /** k copies of x. */
  function Repeat(x: string, k: nat): (r: seq<string>)
    ensures |r| == k
    ensures forall i :: 0 <= i < k ==> r[i] == x
  {
    if k == 0 then [] else Repeat(x, k - 1) + [x]
  }

  /** `os.path.relpath(path, start)`: one ".." for each component of start beyond the common
      prefix, then the rest of path; "." when that is nothing. */
  function Relpath(path: string, start: string): string
  {
    var ps, ss := Parts(path), Parts(start);
    var n := CommonLength(ps, ss);
    var rel := Repeat("..", |ss| - n) + ps[n..];
    if rel == [] then "." else Seqs.Join(rel, '/')
  }

  /** A path whose components extend start's by rest is rest, relative to start. */
  lemma {:induction false} RelpathBelow(path: string, start: string, rest: seq<string>)
    requires Parts(path) == Parts(start) + rest
    ensures Relpath(path, start) == if rest == [] then "." else Seqs.Join(rest, '/')
  {
    var ss := Parts(start);
    CommonLengthOfExtension(ss, rest);
    assert CommonLength(Parts(path), ss) == |ss|;
    assert Parts(path)[|ss|..] == rest;
    assert Repeat("..", 0) == [];
    assert Repeat("..", |ss| - |ss|) + rest == rest;
  }

  /** A path relative to itself is ".". */
  lemma {:induction false} RelpathSelf(p: string)
    ensures Relpath(p, p) == "."
  {
    assert Parts(p) == Parts(p) + [];
    RelpathBelow(p, p, []);
  }

  /** Plain names joined onto a base are those names, '/'-joined, relative to the base. */
  lemma {:induction false} RelpathOfJoinNames(base: string, names: seq<string>)
    requires |names| > 0
    requires forall i :: 0 <= i < |names| ==> PlainName(names[i])
    ensures Relpath(JoinNames(base, names), base) == Seqs.Join(names, '/')
  {
    PartsJoinNames(base, names);
    RelpathBelow(JoinNames(base, names), base, names);
  }
}
