/** The PHP path primitives the gallery script relies on: `dirname` (as the Zend engine
    computes it on Unix), the script's own `get_file_name` pattern, the extension
    `pathinfo` reports, and PHP's truthiness of strings. */
module PhpPath {
  import opened Wrappers
  import opened Seqs

  predicate IsSlash(c: char) { c == '/' }
  predicate NotSlash(c: char) { c != '/' }
  /** The separators get_file_name accepts: slash and backslash. */
  predicate IsSep(c: char) { c == '/' || c == '\\' }
  predicate NotSep(c: char) { c != '/' && c != '\\' }
  predicate NotDot(c: char) { c != '.' }

  /** s without its longest suffix of characters satisfying p. */
  function DropLastWhile(s: string, p: char -> bool): (r: string)
    ensures |r| <= |s| && r == s[..|r|]
    ensures forall i :: |r| <= i < |s| ==> p(s[i])
    ensures r == [] || !p(r[|r| - 1])
  {
    if s != [] && p(s[|s| - 1]) then DropLastWhile(s[..|s| - 1], p) else s
  }

  /** The suffix DropLastWhile removes is exactly a trailing run of p-characters. */
  lemma {:induction false} DropLastWhileIs(a: string, b: string, p: char -> bool)
    requires forall i :: 0 <= i < |b| ==> p(b[i])
    requires a == [] || !p(a[|a| - 1])
    ensures DropLastWhile(a + b, p) == a
  {
    var s := a + b;
    var r := DropLastWhile(s, p);
    assert a == s[..|a|];
  }

  /** PHP's `dirname`: drop trailing slashes, then the last name, then the slashes before
      it; "." when no slash is left and "/" when only slashes were. The empty path stays
      empty. */
  function PhpDirname(path: string): string
  {
    if path == "" then ""
    else
      var a := DropLastWhile(path, IsSlash);
      if a == "" then "/"
      else
        var b := DropLastWhile(a, NotSlash);
        if b == "" then "."
        else
          var c := DropLastWhile(b, IsSlash);
          if c == "" then "/" else c
  }

  /** A measure that dirname decreases whenever it changes its argument. */
  function DirDepth(path: string): nat
  {
    |path| + (if path == "." || path == "/" then 0 else 1)
  }

  /** `dirname` either leaves a path alone or shortens it: climbing to the parent ends. */
  lemma {:induction false} DirnameShrinks(path: string)
    ensures PhpDirname(path) == path || DirDepth(PhpDirname(path)) < DirDepth(path)
  {
  }

  /** PHP's truthiness of a string: anything but "" and "0". */
  predicate Truthy(s: string)
  {
    s != "" && s != "0"
  }

  /** The last name of a path in get_file_name's reading: trailing slashes and backslashes
      are dropped, then everything up to the last separator. */
  function LastName(file: string): (name: string)
    ensures forall i :: 0 <= i < |name| ==> NotSep(name[i])
  {
    var t := DropLastWhile(file, IsSep);
    t[|DropLastWhile(t, NotSep)|..]
  }

  /** `get_file_name($file, $with_ext)`: the last name, or that name without its last
      extension (a leading dot starts an extension too, so ".jpg" has the empty stem). */
  function GetFileName(file: string, withExt: bool): string
  {
    var name := LastName(file);
    if withExt then name
    else
      var upToDot := DropLastWhile(name, NotDot);
      if upToDot == "" then name else upToDot[..|upToDot| - 1]
  }

  /** What follows the last dot of a path's last name, read back from the end: None when
      the start of the path or a slash comes before any dot. */
  function DotSuffix(s: string): Option<string>
  {
    if s == [] || s[|s| - 1] == '/' then None
    else if s[|s| - 1] == '.' then Some("")
    else match DotSuffix(s[..|s| - 1])
      case None => None
      case Some(e) => Some(e + [s[|s| - 1]])
  }

  /** `pathinfo($file, PATHINFO_EXTENSION)`: trailing slashes are skipped, then what follows
      the last dot of the base name (only '/' separates names here), or "" when the base
      name has no dot. */
  function PathinfoExtension(file: string): string
  {
    if file != [] && file[|file| - 1] == '/' then PathinfoExtension(file[..|file| - 1])
    else DotSuffix(file).GetOr("")
  }

  /** A found suffix is exactly what follows a dot at the end of the path, and holds
      neither dot nor slash; with no suffix, the last name has no dot. */
  lemma {:induction false} DotSuffixSplits(s: string)
    ensures match DotSuffix(s)
      case Some(e) => '.' !in e && '/' !in e && |e| < |s| && s == s[..|s| - |e| - 1] + "." + e
      case None => forall i :: |DropLastWhile(s, NotSlash)| <= i < |s| ==> s[i] != '.'
  {
    if s != [] && s[|s| - 1] != '/' && s[|s| - 1] != '.' {
      var init := s[..|s| - 1];
      DotSuffixSplits(init);
      assert DropLastWhile(s, NotSlash) == DropLastWhile(init, NotSlash);
      match DotSuffix(init)
      case Some(e) =>
        assert s == init + [s[|s| - 1]];
      case None =>
    }
  }

  /** The extension holds neither dot nor slash, and a non-empty one ends the path with
      its trailing slashes removed, after a dot. */
  lemma {:induction false} PathinfoExtensionSplits(file: string)
    ensures var ext := PathinfoExtension(file);
      var t := DropLastWhile(file, IsSlash);
      && '.' !in ext && '/' !in ext
      && (ext != "" ==> |ext| < |t| && t == t[..|t| - |ext| - 1] + "." + ext)
  {
    if file != [] && file[|file| - 1] == '/' {
      PathinfoExtensionSplits(file[..|file| - 1]);
    } else {
      DotSuffixSplits(file);
    }
  }

  /** The stem and the name: with a dot, the stem, a dot and a dot-free extension make up
      the name; without one, the stem is the name. Neither holds a separator. */
  lemma {:induction false} GetFileNameParts(file: string)
    ensures var name := GetFileName(file, true);
      var stem := GetFileName(file, false);
      && (forall i :: 0 <= i < |stem| ==> NotSep(stem[i]))
      && ('.' !in name ==> stem == name)
      && ('.' in name ==> exists ext :: stem + "." + ext == name && '.' !in ext)
  {
    var name := LastName(file);
    var stem := GetFileName(file, false);
    var upToDot := DropLastWhile(name, NotDot);
    if upToDot != "" {
      CutAtDot(name, upToDot);
      var ext := name[|upToDot|..];
      assert stem + "." + ext == name && '.' !in ext;
    }
  }

  /** Cutting a name at the dot that ends upToDot gives the stem before it and a dot-free
      extension after it. */
  lemma {:induction false} CutAtDot(name: string, upToDot: string)
    requires upToDot != "" && |upToDot| <= |name| && upToDot == name[..|upToDot|]
    requires forall i :: |upToDot| <= i < |name| ==> NotDot(name[i])
    requires !NotDot(upToDot[|upToDot| - 1])
    ensures var stem, ext := upToDot[..|upToDot| - 1], name[|upToDot|..];
      && stem + "." + ext == name && '.' !in ext
      && forall i :: 0 <= i < |stem| ==> stem[i] == name[i]
  {
    var ext := name[|upToDot|..];
    assert forall i :: 0 <= i < |ext| ==> ext[i] == name[|upToDot| + i];
    assert name[|upToDot| - 1] == '.';
    SplitAround(name, |upToDot| - 1);
  }

  /** The name of "." with its extension is "." itself. */
  lemma {:induction false} GetFileNameOfDot()
    ensures GetFileName(".", true) == "."
  {
    assert DropLastWhile(".", IsSep) == ".";
    assert DropLastWhile(".", NotSep) == "";
  }

  /** A path in the form `decode_target` produces: "." for the root, else "./" and the
      first n parts joined by '/'. */
  function AncestorPath(parts: seq<string>, n: nat): string
    requires n <= |parts|
  {
    if n == 0 then "." else "./" + Join(parts[..n], '/')
  }

  /** The parts decode_target keeps: non-empty, without separators, neither "." nor "..". */
  predicate ValidParts(parts: seq<string>)
  {
    forall i :: 0 <= i < |parts| ==> parts[i] != "" && parts[i] != "." && parts[i] != ".."
                                      && (forall j :: 0 <= j < |parts[i]| ==> NotSep(parts[i][j]))
  }

  lemma {:induction false} JoinEndsWithLast(parts: seq<string>)
    requires |parts| >= 1 && parts[|parts| - 1] != ""
    ensures Join(parts, '/') != [] && Join(parts, '/')[|Join(parts, '/')| - 1] == Last(parts)[|Last(parts)| - 1]
  {
    if |parts| >= 2 {
      JoinInitLast(parts, '/');
    }
  }

  /** The parent of q + "/" + name, for a name without slashes and a q not ending in one,
      is q. */
  lemma {:induction false} DirnameOfChild(q: string, name: string)
    requires q != [] && q[|q| - 1] != '/'
    requires name != [] && forall j :: 0 <= j < |name| ==> name[j] != '/'
    ensures PhpDirname(q + "/" + name) == q
  {
    var p := q + "/" + name;
    DropLastWhileIs(p, [], IsSlash);
    assert p + [] == p;
    DropLastWhileIs(q + "/", name, NotSlash);
    DropLastWhileIs(q, "/", IsSlash);
  }

  /** A decoded path is its parent's path, a slash and its last part. */
  lemma {:induction false} AncestorPathSnoc(parts: seq<string>, n: nat)
    requires ValidParts(parts)
    requires 1 <= n <= |parts|
    ensures AncestorPath(parts, n) == AncestorPath(parts, n - 1) + "/" + parts[n - 1]
    ensures var q := AncestorPath(parts, n - 1); q != [] && q[|q| - 1] != '/'
  {
    var q := AncestorPath(parts, n - 1);
    if n >= 2 {
      JoinInitLast(parts[..n], '/');
      assert parts[..n][..n - 1] == parts[..n - 1];
      JoinEndsWithLast(parts[..n - 1]);
      assert q[|q| - 1] == Join(parts[..n - 1], '/')[|Join(parts[..n - 1], '/')| - 1];
    }
  }

  /** The parent of a decoded path is the path of one part fewer. */
  lemma {:induction false} DirnameOfAncestor(parts: seq<string>, n: nat)
    requires ValidParts(parts)
    requires 1 <= n <= |parts|
    ensures PhpDirname(AncestorPath(parts, n)) == AncestorPath(parts, n - 1)
    ensures AncestorPath(parts, n) != AncestorPath(parts, n - 1)
  {
    AncestorPathSnoc(parts, n);
    var last := parts[n - 1];
    assert last != "" && forall j :: 0 <= j < |last| ==> NotSep(last[j]);
    DirnameOfChild(AncestorPath(parts, n - 1), last);
  }

  /** The ancestors of a path, outermost first, as repeated `dirname` finds them. */
  function Ancestors(path: string): seq<string>
    decreases DirDepth(path)
  {
    DirnameShrinks(path);
    var parent := PhpDirname(path);
    if parent == path then [] else Ancestors(parent) + [parent]
  }

  lemma {:induction false} AncestorsStep(path: string)
    requires PhpDirname(path) != path
    ensures Ancestors(path) == Ancestors(PhpDirname(path)) + [PhpDirname(path)]
  {
  }

  /** The root "." has no ancestors. */
  lemma {:induction false} AncestorsOfRoot()
    ensures PhpDirname(".") == "."
    ensures Ancestors(".") == []
  {
    assert DropLastWhile(".", IsSlash) == ".";
    assert DropLastWhile(".", NotSlash) == "";
  }

  /** The ancestors of a decoded path are the root and the paths of its proper prefixes. */
  lemma {:induction false} AncestorsOfDecoded(parts: seq<string>, n: nat)
    requires ValidParts(parts)
    requires n <= |parts|
    ensures |Ancestors(AncestorPath(parts, n))| == n
    ensures forall j :: 0 <= j < n ==> Ancestors(AncestorPath(parts, n))[j] == AncestorPath(parts, j)
  {
    AncestorsArePrefixes(parts, n);
    PrefixPathsAt(parts, n);
  }

  /** The paths of the first n prefixes of parts, shortest first. */
  function PrefixPaths(parts: seq<string>, n: nat): seq<string>
    requires n <= |parts| + 1
  {
    if n == 0 then [] else PrefixPaths(parts, n - 1) + [AncestorPath(parts, n - 1)]
  }

  lemma {:induction false} AncestorsArePrefixes(parts: seq<string>, n: nat)
    requires ValidParts(parts)
    requires n <= |parts|
    ensures Ancestors(AncestorPath(parts, n)) == PrefixPaths(parts, n)
  {
    var chain := PrefixPaths(parts, n + 1);
    PrefixPathsAt(parts, n + 1);
    AncestorsOfRoot();
    forall i | 1 <= i < |chain|
      ensures PhpDirname(chain[i]) == chain[i - 1] && chain[i] != chain[i - 1]
    {
      DirnameOfAncestor(parts, i);
    }
    AncestorsOfChain(chain);
    assert chain[..n] == PrefixPaths(parts, n);
  }

  /** Along a chain of paths, each the parent of the next and starting at a fixed point of
      dirname, the ancestors of the last are all the others. */
  lemma {:induction false} AncestorsOfChain(chain: seq<string>)
    requires |chain| >= 1 && PhpDirname(chain[0]) == chain[0]
    requires forall i :: 1 <= i < |chain| ==> PhpDirname(chain[i]) == chain[i - 1] && chain[i] != chain[i - 1]
    ensures Ancestors(Last(chain)) == chain[..|chain| - 1]
  {
    var k := |chain| - 1;
    if k == 0 {
      assert Ancestors(chain[0]) == [];
    } else {
      var init := chain[..k];
      assert Last(init) == chain[k - 1];
      AncestorsOfChain(init);
      AncestorsStep(chain[k]);
      assert chain[..k] == init[..k - 1] + [chain[k - 1]];
    }
  }

  lemma {:induction false} PrefixPathsAt(parts: seq<string>, n: nat)
    requires n <= |parts| + 1
    ensures |PrefixPaths(parts, n)| == n
    ensures forall j :: 0 <= j < n ==> PrefixPaths(parts, n)[j] == AncestorPath(parts, j)
  {
    if n > 0 {
      PrefixPathsAt(parts, n - 1);
      var a, b := PrefixPaths(parts, n), PrefixPaths(parts, n - 1);
      forall j | 0 <= j < n
        ensures a[j] == AncestorPath(parts, j)
      {
        if j < n - 1 {
          assert a[j] == b[j];
        }
      }
    }
  }

  /** The last name of a decoded path is its last part. */
  lemma {:induction false} LastNameOfAncestor(parts: seq<string>, n: nat)
    requires ValidParts(parts)
    requires 1 <= n <= |parts|
    ensures LastName(AncestorPath(parts, n)) == parts[n - 1]
  {
    var p := AncestorPath(parts, n);
    var last := parts[n - 1];
    var prefix := if n == 1 then "./" else "./" + Join(parts[..n - 1], '/') + "/";
    if n >= 2 {
      JoinInitLast(parts[..n], '/');
      assert parts[..n][..n - 1] == parts[..n - 1];
    }
    assert p == prefix + last;
    DropLastWhileIs(p, [], IsSep);
    assert p + [] == p;
    DropLastWhileIs(prefix, last, NotSep);
  }
}
