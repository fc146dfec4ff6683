/** The path helpers of utils.ts: dirname and basename split a path at its last '/', with
    `path.split('/')` followed by `slice(0, -1).join('/')` and `pop()`; filename and
    extname split the base name at its last '.' the same way, except that a name with no
    '.' is its own stem and has the empty extension. */
module JsPath {
  import opened Seqs

  /** All parts but the last, joined by sep. */
  function InitJoined(parts: seq<string>, sep: char): string
    requires |parts| >= 1
  {
    Join(parts[..|parts| - 1], sep)
  }

  /** With one part, that part; otherwise all parts but the last, joined by '.'. */
  function StemOf(parts: seq<string>): string
    requires |parts| >= 1
  {
    if |parts| == 1 then parts[0] else InitJoined(parts, '.')
  }

  /** With one part, ""; otherwise the last part. */
  function ExtOf(parts: seq<string>): string
    requires |parts| >= 1
  {
    if |parts| == 1 then "" else Last(parts)
  }

  /** Everything before the last '/', or "" when there is none. */
  function Dirname(path: string): string
  {
    InitJoined(Split(path, '/'), '/')
  }

  /** Everything after the last '/'. */
  function Basename(path: string): string
  {
    Last(Split(path, '/'))
  }

  /** A name without its last '.' and what follows; the whole name when it has no '.'. */
  function Stem(name: string): string
  {
    StemOf(Split(name, '.'))
  }

  /** What follows the last '.' of a name, or "" when it has none. */
  function Ext(name: string): string
  {
    ExtOf(Split(name, '.'))
  }

  /** The base name without its last extension; ".." is special-cased to "". */
  function Filename(path: string): string
  {
    if path == ".." then "" else Stem(Basename(path))
  }

  /** The text after the last '.' of the base name, or "" when it has none. */
  function Extname(path: string): string
  {
    Ext(Basename(path))
  }

  /** dirname and basename split a path at its last '/'. */
  lemma {:induction false} DirnameBasename(p: string)
    ensures '/' !in Basename(p)
    ensures '/' in p ==> Dirname(p) + "/" + Basename(p) == p
    ensures '/' !in p ==> Dirname(p) == "" && Basename(p) == p
  {
    BasenameHasNoSlash(p);
    if '/' in p {
      DirnameBasenameAtLastSlash(p);
    } else {
      assert Split(p, '/') == [p];
    }
  }

  lemma {:induction false} BasenameHasNoSlash(p: string)
    ensures '/' !in Basename(p)
  {
    var parts := Split(p, '/');
    assert '/' !in parts[|parts| - 1];
  }

  lemma {:induction false} DirnameBasenameAtLastSlash(p: string)
    requires '/' in p
    ensures Dirname(p) + "/" + Basename(p) == p
  {
    SplitLast(p, '/');
  }

  /** filename and extname split the base name at its last '.'. */
  lemma {:induction false} FilenameExtname(p: string)
    ensures Filename("..") == ""
    ensures '.' !in Extname(p)
    ensures p != ".." && '.' in Basename(p) ==> Filename(p) + "." + Extname(p) == Basename(p)
    ensures '.' !in Basename(p) ==> Filename(p) == Basename(p) && Extname(p) == ""
  {
    StemExt(Basename(p));
  }

  /** A name splits at its last '.' into its stem and its extension. */
  lemma {:induction false} StemExt(name: string)
    ensures '.' !in Ext(name)
    ensures '.' in name ==> Stem(name) + "." + Ext(name) == name
    ensures '.' !in name ==> Stem(name) == name && Ext(name) == ""
  {
    ExtHasNoDot(name);
    if '.' in name {
      StemExtAtLastDot(name);
    } else {
      assert Split(name, '.') == [name];
    }
  }

  lemma {:induction false} ExtHasNoDot(name: string)
    ensures '.' !in Ext(name)
  {
    var parts := Split(name, '.');
    assert '.' !in parts[|parts| - 1];
  }

  lemma {:induction false} StemExtAtLastDot(name: string)
    requires '.' in name
    ensures Stem(name) + "." + Ext(name) == name
  {
    SplitLast(name, '.');
    PartsAroundLastDot(name, Split(name, '.'));
  }

  /** Parts that join back to the name around their last '.' give its stem and extension. */
  lemma {:induction false} PartsAroundLastDot(name: string, parts: seq<string>)
    requires |parts| >= 2
    requires Join(parts[..|parts| - 1], '.') + ['.'] + Last(parts) == name
    ensures StemOf(parts) + "." + ExtOf(parts) == name
  {
  }
}
