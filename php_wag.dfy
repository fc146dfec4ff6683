/** The static part of the PHP gallery script's `WAG` class (src/main/php/wag.php): key
    obfuscation, target sanitisation, the password rule, media classification and the
    functions that specify what the class's loops build. */
module PhpWag {
  import opened Wrappers
  import opened Seqs
  import opened Grouping
  import opened Text
  import opened Base64
  import opened PhpPath
  import opened FileSystem
  import opened Tables

  type Bytes = seq<Byte>

  // ---------------------------------------------------------------- keys

  /** `mangle_key`: base64 of the reversed key followed by the byte '0'. */
  function MangleKey(key: Bytes): string
  {
    Encode(Reverse(key) + [48])
  }

  /** `unmangle_key`: decode leniently, drop the last byte (if any) and reverse. */
  function UnmangleKey(key: string): (k: Bytes)
    ensures |PhpDecode(key)| > 0 ==> |k| == |PhpDecode(key)| - 1
    ensures |PhpDecode(key)| == 0 ==> k == []
  {
    var s := PhpDecode(key);
    Reverse(s[..if |s| > 0 then |s| - 1 else 0])
  }

  /** Unmangling undoes mangling, for every key. */
  lemma {:induction false} UnmangleMangle(key: Bytes)
    ensures UnmangleKey(MangleKey(key)) == key
  {
    var s := Reverse(key) + [48];
    DecodeEncode(s);
    assert s[..|s| - 1] == Reverse(key);
    ReverseReverse(key);
  }

  /** A mangled key is plain base64: four characters per started three bytes of key + '0',
      each from the alphabet or '='. */
  lemma {:induction false} MangleKeyShape(key: Bytes)
    ensures |MangleKey(key)| == 4 * ((|key| + 3) / 3)
    ensures forall i :: 0 <= i < |MangleKey(key)| ==> MangleKey(key)[i] == '=' || SextetValue(MangleKey(key)[i]).Some?
  {
    EncodeLength(Reverse(key) + [48]);
  }

  // ---------------------------------------------------------------- targets

  /** `str_replace('\\', '/', $target)`. */
  function ReplaceBackslashes(s: string): (r: string)
    ensures |r| == |s|
    ensures forall i :: 0 <= i < |s| ==> r[i] == (if s[i] == '\\' then '/' else s[i])
    ensures '\\' !in r
  {
    seq(|s|, i requires 0 <= i < |s| => if s[i] == '\\' then '/' else s[i])
  }

  /** `str_replace('\"', '', $target)`: the single-quoted PHP literal is a backslash and a
      double quote, and each such pair is removed, scanning left to right. */
  function RemoveBackslashQuotes(s: string): string
  {
    if |s| >= 2 && s[0] == '\\' && s[1] == '"' then RemoveBackslashQuotes(s[2..])
    else if s == [] then []
    else [s[0]] + RemoveBackslashQuotes(s[1..])
  }

  /** Once every backslash has become a slash, removing backslash-quote pairs changes nothing. */
  lemma {:induction false} RemoveBackslashQuotesIsDead(s: string)
    requires '\\' !in s
    ensures RemoveBackslashQuotes(s) == s
  {
    if s != [] {
      RemoveBackslashQuotesIsDead(s[1..]);
      assert s == [s[0]] + s[1..];
    }
  }

  /** decode_target keeps a part unless it is "", "." or "..". */
  predicate KeepPart(part: string)
  {
    part != "" && part != "." && part != ".."
  }

  /** The '/'-separated parts decode_target keeps from a target. */
  function DecodedParts(target: string): seq<string>
  {
    Filter(Split(RemoveBackslashQuotes(ReplaceBackslashes(target)), '/'), KeepPart)
  }

  /** The path decode_target forms: "./" and the kept parts, or "." when there are none. */
  function DecodedPath(target: string): string
  {
    var parsed := "./" + Join(DecodedParts(target), '/');
    if parsed == "./" then "." else parsed
  }

  /** `decode_target`: the formed path if it exists, else NULL. */
  function DecodeTargetSpec(fs: Tree, target: string): (r: Option<string>)
    ensures r.Some? ==> Exists(fs, r.value) && r.value == DecodedPath(target)
    ensures r.None? ==> !Exists(fs, DecodedPath(target))
  {
    var p := DecodedPath(target);
    if Exists(fs, p) then Some(p) else None
  }

  lemma {:induction false} JoinNonEmpty(parts: seq<string>)
    requires |parts| >= 1 && forall i :: 0 <= i < |parts| ==> parts[i] != ""
    ensures Join(parts, '/') != []
  {
    if |parts| >= 2 {
      JoinNonEmpty(parts[1..]);
    }
  }

  /** The parts kept are valid path parts, and the formed path is "." or "./" followed by
      them joined with '/'. */
  lemma {:induction false} DecodedPathShape(target: string)
    ensures ValidParts(DecodedParts(target))
    ensures DecodedPath(target) == AncestorPath(DecodedParts(target), |DecodedParts(target)|)
  {
    var t := RemoveBackslashQuotes(ReplaceBackslashes(target));
    RemoveBackslashQuotesIsDead(ReplaceBackslashes(target));
    var split := Split(t, '/');
    var parts := DecodedParts(target);
    SplitNotContains(t, '/', '\\');
    forall i | 0 <= i < |parts|
      ensures KeepPart(parts[i]) && forall j :: 0 <= j < |parts[i]| ==> NotSep(parts[i][j])
    {
      assert parts[i] in split;
      var k :| 0 <= k < |split| && split[k] == parts[i];
      assert '/' !in parts[i] && '\\' !in parts[i];
    }
    if parts != [] {
      JoinNonEmpty(parts);
      assert parts[..|parts|] == parts;
    }
  }

  /** `encode_target`: NULL, "" and "." become ""; a leading "./" is dropped. */
  function EncodeTarget(target: Option<string>): string
  {
    match target
    case None => ""
    case Some(t) =>
      if t == "" || t == "." then ""
      else if |t| >= 2 && t[0] == '.' && t[1] == '/' then t[2..]
      else t
  }

  lemma {:induction false} KeptPartsOfValid(parts: seq<string>)
    requires ValidParts(parts)
    ensures Filter(parts, KeepPart) == parts
  {
    FilterAll(parts, KeepPart);
  }

  /** Decoding what encode_target makes of a decoded target gives that target back. */
  lemma {:induction false} EncodeDecodeTarget(fs: Tree, target: string)
    requires DecodeTargetSpec(fs, target).Some?
    ensures DecodeTargetSpec(fs, EncodeTarget(DecodeTargetSpec(fs, target))) == DecodeTargetSpec(fs, target)
  {
    DecodedPathShape(target);
    var parts := DecodedParts(target);
    var t := DecodedPath(target);
    var e := EncodeTarget(Some(t));
    if parts == [] {
      assert e == "";
      assert DecodedParts("") == [] by {
        assert ReplaceBackslashes("") == "";
        assert Split("", '/') == [""];
      }
    } else {
      var joined := Join(parts, '/');
      assert parts[..|parts|] == parts;
      assert t == "./" + joined;
      assert e == joined;
      forall i | 0 <= i < |parts|
        ensures '/' !in parts[i] && '\\' !in parts[i]
      {
        assert forall j :: 0 <= j < |parts[i]| ==> NotSep(parts[i][j]);
      }
      JoinNotContains(parts, '/', '\\');
      assert ReplaceBackslashes(joined) == joined;
      RemoveBackslashQuotesIsDead(joined);
      SplitJoin(parts, '/');
      KeptPartsOfValid(parts);
    }
  }

  // ---------------------------------------------------------------- URL arguments

  function HexDigit(v: int): (c: char)
    requires 0 <= v < 16
  {
    if v < 10 then ('0' as int + v) as char else ('A' as int + (v - 10)) as char
  }

  function HexValue(c: char): (r: Option<int>)
    ensures r.Some? ==> 0 <= r.value < 16
  {
    if '0' <= c <= '9' then Some(c as int - '0' as int)
    else if 'A' <= c <= 'F' then Some(c as int - 'A' as int + 10)
    else if 'a' <= c <= 'f' then Some(c as int - 'a' as int + 10)
    else None
  }

  /** The characters `urlencode` leaves alone. */
  predicate UrlSafe(c: char)
  {
    ('0' <= c <= '9') || ('A' <= c <= 'Z') || ('a' <= c <= 'z') || c == '-' || c == '_' || c == '.'
  }

  /** `urlencode` of one byte: kept, '+' for a space, else '%' and two upper-case hex digits.
      PHP strings hold bytes; a character beyond a byte is taken modulo 256. */
  function UrlencodeChar(c: char): string
  {
    if UrlSafe(c) then [c]
    else if c == ' ' then "+"
    else ['%', HexDigit(c as int % 256 / 16), HexDigit(c as int % 16)]
  }

  /** `urlencode`. */
  function PhpUrlencode(s: string): string
  {
    if s == [] then [] else UrlencodeChar(s[0]) + PhpUrlencode(s[1..])
  }

  /** `urldecode`, which is also what PHP applies to every query-string value it puts in
      `$_GET`: '+' becomes a space and '%' with two hex digits becomes that byte. */
  function UrlDecode(s: string): string
  {
    if s == [] then []
    else if s[0] == '+' then " " + UrlDecode(s[1..])
    else if |s| >= 3 && s[0] == '%' && HexValue(s[1]).Some? && HexValue(s[2]).Some? then
      [(HexValue(s[1]).value * 16 + HexValue(s[2]).value) as char] + UrlDecode(s[3..])
    else [s[0]] + UrlDecode(s[1..])
  }

  /** A PHP string: every character is a byte. */
  predicate IsByteString(s: string)
  {
    forall i :: 0 <= i < |s| ==> s[i] as int < 256
  }

  lemma {:induction false} HexRoundTrip(v: int)
    requires 0 <= v < 16
    ensures HexValue(HexDigit(v)) == Some(v)
  {
  }

  lemma {:induction false} UrlDecodeEscaped(c: char, rest: string)
    requires c as int < 256 && !UrlSafe(c) && c != ' '
    ensures UrlDecode(UrlencodeChar(c) + rest) == [c] + UrlDecode(rest)
  {
    var hi, lo := c as int / 16, c as int % 16;
    var d1, d2 := HexDigit(hi), HexDigit(lo);
    HexRoundTrip(hi);
    HexRoundTrip(lo);
    assert UrlencodeChar(c) == ['%', d1, d2];
    var e := ['%', d1, d2] + rest;
    assert e[0] == '%' && e[1] == d1 && e[2] == d2 && e[3..] == rest;
    assert (hi * 16 + lo) as char == c;
  }

  lemma {:induction false} UrlDecodeChar(c: char, rest: string)
    requires c as int < 256
    ensures UrlDecode(UrlencodeChar(c) + rest) == [c] + UrlDecode(rest)
  {
    if UrlSafe(c) || c == ' ' {
      var e := UrlencodeChar(c) + rest;
      assert e[1..] == rest;
    } else {
      UrlDecodeEscaped(c, rest);
    }
  }

  /** `urldecode` undoes `urlencode` on PHP strings. */
  lemma {:induction false} UrlDecodeEncode(s: string)
    requires IsByteString(s)
    ensures UrlDecode(PhpUrlencode(s)) == s
  {
    if s != [] {
      UrlDecodeChar(s[0], PhpUrlencode(s[1..]));
      UrlDecodeEncode(s[1..]);
      assert s == [s[0]] + s[1..];
    }
  }

  /** `url_arg_target`: nothing for the root, else "&trg=" and the url-encoded target. */
  function UrlArgTarget(target: Option<string>): string
  {
    var encoded := EncodeTarget(target);
    if encoded == "" then "" else "&trg=" + PhpUrlencode(encoded)
  }

  /** The link argument of a decoded target leads back to it: the root gets no argument,
      and any other target an argument whose `$_GET` value decodes to the same target. */
  lemma {:induction false} UrlArgTargetRoundTrip(fs: Tree, target: string)
    requires DecodeTargetSpec(fs, target).Some?
    requires IsByteString(DecodeTargetSpec(fs, target).value)
    ensures var t := DecodeTargetSpec(fs, target).value;
      var arg := UrlArgTarget(Some(t));
      && (arg == "" <==> t == ".")
      && (arg != "" ==> |arg| > 5 && arg[..5] == "&trg=" && DecodeTargetSpec(fs, UrlDecode(arg[5..])) == Some(t))
  {
    var t := DecodeTargetSpec(fs, target).value;
    var e := EncodeTarget(Some(t));
    EncodeDecodeTarget(fs, target);
    DecodedPathShape(target);
    if e != "" {
      assert IsByteString(e);
      UrlDecodeEncode(e);
      assert PhpUrlencode(e) != [] by { assert |UrlencodeChar(e[0])| > 0; }
      assert ("&trg=" + PhpUrlencode(e))[5..] == PhpUrlencode(e);
    }
  }

  /** `url_arg_key` as written: the mangled key is appended without url-encoding. */
  function UrlArgKey(key: Option<Bytes>): string
  {
    match key
    case None => ""
    case Some(k) => "&key=" + MangleKey(k)
  }

  /** The mangled form of the one-byte key 0xF8 starts with '+'. */
  lemma {:induction false} MangledPlus()
    ensures MangleKey([248]) == "+DA="
  {
    assert Reverse([248]) + [48] == [248, 48];
    assert EncodedSextets([248, 48]) == [62, 3, 0];
    assert Chars([62, 3, 0]) == "+DA";
  }

  /** PHP's decoding of a query value turns its '+' into a space. */
  lemma {:induction false} PlusDecodesToSpace()
    ensures UrlDecode("+DA=") == " DA="
  {
    assert UrlDecode("=") == "=";
    assert UrlDecode("A=") == "A=";
    assert UrlDecode("DA=") == "DA=";
  }

  /** The lenient decoder skips the space and yields one byte. */
  lemma {:induction false} SpaceDecodesShort()
    ensures PhpDecode(" DA=") == [12]
  {
    assert Sextets("=") == [];
    assert Sextets("A=") == [0];
    assert Sextets("DA=") == [3, 0];
    assert Sextets(" DA=") == [3, 0];
  }

  /** The link argument url_arg_key writes for the one-byte key 0xF8 is "&key=+DA=", and the
      `$_GET` value PHP hands back for it, " DA=", unmangles to the empty key: a '+' of
      the base64 text turns into a space and the key is lost. */
  lemma {:induction false} UrlArgKeyLosesPlus()
    ensures UrlArgKey(Some([248])) == "&key=+DA="
    ensures UnmangleKey(UrlDecode("+DA=")) == []
  {
    MangledPlus();
    PlusDecodesToSpace();
    SpaceDecodesShort();
  }

  /** url_arg_key with the mangled key url-encoded, as process_passkey's http_build_query
      does it. */
  function UrlArgKeyEncoded(key: Option<Bytes>): string
  {
    match key
    case None => ""
    case Some(k) => "&key=" + PhpUrlencode(MangleKey(k))
  }

  /** With the key url-encoded, the `$_GET` value of the argument unmangles to the key. */
  lemma {:induction false} UrlArgKeyEncodedRoundTrip(key: Bytes)
    ensures var arg := UrlArgKeyEncoded(Some(key));
      arg[..5] == "&key=" && UnmangleKey(UrlDecode(arg[5..])) == key
  {
    var m := MangleKey(key);
    MangleKeyShape(key);
    forall i | 0 <= i < |m|
      ensures m[i] as int < 256
    {
      if m[i] != '=' {
        assert SextetValue(m[i]).Some?;
      }
    }
    UrlDecodeEncode(m);
    UnmangleMangle(key);
    assert ("&key=" + PhpUrlencode(m))[5..] == PhpUrlencode(m);
  }

  // ---------------------------------------------------------------- media

  /** `$photo_types` and `$video_types`: extension and MIME type, in declaration order. */
  const PhotoTypes: seq<(string, string)> :=
    [("jpg", "image/jpeg"), ("png", "image/png"), ("jpeg", "image/jpeg"), ("gif", "image/gif")]

  const VideoTypes: seq<(string, string)> :=
    [("webm", "video/webm"), ("mp4", "video/mp4"), ("mpeg4", "video/mp4"), ("m4v", "video/mp4")]

  /** `strtolower(pathinfo($file, PATHINFO_EXTENSION))`. */
  function LowerExt(file: string): string
  {
    AsciiLower(PathinfoExtension(file))
  }

  /** `is_photo`: a regular file with a photo extension. */
  predicate IsPhoto(fs: Tree, file: string)
  {
    IsFile(fs, file) && Lookup(PhotoTypes, LowerExt(file)).Some?
  }

  /** `is_video`: a regular file with a video extension. */
  predicate IsVideo(fs: Tree, file: string)
  {
    IsFile(fs, file) && Lookup(VideoTypes, LowerExt(file)).Some?
  }

  function PhotoTest(fs: Tree): string -> bool
  {
    f => IsPhoto(fs, f)
  }

  function VideoTest(fs: Tree): string -> bool
  {
    f => IsVideo(fs, f)
  }

  function MediaTest(fs: Tree): string -> bool
  {
    f => IsPhoto(fs, f) || IsVideo(fs, f)
  }

  /** `get_video_type`: the MIME type of a video extension, NULL for any other. */
  function GetVideoType(video: string): Option<string>
  {
    Lookup(VideoTypes, LowerExt(video))
  }

  /** The four photo and the four video extensions, case-insensitively, and the type
      each video extension gets. */
  lemma {:induction false} MediaTables(fs: Tree, file: string)
    ensures var ext := LowerExt(file);
      && (IsPhoto(fs, file) <==> IsFile(fs, file) && ext in {"jpg", "png", "jpeg", "gif"})
      && (IsVideo(fs, file) <==> IsFile(fs, file) && ext in {"webm", "mp4", "mpeg4", "m4v"})
      && (GetVideoType(file) == Some("video/webm") <==> ext == "webm")
      && (GetVideoType(file) == Some("video/mp4") <==> ext in {"mp4", "mpeg4", "m4v"})
      && (GetVideoType(file).None? <==> ext !in {"webm", "mp4", "mpeg4", "m4v"})
  {
    var ext := LowerExt(file);
    LookupOf4(PhotoTypes, ext);
    LookupOf4(VideoTypes, ext);
  }

  /** Nothing is both a photo and a video, and every video has a type. */
  lemma {:induction false} PhotoVideoDisjoint(fs: Tree, file: string)
    ensures !(IsPhoto(fs, file) && IsVideo(fs, file))
    ensures IsVideo(fs, file) ==> GetVideoType(file).Some?
  {
    MediaTables(fs, file);
  }

  /** `is_video_set`: some file of the stem is a video. */
  predicate HasVideo(fs: Tree, files: seq<string>)
  {
    exists i :: 0 <= i < |files| && IsVideo(fs, files[i])
  }

  /** The video set load_album_items stores: the stem's photos and videos, in order. */
  function VideoSetOf(fs: Tree, files: seq<string>): seq<string>
  {
    Filter(files, MediaTest(fs))
  }

  /** `get_video_rep`: the first photo of the set, else its first video, else NULL. */
  function VideoRep(fs: Tree, set_: seq<string>): Option<string>
  {
    var i := FirstIndex(set_, PhotoTest(fs));
    if i < |set_| then Some(set_[i])
    else
      var j := FirstIndex(set_, VideoTest(fs));
      if j < |set_| then Some(set_[j]) else None
  }

  /** The representative is the first photo when the set has one (the poster frame), and
      otherwise the first video; a set with a video always has one. */
  lemma {:induction false} VideoRepChoice(fs: Tree, set_: seq<string>)
    ensures (exists i :: 0 <= i < |set_| && IsPhoto(fs, set_[i])) ==>
      exists i :: 0 <= i < |set_| && VideoRep(fs, set_) == Some(set_[i]) && IsPhoto(fs, set_[i])
                  && forall j :: 0 <= j < i ==> !IsPhoto(fs, set_[j])
    ensures (forall i :: 0 <= i < |set_| ==> !IsPhoto(fs, set_[i])) ==>
      match VideoRep(fs, set_)
      case Some(r) => exists i :: 0 <= i < |set_| && r == set_[i] && IsVideo(fs, r)
                                  && forall j :: 0 <= j < i ==> !IsVideo(fs, set_[j])
      case None => !HasVideo(fs, set_)
  {
    var i := FirstIndex(set_, PhotoTest(fs));
    var j := FirstIndex(set_, VideoTest(fs));
    if i == |set_| && j < |set_| {
      assert IsVideo(fs, set_[j]);
    }
  }

  /** What one stem adds to `items_in_album`: its photos when it has no video, else its
      video set's representative. */
  function GroupItems(fs: Tree, files: seq<string>): seq<string>
  {
    if !HasVideo(fs, files) then Filter(files, PhotoTest(fs))
    else
      match VideoRep(fs, VideoSetOf(fs, files))
      case Some(r) => [r]
      case None => []
  }

  /** A stem with a video adds exactly one item, a member of its video set; a stem without
      adds exactly its photos, in order. Either way every item is a photo or a video. */
  lemma {:induction false} GroupItemsShape(fs: Tree, files: seq<string>)
    ensures HasVideo(fs, files) ==> |GroupItems(fs, files)| == 1
                                    && GroupItems(fs, files)[0] in VideoSetOf(fs, files)
    ensures !HasVideo(fs, files) ==> GroupItems(fs, files) == Filter(files, PhotoTest(fs))
    ensures forall x :: x in GroupItems(fs, files) ==> IsPhoto(fs, x) || IsVideo(fs, x)
  {
    if HasVideo(fs, files) {
      VideoRepFound(fs, files);
      VideoRepIn(fs, VideoSetOf(fs, files));
    }
  }

  /** A stem with a video has a representative. */
  lemma {:induction false} VideoRepFound(fs: Tree, files: seq<string>)
    requires HasVideo(fs, files)
    ensures VideoRep(fs, VideoSetOf(fs, files)).Some?
  {
    var k :| 0 <= k < |files| && IsVideo(fs, files[k]);
    var set_ := VideoSetOf(fs, files);
    assert files[k] in set_;
    var m :| 0 <= m < |set_| && set_[m] == files[k];
    var j := FirstIndex(set_, VideoTest(fs));
    assert j <= m;
  }

  /** The representative is a photo or a video of the set. */
  lemma {:induction false} VideoRepIn(fs: Tree, set_: seq<string>)
    ensures VideoRep(fs, set_).Some? ==> VideoRep(fs, set_).value in set_
    ensures VideoRep(fs, set_).Some? ==> IsPhoto(fs, VideoRep(fs, set_).value) || IsVideo(fs, VideoRep(fs, set_).value)
  {
  }

  // ---------------------------------------------------------------- album listing

  /** `scandir($album)`: "." and ".." and the directory's names. */
  function Scandir(fs: Tree, album: string): seq<string>
  {
    [".", ".."] + Names(fs, album)
  }

  function PathIn(album: string, name: string): string
  {
    album + "/" + name
  }

  /** load_album_items passes over "." and "..". */
  function SkipTest(): string -> bool
  {
    n => n == "." || n == ".."
  }

  /** Whether a listed name is a directory of the album. */
  function DirTest(fs: Tree, album: string): string -> bool
  {
    n => IsDir(fs, PathIn(album, n))
  }

  /** The listed names that are not passed over and are directories (wantDir) or are not,
      in listing order. */
  function Listed(names: seq<string>, skip: string -> bool, isDir: string -> bool, wantDir: bool): seq<string>
  {
    if names == [] then []
    else
      var n := names[|names| - 1];
      Listed(names[..|names| - 1], skip, isDir, wantDir) + (if !skip(n) && isDir(n) == wantDir then [n] else [])
  }

  /** The paths of the listed directories that are not passed over, in listing order. */
  function ListedPaths(names: seq<string>, skip: string -> bool, isDir: string -> bool, path: string -> string): seq<string>
  {
    if names == [] then []
    else
      var n := names[|names| - 1];
      ListedPaths(names[..|names| - 1], skip, isDir, path) + (if !skip(n) && isDir(n) then [path(n)] else [])
  }

  lemma {:induction false} ListedMembers(names: seq<string>, skip: string -> bool, isDir: string -> bool, wantDir: bool)
    ensures forall n :: n in Listed(names, skip, isDir, wantDir) <==> n in names && !skip(n) && isDir(n) == wantDir
  {
    if names != [] {
      var init := names[..|names| - 1];
      ListedMembers(init, skip, isDir, wantDir);
      assert names == init + [names[|names| - 1]];
    }
  }

  lemma {:induction false} ListedPathsMembers(names: seq<string>, skip: string -> bool, isDir: string -> bool, path: string -> string)
    ensures forall n :: n in names && !skip(n) && isDir(n) ==> path(n) in ListedPaths(names, skip, isDir, path)
    ensures forall p :: p in ListedPaths(names, skip, isDir, path) ==> exists n :: n in names && !skip(n) && isDir(n) && p == path(n)
  {
    if names != [] {
      var init := names[..|names| - 1];
      var last := names[|names| - 1];
      ListedPathsMembers(init, skip, isDir, path);
      assert names == init + [last];
      forall p | p in ListedPaths(names, skip, isDir, path)
        ensures exists n :: n in names && !skip(n) && isDir(n) && p == path(n)
      {
        if p !in ListedPaths(init, skip, isDir, path) {
          assert p == path(last);
        }
      }
    }
  }

  function PathMaker(album: string): string -> string
  {
    n => PathIn(album, n)
  }

  /** The sub-album paths load_album_items collects from a listing, in order. */
  function SubAlbums(fs: Tree, album: string, names: seq<string>): seq<string>
  {
    ListedPaths(names, SkipTest(), DirTest(fs, album), PathMaker(album))
  }

  /** The names of a listing that are neither "." nor ".." nor directories, in order. */
  function LooseFiles(fs: Tree, album: string, names: seq<string>): seq<string>
  {
    Listed(names, SkipTest(), DirTest(fs, album), false)
  }

  /** Every listed name other than "." and ".." is either a sub-album or a loose file:
      sub-albums are the paths of the directories, loose files the other names. */
  lemma {:induction false} ListingPartition(fs: Tree, album: string, names: seq<string>)
    ensures forall n :: n in names && n != "." && n != ".." && IsDir(fs, PathIn(album, n))
                        ==> PathIn(album, n) in SubAlbums(fs, album, names)
    ensures forall p :: p in SubAlbums(fs, album, names) ==>
                        exists n :: n in names && n != "." && n != ".." && IsDir(fs, PathIn(album, n)) && p == PathIn(album, n)
    ensures forall n :: n in LooseFiles(fs, album, names) <==>
                        n in names && n != "." && n != ".." && !IsDir(fs, PathIn(album, n))
  {
    ListedMembers(names, SkipTest(), DirTest(fs, album), false);
    ListedPathsMembers(names, SkipTest(), DirTest(fs, album), PathMaker(album));
  }

  /** The key `$file_map` buckets a name under: `get_file_name($file)`. */
  function StemKey(): string -> string
  {
    n => GetFileName(n, false)
  }

  /** The paths of the names with key k, in order. */
  function BucketPaths(names: seq<string>, key: string -> string, k: string, path: string -> string): seq<string>
  {
    if names == [] then []
    else
      var n := names[|names| - 1];
      BucketPaths(names[..|names| - 1], key, k, path) + (if key(n) == k then [path(n)] else [])
  }

  /** The paths of the stems ks, stem by stem. */
  function StemGroups(album: string, files: seq<string>, ks: seq<string>): (gs: seq<seq<string>>)
    ensures |gs| == |ks|
    ensures forall i :: 0 <= i < |ks| ==> gs[i] == BucketPaths(files, StemKey(), ks[i], PathMaker(album))
  {
    if ks == [] then []
    else StemGroups(album, files, ks[..|ks| - 1]) + [BucketPaths(files, StemKey(), ks[|ks| - 1], PathMaker(album))]
  }

  function GroupItemsEmit(fs: Tree): seq<string> -> seq<string>
  {
    g => GroupItems(fs, g)
  }

  function VideoSetEmit(fs: Tree): seq<string> -> seq<seq<string>>
  {
    g => if HasVideo(fs, g) then [VideoSetOf(fs, g)] else []
  }

  /** What the groups add to `items_in_album`, group after group. */
  function ItemsOf(fs: Tree, groups: seq<seq<string>>): seq<string>
  {
    Collect(groups, GroupItemsEmit(fs))
  }

  /** What the groups add to `video_sets_in_album`, group after group. */
  function VideoSetsOf(fs: Tree, groups: seq<seq<string>>): seq<seq<string>>
  {
    Collect(groups, VideoSetEmit(fs))
  }

  /** Only photos and videos reach `items_in_album`: other files are dropped. */
  lemma {:induction false} ItemsAreMedia(fs: Tree, groups: seq<seq<string>>)
    ensures forall x :: x in ItemsOf(fs, groups) ==> IsPhoto(fs, x) || IsVideo(fs, x)
  {
    if groups != [] {
      ItemsAreMedia(fs, groups[..|groups| - 1]);
      GroupItemsShape(fs, groups[|groups| - 1]);
    }
  }

  /** Every stored video set holds a video, and only photos and videos. */
  lemma {:induction false} VideoSetsAreMedia(fs: Tree, groups: seq<seq<string>>)
    ensures forall s :: s in VideoSetsOf(fs, groups) ==> HasVideo(fs, s)
                                                         && forall f :: f in s ==> IsPhoto(fs, f) || IsVideo(fs, f)
  {
    if groups != [] {
      VideoSetsAreMedia(fs, groups[..|groups| - 1]);
      var g := groups[|groups| - 1];
      if HasVideo(fs, g) {
        var k :| 0 <= k < |g| && IsVideo(fs, g[k]);
        var s := VideoSetOf(fs, g);
        assert g[k] in s;
      }
    }
  }

  function HoldsTest(item: string): seq<string> -> bool
  {
    s => item in s
  }

  /** `get_video_set`: the first stored set holding the item, or NULL. */
  function FirstSetWith(sets: seq<seq<string>>, item: string): (r: Option<seq<string>>)
    ensures r.Some? ==> r.value in sets && item in r.value
    ensures r.None? ==> forall s :: s in sets ==> item !in s
  {
    var i := FirstIndex(sets, HoldsTest(item));
    if i < |sets| then Some(sets[i]) else None
  }

  // ---------------------------------------------------------------- the password rule

  const PasswordFile := "/password.txt"

  /** is_valid_key's first loop: climb from the target to the nearest directory. */
  function NearestDir(fs: Tree, dir: string): string
    decreases DirDepth(dir)
  {
    DirnameShrinks(dir);
    if Truthy(dir) && PhpDirname(dir) != dir && !IsDir(fs, dir) then NearestDir(fs, PhpDirname(dir)) else dir
  }

  /** is_valid_key's second loop: the first password file from dir upwards. */
  function KeyFileFrom(fs: Tree, dir: string): Option<string>
    decreases DirDepth(dir)
  {
    DirnameShrinks(dir);
    if !Truthy(dir) then None
    else if Exists(fs, dir + PasswordFile) then Some(dir + PasswordFile)
    else if dir != PhpDirname(dir) then KeyFileFrom(fs, PhpDirname(dir))
    else None
  }

  /** The password file that governs a target; none for NULL. */
  function KeyFile(fs: Tree, target: Option<string>): Option<string>
  {
    match target
    case None => None
    case Some(t) => KeyFileFrom(fs, NearestDir(fs, t))
  }

  /** `file($key_file, FILE_IGNORE_NEW_LINES | FILE_SKIP_EMPTY_LINES)`: the non-empty lines. */
  function PasswordKeys(fs: Tree, keyFile: string): seq<Bytes>
  {
    if IsFile(fs, keyFile) then Filter(fs[keyFile].lines, (l: Bytes) => l != []) else []
  }

  /** `is_valid_key`: granted without a password file or with one without passwords, else
      granted exactly when the key is one of its lines. A password.txt that is not a
      regular file cannot be read: `file()` yields FALSE, which counts as one element and
      holds no key, so access is refused. */
  predicate KeyAccepted(fs: Tree, target: Option<string>, key: Option<Bytes>)
  {
    match KeyFile(fs, target)
    case None => true
    case Some(f) =>
      var keys := PasswordKeys(fs, f);
      IsFile(fs, f) && (|keys| < 1 || (key.Some? && key.value in keys))
  }

  /** The directories the second loop visits: dir and its ancestors, while truthy. */
  function Climb(dir: string): seq<string>
    decreases DirDepth(dir)
  {
    DirnameShrinks(dir);
    if !Truthy(dir) then []
    else [dir] + (if PhpDirname(dir) != dir then Climb(PhpDirname(dir)) else [])
  }

  function HasPasswordTest(fs: Tree): string -> bool
  {
    d => Exists(fs, d + PasswordFile)
  }

  /** The password file of the first directory in dirs that has one. */
  function FirstPasswordIn(fs: Tree, dirs: seq<string>): Option<string>
  {
    var i := FirstIndex(dirs, HasPasswordTest(fs));
    if i < |dirs| then Some(dirs[i] + PasswordFile) else None
  }

  /** The nearest password file wins: the second loop finds the file of the first directory
      on the way up that has one, whatever the directories above it hold. */
  lemma {:induction false} KeyFileIsNearest(fs: Tree, dir: string)
    ensures KeyFileFrom(fs, dir) == FirstPasswordIn(fs, Climb(dir))
    decreases DirDepth(dir)
  {
    DirnameShrinks(dir);
    if Truthy(dir) && !Exists(fs, dir + PasswordFile) && dir != PhpDirname(dir) {
      KeyFileIsNearest(fs, PhpDirname(dir));
      var c := Climb(dir);
      assert c[1..] == Climb(PhpDirname(dir));
      assert FirstIndex(c, HasPasswordTest(fs)) == 1 + FirstIndex(c[1..], HasPasswordTest(fs));
    }
  }

  /** Access rules: no target or no password file grants access, and so does a nearest file
      without passwords, whatever the key and whatever files lie above; otherwise the key
      must be one of the nearest file's lines. */
  lemma {:induction false} AccessRule(fs: Tree, target: Option<string>, key: Option<Bytes>)
    ensures target.None? ==> KeyAccepted(fs, target, key)
    ensures (forall d :: d in Climb(NearestDir(fs, target.GetOr(""))) ==> !Exists(fs, d + PasswordFile))
            ==> KeyAccepted(fs, target, key)
    ensures KeyFile(fs, target).Some? && IsFile(fs, KeyFile(fs, target).value) && PasswordKeys(fs, KeyFile(fs, target).value) == []
            ==> KeyAccepted(fs, target, key)
    ensures KeyFile(fs, target).Some? && PasswordKeys(fs, KeyFile(fs, target).value) != []
            ==> (KeyAccepted(fs, target, key) <==> key.Some? && key.value in PasswordKeys(fs, KeyFile(fs, target).value))
  {
    if target.Some? {
      var d := NearestDir(fs, target.value);
      KeyFileIsNearest(fs, d);
    }
  }

  // ---------------------------------------------------------------- item position

  /** The variables of load_item_position's loop. */
  datatype Position = Position(count: nat, prevSibling: Option<string>, collect: bool,
                               idx: int, prev: Option<string>, next: Option<string>)

  /** One iteration: take the sibling as next if the previous one matched, then record a
      match. */
  function PositionStep(st: Position, sibling: string, isMatch: bool): Position
  {
    var next := if st.collect then Some(sibling) else st.next;
    Position(st.count + 1, Some(sibling), isMatch,
             if isMatch then st.count else st.idx,
             if isMatch then st.prevSibling else st.prev,
             next)
  }

  function PositionAfter(siblings: seq<string>, isMatch: string -> bool, start: Position): Position
  {
    if siblings == [] then start
    else
      var last := siblings[|siblings| - 1];
      PositionStep(PositionAfter(siblings[..|siblings| - 1], isMatch, start), last, isMatch(last))
  }

  /** The loop's state after the first n siblings when only sibling i matches. */
  lemma {:induction false} PositionPrefix(siblings: seq<string>, isMatch: string -> bool, start: Position, i: nat, n: nat)
    requires start.count == 0 && start.prevSibling.None? && !start.collect
    requires i < |siblings| && n <= |siblings|
    requires forall j :: 0 <= j < |siblings| ==> (isMatch(siblings[j]) <==> j == i)
    ensures var st := PositionAfter(siblings[..n], isMatch, start);
      && st.count == n
      && st.prevSibling == (if n == 0 then None else Some(siblings[n - 1]))
      && st.collect == (n == i + 1)
      && st.idx == (if n <= i then start.idx else i)
      && st.prev == (if n <= i then start.prev else if i == 0 then None else Some(siblings[i - 1]))
      && st.next == (if n <= i + 1 then start.next else Some(siblings[i + 1]))
  {
    if n > 0 {
      PositionPrefix(siblings, isMatch, start, i, n - 1);
      assert siblings[..n][..n - 1] == siblings[..n - 1];
      assert siblings[..n][n - 1] == siblings[n - 1];
    }
  }

  /** For an item matched by exactly one sibling, at index i: its index, the sibling before
      it (NULL at the start) and the sibling after it (the previous value at the end). */
  lemma {:induction false} UniqueMatchPosition(siblings: seq<string>, isMatch: string -> bool, start: Position, i: nat)
    requires start.count == 0 && start.prevSibling.None? && !start.collect
    requires i < |siblings|
    requires forall j :: 0 <= j < |siblings| ==> (isMatch(siblings[j]) <==> j == i)
    ensures var st := PositionAfter(siblings, isMatch, start);
      && st.idx == i
      && st.prev == (if i == 0 then None else Some(siblings[i - 1]))
      && st.next == (if i + 1 < |siblings| then Some(siblings[i + 1]) else start.next)
  {
    PositionPrefix(siblings, isMatch, start, i, |siblings|);
    assert siblings[..|siblings|] == siblings;
  }

  /** load_item_position's match: the item itself, or, for a video, any sibling with its stem. */
  predicate SameItem(fs: Tree, item: string, sibling: string)
  {
    item == sibling || (IsVideo(fs, item) && GetFileName(item, false) == GetFileName(sibling, false))
  }

  function SameItemTest(fs: Tree, item: string): string -> bool
  {
    s => SameItem(fs, item, s)
  }

  // ---------------------------------------------------------------- captions

  /** `get_album_caption`: the directory's name with its extension; for the root ".", the
      configured caption unless it is FALSE, NULL or blank, else the name of the working
      directory. */
  function AlbumCaption(rootCaption: Option<string>, cwd: string, dir: string): string
  {
    var caption := GetFileName(dir, true);
    if caption == "." then
      if rootCaption.None? || PhpTrimsToEmpty(rootCaption.value) then GetFileName(cwd, true)
      else rootCaption.value
    else caption
  }

  /** The caption of a decoded path: the root's caption for ".", else its last part. */
  lemma {:induction false} AlbumCaptionOfDecoded(rootCaption: Option<string>, cwd: string, parts: seq<string>, n: nat)
    requires ValidParts(parts) && n <= |parts|
    ensures n == 0 ==> AlbumCaption(rootCaption, cwd, AncestorPath(parts, n))
                       == if rootCaption.None? || PhpTrimsToEmpty(rootCaption.value) then GetFileName(cwd, true)
                          else rootCaption.value
    ensures n > 0 ==> AlbumCaption(rootCaption, cwd, AncestorPath(parts, n)) == parts[n - 1]
  {
    if n == 0 {
      GetFileNameOfDot();
    } else {
      LastNameOfAncestor(parts, n);
    }
  }
}
