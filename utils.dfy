/** The web client's path and media-type helpers (src/main/js/utils.ts).
    md5 and encodeURIComponent/decodeURIComponent are library code and are taken as
    function parameters; lemmas state what they assume of them. */
module Utils {
  import opened Wrappers
  import opened Seqs
  import opened Models
  import opened Tables
  import opened JsPath
  import Text

  /** IMAGE_TYPES and VIDEO_TYPES: extension and MIME type, in declaration order. */
  const ImageTypes: seq<(string, string)> :=
    [("jpg", "image/jpeg"), ("png", "image/png"), ("jpeg", "image/jpeg"), ("gif", "image/gif")]

  const VideoTypes: seq<(string, string)> :=
    [("webm", "video/webm"), ("mp4", "video/mp4"), ("mpeg4", "video/mp4"), ("m4v", "video/mp4")]

  /** IMAGE, VIDEO or null, by the lower-cased extension. */
  function GuessMediaType(path: string): Option<ItemType>
  {
    var ext := Text.AsciiLower(Extname(path));
    if Lookup(ImageTypes, ext).Some? then Some(ImageItem)
    else if Lookup(VideoTypes, ext).Some? then Some(VideoItem)
    else None
  }

  /** The MIME type of a video extension, `undefined` for any other. */
  function VideoMime(path: string): Option<string>
  {
    var ext := Text.AsciiLower(Extname(path));
    Lookup(VideoTypes, ext)
  }

  /** The classification by extension, case-insensitively, and the disjointness of the two tables. */
  lemma {:induction false} MediaTypeTable(path: string)
    ensures var ext := Text.AsciiLower(Extname(path));
      && (GuessMediaType(path) == Some(ImageItem) <==> ext in {"jpg", "png", "jpeg", "gif"})
      && (GuessMediaType(path) == Some(VideoItem) <==> ext in {"webm", "mp4", "mpeg4", "m4v"})
      && (GuessMediaType(path) == None <==> ext !in {"jpg", "png", "jpeg", "gif", "webm", "mp4", "mpeg4", "m4v"})
      && GuessMediaType(path) != Some(AlbumItem)
  {
    var ext := Text.AsciiLower(Extname(path));
    LookupOf4(ImageTypes, ext);
    LookupOf4(VideoTypes, ext);
  }

  /** videoMIME is defined exactly for the paths guessMediaType calls VIDEO, and maps
      webm to video/webm and the other three video extensions to video/mp4. */
  lemma {:induction false} VideoMimeMatchesMediaType(path: string)
    ensures VideoMime(path).Some? <==> GuessMediaType(path) == Some(VideoItem)
    ensures var ext := Text.AsciiLower(Extname(path));
      && (VideoMime(path) == Some("video/webm") <==> ext == "webm")
      && (VideoMime(path) == Some("video/mp4") <==> ext in {"mp4", "mpeg4", "m4v"})
  {
    var ext := Text.AsciiLower(Extname(path));
    LookupOf4(ImageTypes, ext);
    LookupOf4(VideoTypes, ext);
  }

  /** encodeURIComponent applied to each '/'-separated segment. */
  function EncodeSegments(encode: string -> string, path: string): string
  {
    Join(Map(encode, Split(path, '/')), '/')
  }

  /** urlencodeSegments: `undefined` stays `undefined`. */
  function UrlencodeSegments(encode: string -> string, path: Option<string>): Option<string>
  {
    if path.None? then None else Some(EncodeSegments(encode, path.value))
  }

  /** urldecodeSegments: decodeURIComponent applied to each segment. */
  function UrldecodeSegments(decode: string -> string, path: Option<string>): Option<string>
  {
    if path.None? then None else Some(Join(Map(decode, Split(path.value, '/')), '/'))
  }

  /** Encoding keeps the number of segments and encodes each on its own; when the
      per-segment codec round-trips and encoded segments hold no '/', decoding undoes it. */
  lemma {:induction false} UrlSegmentsRoundTrip(encode: string -> string, decode: string -> string, path: Option<string>)
    requires forall s :: '/' !in encode(s)
    requires forall s :: decode(encode(s)) == s
    ensures path.None? <==> UrlencodeSegments(encode, path).None?
    ensures path.Some? ==> Split(UrlencodeSegments(encode, path).value, '/') == Map(encode, Split(path.value, '/'))
    ensures UrldecodeSegments(decode, UrlencodeSegments(encode, path)) == path
  {
    if path.Some? {
      var parts := Split(path.value, '/');
      var encoded := Map(encode, parts);
      SplitJoin(encoded, '/');
      assert Map(decode, encoded) == parts;
      JoinSplit(path.value, '/');
    }
  }

  function GetMetaId(md5: string -> string, path: string): string
  {
    md5(path)
  }

  function GetThumbnailURL(md5: string -> string, encode: string -> string, prefix: string, path: string): string
  {
    prefix + EncodeSegments(encode, WagDir + "/" + GetMetaId(md5, path) + "/" + ThumbnailFile)
  }

  function GetMetaURL(md5: string -> string, encode: string -> string, prefix: string, path: string): string
  {
    prefix + EncodeSegments(encode, WagDir + "/" + GetMetaId(md5, path) + "/" + MetadataFile)
  }

  function GetMediaURL(encode: string -> string, prefix: string, path: string): string
  {
    prefix + EncodeSegments(encode, path)
  }

  /** Adding a separator-free last segment adds one encoded segment. */
  lemma {:induction false} EncodeSegmentsSnoc(encode: string -> string, dir: string, name: string)
    requires '/' !in name
    ensures EncodeSegments(encode, dir + "/" + name) == EncodeSegments(encode, dir) + "/" + encode(name)
  {
    var parts := Split(dir, '/');
    JoinSnoc(parts, name, '/');
    JoinSplit(dir, '/');
    SplitJoin(parts + [name], '/');
    assert Split(dir + "/" + name, '/') == parts + [name];
    assert Map(encode, parts + [name]) == Map(encode, parts) + [encode(name)];
    JoinSnoc(Map(encode, parts), encode(name), '/');
  }

  /** Media, thumbnail and meta URLs start with the prefix; the thumbnail and meta URLs of a
      path share `.wag/<md5(path)>/` and differ only in the last segment. */
  lemma {:induction false} SidecarURLs(md5: string -> string, encode: string -> string, prefix: string, path: string)
    ensures IsPrefix(prefix, GetMediaURL(encode, prefix, path))
    ensures var base := prefix + EncodeSegments(encode, WagDir + "/" + md5(path)) + "/";
      && GetThumbnailURL(md5, encode, prefix, path) == base + encode(ThumbnailFile)
      && GetMetaURL(md5, encode, prefix, path) == base + encode(MetadataFile)
      && IsPrefix(prefix, base)
  {
    SidecarURL(encode, prefix, md5(path), ThumbnailFile);
    SidecarURL(encode, prefix, md5(path), MetadataFile);
    PrefixOfConcat(prefix, EncodeSegments(encode, WagDir + "/" + md5(path)) + "/");
    PrefixOfConcat(prefix, EncodeSegments(encode, path));
  }

  /** The URL of a file in a sidecar directory is the directory's URL, '/', and the encoded name. */
  lemma {:induction false} SidecarURL(encode: string -> string, prefix: string, id: string, file: string)
    requires '/' !in file
    ensures prefix + EncodeSegments(encode, WagDir + "/" + id + "/" + file)
      == prefix + EncodeSegments(encode, WagDir + "/" + id) + "/" + encode(file)
  {
    EncodeSegmentsSnoc(encode, WagDir + "/" + id, file);
  }

  lemma {:induction false} PrefixOfConcat(prefix: string, rest: string)
    ensures IsPrefix(prefix, prefix + rest)
  {
    assert (prefix + rest)[..|prefix|] == prefix;
  }

  datatype PathError = NotUnderPrefix(prefix: string, fullPath: string)

  /** The part of fullPath after prefix and the '/' that follows it; throws unless prefix
      ends at a segment boundary of fullPath. */
  function TrailingPath(prefix: string, fullPath: string): Result<string, PathError>
  {
    if |fullPath| < |prefix| || fullPath[..|prefix|] != prefix
       || (|fullPath| > |prefix| && fullPath[|prefix|] != '/')
    then Err(NotUnderPrefix(prefix, fullPath))
    else Ok(fullPath[|prefix| + (if |fullPath| > |prefix| then 1 else 0)..])
  }

  /** trailingPath succeeds with r exactly when fullPath is prefix itself (r = "") or
      prefix + "/" + r; so prefix "a" rejects "ab". */
  lemma {:induction false} TrailingPathInverse(prefix: string, fullPath: string, r: string)
    ensures TrailingPath(prefix, prefix) == Ok("")
    ensures TrailingPath(prefix, prefix + "/" + r) == Ok(r)
    ensures TrailingPath(prefix, fullPath) == Ok(r) <==> (fullPath == prefix && r == "") || fullPath == prefix + "/" + r
  {
    assert prefix[..|prefix|] == prefix;
    assert prefix[|prefix|..] == "";
    assert (prefix + "/" + r)[..|prefix|] == prefix;
    assert (prefix + "/" + r)[|prefix| + 1..] == r;
    if TrailingPath(prefix, fullPath) == Ok(r) && |fullPath| > |prefix| {
      assert fullPath == fullPath[..|prefix|] + [fullPath[|prefix|]] + fullPath[|prefix| + 1..];
    }
  }

  /** Index of the first element of interest at or after `from`, or |elements| if none. */
  function FirstOfInterestFrom(elements: seq<string>, isOfInterest: string -> bool, from: nat): (i: nat)
    requires from <= |elements|
    ensures from <= i <= |elements|
    ensures forall j :: from <= j < i ==> !isOfInterest(elements[j])
    ensures i < |elements| ==> isOfInterest(elements[i])
    decreases |elements| - from
  {
    if from == |elements| || isOfInterest(elements[from]) then from
    else FirstOfInterestFrom(elements, isOfInterest, from + 1)
  }

  /** Index of the first element not of interest at or after `from`, or |elements| if none. */
  function FirstNotOfInterestFrom(elements: seq<string>, isOfInterest: string -> bool, from: nat): (i: nat)
    requires from <= |elements|
    ensures from <= i <= |elements|
    ensures forall j :: from <= j < i ==> isOfInterest(elements[j])
    ensures i < |elements| ==> !isOfInterest(elements[i])
    decreases |elements| - from
  {
    if from == |elements| || !isOfInterest(elements[from]) then from
    else FirstNotOfInterestFrom(elements, isOfInterest, from + 1)
  }

  /** The element just before the first element of interest (the last element when none is). */
  function NavPrev(elements: seq<string>, isOfInterest: string -> bool): Option<string>
  {
    var i := FirstOfInterestFrom(elements, isOfInterest, 0);
    if i == 0 then None else Some(elements[i - 1])
  }

  /** The first element after the first element of interest that is not itself of interest. */
  function NavNext(elements: seq<string>, isOfInterest: string -> bool): Option<string>
  {
    var i := FirstOfInterestFrom(elements, isOfInterest, 0);
    if i == |elements| then None
    else
      var j := FirstNotOfInterestFrom(elements, isOfInterest, i + 1);
      if j == |elements| then None else Some(elements[j])
  }

  /** getNavigation scans once, remembering the last element before the element of interest
      and stopping at the first element after it that is not of interest. */
  method GetNavigation<T>(elements: seq<string>, isOfInterest: string -> bool, mapper: Option<string> -> T)
    returns (nav: Navigation<T>)
    ensures nav == Navigation(mapper(NavPrev(elements, isOfInterest)), mapper(NavNext(elements, isOfInterest)))
  {
    ghost var first := FirstOfInterestFrom(elements, isOfInterest, 0);
    var isElementEncountered := false;
    var prev: Option<string> := None;
    var next: Option<string> := None;
    var k := 0;
    while k < |elements|
      invariant 0 <= k <= |elements|
      invariant isElementEncountered <==> first < k
      invariant !isElementEncountered ==> prev == (if k == 0 then None else Some(elements[k - 1]))
      invariant isElementEncountered ==> prev == NavPrev(elements, isOfInterest)
      invariant isElementEncountered ==> FirstNotOfInterestFrom(elements, isOfInterest, first + 1) >= k
      invariant next == None
    {
      var e := elements[k];
      if isOfInterest(e) {
        isElementEncountered := true;
        k := k + 1;
        continue;
      }
      if !isElementEncountered {
        prev := Some(e);
      } else {
        next := Some(e);
        break;
      }
      k := k + 1;
    }
    nav := Navigation(mapper(prev), mapper(next));
  }

  /** What the navigation finds: prev is just before the first element of interest (none if
      that is the first element), next is the first later element not of interest, neither
      is of interest, and with no element of interest prev is the last element and next is null. */
  lemma {:induction false} NavigationProperties(elements: seq<string>, isOfInterest: string -> bool, i: nat)
    requires i < |elements| && isOfInterest(elements[i])
    requires forall j :: 0 <= j < i ==> !isOfInterest(elements[j])
    ensures NavPrev(elements, isOfInterest) == if i == 0 then None else Some(elements[i - 1])
    ensures NavNext(elements, isOfInterest).Some? <==> exists j :: i < j < |elements| && !isOfInterest(elements[j])
    ensures NavNext(elements, isOfInterest).Some? ==>
      exists j :: i < j < |elements| && elements[j] == NavNext(elements, isOfInterest).value
        && !isOfInterest(elements[j]) && forall m :: i < m < j ==> isOfInterest(elements[m])
    ensures NavPrev(elements, isOfInterest).Some? ==> !isOfInterest(NavPrev(elements, isOfInterest).value)
    ensures NavNext(elements, isOfInterest).Some? ==> !isOfInterest(NavNext(elements, isOfInterest).value)
  {
    var f := FirstOfInterestFrom(elements, isOfInterest, 0);
    assert f == i;
  }

  lemma {:induction false} NavigationWithoutInterest(elements: seq<string>, isOfInterest: string -> bool)
    requires forall j :: 0 <= j < |elements| ==> !isOfInterest(elements[j])
    ensures NavPrev(elements, isOfInterest) == if elements == [] then None else Some(Last(elements))
    ensures NavNext(elements, isOfInterest) == None
  {
  }
}
