/** The state the PHP gallery script's `WAG` object builds for one request
    (src/main/php/wag.php): the decoded target and key, the access verdict, the album's
    sub-albums, items and video sets, the item's position among its siblings, and the
    breadcrumbs. Each loop of the script is a method proved against the specification
    functions of module PhpWag. */
module PhpWagClass {
  import opened Wrappers
  import opened Seqs
  import opened Grouping
  import opened Base64
  import opened PhpPath
  import opened FileSystem
  import opened PhpWag

  /** One entry of `output_breadcurmbs`: an album's caption and the link that shows it. */
  datatype Crumb = Crumb(name: string, url: string)

  /** The crumb load_breadcrumbs builds for an ancestor path. The key argument is
      url_arg_key's, the mangled key without url-encoding, so a key whose base64 holds a
      '+' does not survive the link (see UrlArgKeyLosesPlus). */
  function CrumbOf(script: string, cwd: string, rootCaption: Option<string>, key: Option<Bytes>, path: string): Crumb
  {
    Crumb(AlbumCaption(rootCaption, cwd, path),
          script + "?act=show" + UrlArgTarget(Some(path)) + UrlArgKey(key))
  }

  function CrumbMaker(script: string, cwd: string, rootCaption: Option<string>, key: Option<Bytes>): string -> Crumb
  {
    path => CrumbOf(script, cwd, rootCaption, key, path)
  }

  /** The breadcrumbs of a decoded target: one per proper ancestor, the root first; the
      root's crumb carries the root caption and every other crumb the name of its
      directory, and crumb j links to the j-th ancestor with url_arg_key's key argument. */
  lemma {:induction false} BreadcrumbsOfDecoded(script: string, cwd: string, rootCaption: Option<string>, key: Option<Bytes>,
                             parts: seq<string>, n: nat)
    requires ValidParts(parts) && n <= |parts|
    ensures var cs := Images(CrumbMaker(script, cwd, rootCaption, key), Ancestors(AncestorPath(parts, n)));
      && |cs| == n
      && (n > 0 ==> cs[0].name == if rootCaption.None? || Text.PhpTrimsToEmpty(rootCaption.value)
                                   then GetFileName(cwd, true) else rootCaption.value)
      && (forall j :: 1 <= j < n ==> cs[j].name == parts[j - 1])
      && forall j :: 0 <= j < n ==>
           cs[j].url == script + "?act=show" + UrlArgTarget(Some(AncestorPath(parts, j))) + UrlArgKey(key)
  {
    var cs := Images(CrumbMaker(script, cwd, rootCaption, key), Ancestors(AncestorPath(parts, n)));
    AncestorsOfDecoded(parts, n);
    ImagesPointwise(CrumbMaker(script, cwd, rootCaption, key), Ancestors(AncestorPath(parts, n)));
    forall j | 0 <= j < n
      ensures cs[j] == CrumbOf(script, cwd, rootCaption, key, AncestorPath(parts, j))
    {
    }
    if n > 0 {
      AlbumCaptionOfDecoded(rootCaption, cwd, parts, 0);
    }
    forall j | 1 <= j < n
      ensures AlbumCaption(rootCaption, cwd, AncestorPath(parts, j)) == parts[j - 1]
    {
      AlbumCaptionOfDecoded(rootCaption, cwd, parts, j);
    }
  }

  /** `$file_map` after some names of a listing: its keys in insertion order are the
      keys met so far, and each key holds the paths of its names, in order. */
  ghost predicate Bucketed(path: string -> string, key: string -> string, keys: seq<string>,
                           fileMap: map<string, seq<string>>, loose: seq<string>)
  {
    && keys == Keys(loose, key)
    && (forall k :: k in fileMap <==> k in keys)
    && forall k :: k in keys ==> fileMap[k] == BucketPaths(loose, key, k, path)
  }

  lemma {:induction false} BucketPathsOfAbsentKey(loose: seq<string>, key: string -> string, k: string, path: string -> string)
    requires k !in Keys(loose, key)
    ensures BucketPaths(loose, key, k, path) == []
  {
    if loose != [] {
      BucketPathsOfAbsentKey(loose[..|loose| - 1], key, k, path);
    }
  }

  /** Appending a name's path under its key keeps `$file_map` bucketed. */
  lemma {:induction false} BucketedSnoc(path: string -> string, key: string -> string, keys: seq<string>,
                     fileMap: map<string, seq<string>>, loose: seq<string>, name: string)
    requires Bucketed(path, key, keys, fileMap, loose)
    ensures var k := key(name);
      var bucket := if k in fileMap then fileMap[k] else [];
      Bucketed(path, key, if k in fileMap then keys else keys + [k],
               fileMap[k := bucket + [path(name)]], loose + [name])
  {
    PlacedKeys(path, key, keys, fileMap, loose, name);
    PlacedPaths(path, key, keys, fileMap, loose, name);
  }

  lemma {:induction false} PlacedKeys(path: string -> string, key: string -> string, keys: seq<string>,
                                      fileMap: map<string, seq<string>>, loose: seq<string>, name: string)
    requires keys == Keys(loose, key) && forall k :: k in fileMap <==> k in keys
    ensures var k := key(name);
      var keys' := if k in fileMap then keys else keys + [k];
      && keys' == Keys(loose + [name], key)
      && forall j :: j in fileMap[k := []] <==> j in keys'
  {
    KeysSnoc(loose, name, key);
  }

  lemma {:induction false} PlacedPaths(path: string -> string, key: string -> string, keys: seq<string>,
                                       fileMap: map<string, seq<string>>, loose: seq<string>, name: string)
    requires Bucketed(path, key, keys, fileMap, loose)
    ensures var k := key(name);
      var bucket := if k in fileMap then fileMap[k] else [];
      var fileMap' := fileMap[k := bucket + [path(name)]];
      forall j :: j in fileMap' ==> fileMap'[j] == BucketPaths(loose + [name], key, j, path)
  {
    var k := key(name);
    var bucket := if k in fileMap then fileMap[k] else [];
    var fileMap' := fileMap[k := bucket + [path(name)]];
    if k !in fileMap {
      BucketPathsOfAbsentKey(loose, key, k, path);
    }
    forall j | j in fileMap'
      ensures fileMap'[j] == BucketPaths(loose + [name], key, j, path)
    {
      BucketPathsSnoc(loose, key, j, path, name);
    }
  }

  lemma {:induction false} BucketPathsSnoc(loose: seq<string>, key: string -> string, k: string,
                                           path: string -> string, name: string)
    ensures key(name) == k ==> BucketPaths(loose + [name], key, k, path) == BucketPaths(loose, key, k, path) + [path(name)]
    ensures key(name) != k ==> BucketPaths(loose + [name], key, k, path) == BucketPaths(loose, key, k, path)
  {
    var loose' := loose + [name];
    assert loose'[..|loose'| - 1] == loose;
    assert BucketPaths(loose, key, k, path) + [] == BucketPaths(loose, key, k, path);
  }

  /** One more name of the listing: it joins the loose files or the directory paths, or
      neither when it is passed over. */
  lemma {:induction false} ListingStep(names: seq<string>, i: nat, skip: string -> bool, isDir: string -> bool,
                    path: string -> string)
    requires i < |names|
    ensures var n := names[i];
      && Listed(names[..i + 1], skip, isDir, false)
         == Listed(names[..i], skip, isDir, false) + (if !skip(n) && !isDir(n) then [n] else [])
      && ListedPaths(names[..i + 1], skip, isDir, path)
         == ListedPaths(names[..i], skip, isDir, path) + (if !skip(n) && isDir(n) then [path(n)] else [])
  {
    assert names[..i + 1][..i] == names[..i];
  }

  /** The file branch of the first loop: the name's path is appended to its key's bucket,
      which is created (and its key recorded) on first use. */
  method Place(ghost loose: seq<string>, name: string, key: string -> string, path: string -> string,
               keys: seq<string>, fileMap: map<string, seq<string>>)
    returns (keys': seq<string>, fileMap': map<string, seq<string>>)
    requires Bucketed(path, key, keys, fileMap, loose)
    ensures Bucketed(path, key, keys', fileMap', loose + [name])
  {
    BucketedSnoc(path, key, keys, fileMap, loose, name);
    var k := key(name);
    keys', fileMap' := keys, fileMap;
    if k !in fileMap' {
      fileMap' := fileMap'[k := []];
      keys' := keys' + [k];
    }
    fileMap' := fileMap'[k := fileMap'[k] + [path(name)]];
    assert fileMap' == fileMap[k := (if k in fileMap then fileMap[k] else []) + [path(name)]];
  }

  /** The first loop of load_album_items over a listing, with the tests it makes passed in:
      a skipped name is passed over, a directory's path is collected, and any other name's
      path is appended under its key in `$file_map`. */
  method BucketListing(names: seq<string>, skip: string -> bool, isDir: string -> bool,
                       key: string -> string, path: string -> string)
    returns (subs: seq<string>, keys: seq<string>, fileMap: map<string, seq<string>>)
    ensures subs == ListedPaths(names, skip, isDir, path)
    ensures Bucketed(path, key, keys, fileMap, Listed(names, skip, isDir, false))
  {
    subs, keys, fileMap := [], [], map[];
    for i := 0 to |names|
      invariant subs == ListedPaths(names[..i], skip, isDir, path)
      invariant Bucketed(path, key, keys, fileMap, Listed(names[..i], skip, isDir, false))
    {
      var file := names[i];
      ListingStep(names, i, skip, isDir, path);
      ghost var loose := Listed(names[..i], skip, isDir, false);
      if skip(file) {
        assert loose + [] == loose;
        continue;
      }
      if isDir(file) {
        assert loose + [] == loose;
        subs := subs + [path(file)];
      } else {
        keys, fileMap := Place(loose, file, key, path, keys, fileMap);
      }
    }
    assert names[..|names|] == names;
  }

  /** One more element's output extends what an accumulator collected so far. */
  lemma {:induction false} CollectStep<E, T>(es: seq<E>, j: nat, emit: E -> seq<T>, start: seq<T>, acc: seq<T>, acc': seq<T>)
    requires j < |es|
    requires acc == start + Collect(es[..j], emit)
    requires acc' == acc + emit(es[j])
    ensures acc' == start + Collect(es[..j + 1], emit)
  {
    assert es[..j + 1] == es[..j] + [es[j]];
    CollectSnoc(es[..j], es[j], emit);
  }

  /** The loops that push the elements passing a test, in order. */
  method Select<T(!new)>(s: seq<T>, p: T -> bool) returns (r: seq<T>)
    ensures r == Filter(s, p)
  {
    r := [];
    for i := 0 to |s|
      invariant r == Filter(s[..i], p)
    {
      assert s[..i + 1] == s[..i] + [s[i]];
      FilterSnoc(s[..i], s[i], p);
      if p(s[i]) {
        r := r + [s[i]];
      }
    }
    assert s[..|s|] == s;
  }

  /** The scans with an early exit: the index of the first element that passes the test,
      or the length when none does. */
  method FirstMatch<T>(s: seq<T>, p: T -> bool) returns (i: nat)
    ensures i == FirstIndex(s, p)
  {
    i := 0;
    while i < |s|
      invariant i <= |s|
      invariant forall j :: 0 <= j < i ==> !p(s[j])
    {
      if p(s[i]) {
        break;
      }
      i := i + 1;
    }
  }

  /** The images of some paths under f, in the same order. */
  function Images<T>(f: string -> T, paths: seq<string>): seq<T>
  {
    if paths == [] then [] else Images(f, paths[..|paths| - 1]) + [f(paths[|paths| - 1])]
  }

  lemma {:induction false} ImagesPointwise<T>(f: string -> T, paths: seq<string>)
    ensures |Images(f, paths)| == |paths|
    ensures forall i :: 0 <= i < |paths| ==> Images(f, paths)[i] == f(paths[i])
  {
    if paths != [] {
      ImagesPointwise(f, paths[..|paths| - 1]);
    }
  }

  /** One step of the climb: the images of a path's ancestors are those of its parent's
      ancestors and the parent's image. */
  lemma {:induction false} ClimbStep<T>(f: string -> T, path: string)
    requires PhpDirname(path) != path
    ensures Images(f, Ancestors(path)) == Images(f, Ancestors(PhpDirname(path))) + [f(PhpDirname(path))]
  {
    var parent := PhpDirname(path);
    AncestorsStep(path);
    assert (Ancestors(parent) + [parent])[..|Ancestors(parent)|] == Ancestors(parent);
  }

  /** load_breadcrumbs' loop, with the crumb of a path passed in: climb from start with
      dirname, putting each ancestor's crumb in front. */
  method ClimbCrumbs<T>(start: string, crumb: string -> T) returns (crumbs: seq<T>)
    ensures crumbs == Images(crumb, Ancestors(start))
  {
    crumbs := [];
    var path := start;
    while PhpDirname(path) != path
      invariant Images(crumb, Ancestors(path)) + crumbs == Images(crumb, Ancestors(start))
      decreases DirDepth(path)
    {
      DirnameShrinks(path);
      var parent := PhpDirname(path);
      ghost var above := Images(crumb, Ancestors(parent));
      assert Images(crumb, Ancestors(path)) == above + [crumb(parent)] by {
        ClimbStep(crumb, path);
      }
      AppendAssoc(above, [crumb(parent)], crumbs);
      path := parent;
      crumbs := [crumb(path)] + crumbs;
    }
  }

  /** The object of one request. The file tree, the script's name and the working
      directory are fixed; the other fields are those the script's methods fill. */
  class Wag {
    const fs: Tree
    const script: string
    const cwd: string
    /** `root_album_caption`; None stands for FALSE and NULL. */
    var rootAlbumCaption: Option<string>
    var target: Option<string>
    var key: Option<Bytes>
    var hasAccess: bool
    var itemsInAlbum: seq<string>
    var videoSetsInAlbum: seq<seq<string>>
    var albumsInAlbum: seq<string>
    var itemIdx: int
    var itemPrev: Option<string>
    var itemNext: Option<string>
    var itemNextSlide: Option<string>
    var breadcrumbs: seq<Crumb>

    /** The constructor, which runs parse_params and is_valid_key: keyParam and trgParam are
        the `key` and `trg` query arguments as `$_GET` holds them, if present. */
    constructor (fs: Tree, script: string, cwd: string, keyParam: Option<string>, trgParam: Option<string>)
      ensures this.fs == fs && this.script == script && this.cwd == cwd
      ensures key == if keyParam.Some? then Some(UnmangleKey(keyParam.value)) else None
      ensures target == DecodeTargetSpec(fs, trgParam.GetOr(""))
      ensures hasAccess == KeyAccepted(fs, target, key)
      ensures rootAlbumCaption == Some("")
      ensures itemsInAlbum == [] && videoSetsInAlbum == [] && albumsInAlbum == []
      ensures itemIdx == 0 && itemPrev.None? && itemNext.None? && itemNextSlide.None?
      ensures breadcrumbs == []
    {
      var k, t := ParseParams(fs, keyParam, trgParam);
      var ok := IsValidKey(fs, t, k);
      this.fs := fs;
      this.script := script;
      this.cwd := cwd;
      rootAlbumCaption := Some("");
      key := k;
      target := t;
      hasAccess := ok;
      itemsInAlbum := [];
      videoSetsInAlbum := [];
      albumsInAlbum := [];
      itemIdx := 0;
      itemPrev := None;
      itemNext := None;
      itemNextSlide := None;
      breadcrumbs := [];
    }

    /** `parse_params`: the key, unmangled, when one is given (else the NULL `$key` starts
        with), and the decoded target, of the empty string when none is given. */
    static method ParseParams(fs: Tree, keyParam: Option<string>, trgParam: Option<string>)
      returns (key: Option<Bytes>, target: Option<string>)
      ensures key == if keyParam.Some? then Some(UnmangleKey(keyParam.value)) else None
      ensures target == DecodeTargetSpec(fs, trgParam.GetOr(""))
    {
      key := None;
      if keyParam.Some? {
        key := Some(UnmangleKey(keyParam.value));
      }
      target := DecodeTarget(fs, trgParam.GetOr(""));
    }

    /** `decode_target`: keep the non-trivial '/'-separated parts and return the path they
        form if it exists. */
    static method DecodeTarget(fs: Tree, target: string) returns (r: Option<string>)
      ensures r == DecodeTargetSpec(fs, target)
    {
      var t := RemoveBackslashQuotes(ReplaceBackslashes(target));
      var partsIn := Split(t, '/');
      var partsOut: seq<string> := [];
      for i := 0 to |partsIn|
        invariant partsOut == Filter(partsIn[..i], KeepPart)
      {
        assert partsIn[..i + 1] == partsIn[..i] + [partsIn[i]];
        FilterSnoc(partsIn[..i], partsIn[i], KeepPart);
        if KeepPart(partsIn[i]) {
          partsOut := partsOut + [partsIn[i]];
        }
      }
      assert partsIn[..|partsIn|] == partsIn;
      var parsed := "./" + Join(partsOut, '/');
      if parsed == "./" {
        parsed := ".";
      }
      if Exists(fs, parsed) {
        r := Some(parsed);
      } else {
        r := None;
      }
    }

    /** `is_valid_key`, with the object's target and key passed in: climb to the nearest
        directory, then up to the first password file, and test the key against its
        non-empty lines. */
    static method IsValidKey(fs: Tree, target: Option<string>, key: Option<Bytes>) returns (ok: bool)
      ensures ok == KeyAccepted(fs, target, key)
    {
      var dir := target;
      while dir.Some? && Truthy(dir.value) && dir.value != PhpDirname(dir.value) && !IsDir(fs, dir.value)
        invariant dir.Some? == target.Some?
        invariant dir.Some? ==> NearestDir(fs, dir.value) == NearestDir(fs, target.value)
        decreases if dir.Some? then DirDepth(dir.value) else 0
      {
        DirnameShrinks(dir.value);
        dir := Some(PhpDirname(dir.value));
      }
      var keyFile: Option<string> := None;
      while keyFile.None? && dir.Some? && Truthy(dir.value)
        invariant keyFile.None? ==> KeyFile(fs, target) == if dir.Some? then KeyFileFrom(fs, dir.value) else None
        invariant keyFile.Some? ==> keyFile == KeyFile(fs, target)
        decreases if keyFile.None? then 1 else 0, if dir.Some? then DirDepth(dir.value) else 0
      {
        var d := dir.value;
        DirnameShrinks(d);
        if Exists(fs, d + PasswordFile) {
          keyFile := Some(d + PasswordFile);
        } else if d != PhpDirname(d) {
          dir := Some(PhpDirname(d));
        } else {
          dir := None;
        }
      }
      if keyFile.None? {
        return true;
      }
      if !IsFile(fs, keyFile.value) {
        return false;
      }
      var keys := PasswordKeys(fs, keyFile.value);
      if |keys| < 1 {
        return true;
      }
      return key.Some? && key.value in keys;
    }

    /** `is_video_set`: scan for a video and stop at the first. */
    method IsVideoSet(files: seq<string>) returns (hasVideo: bool)
      ensures hasVideo == HasVideo(fs, files)
    {
      var i := FirstMatch(files, VideoTest(fs));
      hasVideo := i < |files|;
    }

    /** `get_video_rep`: the first photo, else the first video, else NULL. */
    method GetVideoRep(videoSet: seq<string>) returns (rep: Option<string>)
      ensures rep == VideoRep(fs, videoSet)
    {
      rep := None;
      var i := FirstMatch(videoSet, PhotoTest(fs));
      if i < |videoSet| {
        rep := Some(videoSet[i]);
      }
      if rep.None? {
        var k := FirstMatch(videoSet, VideoTest(fs));
        if k < |videoSet| {
          rep := Some(videoSet[k]);
        }
      }
    }

    /** `get_video_set`: the first stored video set that holds the item. */
    method GetVideoSet(item: string) returns (videoSet: Option<seq<string>>)
      ensures videoSet == FirstSetWith(videoSetsInAlbum, item)
    {
      var i := FirstMatch(videoSetsInAlbum, HoldsTest(item));
      if i < |videoSetsInAlbum| {
        return Some(videoSetsInAlbum[i]);
      }
      return None;
    }

    /** The second loop's body for one stem: its photos when it holds no video, else its
        video set and that set's representative. */
    method AddGroup(files: seq<string>)
      modifies this`itemsInAlbum, this`videoSetsInAlbum
      ensures itemsInAlbum == old(itemsInAlbum) + GroupItems(fs, files)
      ensures videoSetsInAlbum == old(videoSetsInAlbum) + if HasVideo(fs, files) then [VideoSetOf(fs, files)] else []
    {
      var isSet := IsVideoSet(files);
      if !isSet {
        var photos := Select(files, PhotoTest(fs));
        itemsInAlbum := itemsInAlbum + photos;
      } else {
        var videoSet := Select(files, MediaTest(fs));
        videoSetsInAlbum := videoSetsInAlbum + [videoSet];
        var video := GetVideoRep(videoSet);
        if video.Some? {
          itemsInAlbum := itemsInAlbum + [video.value];
        }
      }
    }

    /** The second loop of load_album_items: the stems' buckets, in key order. */
    method AddGroups(keys: seq<string>, fileMap: map<string, seq<string>>, ghost groups: seq<seq<string>>)
      requires |groups| == |keys|
      requires forall j :: 0 <= j < |keys| ==> keys[j] in fileMap && fileMap[keys[j]] == groups[j]
      modifies this`itemsInAlbum, this`videoSetsInAlbum
      ensures itemsInAlbum == old(itemsInAlbum) + ItemsOf(fs, groups)
      ensures videoSetsInAlbum == old(videoSetsInAlbum) + VideoSetsOf(fs, groups)
    {
      for j := 0 to |keys|
        invariant itemsInAlbum == old(itemsInAlbum) + Collect(groups[..j], GroupItemsEmit(fs))
        invariant videoSetsInAlbum == old(videoSetsInAlbum) + Collect(groups[..j], VideoSetEmit(fs))
      {
        var files := fileMap[keys[j]];
        ghost var items, sets := itemsInAlbum, videoSetsInAlbum;
        AddGroup(files);
        CollectStep(groups, j, GroupItemsEmit(fs), old(itemsInAlbum), items, itemsInAlbum);
        CollectStep(groups, j, VideoSetEmit(fs), old(videoSetsInAlbum), sets, videoSetsInAlbum);
      }
      assert groups[..|keys|] == groups;
    }

    /** `load_album_items`: sub-albums in listing order; then, stem by stem in order of
        first appearance, each stem's items and video set. */
    method LoadAlbumItems(album: string)
      modifies this`albumsInAlbum, this`itemsInAlbum, this`videoSetsInAlbum
      ensures var loose := LooseFiles(fs, album, Scandir(fs, album));
        var groups := StemGroups(album, loose, Keys(loose, StemKey()));
        && albumsInAlbum == old(albumsInAlbum) + SubAlbums(fs, album, Scandir(fs, album))
        && itemsInAlbum == old(itemsInAlbum) + ItemsOf(fs, groups)
        && videoSetsInAlbum == old(videoSetsInAlbum) + VideoSetsOf(fs, groups)
    {
      var subs, keys, fileMap := BucketListing(Scandir(fs, album), SkipTest(), DirTest(fs, album),
                                               StemKey(), PathMaker(album));
      albumsInAlbum := albumsInAlbum + subs;
      ghost var groups := StemGroups(album, LooseFiles(fs, album, Scandir(fs, album)), keys);
      AddGroups(keys, fileMap, groups);
    }

    /** `load_item_position`: one pass over the album's items that records the index and
        the neighbours of every sibling that is the item (or, for a video, has its stem). */
    method LoadItemPosition(item: string)
      modifies this`itemIdx, this`itemPrev, this`itemNext, this`itemNextSlide
      ensures var st := PositionAfter(itemsInAlbum, SameItemTest(fs, item),
                                      Position(0, None, false, old(itemIdx), old(itemPrev), old(itemNext)));
        itemIdx == st.idx && itemPrev == st.prev && itemNext == st.next
      ensures itemNextSlide == if itemNext.Some? then itemNext else Some(PhpDirname(target.GetOr("")))
    {
      ghost var start := Position(0, None, false, itemIdx, itemPrev, itemNext);
      var count := 0;
      var prevSibling: Option<string> := None;
      var collect := false;
      for i := 0 to |itemsInAlbum|
        invariant PositionAfter(itemsInAlbum[..i], SameItemTest(fs, item), start)
                  == Position(i, prevSibling, collect, itemIdx, itemPrev, itemNext)
        invariant count == i
      {
        var sibling := itemsInAlbum[i];
        assert itemsInAlbum[..i + 1][..i] == itemsInAlbum[..i];
        if collect {
          itemNext := Some(sibling);
          collect := false;
        }
        if SameItem(fs, item, sibling) {
          itemIdx := count;
          itemPrev := prevSibling;
          collect := true;
        }
        count := count + 1;
        prevSibling := Some(sibling);
      }
      assert itemsInAlbum[..|itemsInAlbum|] == itemsInAlbum;
      if itemNext.Some? {
        itemNextSlide := itemNext;
      } else {
        itemNextSlide := Some(PhpDirname(target.GetOr("")));
      }
    }

    /** `load_breadcrumbs`: the crumbs of the target's ancestors, the root first. */
    method LoadBreadcrumbs()
      modifies this`breadcrumbs
      ensures breadcrumbs == Images(CrumbMaker(script, cwd, rootAlbumCaption, key), Ancestors(target.GetOr("")))
    {
      breadcrumbs := ClimbCrumbs(target.GetOr(""), CrumbMaker(script, cwd, rootAlbumCaption, key));
    }
  }
}
