/** What both metadata scripts do with one folder before writing anything: the media tests
    `isimage`/`isvideo`, the stem grouping `getItems` (the same text in wagmetagen.py and
    wagmetaextract.py), and the choice and placement of the pinkynails of `processAlbum`. */
module PyItems {
  import opened Wrappers
  import opened Seqs
  import opened Grouping
  import opened FileSystem
  import opened PyPath
  import opened Tables
  import Text

  const WagDir := ".wag"
  const ImageExtensions: seq<string> := [".jpg", ".png", ".jpeg", ".gif"]
  const VideoExtensions: seq<string> := [".mp4", ".mpeg4", ".m4v", ".webm"]

  /** `os.path.splitext(path)[1].lower()`. */
  function LowerExt(p: string): string
  {
    Text.AsciiLower(Splitext(p).1)
  }

  /** `isimage`: a regular file with an image extension, in any letter case. */
  predicate IsImage(fs: Tree, p: string)
  {
    IsFile(fs, p) && Member(ImageExtensions, LowerExt(p))
  }

  /** `isvideo`: a regular file with a video extension, in any letter case. */
  predicate IsVideo(fs: Tree, p: string)
  {
    IsFile(fs, p) && Member(VideoExtensions, LowerExt(p))
  }

  /** The two tests accept exactly the listed extensions, and no path passes both. */
  lemma {:induction false} MediaExtensions(fs: Tree, p: string)
    ensures IsImage(fs, p) <==> IsFile(fs, p) && LowerExt(p) in {".jpg", ".png", ".jpeg", ".gif"}
    ensures IsVideo(fs, p) <==> IsFile(fs, p) && LowerExt(p) in {".mp4", ".mpeg4", ".m4v", ".webm"}
    ensures !(IsImage(fs, p) && IsVideo(fs, p))
  {
    MemberOf4(ImageExtensions, LowerExt(p));
    MemberOf4(VideoExtensions, LowerExt(p));
  }

  /** Which list of its stem group an entry joins in getItems' first loop. */
  datatype Kind = Album | Image | Video | Dropped

  /** The if/elif chain of getItems: image, else video, else directory, else nothing. */
  function KindOf(fs: Tree, p: string): Kind
  {
    if IsImage(fs, p) then Image
    else if IsVideo(fs, p) then Video
    else if IsDir(fs, p) then Album
    else Dropped
  }

  function KindTest(fs: Tree): string -> Kind
  {
    p => KindOf(fs, p)
  }

  /** Exactly the directories are albums; images and videos are regular files. */
  lemma {:induction false} KindOfDirectories(fs: Tree, p: string)
    ensures KindOf(fs, p) == Album <==> IsDir(fs, p)
    ensures KindOf(fs, p) == Image <==> IsImage(fs, p)
    ensures KindOf(fs, p) == Video <==> IsVideo(fs, p)
  {
    MediaExtensions(fs, p);
  }

  predicate NotWag(n: string)
  {
    n != WagDir
  }

  function JoinTo(path: string): string -> string
  {
    n => JoinPath(path, n)
  }

  /** getItems' `entries`: each listed name but ".wag", joined onto the folder's path. */
  function Entries(path: string, names: seq<string>): (es: seq<string>)
    ensures |es| == |Filter(names, NotWag)|
    ensures forall i :: 0 <= i < |es| ==> es[i] == JoinPath(path, Filter(names, NotWag)[i])
  {
    Map(JoinTo(path), Filter(names, NotWag))
  }

  /** The entries are the joined names other than ".wag", and all of those. */
  lemma {:induction false} EntriesOfListing(path: string, names: seq<string>)
    ensures forall e :: e in Entries(path, names) ==> exists n :: n in names && n != WagDir && e == JoinPath(path, n)
    ensures forall n :: n in names && n != WagDir ==> JoinPath(path, n) in Entries(path, names)
  {
    var kept := Filter(names, NotWag);
    var es := Entries(path, names);
    forall e | e in es
      ensures exists n :: n in names && n != WagDir && e == JoinPath(path, n)
    {
      var i :| 0 <= i < |es| && es[i] == e;
      assert kept[i] in kept;
    }
    forall n | n in names && n != WagDir
      ensures JoinPath(path, n) in es
    {
      assert n in kept;
      var i :| 0 <= i < |kept| && kept[i] == n;
      assert es[i] == JoinPath(path, n);
    }
  }

  /** getItems' key: `os.path.splitext(os.path.basename(entry))[0]`. */
  function StemOf(e: string): string
  {
    Splitext(Basename(e)).0
  }

  function StemKey(): string -> string
  {
    e => StemOf(e)
  }

  /** [e] when kind gives e the kind k, else []. */
  function KindEmit(kind: string -> Kind, k: Kind): string -> seq<string>
  {
    e => if kind(e) == k then [e] else []
  }

  /** The entries of es of kind k, in order. */
  function OfKind(es: seq<string>, kind: string -> Kind, k: Kind): seq<string>
  {
    Collect(es, KindEmit(kind, k))
  }

  /** Membership in OfKind is membership of the right kind. */
  lemma {:induction false} OfKindMembers(es: seq<string>, kind: string -> Kind, k: Kind)
    ensures forall x :: x in OfKind(es, kind, k) <==> x in es && kind(x) == k
  {
    if es != [] {
      var init := es[..|es| - 1];
      OfKindMembers(init, kind, k);
      assert es == init + [es[|es| - 1]];
    }
  }

  /** One stem group: `{ALBUM: [...], IMAGE: [...], VIDEO: [...]}`. */
  datatype Group = Group(albums: seq<string>, images: seq<string>, videos: seq<string>)

  /** The group getItems builds from the entries of one stem. */
  function GroupOf(bucket: seq<string>, kind: string -> Kind): Group
  {
    Group(OfKind(bucket, kind, Album), OfKind(bucket, kind, Image), OfKind(bucket, kind, Video))
  }

  /** The branch of the first loop's body that appends the entry to its group. */
  function AddEntry(g: Group, e: string, kind: string -> Kind): Group
  {
    match kind(e)
    case Album => g.(albums := g.albums + [e])
    case Image => g.(images := g.images + [e])
    case Video => g.(videos := g.videos + [e])
    case Dropped => g
  }

  lemma {:induction false} AddEntryStep(es: seq<string>, e: string, key: string -> string, kind: string -> Kind)
    ensures AddEntry(GroupOf(Bucket(es, key, key(e)), kind), e, kind) == GroupOf(Bucket(es + [e], key, key(e)), kind)
    ensures forall k :: k != key(e) ==> Bucket(es + [e], key, k) == Bucket(es, key, k)
  {
    BucketSnoc(es, e, key, key(e));
    forall k | k != key(e)
      ensures Bucket(es + [e], key, k) == Bucket(es, key, k)
    {
      BucketSnoc(es, e, key, k);
    }
    GroupSnoc(Bucket(es, key, key(e)), e, kind);
  }

  /** Adding an entry to the group of a bucket gives the group of the bucket with that entry. */
  lemma {:induction false} GroupSnoc(b: seq<string>, e: string, kind: string -> Kind)
    ensures AddEntry(GroupOf(b, kind), e, kind) == GroupOf(b + [e], kind)
  {
    CollectSnoc(b, e, KindEmit(kind, Album));
    CollectSnoc(b, e, KindEmit(kind, Image));
    CollectSnoc(b, e, KindEmit(kind, Video));
  }

  /** The dict `groups` after the entries es: `keys` are its keys in insertion order and each
      maps to the group of the entries with that key. */
  ghost predicate Grouped(es: seq<string>, key: string -> string, kind: string -> Kind, keys: seq<string>,
                          groups: map<string, Group>)
  {
    && keys == Keys(es, key)
    && (forall k :: k in groups <==> k in keys)
    && (forall k :: k in groups ==> groups[k] == GroupOf(Bucket(es, key, k), kind))
  }

  /** One iteration of getItems' first loop: `groups.get(key, ...)`, the append, `groups[key] = group`. */
  method InsertEntry(ghost es: seq<string>, key: string -> string, kind: string -> Kind, keys: seq<string>,
                     groups: map<string, Group>, entry: string)
    returns (keys': seq<string>, groups': map<string, Group>)
    requires Grouped(es, key, kind, keys, groups)
    ensures Grouped(es + [entry], key, kind, keys', groups')
  {
    var k := key(entry);
    var group := if k in groups then groups[k] else Group([], [], []);
    group := AddEntry(group, entry, kind);
    keys' := if k in groups then keys else keys + [k];
    groups' := groups[k := group];
    KeysAfterInsert(es, key, keys, groups, entry, group);
    GroupsAfterInsert(es, key, kind, groups, entry);
  }

  /** The insertion keeps `keys` the dict's keys in first-appearance order. */
  lemma {:induction false} KeysAfterInsert(es: seq<string>, key: string -> string, keys: seq<string>,
                                           groups: map<string, Group>, e: string, g: Group)
    requires keys == Keys(es, key) && (forall k :: k in groups <==> k in keys)
    ensures var keys' := if key(e) in groups then keys else keys + [key(e)];
      keys' == Keys(es + [e], key) && (forall k :: k in groups[key(e) := g] <==> k in keys')
  {
    KeysSnoc(es, e, key);
  }

  /** The insertion keeps every group the group of its key's bucket. */
  lemma {:induction false} GroupsAfterInsert(es: seq<string>, key: string -> string, kind: string -> Kind,
                                             groups: map<string, Group>, e: string)
    requires forall k :: k in groups <==> k in Keys(es, key)
    requires forall k :: k in groups ==> groups[k] == GroupOf(Bucket(es, key, k), kind)
    ensures var g := if key(e) in groups then groups[key(e)] else Group([], [], []);
      var groups' := groups[key(e) := AddEntry(g, e, kind)];
      forall k :: k in groups' ==> groups'[k] == GroupOf(Bucket(es + [e], key, k), kind)
  {
    var k := key(e);
    if k !in groups {
      BucketOfAbsentKey(es, key, k);
    }
    AddEntryStep(es, e, key, kind);
  }

  /** The loop's iteration i, on the entry es[i]. */
  method InsertNext(es: seq<string>, i: nat, key: string -> string, kind: string -> Kind, keys: seq<string>,
                    groups: map<string, Group>)
    returns (keys': seq<string>, groups': map<string, Group>)
    requires i < |es| && Grouped(es[..i], key, kind, keys, groups)
    ensures Grouped(es[..i + 1], key, kind, keys', groups')
  {
    assert es[..i + 1] == es[..i] + [es[i]];
    keys', groups' := InsertEntry(es[..i], key, kind, keys, groups, es[i]);
  }

  /** getItems' first loop, with the key and the kind test as parameters. */
  method GroupEntries(es: seq<string>, key: string -> string, kind: string -> Kind)
    returns (keys: seq<string>, groups: map<string, Group>)
    ensures Grouped(es, key, kind, keys, groups)
  {
    keys := [];
    groups := map[];
    var i := 0;
    while i < |es|
      invariant i <= |es|
      invariant Grouped(es[..i], key, kind, keys, groups)
    {
      keys, groups := InsertNext(es, i, key, kind, keys, groups);
      i := i + 1;
    }
    assert es[..i] == es;
  }

  /** A VIDEO record: all videos of a stem and its poster image, if it has one. */
  datatype VideoRecord = VideoRecord(videos: seq<string>, poster: Option<string>)

  /** getItems' result: `{ALBUM: [...], IMAGE: [...], VIDEO: [records]}`. */
  datatype Items = Items(albums: seq<string>, images: seq<string>, videos: seq<VideoRecord>)

  /** The first element, if any. */
  function First(s: seq<string>): Option<string>
  {
    if s == [] then None else Some(s[0])
  }

  /** The body of getItems' second loop: the group's albums; then one VIDEO record when the
      group has videos, with its first image as poster, or else each of its images. */
  function AddGroup(items: Items, g: Group): Items
  {
    Items(items.albums + g.albums,
          if g.videos != [] then items.images else items.images + g.images,
          if g.videos != [] then items.videos + [VideoRecord(g.videos, First(g.images))] else items.videos)
  }

  /** The result of getItems' second loop after the groups of the keys ks, in that order. */
  function ItemsOf(es: seq<string>, key: string -> string, kind: string -> Kind, ks: seq<string>): Items
  {
    if ks == [] then Items([], [], [])
    else AddGroup(ItemsOf(es, key, kind, ks[..|ks| - 1]), GroupOf(Bucket(es, key, ks[|ks| - 1]), kind))
  }

  /** What getItems returns for the directory path. */
  function ItemsSpec(fs: Tree, path: string): Items
  {
    var es := Entries(path, Names(fs, path));
    ItemsOf(es, StemKey(), KindTest(fs), Keys(es, StemKey()))
  }

  /** The body of getItems' second loop, appending one element at a time. */
  method AddGroupTo(items: Items, group: Group) returns (items': Items)
    ensures items' == AddGroup(items, group)
  {
    items' := items;
    var m := 0;
    while m < |group.albums|
      invariant m <= |group.albums|
      invariant items' == items.(albums := items.albums + group.albums[..m])
    {
      assert group.albums[..m + 1] == group.albums[..m] + [group.albums[m]];
      items' := items'.(albums := items'.albums + [group.albums[m]]);
      m := m + 1;
    }
    assert group.albums[..m] == group.albums;
    if |group.videos| > 0 {
      var poster := None;
      if |group.images| > 0 {
        poster := Some(group.images[0]);
      }
      items' := items'.(videos := items'.videos + [VideoRecord(group.videos, poster)]);
    } else {
      var before := items';
      m := 0;
      while m < |group.images|
        invariant m <= |group.images|
        invariant items' == before.(images := before.images + group.images[..m])
      {
        assert group.images[..m + 1] == group.images[..m] + [group.images[m]];
        items' := items'.(images := items'.images + [group.images[m]]);
        m := m + 1;
      }
      assert group.images[..m] == group.images;
    }
  }

  lemma {:induction false} ItemsOfStep(es: seq<string>, key: string -> string, kind: string -> Kind, keys: seq<string>, j: nat)
    requires j < |keys|
    ensures ItemsOf(es, key, kind, keys[..j + 1])
         == AddGroup(ItemsOf(es, key, kind, keys[..j]), GroupOf(Bucket(es, key, keys[j]), kind))
  {
    assert keys[..j + 1][..j] == keys[..j];
  }

  /** getItems' second loop, over the groups in the dict's insertion order. */
  method EmitItems(ghost es: seq<string>, ghost key: string -> string, ghost kind: string -> Kind,
                   keys: seq<string>, groups: map<string, Group>)
    returns (items: Items)
    requires forall k :: k in keys ==> k in groups && groups[k] == GroupOf(Bucket(es, key, k), kind)
    ensures items == ItemsOf(es, key, kind, keys)
  {
    items := Items([], [], []);
    var j := 0;
    while j < |keys|
      invariant j <= |keys|
      invariant items == ItemsOf(es, key, kind, keys[..j])
    {
      ItemsOfStep(es, key, kind, keys, j);
      items := AddGroupTo(items, groups[keys[j]]);
      j := j + 1;
    }
    assert keys[..j] == keys;
  }

  /** `getItems(path)`; `os.listdir` needs path to be a directory. */
  method GetItems(fs: Tree, path: string) returns (items: Items)
    requires IsDir(fs, path)
    ensures items == ItemsSpec(fs, path)
  {
    var es := Entries(path, fs[path].names);
    var keys, groups := GroupEntries(es, StemKey(), KindTest(fs));
    items := EmitItems(es, StemKey(), KindTest(fs), keys, groups);
  }

  /** All the videos of the records, record after record. */
  function AllVideos(records: seq<VideoRecord>): seq<string>
  {
    if records == [] then [] else AllVideos(records[..|records| - 1]) + records[|records| - 1].videos
  }

  /** [e] for an image whose stem has no video, else []. */
  function LoneImageEmit(es: seq<string>, key: string -> string, kind: string -> Kind): string -> seq<string>
  {
    e => if kind(e) == Image && OfKind(Bucket(es, key, key(e)), kind, Video) == [] then [e] else []
  }

  /** Two emitters that agree on every element collect the same. */
  lemma {:induction false} CollectAgrees(b: seq<string>, f: string -> seq<string>, g: string -> seq<string>)
    requires forall i :: 0 <= i < |b| ==> f(b[i]) == g(b[i])
    ensures Collect(b, f) == Collect(b, g)
  {
    if b != [] {
      CollectAgrees(b[..|b| - 1], f, g);
    }
  }

  /** Within one bucket the lone images are the bucket's images if it has no video, else none. */
  lemma {:induction false} LoneImagesOfBucket(es: seq<string>, key: string -> string, kind: string -> Kind, k: string)
    ensures var b := Bucket(es, key, k);
      Collect(b, LoneImageEmit(es, key, kind)) == if OfKind(b, kind, Video) == [] then OfKind(b, kind, Image) else []
  {
    var b := Bucket(es, key, k);
    if OfKind(b, kind, Video) == [] {
      CollectAgrees(b, LoneImageEmit(es, key, kind), KindEmit(kind, Image));
    } else {
      CollectAgrees(b, LoneImageEmit(es, key, kind), NoEmit());
      CollectNothing(b);
    }
  }

  function NoEmit(): string -> seq<string>
  {
    e => []
  }

  lemma {:induction false} CollectNothing(b: seq<string>)
    ensures Collect(b, NoEmit()) == []
  {
    if b != [] {
      CollectNothing(b[..|b| - 1]);
    }
  }

  /** Each list of the result, key by key, is what the buckets emit: albums, all videos, and
      the images of the stems without a video. */
  lemma {:induction false} ItemsPerKey(es: seq<string>, key: string -> string, kind: string -> Kind, ks: seq<string>)
    ensures ItemsOf(es, key, kind, ks).albums == PerKey(es, key, ks, KindEmit(kind, Album))
    ensures AllVideos(ItemsOf(es, key, kind, ks).videos) == PerKey(es, key, ks, KindEmit(kind, Video))
    ensures ItemsOf(es, key, kind, ks).images == PerKey(es, key, ks, LoneImageEmit(es, key, kind))
  {
    if ks != [] {
      var init, k := ks[..|ks| - 1], ks[|ks| - 1];
      ItemsPerKey(es, key, kind, init);
      LoneImagesOfBucket(es, key, kind, k);
      var prev := ItemsOf(es, key, kind, init);
      var g := GroupOf(Bucket(es, key, k), kind);
      if g.videos != [] {
        assert AllVideos(prev.videos + [VideoRecord(g.videos, First(g.images))]) == AllVideos(prev.videos) + g.videos;
      }
    }
  }

  /** getItems loses and duplicates nothing: the albums are the folder's directories, the
      videos of all records its videos, and the images the images of stems without a video,
      each as often as listed. */
  lemma {:induction false} ItemsArePermutations(fs: Tree, path: string)
    ensures var es := Entries(path, Names(fs, path));
      var items := ItemsSpec(fs, path);
      && multiset(items.albums) == multiset(OfKind(es, KindTest(fs), Album))
      && multiset(AllVideos(items.videos)) == multiset(OfKind(es, KindTest(fs), Video))
      && multiset(items.images) == multiset(Collect(es, LoneImageEmit(es, StemKey(), KindTest(fs))))
  {
    var es := Entries(path, Names(fs, path));
    var ks := Keys(es, StemKey());
    ItemsPerKey(es, StemKey(), KindTest(fs), ks);
    PerKeyPermutation(es, StemKey(), ks, KindEmit(KindTest(fs), Album));
    PerKeyPermutation(es, StemKey(), ks, KindEmit(KindTest(fs), Video));
    PerKeyPermutation(es, StemKey(), ks, LoneImageEmit(es, StemKey(), KindTest(fs)));
  }

  /** Every subfolder but ".wag" is one of the albums, and every album is a subfolder. */
  lemma {:induction false} SubfoldersAreAlbums(fs: Tree, path: string)
    ensures forall n :: (n in Names(fs, path) && n != WagDir && IsDir(fs, JoinPath(path, n))
      ==> JoinPath(path, n) in ItemsSpec(fs, path).albums)
    ensures forall a :: (a in ItemsSpec(fs, path).albums
      ==> IsDir(fs, a) && exists n :: n in Names(fs, path) && n != WagDir && a == JoinPath(path, n))
  {
    var es := Entries(path, Names(fs, path));
    var albums := ItemsSpec(fs, path).albums;
    ItemsArePermutations(fs, path);
    EntriesOfListing(path, Names(fs, path));
    OfKindMembers(es, KindTest(fs), Album);
    forall n | n in Names(fs, path) && n != WagDir && IsDir(fs, JoinPath(path, n))
      ensures JoinPath(path, n) in albums
    {
      KindOfDirectories(fs, JoinPath(path, n));
      assert JoinPath(path, n) in multiset(OfKind(es, KindTest(fs), Album));
    }
    forall a | a in albums
      ensures IsDir(fs, a) && exists n :: n in Names(fs, path) && n != WagDir && a == JoinPath(path, n)
    {
      assert a in multiset(albums);
      KindOfDirectories(fs, a);
    }
  }

  /** The record a stem with videos gets: all its videos, and its first image as poster. */
  function RecordOf(es: seq<string>, key: string -> string, kind: string -> Kind, k: string): VideoRecord
  {
    var b := Bucket(es, key, k);
    VideoRecord(OfKind(b, kind, Video), First(OfKind(b, kind, Image)))
  }

  /** The VIDEO records are exactly the records of the keys whose group has a video. */
  lemma {:induction false} RecordsOfStems(es: seq<string>, key: string -> string, kind: string -> Kind,
                                          ks: seq<string>, r: VideoRecord)
    ensures r in ItemsOf(es, key, kind, ks).videos <==>
      exists k :: k in ks && OfKind(Bucket(es, key, k), kind, Video) != [] && r == RecordOf(es, key, kind, k)
  {
    if ks != [] {
      var init, last := ks[..|ks| - 1], ks[|ks| - 1];
      RecordsOfStems(es, key, kind, init, r);
      RecordsStep(es, key, kind, ks, r);
      assert forall k :: k in ks <==> k in init || k == last;
    }
  }

  /** The last key's group adds its record, if it has a video, to the records before it. */
  lemma {:induction false} RecordsStep(es: seq<string>, key: string -> string, kind: string -> Kind,
                                       ks: seq<string>, r: VideoRecord)
    requires ks != []
    ensures var last := ks[|ks| - 1];
      r in ItemsOf(es, key, kind, ks).videos <==>
        r in ItemsOf(es, key, kind, ks[..|ks| - 1]).videos
        || (OfKind(Bucket(es, key, last), kind, Video) != [] && r == RecordOf(es, key, kind, last))
  {
  }

  /** The record of a stem with videos holds videos of that stem only, and its poster is an
      image of that stem. */
  lemma {:induction false} RecordOfStem(es: seq<string>, key: string -> string, kind: string -> Kind, k: string)
    requires OfKind(Bucket(es, key, k), kind, Video) != []
    ensures var r := RecordOf(es, key, kind, k);
      && r.videos != [] && key(r.videos[0]) == k
      && (forall v :: v in r.videos ==> kind(v) == Video && key(v) == k)
      && (r.poster.Some? ==> kind(r.poster.value) == Image && key(r.poster.value) == k)
  {
    var b := Bucket(es, key, k);
    OfKindMembers(b, kind, Video);
    OfKindMembers(b, kind, Image);
    assert forall x :: x in b ==> key(x) == k;
    assert OfKind(b, kind, Video)[0] in OfKind(b, kind, Video);
    if OfKind(b, kind, Image) != [] {
      assert OfKind(b, kind, Image)[0] in OfKind(b, kind, Image);
    }
  }

  /** A record's videos are all videos of one stem in listing order, and its poster is that
      stem's first image. */
  lemma {:induction false} RecordShape(fs: Tree, path: string, r: VideoRecord)
    requires r in ItemsSpec(fs, path).videos
    ensures r.videos != []
    ensures r == RecordOf(Entries(path, Names(fs, path)), StemKey(), KindTest(fs), StemOf(r.videos[0]))
    ensures forall v :: v in r.videos ==> IsVideo(fs, v) && StemOf(v) == StemOf(r.videos[0])
    ensures r.poster.Some? ==> IsImage(fs, r.poster.value) && StemOf(r.poster.value) == StemOf(r.videos[0])
  {
    var es := Entries(path, Names(fs, path));
    RecordsOfStems(es, StemKey(), KindTest(fs), Keys(es, StemKey()), r);
    var k :| k in Keys(es, StemKey()) && OfKind(Bucket(es, StemKey(), k), KindTest(fs), Video) != []
      && r == RecordOf(es, StemKey(), KindTest(fs), k);
    RecordOfStem(es, StemKey(), KindTest(fs), k);
    forall v | v in r.videos
      ensures IsVideo(fs, v)
    {
      KindOfDirectories(fs, v);
    }
    if r.poster.Some? {
      KindOfDirectories(fs, r.poster.value);
    }
  }

  /** `len(items[IMAGE])` plus the videos of all records plus the records with a poster: what
      `process` adds to totalItems for the folder's media. */
  function MediaCount(items: Items): nat
  {
    |items.images| + |AllVideos(items.videos)| + PosterCount(items.videos)
  }

  function PosterCount(records: seq<VideoRecord>): nat
  {
    if records == [] then 0
    else PosterCount(records[..|records| - 1]) + (if records[|records| - 1].poster.Some? then 1 else 0)
  }

  /** Each video is counted once, and each image of a stem without a video once. */
  lemma {:induction false} MediaCounted(fs: Tree, path: string)
    ensures var es := Entries(path, Names(fs, path));
      MediaCount(ItemsSpec(fs, path))
      == |Collect(es, LoneImageEmit(es, StemKey(), KindTest(fs)))| + |OfKind(es, KindTest(fs), Video)|
         + PosterCount(ItemsSpec(fs, path).videos)
  {
    ItemsArePermutations(fs, path);
    var es := Entries(path, Names(fs, path));
    var items := ItemsSpec(fs, path);
    assert |multiset(items.images)| == |multiset(Collect(es, LoneImageEmit(es, StemKey(), KindTest(fs))))|;
    assert |multiset(AllVideos(items.videos))| == |multiset(OfKind(es, KindTest(fs), Video))|;
  }

  /** Python keeps ".jpg" whole as a stem with no extension, so a file named ".jpg" is no
      image; the web client's filename/extname split it into "" and "jpg" instead. */
  lemma {:induction false} DotfileIsNoImage(fs: Tree, path: string)
    ensures StemOf(JoinPath(path, ".jpg")) == ".jpg"
    ensures !IsImage(fs, JoinPath(path, ".jpg")) && !IsVideo(fs, JoinPath(path, ".jpg"))
  {
    var p := JoinPath(path, ".jpg");
    BasenameOfJoin(path, ".jpg");
    SplitextDotfile(p);
    BasenameOfJoin("", ".jpg");
    SplitextDotfile(".jpg");
    MediaExtensions(fs, p);
    assert Text.AsciiLower("") == "";
  }
}
