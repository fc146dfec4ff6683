/** The driver of `wagmetagen.py`: `process` walks a folder tree, counting items in
    `totalItems` and thumbnails in `thumbnailsGenerated`, and writes a thumbnail and a
    `meta.json` per album, image, poster and video through `processAlbum`, `processImage` and
    `processVideo`; `main` runs it on one folder. The script's globals are the fields of a
    Generator; the files it writes are logged, in order, as values. */
module MetaGenRun {
  import opened Wrappers
  import opened Seqs
  import opened FileSystem
  import opened PyPath
  import opened PySort
  import opened PyMeta
  import opened PyItems
  import opened Pinkynails
  import opened WagMetaGen
  import opened AlbumMetaGen

  /** What a thumbnail is made from: the album's pinkynails, an image, or a video frame. */
  datatype ThumbSource = Tiles(tiles: seq<Placement>) | OfImage(image: string) | OfFrame(video: string)

  /** One file written into `getMetaDir(path)`: `tn.jpg`, an item's `meta.json` or an album's. */
  datatype Output =
    | Thumbnail(path: string, source: ThumbSource)
    | ItemMetaOut(path: string, meta: Meta)
    | AlbumMetaOut(path: string, album: AlbumMeta)

  /** What a step adds to totalItems and thumbnailsGenerated, and the files it writes. */
  datatype Effect = Effect(total: nat, thumbs: nat, outputs: seq<Output>)
  {
    function Then(next: Effect): Effect
    {
      Effect(total + next.total, thumbs + next.thumbs, outputs + next.outputs)
    }
  }

  const NoEffect := Effect(0, 0, [])

  lemma {:induction false} ThenAssoc(a: Effect, b: Effect, c: Effect)
    ensures a.Then(b).Then(c) == a.Then(b.Then(c))
  {
    assert (a.outputs + b.outputs) + c.outputs == a.outputs + (b.outputs + c.outputs);
  }

  // ---- The folder tree ----

  /** `os.listdir` gives non-empty names without '/'. */
  ghost predicate ListedNames(fs: Tree)
  {
    forall p :: p in fs && fs[p].Directory? ==> PlainListing(fs[p].names)
  }

  ghost predicate PlainListing(names: seq<string>)
  {
    forall n :: n in names ==> n != "" && '/' !in n
  }

  /** A path of a subfolder is longer than its parent's. */
  predicate Longer(sub: string, path: string)
  {
    |sub| > |path|
  }

  /** The paths longer than path: a subfolder's are fewer. */
  ghost function Deeper(fs: Tree, path: string): set<string>
  {
    set p | p in fs.Keys && Longer(p, path)
  }

  lemma {:induction false} DeeperShrinks(fs: Tree, path: string, sub: string)
    requires sub in fs && Longer(sub, path)
    ensures Deeper(fs, sub) < Deeper(fs, path)
  {
    assert sub in Deeper(fs, path) && sub !in Deeper(fs, sub);
  }

  /** Every album of a folder is a directory with a longer path. */
  lemma {:induction false} AlbumsAreDeeper(fs: Tree, path: string)
    requires ListedNames(fs)
    ensures AlbumsBelow(fs, path, ItemsSpec(fs, path))
  {
    SubfoldersAreAlbums(fs, path);
    forall a | a in ItemsSpec(fs, path).albums
      ensures IsDir(fs, a) && Longer(a, path)
    {
      var n :| n in Names(fs, path) && n != WagDir && a == JoinPath(path, n);
      assert IsDir(fs, path) && PlainListing(fs[path].names);
      JoinIsLonger(path, n);
    }
  }

  lemma {:induction false} JoinIsLonger(path: string, n: string)
    requires n != "" && '/' !in n
    ensures |JoinPath(path, n)| > |path|
  {
    assert n[0] in n;
  }

  /** What the writes are made of: each image's and video's `meta.json`, each album's
      `meta.json` and thumbnail tiles, and whether ffmpeg is installed. */
  datatype Sources = Sources(fs: Tree, canReadVideos: bool, items: string -> Items,
                             imageMeta: string -> Meta, videoMeta: string -> Meta,
                             albumMeta: (string, string) -> AlbumMeta, tiles: string -> seq<Placement>)

  /** The sources the script draws on: albumMeta takes the processing base and the folder. */
  function SourcesOf(env: Env): Sources
  {
    Sources(env.fs, env.canReadVideos, ItemsIn(env.fs), ImageMetaIn(env), VideoMetaIn(env),
            AlbumMetaIn(env), TilesIn(env))
  }

  /** extractImageMeta on each image. */
  function ImageMetaIn(env: Env): string -> Meta
  {
    p => ImageMeta(env, p)
  }

  /** extractVideoMeta on each video. */
  function VideoMetaIn(env: Env): string -> Meta
  {
    v => VideoMeta(env, v)
  }

  /** extractAlbumMeta on each folder, for a processing base. */
  function AlbumMetaIn(env: Env): (string, string) -> AlbumMeta
  {
    (base, a) => AlbumMetaOf(env, base, a)
  }

  /** processAlbum's tiles for each folder. */
  function TilesIn(env: Env): string -> seq<Placement>
  {
    a => AlbumTiles(env, a)
  }

  /** getItems on each folder of the tree. */
  function ItemsIn(fs: Tree): string -> Items
  {
    p => ItemsSpec(fs, p)
  }

  /** Every album getItems reports is a directory with a longer path than its parent's. */
  ghost predicate Nested(src: Sources)
  {
    NestedItems(src.fs, src.items)
  }

  ghost predicate NestedItems(fs: Tree, items: string -> Items)
  {
    forall p, a :: a in items(p).albums ==> IsDir(fs, a) && Longer(a, p)
  }

  /** With os.listdir's plain names, getItems' albums are nested. */
  lemma {:induction false} ListedItemsNested(fs: Tree)
    requires ListedNames(fs)
    ensures NestedItems(fs, ItemsIn(fs))
  {
    var items := ItemsIn(fs);
    forall p
      ensures AlbumsBelow(fs, p, items(p))
    {
      assert items(p) == ItemsSpec(fs, p);
      AlbumsAreDeeper(fs, p);
    }
    NestedPointwise(fs, items);
  }

  ghost predicate AlbumsBelow(fs: Tree, path: string, items: Items)
  {
    forall a :: a in items.albums ==> IsDir(fs, a) && Longer(a, path)
  }

  lemma {:induction false} NestedPointwise(fs: Tree, items: string -> Items)
    requires forall p :: AlbumsBelow(fs, p, items(p))
    ensures NestedItems(fs, items)
  {
    forall p, a | a in items(p).albums
      ensures IsDir(fs, a) && Longer(a, p)
    {
      assert AlbumsBelow(fs, p, items(p));
    }
  }

  // ---- processVideo ----

  /** The writes for videos that share a poster: the poster's thumbnail, and the video's meta
      with the poster's laid over it key by key. */
  function PosterVideoOutputs(src: Sources, poster: string, pm: Meta, videos: seq<string>): seq<Output>
  {
    if videos == [] then []
    else
      var v := Last(videos);
      PosterVideoOutputs(src, poster, pm, videos[..|videos| - 1])
        + [Thumbnail(v, OfImage(poster)), ItemMetaOut(v, src.videoMeta(v) + pm)]
  }

  /** The writes for videos without a poster: a frame's thumbnail and the video's own meta. */
  function FrameVideoOutputs(src: Sources, videos: seq<string>): seq<Output>
  {
    if videos == [] then []
    else
      var v := Last(videos);
      FrameVideoOutputs(src, videos[..|videos| - 1]) + [Thumbnail(v, OfFrame(v)), ItemMetaOut(v, src.videoMeta(v))]
  }

  /** `processVideo(group)`. */
  function VideoEffect(src: Sources, r: VideoRecord): Effect
  {
    if r.poster.Some? then
      var p := r.poster.value;
      var pm := src.imageMeta(p);
      Effect(0, 1 + |r.videos|, [Thumbnail(p, OfImage(p)), ItemMetaOut(p, pm)] + PosterVideoOutputs(src, p, pm, r.videos))
    else if src.canReadVideos then Effect(0, |r.videos|, FrameVideoOutputs(src, r.videos))
    else NoEffect
  }

  /** `processImage(path)`. */
  function ImageEffect(src: Sources, p: string): Effect
  {
    Effect(0, 1, [Thumbnail(p, OfImage(p)), ItemMetaOut(p, src.imageMeta(p))])
  }

  function ImagesEffect(src: Sources, images: seq<string>): Effect
  {
    if images == [] then NoEffect
    else ImagesEffect(src, images[..|images| - 1]).Then(ImageEffect(src, Last(images)))
  }

  function RecordsEffect(src: Sources, rs: seq<VideoRecord>): Effect
  {
    if rs == [] then NoEffect else RecordsEffect(src, rs[..|rs| - 1]).Then(VideoEffect(src, Last(rs)))
  }

  // ---- processAlbum ----

  /** The sort key of a video record: `sorted(video[VIDEO])[0]`. */
  function VideoKey(r: VideoRecord): string
  {
    if r.videos == [] then "" else Least(r.videos)
  }

  /** The corners the pinkynails are painted at. */
  function Placements(nails: seq<Pinkynail>): seq<Placement>
  {
    seq(|nails|, i requires 0 <= i < |nails| => Placement(NailX(i), NailY(i), nails[i]))
  }

  /** The album thumbnail's tiles: the first four candidates from the sub-album icon, the
      sorted images and the records sorted by their least video, each at its corner. */
  function AlbumTiles(env: Env, path: string): seq<Placement>
  {
    var items := ItemsSpec(env.fs, path);
    Placements(Take(Candidates(items.albums != [], SortStrings(items.images), Sort(items.videos, VideoKey),
                               env.canReadVideos), MaxPinkynails))
  }

  /** `processAlbum(path)`: the album thumbnail and the album's `meta.json`. */
  function AlbumEffect(src: Sources, base: string, path: string): Effect
  {
    Effect(0, 1, [Thumbnail(path, Tiles(src.tiles(path))), AlbumMetaOut(path, src.albumMeta(base, path))])
  }

  // ---- process ----

  /** `process(path)`: the album, the count of its media, its images, its video records and,
      recursively, its subfolders. */
  function ProcessEffect(src: Sources, base: string, path: string): Effect
    requires Nested(src) && IsDir(src.fs, path)
    decreases Deeper(src.fs, path), 1, 0
  {
    FolderEffect(src, base, path).Then(SubsEffect(src, base, path, src.items(path).albums))
  }

  /** What process(path) does before it recurses: count the album and its media, then
      processAlbum, processImage on each image and processVideo on each video record. */
  function FolderEffect(src: Sources, base: string, path: string): Effect
  {
    var items := src.items(path);
    Effect(1, 0, [])
      .Then(AlbumEffect(src, base, path))
      .Then(Effect(MediaCount(items), 0, []))
      .Then(ImagesEffect(src, items.images))
      .Then(RecordsEffect(src, items.videos))
  }

  /** `for subfolder in subs: process(subfolder)`. */
  function SubsEffect(src: Sources, base: string, parent: string, subs: seq<string>): Effect
    requires Nested(src)
    requires forall s :: s in subs ==> IsDir(src.fs, s) && Longer(s, parent)
    decreases Deeper(src.fs, parent), 0, |subs|
  {
    if subs == [] then NoEffect
    else
      var s := Last(subs);
      assert s in subs && IsDir(src.fs, s);
      DeeperShrinks(src.fs, parent, s);
      SubsEffect(src, base, parent, subs[..|subs| - 1]).Then(ProcessEffect(src, base, s))
  }

  // ---- The script's state ----

  class Generator {
    /** The file tree and the extraction functions the script runs with. */
    const src: Sources
    var processingBase: string
    var totalItems: nat
    var thumbnailsGenerated: nat
    /** Every file written so far, in order. */
    var outputs: seq<Output>

    /** The two counters and the files written, as one value. */
    ghost function State(): Effect
      reads this
    {
      Effect(totalItems, thumbnailsGenerated, outputs)
    }

    /** The module's globals as loaded: no base yet, both counters at zero. */
    constructor (env: Env)
      ensures src == SourcesOf(env) && (ListedNames(env.fs) ==> Nested(src))
      ensures processingBase == "" && totalItems == 0 && thumbnailsGenerated == 0 && outputs == []
    {
      src := SourcesOf(env);
      if ListedNames(env.fs) {
        ListedItemsNested(env.fs);
      }
      processingBase := "";
      totalItems := 0;
      thumbnailsGenerated := 0;
      outputs := [];
    }

    /** `processImage(path)`. */
    method ProcessImage(path: string)
      modifies this
      ensures processingBase == old(processingBase)
      ensures State() == old(State()).Then(ImageEffect(src, path))
    {
      var meta := src.imageMeta(path);
      outputs := outputs + [Thumbnail(path, OfImage(path)), ItemMetaOut(path, meta)];
      thumbnailsGenerated := thumbnailsGenerated + 1;
    }

    /** `processVideo(group)`: nothing without a poster and without ffmpeg. */
    method ProcessVideo(r: VideoRecord)
      modifies this
      ensures processingBase == old(processingBase)
      ensures State() == old(State()).Then(VideoEffect(src, r))
    {
      if r.poster.None? && !src.canReadVideos {
        return;
      }
      if r.poster.Some? {
        var p := r.poster.value;
        var meta := src.imageMeta(p);
        outputs := outputs + [Thumbnail(p, OfImage(p)), ItemMetaOut(p, meta)];
        thumbnailsGenerated := thumbnailsGenerated + 1;
        ProcessPosteredVideos(p, meta, r.videos);
      } else {
        ProcessFramedVideos(r.videos);
      }
    }

    /** processVideo's loop over the videos of a group with a poster. */
    method ProcessPosteredVideos(p: string, meta: Meta, videos: seq<string>)
      modifies this
      ensures processingBase == old(processingBase) && totalItems == old(totalItems)
      ensures thumbnailsGenerated == old(thumbnailsGenerated) + |videos|
      ensures outputs == old(outputs) + PosterVideoOutputs(src, p, meta, videos)
    {
      var i := 0;
      while i < |videos|
        invariant i <= |videos|
        invariant outputs == old(outputs) + PosterVideoOutputs(src, p, meta, videos[..i])
        invariant thumbnailsGenerated == old(thumbnailsGenerated) + i
        invariant processingBase == old(processingBase) && totalItems == old(totalItems)
      {
        var v := videos[i];
        assert videos[..i + 1][..i] == videos[..i];
        var videoMeta := src.videoMeta(v);
        videoMeta := videoMeta + meta;
        outputs := outputs + [Thumbnail(v, OfImage(p)), ItemMetaOut(v, videoMeta)];
        thumbnailsGenerated := thumbnailsGenerated + 1;
        i := i + 1;
      }
      assert videos[..i] == videos;
    }

    /** processVideo's loop over the videos of a group without a poster. */
    method ProcessFramedVideos(videos: seq<string>)
      modifies this
      ensures processingBase == old(processingBase) && totalItems == old(totalItems)
      ensures thumbnailsGenerated == old(thumbnailsGenerated) + |videos|
      ensures outputs == old(outputs) + FrameVideoOutputs(src, videos)
    {
      var i := 0;
      while i < |videos|
        invariant i <= |videos|
        invariant outputs == old(outputs) + FrameVideoOutputs(src, videos[..i])
        invariant thumbnailsGenerated == old(thumbnailsGenerated) + i
        invariant processingBase == old(processingBase) && totalItems == old(totalItems)
      {
        var v := videos[i];
        assert videos[..i + 1][..i] == videos[..i];
        outputs := outputs + [Thumbnail(v, OfFrame(v)), ItemMetaOut(v, src.videoMeta(v))];
        thumbnailsGenerated := thumbnailsGenerated + 1;
        i := i + 1;
      }
      assert videos[..i] == videos;
    }

    /** `processAlbum(path)`. */
    method ProcessAlbum(path: string)
      requires IsDir(src.fs, path)
      modifies this
      ensures processingBase == old(processingBase)
      ensures State() == old(State()).Then(AlbumEffect(src, processingBase, path))
    {
      var tiles := src.tiles(path);
      var meta := src.albumMeta(processingBase, path);
      outputs := outputs + [Thumbnail(path, Tiles(tiles)), AlbumMetaOut(path, meta)];
      thumbnailsGenerated := thumbnailsGenerated + 1;
    }

    method ProcessImages(images: seq<string>)
      modifies this
      ensures processingBase == old(processingBase)
      ensures State() == old(State()).Then(ImagesEffect(src, images))
    {
      var i := 0;
      while i < |images|
        invariant i <= |images|
        invariant processingBase == old(processingBase)
        invariant State() == old(State()).Then(ImagesEffect(src, images[..i]))
      {
        assert images[..i + 1][..i] == images[..i];
        ProcessImage(images[i]);
        ThenAssoc(old(State()), ImagesEffect(src, images[..i]), ImageEffect(src, images[i]));
        i := i + 1;
      }
      assert images[..i] == images;
    }

    method ProcessVideos(rs: seq<VideoRecord>)
      modifies this
      ensures processingBase == old(processingBase)
      ensures State() == old(State()).Then(RecordsEffect(src, rs))
    {
      var i := 0;
      while i < |rs|
        invariant i <= |rs|
        invariant processingBase == old(processingBase)
        invariant State() == old(State()).Then(RecordsEffect(src, rs[..i]))
      {
        assert rs[..i + 1][..i] == rs[..i];
        ProcessVideo(rs[i]);
        ThenAssoc(old(State()), RecordsEffect(src, rs[..i]), VideoEffect(src, rs[i]));
        i := i + 1;
      }
      assert rs[..i] == rs;
    }

    /** `process(path)`. */
    method Process(path: string)
      requires Nested(src) && IsDir(src.fs, path)
      modifies this
      decreases Deeper(src.fs, path), 1
      ensures processingBase == old(processingBase)
      ensures State() == old(State()).Then(ProcessEffect(src, processingBase, path))
    {
      var albums := ProcessFolder(path);
      ProcessSubfolders(path, albums);
      ThenAssoc(old(State()), FolderEffect(src, processingBase, path), SubsEffect(src, processingBase, path, albums));
    }

    /** process(path) up to its recursion; gives back the sub-albums it found. */
    method ProcessFolder(path: string) returns (albums: seq<string>)
      requires IsDir(src.fs, path)
      modifies this
      ensures albums == src.items(path).albums
      ensures processingBase == old(processingBase)
      ensures State() == old(State()).Then(FolderEffect(src, processingBase, path))
    {
      ghost var s0 := State();
      totalItems := totalItems + 1;
      ProcessAlbum(path);
      ghost var a := Effect(1, 0, []).Then(AlbumEffect(src, processingBase, path));
      assert State() == s0.Then(a);
      var items := src.items(path);
      totalItems := totalItems + |items.images|;
      totalItems := totalItems + |AllVideos(items.videos)|;
      totalItems := totalItems + PosterCount(items.videos);
      ghost var m := a.Then(Effect(MediaCount(items), 0, []));
      assert State() == s0.Then(m);
      ProcessImages(items.images);
      ThenAssoc(s0, m, ImagesEffect(src, items.images));
      ghost var im := m.Then(ImagesEffect(src, items.images));
      ProcessVideos(items.videos);
      ThenAssoc(s0, im, RecordsEffect(src, items.videos));
      albums := items.albums;
    }

    /** `for subfolder in items[ALBUM]: process(subfolder)`. */
    method ProcessSubfolders(parent: string, subs: seq<string>)
      requires Nested(src)
      requires forall s :: s in subs ==> IsDir(src.fs, s) && Longer(s, parent)
      modifies this
      decreases Deeper(src.fs, parent), 0
      ensures processingBase == old(processingBase)
      ensures State() == old(State()).Then(SubsEffect(src, processingBase, parent, subs))
    {
      var i := 0;
      while i < |subs|
        invariant i <= |subs|
        invariant processingBase == old(processingBase)
        invariant State() == old(State()).Then(SubsEffect(src, processingBase, parent, subs[..i]))
      {
        assert subs[..i + 1][..i] == subs[..i];
        assert subs[i] in subs;
        DeeperShrinks(src.fs, parent, subs[i]);
        Process(subs[i]);
        ThenAssoc(old(State()), SubsEffect(src, processingBase, parent, subs[..i]), ProcessEffect(src, processingBase, subs[i]));
        i := i + 1;
      }
      assert subs[..i] == subs;
    }

    /** `main([folder])`: the folder becomes the processing base and both counters restart. */
    method Run(folder: string)
      requires Nested(src) && IsDir(src.fs, folder)
      modifies this
      ensures processingBase == folder
      ensures totalItems == ProcessEffect(src, folder, folder).total
      ensures thumbnailsGenerated == ProcessEffect(src, folder, folder).thumbs
      ensures outputs == old(outputs) + ProcessEffect(src, folder, folder).outputs
    {
      processingBase := folder;
      totalItems := 0;
      thumbnailsGenerated := 0;
      Process(processingBase);
    }
  }

  /** processAlbum's pinkynails: the sub-album icon, the sorted images, then the records in
      the order of their least video, the first four of them at their corners. */
  method AlbumThumbnail(env: Env, path: string) returns (tiles: seq<Placement>)
    requires IsDir(env.fs, path)
    ensures tiles == AlbumTiles(env, path)
  {
    var items := GetItems(env.fs, path);
    var images := SortStrings(items.images);
    var records := Sort(items.videos, VideoKey);
    RecordsHaveVideos(env.fs, path, items.videos, records);
    var nails := SelectPinkynails(|items.albums| > 0, images, records, env.canReadVideos);
    tiles := PlacePinkynails(nails);
    assert tiles == Placements(nails);
  }

  /** Sorting keeps the records, so each still has a video. */
  lemma {:induction false} RecordsHaveVideos(fs: Tree, path: string, rs: seq<VideoRecord>, sorted: seq<VideoRecord>)
    requires rs == ItemsSpec(fs, path).videos && sorted == Sort(rs, VideoKey)
    ensures forall i :: 0 <= i < |sorted| ==> sorted[i].videos != []
  {
    SortSortsAndPermutes(rs, VideoKey);
    forall i | 0 <= i < |sorted|
      ensures sorted[i].videos != []
    {
      assert sorted[i] in multiset(rs);
      RecordShape(fs, path, sorted[i]);
    }
  }
}
