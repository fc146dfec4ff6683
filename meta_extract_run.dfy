/** A run of `wagmetaextract.py`: `main` processes each folder given, `process` counts a
    folder's sub-albums and media, writes each sub-album's thumbnail and each item's
    thumbnail and `meta.json`, and recurses only with `-r`. As for wagmetagen.py, writes are
    recorded as Output values and the counters as an Effect. */
module MetaExtractRun {
  import opened Wrappers
  import opened Seqs
  import opened FileSystem
  import opened PyMeta
  import opened PyItems
  import opened Pinkynails
  import opened WagMetaExtract
  import opened MetaGenRun

  /** What the writes of wagmetaextract.py are made of: the folders' items, each image's and
      video's `meta.json`, each album's thumbnail tiles, and whether ffmpeg is installed. */
  datatype Inputs = Inputs(fs: Tree, canReadVideos: bool, items: string -> Items,
                           imageMeta: string -> Meta, videoMeta: string -> Meta,
                           tiles: string -> seq<Placement>)

  /** The inputs the script draws on. */
  function InputsOf(env: Env): Inputs
  {
    Inputs(env.fs, env.canReadVideos, ItemsIn(env.fs), RawImageMetaIn(env), RawVideoMetaIn(env),
           ListingTilesIn(env))
  }

  /** extractImageMeta on each image. */
  function RawImageMetaIn(env: Env): string -> Meta
  {
    p => RawImageMeta(env.image(p))
  }

  /** extractVideoMeta on each video. */
  function RawVideoMetaIn(env: Env): string -> Meta
  {
    v => RawVideoMeta(env, v)
  }

  /** processAlbum's tiles for each folder. */
  function ListingTilesIn(env: Env): string -> seq<Placement>
  {
    a => ListingTiles(env, a)
  }

  /** The album thumbnail's tiles: the first four candidates from the sub-album icon, the
      images and the video records in getItems' order, each at its corner. */
  function ListingTiles(env: Env, path: string): seq<Placement>
  {
    var items := ItemsSpec(env.fs, path);
    Placements(Take(Candidates(items.albums != [], items.images, items.videos, env.canReadVideos),
                    MaxPinkynails))
  }

  /** `processAlbum(path)`'s pinkynails, without sorting, at their corners. */
  method ListingThumbnail(env: Env, path: string) returns (tiles: seq<Placement>)
    requires IsDir(env.fs, path)
    ensures tiles == ListingTiles(env, path)
  {
    var items := GetItems(env.fs, path);
    forall i | 0 <= i < |items.videos|
      ensures items.videos[i].videos != []
    {
      RecordShape(env.fs, path, items.videos[i]);
    }
    var nails := SelectPinkynails(|items.albums| > 0, items.images, items.videos, env.canReadVideos);
    tiles := PlacePinkynails(nails);
    assert tiles == Placements(nails);
  }

  /** Every album getItems reports is a directory with a longer path. */
  ghost predicate Nests(inputs: Inputs)
  {
    NestedItems(inputs.fs, inputs.items)
  }

  // ---- What each step writes ----

  /** The writes for the videos of a postered record: the poster's thumbnail and the
      poster's own metadata, unchanged, for each. */
  function SharedPosterOutputs(poster: string, pm: Meta, videos: seq<string>): seq<Output>
  {
    if videos == [] then []
    else
      var v := Last(videos);
      SharedPosterOutputs(poster, pm, videos[..|videos| - 1]) + [Thumbnail(v, OfImage(poster)), ItemMetaOut(v, pm)]
  }

  /** The writes for videos without a poster: a frame's thumbnail and the video's meta. */
  function FrameOutputs(inputs: Inputs, videos: seq<string>): seq<Output>
  {
    if videos == [] then []
    else
      var v := Last(videos);
      FrameOutputs(inputs, videos[..|videos| - 1]) + [Thumbnail(v, OfFrame(v)), ItemMetaOut(v, inputs.videoMeta(v))]
  }

  /** `processVideo(group)`. */
  function VideoStep(inputs: Inputs, r: VideoRecord): Effect
  {
    if r.poster.Some? then
      var p := r.poster.value;
      var pm := inputs.imageMeta(p);
      Effect(0, 1 + |r.videos|, [Thumbnail(p, OfImage(p)), ItemMetaOut(p, pm)] + SharedPosterOutputs(p, pm, r.videos))
    else if inputs.canReadVideos then Effect(0, |r.videos|, FrameOutputs(inputs, r.videos))
    else NoEffect
  }

  function VideoSteps(inputs: Inputs, rs: seq<VideoRecord>): Effect
  {
    if rs == [] then NoEffect else VideoSteps(inputs, rs[..|rs| - 1]).Then(VideoStep(inputs, Last(rs)))
  }

  /** `processImage(path)`. */
  function ImageStep(inputs: Inputs, p: string): Effect
  {
    Effect(0, 1, [Thumbnail(p, OfImage(p)), ItemMetaOut(p, inputs.imageMeta(p))])
  }

  function ImageSteps(inputs: Inputs, images: seq<string>): Effect
  {
    if images == [] then NoEffect else ImageSteps(inputs, images[..|images| - 1]).Then(ImageStep(inputs, Last(images)))
  }

  /** `processAlbum(path)`: only the thumbnail. */
  function AlbumStep(inputs: Inputs, a: string): Effect
  {
    Effect(0, 1, [Thumbnail(a, Tiles(inputs.tiles(a)))])
  }

  function AlbumSteps(inputs: Inputs, albums: seq<string>): Effect
  {
    if albums == [] then NoEffect else AlbumSteps(inputs, albums[..|albums| - 1]).Then(AlbumStep(inputs, Last(albums)))
  }

  /** What process(path) does before it recurses: count the sub-albums and the media, then
      processAlbum on each sub-album, processImage on each image, processVideo on each
      record. */
  function FolderStep(inputs: Inputs, path: string): Effect
  {
    var items := inputs.items(path);
    Effect(|items.albums| + MediaCount(items), 0, [])
      .Then(AlbumSteps(inputs, items.albums))
      .Then(ImageSteps(inputs, items.images))
      .Then(VideoSteps(inputs, items.videos))
  }

  /** `process(path, recurse)`. */
  function ProcessStep(inputs: Inputs, path: string, recurse: bool): Effect
    requires Nests(inputs) && IsDir(inputs.fs, path)
    decreases Deeper(inputs.fs, path), 1, 0
  {
    if recurse then FolderStep(inputs, path).Then(SubSteps(inputs, path, inputs.items(path).albums))
    else FolderStep(inputs, path)
  }

  /** `for subfolder in items[ALBUM]: process(subfolder, recurse)` with recurse set. */
  function SubSteps(inputs: Inputs, parent: string, subs: seq<string>): Effect
    requires Nests(inputs)
    requires forall s :: s in subs ==> IsDir(inputs.fs, s) && Longer(s, parent)
    decreases Deeper(inputs.fs, parent), 0, |subs|
  {
    if subs == [] then NoEffect
    else
      var s := Last(subs);
      assert s in subs && IsDir(inputs.fs, s);
      DeeperShrinks(inputs.fs, parent, s);
      SubSteps(inputs, parent, subs[..|subs| - 1]).Then(ProcessStep(inputs, s, true))
  }

  /** Every folder named is a directory. */
  ghost predicate AllDirs(fs: Tree, paths: seq<string>)
  {
    forall k :: 0 <= k < |paths| ==> IsDir(fs, paths[k])
  }

  /** The processing base, with the counters and the files written. */
  datatype Progress = Progress(base: string, effect: Effect)

  /** The state after `main(folders)`, from the state `before`: each folder becomes the
      processing base and restarts both counters, and its files follow those already
      written. */
  ghost function Main(inputs: Inputs, folders: seq<string>, recursive: bool, before: Progress): Progress
    requires Nests(inputs) && AllDirs(inputs.fs, folders)
  {
    if folders == [] then before
    else
      var done := Main(inputs, folders[..|folders| - 1], recursive, before);
      Progress(Last(folders), Effect(0, 0, done.effect.outputs).Then(ProcessStep(inputs, Last(folders), recursive)))
  }

  lemma {:induction false} AllDirsPrefix(fs: Tree, folders: seq<string>, n: nat)
    requires AllDirs(fs, folders) && n <= |folders|
    ensures AllDirs(fs, folders[..n])
  {
    forall k | 0 <= k < n
      ensures IsDir(fs, folders[..n][k])
    {
      assert folders[..n][k] == folders[k];
    }
  }

  /** main over one more folder. */
  lemma {:induction false} MainSnoc(inputs: Inputs, folders: seq<string>, i: nat, recursive: bool, before: Progress)
    requires Nests(inputs) && AllDirs(inputs.fs, folders) && i < |folders|
    ensures AllDirs(inputs.fs, folders[..i]) && IsDir(inputs.fs, folders[i])
    ensures Main(inputs, folders[..i + 1], recursive, before)
            == Progress(folders[i], Effect(0, 0, Main(inputs, folders[..i], recursive, before).effect.outputs)
                                      .Then(ProcessStep(inputs, folders[i], recursive)))
  {
    var pre := folders[..i + 1];
    assert pre[..|pre| - 1] == folders[..i];
  }

  /** Every file `main` writes for the folders, one folder after the other. */
  ghost function RunOutputs(inputs: Inputs, folders: seq<string>, recursive: bool): seq<Output>
    requires Nests(inputs) && AllDirs(inputs.fs, folders)
  {
    if folders == [] then []
    else RunOutputs(inputs, folders[..|folders| - 1], recursive) + ProcessStep(inputs, Last(folders), recursive).outputs
  }

  /** After main, the last folder is the processing base and the counters are its own, and
      the files written are those of every folder's process, in order, after those already
      written. */
  lemma {:induction false} MainEffect(inputs: Inputs, folders: seq<string>, recursive: bool, before: Progress)
    requires Nests(inputs) && AllDirs(inputs.fs, folders)
    ensures var after := Main(inputs, folders, recursive, before);
      && after.effect.outputs == before.effect.outputs + RunOutputs(inputs, folders, recursive)
      && (folders != [] ==>
            && after.base == Last(folders)
            && after.effect.total == ProcessStep(inputs, Last(folders), recursive).total
            && after.effect.thumbs == ProcessStep(inputs, Last(folders), recursive).thumbs)
  {
    if folders != [] {
      var init := folders[..|folders| - 1];
      MainEffect(inputs, init, recursive, before);
      AppendAssoc(before.effect.outputs, RunOutputs(inputs, init, recursive),
                  ProcessStep(inputs, Last(folders), recursive).outputs);
    }
  }

  // ---- The script's state ----

  class Extractor {
    /** The file tree and the extraction functions the script runs with. */
    const inputs: Inputs
    var processingBase: string
    var totalItems: nat
    var thumbnailsGenerated: nat
    /** Every file written so far, in order. */
    var outputs: seq<Output>

    /** The two counters and the files written, as one value. */
    ghost function State(): Effect
      reads this
    {
      Effect(totalItems, thumbnailsGenerated, outputs)
    }

    /** The processing base and State(). */
    ghost function Now(): Progress
      reads this
    {
      Progress(processingBase, State())
    }

    /** The module's globals as loaded: no base yet, both counters at zero. */
    constructor (env: Env)
      ensures inputs == InputsOf(env) && (ListedNames(env.fs) ==> Nests(inputs))
      ensures processingBase == "" && totalItems == 0 && thumbnailsGenerated == 0 && outputs == []
    {
      inputs := InputsOf(env);
      if ListedNames(env.fs) {
        ListedItemsNested(env.fs);
      }
      processingBase := "";
      totalItems := 0;
      thumbnailsGenerated := 0;
      outputs := [];
    }

    /** `processImage(path)`. */
    method ProcessImage(path: string)
      modifies this
      ensures processingBase == old(processingBase)
      ensures State() == old(State()).Then(ImageStep(inputs, path))
    {
      var meta := inputs.imageMeta(path);
      outputs := outputs + [Thumbnail(path, OfImage(path)), ItemMetaOut(path, meta)];
      thumbnailsGenerated := thumbnailsGenerated + 1;
    }

    /** `processVideo(group)`: nothing without a poster and without ffmpeg. */
    method ProcessVideo(r: VideoRecord)
      modifies this
      ensures processingBase == old(processingBase)
      ensures State() == old(State()).Then(VideoStep(inputs, r))
    {
      if r.poster.None? && !inputs.canReadVideos {
        return;
      }
      if r.poster.Some? {
        var p := r.poster.value;
        var meta := inputs.imageMeta(p);
        outputs := outputs + [Thumbnail(p, OfImage(p)), ItemMetaOut(p, meta)];
        thumbnailsGenerated := thumbnailsGenerated + 1;
        ProcessPosteredVideos(p, meta, r.videos);
      } else {
        ProcessFramedVideos(r.videos);
      }
    }

    /** processVideo's loop over the videos of a group with a poster. */
    method ProcessPosteredVideos(p: string, meta: Meta, videos: seq<string>)
      modifies this
      ensures processingBase == old(processingBase) && totalItems == old(totalItems)
      ensures thumbnailsGenerated == old(thumbnailsGenerated) + |videos|
      ensures outputs == old(outputs) + SharedPosterOutputs(p, meta, videos)
    {
      var i := 0;
      while i < |videos|
        invariant i <= |videos|
        invariant outputs == old(outputs) + SharedPosterOutputs(p, meta, videos[..i])
        invariant thumbnailsGenerated == old(thumbnailsGenerated) + i
        invariant processingBase == old(processingBase) && totalItems == old(totalItems)
      {
        var v := videos[i];
        assert videos[..i + 1][..i] == videos[..i];
        outputs := outputs + [Thumbnail(v, OfImage(p)), ItemMetaOut(v, meta)];
        thumbnailsGenerated := thumbnailsGenerated + 1;
        i := i + 1;
      }
      assert videos[..i] == videos;
    }

    /** processVideo's loop over the videos of a group without a poster. */
    method ProcessFramedVideos(videos: seq<string>)
      modifies this
      ensures processingBase == old(processingBase) && totalItems == old(totalItems)
      ensures thumbnailsGenerated == old(thumbnailsGenerated) + |videos|
      ensures outputs == old(outputs) + FrameOutputs(inputs, videos)
    {
      var i := 0;
      while i < |videos|
        invariant i <= |videos|
        invariant outputs == old(outputs) + FrameOutputs(inputs, videos[..i])
        invariant thumbnailsGenerated == old(thumbnailsGenerated) + i
        invariant processingBase == old(processingBase) && totalItems == old(totalItems)
      {
        var v := videos[i];
        assert videos[..i + 1][..i] == videos[..i];
        outputs := outputs + [Thumbnail(v, OfFrame(v)), ItemMetaOut(v, inputs.videoMeta(v))];
        thumbnailsGenerated := thumbnailsGenerated + 1;
        i := i + 1;
      }
      assert videos[..i] == videos;
    }

    /** `processAlbum(path)`. */
    method ProcessAlbum(path: string)
      requires IsDir(inputs.fs, path)
      modifies this
      ensures processingBase == old(processingBase)
      ensures State() == old(State()).Then(AlbumStep(inputs, path))
    {
      var tiles := inputs.tiles(path);
      outputs := outputs + [Thumbnail(path, Tiles(tiles))];
      thumbnailsGenerated := thumbnailsGenerated + 1;
    }

    method ProcessAlbums(albums: seq<string>)
      requires forall a :: a in albums ==> IsDir(inputs.fs, a)
      modifies this
      ensures processingBase == old(processingBase)
      ensures State() == old(State()).Then(AlbumSteps(inputs, albums))
    {
      var i := 0;
      while i < |albums|
        invariant i <= |albums|
        invariant processingBase == old(processingBase)
        invariant State() == old(State()).Then(AlbumSteps(inputs, albums[..i]))
      {
        assert albums[..i + 1][..i] == albums[..i];
        assert albums[i] in albums;
        ProcessAlbum(albums[i]);
        ThenAssoc(old(State()), AlbumSteps(inputs, albums[..i]), AlbumStep(inputs, albums[i]));
        i := i + 1;
      }
      assert albums[..i] == albums;
    }

    method ProcessImages(images: seq<string>)
      modifies this
      ensures processingBase == old(processingBase)
      ensures State() == old(State()).Then(ImageSteps(inputs, images))
    {
      var i := 0;
      while i < |images|
        invariant i <= |images|
        invariant processingBase == old(processingBase)
        invariant State() == old(State()).Then(ImageSteps(inputs, images[..i]))
      {
        assert images[..i + 1][..i] == images[..i];
        ProcessImage(images[i]);
        ThenAssoc(old(State()), ImageSteps(inputs, images[..i]), ImageStep(inputs, images[i]));
        i := i + 1;
      }
      assert images[..i] == images;
    }

    method ProcessVideos(rs: seq<VideoRecord>)
      modifies this
      ensures processingBase == old(processingBase)
      ensures State() == old(State()).Then(VideoSteps(inputs, rs))
    {
      var i := 0;
      while i < |rs|
        invariant i <= |rs|
        invariant processingBase == old(processingBase)
        invariant State() == old(State()).Then(VideoSteps(inputs, rs[..i]))
      {
        assert rs[..i + 1][..i] == rs[..i];
        ProcessVideo(rs[i]);
        ThenAssoc(old(State()), VideoSteps(inputs, rs[..i]), VideoStep(inputs, rs[i]));
        i := i + 1;
      }
      assert rs[..i] == rs;
    }

    /** `process(path, recurse)`. */
    method Process(path: string, recurse: bool)
      requires Nests(inputs) && IsDir(inputs.fs, path)
      modifies this
      decreases Deeper(inputs.fs, path), 1
      ensures processingBase == old(processingBase)
      ensures State() == old(State()).Then(ProcessStep(inputs, path, recurse))
    {
      var albums := ProcessFolder(path);
      if recurse {
        ProcessSubfolders(path, albums);
        ThenAssoc(old(State()), FolderStep(inputs, path), SubSteps(inputs, path, albums));
      }
    }

    /** process(path, recurse) up to its recursion; gives back the sub-albums it found. */
    method ProcessFolder(path: string) returns (albums: seq<string>)
      requires Nests(inputs) && IsDir(inputs.fs, path)
      modifies this
      ensures albums == inputs.items(path).albums
      ensures processingBase == old(processingBase)
      ensures State() == old(State()).Then(FolderStep(inputs, path))
    {
      ghost var s0 := State();
      var items := inputs.items(path);
      totalItems := totalItems + |items.albums|;
      totalItems := totalItems + |items.images|;
      totalItems := totalItems + |AllVideos(items.videos)|;
      totalItems := totalItems + PosterCount(items.videos);
      ghost var c := Effect(|items.albums| + MediaCount(items), 0, []);
      assert State() == s0.Then(c);
      ProcessAlbums(items.albums);
      ThenAssoc(s0, c, AlbumSteps(inputs, items.albums));
      ghost var ca := c.Then(AlbumSteps(inputs, items.albums));
      ProcessImages(items.images);
      ThenAssoc(s0, ca, ImageSteps(inputs, items.images));
      ghost var ci := ca.Then(ImageSteps(inputs, items.images));
      ProcessVideos(items.videos);
      ThenAssoc(s0, ci, VideoSteps(inputs, items.videos));
      albums := items.albums;
    }

    /** `for subfolder in items[ALBUM]: process(subfolder, recurse)`. */
    method ProcessSubfolders(parent: string, subs: seq<string>)
      requires Nests(inputs)
      requires forall s :: s in subs ==> IsDir(inputs.fs, s) && Longer(s, parent)
      modifies this
      decreases Deeper(inputs.fs, parent), 0
      ensures processingBase == old(processingBase)
      ensures State() == old(State()).Then(SubSteps(inputs, parent, subs))
    {
      var i := 0;
      while i < |subs|
        invariant i <= |subs|
        invariant processingBase == old(processingBase)
        invariant State() == old(State()).Then(SubSteps(inputs, parent, subs[..i]))
      {
        assert subs[..i + 1][..i] == subs[..i];
        assert subs[i] in subs;
        DeeperShrinks(inputs.fs, parent, subs[i]);
        Process(subs[i], true);
        ThenAssoc(old(State()), SubSteps(inputs, parent, subs[..i]), ProcessStep(inputs, subs[i], true));
        i := i + 1;
      }
      assert subs[..i] == subs;
    }

    /** One pass of main's loop: the folder becomes the processing base, both counters
        restart, and process(folder, recursive) runs. */
    method RunFolder(folder: string, recursive: bool)
      requires Nests(inputs) && IsDir(inputs.fs, folder)
      modifies this
      ensures Now() == Progress(folder, Effect(0, 0, old(outputs)).Then(ProcessStep(inputs, folder, recursive)))
    {
      processingBase := folder;
      totalItems := 0;
      thumbnailsGenerated := 0;
      ghost var s0 := State();
      assert s0 == Effect(0, 0, old(outputs));
      Process(processingBase, recursive);
      assert processingBase == folder;
    }

    /** `main(folders)`: each folder in turn becomes the processing base, with both counters
        restarted, so they end as the last folder's; the files written are those of each
        folder's process, in order. argparse demands at least one folder. */
    method Run(folders: seq<string>, recursive: bool)
      requires folders != []
      requires Nests(inputs) && AllDirs(inputs.fs, folders)
      modifies this
      ensures Now() == Main(inputs, folders, recursive, old(Now()))
    {
      ghost var s0 := Now();
      var i := 0;
      while i < |folders|
        invariant i <= |folders|
        invariant AllDirs(inputs.fs, folders[..i])
        invariant Now() == Main(inputs, folders[..i], recursive, s0)
      {
        MainSnoc(inputs, folders, i, recursive, s0);
        ghost var done := Now();
        RunFolder(folders[i], recursive);
        assert Now() == Progress(folders[i], Effect(0, 0, done.effect.outputs).Then(ProcessStep(inputs, folders[i], recursive)));
        AllDirsPrefix(inputs.fs, folders, i + 1);
        i := i + 1;
      }
      assert folders[..i] == folders;
    }
  }

  // ---- What a run promises ----

  /** Every video of a postered record gets the poster's thumbnail and exactly the poster's
      metadata. */
  lemma {:induction false} SharedPosterWritten(poster: string, pm: Meta, videos: seq<string>)
    ensures var out := SharedPosterOutputs(poster, pm, videos);
      && |out| == 2 * |videos|
      && forall i :: 0 <= i < |videos| ==>
           out[2 * i] == Thumbnail(videos[i], OfImage(poster)) && out[2 * i + 1] == ItemMetaOut(videos[i], pm)
  {
    if videos != [] {
      var init := videos[..|videos| - 1];
      SharedPosterWritten(poster, pm, init);
      var out := SharedPosterOutputs(poster, pm, videos);
      forall i | 0 <= i < |videos|
        ensures out[2 * i] == Thumbnail(videos[i], OfImage(poster)) && out[2 * i + 1] == ItemMetaOut(videos[i], pm)
      {
        if i < |init| {
          assert videos[i] == init[i];
        }
      }
    }
  }

  /** Each sub-album gets one thumbnail, in order, and no `meta.json`. */
  lemma {:induction false} AlbumsWritten(inputs: Inputs, albums: seq<string>)
    ensures var e := AlbumSteps(inputs, albums);
      && e.total == 0 && e.thumbs == |albums| && |e.outputs| == |albums|
      && forall i :: 0 <= i < |albums| ==> e.outputs[i] == Thumbnail(albums[i], Tiles(inputs.tiles(albums[i])))
  {
    if albums != [] {
      var init := albums[..|albums| - 1];
      AlbumsWritten(inputs, init);
      var e := AlbumSteps(inputs, albums);
      forall i | 0 <= i < |albums|
        ensures e.outputs[i] == Thumbnail(albums[i], Tiles(inputs.tiles(albums[i])))
      {
        if i < |init| {
          assert albums[i] == init[i];
        }
      }
    }
  }

  lemma {:induction false} ImageStepsCounted(inputs: Inputs, images: seq<string>)
    ensures ImageSteps(inputs, images).total == 0 && ImageSteps(inputs, images).thumbs == |images|
  {
    if images != [] {
      ImageStepsCounted(inputs, images[..|images| - 1]);
    }
  }

  /** Over a list of records, no item is counted, and the thumbnails are at most one per
      video and one per poster: exactly that many when ffmpeg is installed. */
  lemma {:induction false} VideoStepsCounted(inputs: Inputs, rs: seq<VideoRecord>)
    ensures VideoSteps(inputs, rs).total == 0
    ensures VideoSteps(inputs, rs).thumbs <= |AllVideos(rs)| + PosterCount(rs)
    ensures inputs.canReadVideos ==> VideoSteps(inputs, rs).thumbs == |AllVideos(rs)| + PosterCount(rs)
  {
    if rs != [] {
      VideoStepsCounted(inputs, rs[..|rs| - 1]);
    }
  }

  lemma {:induction false} AlbumStepsCounted(inputs: Inputs, albums: seq<string>)
    ensures AlbumSteps(inputs, albums).total == 0 && AlbumSteps(inputs, albums).thumbs == |albums|
  {
    if albums != [] {
      AlbumStepsCounted(inputs, albums[..|albums| - 1]);
    }
  }

  /** Before recursing, process counts each sub-album and medium once and adds a thumbnail
      for each sub-album, image and poster, and for each video when ffmpeg is installed. */
  lemma {:induction false} FolderStepCounted(inputs: Inputs, path: string)
    ensures var items := inputs.items(path);
      && FolderStep(inputs, path).total == |items.albums| + MediaCount(items)
      && FolderStep(inputs, path).thumbs <= FolderStep(inputs, path).total
      && (inputs.canReadVideos ==> FolderStep(inputs, path).thumbs == FolderStep(inputs, path).total)
  {
    var items := inputs.items(path);
    AlbumStepsCounted(inputs, items.albums);
    ImageStepsCounted(inputs, items.images);
    VideoStepsCounted(inputs, items.videos);
  }

  /** thumbnailsGenerated never passes totalItems, and with ffmpeg installed process adds the
      same to both: one per sub-album, image, video and poster. */
  lemma {:induction false} ProcessStepCounted(inputs: Inputs, path: string, recurse: bool)
    requires Nests(inputs) && IsDir(inputs.fs, path)
    decreases Deeper(inputs.fs, path), 1
    ensures ProcessStep(inputs, path, recurse).thumbs <= ProcessStep(inputs, path, recurse).total
    ensures inputs.canReadVideos ==> ProcessStep(inputs, path, recurse).thumbs == ProcessStep(inputs, path, recurse).total
  {
    FolderStepCounted(inputs, path);
    if recurse {
      SubStepsCounted(inputs, path, inputs.items(path).albums);
    }
  }

  lemma {:induction false} SubStepsCounted(inputs: Inputs, parent: string, subs: seq<string>)
    requires Nests(inputs)
    requires forall s :: s in subs ==> IsDir(inputs.fs, s) && Longer(s, parent)
    decreases Deeper(inputs.fs, parent), 0, |subs|
    ensures SubSteps(inputs, parent, subs).thumbs <= SubSteps(inputs, parent, subs).total
    ensures inputs.canReadVideos ==> SubSteps(inputs, parent, subs).thumbs == SubSteps(inputs, parent, subs).total
  {
    if subs != [] {
      var s := Last(subs);
      assert s in subs && IsDir(inputs.fs, s);
      DeeperShrinks(inputs.fs, parent, s);
      SubStepsCounted(inputs, parent, subs[..|subs| - 1]);
      ProcessStepCounted(inputs, s, true);
    }
  }
}
