/** What a run of wagmetagen.py promises about the files it writes and its two counters. */
module MetaGenProps {
  import opened Wrappers
  import opened Seqs
  import opened FileSystem
  import opened PyPath
  import opened PyMeta
  import opened PyItems
  import opened WagMetaGen
  import opened Pinkynails
  import opened PySort
  import opened MetaGenRun

  // ---- What each item gets ----

  /** processImage writes, per image in order, its thumbnail and its own `meta.json`, and
      each image adds one thumbnail and no item to the counts. */
  lemma {:induction false} ImagesWritten(src: Sources, images: seq<string>)
    ensures var e := ImagesEffect(src, images);
      && e.total == 0 && e.thumbs == |images| && |e.outputs| == 2 * |images|
      && forall i :: 0 <= i < |images| ==>
           e.outputs[2 * i] == Thumbnail(images[i], OfImage(images[i]))
           && e.outputs[2 * i + 1] == ItemMetaOut(images[i], src.imageMeta(images[i]))
  {
    if images != [] {
      var init := images[..|images| - 1];
      ImagesWritten(src, init);
      var e := ImagesEffect(src, images);
      assert e.outputs == ImagesEffect(src, init).outputs + ImageEffect(src, Last(images)).outputs;
      forall i | 0 <= i < |images|
        ensures e.outputs[2 * i] == Thumbnail(images[i], OfImage(images[i]))
        ensures e.outputs[2 * i + 1] == ItemMetaOut(images[i], src.imageMeta(images[i]))
      {
        if i < |init| {
          assert images[i] == init[i];
        }
      }
    }
  }

  /** Every video of a postered record shares the poster's thumbnail, and its `meta.json` is
      its own metadata updated with the poster's. */
  lemma {:induction false} PosterVideosWritten(src: Sources, poster: string, pm: Meta, videos: seq<string>)
    ensures var out := PosterVideoOutputs(src, poster, pm, videos);
      && |out| == 2 * |videos|
      && forall i :: 0 <= i < |videos| ==>
           out[2 * i] == Thumbnail(videos[i], OfImage(poster))
           && out[2 * i + 1] == ItemMetaOut(videos[i], src.videoMeta(videos[i]) + pm)
  {
    if videos != [] {
      var init := videos[..|videos| - 1];
      PosterVideosWritten(src, poster, pm, init);
      var out := PosterVideoOutputs(src, poster, pm, videos);
      forall i | 0 <= i < |videos|
        ensures out[2 * i] == Thumbnail(videos[i], OfImage(poster))
        ensures out[2 * i + 1] == ItemMetaOut(videos[i], src.videoMeta(videos[i]) + pm)
      {
        if i < |init| {
          assert videos[i] == init[i];
        }
      }
    }
  }

  /** Every video of a record without a poster gets a thumbnail of its own frame and its
      own metadata. */
  lemma {:induction false} FrameVideosWritten(src: Sources, videos: seq<string>)
    ensures var out := FrameVideoOutputs(src, videos);
      && |out| == 2 * |videos|
      && forall i :: 0 <= i < |videos| ==>
           out[2 * i] == Thumbnail(videos[i], OfFrame(videos[i]))
           && out[2 * i + 1] == ItemMetaOut(videos[i], src.videoMeta(videos[i]))
  {
    if videos != [] {
      var init := videos[..|videos| - 1];
      FrameVideosWritten(src, init);
      var out := FrameVideoOutputs(src, videos);
      forall i | 0 <= i < |videos|
        ensures out[2 * i] == Thumbnail(videos[i], OfFrame(videos[i]))
        ensures out[2 * i + 1] == ItemMetaOut(videos[i], src.videoMeta(videos[i]))
      {
        if i < |init| {
          assert videos[i] == init[i];
        }
      }
    }
  }

  /** processVideo writes nothing exactly when the record has no poster and either ffmpeg
      is missing or there is no video; otherwise it starts with the poster's files or the
      first video's. */
  lemma {:induction false} VideoWrites(src: Sources, r: VideoRecord)
    ensures var out := VideoEffect(src, r).outputs;
      && (out == [] <==> r.poster.None? && (!src.canReadVideos || r.videos == []))
      && (r.poster.Some? ==> out[..2] == [Thumbnail(r.poster.value, OfImage(r.poster.value)),
                                           ItemMetaOut(r.poster.value, src.imageMeta(r.poster.value))])
      && (r.poster.None? && src.canReadVideos && r.videos != [] ==>
            out[0] == Thumbnail(r.videos[0], OfFrame(r.videos[0])))
  {
    if r.poster.None? && src.canReadVideos {
      FrameVideosWritten(src, r.videos);
    }
  }

  // ---- The progress counters ----

  /** processImage adds one thumbnail per image and no item. */
  lemma {:induction false} ImagesCounted(src: Sources, images: seq<string>)
    ensures ImagesEffect(src, images).total == 0 && ImagesEffect(src, images).thumbs == |images|
  {
    if images != [] {
      ImagesCounted(src, images[..|images| - 1]);
    }
  }

  /** Over a list of records, no item is counted, and the thumbnails are at most one per
      video and one per poster: exactly that many when ffmpeg is installed. */
  lemma {:induction false} RecordsCounted(src: Sources, rs: seq<VideoRecord>)
    ensures RecordsEffect(src, rs).total == 0
    ensures RecordsEffect(src, rs).thumbs <= |AllVideos(rs)| + PosterCount(rs)
    ensures src.canReadVideos ==> RecordsEffect(src, rs).thumbs == |AllVideos(rs)| + PosterCount(rs)
  {
    if rs != [] {
      RecordsCounted(src, rs[..|rs| - 1]);
    }
  }

  /** thumbnailsGenerated never passes totalItems, and with ffmpeg installed process(path)
      adds the same to both: one per album, image, video and poster. */
  lemma {:induction false} ProcessCounted(src: Sources, base: string, path: string)
    requires Nested(src) && IsDir(src.fs, path)
    decreases Deeper(src.fs, path), 1
    ensures var e := ProcessEffect(src, base, path);
      e.thumbs <= e.total && (src.canReadVideos ==> e.thumbs == e.total)
  {
    var items := src.items(path);
    ImagesCounted(src, items.images);
    RecordsCounted(src, items.videos);
    SubsCounted(src, base, path, items.albums);
    var folder := FolderEffect(src, base, path);
    var subs := SubsEffect(src, base, path, items.albums);
    assert folder.total == 1 + MediaCount(items);
    assert folder.thumbs == 1 + |items.images| + RecordsEffect(src, items.videos).thumbs;
  }

  lemma {:induction false} SubsCounted(src: Sources, base: string, parent: string, subs: seq<string>)
    requires Nested(src)
    requires forall s :: s in subs ==> IsDir(src.fs, s) && Longer(s, parent)
    decreases Deeper(src.fs, parent), 0, |subs|
    ensures var e := SubsEffect(src, base, parent, subs);
      e.thumbs <= e.total && (src.canReadVideos ==> e.thumbs == e.total)
  {
    if subs != [] {
      var s := Last(subs);
      assert s in subs && IsDir(src.fs, s);
      DeeperShrinks(src.fs, parent, s);
      SubsCounted(src, base, parent, subs[..|subs| - 1]);
      ProcessCounted(src, base, s);
    }
  }

  /** After `main([folder])` both counters agree when ffmpeg is installed. */
  lemma {:induction false} RunCounted(src: Sources, folder: string)
    requires Nested(src) && IsDir(src.fs, folder)
    ensures ProcessEffect(src, folder, folder).thumbs <= ProcessEffect(src, folder, folder).total
    ensures src.canReadVideos ==> ProcessEffect(src, folder, folder).thumbs == ProcessEffect(src, folder, folder).total
  {
    ProcessCounted(src, folder, folder);
  }

  // ---- A postered video's meta.json ----

  /** `videoMeta.update(meta)`: the poster's keys win, so the caption, date and size in
      pixels are the poster's, and with ffmpeg the byte size is still the video's. */
  lemma {:induction false} PosteredVideoMeta(env: Env, poster: string, v: string)
    ensures var m := VideoMeta(env, v) + ImageMeta(env, poster);
      && m.Keys == VideoMeta(env, v).Keys + ImageMeta(env, poster).Keys
      && (forall k :: k in ImageMeta(env, poster) ==> m[k] == ImageMeta(env, poster)[k])
      && Caption in m && Date in m && Height in m && Width in m
      && m[Height] == Number(env.image(poster).height) && m[Width] == Number(env.image(poster).width)
      && (env.canReadVideos <==> Size in m)
      && (env.canReadVideos ==> m[Size] == Number(env.fileSize(v)))
  {
    ImageMetaKeys(env, poster);
  }

  // ---- The album thumbnail ----

  /** Placed pinkynails, at most four, each lie inside the thumbnail and no two overlap. */
  lemma {:induction false} PlacementsFit(nails: seq<Pinkynail>)
    requires |nails| <= MaxPinkynails
    ensures var t := Placements(nails);
      && |t| == |nails|
      && (forall i :: 0 <= i < |t| ==>
            && t[i].nail == nails[i]
            && 0 <= t[i].x && t[i].x + PinkynailSize <= ThumbnailSize
            && 0 <= t[i].y && t[i].y + PinkynailSize <= ThumbnailSize)
      && (forall i, j :: 0 <= i < j < |t| ==> Apart(t[i].x, t[i].y, t[j].x, t[j].y))
  {
    var t := Placements(nails);
    forall i, j | 0 <= i < |t| && 0 <= j < |t|
      ensures 0 <= t[i].x && t[i].x + PinkynailSize <= ThumbnailSize
      ensures 0 <= t[i].y && t[i].y + PinkynailSize <= ThumbnailSize
      ensures i < j ==> Apart(t[i].x, t[i].y, t[j].x, t[j].y)
    {
      PinkynailsFit(i, j);
    }
  }

  /** The tiles from a folder's icon flag, sorted images and sorted records: at most four,
      inside the 125x125 square and apart; the sub-album icon comes first exactly when there
      are sub-albums, and the images follow it in the order given. */
  lemma {:induction false} TilesShape(hasAlbums: bool, images: seq<string>, records: seq<VideoRecord>, canReadVideos: bool)
    ensures var t := Placements(Take(Candidates(hasAlbums, images, records, canReadVideos), MaxPinkynails));
      var skip := if hasAlbums then 1 else 0;
      && |t| <= MaxPinkynails
      && (forall i :: 0 <= i < |t| ==>
            && 0 <= t[i].x && t[i].x + PinkynailSize <= ThumbnailSize
            && 0 <= t[i].y && t[i].y + PinkynailSize <= ThumbnailSize)
      && (forall i, j :: 0 <= i < j < |t| ==> Apart(t[i].x, t[i].y, t[j].x, t[j].y))
      && (hasAlbums ==> t[0].nail == SubalbumIcon)
      && (forall i :: 0 <= i < |t| && t[i].nail == SubalbumIcon ==> hasAlbums)
      && (forall i :: skip <= i < |t| && i - skip < |images| ==> t[i].nail == FromImage(images[i - skip]))
  {
    var nails := Take(Candidates(hasAlbums, images, records, canReadVideos), MaxPinkynails);
    PinkynailCount(hasAlbums, images, records, canReadVideos);
    PinkynailIcon(hasAlbums, images, records, canReadVideos);
    PinkynailImages(hasAlbums, images, records, canReadVideos);
    PlacementsFit(nails);
    var t := Placements(nails);
    forall i | 0 <= i < |t| && t[i].nail == SubalbumIcon
      ensures hasAlbums
    {
      assert nails[i] in nails;
    }
  }
}
