/** What the web client's album and item pages contain, stated against the listing they are
    built from (src/main/js/wag.ts). */
module WagClientProps {
  import opened Wrappers
  import opened Seqs
  import opened Grouping
  import opened Models
  import opened Utils
  import opened JsPath
  import opened WagClient

  /** The paths of some tiles. */
  function PathsOf(tiles: seq<AlbumEntry>): (r: seq<string>)
    ensures |r| == |tiles|
    ensures forall i :: 0 <= i < |tiles| ==> r[i] == tiles[i].path
  {
    seq(|tiles|, i requires 0 <= i < |tiles| => tiles[i].path)
  }

  /** The tiles whose path has key k, in order. */
  function TilesWithKey(tiles: seq<AlbumEntry>, pathKey: string -> string, k: string): seq<AlbumEntry>
  {
    if tiles == [] then []
    else TilesWithKey(tiles[..|tiles| - 1], pathKey, k)
         + (if pathKey(tiles[|tiles| - 1].path) == k then [tiles[|tiles| - 1]] else [])
  }

  lemma {:induction false} TilesWithKeyAppend(a: seq<AlbumEntry>, b: seq<AlbumEntry>, pathKey: string -> string, k: string)
    ensures TilesWithKey(a + b, pathKey, k) == TilesWithKey(a, pathKey, k) + TilesWithKey(b, pathKey, k)
  {
    if b != [] {
      var init, last := b[..|b| - 1], b[|b| - 1];
      assert (a + b)[..|a + b| - 1] == a + init;
      assert (a + b)[|a + b| - 1] == last;
      TilesWithKeyAppend(a, init, pathKey, k);
    } else {
      assert a + b == a;
    }
  }

  lemma {:induction false} TilesWithKeyAll(tiles: seq<AlbumEntry>, pathKey: string -> string, k: string)
    requires forall i :: 0 <= i < |tiles| ==> pathKey(tiles[i].path) == k
    ensures TilesWithKey(tiles, pathKey, k) == tiles
  {
    if tiles != [] {
      TilesWithKeyAll(tiles[..|tiles| - 1], pathKey, k);
    }
  }

  lemma {:induction false} TilesWithKeyNone(tiles: seq<AlbumEntry>, pathKey: string -> string, k: string)
    requires forall i :: 0 <= i < |tiles| ==> pathKey(tiles[i].path) != k
    ensures TilesWithKey(tiles, pathKey, k) == []
  {
    if tiles != [] {
      TilesWithKeyNone(tiles[..|tiles| - 1], pathKey, k);
    }
  }

  /** Every tile is among the tiles with its own key. */
  lemma {:induction false} TilesWithKeyMember(tiles: seq<AlbumEntry>, pathKey: string -> string, i: nat)
    requires i < |tiles|
    ensures tiles[i] in TilesWithKey(tiles, pathKey, pathKey(tiles[i].path))
  {
    var init := tiles[..|tiles| - 1];
    if i < |tiles| - 1 {
      assert tiles[i] == init[i];
      TilesWithKeyMember(init, pathKey, i);
    }
  }

  /** The paths of entries of a given kind come from entries with the bucket's key. */
  lemma {:induction false} PathsOfKindKeys(es: seq<ListingEntry>, t: ItemType, pathKey: string -> string, k: string)
    requires forall j :: 0 <= j < |es| ==> pathKey(es[j].path) == k
    ensures forall p :: p in PathsOfKind(es, t) ==> pathKey(p) == k
  {
    if es != [] {
      PathsOfKindKeys(es[..|es| - 1], t, pathKey, k);
    }
  }

  /** A listed image or video path has that media type. */
  lemma {:induction false} PathsOfKindTyped(es: seq<ListingEntry>, t: ItemType)
    requires t != AlbumItem
    ensures forall p :: p in PathsOfKind(es, t) ==> GuessMediaType(p) == Some(t)
  {
    if es != [] {
      PathsOfKindTyped(es[..|es| - 1], t);
    }
  }

  /** Every tile a group adds has that group's key. */
  lemma {:induction false} GroupPartKeys(mk: TileMaker, b: seq<ListingEntry>, pathKey: string -> string, k: string, media: bool)
    requires forall j :: 0 <= j < |b| ==> pathKey(b[j].path) == k
    requires forall t, p :: mk(t, p).path == p
    ensures forall i :: 0 <= i < |GroupPart(mk, GroupOf(b), media)| ==> pathKey(GroupPart(mk, GroupOf(b), media)[i].path) == k
  {
    PathsOfKindKeys(b, AlbumItem, pathKey, k);
    PathsOfKindKeys(b, ImageItem, pathKey, k);
    PathsOfKindKeys(b, VideoItem, pathKey, k);
  }

  function Concat(parts: seq<seq<AlbumEntry>>): seq<AlbumEntry>
  {
    if parts == [] then [] else Concat(parts[..|parts| - 1]) + parts[|parts| - 1]
  }

  /** What each group adds, group by group. */
  function PartsOf(mk: TileMaker, gs: seq<ItemGrouping>, media: bool): (parts: seq<seq<AlbumEntry>>)
    ensures |parts| == |gs|
    ensures forall i :: 0 <= i < |gs| ==> parts[i] == GroupPart(mk, gs[i], media)
  {
    seq(|gs|, i requires 0 <= i < |gs| => GroupPart(mk, gs[i], media))
  }

  lemma {:induction false} GroupTilesIsConcat(mk: TileMaker, gs: seq<ItemGrouping>, media: bool)
    ensures GroupTiles(mk, gs, media) == Concat(PartsOf(mk, gs, media))
  {
    if gs != [] {
      GroupTilesIsConcat(mk, gs[..|gs| - 1], media);
      assert PartsOf(mk, gs, media)[..|gs| - 1] == PartsOf(mk, gs[..|gs| - 1], media);
    }
  }

  /** Selecting one key from the concatenation of parts with distinct keys ks gives the part
      of that key. */
  lemma {:induction false} ConcatWithKey(parts: seq<seq<AlbumEntry>>, pathKey: string -> string, ks: seq<string>, k: string)
    requires |parts| == |ks|
    requires forall i, j :: 0 <= i < j < |ks| ==> ks[i] != ks[j]
    requires forall i, j :: 0 <= i < |parts| && 0 <= j < |parts[i]| ==> pathKey(parts[i][j].path) == ks[i]
    ensures k !in ks ==> TilesWithKey(Concat(parts), pathKey, k) == []
    ensures forall n :: 0 <= n < |ks| && ks[n] == k ==> TilesWithKey(Concat(parts), pathKey, k) == parts[n]
  {
    if ks != [] {
      var init, last := ks[..|ks| - 1], ks[|ks| - 1];
      var front, part := parts[..|parts| - 1], parts[|parts| - 1];
      assert parts == front + [part];
      ConcatWithKey(front, pathKey, init, k);
      ConcatLastWithKey(front, part, pathKey, last, k);
      if last == k {
        assert k !in init;
      } else {
        forall n | 0 <= n < |ks| && ks[n] == k
          ensures TilesWithKey(Concat(parts), pathKey, k) == parts[n]
        {
          assert init[n] == k && front[n] == parts[n];
        }
      }
    }
  }

  /** The last part adds itself to the selection of its own key and nothing to any other. */
  lemma {:induction false} ConcatLastWithKey(front: seq<seq<AlbumEntry>>, part: seq<AlbumEntry>,
                                             pathKey: string -> string, c: string, k: string)
    requires forall i :: 0 <= i < |part| ==> pathKey(part[i].path) == c
    ensures c == k && TilesWithKey(Concat(front), pathKey, k) == [] ==>
              TilesWithKey(Concat(front + [part]), pathKey, k) == part
    ensures c != k ==> TilesWithKey(Concat(front + [part]), pathKey, k) == TilesWithKey(Concat(front), pathKey, k)
  {
    var parts := front + [part];
    assert parts[..|parts| - 1] == front;
    TilesWithKeyAppend(Concat(front), part, pathKey, k);
    SelectPart(part, pathKey, c, k);
    if c == k {
      assert [] + part == part;
    } else {
      assert TilesWithKey(Concat(front), pathKey, k) + [] == TilesWithKey(Concat(front), pathKey, k);
    }
  }

  lemma {:induction false} SelectPart(part: seq<AlbumEntry>, pathKey: string -> string, c: string, k: string)
    requires forall i :: 0 <= i < |part| ==> pathKey(part[i].path) == c
    ensures TilesWithKey(part, pathKey, k) == if c == k then part else []
  {
    if c == k {
      TilesWithKeyAll(part, pathKey, k);
    } else {
      TilesWithKeyNone(part, pathKey, k);
    }
  }

  /** Selecting key k from the tiles of all groups gives what the group of k adds, and
      nothing when no entry has key k. */
  lemma {:induction false} GroupTilesByKey(mk: TileMaker, es: seq<ListingEntry>, key: ListingEntry -> string,
                        pathKey: string -> string, k: string, media: bool)
    requires forall e: ListingEntry :: pathKey(e.path) == key(e)
    requires forall t, p :: mk(t, p).path == p
    ensures TilesWithKey(GroupTiles(mk, GroupSeq(es, key, Keys(es, key)), media), pathKey, k)
         == GroupPart(mk, GroupOf(Bucket(es, key, k)), media)
  {
    var ks := Keys(es, key);
    var gs := GroupSeq(es, key, ks);
    var parts: seq<seq<AlbumEntry>> := PartsOf(mk, gs, media);
    PartsKeyed(mk, es, key, pathKey, ks, media, parts);
    GroupTilesIsConcat(mk, gs, media);
    ConcatWithKey(parts, pathKey, ks, k);
    if k !in ks {
      BucketOfAbsentKey(es, key, k);
      assert GroupOf([]) == ItemGrouping([], [], []);
    } else {
      var n := IndexOf(ks, k);
      assert parts[n] == GroupPart(mk, GroupOf(Bucket(es, key, k)), media);
    }
  }

  /** The tiles of each group carry that group's key. */
  lemma {:induction false} PartsKeyed(mk: TileMaker, es: seq<ListingEntry>, key: ListingEntry -> string,
                                      pathKey: string -> string, ks: seq<string>, media: bool,
                                      parts: seq<seq<AlbumEntry>>)
    requires forall e: ListingEntry :: pathKey(e.path) == key(e)
    requires forall t, p :: mk(t, p).path == p
    requires parts == PartsOf(mk, GroupSeq(es, key, ks), media)
    ensures forall i, j :: 0 <= i < |parts| && 0 <= j < |parts[i]| ==> pathKey(parts[i][j].path) == ks[i]
  {
    var gs := GroupSeq(es, key, ks);
    forall i | 0 <= i < |gs|
      ensures forall j :: 0 <= j < |parts[i]| ==> pathKey(parts[i][j].path) == ks[i]
    {
      GroupPartKeys(mk, Bucket(es, key, ks[i]), pathKey, ks[i], media);
    }
  }

  /** The album page, stem by stem: the sub-album tiles of stem k are the stem's directory
      entries in listing order, and its media tiles are the stem's first video alone when it
      has a video, or else all of its images in listing order. Files of unknown type never
      appear. */
  lemma {:induction false} AlbumByStem(md5: string -> string, encode: string -> string, path: string, listing: AlbumListing,
                    meta: Option<MetaData>, k: string)
    ensures var album := AlbumSpec(md5, encode, path, listing, meta);
      var ctx := TileContext(md5, encode, listing.mediaURL, ItemsMeta(meta));
      var b := Bucket(listing.entries, EntryKey, k);
      var videos := PathsOfKind(b, VideoItem);
      && TilesWithKey(album.albums, Filename, k) == Tiles(MakeTile(ctx), AlbumItem, PathsOfKind(b, AlbumItem))
      && TilesWithKey(album.media, Filename, k)
         == if |videos| > 0 then [Tile(ctx, VideoItem, videos[0])]
            else Tiles(MakeTile(ctx), ImageItem, PathsOfKind(b, ImageItem))
  {
    var mk := MakeTile(TileContext(md5, encode, listing.mediaURL, ItemsMeta(meta)));
    GroupTilesByKey(mk, listing.entries, EntryKey, Filename, k, false);
    GroupTilesByKey(mk, listing.entries, EntryKey, Filename, k, true);
  }

  /** The paths each bucket emits, bucket after bucket. */
  function KindEmitter(t: ItemType): ListingEntry -> seq<string>
  {
    e => if EntryKind(e) == Some(t) then [e.path] else []
  }

  lemma {:induction false} PathsOfKindIsCollect(es: seq<ListingEntry>, t: ItemType)
    ensures PathsOfKind(es, t) == Collect(es, KindEmitter(t))
  {
    if es != [] {
      PathsOfKindIsCollect(es[..|es| - 1], t);
    }
  }

  /** The sub-album tiles of one bucket carry the paths of its directory entries. */
  lemma {:induction false} AlbumPartPaths(mk: TileMaker, b: seq<ListingEntry>)
    requires forall t, p :: mk(t, p).path == p
    ensures PathsOf(Tiles(mk, AlbumItem, PathsOfKind(b, AlbumItem))) == Collect(b, KindEmitter(AlbumItem))
  {
    PathsOfKindIsCollect(b, AlbumItem);
    assert PathsOf(Tiles(mk, AlbumItem, PathsOfKind(b, AlbumItem))) == PathsOfKind(b, AlbumItem);
  }

  lemma {:induction false} PathsOfAppend(a: seq<AlbumEntry>, b: seq<AlbumEntry>)
    ensures PathsOf(a + b) == PathsOf(a) + PathsOf(b)
  {
    assert PathsOf(a + b) == PathsOf(a) + PathsOf(b);
  }

  lemma {:induction false} AlbumPathsPerKey(mk: TileMaker, es: seq<ListingEntry>, key: ListingEntry -> string, ks: seq<string>)
    requires forall t, p :: mk(t, p).path == p
    ensures PathsOf(GroupTiles(mk, GroupSeq(es, key, ks), false)) == PerKey(es, key, ks, KindEmitter(AlbumItem))
  {
    if ks != [] {
      var init, last := ks[..|ks| - 1], ks[|ks| - 1];
      var b := Bucket(es, key, last);
      var a := GroupTiles(mk, GroupSeq(es, key, init), false);
      var part := Tiles(mk, AlbumItem, PathsOfKind(b, AlbumItem));
      assert GroupTiles(mk, GroupSeq(es, key, ks), false) == a + part by {
        var gs := GroupSeq(es, key, ks);
        assert gs[..|gs| - 1] == GroupSeq(es, key, init);
      }
      assert PathsOf(a) == PerKey(es, key, init, KindEmitter(AlbumItem)) by {
        AlbumPathsPerKey(mk, es, key, init);
      }
      AlbumPartPaths(mk, b);
      PathsOfAppend(a, part);
    }
  }

  /** Each directory entry of the listing yields exactly one sub-album tile of type ALBUM:
      the sub-album paths are a permutation of the directory entries' paths. */
  lemma {:induction false} SubAlbumsArePermutation(md5: string -> string, encode: string -> string, path: string,
                                listing: AlbumListing, meta: Option<MetaData>)
    ensures var album := AlbumSpec(md5, encode, path, listing, meta);
      && multiset(PathsOf(album.albums)) == multiset(PathsOfKind(listing.entries, AlbumItem))
      && forall i :: 0 <= i < |album.albums| ==> album.albums[i].itemType == AlbumItem
  {
    var es := listing.entries;
    var ctx := TileContext(md5, encode, listing.mediaURL, ItemsMeta(meta));
    var mk := MakeTile(ctx);
    var ks := Keys(es, EntryKey);
    AlbumPathsPerKey(mk, es, EntryKey, ks);
    PerKeyPermutation(es, EntryKey, ks, KindEmitter(AlbumItem));
    PathsOfKindIsCollect(es, AlbumItem);
    GroupTilesAll(mk, GroupSeq(es, EntryKey, ks), false, (tile: AlbumEntry) => tile.itemType == AlbumItem);
  }

  /** The directory entries are exactly the entries of kind ALBUM. */
  lemma {:induction false} AlbumKindIsDirectory(e: ListingEntry)
    ensures EntryKind(e) == Some(AlbumItem) <==> e.entryType == AlbumEntryType
  {
    MediaTypeTable(e.path);
  }

  /** A property every tile a maker can build for the given part has holds of every tile. */
  lemma {:induction false} GroupTilesAll(mk: TileMaker, gs: seq<ItemGrouping>, media: bool, P: AlbumEntry -> bool)
    requires forall t, p :: (media <==> t != AlbumItem) ==> P(mk(t, p))
    ensures forall i :: 0 <= i < |GroupTiles(mk, gs, media)| ==> P(GroupTiles(mk, gs, media)[i])
  {
    if gs != [] {
      GroupTilesAll(mk, gs[..|gs| - 1], media, P);
      var a := GroupTiles(mk, gs[..|gs| - 1], media);
      var part := GroupPart(mk, gs[|gs| - 1], media);
      assert forall i :: 0 <= i < |part| ==> P(part[i]);
      assert forall i :: 0 <= i < |a + part| ==> (a + part)[i] == if i < |a| then a[i] else part[i - |a|];
    }
  }

  /** Page and tile captions and thumbnails: the root is always "Gallery"; otherwise the
      record's caption wins over the base name. A tile's caption is the one the album's
      record holds under the tile's meta id, else its base name, and its thumbnail is the
      path's sidecar thumbnail URL. */
  lemma {:induction false} AlbumCaptions(md5: string -> string, encode: string -> string, path: string, listing: AlbumListing,
                      meta: Option<MetaData>)
    ensures var album := AlbumSpec(md5, encode, path, listing, meta);
      && (path == "" ==> album.caption == RootCaption)
      && (path != "" && meta.Some? && meta.value.caption.Some? ==> album.caption == meta.value.caption.value)
      && (path != "" && (meta.None? || meta.value.caption.None?) ==> album.caption == Basename(path))
      && forall tile :: tile in album.albums + album.media ==>
           var id := md5(tile.path);
           var items := ItemsMeta(meta);
           && tile.caption == (if id in items && items[id].caption.Some? then items[id].caption.value
                               else Basename(tile.path))
           && tile.thumbnail == GetThumbnailURL(md5, encode, listing.mediaURL, tile.path)
  {
    var es := listing.entries;
    var ctx := TileContext(md5, encode, listing.mediaURL, ItemsMeta(meta));
    var mk := MakeTile(ctx);
    var gs := GroupSeq(es, EntryKey, Keys(es, EntryKey));
    var P := (tile: AlbumEntry) => tile.caption == ChildCaption(ctx, tile.path)
                                   && tile.thumbnail == GetThumbnailURL(md5, encode, listing.mediaURL, tile.path);
    GroupTilesAll(mk, gs, false, P);
    GroupTilesAll(mk, gs, true, P);
  }

  /** The item page: a Video exactly when some same-stem file is a video; then one
      alternative per same-stem video in listing order, each tagged with its MIME type
      (always defined, since the file is a video), and the first same-stem image as poster;
      otherwise an Image whose URL is the requested path's. */
  lemma {:induction false} ItemPage(encode: string -> string, path: string, listing: AlbumListing, meta: Option<MetaData>)
    ensures var b := Bucket(listing.entries, EntryKey, Filename(path));
      var images, videos := PathsOfKind(b, ImageItem), PathsOfKind(b, VideoItem);
      var item := ItemSpec(encode, path, listing, meta);
      && (item.Video? <==> |videos| > 0)
      && (item.Video? ==>
            && |item.alternatives| == |videos|
            && (forall i :: 0 <= i < |videos| ==>
                  && item.alternatives[i].url == GetMediaURL(encode, listing.mediaURL, videos[i])
                  && item.alternatives[i].mimeType == VideoMime(videos[i])
                  && item.alternatives[i].mimeType.Some?)
            && item.posterURL == (if |images| > 0 then Some(GetMediaURL(encode, listing.mediaURL, images[0])) else None))
      && (item.Image? ==> item.url == GetMediaURL(encode, listing.mediaURL, path))
  {
    var b := Bucket(listing.entries, EntryKey, Filename(path));
    PathsOfKindTyped(b, VideoItem);
    var videos := PathsOfKind(b, VideoItem);
    forall i | 0 <= i < |videos|
      ensures VideoMime(videos[i]).Some?
    {
      assert videos[i] in videos;
      VideoMimeMatchesMediaType(videos[i]);
    }
  }

  /** Opening a media tile of an album page shows the same kind of page: a video tile opens a
      Video whose first alternative is that tile's video, and an image tile opens an Image of
      that tile's file. */
  lemma {:induction false} MediaTileOpensItem(md5: string -> string, encode: string -> string, path: string, listing: AlbumListing,
                           meta: Option<MetaData>, itemMeta: Option<MetaData>, i: nat)
    requires i < |AlbumSpec(md5, encode, path, listing, meta).media|
    ensures var tile := AlbumSpec(md5, encode, path, listing, meta).media[i];
      var item := ItemSpec(encode, tile.path, listing, itemMeta);
      || (tile.itemType == VideoItem && item.Video? && |item.alternatives| > 0
          && item.alternatives[0].url == GetMediaURL(encode, listing.mediaURL, tile.path))
      || (tile.itemType == ImageItem && item == Image(ItemCaption(tile.path, itemMeta), GetMediaURL(encode, listing.mediaURL, tile.path)))
  {
    var tile := AlbumSpec(md5, encode, path, listing, meta).media[i];
    MediaTileKind(md5, encode, path, listing, meta, i);
    ItemPage(encode, tile.path, listing, itemMeta);
  }

  /** A media tile of an album page is its stem's first video when the stem has a video,
      and otherwise one of its images. */
  lemma {:induction false} MediaTileKind(md5: string -> string, encode: string -> string, path: string, listing: AlbumListing,
                                         meta: Option<MetaData>, i: nat)
    requires i < |AlbumSpec(md5, encode, path, listing, meta).media|
    ensures var tile := AlbumSpec(md5, encode, path, listing, meta).media[i];
      var videos := PathsOfKind(Bucket(listing.entries, EntryKey, Filename(tile.path)), VideoItem);
      && (|videos| > 0 ==> tile.itemType == VideoItem && tile.path == videos[0])
      && (|videos| == 0 ==> tile.itemType == ImageItem)
  {
    var album := AlbumSpec(md5, encode, path, listing, meta);
    var ctx := TileContext(md5, encode, listing.mediaURL, ItemsMeta(meta));
    var tile := album.media[i];
    var k := Filename(tile.path);
    TilesWithKeyMember(album.media, Filename, i);
    AlbumByStem(md5, encode, path, listing, meta, k);
    var b := Bucket(listing.entries, EntryKey, k);
    var videos := PathsOfKind(b, VideoItem);
    if |videos| > 0 {
      assert tile == Tile(ctx, VideoItem, videos[0]);
    } else {
      var tiles := Tiles(MakeTile(ctx), ImageItem, PathsOfKind(b, ImageItem));
      var j :| 0 <= j < |tiles| && tiles[j] == tile;
      assert tile == Tile(ctx, ImageItem, PathsOfKind(b, ImageItem)[j]);
    }
  }
}
