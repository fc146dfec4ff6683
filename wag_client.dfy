/** The web client's page builders (src/main/js/wag.ts): an album page from a directory
    listing and its sidecar record, and an image or video page from its directory's listing. */
module WagClient {
  import opened Wrappers
  import opened Seqs
  import opened Grouping
  import opened Models
  import opened Utils
  import opened JsPath

  /** The paths of one stem's entries, by kind. */
  datatype ItemGrouping = ItemGrouping(albums: seq<string>, images: seq<string>, videos: seq<string>)

  /** Entries are grouped by the file name without its extension. */
  function EntryKey(e: ListingEntry): string
  {
    Filename(e.path)
  }

  /** ALBUM for a directory entry; for a file, the kind its extension says, if any. */
  function EntryKind(e: ListingEntry): Option<ItemType>
  {
    if e.entryType == AlbumEntryType then Some(AlbumItem) else GuessMediaType(e.path)
  }

  /** The paths of the entries of kind t, in listing order. */
  function PathsOfKind(es: seq<ListingEntry>, t: ItemType): seq<string>
  {
    if es == [] then []
    else PathsOfKind(es[..|es| - 1], t) + (if EntryKind(es[|es| - 1]) == Some(t) then [es[|es| - 1].path] else [])
  }

  /** The grouping albumFromListing builds for the entries of one stem. */
  function GroupOf(bucket: seq<ListingEntry>): ItemGrouping
  {
    ItemGrouping(PathsOfKind(bucket, AlbumItem), PathsOfKind(bucket, ImageItem), PathsOfKind(bucket, VideoItem))
  }

  /** The groups of the keys ks, in that order. */
  function GroupSeq(es: seq<ListingEntry>, key: ListingEntry -> string, ks: seq<string>): (gs: seq<ItemGrouping>)
    ensures |gs| == |ks|
    ensures forall i :: 0 <= i < |ks| ==> gs[i] == GroupOf(Bucket(es, key, ks[i]))
  {
    if ks == [] then [] else GroupSeq(es, key, ks[..|ks| - 1]) + [GroupOf(Bucket(es, key, ks[|ks| - 1]))]
  }

  /** What a tile needs besides its kind and path. */
  datatype TileContext = TileContext(md5: string -> string, encode: string -> string, mediaURL: string,
                                     itemsMeta: map<string, MetaItem>)

  /** A child's caption: the one its album's record holds under its meta id, else its base name. */
  function ChildCaption(ctx: TileContext, p: string): string
  {
    var id := GetMetaId(ctx.md5, p);
    if id in ctx.itemsMeta && ctx.itemsMeta[id].caption.Some? then ctx.itemsMeta[id].caption.value else Basename(p)
  }

  function Tile(ctx: TileContext, t: ItemType, p: string): AlbumEntry
  {
    AlbumEntry(t, ChildCaption(ctx, p), p, GetThumbnailURL(ctx.md5, ctx.encode, ctx.mediaURL, p))
  }

  /** Builds the tiles of one album page. */
  type TileMaker = (ItemType, string) -> AlbumEntry

  function MakeTile(ctx: TileContext): TileMaker
  {
    (t, p) => Tile(ctx, t, p)
  }

  /** One tile of kind t per path, in order. */
  function Tiles(mk: TileMaker, t: ItemType, ps: seq<string>): (r: seq<AlbumEntry>)
    ensures |r| == |ps|
    ensures forall i :: 0 <= i < |ps| ==> r[i] == mk(t, ps[i])
  {
    if ps == [] then [] else Tiles(mk, t, ps[..|ps| - 1]) + [mk(t, ps[|ps| - 1])]
  }

  /** The media tiles of one group: its first video alone, or else all its images. */
  function GroupMedia(mk: TileMaker, g: ItemGrouping): seq<AlbumEntry>
  {
    if |g.videos| > 0 then [mk(VideoItem, g.videos[0])] else Tiles(mk, ImageItem, g.images)
  }

  /** What one group adds to the page's albums (media = false) or to its media (media = true). */
  function GroupPart(mk: TileMaker, g: ItemGrouping, media: bool): seq<AlbumEntry>
  {
    if media then GroupMedia(mk, g) else Tiles(mk, AlbumItem, g.albums)
  }

  /** What the groups add to the albums or to the media, group after group. */
  function GroupTiles(mk: TileMaker, gs: seq<ItemGrouping>, media: bool): seq<AlbumEntry>
  {
    if gs == [] then [] else GroupTiles(mk, gs[..|gs| - 1], media) + GroupPart(mk, gs[|gs| - 1], media)
  }

  /** The page caption: "Gallery" for the root, else the record's caption over the base name. */
  function AlbumCaption(path: string, meta: Option<MetaData>): string
  {
    if path == "" then RootCaption
    else if meta.Some? && meta.value.caption.Some? then meta.value.caption.value
    else Basename(path)
  }

  function ItemsMeta(meta: Option<MetaData>): map<string, MetaItem>
  {
    if meta.Some? && meta.value.items.Some? then meta.value.items.value else map[]
  }

  /** The album page albumFromListing builds. */
  function AlbumSpec(md5: string -> string, encode: string -> string, path: string, listing: AlbumListing,
                     meta: Option<MetaData>): Album
  {
    var mk := MakeTile(TileContext(md5, encode, listing.mediaURL, ItemsMeta(meta)));
    var gs := GroupSeq(listing.entries, EntryKey, Keys(listing.entries, EntryKey));
    Album(AlbumCaption(path, meta), GroupTiles(mk, gs, false), GroupTiles(mk, gs, true))
  }

  lemma {:induction false} PathsOfKindSnoc(es: seq<ListingEntry>, e: ListingEntry, t: ItemType)
    ensures PathsOfKind(es + [e], t) == PathsOfKind(es, t) + (if EntryKind(e) == Some(t) then [e.path] else [])
    ensures EntryKind(e) != Some(t) ==> PathsOfKind(es + [e], t) == PathsOfKind(es, t)
  {
    assert (es + [e])[..|es|] == es;
  }

  /** The switch in albumFromListing's first loop: a directory goes to the ALBUM list, a file
      to the list of its media type, and a file of no known type nowhere. */
  function AddEntry(g: ItemGrouping, e: ListingEntry): ItemGrouping
  {
    match EntryKind(e)
    case Some(AlbumItem) => g.(albums := g.albums + [e.path])
    case Some(ImageItem) => g.(images := g.images + [e.path])
    case Some(VideoItem) => g.(videos := g.videos + [e.path])
    case None => g
  }

  /** Adding an entry to its key's grouping gives the grouping of the longer listing's bucket. */
  lemma {:induction false} AddEntryStep(es: seq<ListingEntry>, e: ListingEntry, key: ListingEntry -> string)
    ensures AddEntry(GroupOf(Bucket(es, key, key(e))), e) == GroupOf(Bucket(es + [e], key, key(e)))
    ensures forall k :: k != key(e) ==> Bucket(es + [e], key, k) == Bucket(es, key, k)
  {
    var b := Bucket(es, key, key(e));
    assert (es + [e])[..|es|] == es;
    assert Bucket(es + [e], key, key(e)) == b + [e];
    PathsOfKindSnoc(b, e, AlbumItem);
    PathsOfKindSnoc(b, e, ImageItem);
    PathsOfKindSnoc(b, e, VideoItem);
  }

  lemma {:induction false} GroupsInsert(es: seq<ListingEntry>, e: ListingEntry, key: ListingEntry -> string,
                     groups: map<string, ItemGrouping>)
    requires forall k :: k in groups ==> groups[k] == GroupOf(Bucket(es, key, k))
    requires key(e) !in groups ==> Bucket(es, key, key(e)) == []
    ensures var g := if key(e) in groups then groups[key(e)] else ItemGrouping([], [], []);
      var groups' := groups[key(e) := AddEntry(g, e)];
      forall k :: k in groups' ==> groups'[k] == GroupOf(Bucket(es + [e], key, k))
  {
    AddEntryStep(es, e, key);
  }

  /** The JavaScript Map of albumFromListing after the entries es: `keys` are its keys in
      insertion order (the distinct keys of es in order of first appearance) and `groups`
      maps each to the grouping of the entries with that key. */
  ghost predicate Grouped(es: seq<ListingEntry>, key: ListingEntry -> string, keys: seq<string>,
                          groups: map<string, ItemGrouping>)
  {
    && keys == Keys(es, key)
    && (forall k :: k in groups <==> k in keys)
    && (forall k :: k in groups ==> groups[k] == GroupOf(Bucket(es, key, k)))
  }

  /** One iteration of albumFromListing's first loop. */
  method InsertEntry(ghost es: seq<ListingEntry>, key: ListingEntry -> string, keys: seq<string>,
                     groups: map<string, ItemGrouping>, entry: ListingEntry)
    returns (keys': seq<string>, groups': map<string, ItemGrouping>)
    requires Grouped(es, key, keys, groups)
    ensures Grouped(es + [entry], key, keys', groups')
  {
    var k := key(entry);
    var group := if k in groups then groups[k] else ItemGrouping([], [], []);
    keys' := if k in groups then keys else keys + [k];
    groups' := groups[k := AddEntry(group, entry)];
    KeysAfterInsert(es, key, keys, groups, entry, AddEntry(group, entry));
    if k !in groups {
      BucketOfAbsentKey(es, key, k);
    }
    GroupsInsert(es, entry, key, groups);
  }

  /** The insertion keeps `keys` the Map's keys in insertion order. */
  lemma {:induction false} KeysAfterInsert(es: seq<ListingEntry>, key: ListingEntry -> string, keys: seq<string>,
                                           groups: map<string, ItemGrouping>, e: ListingEntry, g: ItemGrouping)
    requires keys == Keys(es, key) && (forall k :: k in groups <==> k in keys)
    ensures var keys' := if key(e) in groups then keys else keys + [key(e)];
      keys' == Keys(es + [e], key) && (forall k :: k in groups[key(e) := g] <==> k in keys')
  {
    KeysSnoc(es, e, key);
  }

  /** albumFromListing's first loop, grouping by `key` (EntryKey at the call). */
  method GroupEntries(es: seq<ListingEntry>, key: ListingEntry -> string)
    returns (keys: seq<string>, groups: map<string, ItemGrouping>)
    ensures Grouped(es, key, keys, groups)
  {
    keys := [];
    groups := map[];
    var i := 0;
    while i < |es|
      invariant i <= |es|
      invariant Grouped(es[..i], key, keys, groups)
    {
      var entry := es[i];
      assert es[..i + 1] == es[..i] + [entry];
      keys, groups := InsertEntry(es[..i], key, keys, groups, entry);
      i := i + 1;
    }
    assert es[..i] == es;
  }

  /** The body of albumFromListing's `groups.forEach`: one group's sub-albums, then its
      first video or else its images. */
  method EmitGroup(mk: TileMaker, group: ItemGrouping, albums: seq<AlbumEntry>, media: seq<AlbumEntry>)
    returns (albums': seq<AlbumEntry>, media': seq<AlbumEntry>)
    ensures albums' == albums + GroupPart(mk, group, false)
    ensures media' == media + GroupPart(mk, group, true)
  {
    albums', media' := albums, media;
    var m := 0;
    while m < |group.albums|
      invariant m <= |group.albums|
      invariant albums' == albums + Tiles(mk, AlbumItem, group.albums[..m])
    {
      var entry := group.albums[m];
      assert group.albums[..m + 1][..m] == group.albums[..m];
      albums' := albums' + [mk(AlbumItem, entry)];
      m := m + 1;
    }
    assert group.albums[..m] == group.albums;
    if |group.videos| > 0 {
      var entry := group.videos[0];
      media' := media' + [mk(VideoItem, entry)];
    } else {
      m := 0;
      while m < |group.images|
        invariant m <= |group.images|
        invariant media' == media + Tiles(mk, ImageItem, group.images[..m])
      {
        var entry := group.images[m];
        assert group.images[..m + 1][..m] == group.images[..m];
        media' := media' + [mk(ImageItem, entry)];
        m := m + 1;
      }
      assert group.images[..m] == group.images;
    }
  }

  lemma {:induction false} GroupTilesSnoc(mk: TileMaker, gs: seq<ItemGrouping>, g: ItemGrouping, media: bool)
    ensures GroupTiles(mk, gs + [g], media) == GroupTiles(mk, gs, media) + GroupPart(mk, g, media)
  {
    assert (gs + [g])[..|gs|] == gs;
  }

  /** One more key's group extends both the albums and the media by what the group adds. */
  lemma {:induction false} GroupTilesStep(mk: TileMaker, es: seq<ListingEntry>, key: ListingEntry -> string,
                       keys: seq<string>, j: nat, group: ItemGrouping)
    requires j < |keys| && group == GroupOf(Bucket(es, key, keys[j]))
    ensures GroupTiles(mk, GroupSeq(es, key, keys[..j + 1]), false)
         == GroupTiles(mk, GroupSeq(es, key, keys[..j]), false) + GroupPart(mk, group, false)
    ensures GroupTiles(mk, GroupSeq(es, key, keys[..j + 1]), true)
         == GroupTiles(mk, GroupSeq(es, key, keys[..j]), true) + GroupPart(mk, group, true)
  {
    assert keys[..j + 1] == keys[..j] + [keys[j]];
    assert GroupSeq(es, key, keys[..j + 1]) == GroupSeq(es, key, keys[..j]) + [group];
    GroupTilesSnoc(mk, GroupSeq(es, key, keys[..j]), group, false);
    GroupTilesSnoc(mk, GroupSeq(es, key, keys[..j]), group, true);
  }

  /** albumFromListing's `groups.forEach`, visiting the groups in the Map's insertion order. */
  method EmitGroups(mk: TileMaker, ghost es: seq<ListingEntry>, ghost key: ListingEntry -> string,
                    keys: seq<string>, groups: map<string, ItemGrouping>)
    returns (albums: seq<AlbumEntry>, media: seq<AlbumEntry>)
    requires forall k :: k in keys ==> k in groups && groups[k] == GroupOf(Bucket(es, key, k))
    ensures albums == GroupTiles(mk, GroupSeq(es, key, keys), false)
    ensures media == GroupTiles(mk, GroupSeq(es, key, keys), true)
  {
    albums, media := [], [];
    var j := 0;
    while j < |keys|
      invariant j <= |keys|
      invariant albums == GroupTiles(mk, GroupSeq(es, key, keys[..j]), false)
      invariant media == GroupTiles(mk, GroupSeq(es, key, keys[..j]), true)
    {
      var group := groups[keys[j]];
      GroupTilesStep(mk, es, key, keys, j, group);
      albums, media := EmitGroup(mk, group, albums, media);
      j := j + 1;
    }
    assert keys[..j] == keys;
  }

  /** albumFromListing: the caption, then the entries grouped by stem, then each group's
      sub-albums and media, group after group in the order the stems first appear. */
  method AlbumFromListing(md5: string -> string, encode: string -> string, path: string, listing: AlbumListing,
                          meta: Option<MetaData>)
    returns (album: Album)
    ensures album == AlbumSpec(md5, encode, path, listing, meta)
  {
    var itemsMeta: map<string, MetaItem> := map[];
    var albumCaption := Basename(path);
    if meta.Some? {
      if meta.value.caption.Some? {
        albumCaption := meta.value.caption.value;
      }
      if meta.value.items.Some? {
        itemsMeta := meta.value.items.value;
      }
    }
    if path == "" {
      albumCaption := RootCaption;
    }
    var keys, groups := GroupEntries(listing.entries, EntryKey);
    var mk := MakeTile(TileContext(md5, encode, listing.mediaURL, itemsMeta));
    var albums, media := EmitGroups(mk, listing.entries, EntryKey, keys, groups);
    album := Album(albumCaption, albums, media);
  }

  /** The alternative itemFromListing adds for one video. */
  function Alternative(encode: string -> string, mediaURL: string, video: string): VideoEntry
  {
    VideoEntry(GetMediaURL(encode, mediaURL, video), VideoMime(video))
  }

  /** One alternative per video, in order. */
  function Alternatives(encode: string -> string, mediaURL: string, videos: seq<string>): (r: seq<VideoEntry>)
    ensures |r| == |videos|
    ensures forall i :: 0 <= i < |videos| ==> r[i] == Alternative(encode, mediaURL, videos[i])
  {
    if videos == [] then []
    else Alternatives(encode, mediaURL, videos[..|videos| - 1]) + [Alternative(encode, mediaURL, videos[|videos| - 1])]
  }

  /** The item page's caption: the record's caption over the base name (no root rule here). */
  function ItemCaption(path: string, meta: Option<MetaData>): string
  {
    if meta.Some? && meta.value.caption.Some? then meta.value.caption.value else Basename(path)
  }

  /** The page itemFromListing builds for path from the listing of its directory. */
  function ItemSpec(encode: string -> string, path: string, listing: AlbumListing, meta: Option<MetaData>): Item
  {
    var b := Bucket(listing.entries, EntryKey, Filename(path));
    var images, videos := PathsOfKind(b, ImageItem), PathsOfKind(b, VideoItem);
    if |videos| > 0 then
      Video(ItemCaption(path, meta), Alternatives(encode, listing.mediaURL, videos),
            if |images| > 0 then Some(GetMediaURL(encode, listing.mediaURL, images[0])) else None)
    else Image(ItemCaption(path, meta), GetMediaURL(encode, listing.mediaURL, path))
  }

  /** One more entry of itemFromListing's loop: a same-stem medium joins the list of its
      media type; any other entry changes neither list. */
  lemma {:induction false} ItemGroupStep(es: seq<ListingEntry>, i: nat, key: ListingEntry -> string, itemName: string)
    requires i < |es|
    ensures var e := es[i];
      var t := if e.entryType == MediumEntryType && key(e) == itemName then GuessMediaType(e.path) else None;
      var b, b' := Bucket(es[..i], key, itemName), Bucket(es[..i + 1], key, itemName);
      && PathsOfKind(b', ImageItem) == PathsOfKind(b, ImageItem) + (if t == Some(ImageItem) then [e.path] else [])
      && PathsOfKind(b', VideoItem) == PathsOfKind(b, VideoItem) + (if t == Some(VideoItem) then [e.path] else [])
  {
    var e := es[i];
    assert es[..i + 1] == es[..i] + [e];
    var b := Bucket(es[..i], key, itemName);
    if key(e) == itemName {
      assert Bucket(es[..i + 1], key, itemName) == b + [e];
      PathsOfKindSnoc(b, e, ImageItem);
      PathsOfKindSnoc(b, e, VideoItem);
    } else {
      assert Bucket(es[..i + 1], key, itemName) == b;
    }
  }

  /** itemFromListing's loop: the same-stem files, by media type; directories never join.
      The stem function is a parameter (EntryKey at the call). */
  method CollectItemGroup(es: seq<ListingEntry>, key: ListingEntry -> string, itemName: string)
    returns (images: seq<string>, videos: seq<string>)
    ensures images == PathsOfKind(Bucket(es, key, itemName), ImageItem)
    ensures videos == PathsOfKind(Bucket(es, key, itemName), VideoItem)
  {
    images, videos := [], [];
    var i := 0;
    while i < |es|
      invariant i <= |es|
      invariant images == PathsOfKind(Bucket(es[..i], key, itemName), ImageItem)
      invariant videos == PathsOfKind(Bucket(es[..i], key, itemName), VideoItem)
    {
      var entry := es[i];
      ItemGroupStep(es, i, key, itemName);
      if entry.entryType == MediumEntryType && key(entry) == itemName {
        var t := GuessMediaType(entry.path);
        if t == Some(ImageItem) {
          images := images + [entry.path];
        } else if t == Some(VideoItem) {
          videos := videos + [entry.path];
        }
      }
      i := i + 1;
    }
    assert es[..i] == es;
  }

  /** itemFromListing's loop over the videos: one alternative each, pushed in order. */
  method BuildAlternatives(encode: string -> string, mediaURL: string, videos: seq<string>)
    returns (alternatives: seq<VideoEntry>)
    ensures alternatives == Alternatives(encode, mediaURL, videos)
  {
    alternatives := [];
    var m := 0;
    while m < |videos|
      invariant m <= |videos|
      invariant alternatives == Alternatives(encode, mediaURL, videos[..m])
    {
      assert videos[..m + 1][..m] == videos[..m];
      alternatives := alternatives + [Alternative(encode, mediaURL, videos[m])];
      m := m + 1;
    }
    assert videos[..m] == videos;
  }

  /** itemFromListing: a Video of all same-stem videos, with the first same-stem image as
      poster, when there is a same-stem video; otherwise an Image of the requested path. */
  method ItemFromListing(encode: string -> string, path: string, listing: AlbumListing, meta: Option<MetaData>)
    returns (item: Item)
    ensures item == ItemSpec(encode, path, listing, meta)
  {
    var itemCaption := Basename(path);
    if meta.Some? {
      if meta.value.caption.Some? {
        itemCaption := meta.value.caption.value;
      }
    }
    var itemName := Filename(path);
    var images, videos := CollectItemGroup(listing.entries, EntryKey, itemName);
    if |videos| > 0 {
      var poster := if |images| > 0 then Some(GetMediaURL(encode, listing.mediaURL, images[0])) else None;
      var alternatives := BuildAlternatives(encode, listing.mediaURL, videos);
      item := Video(itemCaption, alternatives, poster);
    } else {
      item := Image(itemCaption, GetMediaURL(encode, listing.mediaURL, path));
    }
  }
}
