/** The web client's constants (constants.ts) and the shapes of the data it exchanges
    with the server (models.ts). */
module Models {
  import opened Wrappers

  const WagDir := ".wag"
  const MetadataFile := "meta.json"
  const ThumbnailFile := "tn.jpg"
  const RootCaption := "Gallery"

  /** The kind of an album entry or item. */
  datatype ItemType = AlbumItem | ImageItem | VideoItem

  /** One tile of an album page. */
  datatype AlbumEntry = AlbumEntry(itemType: ItemType, caption: string, path: string, thumbnail: string)

  /** An album page: its sub-albums, then its images and videos. */
  datatype Album = Album(caption: string, albums: seq<AlbumEntry>, media: seq<AlbumEntry>)

  /** One encoding of a video; `mimeType` is `undefined` for an extension the table lacks. */
  datatype VideoEntry = VideoEntry(url: string, mimeType: Option<string>)

  /** A single image or video page. */
  datatype Item =
    | Image(caption: string, url: string)
    | Video(caption: string, alternatives: seq<VideoEntry>, posterURL: Option<string>)

  datatype Navigation<T> = Navigation(prev: T, next: T)

  /** What the server's listing says an entry is: a directory or a file. */
  datatype ListingEntryType = AlbumEntryType | MediumEntryType

  datatype ListingEntry = ListingEntry(entryType: ListingEntryType, path: string)

  /** A directory listing, with the URL prefix under which its media are served. */
  datatype AlbumListing = AlbumListing(mediaURL: string, entries: seq<ListingEntry>)

  /** The part of a child's sidecar record the client reads. */
  datatype MetaItem = MetaItem(caption: Option<string>)

  /** The part of an album's or item's sidecar record (`meta.json`) the client reads:
      its `caption` key and its `items` key (child records by meta id). */
  datatype MetaData = MetaData(caption: Option<string>, items: Option<map<string, MetaItem>>)
}
