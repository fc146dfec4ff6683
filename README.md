# WebAlbumGenerator core, modelled in Dafny

WebAlbumGenerator turns a folder of photos and videos into a web gallery. This project
models the parts of it that decide what the gallery shows and who may see it:

- **The web client's helpers** (`src/main/js/utils.ts`): splitting paths into directory,
  base name, stem and extension; classifying a file as image or video by its extension;
  building the media, thumbnail and metadata URLs of a path; stripping a prefix at a
  segment boundary; and previous/next navigation. The path helpers live in module
  `JsPath`, the rest in `Utils`.
- **The web client's listing grouper** (`src/main/js/wag.ts`, module `WagClient`, with
  the types of `models.ts` and the constants of `constants.ts` in `Models`):
  `albumFromListing` groups a directory listing by file stem into sub-album and media
  tiles, and `itemFromListing` builds the image or video page of one item.
  `WagClientProps` holds what is proved about them.
- **The PHP gallery script** (`src/main/php/wag.php`, modules `PhpWag`, `PhpPath` and
  the class `PhpWagClass.Wag`): key mangling, target sanitisation and URL arguments, the
  nearest-`password.txt` access rule, album grouping into photos and video sets with a
  representative, an item's position among its siblings, and the breadcrumbs.
- **The two offline metadata scripts** (`src/main/python/wagmetagen.py` and its
  predecessor `src/main/python/wagmetaextract.py`): the stem grouping `getItems`
  (`PyItems`, shared by both scripts, whose copies are identical), the metadata of an
  image, a video and an album (`WagMetaGen`, `AlbumMetaGen`, `WagMetaExtract`), the
  content-addressed sidecar directories, pinkynail selection and placement
  (`Pinkynails`), and each script's run with its counters (`MetaGenRun.Generator`,
  `MetaExtractRun.Extractor`).

The file tree is an immutable value (`FileSystem.Tree`): each path maps to a directory
with its names in listing order, or to a file with its lines. Library calls whose
results the programs only pass on (md5, `encodeURIComponent`, imageio, iptcinfo3, ffmpeg,
file sizes and times, date conversion) are function-typed parameters: the `Env` datatype
of `PyMeta` for the Python scripts, and plain parameters elsewhere. Base64 (section 4 of
RFC 4648, and PHP's lenient decoder) is modelled outright in `Base64`. Files written by
the scripts are returned as a list of outputs (`Thumbnail`, `ItemMetaOut`, `AlbumMetaOut`)
in the order the scripts write them.

Loops of the source are methods whose `ensures` equate their result, or the object's new
state, with a specification function; the properties the programs promise are lemmas
about those functions.

## Model

| member | source | states |
|---|---|---|
| JsPath.DirnameBasename | src/main/js/utils.ts:19-25 | basename never holds '/'; if the path holds '/', dirname + "/" + basename is the path, otherwise dirname is "" and basename is the whole path |
| JsPath.FilenameExtname | src/main/js/utils.ts:27-38 | filename("..") is ""; extname never holds '.'; when the base name holds '.', filename + "." + extname is the base name (so ".jpg" has stem "" and extension "jpg"); otherwise filename is the base name and extname is "" |
| JsPath.StemExt | src/main/js/utils.ts:31-37 | the split of a name at its last '.': stem + "." + extension gives the name back, and a name without '.' is its own stem with the empty extension |
| Utils.MediaTypeTable | src/main/js/utils.ts:40-49 | guessMediaType lower-cases the extension and answers IMAGE exactly for jpg/png/jpeg/gif, VIDEO exactly for webm/mp4/mpeg4/m4v, null for any other; it never answers ALBUM |
| Utils.VideoMimeMatchesMediaType | src/main/js/utils.ts:51-53 | videoMIME is defined exactly when guessMediaType is VIDEO, is video/webm exactly for webm and video/mp4 exactly for mp4/mpeg4/m4v |
| Utils.UrlSegmentsRoundTrip | src/main/js/utils.ts:121-133 | urlencodeSegments keeps undefined as undefined, encodes each '/'-separated segment on its own (the segments of the result are the encoded segments), and urldecodeSegments undoes it when the per-segment codec round-trips and never emits '/' |
| Utils.EncodeSegmentsSnoc | src/main/js/utils.ts:121-126 | appending a '/'-free last segment to a path appends '/' and that segment's encoding to the encoded path |
| Utils.SidecarURLs | src/main/js/utils.ts:55-69 | the media, thumbnail and meta URLs start with the prefix; the thumbnail and meta URLs of a path share the encoded `.wag/<md5(path)>/` and end in the encoded tn.jpg and meta.json |
| Utils.TrailingPathInverse | src/main/js/utils.ts:71-81 | trailingPath(pre, pre) is ""; trailingPath(pre, pre + "/" + r) is r; and trailingPath succeeds with r exactly when the full path is the prefix (r = "") or prefix + "/" + r, so prefix "a" rejects "ab" and anything shorter |
| Utils.FirstOfInterestFrom | src/main/js/utils.ts:139-143 | the index of the first element of interest at or after a start, or the length when none is |
| Utils.FirstNotOfInterestFrom | src/main/js/utils.ts:144-149 | the index of the first element not of interest at or after a start, or the length when none is |
| Utils.GetNavigation | src/main/js/utils.ts:135-152 | the loop with its early break returns the mapped element before the first element of interest and the mapped first later element not of interest |
| Utils.NavigationProperties | src/main/js/utils.ts:135-152 | with a first element of interest at i: prev is element i-1 (null when i = 0); next exists exactly when a later element is not of interest and is the first such; neither is of interest |
| Utils.NavigationWithoutInterest | src/main/js/utils.ts:135-152 | with no element of interest, prev is the last element (null for an empty list) and next is null |
| WagClient.GroupEntries | src/main/js/wag.ts:26-48 | the loop that fills the `groups` map leaves one grouping per stem, in first-seen order, holding that stem's entries split by kind in listing order |
| WagClient.InsertEntry | src/main/js/wag.ts:29-47 | one step of that loop keeps the map equal to the grouping of the entries seen so far |
| WagClient.AddEntryStep | src/main/js/wag.ts:33-47 | adding an entry to its stem's grouping gives the grouping of the longer listing, and leaves every other stem's bucket unchanged |
| WagClient.EmitGroup | src/main/js/wag.ts:49-70 | one group's tiles: each sub-album; then the first video alone when there is a video, else every image |
| WagClient.EmitGroups | src/main/js/wag.ts:49-70 | the `groups.forEach` loop appends every group's album and media tiles in the map's insertion order |
| WagClient.AlbumFromListing | src/main/js/wag.ts:12-72 | albumFromListing equals its specification AlbumSpec: caption rule, then the tiles of every stem group in first-seen order |
| WagClient.CollectItemGroup | src/main/js/wag.ts:81-92 | the loop collects the images and the videos of the item's stem, each in listing order |
| WagClient.BuildAlternatives | src/main/js/wag.ts:96-98 | one alternative per video, in order, with its media URL and videoMIME |
| WagClient.ItemFromListing | src/main/js/wag.ts:74-104 | itemFromListing equals its specification ItemSpec |
| WagClientProps.AlbumCaptions | src/main/js/wag.ts:12-67 | the root path gets "Gallery" whatever the metadata says; otherwise a meta caption beats basename(path); each tile's caption is the item metadata's caption under md5(tile path) when present, else the tile's base name, and its thumbnail is getThumbnailURL(mediaURL, tile path) |
| WagClientProps.SubAlbumsArePermutation | src/main/js/wag.ts:33-55 | album.albums holds exactly the listing's ALBUM entries, as a multiset, and every one is typed ALBUM |
| WagClientProps.AlbumByStem | src/main/js/wag.ts:49-70 | for every stem, the album tiles of that stem are its sub-albums, and its media tiles are its first video alone if it has a video, else all its images in listing order |
| WagClientProps.MediaTileKind | src/main/js/wag.ts:49-70 | a media tile is a VIDEO tile for its stem's first video when the stem has a video, and an IMAGE tile when it has none |
| WagClientProps.PathsOfKindTyped | src/main/js/wag.ts:37-43 | every path grouped as IMAGE or VIDEO has that media type, so entries with an unrecognised extension are never grouped as media |
| WagClientProps.AlbumKindIsDirectory | src/main/js/wag.ts:33-35 | an entry is grouped as ALBUM exactly when the listing types it as a directory |
| WagClientProps.GroupTilesByKey | src/main/js/wag.ts:49-70 | selecting the emitted tiles by stem gives back exactly the tiles that stem's group emits |
| WagClientProps.ItemPage | src/main/js/wag.ts:74-104 | the item is a Video exactly when its stem has a video; a Video has one alternative per same-stem video, in order, each with its media URL and a defined MIME type, and the poster is the first same-stem image's media URL or null; an Image's URL is the media URL of the requested path |
| WagClientProps.MediaTileOpensItem | src/main/js/wag.ts:74-104 | opening a media tile of an album gives the Video whose first alternative is that tile's video, or the Image of that tile's path |
| Base64.DecodeEncode | src/main/php/wag.php:661-670 | PHP's lenient base64_decode undoes base64_encode for every byte string |
| Base64.EncodeLength | src/main/php/wag.php:663 | base64_encode of n bytes has 4·⌈n/3⌉ characters, each from the alphabet or the '=' pad |
| PhpWag.UnmangleKey | src/main/php/wag.php:666-670 | unmangle_key yields one byte fewer than the base64 decode of its argument, and the empty key when that decode is empty (the trailing '0' byte of mangle_key is dropped) |
| PhpWag.UnmangleMangle | src/main/php/wag.php:661-670 | unmangle_key(mangle_key(k)) == k for every key |
| PhpWag.MangleKeyShape | src/main/php/wag.php:661-664 | the mangled key is base64 of strrev(k) . '0': 4·⌈(n+1)/3⌉ characters from the base64 alphabet or '=' |
| PhpWag.ReplaceBackslashes | src/main/php/wag.php:732 | every backslash becomes '/', nothing else changes, and no backslash remains |
| PhpWag.RemoveBackslashQuotesIsDead | src/main/php/wag.php:732-733 | once line 732 has run, the replacement of `\"` on line 733 changes nothing |
| PhpWag.DecodeTargetSpec | src/main/php/wag.php:730-750 | decode_target returns its lexical result exactly when that path exists, and NULL exactly when it does not |
| PhpWag.DecodedPathShape | src/main/php/wag.php:734-744 | the lexical result is "." followed by "/part" for each kept part, none of which is "", "." or ".." or holds '/' |
| PhpWag.EncodeDecodeTarget | src/main/php/wag.php:730-761 | decoding the encode_target of a decoded target gives back the same target |
| PhpWag.UrlDecodeEncode | src/main/php/wag.php:769 | urldecode undoes PHP's urlencode on every byte string |
| PhpWag.UrlArgTargetRoundTrip | src/main/php/wag.php:763-771 | url_arg_target is empty exactly for the root; otherwise it is "&trg=" followed by a value that urldecodes and re-decodes to the same target |
| PhpWag.UrlArgKeyLosesPlus | src/main/php/wag.php:773-780 | url_arg_key of the key [248] is "&key=+DA=", and the key that value gives back after urldecoding is the empty key |
| PhpWag.UrlArgKeyEncodedRoundTrip | src/main/php/wag.php:773-780 | with the mangled key urlencoded, every key survives the link: unmangle_key(urldecode(value)) is the key |
| PhpWag.MediaTables | src/main/php/wag.php:793-823 | is_photo is a regular file with a lower-cased jpg/png/jpeg/gif extension; is_video one with webm/mp4/mpeg4/m4v; get_video_type is video/webm for webm, video/mp4 for the other three, and nothing for any other extension |
| PhpWag.PhotoVideoDisjoint | src/main/php/wag.php:793-823 | no file is both photo and video, and every video has a video type |
| PhpPath.PathinfoExtensionSplits | src/main/php/wag.php:798 | pathinfo's extension holds neither '.' nor '/', and when non-empty the path (without trailing slashes) ends in "." + extension |
| PhpPath.GetFileNameParts | src/main/php/wag.php:783-791 | get_file_name's stem holds no path separator; without '.' in the name the stem is the name, otherwise stem + "." + a dot-free extension is the name |
| PhpPath.DirnameOfAncestor | src/main/php/wag.php:1152-1153 | dirname of a decoded target's ancestor with n parts is the one with n-1 parts, and differs from it |
| PhpPath.AncestorsOfDecoded | src/main/php/wag.php:1148-1160 | a decoded target with n parts has exactly n ancestors, the j-th being the path of its first j parts ("." for j = 0) |
| PhpPath.AncestorsOfChain | src/main/php/wag.php:1152-1159 | when each path of a chain is the dirname of the next and the first is its own dirname, the ancestors of the last are the chain's other paths, root first |
| PhpWag.VideoRepChoice | src/main/php/wag.php:847-865 | get_video_rep is the first photo of the set; with no photo, the first video; with neither, NULL |
| PhpWag.GroupItemsShape | src/main/php/wag.php:1099-1120 | a stem bucket with a video adds exactly one item, its representative, which is in its video set; a bucket without video adds its photos in order; every item added is a photo or a video |
| PhpWag.ListingPartition | src/main/php/wag.php:1084-1098 | every listed subdirectory (not "." or "..") becomes a sub-album and nothing else does; the files bucketed are exactly the listed names that are not directories |
| PhpWag.ItemsAreMedia | src/main/php/wag.php:1099-1120 | every entry of items_in_album is a photo or a video |
| PhpWag.VideoSetsAreMedia | src/main/php/wag.php:1107-1114 | every stored video set holds a video and only photos and videos |
| PhpWag.FirstSetWith | src/main/php/wag.php:837-845 | get_video_set's result is a stored set that holds the item; NULL only when no stored set does |
| PhpWag.KeyFileIsNearest | src/main/php/wag.php:706-717 | the password file found is the first of dir and its ancestors that has one |
| PhpWag.AccessRule | src/main/php/wag.php:700-727 | access is granted for a NULL target, when no ancestor has a password.txt, and when the nearest one has no non-empty line; otherwise exactly when the key is one of the nearest file's non-empty lines |
| PhpWag.UniqueMatchPosition | src/main/php/wag.php:1123-1140 | for an item matched once, at index i, item_idx is i, item_prev is element i-1 (NULL for i = 0), and item_next is element i+1, or the earlier value at the end |
| PhpWag.PositionPrefix | src/main/php/wag.php:1125-1140 | the loop's state after the first n siblings: count, previous sibling, collect flag, and the index and neighbours found so far |
| PhpWag.AlbumCaptionOfDecoded | src/main/php/wag.php:867-878 | the caption of the root is the root album caption, or the working directory's name when that caption is FALSE, NULL or blank; any other ancestor's caption is its last part |
| PhpWagClass.BreadcrumbsOfDecoded | src/main/php/wag.php:1148-1160 | a target with n parts has n crumbs, root first; crumb j links to "?act=show" with the url_arg_target of the j-th ancestor and url_arg_key, and is named with that ancestor's caption |
| PhpWagClass.BucketListing | src/main/php/wag.php:1084-1098 | the scandir loop: the sub-albums listed, and the loose files bucketed by stem with keys in first-seen order |
| PhpWagClass.Place | src/main/php/wag.php:1092-1096 | one file joins its stem's bucket, keeping the buckets equal to the grouping of the files seen |
| PhpWagClass.ClimbCrumbs | src/main/php/wag.php:1151-1159 | the dirname loop with array_unshift yields one crumb per ancestor, root first |
| PhpWagClass.Wag.constructor | src/main/php/wag.php:652-659 | the object after parse_params and is_valid_key: the unmangled key when one is given, the decoded target (of "" when none is), and the access verdict |
| PhpWagClass.Wag.ParseParams | src/main/php/wag.php:683-692 | key is unmangle_key of the `key` argument when present, NULL otherwise; target is decode_target of `trg`, or of "" |
| PhpWagClass.Wag.DecodeTarget | src/main/php/wag.php:730-750 | the loop over the parts equals DecodeTargetSpec |
| PhpWagClass.Wag.IsValidKey | src/main/php/wag.php:700-727 | the two climbing loops decide exactly KeyAccepted |
| PhpWagClass.Wag.IsVideoSet | src/main/php/wag.php:825-835 | the early-exit scan answers whether some file is a video |
| PhpWagClass.Wag.GetVideoRep | src/main/php/wag.php:847-865 | the two scans return VideoRep |
| PhpWagClass.Wag.GetVideoSet | src/main/php/wag.php:837-845 | the scan returns the first stored set holding the item |
| PhpWagClass.Wag.AddGroup | src/main/php/wag.php:1100-1119 | one stem's files append its photos, or its video set and representative, to the object's fields |
| PhpWagClass.Wag.AddGroups | src/main/php/wag.php:1099-1120 | the loop over the stems appends every group's items and video sets in key order |
| PhpWagClass.Wag.LoadAlbumItems | src/main/php/wag.php:1081-1121 | albums_in_album, items_in_album and video_sets_in_album grow by the album's sub-albums and by the items and video sets of its stem groups |
| PhpWagClass.Wag.LoadItemPosition | src/main/php/wag.php:1123-1146 | item_idx, item_prev and item_next are the loop's result over items_in_album; item_next_slide is item_next, or dirname(target) when there is none |
| PhpWagClass.Wag.LoadBreadcrumbs | src/main/php/wag.php:1148-1160 | the breadcrumbs are the crumbs of the target's ancestors, root first |
| PyItems.MediaExtensions | src/main/python/wagmetagen.py:61-66 | isimage is a file with a lower-cased .jpg/.png/.jpeg/.gif extension, isvideo one with .mp4/.mpeg4/.m4v/.webm; no file is both |
| PyItems.KindOfDirectories | src/main/python/wagmetagen.py:100-105 | an entry is grouped as image exactly when isimage, as video exactly when isvideo, and as album exactly when it is a directory |
| PyItems.EntriesOfListing | src/main/python/wagmetagen.py:93-94 | the entries are the listed names other than ".wag", joined to the folder |
| PyItems.GroupEntries | src/main/python/wagmetagen.py:95-106 | the loop that fills `groups` leaves one group per stem, in first-seen order, each holding that stem's entries by kind in listing order |
| PyItems.InsertEntry | src/main/python/wagmetagen.py:96-106 | one step of that loop keeps the map equal to the grouping of the entries seen |
| PyItems.AddGroupTo | src/main/python/wagmetagen.py:107-120 | one group appends its albums, then one video record (all its videos, the first image as poster or None) when it has a video, else its images |
| PyItems.EmitItems | src/main/python/wagmetagen.py:107-120 | the loop over `groups.values()` equals ItemsOf over the stems in first-seen order |
| PyItems.GetItems | src/main/python/wagmetagen.py:90-121 | getItems equals its specification ItemsSpec |
| PyItems.ItemsArePermutations | src/main/python/wagmetagen.py:90-121 | items[ALBUM] holds exactly the album entries, the video records together hold exactly the video entries, and items[IMAGE] exactly the images of video-free stems, each as a multiset |
| PyItems.SubfoldersAreAlbums | src/main/python/wagmetagen.py:93-109 | every listed subfolder other than ".wag" is in items[ALBUM], and every album there is such a subfolder |
| PyItems.RecordShape | src/main/python/wagmetagen.py:110-117 | a video record holds at least one video; it is the record of its first video's stem; all its videos are videos of that stem, and its poster, if any, is an image of that stem |
| PyItems.RecordsOfStems | src/main/python/wagmetagen.py:107-117 | the video records are exactly one per stem that has a video |
| PyItems.MediaCounted | src/main/python/wagmetagen.py:76-80 | the media count is the lone images, plus every video of every record, plus one per poster |
| PyItems.DotfileIsNoImage | src/main/python/wagmetagen.py:61-62 | splitext keeps ".jpg" whole: its stem is ".jpg" and it is neither image nor video |
| PyPath.SplitextParts | src/main/python/wagmetagen.py:97 | os.path.splitext's root + extension is the path, and the extension is empty or a '.' followed by neither '.' nor '/' |
| PyPath.SplitextDotfile | src/main/python/wagmetagen.py:97 | a base name that starts with its only '.' has the empty extension |
| PyPath.BasenameOfJoin | src/main/python/wagmetagen.py:93-97 | the base name of folder joined with a plain name is that name |
| PyPath.RelpathBelow | src/main/python/wagmetagen.py:434 | relpath of a path below the base is its remaining parts joined by '/', and "." for the base itself |
| PySort.SortSortsAndPermutes | src/main/python/wagmetagen.py:131-135 | sorted() yields an ascending list (code-point order) with the same elements |
| PySort.LeastIsMinimum | src/main/python/wagmetagen.py:135 | the sort key of a video record, the least of its videos, is one of them and no video is less than it |
| WagMetaGen.ImageMeta | src/main/python/wagmetagen.py:302-370 | the image metadata holds exactly the keys with a value under the script's rules, each with that value |
| WagMetaGen.IptcBlock | src/main/python/wagmetagen.py:303-316 | height and width, then the IPTC caption and copyright notice when they hold text |
| WagMetaGen.ExifTextBlock | src/main/python/wagmetagen.py:320-332 | the EXIF date, ImageDescription, Copyright and Artist steps, each filling only an absent key |
| WagMetaGen.ExifNumericBlock | src/main/python/wagmetagen.py:333-362 | the GPS, exposure, f-number, ISO and focal-length steps |
| WagMetaGen.ExtractImageMeta | src/main/python/wagmetagen.py:302-370 | the step-by-step dict filling equals ImageMeta |
| WagMetaGen.ImageMetaKeys | src/main/python/wagmetagen.py:302-370 | the metadata always has height, width, caption and date, and only image keys; height and width are the pixel shape |
| WagMetaGen.CaptionPrecedence | src/main/python/wagmetagen.py:311-365 | the caption is the IPTC caption if it holds text, else EXIF ImageDescription if it holds text, else the base name; whitespace-only values are ignored |
| WagMetaGen.CopyrightPrecedence | src/main/python/wagmetagen.py:314-332 | the copyright is the IPTC notice, else EXIF Copyright, else EXIF Artist, each only if it holds text; absent when none does |
| WagMetaGen.DatePrecedence | src/main/python/wagmetagen.py:320-368 | the date is EXIF DateTimeOriginal converted, else the file's mtime |
| WagMetaGen.VideoMeta | src/main/python/wagmetagen.py:389-407 | without ffmpeg the empty dict; otherwise size, caption (the base name) and date (the mtime), with height and width exactly when ffmpeg reports a size |
| WagMetaGen.TrimToAlbumItemMeta | src/main/python/wagmetagen.py:294-299 | trimToAlbumItemMeta succeeds exactly when caption and date are both present, and then keeps exactly those two values |
| WagMetaGen.TrimOfVideoMetaWithoutFfmpeg | src/main/python/wagmetagen.py:294-299 | without ffmpeg, trimming a video's metadata fails (the KeyError of the script) |
| WagMetaGen.TrimPresent | src/main/python/wagmetagen.py:294-299 | the corrected trim keeps exactly the caption and date that are present, with their values |
| WagMetaGen.TrimPresentAgrees | src/main/python/wagmetagen.py:294-299 | where trimToAlbumItemMeta succeeds the corrected trim gives the same dict; it succeeds on every image's metadata and, with ffmpeg, on every video's |
| WagMetaGen.MetaIdMatchesClient | src/main/python/wagmetagen.py:431-437 | the id of a path below the base is md5 of its '/'-joined relative path, the same id the web client computes for that path |
| WagMetaGen.MetaDirInWagDir | src/main/python/wagmetagen.py:425-428 | getMetaDir is base/.wag/<id>: its parts are the base's, ".wag" and the id |
| WagMetaExtract.MetaDirsAgree | src/main/python/wagmetaextract.py:295-300 | the two scripts agree on every path but the base, which wagmetaextract keys by md5(".") and wagmetagen by md5("") |
| AlbumMetaGen.ExtractAlbumMeta | src/main/python/wagmetagen.py:238-268 | the loops fill the album dict equal to AlbumMetaOf |
| AlbumMetaGen.AlbumItemsKeys | src/main/python/wagmetagen.py:244-266 | `items` has one entry per album, image, video and poster, keyed by metadata id |
| AlbumMetaGen.AlbumItemsTrimmed | src/main/python/wagmetagen.py:246-266 | every entry of `items` holds at most caption and date |
| AlbumMetaGen.AlbumEntryOfAlbum | src/main/python/wagmetagen.py:244-249 | a sub-album's entry is its base name as caption and the date of its latest item (the albumDate parameter) |
| AlbumMetaGen.AlbumEntryOfImage | src/main/python/wagmetagen.py:250-253 | an image's entry is its trimmed image metadata |
| AlbumMetaGen.AlbumEntryOfPosteredVideo | src/main/python/wagmetagen.py:254-266 | a video with a poster and the poster itself carry the poster's trimmed caption and date |
| AlbumMetaGen.AlbumEntryOfBareVideo | src/main/python/wagmetagen.py:254-258 | a video without a poster carries its own trimmed metadata |
| AlbumMetaGen.PutEachLoop | src/main/python/wagmetagen.py:244-253 | a loop storing one entry per path equals PutEach |
| AlbumMetaGen.MergeEachLoop | src/main/python/wagmetagen.py:262-264 | the update loop merges the poster's entry into each video's |
| AlbumMetaGen.AddRecords | src/main/python/wagmetagen.py:254-266 | the loop over the video records equals RecordsItems |
| Pinkynails.SelectPinkynails | src/main/python/wagmetagen.py:128-143 | the loops keep the first four candidates: the subalbum icon if any, then the images, then one per video record (its poster, or with ffmpeg its first video's frame) |
| Pinkynails.AddImageNails | src/main/python/wagmetagen.py:131-134 | the image loop with its break at four |
| Pinkynails.AddVideoNails | src/main/python/wagmetagen.py:135-143 | the video loop with its break at four; a posterless record without ffmpeg adds nothing |
| Pinkynails.PinkynailCount | src/main/python/wagmetagen.py:132-137 | at most four pinkynails, and all candidates when fewer |
| Pinkynails.PinkynailIcon | src/main/python/wagmetagen.py:129-130 | the subalbum icon is among them exactly when there are sub-albums, and then first |
| Pinkynails.PinkynailImages | src/main/python/wagmetagen.py:129-134 | after the icon, the images come in the order given |
| Pinkynails.PlacePinkynails | src/main/python/wagmetagen.py:144-149 | pinkynail i is placed at x = 7 + (i mod 2)·57, y = 7 + (i div 2)·57 |
| Pinkynails.PinkynailsFit | src/main/python/wagmetagen.py:144-149 | each of the four 50×50 tiles lies inside the 125×125 thumbnail and no two overlap |
| MetaGenProps.TilesShape | src/main/python/wagmetagen.py:127-149 | the album thumbnail has at most four tiles, inside the thumbnail, pairwise apart, the icon first exactly when there are sub-albums, then the sorted images |
| MetaGenRun.AlbumThumbnail | src/main/python/wagmetagen.py:127-149 | the pinkynail part of processAlbum over sorted images and records equals AlbumTiles |
| MetaGenRun.RecordsHaveVideos | src/main/python/wagmetagen.py:135 | every sorted video record has a first video, so the sort key and video[VIDEO][0] are defined |
| MetaGenRun.Generator.constructor | src/main/python/wagmetagen.py:56-58 | the globals start unset and zero, with nothing written |
| MetaGenRun.Generator.ProcessImage | src/main/python/wagmetagen.py:155-162 | writes the image's thumbnail and metadata and counts one thumbnail |
| MetaGenRun.Generator.ProcessVideo | src/main/python/wagmetagen.py:165-190 | the state advances by VideoEffect: nothing without poster and ffmpeg; otherwise the writes and counts of the postered or framed branch |
| MetaGenRun.Generator.ProcessPosteredVideos | src/main/python/wagmetagen.py:179-184 | each video gets the poster's thumbnail and its own metadata updated with the poster's, one thumbnail counted per video |
| MetaGenRun.Generator.ProcessFramedVideos | src/main/python/wagmetagen.py:186-190 | each video gets its own frame's thumbnail and metadata |
| MetaGenRun.Generator.ProcessAlbum | src/main/python/wagmetagen.py:124-152 | writes the album thumbnail and the album meta.json and counts one thumbnail |
| MetaGenRun.Generator.ProcessImages | src/main/python/wagmetagen.py:82-83 | the image loop advances the state by ImagesEffect |
| MetaGenRun.Generator.ProcessVideos | src/main/python/wagmetagen.py:84-85 | the video loop advances the state by RecordsEffect |
| MetaGenRun.Generator.ProcessFolder | src/main/python/wagmetagen.py:70-85 | counts and processes the folder, its images and its videos, and returns its sub-albums |
| MetaGenRun.Generator.ProcessSubfolders | src/main/python/wagmetagen.py:86-87 | the recursion into each subfolder in turn |
| MetaGenRun.Generator.Process | src/main/python/wagmetagen.py:69-87 | process advances the state by ProcessEffect |
| MetaGenRun.Generator.Run | src/main/python/wagmetagen.py:440-459 | main sets processingBase, resets both counters, and ends with the totals and writes of ProcessEffect of the folder |
| MetaGenProps.ImagesWritten | src/main/python/wagmetagen.py:155-162 | for n images, 2n writes: each image's thumbnail then its metadata, and n thumbnails counted |
| MetaGenProps.PosterVideosWritten | src/main/python/wagmetagen.py:179-184 | each video's writes are the poster's thumbnail and the video's metadata overridden key by key by the poster's |
| MetaGenProps.FrameVideosWritten | src/main/python/wagmetagen.py:186-190 | each video's writes are its frame's thumbnail and its own metadata |
| MetaGenProps.VideoWrites | src/main/python/wagmetagen.py:165-178 | a record writes nothing exactly when it has no poster and ffmpeg is missing (or it holds no video); with a poster it first writes the poster's thumbnail and own metadata; without one it starts with its first video's frame |
| MetaGenProps.PosteredVideoMeta | src/main/python/wagmetagen.py:181-183 | a postered video's metadata: the poster's keys win, caption, date, height and width come from the poster, and size is there exactly with ffmpeg |
| MetaGenProps.ProcessCounted | src/main/python/wagmetagen.py:69-87 | over a whole tree, thumbnails generated never exceed the items counted, and equal them when ffmpeg is there |
| MetaGenProps.RunCounted | src/main/python/wagmetagen.py:440-459 | the same for a run of main |
| MetaGenProps.RecordsCounted | src/main/python/wagmetagen.py:165-190 | the video records yield at most one thumbnail per video and per poster, exactly that many with ffmpeg |
| WagMetaExtract.IptcValue | src/main/python/wagmetaextract.py:234-240 | an IPTC value is kept exactly when the record is truthy and the entry is non-empty |
| WagMetaExtract.ExifValue | src/main/python/wagmetaextract.py:242-264 | an EXIF value is kept exactly when the block is there and the entry is truthy, unchanged |
| WagMetaExtract.RawImageMeta | src/main/python/wagmetaextract.py:226-265 | the metadata holds exactly the keys with a truthy source value, with that value |
| WagMetaExtract.PutTruthy | src/main/python/wagmetaextract.py:244-264 | one `if entry:` step sets its key only for a truthy entry |
| WagMetaExtract.ExtractImageMeta | src/main/python/wagmetaextract.py:226-265 | the step-by-step dict filling equals RawImageMeta |
| WagMetaExtract.RawImageMetaShape | src/main/python/wagmetaextract.py:226-265 | width and height are always there; every other key is truthy; there are no defaults, so the caption and date exist only when IPTC and EXIF give them |
| WagMetaExtract.RawVideoMetaIsTrimmed | src/main/python/wagmetaextract.py:268-277 | the older video metadata is the newer one without size, caption and date: at most height and width |
| MetaExtractRun.ListingThumbnail | src/main/python/wagmetaextract.py:121-143 | the pinkynails in listing order, without sorting, on the same grid |
| MetaExtractRun.SharedPosterWritten | src/main/python/wagmetaextract.py:158-181 | with a poster, every video gets the poster's thumbnail and exactly the poster's metadata |
| MetaExtractRun.AlbumsWritten | src/main/python/wagmetaextract.py:118-145 | each sub-album gets a thumbnail and no meta.json |
| MetaExtractRun.FolderStepCounted | src/main/python/wagmetaextract.py:66-78 | a folder counts its albums and media; its thumbnails never exceed that, and equal it with ffmpeg |
| MetaExtractRun.ProcessStepCounted | src/main/python/wagmetaextract.py:63-81 | the same over a recursive or flat run |
| MetaExtractRun.MainEffect | src/main/python/wagmetaextract.py:319-326 | main writes every folder's outputs in turn and ends with the last folder as base and only that folder's counters |
| MetaExtractRun.Extractor.constructor | src/main/python/wagmetaextract.py:50-52 | the globals start unset and zero, with nothing written |
| MetaExtractRun.Extractor.ProcessImage | src/main/python/wagmetaextract.py:148-155 | writes the image's thumbnail and metadata and counts one thumbnail |
| MetaExtractRun.Extractor.ProcessVideo | src/main/python/wagmetaextract.py:158-181 | the state advances by VideoStep |
| MetaExtractRun.Extractor.ProcessPosteredVideos | src/main/python/wagmetaextract.py:166-174 | each video gets the poster's thumbnail and metadata |
| MetaExtractRun.Extractor.ProcessFramedVideos | src/main/python/wagmetaextract.py:175-181 | each video gets its own frame's thumbnail and metadata |
| MetaExtractRun.Extractor.ProcessAlbum | src/main/python/wagmetaextract.py:118-145 | writes a sub-album's thumbnail and counts it |
| MetaExtractRun.Extractor.ProcessAlbums | src/main/python/wagmetaextract.py:73-74 | the album loop advances the state by AlbumSteps |
| MetaExtractRun.Extractor.ProcessImages | src/main/python/wagmetaextract.py:75-76 | the image loop advances the state by ImageSteps |
| MetaExtractRun.Extractor.ProcessVideos | src/main/python/wagmetaextract.py:77-78 | the video loop advances the state by VideoSteps |
| MetaExtractRun.Extractor.ProcessFolder | src/main/python/wagmetaextract.py:66-78 | counts and processes the folder's albums, images and videos, and returns its sub-albums |
| MetaExtractRun.Extractor.ProcessSubfolders | src/main/python/wagmetaextract.py:79-81 | the recursion into each subfolder in turn |
| MetaExtractRun.Extractor.Process | src/main/python/wagmetaextract.py:63-81 | process advances the state by ProcessStep, recursing only when asked |
| MetaExtractRun.Extractor.RunFolder | src/main/python/wagmetaextract.py:320-324 | one folder argument: base set, counters reset, then that folder's step |
| MetaExtractRun.Extractor.Run | src/main/python/wagmetaextract.py:303-326 | main over all folder arguments equals Main |

## Left out

- Presentation of `wag.php` (CSS and script text, the HTML builders, the output functions with their headers) and the `process_passkey` redirect: string templating and HTTP output.
- Image drawing: the GD thumbnails and icons of `wag.php`, `makeThumbnail` and `readFrame` of both Python scripts. Thumbnails are outputs naming what they are made from (an image, a video's frame, the pinkynail tiles); their pixels are not modelled.
- Floating-point EXIF arithmetic: `calculate_exif_gps_number`, `calculate_exif_shutter`, `load_photo_info`, `exifFracToNum`, `exifDegreeToDecimal` and the shutter and aperture formatting. Their results are opaque `Env` parameters (`latitude`, `longitude`, `shutter`, `aperture`).
- WagMetaGen.ImageMeta: EXIF floats, `strptime`/`isoformat` of DateTimeOriginal, `fromtimestamp` of the mtime and md5 are opaque `Env` parameters; the model states how they are combined, not what they compute.
- Utils.SidecarURLs: md5 and `encodeURIComponent` are parameters; the round trip of `Utils.UrlSegmentsRoundTrip` is stated under the assumption that the per-segment codec round-trips and emits no '/'.
- WagMetaGen.ExtractImageMeta: an `imread` or `strptime` that raises, and an EXIF text field that is not a string, are not modelled; such files are taken to read.
- MetaGenRun.Generator.Run: the `print` calls of both scripts are dropped; the counters they print are the final state.
- PyItems.GetItems: every `requires IsDir` (here and on `Process`, `ExtractAlbumMeta`, `AlbumThumbnail`, `ListingThumbnail`) excludes the error `os.listdir` raises on a path that is not a directory.
- MetaGenRun.Generator.Process: symlink cycles are excluded. A finite `Tree` whose sub-albums are strictly deeper cannot express them; on such a tree the scripts would recurse until RecursionError.
- PhpWag.KeyAccepted: `in_array` is modelled as string equality. PHP's loose `==` makes numeric strings compare as numbers, so a key "1e1" matches a line "10" in the script but not in the model; the same holds for `in_array` in `get_video_set`.
- PhpWag.PasswordKeys: password.txt arrives as lines already split; the line-ending handling of `FILE_IGNORE_NEW_LINES` (a "\r" left on "\r\n" lines) is not modelled.
- Utils.MediaTypeTable: `toLowerCase`, `strtolower` and `str.lower` are modelled as ASCII-only case folding; no other character lowers to a letter of the extension tables.
- PhpWagClass.Wag.LoadAlbumItems: `scandir` sorts its names and `os.listdir` has no set order; the model takes the listing order as given, and the order chosen decides the representative photo and the order of items and video sets.
- PyPath.Relpath: `os.path.relpath` is modelled on the '/'-separated parts of both paths without `abspath`/`normpath` (no '..' resolution, no working directory); for the base and paths the scripts form by joining plain names below it, this is the same result.
- WagClient.AlbumFromListing: the `console.error` for unrecognised entries is dropped; such entries contribute nothing.
- PhpWagClass.Wag.ParseParams: the `act` argument is not read; it only selects the presentation.
- PhpWagClass.Wag.constructor: `root_album_caption` keeps its default '' (a managed script can set it; `PhpWag.AlbumCaptionOfDecoded` covers every value).
- AlbumMetaGen.AlbumMetaOf: album items are trimmed with the corrected `WagMetaGen.TrimPresent`, not the script's `trimToAlbumItemMeta`, so an album holding a video while ffmpeg is missing yields a meta.json here, where the script raises KeyError (see Findings).
- AlbumMetaGen.ExtractAlbumMeta: same as `AlbumMetaOf`: the KeyError the script raises for a video without ffmpeg is not modelled.
- MetaGenRun.ProcessEffect: built on `AlbumMetaOf`, so a run the script aborts (an album holding a video while ffmpeg is missing) is modelled as completing.
- MetaGenRun.Generator.Run: for the same reason its totals, and the `!canReadVideos` case of `MetaGenProps.RunCounted`, describe a run the script does not finish when the tree holds a video.
- MetaGenProps.RunCounted: its `!canReadVideos` case holds of a run that, on a tree holding a video, the script aborts with KeyError before printing its totals.
- `getLatestAlbumItemDate` and date parsing: a sub-album's date is the opaque `Env.albumDate` parameter.
- JSON serialisation in `outputMeta` (indentation, key sorting, `ensure_ascii`): a write is an output holding the dict.
- `getAvailableArea` (DOM), the `getAlbum`/`getItem` request chaining, `service.ts`, `main.ts` and the build configuration: browser, network and UI code.

## Findings

| source | as written | input that shows it | evidently intended | confidence | as-written member | corrected member |
|---|---|---|---|---|---|---|
| src/main/php/wag.php:773-780 (used at 1156) | url_arg_key appends the mangled key to breadcrumb links without urlencode | key byte 0xF8: the mangled key is "+DA=", the link carries "&key=+DA=", `$_GET` turns the '+' into a space, and unmangle_key(" DA=") is the empty key, so following a breadcrumb loses access to a protected album | the key argument urlencoded, as url_arg_target does for the target | high (not executed) | PhpWag.UrlArgKeyLosesPlus | PhpWag.UrlArgKeyEncodedRoundTrip |
| src/main/python/wagmetagen.py:254-258,294-299,389-391 | extractAlbumMeta trims each video's metadata with trimToAlbumItemMeta, which indexes caption and date; without imageio_ffmpeg extractVideoMeta returns {} | any album folder holding a video, with imageio_ffmpeg not installed: trimToAlbumItemMeta({}) raises KeyError and the run stops | keep the caption and date that are present (the video's entry then takes the poster's values or stays empty) | high (not executed) | WagMetaGen.TrimOfVideoMetaWithoutFfmpeg | WagMetaGen.TrimPresentAgrees |
