/** What both metadata scripts read from outside their own code, and the JSON values they
    write. Library reads (imageio's pixel shape and EXIF block, iptcinfo3, ffmpeg's size,
    file size and modification time, date conversion, md5) are fields of an environment of
    function-typed parameters; the file tree is an immutable value. */
module PyMeta {
  import opened Wrappers
  import opened FileSystem
  import Text

  /** A JSON-able value: text, a whole number, or a list (an EXIF rational, a GPS block). */
  datatype Value = Str(s: string) | Number(n: int) | Composite(parts: seq<Value>)

  /** Python truthiness of such a value: non-empty text, non-zero number, non-empty list. */
  predicate Truthy(v: Value)
  {
    match v
    case Str(s) => s != []
    case Number(n) => n != 0
    case Composite(parts) => parts != []
  }

  /** The keys of an item's `meta.json`. */
  datatype MetaKey = Caption | Copyright | Date | Width | Height | Size | Lat | Lon | Shutter | Aperture | Iso | Zoom
  {
    /** The JSON name of the key (`META_CAPTION` and so on). */
    function Name(): string
    {
      match this
      case Caption => "caption"
      case Copyright => "copyright"
      case Date => "date"
      case Width => "width"
      case Height => "height"
      case Size => "size"
      case Lat => "lat"
      case Lon => "lon"
      case Shutter => "shutter"
      case Aperture => "aperture"
      case Iso => "iso"
      case Zoom => "zoom"
    }
  }

  /** An item's `meta.json` dict. */
  type Meta = map<MetaKey, Value>

  /** What imageio and iptcinfo3 give for one image file: the pixel shape, the IPTC record
      (None when `IPTCInfo(path)` is falsy) and the `EXIF_MAIN` block (None when absent). */
  datatype ImageFacts = ImageFacts(height: int, width: int,
                                   iptc: Option<map<string, string>>,
                                   exif: Option<map<string, Value>>)

  /** The world the scripts run in. `canReadVideos` is whether imageio_ffmpeg is installed;
      `videoSize` is ffmpeg's `(width, height)`; `exifDate` is the strptime/isoformat
      conversion of DateTimeOriginal; `latitude`/`longitude` the signed decimal degrees of a
      GPS block; `shutter`/`aperture` the formatted exposure and f-number, None when the
      fraction cannot be read; `albumDate` is getLatestAlbumItemDate's isoformat. */
  datatype Env = Env(fs: Tree, canReadVideos: bool,
                     image: string -> ImageFacts,
                     videoSize: string -> Option<(int, int)>,
                     fileSize: string -> int,
                     mtime: string -> string,
                     exifDate: Value -> string,
                     latitude: Value -> Value,
                     longitude: Value -> Value,
                     shutter: Value -> Option<string>,
                     aperture: Value -> Option<Value>,
                     albumDate: string -> string,
                     md5: string -> string)

  /** `iptc[key]` when the IPTC record is truthy; a missing dataset reads as empty. */
  function IptcEntry(f: ImageFacts, key: string): Option<string>
  {
    if f.iptc.None? then None
    else if key in f.iptc.value then Some(f.iptc.value[key])
    else Some("")
  }

  /** `exif.get(key, None)` when the EXIF block is there. */
  function ExifEntry(f: ImageFacts, key: string): Option<Value>
  {
    if f.exif.Some? && key in f.exif.value then Some(f.exif.value[key]) else None
  }

  /** The text of an entry, if it is text with a non-whitespace character
      (`entry and len(entry.strip()) > 0`). */
  function WithText(e: Option<string>): Option<string>
  {
    if e.Some? && Text.PyHasText(e.value) then e else None
  }

  /** An EXIF entry that is text with a non-whitespace character. */
  function ExifText(f: ImageFacts, key: string): Option<string>
  {
    var e := ExifEntry(f, key);
    if e.Some? && e.value.Str? && Text.PyHasText(e.value.s) then Some(e.value.s) else None
  }

  /** The first candidate present, in order of precedence. */
  function FirstOf(candidates: seq<Option<string>>): (r: Option<string>)
    ensures r.Some? <==> exists i :: 0 <= i < |candidates| && candidates[i].Some?
    ensures r.Some? ==> r in candidates
  {
    if candidates == [] then None
    else if candidates[0].Some? then candidates[0]
    else
      var r := FirstOf(candidates[1..]);
      assert forall i :: 0 < i < |candidates| ==> candidates[i] == candidates[1..][i - 1];
      r
  }

  /** `{key: v}` when v is present, else `{}`. */
  function Entry(key: MetaKey, v: Option<Value>): (m: Meta)
    ensures key in m <==> v.Some?
    ensures m.Keys <= {key}
    ensures v.Some? ==> m[key] == v.value
  {
    if v.Some? then map[key := v.value] else map[]
  }

  /** A string as a value, if present. */
  function AsStr(s: Option<string>): (v: Option<Value>)
    ensures v.Some? <==> s.Some?
    ensures s.Some? ==> v.value == Str(s.value)
  {
    if s.Some? then Some(Str(s.value)) else None
  }
}
