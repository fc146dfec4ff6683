/** The metadata of one image or video as `wagmetagen.py` extracts it, the trimming of item
    metadata for an album's `meta.json`, and where the sidecar files of a path go. */
module WagMetaGen {
  import opened Wrappers
  import opened Seqs
  import opened PyPath
  import opened PyMeta
  import Text
  import Utils
  import PyItems

  const IptcCaption := "caption/abstract"
  const IptcCopyright := "copyright notice"

  /** The caption: the IPTC caption, else the EXIF ImageDescription, else the base name;
      entries without a non-whitespace character do not count. */
  function CaptionOf(f: ImageFacts, path: string): string
  {
    FirstOf([WithText(IptcEntry(f, IptcCaption)), ExifText(f, "ImageDescription")]).GetOr(Basename(path))
  }

  /** The copyright: the IPTC notice, else EXIF Copyright, else EXIF Artist, if any. */
  function CopyrightOf(f: ImageFacts): Option<string>
  {
    FirstOf([WithText(IptcEntry(f, IptcCopyright)), ExifText(f, "Copyright"), ExifText(f, "Artist")])
  }

  /** The date: EXIF DateTimeOriginal, converted, else the file's modification time. */
  function DateOf(env: Env, path: string): string
  {
    var d := ExifEntry(env.image(path), "DateTimeOriginal");
    if d.Some? then env.exifDate(d.value) else env.mtime(path)
  }

  /** A GPS block with more than four entries (`len(entry) > 4`). */
  function GpsOf(f: ImageFacts): Option<Value>
  {
    var g := ExifEntry(f, "GPSInfo");
    if g.Some? && g.value.Composite? && |g.value.parts| > 4 then g else None
  }

  /** `{lat, lon}` from a usable GPS block, else `{}`. */
  function GpsPart(env: Env, f: ImageFacts): Meta
  {
    var g := GpsOf(f);
    if g.Some? then map[Lat := env.latitude(g.value), Lon := env.longitude(g.value)] else map[]
  }

  /** The formatted exposure time, when ExposureTime is there and readable as a fraction. */
  function ShutterOf(env: Env, f: ImageFacts): Option<Value>
  {
    var e := ExifEntry(f, "ExposureTime");
    if e.Some? then AsStr(env.shutter(e.value)) else None
  }

  /** The rounded f-number, when FNumber is there and readable as a fraction. */
  function ApertureOf(env: Env, f: ImageFacts): Option<Value>
  {
    var e := ExifEntry(f, "FNumber");
    if e.Some? then env.aperture(e.value) else None
  }

  /** The value extractImageMeta gives key k of an image's dict, if any. */
  function ImageValue(env: Env, path: string, k: MetaKey): Option<Value>
  {
    var f := env.image(path);
    match k
    case Height => Some(Number(f.height))
    case Width => Some(Number(f.width))
    case Caption => Some(Str(CaptionOf(f, path)))
    case Date => Some(Str(DateOf(env, path)))
    case Copyright => AsStr(CopyrightOf(f))
    case Lat => if GpsOf(f).Some? then Some(env.latitude(GpsOf(f).value)) else None
    case Lon => if GpsOf(f).Some? then Some(env.longitude(GpsOf(f).value)) else None
    case Shutter => ShutterOf(env, f)
    case Aperture => ApertureOf(env, f)
    case Iso => ExifEntry(f, "ISOSpeedRatings")
    case Zoom => ExifEntry(f, "FocalLengthIn35mmFilm")
    case Size => None
  }

  /** Every key an image's metadata can have: all but the size. */
  const ImageKeys: set<MetaKey> := {Height, Width, Caption, Date, Copyright, Lat, Lon, Shutter, Aperture, Iso, Zoom}

  /** Every key of an item's metadata. */
  const AllKeys: set<MetaKey> := {Caption, Copyright, Date, Width, Height, Size, Lat, Lon, Shutter, Aperture, Iso, Zoom}

  lemma {:induction false} KeyListed(k: MetaKey)
    ensures k in AllKeys
  {
    match k
    case Caption =>
    case Copyright =>
    case Date =>
    case Width =>
    case Height =>
    case Size =>
    case Lat =>
    case Lon =>
    case Shutter =>
    case Aperture =>
    case Iso =>
    case Zoom =>
  }

  /** What extractImageMeta returns for an image file, key by key. */
  function ImageMeta(env: Env, path: string): (m: Meta)
    ensures forall k :: k in m <==> ImageValue(env, path, k).Some?
    ensures forall k :: k in m ==> m[k] == ImageValue(env, path, k).value
  {
    assert forall k: MetaKey :: k in AllKeys by {
      forall k: MetaKey
        ensures k in AllKeys
      {
        KeyListed(k);
      }
    }
    map k | k in AllKeys && ImageValue(env, path, k).Some? :: ImageValue(env, path, k).value
  }

  /** `meta[key] = v` when v is present. */
  function Put(m: Meta, key: MetaKey, v: Option<Value>): Meta
  {
    if v.Some? then m[key := v.value] else m
  }

  /** `meta[key] = v` when v is present and key is not yet set. */
  function Fill(m: Meta, key: MetaKey, v: Option<Value>): Meta
  {
    if key in m || v.None? then m else m[key := v.value]
  }

  /** The converted DateTimeOriginal, when EXIF has one. */
  function ExifDateOf(env: Env, f: ImageFacts): Option<Value>
  {
    var d := ExifEntry(f, "DateTimeOriginal");
    if d.Some? then Some(Str(env.exifDate(d.value))) else None
  }

  /** The dict after the pixel shape and extractImageMeta's IPTC block. */
  function IptcFields(f: ImageFacts): Meta
  {
    var m0 := map[Height := Number(f.height), Width := Number(f.width)];
    var m1 := Put(m0, Caption, AsStr(WithText(IptcEntry(f, IptcCaption))));
    Put(m1, Copyright, AsStr(WithText(IptcEntry(f, IptcCopyright))))
  }

  /** The dict after the EXIF date and text fields, each text field filled only where still
      unset. */
  function TextFields(env: Env, f: ImageFacts, m: Meta): Meta
  {
    var m3 := Put(m, Date, ExifDateOf(env, f));
    var m4 := Fill(m3, Caption, AsStr(ExifText(f, "ImageDescription")));
    var m5 := Fill(m4, Copyright, AsStr(ExifText(f, "Copyright")));
    Fill(m5, Copyright, AsStr(ExifText(f, "Artist")))
  }

  /** `lat` and `lon` from a usable GPS block. */
  function GpsFields(env: Env, f: ImageFacts, m: Meta): Meta
  {
    var g := GpsOf(f);
    if g.Some? then m[Lat := env.latitude(g.value)][Lon := env.longitude(g.value)] else m
  }

  /** The dict after the numeric EXIF fields. */
  function NumericFields(env: Env, f: ImageFacts, m: Meta): Meta
  {
    var m7 := GpsFields(env, f, m);
    var m8 := Put(m7, Shutter, ShutterOf(env, f));
    var m9 := Put(m8, Aperture, ApertureOf(env, f));
    var m10 := Put(m9, Iso, ExifEntry(f, "ISOSpeedRatings"));
    Put(m10, Zoom, ExifEntry(f, "FocalLengthIn35mmFilm"))
  }

  /** The dict extractImageMeta returns, in the order it is filled. */
  function FilledMeta(env: Env, path: string): Meta
  {
    var f := env.image(path);
    var m11 := NumericFields(env, f, TextFields(env, f, IptcFields(f)));
    var m12 := Fill(m11, Caption, Some(Str(Basename(path))));
    Fill(m12, Date, Some(Str(env.mtime(path))))
  }

  /** The IPTC block of extractImageMeta, after the pixel shape. */
  method IptcBlock(f: ImageFacts) returns (meta: Meta)
    ensures meta == IptcFields(f)
  {
    meta := map[];
    meta := meta[Height := Number(f.height)];
    meta := meta[Width := Number(f.width)];
    if f.iptc.Some? {
      var iptc := f.iptc.value;
      var entry := if IptcCaption in iptc then iptc[IptcCaption] else "";
      if entry != "" && Text.PyHasText(entry) {
        meta := meta[Caption := Str(entry)];
      }
      entry := if IptcCopyright in iptc then iptc[IptcCopyright] else "";
      if entry != "" && Text.PyHasText(entry) {
        meta := meta[Copyright := Str(entry)];
      }
    }
  }

  /** `entry = exif.get(name, None)`; `if entry is not None and not (key in meta) and
      len(entry.strip()) > 0: meta[key] = entry`. */
  method FillExifText(f: ImageFacts, meta: Meta, key: MetaKey, name: string) returns (meta': Meta)
    requires f.exif.Some?
    ensures meta' == Fill(meta, key, AsStr(ExifText(f, name)))
  {
    meta' := meta;
    var exif := f.exif.value;
    if name in exif && key !in meta {
      var entry := exif[name];
      if entry.Str? && Text.PyHasText(entry.s) {
        meta' := meta[key := entry];
      }
    }
  }

  /** `entry = exif.get(name, None)`; `if entry is not None: meta[key] = entry`. */
  method PutExif(f: ImageFacts, meta: Meta, key: MetaKey, name: string) returns (meta': Meta)
    requires f.exif.Some?
    ensures meta' == Put(meta, key, ExifEntry(f, name))
  {
    meta' := meta;
    var exif := f.exif.value;
    if name in exif {
      meta' := meta[key := exif[name]];
    }
  }

  /** The date and text fields of extractImageMeta's EXIF block. */
  method ExifTextBlock(env: Env, f: ImageFacts, meta: Meta) returns (meta': Meta)
    requires f.exif.Some?
    ensures meta' == TextFields(env, f, meta)
  {
    var exif := f.exif.value;
    meta' := meta;
    if "DateTimeOriginal" in exif {
      meta' := meta'[Date := Str(env.exifDate(exif["DateTimeOriginal"]))];
    }
    meta' := FillExifText(f, meta', Caption, "ImageDescription");
    meta' := FillExifText(f, meta', Copyright, "Copyright");
    meta' := FillExifText(f, meta', Copyright, "Artist");
  }

  /** The GPS, exposure, f-number, ISO and focal-length fields of the EXIF block. */
  method ExifNumericBlock(env: Env, f: ImageFacts, meta: Meta) returns (meta': Meta)
    requires f.exif.Some?
    ensures meta' == NumericFields(env, f, meta)
  {
    var exif := f.exif.value;
    meta' := meta;
    if "GPSInfo" in exif {
      var entry := exif["GPSInfo"];
      if entry.Composite? && |entry.parts| > 4 {
        meta' := meta'[Lat := env.latitude(entry)];
        meta' := meta'[Lon := env.longitude(entry)];
      }
    }
    assert meta' == GpsFields(env, f, meta);
    if "ExposureTime" in exif {
      var frac := env.shutter(exif["ExposureTime"]);
      if frac.Some? {
        meta' := meta'[Shutter := Str(frac.value)];
      }
    }
    if "FNumber" in exif {
      var frac := env.aperture(exif["FNumber"]);
      if frac.Some? {
        meta' := meta'[Aperture := frac.value];
      }
    }
    meta' := PutExif(f, meta', Iso, "ISOSpeedRatings");
    meta' := PutExif(f, meta', Zoom, "FocalLengthIn35mmFilm");
  }

  /** `extractImageMeta(path, image)`: the shape, the IPTC block, the EXIF block (each EXIF
      text field only where IPTC left the key unset), then the caption and date defaults. */
  method ExtractImageMeta(env: Env, path: string) returns (meta: Meta)
    ensures meta == ImageMeta(env, path)
  {
    var f := env.image(path);
    meta := IptcBlock(f);
    if f.exif.Some? {
      meta := ExifTextBlock(env, f, meta);
      meta := ExifNumericBlock(env, f, meta);
    } else {
      assert meta == NumericFields(env, f, TextFields(env, f, IptcFields(f)));
    }
    if Caption !in meta {
      meta := meta[Caption := Str(Basename(path))];
    }
    if Date !in meta {
      meta := meta[Date := Str(env.mtime(path))];
    }
    assert meta == FilledMeta(env, path);
    FilledMetaIsImageMeta(env, path);
  }

  lemma {:induction false} FirstOf2(a: Option<string>, b: Option<string>)
    ensures FirstOf([a, b]) == if a.Some? then a else b
  {
    assert [a, b][1..] == [b];
    assert [b][1..] == [];
  }

  lemma {:induction false} FirstOf3(a: Option<string>, b: Option<string>, c: Option<string>)
    ensures FirstOf([a, b, c]) == if a.Some? then a else if b.Some? then b else c
  {
    assert [a, b, c][1..] == [b, c];
    FirstOf2(b, c);
  }

  /** `meta.get(k)`. */
  function Get(m: Meta, k: MetaKey): Option<Value>
  {
    if k in m then Some(m[k]) else None
  }

  lemma {:induction false} PutGet(m: Meta, key: MetaKey, v: Option<Value>, k: MetaKey)
    ensures Get(Put(m, key, v), k) == if k == key && v.Some? then v else Get(m, k)
  {
  }

  lemma {:induction false} FillGet(m: Meta, key: MetaKey, v: Option<Value>, k: MetaKey)
    ensures Get(Fill(m, key, v), k) == if k == key && Get(m, k).None? then v else Get(m, k)
  {
  }

  /** After the IPTC block: the shape, and the IPTC caption and notice when they have text. */
  lemma {:induction false} IptcGet(f: ImageFacts, k: MetaKey)
    ensures Get(IptcFields(f), k)
         == if k == Height then Some(Number(f.height))
            else if k == Width then Some(Number(f.width))
            else if k == Caption then AsStr(WithText(IptcEntry(f, IptcCaption)))
            else if k == Copyright then AsStr(WithText(IptcEntry(f, IptcCopyright)))
            else None
  {
    var m0 := map[Height := Number(f.height), Width := Number(f.width)];
    var m1 := Put(m0, Caption, AsStr(WithText(IptcEntry(f, IptcCaption))));
    PutGet(m0, Caption, AsStr(WithText(IptcEntry(f, IptcCaption))), k);
    PutGet(m1, Copyright, AsStr(WithText(IptcEntry(f, IptcCopyright))), k);
  }

  /** The EXIF date overrides, and each EXIF text field fills only an unset key. */
  lemma {:induction false} TextGet(env: Env, f: ImageFacts, m: Meta, k: MetaKey)
    ensures Get(TextFields(env, f, m), k)
         == if k == Date then (if ExifDateOf(env, f).Some? then ExifDateOf(env, f) else Get(m, Date))
            else if k == Caption then
              (if Get(m, Caption).Some? then Get(m, Caption) else AsStr(ExifText(f, "ImageDescription")))
            else if k == Copyright then
              (if Get(m, Copyright).Some? then Get(m, Copyright)
               else if ExifText(f, "Copyright").Some? then AsStr(ExifText(f, "Copyright"))
               else AsStr(ExifText(f, "Artist")))
            else Get(m, k)
  {
    var m3 := Put(m, Date, ExifDateOf(env, f));
    var m4 := Fill(m3, Caption, AsStr(ExifText(f, "ImageDescription")));
    var m5 := Fill(m4, Copyright, AsStr(ExifText(f, "Copyright")));
    PutGet(m, Date, ExifDateOf(env, f), k);
    FillGet(m3, Caption, AsStr(ExifText(f, "ImageDescription")), k);
    FillGet(m4, Copyright, AsStr(ExifText(f, "Copyright")), k);
    FillGet(m5, Copyright, AsStr(ExifText(f, "Artist")), k);
  }

  /** The value the numeric part of the EXIF block gives key k, if any. */
  function NumericValue(env: Env, f: ImageFacts, k: MetaKey): Option<Value>
  {
    if k == Lat then (if GpsOf(f).Some? then Some(env.latitude(GpsOf(f).value)) else None)
    else if k == Lon then (if GpsOf(f).Some? then Some(env.longitude(GpsOf(f).value)) else None)
    else if k == Shutter then ShutterOf(env, f)
    else if k == Aperture then ApertureOf(env, f)
    else if k == Iso then ExifEntry(f, "ISOSpeedRatings")
    else if k == Zoom then ExifEntry(f, "FocalLengthIn35mmFilm")
    else None
  }

  lemma {:induction false} GpsGet(env: Env, f: ImageFacts, m: Meta, k: MetaKey)
    ensures Get(GpsFields(env, f, m), k)
         == if (k == Lat || k == Lon) && GpsOf(f).Some? then NumericValue(env, f, k) else Get(m, k)
  {
  }

  /** The numeric fields leave the other keys alone. */
  lemma {:induction false} NumericFrame(env: Env, f: ImageFacts, m: Meta, k: MetaKey)
    requires k == Caption || k == Copyright || k == Date
    ensures Get(NumericFields(env, f, m), k) == Get(m, k)
  {
    var m7 := GpsFields(env, f, m);
    var m8 := Put(m7, Shutter, ShutterOf(env, f));
    var m9 := Put(m8, Aperture, ApertureOf(env, f));
    var m10 := Put(m9, Iso, ExifEntry(f, "ISOSpeedRatings"));
    GpsGet(env, f, m, k);
    PutGet(m7, Shutter, ShutterOf(env, f), k);
    PutGet(m8, Aperture, ApertureOf(env, f), k);
    PutGet(m9, Iso, ExifEntry(f, "ISOSpeedRatings"), k);
    PutGet(m10, Zoom, ExifEntry(f, "FocalLengthIn35mmFilm"), k);
  }

  /** The numeric fields override what is there. */
  lemma {:induction false} NumericGet(env: Env, f: ImageFacts, m: Meta, k: MetaKey)
    ensures Get(NumericFields(env, f, m), k)
         == if NumericValue(env, f, k).Some? then NumericValue(env, f, k) else Get(m, k)
  {
    var m7 := GpsFields(env, f, m);
    var m8 := Put(m7, Shutter, ShutterOf(env, f));
    var m9 := Put(m8, Aperture, ApertureOf(env, f));
    var m10 := Put(m9, Iso, ExifEntry(f, "ISOSpeedRatings"));
    GpsGet(env, f, m, k);
    PutGet(m7, Shutter, ShutterOf(env, f), k);
    PutGet(m8, Aperture, ApertureOf(env, f), k);
    PutGet(m9, Iso, ExifEntry(f, "ISOSpeedRatings"), k);
    PutGet(m10, Zoom, ExifEntry(f, "FocalLengthIn35mmFilm"), k);
  }

  /** Key k of the filled dict, in terms of the dict before the defaults. */
  lemma {:induction false} DefaultsGet(env: Env, path: string, k: MetaKey)
    ensures var f := env.image(path);
      var m11 := NumericFields(env, f, TextFields(env, f, IptcFields(f)));
      Get(FilledMeta(env, path), k)
      == if k == Caption && Get(m11, Caption).None? then Some(Str(Basename(path)))
         else if k == Date && Get(m11, Date).None? then Some(Str(env.mtime(path)))
         else Get(m11, k)
  {
    var f := env.image(path);
    var m11 := NumericFields(env, f, TextFields(env, f, IptcFields(f)));
    var m12 := Fill(m11, Caption, Some(Str(Basename(path))));
    FillGet(m11, Caption, Some(Str(Basename(path))), k);
    FillGet(m12, Date, Some(Str(env.mtime(path))), k);
    FillGet(m11, Caption, Some(Str(Basename(path))), Date);
  }

  /** Key k of the filled dict is what ImageValue says. */
  lemma {:induction false} FilledValue(env: Env, path: string, k: MetaKey)
    ensures Get(FilledMeta(env, path), k) == ImageValue(env, path, k)
  {
    if k == Caption {
      FilledCaption(env, path);
    } else if k == Copyright {
      FilledCopyright(env, path);
    } else if k == Date {
      FilledDate(env, path);
    } else {
      FilledOther(env, path, k);
    }
  }

  lemma {:induction false} FilledCaption(env: Env, path: string)
    ensures Get(FilledMeta(env, path), Caption) == ImageValue(env, path, Caption)
  {
    var f := env.image(path);
    var m2 := IptcFields(f);
    var m6 := TextFields(env, f, m2);
    DefaultsGet(env, path, Caption);
    NumericFrame(env, f, m6, Caption);
    TextGet(env, f, m2, Caption);
    IptcGet(f, Caption);
    FirstOf2(WithText(IptcEntry(f, IptcCaption)), ExifText(f, "ImageDescription"));
  }

  lemma {:induction false} FilledCopyright(env: Env, path: string)
    ensures Get(FilledMeta(env, path), Copyright) == ImageValue(env, path, Copyright)
  {
    var f := env.image(path);
    var m2 := IptcFields(f);
    var m6 := TextFields(env, f, m2);
    var m11 := NumericFields(env, f, m6);
    DefaultsGet(env, path, Copyright);
    assert Get(FilledMeta(env, path), Copyright) == Get(m11, Copyright);
    NumericFrame(env, f, m6, Copyright);
    assert Get(m11, Copyright) == Get(m6, Copyright);
    TextGet(env, f, m2, Copyright);
    IptcGet(f, Copyright);
    var a, b, c := WithText(IptcEntry(f, IptcCopyright)), ExifText(f, "Copyright"), ExifText(f, "Artist");
    assert Get(m2, Copyright) == AsStr(a);
    FirstOf3(a, b, c);
  }

  lemma {:induction false} FilledDate(env: Env, path: string)
    ensures Get(FilledMeta(env, path), Date) == ImageValue(env, path, Date)
  {
    var f := env.image(path);
    var m2 := IptcFields(f);
    var m6 := TextFields(env, f, m2);
    var m11 := NumericFields(env, f, m6);
    DefaultsGet(env, path, Date);
    NumericFrame(env, f, m6, Date);
    assert Get(m11, Date) == Get(m6, Date);
    TextGet(env, f, m2, Date);
    IptcGet(f, Date);
    assert Get(m2, Date) == None;
    assert Get(m6, Date) == ExifDateOf(env, f);
    assert ImageValue(env, path, Date) == Some(Str(DateOf(env, path)));
  }

  lemma {:induction false} FilledOther(env: Env, path: string, k: MetaKey)
    requires k != Caption && k != Copyright && k != Date
    ensures Get(FilledMeta(env, path), k) == ImageValue(env, path, k)
  {
    var f := env.image(path);
    var m2 := IptcFields(f);
    var m6 := TextFields(env, f, m2);
    var m11 := NumericFields(env, f, m6);
    DefaultsGet(env, path, k);
    assert Get(FilledMeta(env, path), k) == Get(m11, k);
    NumericGet(env, f, m6, k);
    TextGet(env, f, m2, k);
    assert Get(m6, k) == Get(m2, k);
    IptcGet(f, k);
    if k == Height || k == Width || k == Size {
      assert NumericValue(env, f, k).None?;
    } else {
      NumericIsImageValue(env, path, k);
    }
  }

  lemma {:induction false} NumericIsImageValue(env: Env, path: string, k: MetaKey)
    requires k == Lat || k == Lon || k == Shutter || k == Aperture || k == Iso || k == Zoom
    ensures NumericValue(env, env.image(path), k) == ImageValue(env, path, k)
  {
  }

  /** Filling the dict in the source's order gives the key-by-key description. */
  lemma {:induction false} FilledMetaIsImageMeta(env: Env, path: string)
    ensures FilledMeta(env, path) == ImageMeta(env, path)
  {
    forall k
      ensures k in FilledMeta(env, path) <==> k in ImageMeta(env, path)
      ensures k in FilledMeta(env, path) ==> FilledMeta(env, path)[k] == ImageMeta(env, path)[k]
    {
      FilledValue(env, path, k);
      assert Get(ImageMeta(env, path), k) == ImageValue(env, path, k);
    }
  }

  /** An image's dict always has the shape, a caption and a date, never a size, and no key
      outside those extractImageMeta sets. */
  lemma {:induction false} ImageMetaKeys(env: Env, path: string)
    ensures {Height, Width, Caption, Date} <= ImageMeta(env, path).Keys <= ImageKeys
    ensures ImageMeta(env, path)[Height] == Number(env.image(path).height)
    ensures ImageMeta(env, path)[Width] == Number(env.image(path).width)
  {
    var m := ImageMeta(env, path);
    forall k | k in m
      ensures k in ImageKeys
    {
      assert ImageValue(env, path, k).Some?;
    }
    assert ImageValue(env, path, Height).Some? && ImageValue(env, path, Width).Some?;
    assert ImageValue(env, path, Caption).Some? && ImageValue(env, path, Date).Some?;
  }

  /** The caption is the IPTC caption when it has a non-whitespace character; otherwise the
      EXIF ImageDescription when that has one; otherwise the file's base name. */
  lemma {:induction false} CaptionPrecedence(env: Env, path: string)
    ensures var f := env.image(path);
      var iptc := IptcEntry(f, IptcCaption);
      var exif := ExifEntry(f, "ImageDescription");
      var caption := ImageMeta(env, path)[Caption];
      && (iptc.Some? && Text.PyHasText(iptc.value) ==> caption == Str(iptc.value))
      && (!(iptc.Some? && Text.PyHasText(iptc.value)) && exif.Some? && exif.value.Str? && Text.PyHasText(exif.value.s)
          ==> caption == exif.value)
      && (!(iptc.Some? && Text.PyHasText(iptc.value)) && !(exif.Some? && exif.value.Str? && Text.PyHasText(exif.value.s))
          ==> caption == Str(Basename(path)))
  {
    var f := env.image(path);
    assert ImageValue(env, path, Caption).Some?;
    FirstOf2(WithText(IptcEntry(f, IptcCaption)), ExifText(f, "ImageDescription"));
  }

  /** The copyright is the IPTC notice, else EXIF Copyright, else EXIF Artist, each only when
      it has a non-whitespace character; with none of them the dict has no copyright. */
  lemma {:induction false} CopyrightPrecedence(env: Env, path: string)
    ensures var f := env.image(path);
      var m := ImageMeta(env, path);
      var notice := WithText(IptcEntry(f, IptcCopyright));
      var copy := ExifText(f, "Copyright");
      var artist := ExifText(f, "Artist");
      && (notice.Some? ==> Copyright in m && m[Copyright] == Str(notice.value))
      && (notice.None? && copy.Some? ==> Copyright in m && m[Copyright] == Str(copy.value))
      && (notice.None? && copy.None? && artist.Some? ==> Copyright in m && m[Copyright] == Str(artist.value))
      && (notice.None? && copy.None? && artist.None? ==> Copyright !in m)
  {
    var f := env.image(path);
    FirstOf3(WithText(IptcEntry(f, IptcCopyright)), ExifText(f, "Copyright"), ExifText(f, "Artist"));
    assert Get(ImageMeta(env, path), Copyright) == ImageValue(env, path, Copyright);
  }

  /** The date is the converted EXIF DateTimeOriginal when there is one, else the file's
      modification time. */
  lemma {:induction false} DatePrecedence(env: Env, path: string)
    ensures var d := ExifEntry(env.image(path), "DateTimeOriginal");
      ImageMeta(env, path)[Date] == Str(if d.Some? then env.exifDate(d.value) else env.mtime(path))
  {
    assert ImageValue(env, path, Date).Some?;
  }

  /** `extractVideoMeta(path)`: nothing without ffmpeg; otherwise ffmpeg's size as height and
      width when it reports one, the file size, the base name as caption and the
      modification time as date. */
  function VideoMeta(env: Env, path: string): (m: Meta)
    ensures !env.canReadVideos ==> m == map[]
    ensures env.canReadVideos ==> {Size, Caption, Date} <= m.Keys <= {Height, Width, Size, Caption, Date}
    ensures env.canReadVideos ==> m[Caption] == Str(Basename(path)) && m[Date] == Str(env.mtime(path))
    ensures env.canReadVideos ==> (Height in m <==> env.videoSize(path).Some?) && (Width in m <==> Height in m)
  {
    if !env.canReadVideos then map[]
    else
      var size := env.videoSize(path);
      var dims := if size.Some? then map[Height := Number(size.value.1), Width := Number(size.value.0)] else map[];
      dims + map[Size := Number(env.fileSize(path)), Caption := Str(Basename(path)), Date := Str(env.mtime(path))]
  }

  /** `trimToAlbumItemMeta(fullMeta)` as written: `fullMeta[META_CAPTION]` and
      `fullMeta[META_DATE]`, None standing for the KeyError when either is missing. */
  function TrimToAlbumItemMeta(full: Meta): (r: Option<Meta>)
    ensures r.Some? <==> Caption in full && Date in full
    ensures r.Some? ==> r.value.Keys == {Caption, Date}
    ensures r.Some? ==> forall k :: k in r.value ==> r.value[k] == full[k]
  {
    if Caption in full && Date in full then Some(map[Caption := full[Caption], Date := full[Date]]) else None
  }

  /** Without ffmpeg, extractVideoMeta returns `{}` and trimming it raises KeyError, so
      extractAlbumMeta fails on every folder that holds a video. */
  lemma {:induction false} TrimOfVideoMetaWithoutFfmpeg(env: Env, v: string)
    requires !env.canReadVideos
    ensures TrimToAlbumItemMeta(VideoMeta(env, v)) == None
  {
  }

  /** The album entry of an item: its caption and date, whichever of them it has. */
  function TrimPresent(full: Meta): (r: Meta)
    ensures r.Keys == full.Keys * {Caption, Date}
    ensures forall k :: k in r ==> r[k] == full[k]
  {
    map k | k in full.Keys && (k == Caption || k == Date) :: full[k]
  }

  /** Where trimToAlbumItemMeta succeeds, keeping the present keys gives the same dict; image
      dicts, and video dicts with ffmpeg, always trim. */
  lemma {:induction false} TrimPresentAgrees(env: Env, full: Meta, path: string)
    ensures TrimToAlbumItemMeta(full).Some? ==> TrimPresent(full) == TrimToAlbumItemMeta(full).value
    ensures TrimToAlbumItemMeta(ImageMeta(env, path)).Some?
    ensures env.canReadVideos ==> TrimToAlbumItemMeta(VideoMeta(env, path)).Some?
  {
    ImageMetaKeys(env, path);
  }

  /** `getMetaId(path)`: the md5 of the path relative to the processing base, the base itself
      counting as the empty path. */
  function GetMetaId(md5: string -> string, base: string, path: string): string
  {
    var rel := Relpath(path, base);
    md5(if rel == "." then "" else rel)
  }

  /** `getMetaDir(path)`: `os.path.join(processingBase, WAG_DIR, getMetaId(path))`. */
  function GetMetaDir(md5: string -> string, base: string, path: string): string
  {
    JoinPath(JoinPath(base, PyItems.WagDir), GetMetaId(md5, base, path))
  }

  /** The ids agree with the web client's: a path reached from the base through names is keyed
      by the md5 of those names '/'-joined, and the base itself by the md5 of "". */
  lemma {:induction false} MetaIdMatchesClient(md5: string -> string, base: string, names: seq<string>)
    requires forall i :: 0 <= i < |names| ==> PlainName(names[i])
    ensures GetMetaId(md5, base, JoinNames(base, names)) == Utils.GetMetaId(md5, Seqs.Join(names, '/'))
  {
    if names == [] {
      RelpathSelf(base);
    } else {
      RelpathOfJoinNames(base, names);
      JoinOfPlainNames(names);
    }
  }

  /** Plain names '/'-joined are never ".". */
  lemma {:induction false} JoinOfPlainNames(names: seq<string>)
    requires |names| > 0
    requires forall i :: 0 <= i < |names| ==> PlainName(names[i])
    ensures Seqs.Join(names, '/') != "."
  {
    if |names| > 1 {
      var j := Seqs.Join(names, '/');
      assert j == names[0] + ['/'] + Seqs.Join(names[1..], '/');
      assert j[|names[0]|] == '/';
    }
  }

  /** Every sidecar directory sits directly in the base's `.wag` directory, under a name that
      is the item's id. */
  lemma {:induction false} MetaDirInWagDir(md5: string -> string, base: string, path: string)
    requires PlainName(GetMetaId(md5, base, path))
    ensures Parts(GetMetaDir(md5, base, path)) == Parts(base) + [PyItems.WagDir, GetMetaId(md5, base, path)]
    ensures Basename(GetMetaDir(md5, base, path)) == GetMetaId(md5, base, path)
  {
    WagChild(base, GetMetaId(md5, base, path));
  }

  lemma {:induction false} WagChild(base: string, id: string)
    requires PlainName(id)
    ensures Parts(JoinPath(JoinPath(base, PyItems.WagDir), id)) == Parts(base) + [PyItems.WagDir, id]
    ensures Basename(JoinPath(JoinPath(base, PyItems.WagDir), id)) == id
  {
    assert PlainName(PyItems.WagDir) by {
      assert PyItems.WagDir == ['.', 'w', 'a', 'g'];
    }
    var w := JoinPath(base, PyItems.WagDir);
    PartsJoin(base, PyItems.WagDir);
    PartsJoin(w, id);
    BasenameOfJoin(w, id);
    SnocTwice(Parts(base), PyItems.WagDir, id);
  }

  lemma {:induction false} SnocTwice<T>(s: seq<T>, x: T, y: T)
    ensures s + [x] + [y] == s + [x, y]
  {
  }
}
