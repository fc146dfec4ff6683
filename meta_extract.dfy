/** The metadata of one image or video as `wagmetaextract.py` extracts it, and where the
    sidecar files of a path go. Unlike wagmetagen.py it copies the raw IPTC and EXIF entries
    that are truthy, adds no defaults, and keys a path by the md5 of its relative path as is. */
module WagMetaExtract {
  import opened Wrappers
  import opened PyPath
  import opened PyMeta
  import PyItems
  import WagMetaGen

  /** `entry = iptc[name]; if entry: ...`: the text when the IPTC record is there and the
      dataset is non-empty. */
  function IptcValue(f: ImageFacts, name: string): (v: Option<Value>)
    ensures v.Some? <==> f.iptc.Some? && name in f.iptc.value && f.iptc.value[name] != ""
    ensures v.Some? ==> v.value == Str(f.iptc.value[name]) && Truthy(v.value)
  {
    var e := IptcEntry(f, name);
    if e.Some? && e.value != "" then Some(Str(e.value)) else None
  }

  /** `entry = exif.get(name, None); if entry: ...`: the entry when it is there and truthy. */
  function ExifValue(f: ImageFacts, name: string): (v: Option<Value>)
    ensures v.Some? <==> f.exif.Some? && name in f.exif.value && Truthy(f.exif.value[name])
    ensures v.Some? ==> v.value == f.exif.value[name]
  {
    var e := ExifEntry(f, name);
    if e.Some? && Truthy(e.value) then e else None
  }

  /** What extractImageMeta puts under each key: the pixel shape always, the IPTC caption and
      copyright notice, and seven EXIF tags copied unconverted. */
  function RawValue(f: ImageFacts, k: MetaKey): Option<Value>
  {
    match k
    case Height => Some(Number(f.height))
    case Width => Some(Number(f.width))
    case Caption => IptcValue(f, WagMetaGen.IptcCaption)
    case Copyright => IptcValue(f, WagMetaGen.IptcCopyright)
    case Date => ExifValue(f, "DateTimeOriginal")
    case Lat => ExifValue(f, "GPSLatitude")
    case Lon => ExifValue(f, "GPSLongitude")
    case Shutter => ExifValue(f, "ExposureTime")
    case Aperture => ExifValue(f, "FNumber")
    case Iso => ExifValue(f, "ISOSpeedRatings")
    case Zoom => ExifValue(f, "FocalLengthIn35mmFilm")
    case Size => None
  }

  /** What extractImageMeta returns for an image, key by key. */
  function RawImageMeta(f: ImageFacts): (m: Meta)
    ensures forall k :: k in m <==> RawValue(f, k).Some?
    ensures forall k :: k in m ==> m[k] == RawValue(f, k).value
  {
    assert forall k: MetaKey :: k in WagMetaGen.AllKeys by {
      forall k: MetaKey
        ensures k in WagMetaGen.AllKeys
      {
        WagMetaGen.KeyListed(k);
      }
    }
    map k | k in WagMetaGen.AllKeys && RawValue(f, k).Some? :: RawValue(f, k).value
  }

  /** The IPTC block: the shape, then the caption and copyright notice when non-empty. */
  function IptcFields(f: ImageFacts): Meta
  {
    var m := map[Height := Number(f.height), Width := Number(f.width)];
    WagMetaGen.Put(WagMetaGen.Put(m, Caption, IptcValue(f, WagMetaGen.IptcCaption)),
                   Copyright, IptcValue(f, WagMetaGen.IptcCopyright))
  }

  /** The EXIF block after the IPTC block, tag by tag in the order of the source. */
  function ExifFields(f: ImageFacts, m: Meta): Meta
  {
    var m1 := WagMetaGen.Put(m, Date, ExifValue(f, "DateTimeOriginal"));
    var m2 := WagMetaGen.Put(m1, Lat, ExifValue(f, "GPSLatitude"));
    var m3 := WagMetaGen.Put(m2, Lon, ExifValue(f, "GPSLongitude"));
    var m4 := WagMetaGen.Put(m3, Shutter, ExifValue(f, "ExposureTime"));
    var m5 := WagMetaGen.Put(m4, Aperture, ExifValue(f, "FNumber"));
    var m6 := WagMetaGen.Put(m5, Iso, ExifValue(f, "ISOSpeedRatings"));
    WagMetaGen.Put(m6, Zoom, ExifValue(f, "FocalLengthIn35mmFilm"))
  }

  /** `entry = exif.get(name, None); if entry: meta[key] = entry`. */
  method PutTruthy(f: ImageFacts, meta: Meta, key: MetaKey, name: string) returns (meta': Meta)
    requires f.exif.Some?
    ensures meta' == WagMetaGen.Put(meta, key, ExifValue(f, name))
  {
    meta' := meta;
    var exif := f.exif.value;
    if name in exif {
      var entry := exif[name];
      if Truthy(entry) {
        meta' := meta[key := entry];
      }
    }
  }

  /** `extractImageMeta(path, image)`: the shape, the IPTC block when the record is there, the
      EXIF block when the image has one. */
  method ExtractImageMeta(env: Env, path: string) returns (meta: Meta)
    ensures meta == RawImageMeta(env.image(path))
  {
    var f := env.image(path);
    meta := map[];
    meta := meta[Height := Number(f.height)];
    meta := meta[Width := Number(f.width)];
    if f.iptc.Some? {
      var iptc := f.iptc.value;
      var entry := if WagMetaGen.IptcCaption in iptc then iptc[WagMetaGen.IptcCaption] else "";
      if entry != "" {
        meta := meta[Caption := Str(entry)];
      }
      entry := if WagMetaGen.IptcCopyright in iptc then iptc[WagMetaGen.IptcCopyright] else "";
      if entry != "" {
        meta := meta[Copyright := Str(entry)];
      }
    }
    assert meta == IptcFields(f);
    if f.exif.Some? {
      meta := PutTruthy(f, meta, Date, "DateTimeOriginal");
      meta := PutTruthy(f, meta, Lat, "GPSLatitude");
      meta := PutTruthy(f, meta, Lon, "GPSLongitude");
      meta := PutTruthy(f, meta, Shutter, "ExposureTime");
      meta := PutTruthy(f, meta, Aperture, "FNumber");
      meta := PutTruthy(f, meta, Iso, "ISOSpeedRatings");
      meta := PutTruthy(f, meta, Zoom, "FocalLengthIn35mmFilm");
    }
    assert meta == ExifFields(f, IptcFields(f));
    StagedIsRaw(f);
  }

  /** The EXIF tags wagmetaextract.py copies. */
  predicate FromExif(k: MetaKey)
  {
    k == Date || k == Lat || k == Lon || k == Shutter || k == Aperture || k == Iso || k == Zoom
  }

  lemma {:induction false} IptcFieldsGet(f: ImageFacts, k: MetaKey)
    ensures WagMetaGen.Get(IptcFields(f), k) == if FromExif(k) then None else RawValue(f, k)
  {
    var m0 := map[Height := Number(f.height), Width := Number(f.width)];
    WagMetaGen.PutGet(m0, Caption, IptcValue(f, WagMetaGen.IptcCaption), k);
    WagMetaGen.PutGet(WagMetaGen.Put(m0, Caption, IptcValue(f, WagMetaGen.IptcCaption)),
                      Copyright, IptcValue(f, WagMetaGen.IptcCopyright), k);
  }

  lemma {:induction false} ExifFieldsGet(f: ImageFacts, m: Meta, k: MetaKey)
    ensures WagMetaGen.Get(ExifFields(f, m), k)
         == if FromExif(k) && RawValue(f, k).Some? then RawValue(f, k) else WagMetaGen.Get(m, k)
  {
    var m1 := WagMetaGen.Put(m, Date, ExifValue(f, "DateTimeOriginal"));
    var m2 := WagMetaGen.Put(m1, Lat, ExifValue(f, "GPSLatitude"));
    var m3 := WagMetaGen.Put(m2, Lon, ExifValue(f, "GPSLongitude"));
    var m4 := WagMetaGen.Put(m3, Shutter, ExifValue(f, "ExposureTime"));
    var m5 := WagMetaGen.Put(m4, Aperture, ExifValue(f, "FNumber"));
    var m6 := WagMetaGen.Put(m5, Iso, ExifValue(f, "ISOSpeedRatings"));
    WagMetaGen.PutGet(m, Date, ExifValue(f, "DateTimeOriginal"), k);
    WagMetaGen.PutGet(m1, Lat, ExifValue(f, "GPSLatitude"), k);
    WagMetaGen.PutGet(m2, Lon, ExifValue(f, "GPSLongitude"), k);
    WagMetaGen.PutGet(m3, Shutter, ExifValue(f, "ExposureTime"), k);
    WagMetaGen.PutGet(m4, Aperture, ExifValue(f, "FNumber"), k);
    WagMetaGen.PutGet(m5, Iso, ExifValue(f, "ISOSpeedRatings"), k);
    WagMetaGen.PutGet(m6, Zoom, ExifValue(f, "FocalLengthIn35mmFilm"), k);
  }

  /** The staged blocks give the key-by-key description. */
  lemma {:induction false} StagedIsRaw(f: ImageFacts)
    ensures ExifFields(f, IptcFields(f)) == RawImageMeta(f)
  {
    var m := ExifFields(f, IptcFields(f));
    var r := RawImageMeta(f);
    forall k
      ensures k in m <==> k in r
      ensures k in m ==> m[k] == r[k]
    {
      IptcFieldsGet(f, k);
      ExifFieldsGet(f, IptcFields(f), k);
      assert WagMetaGen.Get(m, k) == RawValue(f, k);
    }
  }

  /** The extracted metadata always has the shape and never a byte size; every other entry is
      truthy, and there is a caption or a date only when the image carries one. */
  lemma {:induction false} RawImageMetaShape(f: ImageFacts)
    ensures var m := RawImageMeta(f);
      && {Height, Width} <= m.Keys <= WagMetaGen.ImageKeys
      && m[Height] == Number(f.height) && m[Width] == Number(f.width)
      && (forall k :: k in m && k != Height && k != Width ==> Truthy(m[k]))
      && (Caption in m <==> f.iptc.Some? && WagMetaGen.IptcCaption in f.iptc.value
                            && f.iptc.value[WagMetaGen.IptcCaption] != "")
      && (Date in m <==> f.exif.Some? && "DateTimeOriginal" in f.exif.value
                         && Truthy(f.exif.value["DateTimeOriginal"]))
  {
    var m := RawImageMeta(f);
    forall k | k in m
      ensures k in WagMetaGen.ImageKeys
      ensures k != Height && k != Width ==> Truthy(m[k])
    {
      assert RawValue(f, k).Some?;
    }
    assert RawValue(f, Height).Some? && RawValue(f, Width).Some?;
  }

  /** `extractVideoMeta(path)`: `{}` without ffmpeg, else the frame size when ffmpeg reports
      one. */
  function RawVideoMeta(env: Env, path: string): Meta
  {
    if !env.canReadVideos then map[]
    else
      var size := env.videoSize(path);
      if size.Some? then map[Height := Number(size.value.1), Width := Number(size.value.0)] else map[]
  }

  /** This is wagmetagen.py's video metadata without the byte size, caption and date it
      adds. */
  lemma {:induction false} RawVideoMetaIsTrimmed(env: Env, path: string)
    ensures RawVideoMeta(env, path) == WagMetaGen.VideoMeta(env, path) - {Size, Caption, Date}
    ensures RawVideoMeta(env, path).Keys <= {Height, Width}
  {
    var m := RawVideoMeta(env, path);
    var g := WagMetaGen.VideoMeta(env, path) - {Size, Caption, Date};
    forall k
      ensures k in m <==> k in g
      ensures k in m ==> m[k] == g[k]
    {
    }
  }

  /** `getMetaDir(path)`: `os.path.join(processingBase, WAG_DIR, md5(relpath(path)))`. */
  function GetMetaDir(md5: string -> string, base: string, path: string): string
  {
    JoinPath(JoinPath(base, PyItems.WagDir), md5(Relpath(path, base)))
  }

  /** Below the base both scripts put a path's files in the same directory; the base itself
      is keyed by md5(".") here and by md5("") in wagmetagen.py. */
  lemma {:induction false} MetaDirsAgree(md5: string -> string, base: string, path: string)
    ensures Relpath(path, base) != "." ==> GetMetaDir(md5, base, path) == WagMetaGen.GetMetaDir(md5, base, path)
    ensures GetMetaDir(md5, base, base) == JoinPath(JoinPath(base, PyItems.WagDir), md5("."))
    ensures WagMetaGen.GetMetaDir(md5, base, base) == JoinPath(JoinPath(base, PyItems.WagDir), md5(""))
  {
    RelpathSelf(base);
  }
}
