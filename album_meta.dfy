/** The album `meta.json` that `wagmetagen.py`'s extractAlbumMeta writes: the folder's caption
    and, under `items`, the trimmed metadata of each sub-album, image, video and poster, keyed
    by metadata id. Items are trimmed with TrimPresent, which keeps the caption and date
    present; the script's own trimToAlbumItemMeta raises KeyError on a video read without
    ffmpeg (WagMetaGen.TrimOfVideoMetaWithoutFfmpeg). */
module AlbumMetaGen {
  import opened Wrappers
  import opened Seqs
  import opened FileSystem
  import opened PyPath
  import opened PyMeta
  import opened PyItems
  import opened WagMetaGen

  /** The contents of an album's `meta.json`. */
  datatype AlbumMeta = AlbumMeta(caption: string, items: map<string, Meta>)

  type ItemMetas = map<string, Meta>

  /** A sub-album's entry: its base name and the date of its latest item. */
  function SubalbumEntry(env: Env, a: string): Meta
  {
    map[Caption := Str(Basename(a)), Date := Str(env.albumDate(a))]
  }

  /** An image's entry, also a poster's. */
  function ImageEntry(env: Env, p: string): Meta
  {
    TrimPresent(ImageMeta(env, p))
  }

  /** A video's own entry, before its poster's is merged in. */
  function VideoOwnEntry(env: Env, v: string): Meta
  {
    TrimPresent(VideoMeta(env, v))
  }

  function AlbumItem(env: Env): string -> Meta
  {
    (a: string) => SubalbumEntry(env, a)
  }

  function ImageItem(env: Env): string -> Meta
  {
    (p: string) => ImageEntry(env, p)
  }

  function VideoItem(env: Env): string -> Meta
  {
    (v: string) => VideoOwnEntry(env, v)
  }

  /** `for p in ps: items[getMetaId(p)] = f(p)`. */
  function PutEach(m: ItemMetas, ids: string -> string, ps: seq<string>, f: string -> Meta): ItemMetas
  {
    if ps == [] then m else PutEach(m, ids, ps[..|ps| - 1], f)[ids(Last(ps)) := f(Last(ps))]
  }

  /** `for p in ps: items[getMetaId(p)].update(pm)`; every such key was set just before. */
  function MergeEach(m: ItemMetas, ids: string -> string, ps: seq<string>, pm: Meta): ItemMetas
  {
    if ps == [] then m
    else
      var m' := MergeEach(m, ids, ps[..|ps| - 1], pm);
      var k := ids(Last(ps));
      if k in m' then m'[k := m'[k] + pm] else m'
  }

  /** The entries of one video record: its videos' own, then, with a poster, the poster's
      merged into each video's and stored under the poster's own id. */
  function RecordItems(ids: string -> string, vf: string -> Meta, pf: string -> Meta, m: ItemMetas, r: VideoRecord)
    : ItemMetas
  {
    var m' := PutEach(m, ids, r.videos, vf);
    if r.poster.Some? then
      var pm := pf(r.poster.value);
      MergeEach(m', ids, r.videos, pm)[ids(r.poster.value) := pm]
    else m'
  }

  /** The entries of the video records rs, in order. */
  function RecordsItems(ids: string -> string, vf: string -> Meta, pf: string -> Meta, m: ItemMetas,
                        rs: seq<VideoRecord>): ItemMetas
  {
    if rs == [] then m else RecordItems(ids, vf, pf, RecordsItems(ids, vf, pf, m, rs[..|rs| - 1]), Last(rs))
  }

  /** The entries of a folder's items, given how each kind of item is described: sub-albums,
      then images, then video records. */
  function ItemsWith(ids: string -> string, af: string -> Meta, imf: string -> Meta, vf: string -> Meta,
                     pf: string -> Meta, it: Items): ItemMetas
  {
    RecordsItems(ids, vf, pf, PutEach(PutEach(map[], ids, it.albums, af), ids, it.images, imf), it.videos)
  }

  /** The entries of a folder's items. */
  function AlbumItems(env: Env, ids: string -> string, it: Items): ItemMetas
  {
    ItemsWith(ids, AlbumItem(env), ImageItem(env), VideoItem(env), ImageItem(env), it)
  }

  /** getMetaId for the processing base. */
  function MetaIds(md5: string -> string, base: string): string -> string
  {
    (p: string) => GetMetaId(md5, base, p)
  }

  /** What extractAlbumMeta returns for the folder path. */
  function AlbumMetaOf(env: Env, base: string, path: string): AlbumMeta
  {
    AlbumMeta(Basename(path), AlbumItems(env, MetaIds(env.md5, base), ItemsSpec(env.fs, path)))
  }

  /** The paths of a record, videos then poster. */
  function PathsOf(r: VideoRecord): seq<string>
  {
    r.videos + (if r.poster.Some? then [r.poster.value] else [])
  }

  function RecordsPaths(rs: seq<VideoRecord>): seq<string>
  {
    if rs == [] then [] else RecordsPaths(rs[..|rs| - 1]) + PathsOf(Last(rs))
  }

  /** Every path that gets an entry, in the order they are written. */
  function ItemPaths(it: Items): seq<string>
  {
    it.albums + it.images + RecordsPaths(it.videos)
  }

  /** The ids of the paths in ps. */
  function IdsOf(ids: string -> string, ps: seq<string>): set<string>
  {
    set p | p in ps :: ids(p)
  }

  /** No two positions of ps have the same id. */
  predicate UniqueIds(ids: string -> string, ps: seq<string>)
  {
    forall i, j :: 0 <= i < |ps| && 0 <= j < |ps| && i != j ==> ids(ps[i]) != ids(ps[j])
  }

  // ---- The loops of extractAlbumMeta ----

  method PutEachLoop(m: ItemMetas, ids: string -> string, ps: seq<string>, f: string -> Meta)
    returns (m': ItemMetas)
    ensures m' == PutEach(m, ids, ps, f)
  {
    m' := m;
    var i := 0;
    while i < |ps|
      invariant i <= |ps|
      invariant m' == PutEach(m, ids, ps[..i], f)
    {
      assert ps[..i + 1][..i] == ps[..i];
      m' := m'[ids(ps[i]) := f(ps[i])];
      i := i + 1;
    }
    assert ps[..i] == ps;
  }

  method MergeEachLoop(m: ItemMetas, ids: string -> string, ps: seq<string>, pm: Meta)
    returns (m': ItemMetas)
    requires forall p :: p in ps ==> ids(p) in m
    ensures m' == MergeEach(m, ids, ps, pm)
  {
    m' := m;
    var i := 0;
    while i < |ps|
      invariant i <= |ps|
      invariant m' == MergeEach(m, ids, ps[..i], pm)
      invariant m'.Keys == m.Keys
    {
      assert ps[..i + 1][..i] == ps[..i];
      var k := ids(ps[i]);
      m' := m'[k := m'[k] + pm];
      i := i + 1;
    }
    assert ps[..i] == ps;
  }

  /** The body of the video loop of extractAlbumMeta for one record. */
  method AddRecord(ids: string -> string, vf: string -> Meta, pf: string -> Meta, m: ItemMetas, r: VideoRecord)
    returns (m': ItemMetas)
    ensures m' == RecordItems(ids, vf, pf, m, r)
  {
    m' := PutEachLoop(m, ids, r.videos, vf);
    if r.poster.Some? {
      var pm := pf(r.poster.value);
      PutEachKeys(m, ids, r.videos, vf);
      m' := MergeEachLoop(m', ids, r.videos, pm);
      m' := m'[ids(r.poster.value) := pm];
    }
  }

  /** The video loop of extractAlbumMeta. */
  method AddRecords(ids: string -> string, vf: string -> Meta, pf: string -> Meta, m: ItemMetas,
                    rs: seq<VideoRecord>) returns (m': ItemMetas)
    ensures m' == RecordsItems(ids, vf, pf, m, rs)
  {
    m' := m;
    var j := 0;
    while j < |rs|
      invariant j <= |rs|
      invariant m' == RecordsItems(ids, vf, pf, m, rs[..j])
    {
      assert rs[..j + 1][..j] == rs[..j];
      m' := AddRecord(ids, vf, pf, m', rs[j]);
      j := j + 1;
    }
    assert rs[..j] == rs;
  }

  /** `extractAlbumMeta(path)`, with every item trimmed by TrimPresent. */
  method ExtractAlbumMeta(env: Env, base: string, path: string) returns (meta: AlbumMeta)
    requires IsDir(env.fs, path)
    ensures meta == AlbumMetaOf(env, base, path)
  {
    var ids := MetaIds(env.md5, base);
    var items := GetItems(env.fs, path);
    var m := PutEachLoop(map[], ids, items.albums, AlbumItem(env));
    m := PutEachLoop(m, ids, items.images, ImageItem(env));
    m := AddRecords(ids, VideoItem(env), ImageItem(env), m, items.videos);
    meta := AlbumMeta(Basename(path), m);
  }

  // ---- Keys ----

  lemma {:induction false} PutEachKeys(m: ItemMetas, ids: string -> string, ps: seq<string>, f: string -> Meta)
    ensures PutEach(m, ids, ps, f).Keys == m.Keys + IdsOf(ids, ps)
  {
    if ps != [] {
      PutEachKeys(m, ids, ps[..|ps| - 1], f);
      assert ps == ps[..|ps| - 1] + [Last(ps)];
    }
  }

  lemma {:induction false} MergeEachKeys(m: ItemMetas, ids: string -> string, ps: seq<string>, pm: Meta)
    ensures MergeEach(m, ids, ps, pm).Keys == m.Keys
  {
    if ps != [] {
      MergeEachKeys(m, ids, ps[..|ps| - 1], pm);
    }
  }

  lemma {:induction false} RecordItemsKeys(ids: string -> string, vf: string -> Meta, pf: string -> Meta, m: ItemMetas, r: VideoRecord)
    ensures RecordItems(ids, vf, pf, m, r).Keys == m.Keys + IdsOf(ids, PathsOf(r))
  {
    PutEachKeys(m, ids, r.videos, vf);
    if r.poster.Some? {
      MergeEachKeys(PutEach(m, ids, r.videos, vf), ids, r.videos, pf(r.poster.value));
      assert IdsOf(ids, PathsOf(r)) == IdsOf(ids, r.videos) + {ids(r.poster.value)};
    } else {
      assert PathsOf(r) == r.videos;
    }
  }

  lemma {:induction false} RecordsItemsKeys(ids: string -> string, vf: string -> Meta, pf: string -> Meta,
                                            m: ItemMetas, rs: seq<VideoRecord>)
    ensures RecordsItems(ids, vf, pf, m, rs).Keys == m.Keys + IdsOf(ids, RecordsPaths(rs))
  {
    if rs != [] {
      var init := rs[..|rs| - 1];
      RecordsItemsKeys(ids, vf, pf, m, init);
      RecordItemsKeys(ids, vf, pf, RecordsItems(ids, vf, pf, m, init), Last(rs));
      assert IdsOf(ids, RecordsPaths(rs)) == IdsOf(ids, RecordsPaths(init)) + IdsOf(ids, PathsOf(Last(rs)));
    }
  }

  lemma {:induction false} ItemsWithKeys(ids: string -> string, af: string -> Meta, imf: string -> Meta, vf: string -> Meta,
                      pf: string -> Meta, it: Items)
    ensures ItemsWith(ids, af, imf, vf, pf, it).Keys == IdsOf(ids, ItemPaths(it))
  {
    var m1 := PutEach(map[], ids, it.albums, af);
    var m2 := PutEach(m1, ids, it.images, imf);
    PutEachKeys(map[], ids, it.albums, af);
    PutEachKeys(m1, ids, it.images, imf);
    RecordsItemsKeys(ids, vf, pf, m2, it.videos);
    assert IdsOf(ids, ItemPaths(it)) == IdsOf(ids, it.albums) + IdsOf(ids, it.images) + IdsOf(ids, RecordsPaths(it.videos));
  }

  /** `items` has exactly one key per sub-album, image, video and poster: its metadata id. */
  lemma {:induction false} AlbumItemsKeys(env: Env, ids: string -> string, it: Items)
    ensures AlbumItems(env, ids, it).Keys == IdsOf(ids, ItemPaths(it))
  {
    ItemsWithKeys(ids, AlbumItem(env), ImageItem(env), VideoItem(env), ImageItem(env), it);
  }

  // ---- Trimming ----

  /** Every entry holds at most a caption and a date. */
  ghost predicate Trimmed(m: ItemMetas)
  {
    forall k :: k in m ==> m[k].Keys <= {Caption, Date}
  }

  lemma {:induction false} PutEachTrimmed(m: ItemMetas, ids: string -> string, ps: seq<string>, f: string -> Meta)
    requires Trimmed(m)
    requires TrimsItems(f)
    ensures Trimmed(PutEach(m, ids, ps, f))
  {
    if ps != [] {
      PutEachTrimmed(m, ids, ps[..|ps| - 1], f);
    }
  }

  lemma {:induction false} MergeEachTrimmed(m: ItemMetas, ids: string -> string, ps: seq<string>, pm: Meta)
    requires Trimmed(m) && pm.Keys <= {Caption, Date}
    ensures Trimmed(MergeEach(m, ids, ps, pm))
  {
    if ps != [] {
      MergeEachTrimmed(m, ids, ps[..|ps| - 1], pm);
    }
  }

  /** The trimmed item functions yield at most a caption and a date. */
  ghost predicate TrimsItems(f: string -> Meta)
  {
    forall p :: f(p).Keys <= {Caption, Date}
  }

  lemma {:induction false} RecordsItemsTrimmed(ids: string -> string, vf: string -> Meta, pf: string -> Meta,
                                               m: ItemMetas, rs: seq<VideoRecord>)
    requires Trimmed(m) && TrimsItems(vf) && TrimsItems(pf)
    ensures Trimmed(RecordsItems(ids, vf, pf, m, rs))
  {
    if rs != [] {
      var m' := RecordsItems(ids, vf, pf, m, rs[..|rs| - 1]);
      var r := Last(rs);
      RecordsItemsTrimmed(ids, vf, pf, m, rs[..|rs| - 1]);
      PutEachTrimmed(m', ids, r.videos, vf);
      if r.poster.Some? {
        MergeEachTrimmed(PutEach(m', ids, r.videos, vf), ids, r.videos, pf(r.poster.value));
      }
    }
  }

  lemma {:induction false} ItemFunctionsTrim(env: Env)
    ensures TrimsItems(AlbumItem(env)) && TrimsItems(ImageItem(env)) && TrimsItems(VideoItem(env))
  {
  }

  /** Every entry of `items` keeps only a caption and a date. */
  lemma {:induction false} AlbumItemsTrimmed(env: Env, ids: string -> string, it: Items)
    ensures Trimmed(AlbumItems(env, ids, it))
  {
    ItemFunctionsTrim(env);
    ItemsWithTrimmed(ids, AlbumItem(env), ImageItem(env), VideoItem(env), ImageItem(env), it);
  }

  lemma {:induction false} ItemsWithTrimmed(ids: string -> string, af: string -> Meta, imf: string -> Meta, vf: string -> Meta,
                         pf: string -> Meta, it: Items)
    requires TrimsItems(af) && TrimsItems(imf) && TrimsItems(vf) && TrimsItems(pf)
    ensures Trimmed(ItemsWith(ids, af, imf, vf, pf, it))
  {
    var m1 := PutEach(map[], ids, it.albums, af);
    PutEachTrimmed(map[], ids, it.albums, af);
    PutEachTrimmed(m1, ids, it.images, imf);
    RecordsItemsTrimmed(ids, vf, pf, PutEach(m1, ids, it.images, imf), it.videos);
  }

  // ---- Values ----

  /** Ids of a + b unique: each part's are, and no id is shared between them. */
  lemma {:induction false} UniqueSplit(ids: string -> string, a: seq<string>, b: seq<string>)
    requires UniqueIds(ids, a + b)
    ensures UniqueIds(ids, a) && UniqueIds(ids, b)
    ensures IdsOf(ids, a) !! IdsOf(ids, b)
  {
    var ab := a + b;
    forall i, j | 0 <= i < |a| && 0 <= j < |a| && i != j
      ensures ids(a[i]) != ids(a[j])
    {
      assert ab[i] == a[i] && ab[j] == a[j];
    }
    forall i, j | 0 <= i < |b| && 0 <= j < |b| && i != j
      ensures ids(b[i]) != ids(b[j])
    {
      assert ab[|a| + i] == b[i] && ab[|a| + j] == b[j];
    }
    forall p, q | p in a && q in b
      ensures ids(p) != ids(q)
    {
      var i :| 0 <= i < |a| && a[i] == p;
      var j :| 0 <= j < |b| && b[j] == q;
      assert ab[i] == p && ab[|a| + j] == q;
    }
  }

  lemma {:induction false} PutEachFrame(m: ItemMetas, ids: string -> string, ps: seq<string>, f: string -> Meta,
                                        k: string)
    requires k !in IdsOf(ids, ps)
    ensures var m' := PutEach(m, ids, ps, f); (k in m' <==> k in m) && (k in m ==> m'[k] == m[k])
  {
    if ps != [] {
      PutEachFrame(m, ids, ps[..|ps| - 1], f, k);
    }
  }

  /** After the loop, a path's entry is its own, ids being unique. */
  lemma {:induction false} PutEachAt(m: ItemMetas, ids: string -> string, ps: seq<string>, f: string -> Meta,
                                     j: nat)
    requires UniqueIds(ids, ps) && j < |ps|
    ensures var m' := PutEach(m, ids, ps, f); ids(ps[j]) in m' && m'[ids(ps[j])] == f(ps[j])
  {
    if j < |ps| - 1 {
      var init := ps[..|ps| - 1];
      assert init[j] == ps[j];
      assert ids(ps[j]) != ids(ps[|ps| - 1]);
      PutEachAt(m, ids, init, f, j);
    }
  }

  lemma {:induction false} MergeEachFrame(m: ItemMetas, ids: string -> string, ps: seq<string>, pm: Meta, k: string)
    requires k !in IdsOf(ids, ps)
    ensures var m' := MergeEach(m, ids, ps, pm); (k in m' <==> k in m) && (k in m ==> m'[k] == m[k])
  {
    if ps != [] {
      MergeEachFrame(m, ids, ps[..|ps| - 1], pm, k);
    }
  }

  /** After the merge loop, each video's entry has the poster's merged over it. */
  lemma {:induction false} MergeEachAt(m: ItemMetas, ids: string -> string, ps: seq<string>, pm: Meta, j: nat)
    requires UniqueIds(ids, ps) && j < |ps| && ids(ps[j]) in m
    ensures var m' := MergeEach(m, ids, ps, pm); ids(ps[j]) in m' && m'[ids(ps[j])] == m[ids(ps[j])] + pm
  {
    var init := ps[..|ps| - 1];
    UniqueSplit(ids, init, [ps[|ps| - 1]]);
    assert init + [ps[|ps| - 1]] == ps;
    if j < |ps| - 1 {
      assert init[j] == ps[j];
      MergeEachAt(m, ids, init, pm, j);
    } else {
      MergeEachFrame(m, ids, init, pm, ids(ps[j]));
    }
  }

  /** What a video's entry holds once its record is done: its own, with the poster's merged
      over it when there is a poster. */
  function VideoEntry(vf: string -> Meta, pf: string -> Meta, r: VideoRecord, v: string): Meta
  {
    if r.poster.Some? then vf(v) + pf(r.poster.value) else vf(v)
  }

  lemma {:induction false} RecordAt(ids: string -> string, vf: string -> Meta, pf: string -> Meta, m: ItemMetas, r: VideoRecord, j: nat)
    requires UniqueIds(ids, PathsOf(r)) && j < |r.videos|
    ensures var m' := RecordItems(ids, vf, pf, m, r);
      && ids(r.videos[j]) in m' && m'[ids(r.videos[j])] == VideoEntry(vf, pf, r, r.videos[j])
      && (r.poster.Some? ==> ids(r.poster.value) in m' && m'[ids(r.poster.value)] == pf(r.poster.value))
  {
    var tail := if r.poster.Some? then [r.poster.value] else [];
    UniqueSplit(ids, r.videos, tail);
    PutEachAt(m, ids, r.videos, vf, j);
    if r.poster.Some? {
      var m' := PutEach(m, ids, r.videos, vf);
      MergeEachAt(m', ids, r.videos, pf(r.poster.value), j);
      assert ids(r.poster.value) in IdsOf(ids, tail);
    }
  }

  lemma {:induction false} RecordFrame(ids: string -> string, vf: string -> Meta, pf: string -> Meta, m: ItemMetas, r: VideoRecord,
                    k: string)
    requires k !in IdsOf(ids, PathsOf(r))
    ensures var m' := RecordItems(ids, vf, pf, m, r); (k in m' <==> k in m) && (k in m ==> m'[k] == m[k])
  {
    assert IdsOf(ids, r.videos) <= IdsOf(ids, PathsOf(r));
    PutEachFrame(m, ids, r.videos, vf, k);
    if r.poster.Some? {
      MergeEachFrame(PutEach(m, ids, r.videos, vf), ids, r.videos, pf(r.poster.value), k);
      assert r.poster.value in PathsOf(r);
    }
  }

  lemma {:induction false} RecordsFrame(ids: string -> string, vf: string -> Meta, pf: string -> Meta, m: ItemMetas,
                                        rs: seq<VideoRecord>, k: string)
    requires k !in IdsOf(ids, RecordsPaths(rs))
    ensures var m' := RecordsItems(ids, vf, pf, m, rs); (k in m' <==> k in m) && (k in m ==> m'[k] == m[k])
  {
    if rs != [] {
      var init := rs[..|rs| - 1];
      assert IdsOf(ids, RecordsPaths(rs)) == IdsOf(ids, RecordsPaths(init)) + IdsOf(ids, PathsOf(Last(rs)));
      RecordsFrame(ids, vf, pf, m, init, k);
      RecordFrame(ids, vf, pf, RecordsItems(ids, vf, pf, m, init), Last(rs), k);
    }
  }

  lemma {:induction false} RecordPathIn(rs: seq<VideoRecord>, i: nat, p: string)
    requires i < |rs| && p in PathsOf(rs[i])
    ensures p in RecordsPaths(rs)
  {
    if i < |rs| - 1 {
      assert rs[..|rs| - 1][i] == rs[i];
      RecordPathIn(rs[..|rs| - 1], i, p);
    }
  }

  /** Record i's videos and poster keep the entries record i gave them. */
  lemma {:induction false} RecordsAt(ids: string -> string, vf: string -> Meta, pf: string -> Meta, m: ItemMetas,
                                     rs: seq<VideoRecord>, i: nat, j: nat)
    requires UniqueIds(ids, RecordsPaths(rs)) && i < |rs| && j < |rs[i].videos|
    ensures var m' := RecordsItems(ids, vf, pf, m, rs);
      && ids(rs[i].videos[j]) in m' && m'[ids(rs[i].videos[j])] == VideoEntry(vf, pf, rs[i], rs[i].videos[j])
      && (rs[i].poster.Some? ==> ids(rs[i].poster.value) in m' && m'[ids(rs[i].poster.value)] == pf(rs[i].poster.value))
  {
    var init, r := rs[..|rs| - 1], Last(rs);
    UniqueSplit(ids, RecordsPaths(init), PathsOf(r));
    var m0 := RecordsItems(ids, vf, pf, m, init);
    if i == |rs| - 1 {
      RecordAt(ids, vf, pf, m0, r, j);
    } else {
      assert init[i] == rs[i];
      RecordsAt(ids, vf, pf, m, init, i, j);
      var v := rs[i].videos[j];
      assert v in PathsOf(rs[i]);
      RecordPathIn(init, i, v);
      RecordFrame(ids, vf, pf, m0, r, ids(v));
      if rs[i].poster.Some? {
        assert rs[i].poster.value in PathsOf(rs[i]);
        RecordPathIn(init, i, rs[i].poster.value);
        RecordFrame(ids, vf, pf, m0, r, ids(rs[i].poster.value));
      }
    }
  }

  /** Sub-album i's entry is its own: later loops write other ids. */
  lemma {:induction false} ItemsWithAlbum(ids: string -> string, af: string -> Meta, imf: string -> Meta, vf: string -> Meta,
                       pf: string -> Meta, it: Items, i: nat)
    requires UniqueIds(ids, ItemPaths(it)) && i < |it.albums|
    ensures var m := ItemsWith(ids, af, imf, vf, pf, it); ids(it.albums[i]) in m && m[ids(it.albums[i])] == af(it.albums[i])
  {
    var a := it.albums[i];
    UniqueSplit(ids, it.albums + it.images, RecordsPaths(it.videos));
    UniqueSplit(ids, it.albums, it.images);
    var m1 := PutEach(map[], ids, it.albums, af);
    PutEachAt(map[], ids, it.albums, af, i);
    assert a in it.albums + it.images;
    PutEachFrame(m1, ids, it.images, imf, ids(a));
    RecordsFrame(ids, vf, pf, PutEach(m1, ids, it.images, imf), it.videos, ids(a));
  }

  /** Image i's entry is its own. */
  lemma {:induction false} ItemsWithImage(ids: string -> string, af: string -> Meta, imf: string -> Meta, vf: string -> Meta,
                       pf: string -> Meta, it: Items, i: nat)
    requires UniqueIds(ids, ItemPaths(it)) && i < |it.images|
    ensures var m := ItemsWith(ids, af, imf, vf, pf, it); ids(it.images[i]) in m && m[ids(it.images[i])] == imf(it.images[i])
  {
    var p := it.images[i];
    UniqueSplit(ids, it.albums + it.images, RecordsPaths(it.videos));
    UniqueSplit(ids, it.albums, it.images);
    var m1 := PutEach(map[], ids, it.albums, af);
    PutEachAt(m1, ids, it.images, imf, i);
    assert p in it.albums + it.images;
    RecordsFrame(ids, vf, pf, PutEach(m1, ids, it.images, imf), it.videos, ids(p));
  }

  /** Video j of record i ends with its own entry and its poster's merged over it; the poster
      keeps its own. */
  lemma {:induction false} ItemsWithVideo(ids: string -> string, af: string -> Meta, imf: string -> Meta, vf: string -> Meta,
                       pf: string -> Meta, it: Items, i: nat, j: nat)
    requires UniqueIds(ids, ItemPaths(it)) && i < |it.videos| && j < |it.videos[i].videos|
    ensures var m := ItemsWith(ids, af, imf, vf, pf, it); var r := it.videos[i];
      && ids(r.videos[j]) in m && m[ids(r.videos[j])] == VideoEntry(vf, pf, r, r.videos[j])
      && (r.poster.Some? ==> ids(r.poster.value) in m && m[ids(r.poster.value)] == pf(r.poster.value))
  {
    UniqueSplit(ids, it.albums + it.images, RecordsPaths(it.videos));
    var m2 := PutEach(PutEach(map[], ids, it.albums, af), ids, it.images, imf);
    RecordsAt(ids, vf, pf, m2, it.videos, i, j);
  }

  /** A sub-album's entry: its base name and its latest item's date. */
  lemma {:induction false} AlbumEntryOfAlbum(env: Env, ids: string -> string, it: Items, i: nat)
    requires UniqueIds(ids, ItemPaths(it)) && i < |it.albums|
    ensures var m := AlbumItems(env, ids, it); var a := it.albums[i];
      ids(a) in m && m[ids(a)] == map[Caption := Str(Basename(a)), Date := Str(env.albumDate(a))]
  {
    ItemsWithAlbum(ids, AlbumItem(env), ImageItem(env), VideoItem(env), ImageItem(env), it, i);
  }

  /** An image's entry is what trimToAlbumItemMeta makes of its metadata, which always has a
      caption and a date. */
  lemma {:induction false} ImageEntryIsTrimmed(env: Env, p: string)
    ensures TrimToAlbumItemMeta(ImageMeta(env, p)).Some?
    ensures ImageEntry(env, p) == TrimToAlbumItemMeta(ImageMeta(env, p)).value
  {
    TrimPresentAgrees(env, ImageMeta(env, p), p);
  }

  /** A video's own entry: its base name and modification time with ffmpeg, else nothing. */
  lemma {:induction false} VideoOwnEntryIs(env: Env, v: string)
    ensures env.canReadVideos ==> VideoOwnEntry(env, v) == map[Caption := Str(Basename(v)), Date := Str(env.mtime(v))]
    ensures !env.canReadVideos ==> VideoOwnEntry(env, v) == map[]
  {
    var full := VideoMeta(env, v);
    var vm := TrimPresent(full);
    if env.canReadVideos {
      var want := map[Caption := Str(Basename(v)), Date := Str(env.mtime(v))];
      assert vm.Keys == {Caption, Date} == want.Keys;
      assert vm[Caption] == full[Caption] == want[Caption];
      assert vm[Date] == full[Date] == want[Date];
    } else {
      assert vm.Keys == {};
    }
  }

  /** An image's entry is its own. */
  lemma {:induction false} AlbumEntryOfImage(env: Env, ids: string -> string, it: Items, i: nat)
    requires UniqueIds(ids, ItemPaths(it)) && i < |it.images|
    ensures var m := AlbumItems(env, ids, it); var p := it.images[i];
      ids(p) in m && m[ids(p)] == ImageEntry(env, p)
  {
    ItemsWithImage(ids, AlbumItem(env), ImageItem(env), VideoItem(env), ImageItem(env), it, i);
  }

  /** With a poster, the poster's caption and date, which it always has, override the video's. */
  lemma {:induction false} PosteredEntry(env: Env, r: VideoRecord, v: string)
    requires r.poster.Some?
    ensures VideoEntry(VideoItem(env), ImageItem(env), r, v) == ImageEntry(env, r.poster.value)
  {
    ImageEntryIsTrimmed(env, r.poster.value);
    var vm := VideoOwnEntry(env, v);
    var pm := ImageEntry(env, r.poster.value);
    assert vm.Keys <= pm.Keys;
    assert vm + pm == pm;
  }

  /** A video with a poster carries exactly the poster's caption and date, and so does the
      poster's own entry. */
  lemma {:induction false} AlbumEntryOfPosteredVideo(env: Env, ids: string -> string, it: Items, i: nat, j: nat)
    requires UniqueIds(ids, ItemPaths(it)) && i < |it.videos| && j < |it.videos[i].videos|
    requires it.videos[i].poster.Some?
    ensures var m := AlbumItems(env, ids, it); var r := it.videos[i];
      && ids(r.videos[j]) in m && ids(r.poster.value) in m
      && m[ids(r.videos[j])] == m[ids(r.poster.value)] == ImageEntry(env, r.poster.value)
  {
    ItemsWithVideo(ids, AlbumItem(env), ImageItem(env), VideoItem(env), ImageItem(env), it, i, j);
    PosteredEntry(env, it.videos[i], it.videos[i].videos[j]);
  }

  /** A video without a poster keeps its own entry. */
  lemma {:induction false} AlbumEntryOfBareVideo(env: Env, ids: string -> string, it: Items, i: nat, j: nat)
    requires UniqueIds(ids, ItemPaths(it)) && i < |it.videos| && j < |it.videos[i].videos|
    requires it.videos[i].poster.None?
    ensures var m := AlbumItems(env, ids, it); var v := it.videos[i].videos[j];
      ids(v) in m && m[ids(v)] == VideoOwnEntry(env, v)
  {
    ItemsWithVideo(ids, AlbumItem(env), ImageItem(env), VideoItem(env), ImageItem(env), it, i, j);
  }
}
