/** The album thumbnail both metadata scripts compose in `processAlbum`: up to four 50x50
    pinkynails (the sub-album icon, then images, then video posters or frames) on a 2x2 grid
    inside a 125x125 tile. */
module Pinkynails {
  import opened Seqs
  import opened Grouping
  import opened PyItems

  const ThumbnailSize := 125
  const PinkynailSize := 50
  const PinkynailSpacing := 7
  /** `if len(pinkyNails) > 3: break` stops the selection at this many. */
  const MaxPinkynails := 4

  /** Where a pinkynail's picture comes from. */
  datatype Pinkynail = SubalbumIcon | FromImage(image: string) | FromFrame(video: string)

  function ImageNail(image: string): Pinkynail
  {
    FromImage(image)
  }

  /** A video record's pinkynail: its poster, else (with ffmpeg) a frame of its first video,
      else none. */
  function VideoNail(canReadVideos: bool): VideoRecord -> seq<Pinkynail>
  {
    (r: VideoRecord) => if r.poster.Some? then [FromImage(r.poster.value)]
                        else if canReadVideos && r.videos != [] then [FromFrame(r.videos[0])]
                        else []
  }

  /** The icon when there are sub-albums. */
  function IconPart(hasAlbums: bool): seq<Pinkynail>
  {
    if hasAlbums then [SubalbumIcon] else []
  }

  /** Every pinkynail the three loops would add without the limit, in order. */
  function Candidates(hasAlbums: bool, images: seq<string>, videos: seq<VideoRecord>, canReadVideos: bool)
    : seq<Pinkynail>
  {
    IconPart(hasAlbums) + Map(ImageNail, images) + Collect(videos, VideoNail(canReadVideos))
  }

  /** Once the first part fills the limit, what follows does not matter. */
  lemma {:induction false} TakeFull<T>(x: seq<T>, y: seq<T>, n: nat)
    requires |x| >= n
    ensures Take(x + y, n) == Take(x, n)
  {
    assert (x + y)[..n] == x[..n];
  }

  lemma {:induction false} CollectAppend<E, T>(a: seq<E>, b: seq<E>, emit: E -> seq<T>)
    ensures Collect(a + b, emit) == Collect(a, emit) + Collect(b, emit)
  {
    if b == [] {
      assert a + b == a;
    } else {
      var init, last := b[..|b| - 1], b[|b| - 1];
      assert a + b == (a + init) + [last];
      assert b == init + [last];
      CollectAppend(a, init, emit);
      CollectSnoc(a + init, last, emit);
      CollectSnoc(init, last, emit);
    }
  }

  lemma {:induction false} MapSnoc(s: seq<string>, i: nat)
    requires i < |s|
    ensures Map(ImageNail, s[..i + 1]) == Map(ImageNail, s[..i]) + [ImageNail(s[i])]
  {
    assert Map(ImageNail, s[..i + 1])[..i] == Map(ImageNail, s[..i]);
  }

  /** The image loop of processAlbum, appending after `nails` until four are there. */
  method AddImageNails(ghost head: seq<Pinkynail>, nails: seq<Pinkynail>, images: seq<string>)
    returns (nails': seq<Pinkynail>)
    requires nails == Take(head, MaxPinkynails)
    ensures nails' == Take(head + Map(ImageNail, images), MaxPinkynails)
  {
    nails' := nails;
    var i := 0;
    while i < |images|
      invariant i <= |images|
      invariant nails' == Take(head + Map(ImageNail, images[..i]), MaxPinkynails)
    {
      if |nails'| > 3 {
        break;
      }
      MapSnoc(images, i);
      assert head + Map(ImageNail, images[..i + 1]) == head + Map(ImageNail, images[..i]) + [ImageNail(images[i])];
      nails' := nails' + [FromImage(images[i])];
      i := i + 1;
    }
    if i < |images| {
      assert images == images[..i] + images[i..];
      assert Map(ImageNail, images) == Map(ImageNail, images[..i]) + Map(ImageNail, images[i..]);
      TakeFull(head + Map(ImageNail, images[..i]), Map(ImageNail, images[i..]), MaxPinkynails);
    } else {
      assert images[..i] == images;
    }
  }

  /** The video loop of processAlbum, appending after `nails` until four are there. */
  method AddVideoNails(ghost head: seq<Pinkynail>, nails: seq<Pinkynail>, videos: seq<VideoRecord>, canReadVideos: bool)
    returns (nails': seq<Pinkynail>)
    requires nails == Take(head, MaxPinkynails)
    requires forall i :: 0 <= i < |videos| ==> videos[i].videos != []
    ensures nails' == Take(head + Collect(videos, VideoNail(canReadVideos)), MaxPinkynails)
  {
    nails' := nails;
    var j := 0;
    while j < |videos|
      invariant j <= |videos|
      invariant nails' == Take(head + Collect(videos[..j], VideoNail(canReadVideos)), MaxPinkynails)
    {
      if |nails'| > 3 {
        break;
      }
      var video := videos[j];
      assert videos[..j + 1] == videos[..j] + [video];
      CollectSnoc(videos[..j], video, VideoNail(canReadVideos));
      AppendAssoc(head, Collect(videos[..j], VideoNail(canReadVideos)), VideoNail(canReadVideos)(video));
      if video.poster.Some? {
        nails' := nails' + [FromImage(video.poster.value)];
      } else if canReadVideos {
        nails' := nails' + [FromFrame(video.videos[0])];
      }
      j := j + 1;
    }
    if j < |videos| {
      assert videos == videos[..j] + videos[j..];
      CollectAppend(videos[..j], videos[j..], VideoNail(canReadVideos));
      AppendAssoc(head, Collect(videos[..j], VideoNail(canReadVideos)), Collect(videos[j..], VideoNail(canReadVideos)));
      TakeFull(head + Collect(videos[..j], VideoNail(canReadVideos)), Collect(videos[j..], VideoNail(canReadVideos)),
               MaxPinkynails);
    } else {
      assert videos[..j] == videos;
    }
  }

  /** The pinkynails processAlbum collects from the images and video records in the order
      given: the first four candidates. */
  method SelectPinkynails(hasAlbums: bool, images: seq<string>, videos: seq<VideoRecord>, canReadVideos: bool)
    returns (nails: seq<Pinkynail>)
    requires forall i :: 0 <= i < |videos| ==> videos[i].videos != []
    ensures nails == Take(Candidates(hasAlbums, images, videos, canReadVideos), MaxPinkynails)
  {
    nails := [];
    if hasAlbums {
      nails := nails + [SubalbumIcon];
    }
    nails := AddImageNails(IconPart(hasAlbums), nails, images);
    nails := AddVideoNails(IconPart(hasAlbums) + Map(ImageNail, images), nails, videos, canReadVideos);
  }

  /** At most four are chosen, and all candidates when there are fewer. */
  lemma {:induction false} PinkynailCount(hasAlbums: bool, images: seq<string>, videos: seq<VideoRecord>, canReadVideos: bool)
    ensures var nails := Take(Candidates(hasAlbums, images, videos, canReadVideos), MaxPinkynails);
      && |nails| <= MaxPinkynails
      && (|nails| < MaxPinkynails ==> nails == Candidates(hasAlbums, images, videos, canReadVideos))
  {
  }

  /** The sub-album icon is chosen exactly when there are sub-albums, and then first. */
  lemma {:induction false} PinkynailIcon(hasAlbums: bool, images: seq<string>, videos: seq<VideoRecord>, canReadVideos: bool)
    ensures var nails := Take(Candidates(hasAlbums, images, videos, canReadVideos), MaxPinkynails);
      && (hasAlbums <==> SubalbumIcon in nails)
      && (hasAlbums ==> nails[0] == SubalbumIcon)
  {
    var all := Candidates(hasAlbums, images, videos, canReadVideos);
    var nails := Take(all, MaxPinkynails);
    var rest := Map(ImageNail, images) + Collect(videos, VideoNail(canReadVideos));
    assert all == IconPart(hasAlbums) + rest;
    assert SubalbumIcon !in Map(ImageNail, images);
    assert SubalbumIcon !in Collect(videos, VideoNail(canReadVideos)) by {
      NoIconFromVideos(videos, canReadVideos);
    }
    if hasAlbums {
      assert all[0] == SubalbumIcon;
      assert nails[0] == all[0];
    } else {
      assert all == rest;
      assert SubalbumIcon !in all;
      assert forall k :: 0 <= k < |nails| ==> nails[k] == all[k];
    }
  }

  /** After the icon, if any, come the images in the given order, as many as fit. */
  lemma {:induction false} PinkynailImages(hasAlbums: bool, images: seq<string>, videos: seq<VideoRecord>, canReadVideos: bool)
    ensures var nails := Take(Candidates(hasAlbums, images, videos, canReadVideos), MaxPinkynails);
      var skip := if hasAlbums then 1 else 0;
      forall i :: skip <= i < |nails| && i - skip < |images| ==> nails[i] == FromImage(images[i - skip])
  {
    var all := Candidates(hasAlbums, images, videos, canReadVideos);
    var skip := if hasAlbums then 1 else 0;
    var rest := Map(ImageNail, images) + Collect(videos, VideoNail(canReadVideos));
    assert all == IconPart(hasAlbums) + rest;
    assert forall i :: skip <= i < |all| && i - skip < |images| ==> all[i] == rest[i - skip];
  }

  lemma {:induction false} NoIconFromVideos(videos: seq<VideoRecord>, canReadVideos: bool)
    ensures SubalbumIcon !in Collect(videos, VideoNail(canReadVideos))
  {
    if videos != [] {
      NoIconFromVideos(videos[..|videos| - 1], canReadVideos);
    }
  }

  /** Pinkynail i's left edge: `PINKYNAIL_SPACING + (i % 2) * (PINKYNAIL_SIZE + PINKYNAIL_SPACING)`. */
  function NailX(i: nat): int
  {
    PinkynailSpacing + (i % 2) * (PinkynailSize + PinkynailSpacing)
  }

  /** Pinkynail i's top edge: `PINKYNAIL_SPACING + int(i / 2) * (PINKYNAIL_SIZE + PINKYNAIL_SPACING)`. */
  function NailY(i: nat): int
  {
    PinkynailSpacing + (i / 2) * (PinkynailSize + PinkynailSpacing)
  }

  /** A pinkynail and the corner it is painted at. */
  datatype Placement = Placement(x: int, y: int, nail: Pinkynail)

  /** processAlbum's `enumerate(pinkyNails)` loop, as the corners it paints each one at. */
  method PlacePinkynails(nails: seq<Pinkynail>) returns (placed: seq<Placement>)
    ensures |placed| == |nails|
    ensures forall i :: 0 <= i < |nails| ==> placed[i] == Placement(NailX(i), NailY(i), nails[i])
  {
    placed := [];
    var i := 0;
    while i < |nails|
      invariant i <= |nails|
      invariant |placed| == i
      invariant forall k :: 0 <= k < i ==> placed[k] == Placement(NailX(k), NailY(k), nails[k])
    {
      var x := PinkynailSpacing + (i % 2) * (PinkynailSize + PinkynailSpacing);
      var y := PinkynailSpacing + (i / 2) * (PinkynailSize + PinkynailSpacing);
      placed := placed + [Placement(x, y, nails[i])];
      i := i + 1;
    }
  }

  /** Two squares of side PinkynailSize at these corners share no pixel. */
  predicate Apart(x1: int, y1: int, x2: int, y2: int)
  {
    x1 + PinkynailSize <= x2 || x2 + PinkynailSize <= x1 || y1 + PinkynailSize <= y2 || y2 + PinkynailSize <= y1
  }

  /** Each of the first four pinkynails lies inside the thumbnail, and no two overlap. */
  lemma {:induction false} PinkynailsFit(i: nat, j: nat)
    requires i < MaxPinkynails && j < MaxPinkynails
    ensures 0 <= NailX(i) && NailX(i) + PinkynailSize <= ThumbnailSize
    ensures 0 <= NailY(i) && NailY(i) + PinkynailSize <= ThumbnailSize
    ensures i != j ==> Apart(NailX(i), NailY(i), NailX(j), NailY(j))
  {
  }
}
