/** The photo gallery of an accommodation: the main photo, up to four
    thumbnails with a "+n" badge on the last one when there are more photos,
    and a full-screen viewer whose previous/next buttons wrap around. */
module ImageGallery {
  import opened Common

  datatype GalleryImage = GalleryImage(id: int, imageUrl: string, isMain: bool, sortOrder: int)

  /** `prev === 0 ? n - 1 : prev - 1`: from a photo, the photo before it,
      the first wrapping round to the last. */
  function PreviousIndex(prev: int, n: int): (r: int)
    ensures 0 <= prev < n ==> 0 <= r < n && (r == n - 1 <==> prev == 0)
  {
    if prev == 0 then n - 1 else prev - 1
  }

  /** `prev === n - 1 ? 0 : prev + 1`: from a photo, the photo after it,
      the last wrapping round to the first. */
  function NextIndex(prev: int, n: int): (r: int)
    ensures 0 <= prev < n ==> 0 <= r < n && (r == 0 <==> prev == n - 1)
  {
    if prev == n - 1 then 0 else prev + 1
  }

  /** Both buttons keep the viewer on a photo, and each undoes the other. */
  lemma Stepping(i: int, n: int)
    requires 0 <= i < n
    ensures 0 <= PreviousIndex(i, n) < n && 0 <= NextIndex(i, n) < n
    ensures NextIndex(PreviousIndex(i, n), n) == i
    ensures PreviousIndex(NextIndex(i, n), n) == i
  {
  }

  /** The photo reached by pressing next k times. */
  function NextTimes(i: int, n: int, k: nat): int
  {
    if k == 0 then i else NextIndex(NextTimes(i, n, k - 1), n)
  }

  /** Before the last photo, next steps up by one. */
  lemma {:induction false} NextTimesClimb(i: int, n: int, k: nat)
    requires 0 <= i && i + k < n
    ensures NextTimes(i, n, k) == i + k
  {
    if k > 0 {
      NextTimesClimb(i, n, k - 1);
    }
  }

  lemma {:induction false} NextTimesAdd(i: int, n: int, a: nat, b: nat)
    ensures NextTimes(i, n, a + b) == NextTimes(NextTimes(i, n, a), n, b)
  {
    if b > 0 {
      NextTimesAdd(i, n, a, b - 1);
    }
  }

  /** Pressing next once per photo comes back to the photo started from:
      the viewer goes round every photo and wraps from the last to the
      first. */
  lemma FullCircle(i: int, n: int)
    requires 0 <= i < n
    ensures NextTimes(i, n, n - i) == 0
    ensures NextTimes(i, n, n) == i
  {
    NextTimesClimb(i, n, n - 1 - i);
    assert NextTimes(i, n, n - i) == NextIndex(NextTimes(i, n, n - 1 - i), n);
    NextTimesClimb(0, n, i);
    NextTimesAdd(i, n, n - i, i);
  }

  /** What the grid shows: a placeholder for no photos, otherwise the main
      photo, `images.slice(1, 5)` as thumbnails and the "+n" badge. */
  datatype GridView =
    | Placeholder
    | Grid(main: GalleryImage, thumbnails: seq<GalleryImage>, badge: Option<int>)

  function View(images: seq<GalleryImage>): (v: GridView)
    ensures v.Placeholder? <==> images == []
    ensures v.Grid? ==> v.main == images[0]
    ensures v.Grid? ==> |v.thumbnails| == (if |images| < 5 then |images| - 1 else 4)
    ensures v.Grid? ==> forall t | 0 <= t < |v.thumbnails| :: v.thumbnails[t] == images[t + 1]
    ensures v.Grid? ==> (v.badge.Some? <==> |images| > 5)
    ensures v.Grid? && v.badge.Some? ==> v.badge.value == |images| - 5 && |v.thumbnails| == 4
  {
    if images == [] then Placeholder
    else
      var thumbnails := images[1..if |images| < 5 then |images| else 5];
      Grid(images[0], thumbnails, if |images| > 5 then Some(|images| - 5) else None)
  }

  /** The badge counts exactly the photos the grid does not show. */
  lemma BadgeCountsHidden(images: seq<GalleryImage>)
    requires images != []
    ensures var v := View(images);
      1 + |v.thumbnails| + (if v.badge.Some? then v.badge.value else 0) == |images|
  {
  }

  class Gallery {
    const images: seq<GalleryImage>
    var selectedIndex: int
    var showModal: bool

    ghost predicate Valid()
      reads this
    {
      images != [] ==> 0 <= selectedIndex < |images|
    }

    constructor(images: seq<GalleryImage>)
      ensures Valid() && this.images == images && selectedIndex == 0 && !showModal
    {
      this.images := images;
      selectedIndex := 0;
      showModal := false;
    }

    /** The main photo opens the viewer on photo 0. */
    method OpenMain()
      requires images != []
      modifies this
      ensures Valid() && selectedIndex == 0 && showModal
    {
      selectedIndex := 0;
      showModal := true;
    }

    /** Thumbnail t opens the viewer on photo t + 1. */
    method OpenThumbnail(t: int)
      requires images != [] && 0 <= t < |View(images).thumbnails|
      modifies this
      ensures Valid() && showModal
      ensures images[selectedIndex] == View(images).thumbnails[t]
    {
      selectedIndex := t + 1;
      showModal := true;
    }

    /** `handlePrevious`. */
    method HandlePrevious()
      requires Valid() && images != []
      modifies this
      ensures Valid() && showModal == old(showModal)
      ensures selectedIndex == PreviousIndex(old(selectedIndex), |images|)
    {
      Stepping(selectedIndex, |images|);
      selectedIndex := if selectedIndex == 0 then |images| - 1 else selectedIndex - 1;
    }

    /** `handleNext`. */
    method HandleNext()
      requires Valid() && images != []
      modifies this
      ensures Valid() && showModal == old(showModal)
      ensures selectedIndex == NextIndex(old(selectedIndex), |images|)
    {
      Stepping(selectedIndex, |images|);
      selectedIndex := if selectedIndex == |images| - 1 then 0 else selectedIndex + 1;
    }

    /** The close button. */
    method Close()
      modifies this
      ensures !showModal && selectedIndex == old(selectedIndex)
    {
      showModal := false;
    }
  }
}
