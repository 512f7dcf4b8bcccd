/** The gallery page: tag buttons, the tag filter, and the carousel state
    (`currentSlide`, `direction`) driven by the arrows, the thumbnails, the
    keyboard and the autoplay timer. */
module Gallery {
  import opened Common
  import opened Entities

  function EventTag(p: Photo): Option<string> {
    p.eventTag
  }

  /** The tag filter buttons of the gallery. */
  function Tags(photos: seq<Photo>): seq<string> {
    Choices(Keys(photos, EventTag))
  }

  /** The tag buttons: `'all'` first, then each non-empty tag once, in the
      order in which the photos first carry them. */
  lemma TagsSpec(photos: seq<Photo>)
    ensures |Tags(photos)| >= 1 && Tags(photos)[0] == "all"
    ensures forall t :: t in Tags(photos)[1..] <==>
              t != "" && exists i :: 0 <= i < |photos| && photos[i].eventTag == Some(t)
    ensures NoDuplicates(Tags(photos)[1..])
    ensures forall a, b :: 1 <= a < b < |Tags(photos)| ==>
              exists k :: 0 <= k < |photos| && photos[k].eventTag == Some(Tags(photos)[a]) &&
                forall k' :: 0 <= k' <= k ==> photos[k'].eventTag != Some(Tags(photos)[b])
  {
    ChoicesFollowItems(photos, EventTag);
  }

  /** `filteredPhotos`. */
  function FilteredPhotos(photos: seq<Photo>, selectedTag: string): seq<Photo> {
    SelectAllOrEqual(photos, EventTag, selectedTag)
  }

  /** With `'all'` the carousel shows every photo; otherwise exactly those
      tagged with the selection, in their original order. */
  lemma FilteredPhotosSpec(photos: seq<Photo>, selectedTag: string)
    ensures selectedTag == "all" ==> FilteredPhotos(photos, selectedTag) == photos
    ensures selectedTag != "all" ==>
              FilteredPhotos(photos, selectedTag) == Filter(photos, KeyIs(EventTag, selectedTag))
    ensures selectedTag != "all" ==> forall p :: p in FilteredPhotos(photos, selectedTag) <==>
              p in photos && p.eventTag == Some(selectedTag)
  {
  }

  /** The slide after `current` in a list of `len` photos. */
  function NextIndex(current: int, len: int): int {
    if current >= len - 1 then 0 else current + 1
  }

  /** The slide before `current` in a list of `len` photos. */
  function PrevIndex(current: int, len: int): int {
    if current <= 0 then len - 1 else current - 1
  }

  /** Both arrows stay within a non-empty list and wrap around at its ends. */
  lemma StepsStayInRange(current: int, len: int)
    requires 0 <= current < len
    ensures 0 <= NextIndex(current, len) < len && 0 <= PrevIndex(current, len) < len
    ensures current == len - 1 <==> NextIndex(current, len) == 0
    ensures current == 0 <==> PrevIndex(current, len) == len - 1
  {
  }

  /** The two arrows undo each other on a non-empty list. */
  lemma StepsAreInverse(current: int, len: int)
    requires 0 <= current < len
    ensures PrevIndex(NextIndex(current, len), len) == current
    ensures NextIndex(PrevIndex(current, len), len) == current
  {
  }

  /** Up to `len` presses of the right arrow walk the list cyclically, so
      `len` presses come back to the start. */
  lemma {:induction false} NextCycles(current: int, len: int, k: nat)
    requires 0 <= current < len && k <= len
    ensures Steps(current, len, k) == if current + k < len then current + k else current + k - len
  {
    if k > 0 {
      NextCycles(current, len, k - 1);
    }
  }

  /** Any number of presses of the right arrow lands on `(current + k) mod len`. */
  lemma {:induction false} StepsModulo(current: int, len: int, k: nat)
    requires 0 <= current < len
    ensures Steps(current, len, k) == (current + k) % len
  {
    if k > 0 {
      StepsModulo(current, len, k - 1);
      NextIsSuccessorModulo(current + k - 1, len);
    }
  }

  /** One press adds one modulo `len`. */
  lemma NextIsSuccessorModulo(n: nat, len: int)
    requires len > 0
    ensures NextIndex(n % len, len) == (n + 1) % len
  {
    var q, r := n / len, n % len;
    if r == len - 1 {
      ModulusIsUnique(n + 1, len, q + 1, 0);
    } else {
      ModulusIsUnique(n + 1, len, q, r + 1);
    }
  }

  /** The remainder is the only `r` in `[0, len)` with `n == q * len + r`. */
  lemma ModulusIsUnique(n: int, len: int, q: int, r: int)
    requires len > 0 && 0 <= r < len && n == q * len + r
    ensures n % len == r
  {
    var q', r' := n / len, n % len;
    if q' < q {
      assert (q - q') * len == q * len - q' * len;
      MultipleAtLeast(q - q', len);
    } else if q < q' {
      assert (q' - q) * len == q' * len - q * len;
      MultipleAtLeast(q' - q, len);
    }
  }

  lemma {:induction false} MultipleAtLeast(m: nat, len: int)
    requires m >= 1 && len > 0
    ensures m * len >= len
  {
    if m > 1 {
      MultipleAtLeast(m - 1, len);
      assert m * len == (m - 1) * len + len;
    }
  }

  /** `a` presses followed by `b` presses are `a + b` presses. */
  lemma {:induction false} StepsCompose(current: int, len: int, a: nat, b: nat)
    ensures Steps(current, len, a + b) == Steps(Steps(current, len, a), len, b)
  {
    if b > 0 {
      StepsCompose(current, len, a, b - 1);
    }
  }

  /** `len` more presses change nothing. */
  lemma StepsPeriodic(current: int, len: int, k: nat)
    requires 0 <= current < len
    ensures Steps(current, len, k + len) == Steps(current, len, k)
  {
    NextCycles(current, len, len);
    StepsCompose(current, len, len, k);
  }

  /** The slide after `k` presses of the right arrow. */
  function Steps(current: int, len: int, k: nat): int {
    if k == 0 then current else NextIndex(Steps(current, len, k - 1), len)
  }

  /** On an empty list the arrows produce `-1` and `0`: the "previous" arrow
      leaves an index that points at no photo. */
  lemma EmptyListSteps()
    ensures PrevIndex(0, 0) == -1 && NextIndex(0, 0) == 0 && NextIndex(-1, 0) == 0
  {
  }

  /** The `current / total` counter under the carousel. */
  function Counter(current: int, len: int): (int, int) {
    (current + 1, len)
  }

  lemma CounterInRange(current: int, len: int)
    requires 0 <= current < len
    ensures 1 <= Counter(current, len).0 <= Counter(current, len).1
  {
  }

  /** The state of the gallery page. */
  class GalleryPage {
    var photos: seq<Photo>
    var loading: bool
    var selectedTag: string
    var currentSlide: int
    var direction: int
    /** The photo shown full size, if any. */
    var selectedPhoto: Option<Photo>

    constructor ()
      ensures photos == [] && loading && selectedTag == "all"
      ensures currentSlide == 0 && direction == 0 && selectedPhoto == None
    {
      photos, loading, selectedTag := [], true, "all";
      currentSlide, direction := 0, 0;
      selectedPhoto := None;
    }

    function Filtered(): seq<Photo>
      reads this
    {
      FilteredPhotos(photos, selectedTag)
    }

    /** The slide index names a shown photo whenever there is one. */
    ghost predicate SlideInRange()
      reads this
    {
      |Filtered()| == 0 || 0 <= currentSlide < |Filtered()|
    }

    /** `loadPhotos`: keeps the fetched list, or the empty one if the fetch threw. */
    method LoadPhotos(fetched: Fetch<seq<Photo>>)
      modifies this`photos, this`loading
      ensures !loading
      ensures photos == if fetched.Fetched? then fetched.items else old(photos)
    {
      if fetched.Fetched? {
        photos := fetched.items;
      }
      loading := false;
    }

    /** `nextSlide`, called by the right arrow, the key and the autoplay timer. */
    method NextSlide()
      modifies this`currentSlide, this`direction
      ensures direction == 1
      ensures currentSlide == NextIndex(old(currentSlide), |Filtered()|)
      ensures old(SlideInRange()) ==> SlideInRange()
    {
      direction := 1;
      currentSlide := NextIndex(currentSlide, |Filtered()|);
    }

    /** `prevSlide`, called by the left arrow and the key. */
    method PrevSlide()
      modifies this`currentSlide, this`direction
      ensures direction == -1
      ensures currentSlide == PrevIndex(old(currentSlide), |Filtered()|)
      ensures old(SlideInRange()) ==> SlideInRange()
    {
      direction := -1;
      currentSlide := PrevIndex(currentSlide, |Filtered()|);
    }

    /** `goToSlide`, called by a thumbnail with its own index. */
    method GoToSlide(index: int)
      modifies this`currentSlide, this`direction
      ensures currentSlide == index
      ensures direction == if index > old(currentSlide) then 1 else -1
      ensures 0 <= index < |Filtered()| ==> SlideInRange()
    {
      direction := if index > currentSlide then 1 else -1;
      currentSlide := index;
    }

    /** A click on the current slide opens it full size. The slide, and so
        its click handler, is only rendered while the index names a photo. */
    method OpenCurrent()
      requires 0 <= currentSlide < |Filtered()|
      modifies this`selectedPhoto
      ensures selectedPhoto == Some(Filtered()[currentSlide])
    {
      selectedPhoto := Some(Filtered()[currentSlide]);
    }

    /** The backdrop or the close button of the full-size view. */
    method ClosePhoto()
      modifies this`selectedPhoto
      ensures selectedPhoto == None
    {
      selectedPhoto := None;
    }

    /** A tag button: the `[selectedTag]` effect resets the carousel to its
        first slide whenever the selection actually changes. */
    method SelectTag(tag: string)
      modifies this`selectedTag, this`currentSlide
      ensures selectedTag == tag
      ensures currentSlide == if tag != old(selectedTag) then 0 else old(currentSlide)
      ensures old(SlideInRange()) ==> SlideInRange()
    {
      if tag != selectedTag {
        selectedTag := tag;
        currentSlide := 0;
      }
    }
  }
}
