/** The time-window filter of `filterForCurrentDay`: keep the uploads
    published strictly after the stored watermark and strictly before the
    moment the filter started. */
module TimeWindow {
  import opened Wrappers
  import opened Seqs
  import opened Videos

  /** What reading the watermark file yields. */
  datatype StoredTimestamp =
    | Missing             // the read failed: no file yet
    | Parsed(ms: int)     // the file holds a timestamp moment can parse
    | Unparsable          // the file holds text moment turns into an invalid date

  /** `subtract(1, 'days')`, as a fixed number of milliseconds. */
  const OneDay: int := 86_400_000

  /** The lower bound of the window; `None` stands for moment's invalid date,
      which no time is after. Only an unparsable file gives no bound, only a
      missing one makes the bound depend on `now`, and a parsed one is the
      bound itself. */
  function LastTimestamp(stored: StoredTimestamp, now: int): (r: Option<int>)
    ensures r.None? <==> stored.Unparsable?
    ensures stored.Missing? ==> r == Some(now - OneDay)
    ensures stored.Parsed? ==> r == Some(stored.ms)
  {
    match stored
    case Missing => Some(now - OneDay)
    case Parsed(ms) => Some(ms)
    case Unparsable => None
  }

  /** `isAfter(lastTimestamp) && isBefore(now)`, both strict. */
  predicate InWindow(last: Option<int>, now: int, v: Video)
  {
    last.Some? && last.value < v.publishedAt < now
  }

  /** The filter callback. */
  function WindowTest(last: Option<int>, now: int): Video -> bool
  {
    (v: Video) => InWindow(last, now, v)
  }

  /** The uploads inside the window, in their original order; `now` is read
      once by the caller and shared by every comparison. */
  function FilterForCurrentDay(uploads: seq<Video>, stored: StoredTimestamp, now: int): (r: seq<Video>)
    ensures forall v :: v in r <==> v in uploads && InWindow(LastTimestamp(stored, now), now, v)
    ensures forall v :: multiset(r)[v] ==
                        if InWindow(LastTimestamp(stored, now), now, v) then multiset(uploads)[v] else 0
    ensures Subsequence(r, uploads)
  {
    var last := LastTimestamp(stored, now);
    var inWindow := WindowTest(last, now);
    assert forall v :: v in Filter(inWindow, uploads) <==> v in uploads && inWindow(v) by {
      forall v ensures v in Filter(inWindow, uploads) <==> v in uploads && inWindow(v) {
        FilterMembership(inWindow, uploads, v);
      }
    }
    forall v ensures multiset(Filter(inWindow, uploads))[v] ==
                     if inWindow(v) then multiset(uploads)[v] else 0
    {
      FilterCount(inWindow, uploads, v);
    }
    FilterSubsequence(inWindow, uploads);
    Filter(inWindow, uploads)
  }

  /** Both bounds are strict: a video published exactly at the watermark or
      exactly at `now` is dropped, one a millisecond inside either is kept. */
  lemma WindowBoundsAreStrict(uploads: seq<Video>, w: int, now: int, v: Video)
    requires v in uploads
    ensures v.publishedAt == w ==> v !in FilterForCurrentDay(uploads, Parsed(w), now)
    ensures v.publishedAt == now ==> v !in FilterForCurrentDay(uploads, Parsed(w), now)
    ensures w < now - 1 && (v.publishedAt == w + 1 || v.publishedAt == now - 1) ==>
      v in FilterForCurrentDay(uploads, Parsed(w), now)
  {
  }

  /** With no watermark file the window is the last day before `now`. */
  lemma MissingWatermarkMeansLastDay(uploads: seq<Video>, now: int, v: Video)
    ensures v in FilterForCurrentDay(uploads, Missing, now) <==>
      v in uploads && now - 86_400_000 < v.publishedAt < now
  {
  }

  /** A watermark file moment cannot parse empties the window. */
  lemma UnparsableWatermarkDropsAll(uploads: seq<Video>, now: int)
    ensures FilterForCurrentDay(uploads, Unparsable, now) == []
  {
    FilterNoneEmpty(WindowTest(None, now), uploads);
  }

  /** When every upload lies inside the window, the filter keeps them all. */
  lemma WindowKeepsAll(uploads: seq<Video>, stored: StoredTimestamp, now: int)
    requires forall i :: 0 <= i < |uploads| ==> InWindow(LastTimestamp(stored, now), now, uploads[i])
    ensures FilterForCurrentDay(uploads, stored, now) == uploads
  {
    FilterAllPass(WindowTest(LastTimestamp(stored, now), now), uploads);
  }
}
