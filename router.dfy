/** Routing of the sorted survivors to the two destination playlists, and
    the choice of the watermark to persist. */
module Router {
  import opened Wrappers
  import opened Seqs
  import opened Videos
  import opened Chronology

  /** Videos of at most this many minutes go to "Subscriptions", longer ones
      to "Car". */
  const Threshold: real := 30.0

  predicate ForSubscriptions(v: Video)
  {
    v.duration <= Threshold
  }

  predicate ForCar(v: Video)
  {
    v.duration > Threshold
  }

  /** The "Subscriptions" insertions: every copy of each short video, in
      the order of `vs`, and nothing else. */
  function SubVideos(vs: seq<Video>): (r: seq<Video>)
    ensures Subsequence(r, vs)
    ensures forall v :: multiset(r)[v] == if v.duration <= 30.0 then multiset(vs)[v] else 0
  {
    FilterSubsequence(ForSubscriptions, vs);
    forall v ensures multiset(Filter(ForSubscriptions, vs))[v] ==
                     if v.duration <= 30.0 then multiset(vs)[v] else 0
    {
      FilterCount(ForSubscriptions, vs, v);
    }
    Filter(ForSubscriptions, vs)
  }

  /** The "Car" insertions: every copy of each long video, in the order of
      `vs`, and nothing else. */
  function CarVideos(vs: seq<Video>): (r: seq<Video>)
    ensures Subsequence(r, vs)
    ensures forall v :: multiset(r)[v] == if v.duration > 30.0 then multiset(vs)[v] else 0
  {
    FilterSubsequence(ForCar, vs);
    forall v ensures multiset(Filter(ForCar, vs))[v] ==
                     if v.duration > 30.0 then multiset(vs)[v] else 0
    {
      FilterCount(ForCar, vs, v);
    }
    Filter(ForCar, vs)
  }

  /** Every video lands in exactly one playlist: the two lists together are a
      permutation of the input, membership follows the threshold, and each
      list keeps the input's chronological order. */
  lemma RoutingPartitions(vs: seq<Video>)
    ensures multiset(SubVideos(vs)) + multiset(CarVideos(vs)) == multiset(vs)
    ensures forall v :: v in SubVideos(vs) <==> v in vs && v.duration <= 30.0
    ensures forall v :: v in CarVideos(vs) <==> v in vs && v.duration > 30.0
    ensures SortedBy(PublishSecond, vs) ==>
      SortedBy(PublishSecond, SubVideos(vs)) && SortedBy(PublishSecond, CarVideos(vs))
  {
    var sub, car := ForSubscriptions, ForCar;
    FilterSplit(sub, car, vs);
    forall v ensures v in SubVideos(vs) <==> v in vs && v.duration <= 30.0 {
      FilterMembership(sub, vs, v);
    }
    forall v ensures v in CarVideos(vs) <==> v in vs && v.duration > 30.0 {
      FilterMembership(car, vs, v);
    }
    if SortedBy(PublishSecond, vs) {
      FilterKeepsOrder(sub, PublishSecond, vs);
      FilterKeepsOrder(car, PublishSecond, vs);
    }
  }

  /** Within each publish second, each playlist receives that second's
      videos of its own duration class in their order in `vs`. */
  lemma RoutingBySecond(vs: seq<Video>, k: int)
    ensures InSecond(k, SubVideos(vs)) == Filter(ForSubscriptions, InSecond(k, vs))
    ensures InSecond(k, CarVideos(vs)) == Filter(ForCar, InSecond(k, vs))
  {
    FilterCommute(SecondIs(k), ForSubscriptions, vs);
    FilterCommute(SecondIs(k), ForCar, vs);
  }

  /** The timestamp written after the run: that of the last video of the
      sorted list, and nothing when the list is empty. */
  function NewWatermark(sorted: seq<Video>): (r: Option<int>)
    ensures r.Some? <==> |sorted| > 0
    ensures r.Some? ==> exists v :: v in sorted && v.publishedAt == r.value
  {
    if |sorted| > 0 then Some(sorted[|sorted| - 1].publishedAt) else None
  }

  /** On a sorted list the watermark falls in the latest publish second. */
  lemma WatermarkIsLatestSecond(sorted: seq<Video>)
    requires SortedBy(PublishSecond, sorted) && |sorted| > 0
    ensures forall v :: v in sorted ==> PublishSecond(v) <= Seconds(NewWatermark(sorted).value)
  {
    var last := |sorted| - 1;
    forall v | v in sorted ensures PublishSecond(v) <= Seconds(NewWatermark(sorted).value) {
      var i :| 0 <= i < |sorted| && sorted[i] == v;
      if i < last {
        assert PublishSecond(sorted[i]) <= PublishSecond(sorted[last]);
      }
    }
  }

  /** On a sorted list the watermark is the time of the last video of the
      latest publish second, in the list's order. */
  lemma WatermarkIsLastOfSecond(sorted: seq<Video>)
    requires SortedBy(PublishSecond, sorted) && |sorted| > 0
    ensures var w := NewWatermark(sorted).value;
      var latest := InSecond(Seconds(w), sorted);
      && (forall v :: v in sorted ==> PublishSecond(v) <= Seconds(w))
      && latest != []
      && w == latest[|latest| - 1].publishedAt
  {
    WatermarkIsLatestSecond(sorted);
    FilterLast(SecondIs(PublishSecond(sorted[|sorted| - 1])), sorted);
  }

  /** Publish times that are whole seconds. */
  predicate WholeSeconds(vs: seq<Video>)
  {
    forall v :: v in vs ==> v.publishedAt % 1000 == 0
  }

  /** With whole-second publish times the watermark is the latest publish
      time of the list. */
  lemma WatermarkIsLatest(sorted: seq<Video>)
    requires SortedBy(PublishSecond, sorted) && |sorted| > 0 && WholeSeconds(sorted)
    ensures forall v :: v in sorted ==> v.publishedAt <= NewWatermark(sorted).value
  {
    WatermarkIsLatestSecond(sorted);
    var w := NewWatermark(sorted).value;
    assert w % 1000 == 0;
    forall v | v in sorted ensures v.publishedAt <= w {
      var t := v.publishedAt;
      assert t == 1000 * (t / 1000);
      assert w == 1000 * (w / 1000);
      assert t / 1000 <= w / 1000;
    }
  }
}
