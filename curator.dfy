/** One run of the curator after the uploads of every subscribed channel
    have been fetched and their metadata attached: window filter, channel
    rules, chronological sort, routing and the watermark to persist. */
module Curator {
  import opened Wrappers
  import opened Seqs
  import opened Videos
  import opened TimeWindow
  import opened ChannelRules
  import opened Chronology
  import opened Router
  import opened Text

  /** What a run does: the videos inserted into "Subscriptions" and into
      "Car", each in insertion order, and the timestamp written to the
      watermark file, if any. */
  datatype RunOutcome = RunOutcome(
    subscriptions: seq<Video>,
    car: seq<Video>,
    watermark: Option<int>)

  /** The survivors of both filters, sorted; a rule error aborts the run
      before anything is inserted or written. */
  function Survivors(uploads: seq<Video>, stored: StoredTimestamp, now: int): (r: Result<seq<Video>, Error>)
    ensures var window := FilterForCurrentDay(uploads, stored, now);
      && (r.Ok? <==> forall v :: v in window ==> KeepVideo(v).Ok?)
      && (r.Err? ==> exists v :: v in window && KeepVideo(v) == Err(r.error))
      && (r.Ok? ==> SortedBy(PublishSecond, r.value))
      && (r.Ok? ==> multiset(r.value) == multiset(Filter(Kept, window)))
      && (r.Ok? ==> forall k :: InSecond(k, r.value) == InSecond(k, Filter(Kept, window)))
  {
    var window := FilterForCurrentDay(uploads, stored, now);
    match ApplyChannelFilters(window)
    case Err(e) => Err(e)
    case Ok(kept) =>
      SortByPublishTimeCorrect(kept);
      Ok(SortByPublishTime(kept))
  }

  /** The run: a rule error from any windowed upload aborts it; otherwise
      every survivor is inserted into exactly one playlist. */
  function CurateRun(uploads: seq<Video>, stored: StoredTimestamp, now: int): (r: Result<RunOutcome, Error>)
    ensures var window := FilterForCurrentDay(uploads, stored, now);
      && (r.Ok? <==> forall v :: v in window ==> KeepVideo(v).Ok?)
      && (r.Err? ==> exists v :: v in window && KeepVideo(v) == Err(r.error))
      && (r.Ok? ==> |r.value.subscriptions| + |r.value.car| == |Filter(Kept, window)|)
      && (r.Ok? ==> forall v :: v in r.value.subscriptions <==> v in Filter(Kept, window) && v.duration <= 30.0)
      && (r.Ok? ==> forall v :: v in r.value.car <==> v in Filter(Kept, window) && v.duration > 30.0)
  {
    match Survivors(uploads, stored, now)
    case Err(e) => Err(e)
    case Ok(sorted) =>
      RoutingPartitions(sorted);
      assert forall v :: v in sorted <==> v in multiset(sorted);
      assert |SubVideos(sorted)| + |CarVideos(sorted)| == |sorted| by {
        assert |multiset(sorted)| == |sorted|;
      }
      Ok(RunOutcome(SubVideos(sorted), CarVideos(sorted), NewWatermark(sorted)))
  }

  /** What the sort and the two filters guarantee about the survivors. */
  lemma SurvivorFacts(uploads: seq<Video>, stored: StoredTimestamp, now: int)
    requires Survivors(uploads, stored, now).Ok?
    ensures var sorted := Survivors(uploads, stored, now).value;
      && SortedBy(PublishSecond, sorted)
      && multiset(sorted) == multiset(Filter(Kept, FilterForCurrentDay(uploads, stored, now)))
      && (forall k :: InSecond(k, sorted) == InSecond(k, Filter(Kept, FilterForCurrentDay(uploads, stored, now))))
      && forall v :: v in sorted ==>
           v in uploads && InWindow(LastTimestamp(stored, now), now, v) && Kept(v)
  {
    var window := FilterForCurrentDay(uploads, stored, now);
    var kept := ApplyChannelFilters(window).value;
    SortByPublishTimeCorrect(kept);
    forall v | v in SortByPublishTime(kept)
      ensures v in uploads && InWindow(LastTimestamp(stored, now), now, v) && Kept(v)
    {
      assert v in multiset(kept);
      ChannelFilterMembership(window, v);
    }
  }

  /** A routed video was uploaded, lies inside the window and is kept by its
      channel's rule; together the two playlists receive every survivor once,
      the short ones in "Subscriptions" and the long ones in "Car", each in
      chronological order with same-second videos in upload order; the
      watermark is written exactly when something was routed. */
  lemma RunRoutesSurvivors(uploads: seq<Video>, stored: StoredTimestamp, now: int)
    requires CurateRun(uploads, stored, now).Ok?
    ensures var o := CurateRun(uploads, stored, now).value;
      var last := LastTimestamp(stored, now);
      && (forall v :: v in o.subscriptions + o.car ==>
            v in uploads && InWindow(last, now, v) && Kept(v))
      && multiset(o.subscriptions) + multiset(o.car) ==
         multiset(Filter(Kept, FilterForCurrentDay(uploads, stored, now)))
      && SortedBy(PublishSecond, o.subscriptions) && SortedBy(PublishSecond, o.car)
      && (o.watermark.Some? <==> |o.subscriptions| + |o.car| > 0)
      && var kept := Filter(Kept, FilterForCurrentDay(uploads, stored, now));
         && (forall v :: v in o.subscriptions <==> v in kept && v.duration <= 30.0)
         && (forall v :: v in o.car <==> v in kept && v.duration > 30.0)
         && (forall k :: InSecond(k, o.subscriptions) == Filter(ForSubscriptions, InSecond(k, kept)))
         && (forall k :: InSecond(k, o.car) == Filter(ForCar, InSecond(k, kept)))
  {
    var sorted := Survivors(uploads, stored, now).value;
    SurvivorFacts(uploads, stored, now);
    RoutingPartitions(sorted);
    forall k ensures InSecond(k, SubVideos(sorted)) == Filter(ForSubscriptions, InSecond(k, sorted))
                  && InSecond(k, CarVideos(sorted)) == Filter(ForCar, InSecond(k, sorted))
    {
      RoutingBySecond(sorted, k);
    }
    assert |SubVideos(sorted)| + |CarVideos(sorted)| == |sorted| by {
      assert |multiset(sorted)| == |sorted|;
    }
  }

  /** The watermark only moves forward: the new value is later than the
      window's lower bound and earlier than `now`. */
  lemma WatermarkAdvances(uploads: seq<Video>, stored: StoredTimestamp, now: int)
    requires CurateRun(uploads, stored, now).Ok?
    requires CurateRun(uploads, stored, now).value.watermark.Some?
    ensures var w := CurateRun(uploads, stored, now).value.watermark.value;
      LastTimestamp(stored, now).Some? && LastTimestamp(stored, now).value < w < now
  {
    var sorted := Survivors(uploads, stored, now).value;
    SurvivorFacts(uploads, stored, now);
    assert sorted[|sorted| - 1] in sorted;
  }

  /** The watermark written is the publish time of the survivor that comes
      last, in upload order, among those of the latest publish second. */
  lemma WatermarkIsLastOfLatestSecond(uploads: seq<Video>, stored: StoredTimestamp, now: int)
    requires CurateRun(uploads, stored, now).Ok?
    requires CurateRun(uploads, stored, now).value.watermark.Some?
    ensures var w := CurateRun(uploads, stored, now).value.watermark.value;
      var kept := Filter(Kept, FilterForCurrentDay(uploads, stored, now));
      var latest := InSecond(Seconds(w), kept);
      && (forall v :: v in kept ==> PublishSecond(v) <= Seconds(w))
      && latest != []
      && w == latest[|latest| - 1].publishedAt
  {
    var sorted := Survivors(uploads, stored, now).value;
    var kept := Filter(Kept, FilterForCurrentDay(uploads, stored, now));
    SurvivorFacts(uploads, stored, now);
    WatermarkIsLastOfSecond(sorted);
    var w := NewWatermark(sorted).value;
    assert InSecond(Seconds(w), kept) == InSecond(Seconds(w), sorted);
    forall v | v in kept ensures PublishSecond(v) <= Seconds(w) {
      assert v in multiset(sorted);
    }
  }

  /** With whole-second publish times, the next run started from the
      watermark this run wrote finds none of this run's videos again. */
  lemma NextRunSkipsRouted(uploads: seq<Video>, stored: StoredTimestamp, now: int, later: int)
    requires CurateRun(uploads, stored, now).Ok?
    requires WholeSeconds(uploads)
    requires CurateRun(uploads, stored, now).value.watermark.Some?
    ensures var o := CurateRun(uploads, stored, now).value;
      FilterForCurrentDay(o.subscriptions + o.car, Parsed(o.watermark.value), later) == []
  {
    var sorted := Survivors(uploads, stored, now).value;
    SurvivorFacts(uploads, stored, now);
    assert WholeSeconds(sorted);
    RoutedBeforeWatermark(sorted, later);
  }

  lemma RoutedBeforeWatermark(sorted: seq<Video>, later: int)
    requires SortedBy(PublishSecond, sorted) && |sorted| > 0 && WholeSeconds(sorted)
    ensures FilterForCurrentDay(SubVideos(sorted) + CarVideos(sorted),
                                Parsed(NewWatermark(sorted).value), later) == []
  {
    RoutingPartitions(sorted);
    WatermarkIsLatest(sorted);
    var w := NewWatermark(sorted).value;
    var routed := SubVideos(sorted) + CarVideos(sorted);
    forall i | 0 <= i < |routed| ensures !WindowTest(Some(w), later)(routed[i]) {
      assert routed[i] in multiset(sorted);
    }
    FilterNoneEmpty(WindowTest(Some(w), later), routed);
  }

  /** A run over three uploads: one from a channel without a rule and two
      from NFL, all inside the last day. */
  function Weekly(now: int): Video
  {
    Video("A", "Weekly Update", Some([]), 10.0, now - 3_000_000)
  }

  function MicdUp(now: int): Video
  {
    Video("NFL", "Mic'd Up: Best Moments", Some([]), 8.0, now - 2_000_000)
  }

  function FullGame(now: int): Video
  {
    Video("NFL", "Full Game Highlights", None, 40.0, now - 1_000_000)
  }

  lemma ScenarioRules(now: int)
    ensures Kept(Weekly(now)) && Kept(MicdUp(now)) && Kept(FullGame(now))
  {
    MicdUpKept(now);
    FullGameKept(now);
  }

  lemma MicdUpKept(now: int)
    ensures Kept(MicdUp(now))
  {
    NflRule(MicdUp(now));
    assert MatchAt(MicdUp(now).title, "Mic'd Up", 0);
  }

  lemma FullGameKept(now: int)
    ensures Kept(FullGame(now))
  {
    var title := FullGame(now).title;
    assert !Occurs("Mic'd Up", title) by {
      MissingCharNoMatch(title, "Mic'd Up", 3);
    }
    assert Occurs("Highlights", title) by {
      assert MatchAt(title, "Highlights", 10);
    }
    assert !Occurs("Season", title) by {
      MissingCharNoMatch(title, "Season", 0);
    }
    NflRule(FullGame(now));
  }

  /** The unruled channel's video and NFL's "Mic'd Up" go to "Subscriptions";
      NFL's 40-minute "Highlights" video has no "Season" in its title, so the
      NFL rule keeps it too, and it goes to "Car" (its absent tag list is
      never read); the watermark is the latest of the three. */
  lemma NflScenario(now: int)
    ensures CurateRun([FullGame(now), MicdUp(now), Weekly(now)], Parsed(now - OneDay), now) ==
      Ok(RunOutcome([Weekly(now), MicdUp(now)], [FullGame(now)], Some(FullGame(now).publishedAt)))
  {
    var uploads := [FullGame(now), MicdUp(now), Weekly(now)];
    ScenarioWindow(now);
    ScenarioFilters(now);
    ScenarioSort(now);
    assert Survivors(uploads, Parsed(now - OneDay), now) == Ok([Weekly(now), MicdUp(now), FullGame(now)]);
    ScenarioRoute(now);
  }

  lemma ScenarioRoute(now: int)
    ensures SubVideos([Weekly(now), MicdUp(now), FullGame(now)]) == [Weekly(now), MicdUp(now)]
    ensures CarVideos([Weekly(now), MicdUp(now), FullGame(now)]) == [FullGame(now)]
    ensures NewWatermark([Weekly(now), MicdUp(now), FullGame(now)]) == Some(FullGame(now).publishedAt)
  {
    var a, b, c := Weekly(now), MicdUp(now), FullGame(now);
    ScenarioSplit(ForSubscriptions, a, b, c);
    ScenarioSplit(ForCar, a, b, c);
    assert Filter(ForSubscriptions, [c]) == [] && Filter(ForCar, [c]) == [c];
    assert Filter(ForSubscriptions, [b, c]) == [b] && Filter(ForCar, [b, c]) == [c];
  }

  /** Filtering three videos, one at a time. */
  lemma ScenarioSplit(p: Video -> bool, a: Video, b: Video, c: Video)
    ensures Filter(p, [a, b, c]) == (if p(a) then [a] else []) + Filter(p, [b, c])
    ensures Filter(p, [b, c]) == (if p(b) then [b] else []) + Filter(p, [c])
    ensures Filter(p, [c]) == if p(c) then [c] else []
  {
    assert [a, b, c] == [a] + [b, c];
    FilterCons(p, a, [b, c]);
    assert [b, c] == [b] + [c];
    FilterCons(p, b, [c]);
    assert [c] == [c] + [];
    FilterCons(p, c, []);
  }

  lemma ScenarioWindow(now: int)
    ensures var uploads := [FullGame(now), MicdUp(now), Weekly(now)];
      FilterForCurrentDay(uploads, Parsed(now - OneDay), now) == uploads
  {
    WindowKeepsAll([FullGame(now), MicdUp(now), Weekly(now)], Parsed(now - OneDay), now);
  }

  lemma ScenarioFilters(now: int)
    ensures var uploads := [FullGame(now), MicdUp(now), Weekly(now)];
      ApplyChannelFilters(uploads) == Ok(uploads)
  {
    ScenarioRules(now);
    ChannelFilterKeepsAll([FullGame(now), MicdUp(now), Weekly(now)]);
  }

  lemma ScenarioSort(now: int)
    ensures SortByPublishTime([FullGame(now), MicdUp(now), Weekly(now)]) == [Weekly(now), MicdUp(now), FullGame(now)]
  {
    assert SortByPublishTime([Weekly(now)]) == [Weekly(now)];
    assert SortByPublishTime([MicdUp(now), Weekly(now)]) == Insert(MicdUp(now), [Weekly(now)]) == [Weekly(now), MicdUp(now)];
    assert [FullGame(now), MicdUp(now), Weekly(now)][1..] == [MicdUp(now), Weekly(now)];
    assert PublishSecond(Weekly(now)) < PublishSecond(MicdUp(now)) < PublishSecond(FullGame(now));
    assert Insert(FullGame(now), [MicdUp(now)]) == [MicdUp(now), FullGame(now)] by {
      assert [MicdUp(now)][1..] == [];
    }
    assert Insert(FullGame(now), [Weekly(now), MicdUp(now)]) == [Weekly(now), MicdUp(now), FullGame(now)] by {
      assert [Weekly(now), MicdUp(now)][1..] == [MicdUp(now)];
    }
  }

  /** Two uploads of an unruled channel in the same second, the later one
      first in upload order: the watermark is the earlier time, so the next
      run's window still holds the later upload. Publish times that are not
      whole seconds can make a video be inserted twice. */
  function LateClip(q: int): Video
  {
    Video("A", "Late Clip", Some([]), 10.0, 1000 * q + 900)
  }

  function EarlyClip(q: int): Video
  {
    Video("A", "Early Clip", Some([]), 10.0, 1000 * q + 100)
  }

  lemma SubSecondWatermarkRescans(q: int, later: int)
    requires later > 1000 * q + 900
    ensures var uploads := [LateClip(q), EarlyClip(q)];
      && CurateRun(uploads, Missing, 1000 * q + 1000) == Ok(RunOutcome(uploads, [], Some(1000 * q + 100)))
      && FilterForCurrentDay(uploads, Parsed(1000 * q + 100), later) == [LateClip(q)]
  {
    var a, b := LateClip(q), EarlyClip(q);
    var uploads := [a, b];
    var now := 1000 * q + 1000;
    WindowKeepsAll(uploads, Missing, now);
    ChannelFilterKeepsAll(uploads);
    assert PublishSecond(a) == q && PublishSecond(b) == q;
    assert SortByPublishTime([b]) == [b];
    assert uploads[1..] == [b];
    assert SortByPublishTime(uploads) == Insert(a, [b]) == uploads;
    assert Survivors(uploads, Missing, now) == Ok(uploads);
    FilterCons(ForSubscriptions, a, [b]);
    FilterCons(ForSubscriptions, b, []);
    FilterCons(ForCar, a, [b]);
    FilterCons(ForCar, b, []);
    assert SubVideos(uploads) == uploads && CarVideos(uploads) == [];
    var test := WindowTest(Some(1000 * q + 100), later);
    FilterCons(test, a, [b]);
    FilterCons(test, b, []);
  }
}
