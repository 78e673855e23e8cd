# YouTube curator: keep/drop and routing decisions

The curator is a once-per-invocation script. It lists the user's
subscriptions and collects each channel's recent uploads. It keeps the uploads
published since the last run, attaches duration and tags, and applies a
hard-coded table of per-channel title/tag rules. It then sorts the survivors
chronologically, inserts the short ones into the "Subscriptions" playlist and
the long ones into "Car", and saves the publish time of the last survivor as
the next run's watermark.

This project models the decisions the script makes about that list of video
records, as Dafny functions over `seq<Video>`, and proves what they guarantee:

- `videos.dfy`: the video record. Publish time is in integer milliseconds,
  duration in minutes as a `real`, and tags are optional.
- `text.dfy`: `toLowerCase`, `includes`, `startsWith` and `/20\d\d/.test`.
  Each scanning definition is proved equal to a declarative one.
- `channel_rules.dfy`: the switch in `applyChannelFilters`. Each channel's rule
  is stated as a lemma, and the error raised when a rule reads an absent tag
  list is modelled as a `Result`.
- `time_window.dfy`: the strict `(watermark, now)` window of
  `filterForCurrentDay`.
- `chronology.dfy`: the stable sort by whole-second publish time.
- `router.dfy`: the 30-minute split between the two playlists and the choice of
  watermark.
- `curator.dfy`: one run end to end: filters, sort, routing, watermark.
- `subscriptions.dfy`: the subscription pagination loop, as a method over the
  sequence of pages the platform returns.
- `seqs.dfy` and `wrappers.dfy`: `Array.prototype.filter` with its lemmas, plus
  `Option` and `Result`.

The model follows the code as written:

- The rule table is exactly the `switch` in `applyChannelFilters`.
  - Arlo drops three title terms.
  - Linus Tech Tips drops "wan show".
  - Maximilian Dood keeps "super smash bros" (any case) or "Nintendo" (exact
    case).
  - NFL also keeps "Highlights" titles that do not contain "Season".
  - The channels Werster, GeoWizard, Ludwig and others have no case in the
    switch, so they always pass.
- Matching is case-sensitive for NFL, First We Feast and the "Nintendo" test.
- An absent tag list is not read as empty. On theneedledrop (once the title
  contains "review") and on fantano (when the title lacks "memes"), reading it
  throws and aborts the run.
- The code has no visibility filter: private, unlisted and live videos reach
  the channel rules.
- Only a failed read of the watermark file falls back to "one day before now".
  A file whose text moment cannot parse gives an invalid date, and no upload is
  after an invalid date, so that run keeps nothing (`UnparsableWatermarkDropsAll`).
- If the account has no subscriptions, the loop never ends, because
  `allSubs.length == 0` keeps the guard true (`EmptyPagesNeverFinish`).
- The sort compares whole seconds, and ties keep their upload order. So the
  watermark is the time of the survivor that was uploaded last among those of
  the latest second (`WatermarkIsLastOfLatestSecond`). It is guaranteed to be
  the latest millisecond when publish times are whole seconds
  (`WatermarkIsLatest`). Otherwise it need not be: two same-second uploads
  listed later-time first leave the later one inside the next run's window,
  so it would be inserted again (`SubSecondWatermarkRescans`).

## Model

| member | source | states |
|---|---|---|
| `ChannelRules.KeepVideo` | curator.js:258-327 | only theneedledrop and fantano can fail, only on an absent tag list, with the tag error naming the channel; a channel without a case is always kept, without error |
| `ChannelRules.ApplyChannelFilters` | curator.js:255-330 | succeeds iff no video's rule throws; on success the result is exactly the videos whose rule keeps them, in input order; on failure the error is that of the first video whose rule throws |
| `ChannelRules.NeedleDropRule` | curator.js:262-264 | theneedledrop: kept iff the lower-cased title contains "review" and the tags include "rap" or "hip hop"; an error iff the title contains "review" and the tags are absent |
| `ChannelRules.FantanoRule` | curator.js:267-269 | fantano: kept iff ("memes" in the lower-cased title, or tags include "rap"/"hip hop") and the title has no "20" followed by two digits; an error iff no "memes" and the tags are absent |
| `ChannelRules.NflRule` | curator.js:272-274 | NFL: kept iff the title contains "Mic'd Up", or contains "Highlights" and not "Season", case-sensitively |
| `ChannelRules.ArloRule` | curator.js:277-280 | Arlo: kept iff the lower-cased title contains none of "news roundup", "predict", "wishlist" |
| `ChannelRules.LinusRule` | curator.js:283-284 | Linus Tech Tips: kept iff the lower-cased title does not contain "wan show" |
| `ChannelRules.FirstWeFeastRule` | curator.js:287-288 | First We Feast: kept iff the title contains "Hot Ones", case-sensitively |
| `ChannelRules.MaximilianDoodRule` | curator.js:291-293 | Maximilian Dood: kept iff the lower-cased title contains "super smash bros" or the title contains "Nintendo" |
| `ChannelRules.SimplyRule` | curator.js:296-298 | Simply: kept iff the lower-cased title contains "sm64" or "mario 64" |
| `ChannelRules.StylesRule` | curator.js:301-302 | StylesX2: kept iff the lower-cased title contains "ultimate salt is real" |
| `ChannelRules.DotaCinemaRule` | curator.js:305-306 | DotaCinema: kept iff the lower-cased title contains "fails of the week" |
| `ChannelRules.SteelersRule` | curator.js:310-311 | Pittsburgh Steelers: kept iff the lower-cased title contains "conference" |
| `ChannelRules.DotaShamanRule` | curator.js:315-317 | Dota Shaman: kept iff the lower-cased title starts with "arteezy" or "mason" |
| `ChannelRules.PakmanRule` | curator.js:320-321 | David Pakman Show: kept iff the duration is under 11 minutes |
| `ChannelRules.RuleIgnoresPublishTime` | curator.js:258-327 | the decision depends only on channel title, title, tags and duration |
| `ChannelRules.ChannelFilterMembership` | curator.js:258-327 | after a successful filter, a video is in the result iff it was in the input and its rule keeps it |
| `ChannelRules.UnlistedChannelsPass` | curator.js:324-325 | every video of an unruled channel survives a successful filter |
| `ChannelRules.ChannelFilterKeepsAll` | curator.js:258-327 | a list whose every video is kept passes unchanged |
| `ChannelRules.ChannelFilterIdempotent` | curator.js:258-327 | filtering the filter's output again returns the same result |
| `Text.IncludesIffOccurs` | curator.js:263 | the scanning `includes` holds iff the pattern occurs at some position |
| `Text.TestYearIffHasYearToken` | curator.js:269 | the scanning `/20\d\d/.test` holds iff "2", "0" and two digits occur consecutively somewhere |
| `Text.LowerIsLower` | curator.js:263 | lower-casing keeps the length, shifts each ASCII upper-case letter by 32 code points to its lower-case form, leaves every other character unchanged, leaves no ASCII upper-case letter, and is idempotent |
| `TimeWindow.LastTimestamp` | curator.js:159-165 | the lower bound is invalid exactly when the file text is unparsable; a missing file gives one day before `now`; a parsed file gives its own time |
| `TimeWindow.FilterForCurrentDay` | curator.js:157-173 | a video is kept iff it was uploaded and lies strictly between the lower bound and `now`; every copy of a video in the window is kept and every other copy dropped; the kept videos keep their order in the uploads |
| `TimeWindow.WindowBoundsAreStrict` | curator.js:168-170 | a video published exactly at the watermark or exactly at `now` is dropped; one a millisecond inside either bound is kept |
| `TimeWindow.MissingWatermarkMeansLastDay` | curator.js:160-165 | with no watermark file the window is (now minus one day, now) |
| `TimeWindow.UnparsableWatermarkDropsAll` | curator.js:161-169 | an unparsable watermark keeps nothing |
| `TimeWindow.WindowKeepsAll` | curator.js:168-170 | uploads all inside the window are all kept, in order |
| `Chronology.CompareIsConsistent` | curator.js:143-145 | the comparator is antisymmetric and transitive, and zero exactly on same-second pairs |
| `Chronology.SortByPublishTime` | curator.js:143-145 | the sort keeps the number of videos (its full specification is `SortByPublishTimeCorrect`) |
| `Chronology.SortByPublishTimeCorrect` | curator.js:143-145 | the sort is a permutation, non-decreasing in publish second, and keeps the input order within each second |
| `Router.SubVideos` | curator.js:195-197 | the Subscriptions list holds every copy of each video of at most 30 minutes, none of any longer one, in the order of the sorted list |
| `Router.CarVideos` | curator.js:199-201 | the Car list holds every copy of each video over 30 minutes, none of any shorter one, in the order of the sorted list |
| `Router.RoutingPartitions` | curator.js:194-202 | the two playlists together are a permutation of the list; a video goes to Subscriptions iff duration ≤ 30 and to Car iff > 30; both keep the chronological order |
| `Router.RoutingBySecond` | curator.js:194-201 | within each publish second, each playlist receives that second's videos of its own duration class, in their order in the sorted list |
| `Router.NewWatermark` | curator.js:150-152 | a watermark is written iff the list is non-empty, and it is the publish time of one of its videos |
| `Router.WatermarkIsLatestSecond` | curator.js:142-152 | on the sorted list the watermark is in the latest publish second |
| `Router.WatermarkIsLastOfSecond` | curator.js:143-152 | on a sorted list the watermark is in the latest second and is the time of the last video of that second in list order |
| `Router.WatermarkIsLatest` | curator.js:142-152 | with whole-second publish times the watermark is the latest publish time |
| `Curator.Survivors` | curator.js:138-145 | the survivors exist iff no windowed upload's rule throws, and an error is that of some windowed upload; they are sorted by publish second, a permutation of the rule-kept windowed uploads, and within each second in their upload order |
| `Curator.CurateRun` | curator.js:138-154 | the run succeeds iff no windowed upload's rule throws, and an error is that of some windowed upload; on success the two playlists together receive as many videos as the rules kept, Subscriptions exactly the kept videos of at most 30 minutes and Car exactly those over 30 |
| `Curator.SurvivorFacts` | curator.js:138-145 | the sorted survivors are sorted, a permutation of the rule-kept windowed uploads, in upload order within each second, and each one was uploaded, is in the window and is kept by its rule |
| `Curator.RunRoutesSurvivors` | curator.js:138-154 | every routed video was uploaded, is in the window and is kept; the playlists together receive each survivor once; Subscriptions holds exactly the kept videos of at most 30 minutes and Car those over 30; each list is chronological, and within a second holds its duration class of that second's kept videos in upload order; the watermark is written iff something was routed |
| `Curator.WatermarkAdvances` | curator.js:150-170 | a written watermark is later than the run's lower bound and earlier than `now`, so it never moves back |
| `Curator.WatermarkIsLastOfLatestSecond` | curator.js:138-152 | a written watermark lies in the latest second of the rule-kept windowed uploads, and is the time of the one uploaded last among those of that second |
| `Curator.SubSecondWatermarkRescans` | curator.js:143-170 | two same-second uploads at .900 s and .100 s, listed in that order, are both routed to Subscriptions; the watermark is the .100 s time, and the next run's window still holds the .900 s upload |
| `Curator.NextRunSkipsRouted` | curator.js:150-170 | with whole-second publish times, the next run's window excludes every video this run routed |
| `Curator.NflScenario` | curator.js:138-154 | an unruled video and an NFL "Mic'd Up" video go to Subscriptions; a 40-minute NFL "Full Game Highlights" video is kept (its tags are never read) and goes to Car; the watermark is the latest of the three |
| `Subscriptions.Paginate` | curator.js:95-106 | from any point, the loop only appends to what it has collected, finishes only with something collected, and never reads past the given responses |
| `Subscriptions.CollectSubscriptions` | curator.js:92-106 | the loop's outcome is that of the pagination function over the given responses |
| `Subscriptions.CollectedSubscriptions` | curator.js:95-106 | when the loop ends after k pages, it collected exactly those pages' items, something was collected, page k had no truthy token, and every earlier page left the guard true |
| `Subscriptions.EmptyPagesNeverFinish` | curator.js:95 | while every page is empty the loop never ends, whatever the tokens |
| `Subscriptions.GuardFailureFinishes` | curator.js:95-106 | if the guard first fails after call k, the loop finishes after k calls with the items of the first k pages |
| `Subscriptions.PaginationFinishesIff` | curator.js:95-106 | the loop finishes after k calls with `subs` iff k is the first call after which the guard fails and `subs` is the items of the first k pages |
| `Subscriptions.SinglePage` | curator.js:95-106 | a first page with items and no token ends the loop after one call with those items |

## Left out

- OAuth, the token file and the standard-input prompt (curator.js:13-88): I/O and a foreign library.
- The platform API calls (channels, playlists, playlistItems, videos, insert). The uploads are an input sequence, and the subscription pages are an input sequence in call order.
- The per-channel upload resolution and the `Promise.all` fan-out (curator.js:108-136): concurrency over foreign calls. The model starts from their concatenation.
- `getVideoDurationsAndTags` (curator.js:237-253): the per-video fetch that writes `duration` and `tags` onto each record in place. The model takes records that already carry both.
- ISO-8601 duration and timestamp parsing by moment: durations arrive as exact `real` minutes, not floats, and publish times as integer milliseconds.
- `subtract(1, 'days')` is a fixed 86,400,000 ms, so the 23- or 25-hour calendar days around daylight-saving changes are not modelled.
- `toLowerCase` maps only ASCII A-Z. The Unicode case mappings of other characters are not modelled.
- The playlist lookup by title (curator.js:177-192), including the unhandled case where a playlist is missing.
- The sequential inserts chained through `reduce` (curator.js:204-234). The model gives each playlist's insertion order. It does not model how the two independent chains interleave, or their network failures.
- Reading and writing the watermark file (curator.js:152, 161): the model gives the value that would be written, and the read's outcome is an input.
- Publish times that are absent or unparsable on a video are not modelled.
