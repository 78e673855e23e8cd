/** The per-channel editorial rules of `applyChannelFilters`: a switch on the
    video's channel title, one keep/drop predicate per listed channel, and
    "keep" for every other channel. */
module ChannelRules {
  import opened Wrappers
  import opened Seqs
  import opened Text
  import opened Videos

  /** The channel titles that have a `case` in the switch. */
  const RuledChannels: set<string> := {
    "theneedledrop", "fantano", "NFL", "Arlo", "Linus Tech Tips",
    "First We Feast", "Maximilian Dood", "Simply", "StylesX2", "DotaCinema",
    "Pittsburgh Steelers", "Dota Shaman", "David Pakman Show"
  }

  /** `video.tags.includes('rap') || video.tags.includes('hip hop')`: the first
      `includes` throws when the tag list is absent. */
  function RapOrHipHop(v: Video): Result<bool, Error>
  {
    match v.tags
    case None => Err(TagsUndefined(v.channelTitle))
    case Some(ts) => Ok("rap" in ts || "hip hop" in ts)
  }

  /** The switch body for one video, evaluated left to right with the
      short-circuiting of `&&` and `||`, so that an absent tag list fails
      only where the tags are actually read. Only the two tag-reading rules
      can fail, only on an absent tag list, and a channel with no `case` is
      always kept. */
  function KeepVideo(v: Video): (r: Result<bool, Error>)
    ensures r.Err? ==>
      v.tags.None? && (v.channelTitle == "theneedledrop" || v.channelTitle == "fantano")
    ensures r.Err? ==> r.error == TagsUndefined(v.channelTitle)
    ensures v.channelTitle !in RuledChannels ==> r == Ok(true)
  {
    var title := v.title;
    var low := Lower(title);
    var c := v.channelTitle;
    if c == "theneedledrop" then
      if !Includes(low, "review") then Ok(false) else RapOrHipHop(v)
    else if c == "fantano" then
      if Includes(low, "memes") then Ok(!TestYear(title))
      else
        match RapOrHipHop(v)
        case Err(e) => Err(e)
        case Ok(tagged) => Ok(tagged && !TestYear(title))
    else if c == "NFL" then
      Ok(Includes(title, "Mic'd Up") || (Includes(title, "Highlights") && !Includes(title, "Season")))
    else if c == "Arlo" then
      Ok(!Includes(low, "news roundup") && !Includes(low, "predict") && !Includes(low, "wishlist"))
    else if c == "Linus Tech Tips" then
      Ok(!Includes(low, "wan show"))
    else if c == "First We Feast" then
      Ok(Includes(title, "Hot Ones"))
    else if c == "Maximilian Dood" then
      Ok(Includes(low, "super smash bros") || Includes(title, "Nintendo"))
    else if c == "Simply" then
      Ok(Includes(low, "sm64") || Includes(low, "mario 64"))
    else if c == "StylesX2" then
      Ok(Includes(low, "ultimate salt is real"))
    else if c == "DotaCinema" then
      Ok(Includes(low, "fails of the week"))
    else if c == "Pittsburgh Steelers" then
      Ok(Includes(low, "conference"))
    else if c == "Dota Shaman" then
      Ok(StartsWith(low, "arteezy") || StartsWith(low, "mason"))
    else if c == "David Pakman Show" then
      Ok(v.duration < 11.0)
    else
      Ok(true)
  }

  /** The filter callback returned true for `v`. */
  predicate Kept(v: Video)
  {
    KeepVideo(v) == Ok(true)
  }

  /** `videoList.filter(...)` over the switch: the first video whose rule
      throws aborts the whole filter with that error; otherwise the result is
      the videos whose rule says keep, in their original order. */
  function ApplyChannelFilters(vs: seq<Video>): (r: Result<seq<Video>, Error>)
    ensures r.Ok? <==> forall i :: 0 <= i < |vs| ==> KeepVideo(vs[i]).Ok?
    ensures r.Ok? ==> r.value == Filter(Kept, vs)
    ensures r.Err? ==>
      exists i :: 0 <= i < |vs| && KeepVideo(vs[i]) == Err(r.error) &&
        forall j :: 0 <= j < i ==> KeepVideo(vs[j]).Ok?
  {
    if vs == [] then Ok([])
    else
      match KeepVideo(vs[0])
      case Err(e) => Err(e)
      case Ok(keep) =>
        match ApplyChannelFilters(vs[1..])
        case Err(e) =>
          assert forall i :: 1 <= i < |vs| ==> vs[1..][i - 1] == vs[i];
          Err(e)
        case Ok(rest) =>
          assert forall i :: 1 <= i < |vs| ==> vs[1..][i - 1] == vs[i];
          Ok(if keep then [vs[0]] + rest else rest)
  }

  /** theneedledrop: keep a review whose tags include "rap" or "hip hop"; a
      review with no tag list is an error. */
  lemma NeedleDropRule(v: Video)
    requires v.channelTitle == "theneedledrop"
    ensures KeepVideo(v).Err? <==> Occurs("review", Lower(v.title)) && v.tags.None?
    ensures Kept(v) <==>
      Occurs("review", Lower(v.title)) && v.tags.Some? &&
      ("rap" in v.tags.value || "hip hop" in v.tags.value)
  {
    IncludesIffOccurs(Lower(v.title), "review");
  }

  /** fantano: keep a "memes" video or a rap/hip hop-tagged one, unless the
      title holds a year token; a title without "memes" and no tag list is an
      error. */
  lemma FantanoRule(v: Video)
    requires v.channelTitle == "fantano"
    ensures KeepVideo(v).Err? <==> !Occurs("memes", Lower(v.title)) && v.tags.None?
    ensures Kept(v) <==>
      (Occurs("memes", Lower(v.title)) ||
       (v.tags.Some? && ("rap" in v.tags.value || "hip hop" in v.tags.value))) &&
      !HasYearToken(v.title)
  {
    IncludesIffOccurs(Lower(v.title), "memes");
    TestYearIffHasYearToken(v.title);
  }

  /** NFL, case-sensitive: keep "Mic'd Up", or "Highlights" without "Season". */
  lemma NflRule(v: Video)
    requires v.channelTitle == "NFL"
    ensures KeepVideo(v) ==
      Ok(Occurs("Mic'd Up", v.title) || (Occurs("Highlights", v.title) && !Occurs("Season", v.title)))
  {
    IncludesIffOccurs(v.title, "Mic'd Up");
    IncludesIffOccurs(v.title, "Highlights");
    IncludesIffOccurs(v.title, "Season");
  }

  /** Arlo: drop news roundups, predictions and wishlists, in any case. */
  lemma ArloRule(v: Video)
    requires v.channelTitle == "Arlo"
    ensures KeepVideo(v) ==
      Ok(!Occurs("news roundup", Lower(v.title)) && !Occurs("predict", Lower(v.title)) &&
         !Occurs("wishlist", Lower(v.title)))
  {
    IncludesIffOccurs(Lower(v.title), "news roundup");
    IncludesIffOccurs(Lower(v.title), "predict");
    IncludesIffOccurs(Lower(v.title), "wishlist");
  }

  /** Linus Tech Tips: drop the WAN show, in any case. */
  lemma LinusRule(v: Video)
    requires v.channelTitle == "Linus Tech Tips"
    ensures KeepVideo(v) == Ok(!Occurs("wan show", Lower(v.title)))
  {
    IncludesIffOccurs(Lower(v.title), "wan show");
  }

  /** First We Feast, case-sensitive: keep only "Hot Ones". */
  lemma FirstWeFeastRule(v: Video)
    requires v.channelTitle == "First We Feast"
    ensures KeepVideo(v) == Ok(Occurs("Hot Ones", v.title))
  {
    IncludesIffOccurs(v.title, "Hot Ones");
  }

  /** Maximilian Dood: keep "super smash bros" in any case, or "Nintendo"
      exactly as capitalised. */
  lemma MaximilianDoodRule(v: Video)
    requires v.channelTitle == "Maximilian Dood"
    ensures KeepVideo(v) ==
      Ok(Occurs("super smash bros", Lower(v.title)) || Occurs("Nintendo", v.title))
  {
    IncludesIffOccurs(Lower(v.title), "super smash bros");
    IncludesIffOccurs(v.title, "Nintendo");
  }

  /** Simply: keep "sm64" or "mario 64", in any case. */
  lemma SimplyRule(v: Video)
    requires v.channelTitle == "Simply"
    ensures KeepVideo(v) ==
      Ok(Occurs("sm64", Lower(v.title)) || Occurs("mario 64", Lower(v.title)))
  {
    IncludesIffOccurs(Lower(v.title), "sm64");
    IncludesIffOccurs(Lower(v.title), "mario 64");
  }

  /** StylesX2: keep "ultimate salt is real", in any case. */
  lemma StylesRule(v: Video)
    requires v.channelTitle == "StylesX2"
    ensures KeepVideo(v) == Ok(Occurs("ultimate salt is real", Lower(v.title)))
  {
    IncludesIffOccurs(Lower(v.title), "ultimate salt is real");
  }

  /** DotaCinema: keep "fails of the week", in any case. */
  lemma DotaCinemaRule(v: Video)
    requires v.channelTitle == "DotaCinema"
    ensures KeepVideo(v) == Ok(Occurs("fails of the week", Lower(v.title)))
  {
    IncludesIffOccurs(Lower(v.title), "fails of the week");
  }

  /** Pittsburgh Steelers: keep "conference", in any case. */
  lemma SteelersRule(v: Video)
    requires v.channelTitle == "Pittsburgh Steelers"
    ensures KeepVideo(v) == Ok(Occurs("conference", Lower(v.title)))
  {
    IncludesIffOccurs(Lower(v.title), "conference");
  }

  /** Dota Shaman: keep titles that begin with "arteezy" or "mason", in any
      case. */
  lemma DotaShamanRule(v: Video)
    requires v.channelTitle == "Dota Shaman"
    ensures KeepVideo(v) ==
      Ok(MatchAt(Lower(v.title), "arteezy", 0) || MatchAt(Lower(v.title), "mason", 0))
  {
  }

  /** David Pakman Show: keep videos shorter than 11 minutes. */
  lemma PakmanRule(v: Video)
    requires v.channelTitle == "David Pakman Show"
    ensures KeepVideo(v) == Ok(v.duration < 11.0)
  {
  }

  /** The decision reads only the channel title, title, tags and duration. */
  lemma RuleIgnoresPublishTime(v: Video, w: Video)
    requires v.channelTitle == w.channelTitle && v.title == w.title
    requires v.tags == w.tags && v.duration == w.duration
    ensures KeepVideo(v) == KeepVideo(w)
  {
  }

  /** When the filter succeeds, a video is in its result exactly when it was
      in the input and its rule keeps it. */
  lemma ChannelFilterMembership(vs: seq<Video>, v: Video)
    requires ApplyChannelFilters(vs).Ok?
    ensures v in ApplyChannelFilters(vs).value <==> v in vs && Kept(v)
  {
    FilterMembership(Kept, vs, v);
  }

  /** A video from a channel without a rule always survives a successful
      filter. */
  lemma UnlistedChannelsPass(vs: seq<Video>, v: Video)
    requires ApplyChannelFilters(vs).Ok?
    requires v in vs && v.channelTitle !in RuledChannels
    ensures v in ApplyChannelFilters(vs).value
  {
    FilterMembership(Kept, vs, v);
  }

  /** A list whose every video its rule keeps passes the filter unchanged. */
  lemma ChannelFilterKeepsAll(vs: seq<Video>)
    requires forall i :: 0 <= i < |vs| ==> Kept(vs[i])
    ensures ApplyChannelFilters(vs) == Ok(vs)
  {
    FilterAllPass(Kept, vs);
  }

  /** Applying the channel filter to its own output changes nothing. */
  lemma ChannelFilterIdempotent(vs: seq<Video>)
    requires ApplyChannelFilters(vs).Ok?
    ensures ApplyChannelFilters(ApplyChannelFilters(vs).value) == ApplyChannelFilters(vs)
  {
    var kept := ApplyChannelFilters(vs).value;
    assert forall i :: 0 <= i < |kept| ==> KeepVideo(kept[i]).Ok?;
    FilterIdempotent(Kept, vs);
  }
}
