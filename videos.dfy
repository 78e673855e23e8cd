/** A video record as the pipeline sees it once its metadata is attached:
    the playlist item's snippet (channel title, title), its publish time, and
    the duration and tags copied from the video resource. */
module Videos {
  import opened Wrappers

  datatype Video = Video(
    channelTitle: string,
    title: string,
    /** `snippet.tags`, which the platform omits for untagged videos. */
    tags: Option<seq<string>>,
    /** Duration in minutes, as `moment.duration(...).asMinutes()` yields it. */
    duration: real,
    /** `contentDetails.videoPublishedAt`, in milliseconds since the epoch. */
    publishedAt: int)

  /** The failure a rule can raise: `video.tags.includes` on an absent tag
      list is a TypeError, which escapes the filter and ends the run. */
  datatype Error = TagsUndefined(channel: string)
}
