/**
 * The messaging-platform values the handlers read and produce. Only the outcome of
 * an SDK call is modelled: the fields of an incoming message that the handlers look
 * at, and the inline-query answer they submit.
 */
module Telegram {
  import opened Wrappers

  /** A video attached to a message; only its opaque, platform-issued `file_id` is used. */
  datatype Video = Video(fileId: string)

  /** An incoming message: the numeric id of its sender (absent for anonymous senders) and its video, if any. */
  datatype Message = Message(sender: Option<int>, video: Option<Video>)

  /** The inline-query result records the bots build. */
  datatype InlineResult =
      /** `InlineQueryResultVideo` pointing at a URL, with a text message to insert instead of the video. */
    | VideoByUrl(id: string, title: string, description: string, videoUrl: string,
                 mimeType: string, thumbnailUrl: string, messageText: string)
      /** `InlineQueryResultCachedVideo`: re-send an already uploaded video by its file id. */
    | CachedVideo(id: string, title: string, description: string, videoFileId: string)
      /** `InlineQueryResultVideo` given a `video_file_id` and a text message. */
    | VideoByFileId(id: string, title: string, description: string, videoFileId: string, messageText: string)

  /** The "switch to private chat" button shown above the results. */
  datatype SwitchPm = SwitchPm(text: string, parameter: string)

  /**
   * The arguments of `InlineQuery.answer`: the results, the cache lifetime in seconds
   * (`None` leaves the platform default), whether the answer is personal to the
   * requester, and an optional switch-to-private-chat button.
   */
  datatype InlineAnswer = InlineAnswer(results: seq<InlineResult>, cacheTime: Option<nat>,
                                       isPersonal: bool, switchPm: Option<SwitchPm>)
}
