/**
 * `handlers/inline_handlers.py`: the inline-query answer of the unguarded bot.
 *
 * The source imports `stored_video` by name when the module is loaded, which binds a
 * copy of the value the slot held then; later `store_video` and `clear_video` rebind
 * the global in `handlers.video_handlers` and never this copy. `ImportedBinding`
 * models that as written. `InlineQuery` is the corrected handler: it reads the live
 * slot at call time, as `clear_video` and `video_status` do, and builds its video
 * result as a cached video by file id (`CorrectedAnswerFor`), the result type
 * `bot.py` uses for the same purpose; the source's `InlineQueryResultVideo` takes a
 * URL and a MIME type, not a `video_file_id`.
 */
module InlineHandlers {
  import opened Wrappers
  import opened Strings
  import opened Telegram
  import opened VideoHandlers

  const NoVideoTitle := "No video stored"

  /** The answer for a slot value: one result, id `"1"`, platform-default caching, not personal. */
  function InlineAnswerFor(stored: Option<string>, botUsername: string): (answer: InlineAnswer)
    ensures |answer.results| == 1 && answer.results[0].id == "1"
    ensures answer.cacheTime.None? && !answer.isPersonal && answer.switchPm.None?
  {
    if !Truthy(stored) then
      InlineAnswer([VideoByUrl("1", NoVideoTitle, "Send a video to the bot first to store it",
                               "https://example.com/placeholder.mp4", "video/mp4",
                               "https://example.com/placeholder.jpg",
                               "❌ No video stored. Send a video to @" + botUsername + " first.")],
                   None, false, None)
    else
      InlineAnswer([VideoByFileId("1", "Send stored video", "Click to send the stored video in this chat",
                                  stored.value, "📹 Video sent via inline bot")],
                   None, false, None)
  }

  /** A falsy value gives the "No video stored" text result; a truthy one a result re-sending exactly that file id. */
  lemma InlineAnswerServesValue(stored: Option<string>, botUsername: string)
    ensures var r := InlineAnswerFor(stored, botUsername).results[0];
      && (!Truthy(stored) <==> r.VideoByUrl? && r.title == NoVideoTitle)
      && (Truthy(stored) <==> r.VideoByFileId?)
      && (Truthy(stored) ==> r.videoFileId == stored.value)
  {
  }

  /**
   * The corrected answer: the same placeholder for a falsy value; for a truthy one a
   * cached-video result with id `"1"` that re-sends the stored file id.
   */
  function CorrectedAnswerFor(stored: Option<string>, botUsername: string): (answer: InlineAnswer)
    ensures |answer.results| == 1 && answer.results[0].id == "1"
    ensures !Truthy(stored) ==> answer == InlineAnswerFor(stored, botUsername)
    ensures Truthy(stored) ==> answer.results[0].CachedVideo? && answer.results[0].videoFileId == stored.value
  {
    if !Truthy(stored) then InlineAnswerFor(stored, botUsername)
    else
      InlineAnswer([CachedVideo("1", "Send stored video", "Click to send the stored video in this chat",
                                stored.value)],
                   None, false, None)
  }

  /** The module `handlers.inline_handlers` as written: its own name `stored_video`, bound at import. */
  class ImportedBinding {
    const storedVideo: Option<string>

    /** `from .video_handlers import stored_video`: a copy of the slot's value at import time. */
    constructor (slot: VideoSlot)
      ensures storedVideo == slot.storedVideo
    {
      storedVideo := slot.storedVideo;
    }

    /** `inline_query` as written: answers from the import-time copy. */
    method InlineQuery(botUsername: string) returns (answer: InlineAnswer)
      ensures answer == InlineAnswerFor(storedVideo, botUsername)
    {
      answer := InlineAnswerFor(storedVideo, botUsername);
    }
  }

  /** `inline_query` corrected: answers from the slot's current value with a cached-video result. */
  method InlineQuery(slot: VideoSlot, botUsername: string) returns (answer: InlineAnswer)
    ensures answer == CorrectedAnswerFor(slot.storedVideo, botUsername)
  {
    answer := CorrectedAnswerFor(slot.storedVideo, botUsername);
  }

  /**
   * As written: the modules load with an empty slot, then a video is stored; the
   * slot holds it, yet the inline answer is still the "No video stored" result.
   */
  method ImportedBindingMissesStore(fileId: string, botUsername: string) returns (answer: InlineAnswer)
    requires fileId != ""
    ensures |answer.results| == 1 && answer.results[0].title == NoVideoTitle
  {
    var slot := new VideoSlot();
    var inlineModule := new ImportedBinding(slot);
    var _ := slot.StoreVideo(Message(None, Some(Video(fileId))), botUsername);
    assert slot.storedVideo == Some(fileId);
    answer := inlineModule.InlineQuery(botUsername);
  }

  /** Corrected: after a video is stored, the inline answer is a cached video re-sending exactly that file id. */
  method LiveQueryServesStore(fileId: string, botUsername: string) returns (answer: InlineAnswer)
    requires fileId != ""
    ensures |answer.results| == 1 && answer.results[0].CachedVideo? && answer.results[0].videoFileId == fileId
  {
    var slot := new VideoSlot();
    var _ := slot.StoreVideo(Message(None, Some(Video(fileId))), botUsername);
    answer := InlineQuery(slot, botUsername);
  }
}
