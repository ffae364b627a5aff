/**
 * The handlers of the package bot (`bot/handlers.py`), over the storage of
 * `bot/db.py`. Each takes the update's message (or inline query), which may be
 * missing, and returns the reply it sends, `None` when it sends nothing. The owner
 * id is the configured integer; here it is always set.
 */
module PackageHandlers {
  import opened Wrappers
  import opened Strings
  import opened Telegram
  import opened VideoDb

  const OwnerGreeting := "Hi! Send me a video, and I'll store it. Then anyone can use me inline to send it."
  const InlineGreeting := "This bot works inline. Type @nihuyaNeUnderstandBot in any chat to send the stored video."
  const VideoStoredStatus := "Video is stored"
  const NoVideoStatus := "No video stored"
  const SavedReply := "Saved. Inline queries will now return this video."
  const SwitchPmText := "No video stored yet. Start me to add one."

  /** `handle_start`: the owner is greeted with the owner text, everybody else with the inline text. */
  function HandleStart(message: Option<Message>, ownerId: int): (reply: Option<string>)
    ensures reply.None? <==> message.None?
    ensures reply == Some(OwnerGreeting) <==> message.Some? && message.value.sender == Some(ownerId)
    ensures message.Some? && message.value.sender != Some(ownerId) ==> reply == Some(InlineGreeting)
  {
    if message.None? then None
    else if message.value.sender.Some? && message.value.sender.value == ownerId then Some(OwnerGreeting)
    else Some(InlineGreeting)
  }

  /** `handle_status`: the reply depends only on whether the storage holds a row. */
  method HandleStatus(message: Option<Message>, storage: VideoStorage) returns (reply: Option<string>)
    requires storage.Valid()
    ensures reply.None? <==> message.None?
    ensures message.Some? ==>
      reply == Some(if storage.Stored().Some? then VideoStoredStatus else NoVideoStatus)
  {
    if message.None? {
      return None;
    }
    var present := storage.HasVideo();
    if present {
      reply := Some(VideoStoredStatus);
    } else {
      reply := Some(NoVideoStatus);
    }
  }

  /** The video messages `handle_owner_video` accepts: present, sent by the owner, carrying a video. */
  predicate AcceptedVideo(message: Option<Message>, ownerId: int) {
    && message.Some?
    && message.value.sender == Some(ownerId)
    && message.value.video.Some?
  }

  /**
   * `handle_owner_video`: a missing message or sender, a sender other than the owner,
   * or a message without a video is ignored silently; otherwise row 1 is upserted with
   * the video's file id and the owner gets a confirmation.
   */
  method HandleOwnerVideo(message: Option<Message>, storage: VideoStorage, ownerId: int, now: string)
    returns (reply: Option<string>)
    requires storage.Valid()
    modifies storage.db
    ensures storage.Valid()
    ensures AcceptedVideo(message, ownerId) ==>
      && storage.db.table == Some(Upserted(old(storage.db.table.value), message.value.video.value.fileId, now))
      && storage.Stored() == Some(message.value.video.value.fileId)
      && reply == Some(SavedReply)
    ensures !AcceptedVideo(message, ownerId) ==>
      storage.db.table == old(storage.db.table) && reply == None
  {
    if message.None? || message.value.sender.None? {
      return None;
    }
    if message.value.sender.value != ownerId {
      return None;
    }
    var video := message.value.video;
    if video.None? {
      return None;
    }
    storage.UpsertVideo(video.value.fileId, now);
    reply := Some(SavedReply);
  }

  /**
   * `handle_inline_query`: with no inline query nothing is answered. An empty stored id
   * (`None` or `""`) is answered with no results and a button to start the bot with
   * parameter `"start"`; a stored id with the one cached video `"video-1"` re-sending it.
   * Both answers are cached for 2 seconds and personal.
   */
  method HandleInlineQuery(queryPresent: bool, storage: VideoStorage) returns (answer: Option<InlineAnswer>)
    requires storage.Valid()
    ensures answer.Some? <==> queryPresent
    ensures queryPresent ==> answer.value.cacheTime == Some(2) && answer.value.isPersonal
    ensures queryPresent && !Truthy(storage.Stored()) ==>
      answer.value.results == [] && answer.value.switchPm == Some(SwitchPm(SwitchPmText, "start"))
    ensures queryPresent && Truthy(storage.Stored()) ==>
      && answer.value.results == [CachedVideo("video-1", "Stored video", "Provided by nihuyaNeUnderstandBot",
                                              storage.Stored().value)]
      && answer.value.switchPm.None?
  {
    if !queryPresent {
      return None;
    }
    var fileId := storage.GetVideoFileId();
    if fileId.None? || fileId.value == "" {
      answer := Some(InlineAnswer([], Some(2), true, Some(SwitchPm(SwitchPmText, "start"))));
      return;
    }
    var results := [CachedVideo("video-1", "Stored video", "Provided by nihuyaNeUnderstandBot", fileId.value)];
    answer := Some(InlineAnswer(results, Some(2), true, None));
  }
}
