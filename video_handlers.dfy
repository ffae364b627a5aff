/**
 * `handlers/video_handlers.py`: the module-global `stored_video` of the unguarded
 * bot and the handler that sets it. There is no identity check: any sender's video
 * replaces the slot.
 */
module VideoHandlers {
  import opened Wrappers
  import opened Telegram

  const PleaseSendVideoText := "❌ Please send a video file to store."

  function StoredText(botUsername: string): string {
    "✅ Video stored successfully! Use @" + botUsername + " in any chat to send it."
  }

  /** The module `handlers.video_handlers` and its global. */
  class VideoSlot {
    /** The module-global `stored_video`. */
    var storedVideo: Option<string>

    /** Module load: the slot starts empty. */
    constructor ()
      ensures storedVideo == None
    {
      storedVideo := None;
    }

    /**
     * `store_video`: a message without a video leaves the slot as it was and gets an
     * error reply; a video from any sender replaces the slot with its file id.
     */
    method StoreVideo(message: Message, botUsername: string) returns (reply: string)
      modifies this
      ensures message.video.None? ==> storedVideo == old(storedVideo) && reply == PleaseSendVideoText
      ensures message.video.Some? ==>
        storedVideo == Some(message.video.value.fileId) && reply == StoredText(botUsername)
    {
      if message.video.None? {
        reply := PleaseSendVideoText;
        return;
      }
      storedVideo := Some(message.video.value.fileId);
      reply := StoredText(botUsername);
    }
  }
}
