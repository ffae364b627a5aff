/**
 * `handlers/command_handlers.py`: clearing and reporting the slot of
 * `handlers/video_handlers.py`. Neither checks who sent the command.
 */
module CommandHandlers {
  import opened Wrappers
  import opened Strings
  import opened VideoHandlers

  const ClearedText := "🗑️ Stored video cleared."
  const StoredStatusText := "✅ A video is currently stored and ready to send."
  const NotStoredStatusText := "❌ No video is currently stored."

  /** `clear_video`: the slot becomes `None` whatever it held, for any sender. */
  method ClearVideo(slot: VideoSlot) returns (reply: string)
    modifies slot
    ensures slot.storedVideo == None && reply == ClearedText
  {
    slot.storedVideo := None;
    reply := ClearedText;
  }

  /** `video_status`: reports "stored" exactly when the slot is truthy, so `""` reports as not stored. */
  method VideoStatus(slot: VideoSlot) returns (reply: string)
    ensures reply == StoredStatusText <==> Truthy(slot.storedVideo)
    ensures reply == NotStoredStatusText <==> !Truthy(slot.storedVideo)
  {
    if slot.storedVideo.Some? && slot.storedVideo.value != "" {
      reply := StoredStatusText;
    } else {
      reply := NotStoredStatusText;
    }
  }
}
