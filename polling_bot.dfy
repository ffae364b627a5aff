/**
 * The polling bot (`bot.py`): one module-global slot `stored_video`, an optional
 * owner id that gates the store and clear commands, a JSON state file on disk,
 * and the inline-query and status replies computed from the slot.
 *
 * The pure functions below (`StoreStep`, `ClearStep`, `Loaded`, `Written`, ...) are
 * the specification; the class `Bot` holds the mutable globals and its methods are
 * proved to follow those functions. The lemmas are about the functions.
 */
module PollingBot {
  import opened Wrappers
  import opened Strings
  import opened Telegram

  // ---------------------------------------------------------------- owner id

  /** `OWNER_ID`: the value of the environment string when it is a non-empty run of digits, else `None`. */
  function ParseOwnerId(env: Option<string>): Option<nat> {
    if env.Some? && IsDigits(env.value) then Some(DecimalValue(env.value)) else None
  }

  /** A configured owner id written out in decimal is read back as itself. */
  lemma ParseOwnerIdOfDecimal(n: nat)
    ensures ParseOwnerId(Some(Decimal(n))) == Some(n)
  {
    DecimalRoundTrip(n);
  }

  /** A missing or empty variable, or one with a sign or any other non-digit, configures no owner. */
  lemma ParseOwnerIdRejects(env: Option<string>)
    requires env.None? || env.value == [] || exists i :: 0 <= i < |env.value| && !IsAsciiDigit(env.value[i])
    ensures ParseOwnerId(env) == None
  {
  }

  lemma {:induction false} DecimalValueLeadingZero(s: string)
    requires forall i :: 0 <= i < |s| ==> IsAsciiDigit(s[i])
    ensures DecimalValue("0" + s) == DecimalValue(s)
  {
    if s != [] {
      var t := "0" + s;
      assert t[..|t| - 1] == "0" + s[..|s| - 1];
      DecimalValueLeadingZero(s[..|s| - 1]);
    }
  }

  /** Leading zeros do not change the configured owner, as with Python's `int()`. */
  lemma ParseOwnerIdLeadingZero(s: string)
    requires IsDigits(s)
    ensures ParseOwnerId(Some("0" + s)) == ParseOwnerId(Some(s))
  {
    DecimalValueLeadingZero(s);
  }

  // ---------------------------------------------------------------- owner guard

  /** The guard of the store and clear handlers: with no owner configured anyone passes; otherwise only the owner. */
  predicate MayChangeSlot(owner: Option<nat>, sender: Option<int>) {
    owner.None? || sender == Some(owner.value as int)
  }

  lemma OpenModeAdmitsAnyone(sender: Option<int>)
    ensures MayChangeSlot(None, sender)
  {
  }

  /** With an owner configured, exactly the owner passes; a message without a sender never does. */
  lemma OwnerGuard(owner: nat, sender: Option<int>)
    ensures MayChangeSlot(Some(owner), sender) <==> sender.Some? && sender.value == owner
    ensures !MayChangeSlot(Some(owner), None)
  {
  }

  // ---------------------------------------------------------------- state file

  /** The key under which `save_state` writes the slot. */
  const StateKey := "stored_video"

  /**
   * The contents of `state.json`: absent, unreadable (not JSON, truncated, or not an
   * object), or a JSON object whose values are strings or `null`.
   */
  datatype StateFile = NoFile | Unreadable | Document(fields: map<string, Option<string>>)

  /**
   * How one attempt to write the state file ends: written; `open` failed, so the file
   * is untouched; or the file was truncated by `open` and the write then failed.
   */
  datatype SaveOutcome = Saved | OpenFailed | WriteFailed

  /** `stored_video` after `load_state` with the given file on disk and `current` in memory. */
  function Loaded(file: StateFile, current: Option<string>): Option<string> {
    match file
    case NoFile => current
    case Unreadable => current
    case Document(fields) => if StateKey in fields then fields[StateKey] else None
  }

  /** The file on disk after `save_state` writes `value` and ends with `outcome`. */
  function Written(file: StateFile, value: Option<string>, outcome: SaveOutcome): StateFile {
    match outcome
    case Saved => Document(map[StateKey := value])
    case OpenFailed => file
    case WriteFailed => Unreadable
  }

  /** The slot of a freshly started process after its one `load_state`. */
  function Restarted(file: StateFile): Option<string> {
    Loaded(file, None)
  }

  /** A successful save is read back by the next load, whatever was in memory then. */
  lemma SaveLoadRoundTrip(file: StateFile, value: Option<string>, current: Option<string>)
    ensures Loaded(Written(file, value, Saved), current) == value
  {
  }

  /** A missing file or one that cannot be read leaves memory as it was; a document without the key loads as `None`. */
  lemma LoadFailuresKeepMemory(fields: map<string, Option<string>>, current: Option<string>)
    ensures Loaded(NoFile, current) == current
    ensures Loaded(Unreadable, current) == current
    ensures StateKey !in fields ==> Loaded(Document(fields), current) == None
  {
  }

  /** Loading at a cold start and saving straight back leaves the durable value as it was. */
  lemma LoadThenSaveKeepsDurableValue(file: StateFile)
    ensures Restarted(Written(file, Restarted(file), Saved)) == Restarted(file)
  {
  }

  // ---------------------------------------------------------------- handlers as transitions

  /** The process state the handlers change: the in-memory slot and the state file. */
  datatype State = State(slot: Option<string>, file: StateFile)

  const RejectStoreText := "❌ Only the owner can update the stored video."
  const NotAVideoText := "❌ Please send a video file."
  const RejectClearText := "❌ Only the owner can clear the stored video."
  const ClearedText := "🗑️ Video cleared."

  function StoredText(botUsername: string): string {
    "✅ Video stored! Use @" + botUsername + " in any chat to send it."
  }

  /** `store_video_handler`: the guard first, then the video check, then set the slot and save it. */
  function StoreStep(owner: Option<nat>, s: State, message: Message, outcome: SaveOutcome): State {
    if !MayChangeSlot(owner, message.sender) || message.video.None? then s
    else
      var fileId := message.video.value.fileId;
      State(Some(fileId), Written(s.file, Some(fileId), outcome))
  }

  /** The reply of `store_video_handler`. */
  function StoreReply(owner: Option<nat>, message: Message, botUsername: string): string {
    if !MayChangeSlot(owner, message.sender) then RejectStoreText
    else if message.video.None? then NotAVideoText
    else StoredText(botUsername)
  }

  /** `clear_video`: the guard, then empty the slot and save it. */
  function ClearStep(owner: Option<nat>, s: State, sender: Option<int>, outcome: SaveOutcome): State {
    if !MayChangeSlot(owner, sender) then s else State(None, Written(s.file, None, outcome))
  }

  /** The reply of `clear_video`. */
  function ClearReply(owner: Option<nat>, sender: Option<int>): string {
    if MayChangeSlot(owner, sender) then ClearedText else RejectClearText
  }

  /** A sender the guard refuses changes neither the slot nor the file, and is told so. */
  lemma RefusedSenderChangesNothing(owner: Option<nat>, s: State, message: Message, outcome: SaveOutcome,
                                    botUsername: string)
    requires owner.Some? && message.sender != Some(owner.value as int)
    ensures StoreStep(owner, s, message, outcome) == s
    ensures StoreReply(owner, message, botUsername) == RejectStoreText
    ensures ClearStep(owner, s, message.sender, outcome) == s
    ensures ClearReply(owner, message.sender) == RejectClearText
  {
  }

  /** With no owner configured, anyone's video replaces the slot and anyone's clear empties it. */
  lemma OpenModeStoreAndClear(s: State, message: Message, outcome: SaveOutcome)
    ensures message.video.Some? ==>
      StoreStep(None, s, message, outcome).slot == Some(message.video.value.fileId)
    ensures ClearStep(None, s, message.sender, outcome).slot == None
    ensures ClearReply(None, message.sender) == ClearedText
  {
  }

  /**
   * A message without a video changes nothing; an accepted video becomes the slot, and
   * when the save succeeds a restarted process loads that same video.
   */
  lemma StoreSetsSlotAndPersists(owner: Option<nat>, s: State, message: Message, outcome: SaveOutcome,
                                 botUsername: string)
    requires MayChangeSlot(owner, message.sender)
    ensures message.video.None? ==>
      StoreStep(owner, s, message, outcome) == s && StoreReply(owner, message, botUsername) == NotAVideoText
    ensures message.video.Some? ==>
      StoreStep(owner, s, message, outcome).slot == Some(message.video.value.fileId)
      && StoreReply(owner, message, botUsername) == StoredText(botUsername)
    ensures message.video.Some? && outcome == Saved ==>
      Restarted(StoreStep(owner, s, message, outcome).file) == Some(message.video.value.fileId)
  {
  }

  /**
   * A failed save keeps the new value in memory; after a restart the process sees the
   * value saved before (the file was untouched) or nothing (the file was truncated).
   */
  lemma FailedSaveKeepsMemoryOnly(owner: Option<nat>, s: State, message: Message)
    requires MayChangeSlot(owner, message.sender) && message.video.Some?
    ensures StoreStep(owner, s, message, OpenFailed).slot == Some(message.video.value.fileId)
    ensures Restarted(StoreStep(owner, s, message, OpenFailed).file) == Restarted(s.file)
    ensures StoreStep(owner, s, message, WriteFailed).slot == Some(message.video.value.fileId)
    ensures Restarted(StoreStep(owner, s, message, WriteFailed).file) == None
  {
  }

  /**
   * Clearing twice leaves the same state (slot and file) as clearing once, for any
   * sender: when both saves end alike, and whenever the second save succeeds.
   */
  lemma ClearIdempotent(owner: Option<nat>, s: State, sender: Option<int>, first: SaveOutcome)
    ensures ClearStep(owner, ClearStep(owner, s, sender, first), sender, first)
         == ClearStep(owner, s, sender, first)
    ensures ClearStep(owner, ClearStep(owner, s, sender, first), sender, Saved)
         == ClearStep(owner, s, sender, Saved)
  {
  }

  // ---------------------------------------------------------------- runs of commands

  /** A store or clear command as the handlers receive it, with how its save ends. */
  datatype Command = Store(message: Message, outcome: SaveOutcome) | Clear(sender: Option<int>, outcome: SaveOutcome)

  function SenderOf(c: Command): Option<int> {
    match c
    case Store(m, _) => m.sender
    case Clear(sender, _) => sender
  }

  function Step(owner: Option<nat>, s: State, c: Command): State {
    match c
    case Store(m, outcome) => StoreStep(owner, s, m, outcome)
    case Clear(sender, outcome) => ClearStep(owner, s, sender, outcome)
  }

  /** The handlers applied one after another, as the event loop runs them. */
  function Run(owner: Option<nat>, s: State, cmds: seq<Command>): State
    decreases |cmds|
  {
    if cmds == [] then s else Run(owner, Step(owner, s, cmds[0]), cmds[1..])
  }

  /** The value of the last accepted write in `cmds` (a stored file id, or `None` for a clear), else `initial`. */
  function LastWrite(owner: Option<nat>, initial: Option<string>, cmds: seq<Command>): Option<string>
    decreases |cmds|
  {
    if cmds == [] then initial
    else
      var c := cmds[|cmds| - 1];
      var rest := cmds[..|cmds| - 1];
      match c
      case Store(m, _) =>
        if MayChangeSlot(owner, m.sender) && m.video.Some? then Some(m.video.value.fileId)
        else LastWrite(owner, initial, rest)
      case Clear(sender, _) =>
        if MayChangeSlot(owner, sender) then None else LastWrite(owner, initial, rest)
  }

  lemma {:induction false} RunSnoc(owner: Option<nat>, s: State, cmds: seq<Command>, c: Command)
    ensures Run(owner, s, cmds + [c]) == Step(owner, Run(owner, s, cmds), c)
    decreases |cmds|
  {
    if cmds != [] {
      assert (cmds + [c])[1..] == cmds[1..] + [c];
      RunSnoc(owner, Step(owner, s, cmds[0]), cmds[1..], c);
    }
  }

  /** Last write wins: after any run of store and clear commands the slot holds the last accepted write. */
  lemma {:induction false} RunLastWriteWins(owner: Option<nat>, s: State, cmds: seq<Command>)
    ensures Run(owner, s, cmds).slot == LastWrite(owner, s.slot, cmds)
    decreases |cmds|
  {
    if cmds != [] {
      var rest := cmds[..|cmds| - 1];
      var c := cmds[|cmds| - 1];
      assert cmds == rest + [c];
      RunSnoc(owner, s, rest, c);
      RunLastWriteWins(owner, s, rest);
    }
  }

  /** A run of commands none of which passes the guard changes neither the slot nor the file. */
  lemma {:induction false} RefusedRunChangesNothing(owner: Option<nat>, s: State, cmds: seq<Command>)
    requires forall i :: 0 <= i < |cmds| ==> !MayChangeSlot(owner, SenderOf(cmds[i]))
    ensures Run(owner, s, cmds) == s
    decreases |cmds|
  {
    if cmds != [] {
      assert !MayChangeSlot(owner, SenderOf(cmds[0]));
      assert Step(owner, s, cmds[0]) == s;
      RefusedRunChangesNothing(owner, s, cmds[1..]);
    }
  }

  // ---------------------------------------------------------------- inline query and status

  const PlaceholderId := "no_video"

  /** The result id of the stored video: `"vid_"` and the last (up to) 32 characters of its file id. */
  function VideoResultId(fileId: string): string {
    "vid_" + LastChars(fileId, 32)
  }

  /** `inline_query_handler`: always one result, not cached, personal to the requester. */
  function InlineAnswerFor(stored: Option<string>, botUsername: string): (answer: InlineAnswer)
    ensures |answer.results| == 1
    ensures answer.cacheTime == Some(0) && answer.isPersonal && answer.switchPm.None?
  {
    if !Truthy(stored) then
      InlineAnswer([VideoByUrl(PlaceholderId, "No video stored", "Send a video to the bot first",
                               "https://example.com/placeholder.mp4", "video/mp4",
                               "https://example.com/placeholder.jpg",
                               "❌ No video stored. Send a video to @" + botUsername + " first.")],
                   Some(0), true, None)
    else
      InlineAnswer([CachedVideo(VideoResultId(stored.value), "Send stored video",
                                "Click to send the stored video", stored.value)],
                   Some(0), true, None)
  }

  /**
   * An empty slot (`None` or `""`) is answered with the placeholder; a non-empty one
   * with a cached-video result that re-sends exactly the stored file id.
   */
  lemma InlineAnswerServesSlot(stored: Option<string>, botUsername: string)
    ensures var r := InlineAnswerFor(stored, botUsername).results[0];
      && (r.CachedVideo? <==> Truthy(stored))
      && (!Truthy(stored) ==> r.id == PlaceholderId)
      && (Truthy(stored) ==> r.videoFileId == stored.value && r.id == VideoResultId(stored.value))
  {
  }

  /**
   * The video result id is `"vid_"` followed by a suffix of the file id, at most 36
   * characters long (within the platform's 64-byte limit for ASCII ids), and never
   * the placeholder id.
   */
  lemma VideoResultIdShape(fileId: string)
    ensures var id := VideoResultId(fileId);
      && 4 <= |id| <= 36
      && id[..4] == "vid_"
      && fileId == fileId[..|fileId| - (|id| - 4)] + id[4..]
      && id != PlaceholderId
  {
    var id := VideoResultId(fileId);
    assert id[2] == 'd' && PlaceholderId[2] == '_';
  }

  /** Two file ids get the same result id exactly when their last 32 characters agree. */
  lemma VideoResultIdDeterminedBySuffix(f: string, g: string)
    ensures VideoResultId(f) == VideoResultId(g) <==> LastChars(f, 32) == LastChars(g, 32)
  {
    if VideoResultId(f) == VideoResultId(g) {
      assert LastChars(f, 32) == VideoResultId(f)[4..];
      assert LastChars(g, 32) == VideoResultId(g)[4..];
    }
  }

  /** File ids of at most 32 characters get distinct result ids. */
  lemma VideoResultIdInjectiveOnShortIds(f: string, g: string)
    requires |f| <= 32 && |g| <= 32 && f != g
    ensures VideoResultId(f) != VideoResultId(g)
  {
    VideoResultIdDeterminedBySuffix(f, g);
  }

  const NoVideoStatusText := "❌ No video stored."

  /** The ` (owner N)` part of the status reply. */
  function OwnerInfo(owner: Option<nat>): string {
    if owner.Some? then " (owner " + Decimal(owner.value) + ")" else ""
  }

  /** `status`: the reply to the status command; it only reads the slot. */
  function StatusText(stored: Option<string>, owner: Option<nat>): string {
    if Truthy(stored) then
      StoredStatusHead + LastChars(stored.value, 8) + OwnerInfo(owner)
    else NoVideoStatusText
  }

  const StoredStatusHead := "✅ Video is stored and ready to send. id…"

  /** A non-empty slot is reported with its last (up to) 8 characters; an empty one with the fixed "no video" reply. */
  lemma StatusReportsTail(stored: Option<string>, owner: Option<nat>)
    ensures Truthy(stored) ==> Contains(StatusText(stored, owner), LastChars(stored.value, 8))
    ensures Truthy(stored) <==> StatusText(stored, owner) != NoVideoStatusText
  {
    if Truthy(stored) {
      var text := StatusText(stored, owner);
      ContainsMiddle(StoredStatusHead, LastChars(stored.value, 8), OwnerInfo(owner));
      assert text[0] == StoredStatusHead[0];
    }
  }

  /** With an owner configured, the report of a non-empty slot names the owner id in decimal. */
  lemma StatusReportsOwner(stored: Option<string>, owner: nat)
    requires Truthy(stored)
    ensures Contains(StatusText(stored, Some(owner)), Decimal(owner))
  {
    ContainsMiddle(" (owner ", Decimal(owner), ")");
    ContainsAfterPrefix(StoredStatusHead + LastChars(stored.value, 8), OwnerInfo(Some(owner)), Decimal(owner));
  }

  /**
   * The scenario of one owner and one other user: the owner (42) stores a video, a
   * user's inline query receives it, the other user (99) cannot clear it, the owner
   * clears it, and the next inline query gets the placeholder.
   */
  lemma OwnerScenario(botUsername: string)
    ensures var owner := Some(42);
      var s0 := State(None, NoFile);
      var s1 := StoreStep(owner, s0, Message(Some(42), Some(Video("ABCDEF123"))), Saved);
      var s2 := ClearStep(owner, s1, Some(99), Saved);
      var s3 := ClearStep(owner, s2, Some(42), Saved);
      && s1.slot == Some("ABCDEF123")
      && InlineAnswerFor(s1.slot, botUsername).results[0].videoFileId == "ABCDEF123"
      && s2 == s1
      && s3.slot == None
      && InlineAnswerFor(s3.slot, botUsername).results[0].id == PlaceholderId
  {
  }

  // ---------------------------------------------------------------- the module globals

  /** The module-level state of `bot.py` together with the state file it persists to. */
  class Bot {
    /** `OWNER_ID`, fixed when the module is loaded. */
    const ownerId: Option<nat>
    /** The module-global `stored_video`. */
    var storedVideo: Option<string>
    /** The contents of `state.json`. */
    var stateFile: StateFile

    /** Module load: the slot starts empty and the owner id is parsed from the environment. */
    constructor (ownerEnv: Option<string>, disk: StateFile)
      ensures ownerId == ParseOwnerId(ownerEnv)
      ensures storedVideo == None && stateFile == disk
    {
      ownerId := ParseOwnerId(ownerEnv);
      storedVideo := None;
      stateFile := disk;
    }

    /** `load_state`: read the slot from the file; any failure leaves memory as it was. */
    method LoadState()
      modifies this`storedVideo
      ensures storedVideo == Loaded(stateFile, old(storedVideo))
    {
      match stateFile {
        case NoFile =>
        case Unreadable =>
        case Document(fields) =>
          storedVideo := if StateKey in fields then fields[StateKey] else None;
      }
    }

    /** `save_state`: write the slot to the file; a failure is only logged. */
    method SaveState(outcome: SaveOutcome)
      modifies this`stateFile
      ensures stateFile == Written(old(stateFile), storedVideo, outcome)
    {
      match outcome {
        case Saved => stateFile := Document(map[StateKey := storedVideo]);
        case OpenFailed =>
        case WriteFailed => stateFile := Unreadable;
      }
    }

    /** `store_video_handler`. */
    method StoreVideoHandler(message: Message, botUsername: string, outcome: SaveOutcome) returns (reply: string)
      modifies this
      ensures State(storedVideo, stateFile)
           == StoreStep(ownerId, old(State(storedVideo, stateFile)), message, outcome)
      ensures reply == StoreReply(ownerId, message, botUsername)
    {
      if ownerId.Some? {
        var userId := message.sender;
        if userId != Some(ownerId.value as int) {
          reply := RejectStoreText;
          return;
        }
      }
      if message.video.None? {
        reply := NotAVideoText;
        return;
      }
      storedVideo := Some(message.video.value.fileId);
      SaveState(outcome);
      reply := StoredText(botUsername);
    }

    /** `clear_video`. */
    method ClearVideo(sender: Option<int>, outcome: SaveOutcome) returns (reply: string)
      modifies this
      ensures State(storedVideo, stateFile)
           == ClearStep(ownerId, old(State(storedVideo, stateFile)), sender, outcome)
      ensures reply == ClearReply(ownerId, sender)
    {
      if ownerId.Some? {
        if sender != Some(ownerId.value as int) {
          reply := RejectClearText;
          return;
        }
      }
      storedVideo := None;
      SaveState(outcome);
      reply := ClearedText;
    }
  }
}
