/**
The two names a dispatch gives a conversation: the text it locks, and the key under which the
thread id and the summary are stored. Locking protects the stored row only where the text is a
function of the key.
*/
module ConversationKeys {
  import opened MachineInts

  datatype EventKind = MessageReceived | MentionReceived | DirectMessageReceived | OtherKind

  datatype ReplyTarget =
    | ChannelTarget(channelId: string)
    | ThreadTarget(channelId: string, threadId: string)
    | OtherTarget

  datatype ChannelEvent = ChannelEvent(
    provider: string,
    workspaceId: string,
    dedupeKey: string,
    kind: EventKind,
    replyTarget: Option<ReplyTarget>
  )

  datatype SourceReferences = SourceReferences(
    channelId: Option<string>,
    threadId: Option<string>,
    userId: Option<string>
  )

  datatype StoredKey = StoredKey(
    provider: string,
    workspaceId: string,
    kind: string,
    channelId: Option<string>,
    threadId: Option<string>,
    userId: Option<string>
  )

  datatype Names = Names(text: string, stored: StoredKey)

  predicate Dispatchable(e: ChannelEvent) {
    e.provider == "slack" && !e.kind.OtherKind?
  }

  function TargetChannel(e: ChannelEvent): Option<string> {
    match e.replyTarget
    case Some(ChannelTarget(channelId)) => Some(channelId)
    case Some(ThreadTarget(channelId, _)) => Some(channelId)
    case _ => None
  }

  function TargetThread(e: ChannelEvent): Option<string> {
    match e.replyTarget
    case Some(ThreadTarget(_, threadId)) => Some(threadId)
    case _ => None
  }

  function Or(a: Option<string>, b: Option<string>): Option<string> {
    if a.Some? then a else b
  }

  function ChannelConversationKey(e: ChannelEvent, source: SourceReferences): Option<Names> {
    var channel := Or(source.channelId, TargetChannel(e));
    var thread := Or(source.threadId, TargetThread(e));
    var prefix := "slack:" + e.workspaceId;
    if e.provider != "slack" || channel.None? then None
    else if e.kind == DirectMessageReceived && source.userId.Some? then
      Some(Names(prefix + ":dm:" + channel.value + ":" + source.userId.value,
                 StoredKey(e.provider, e.workspaceId, "dm", channel, None, source.userId)))
    else if thread.Some? then
      Some(Names(prefix + ":thread:" + channel.value + ":" + thread.value,
                 StoredKey(e.provider, e.workspaceId, "thread", channel, thread, None)))
    else
      Some(Names(prefix + ":channel:" + channel.value,
                 StoredKey(e.provider, e.workspaceId, "channel", channel, None, None)))
  }

  /** An event without a channel is locked under its own dedupe key. */
  function ConversationNames(e: ChannelEvent, source: SourceReferences): Names {
    match ChannelConversationKey(e, source)
    case Some(names) => names
    case None =>
      Names(e.provider + ":" + e.workspaceId + ":" + e.dedupeKey,
            StoredKey(e.provider, e.workspaceId, "channel", TargetChannel(e), None, None))
  }

  // ---------------------------------------------------------------- which events share a row

  /** Stored per user rather than per thread. */
  predicate Direct(e: ChannelEvent, source: SourceReferences) {
    e.kind == DirectMessageReceived && source.userId.Some?
  }

  /**
  Two events are stored under one key exactly when they are in the same channel of the same
  workspace and are direct messages of the same user, or no direct messages and in the same
  thread. Events without a channel share one key per workspace.
  */
  lemma SharedRowExactly(e: ChannelEvent, s: SourceReferences, f: ChannelEvent,
                         t: SourceReferences)
    requires Dispatchable(e) && Dispatchable(f)
    ensures ConversationNames(e, s).stored == ConversationNames(f, t).stored <==>
            && e.workspaceId == f.workspaceId
            && Or(s.channelId, TargetChannel(e)) == Or(t.channelId, TargetChannel(f))
            && (|| Or(s.channelId, TargetChannel(e)).None?
                || (Direct(e, s) && Direct(f, t) && s.userId == t.userId)
                || (!Direct(e, s) && !Direct(f, t)
                    && Or(s.threadId, TargetThread(e)) == Or(t.threadId, TargetThread(f))))
  {
    assert "dm"[0] != "thread"[0] && "dm"[0] != "channel"[0] && "thread"[0] != "channel"[0];
  }

  /** The locked text, recovered from the stored key alone. */
  function TextOf(k: StoredKey): string
    requires k.channelId.Some?
  {
    var prefix := "slack:" + k.workspaceId + ":" + k.kind + ":" + k.channelId.value;
    if k.userId.Some? then prefix + ":" + k.userId.value
    else if k.threadId.Some? then prefix + ":" + k.threadId.value
    else prefix
  }

  lemma TextFollowsStoredKey(e: ChannelEvent, source: SourceReferences)
    requires Dispatchable(e)
    ensures var names := ConversationNames(e, source);
            && (names.stored.channelId.Some? <==> Or(source.channelId, TargetChannel(e)).Some?)
            && (names.stored.channelId.Some? ==> names.text == TextOf(names.stored))
            && (names.stored.channelId.None? ==>
                  names.text == "slack:" + e.workspaceId + ":" + e.dedupeKey)
  {
    var names := ConversationNames(e, source);
    if names.stored.channelId.Some? {
      var prefix, channel := "slack:" + e.workspaceId, names.stored.channelId.value;
      assert prefix + ":dm:" + channel == prefix + ":" + "dm" + ":" + channel;
      assert prefix + ":thread:" + channel == prefix + ":" + "thread" + ":" + channel;
      assert prefix + ":channel:" + channel == prefix + ":" + "channel" + ":" + channel;
    }
  }

  /**
  Two events that share a stored conversation also share its lock exactly when the conversation
  has a channel or they carry the same dedupe key. Events without a channel share one stored row
  per workspace and are not kept apart by the locks.
  */
  lemma LockCoversStoredRow(e: ChannelEvent, s: SourceReferences, f: ChannelEvent,
                            t: SourceReferences)
    requires Dispatchable(e) && Dispatchable(f)
    requires ConversationNames(e, s).stored == ConversationNames(f, t).stored
    ensures ConversationNames(e, s).text == ConversationNames(f, t).text <==>
            Or(s.channelId, TargetChannel(e)).Some? || e.dedupeKey == f.dedupeKey
  {
    TextFollowsStoredKey(e, s);
    TextFollowsStoredKey(f, t);
    var a, b := ConversationNames(e, s), ConversationNames(f, t);
    if a.stored.channelId.None? {
      assert e.workspaceId == a.stored.workspaceId == f.workspaceId;
      var prefix := "slack:" + e.workspaceId + ":";
      assert a.text[|prefix|..] == e.dedupeKey && b.text[|prefix|..] == f.dedupeKey;
    }
  }

  /** A concrete pair: two messages without a channel have one stored row and two locks. */
  lemma ChannellessEventsShareARow()
    ensures var s := SourceReferences(None, None, None);
            var e := ChannelEvent("slack", "w", "a", MessageReceived, None);
            var f := ChannelEvent("slack", "w", "b", MessageReceived, None);
            && ConversationNames(e, s).stored == ConversationNames(f, s).stored
            && ConversationNames(e, s).text != ConversationNames(f, s).text
  {
    var s := SourceReferences(None, None, None);
    var e := ChannelEvent("slack", "w", "a", MessageReceived, None);
    var f := ChannelEvent("slack", "w", "b", MessageReceived, None);
    LockCoversStoredRow(e, s, f, s);
  }

  // ---------------------------------------------------------------- what Slack intake produces

  /** The fields of an Events API payload that intake requires or reads. */
  datatype SlackEvent = SlackEvent(
    workspaceId: string,
    channelId: string,
    userId: string,
    messageTs: string,
    threadTs: Option<string>,
    dedupeKey: string,
    isAppMention: bool,
    mentionsTarget: bool,
    isDirect: bool
  )

  function ThreadOf(e: SlackEvent): string {
    if e.threadTs.Some? then e.threadTs.value else e.messageTs
  }

  /** The queued event: mentions and messages reply in a thread, direct messages to the user. */
  function Normalize(e: SlackEvent): ChannelEvent {
    var thread := ThreadTarget(e.channelId, ThreadOf(e));
    var (kind, target) :=
      if e.isAppMention || e.mentionsTarget then (MentionReceived, thread)
      else if e.isDirect then (DirectMessageReceived, OtherTarget)
      else (MessageReceived, thread);
    ChannelEvent("slack", e.workspaceId, e.dedupeKey, kind, Some(target))
  }

  /** The source row stored with it. */
  function SourceOf(e: SlackEvent): SourceReferences {
    SourceReferences(Some(e.channelId), Some(ThreadOf(e)), Some(e.userId))
  }

  /**
  Every event intake queues is dispatchable and has a channel, so for those two events share a
  stored conversation only if they share its lock.
  */
  lemma IntakeLocksCoverRows(e: SlackEvent, f: SlackEvent)
    ensures Dispatchable(Normalize(e))
    ensures var a, b := ConversationNames(Normalize(e), SourceOf(e)),
                        ConversationNames(Normalize(f), SourceOf(f));
            && a.stored.channelId == Some(e.channelId)
            && (a.stored == b.stored ==> a.text == b.text)
  {
    TextFollowsStoredKey(Normalize(e), SourceOf(e));
    TextFollowsStoredKey(Normalize(f), SourceOf(f));
  }

  /** A direct message that does not mention the agent. */
  predicate PlainDirect(e: SlackEvent) {
    e.isDirect && !e.isAppMention && !e.mentionsTarget
  }

  /** For events from intake: same workspace and channel, and same user or same thread. */
  lemma IntakeSharesRowsExactly(e: SlackEvent, f: SlackEvent)
    ensures ConversationNames(Normalize(e), SourceOf(e)).stored
            == ConversationNames(Normalize(f), SourceOf(f)).stored <==>
            && e.workspaceId == f.workspaceId && e.channelId == f.channelId
            && (|| (PlainDirect(e) && PlainDirect(f) && e.userId == f.userId)
                || (!PlainDirect(e) && !PlainDirect(f) && ThreadOf(e) == ThreadOf(f)))
  {
    SharedRowExactly(Normalize(e), SourceOf(e), Normalize(f), SourceOf(f));
  }
}
