/**
 * The table of Twitch IRC message tags the client knows: for each tag key on the wire, the
 * field name it is stored under in a parsed message and the decoder that turns its text
 * into a value. A key outside the table is kept under its own name and decoded as a string.
 */
module TagsData {
  import opened Wrappers

  /** The decoders a known tag can name. */
  datatype TagKind =
    | StringKind
    | NumberKind
    | LiteralBooleanKind
    | BooleanNumberKind
    | BadgesKind
    | EmotesKind
    | FollowersOnlyKind
    | SlowKind
    | FlagsKind
    | ThreadIdKind
    | CommaSeparatedStringsKind

  /** One constructor per entry of the table, named after the entry's field name. */
  datatype KnownTag =
    | BadgeInfo
    | Badges
    | BanDuration
    | Bits
    | ClientNonce
    | Color
    | CustomRewardId
    | DisplayName
    | EmoteOnly
    | EmoteSets
    | Emotes
    | FirstMsg
    | Flags
    | FollowersOnly
    | Id
    | Login
    | MessageId
    | Mod
    | MsgId
    | MsgParamAnonGift
    | MsgParamCategory
    | MsgParamColor
    | MsgParamCommunityGiftId
    | MsgParamCopoReward
    | MsgParamCumulativeMonths
    | MsgParamDisplayName
    | MsgParamFunString
    | MsgParamGiftMonthBeingRedeemed
    | MsgParamGiftMonths
    | MsgParamGiftTheme
    | MsgParamGifterId
    | MsgParamGifterLogin
    | MsgParamGifterName
    | MsgParamGoalContributionType
    | MsgParamGoalCurrentContributions
    | MsgParamGoalDescription
    | MsgParamGoalTargetContributions
    | MsgParamGoalUserContributions
    | MsgParamId
    | MsgParamLogin
    | MsgParamMassGiftCount
    | MsgParamMonths
    | MsgParamMultimonthDuration
    | MsgParamMultimonthTenure
    | MsgParamOriginId
    | MsgParamPriorGifterAnonymous
    | MsgParamPriorGifterDisplayName
    | MsgParamPriorGifterId
    | MsgParamPriorGifterUserName
    | MsgParamProfileImageUrl
    | MsgParamRecipientDisplayName
    | MsgParamRecipientId
    | MsgParamRecipientUserName
    | MsgParamSenderCount
    | MsgParamSenderLogin
    | MsgParamSenderName
    | MsgParamShouldShareStreak
    | MsgParamStreakMonths
    | MsgParamSubPlanName
    | MsgParamSubPlan
    | MsgParamThreshold
    | MsgParamValue
    | MsgParamViewerCount
    | MsgParamWasGifted
    | PinnedChatPaidAmount
    | PinnedChatPaidCanonicalAmount
    | PinnedChatPaidCurrency
    | PinnedChatPaidExponent
    | PinnedChatPaidLevel
    | PinnedChatPaidIsSystemMessage
    | R9k
    | ReplyParentDisplayName
    | ReplyParentMsgBody
    | ReplyParentMsgId
    | ReplyParentUserId
    | ReplyParentUserLogin
    | ReplyThreadParentDisplayName
    | ReplyThreadParentMsgId
    | ReplyThreadParentUserId
    | ReplyThreadParentUserLogin
    | ReturningChatter
    | RoomId
    | Slow
    | SubsOnly
    | Subscriber
    | SystemMsg
    | TargetMsgId
    | TargetUserId
    | ThreadId
    | TmiSentTs
    | Turbo
    | UserId
    | UserType
    | Vip

  /** One row of the table: the key on the wire, the field the decoded value is stored under, and the decoder. */
  datatype TagEntry = TagEntry(key: string, name: string, kind: TagKind)

  /** The table's row for each entry. */
  function Entry(t: KnownTag): TagEntry {
    match t
    case BadgeInfo => TagEntry("badge-info", "badgeInfo", BadgesKind)
    case Badges => TagEntry("badges", "badges", BadgesKind)
    case BanDuration => TagEntry("ban-duration", "banDuration", NumberKind)
    case Bits => TagEntry("bits", "bits", NumberKind)
    case ClientNonce => TagEntry("client-nonce", "clientNonce", StringKind)
    case Color => TagEntry("color", "color", StringKind)
    case CustomRewardId => TagEntry("custom-reward-id", "customRewardId", StringKind)
    case DisplayName => TagEntry("display-name", "displayName", StringKind)
    case EmoteOnly => TagEntry("emote-only", "emoteOnly", BooleanNumberKind)
    case EmoteSets => TagEntry("emote-sets", "emoteSets", CommaSeparatedStringsKind)
    case Emotes => TagEntry("emotes", "emotes", EmotesKind)
    case FirstMsg => TagEntry("first-msg", "firstMsg", BooleanNumberKind)
    case Flags => TagEntry("flags", "flags", FlagsKind)
    case FollowersOnly => TagEntry("followers-only", "followersOnly", FollowersOnlyKind)
    case Id => TagEntry("id", "id", StringKind)
    case Login => TagEntry("login", "login", StringKind)
    case MessageId => TagEntry("message-id", "messageId", StringKind)
    case Mod => TagEntry("mod", "mod", LiteralBooleanKind)
    case MsgId => TagEntry("msg-id", "msgId", StringKind)
    case MsgParamAnonGift => TagEntry("msg-param-anon-gift", "msgParamAnonGift", LiteralBooleanKind)
    case MsgParamCategory => TagEntry("msg-param-category", "msgParamCategory", StringKind)
    case MsgParamColor => TagEntry("msg-param-color", "msgParamColor", StringKind)
    case MsgParamCommunityGiftId => TagEntry("msg-param-community-gift-id", "msgParamCommunityGiftId", StringKind)
    case MsgParamCopoReward => TagEntry("msg-param-copoReward", "msgParamCopoReward", NumberKind)
    case MsgParamCumulativeMonths => TagEntry("msg-param-cumulative-months", "msgParamCumulativeMonths", NumberKind)
    case MsgParamDisplayName => TagEntry("msg-param-displayName", "msgParamDisplayName", StringKind)
    case MsgParamFunString => TagEntry("msg-param-fun-string", "msgParamFunString", StringKind)
    case MsgParamGiftMonthBeingRedeemed => TagEntry("msg-param-gift-month-being-redeemed", "msgParamGiftMonthBeingRedeemed", NumberKind)
    case MsgParamGiftMonths => TagEntry("msg-param-gift-months", "msgParamGiftMonths", NumberKind)
    case MsgParamGiftTheme => TagEntry("msg-param-gift-theme", "msgParamGiftTheme", StringKind)
    case MsgParamGifterId => TagEntry("msg-param-gifter-id", "msgParamGifterId", StringKind)
    case MsgParamGifterLogin => TagEntry("msg-param-gifter-login", "msgParamGifterLogin", StringKind)
    case MsgParamGifterName => TagEntry("msg-param-gifter-name", "msgParamGifterName", StringKind)
    case MsgParamGoalContributionType => TagEntry("msg-param-goal-contribution-type", "msgParamGoalContributionType", StringKind)
    case MsgParamGoalCurrentContributions => TagEntry("msg-param-goal-current-contributions", "msgParamGoalCurrentContributions", NumberKind)
    case MsgParamGoalDescription => TagEntry("msg-param-goal-description", "msgParamGoalDescription", StringKind)
    case MsgParamGoalTargetContributions => TagEntry("msg-param-goal-target-contributions", "msgParamGoalTargetContributions", NumberKind)
    case MsgParamGoalUserContributions => TagEntry("msg-param-goal-user-contributions", "msgParamGoalUserContributions", NumberKind)
    case MsgParamId => TagEntry("msg-param-id", "msgParamId", StringKind)
    case MsgParamLogin => TagEntry("msg-param-login", "msgParamLogin", StringKind)
    case MsgParamMassGiftCount => TagEntry("msg-param-mass-gift-count", "msgParamMassGiftCount", NumberKind)
    case MsgParamMonths => TagEntry("msg-param-months", "msgParamMonths", NumberKind)
    case MsgParamMultimonthDuration => TagEntry("msg-param-multimonth-duration", "msgParamMultimonthDuration", NumberKind)
    case MsgParamMultimonthTenure => TagEntry("msg-param-multimonth-tenure", "msgParamMultimonthTenure", NumberKind)
    case MsgParamOriginId => TagEntry("msg-param-origin-id", "msgParamOriginId", StringKind)
    case MsgParamPriorGifterAnonymous => TagEntry("msg-param-prior-gifter-anonymous", "msgParamPriorGifterAnonymous", LiteralBooleanKind)
    case MsgParamPriorGifterDisplayName => TagEntry("msg-param-prior-gifter-display-name", "msgParamPriorGifterDisplayName", StringKind)
    case MsgParamPriorGifterId => TagEntry("msg-param-prior-gifter-id", "msgParamPriorGifterId", StringKind)
    case MsgParamPriorGifterUserName => TagEntry("msg-param-prior-gifter-user-name", "msgParamPriorGifterUserName", StringKind)
    case MsgParamProfileImageUrl => TagEntry("msg-param-profileImageURL", "msgParamProfileImageUrl", StringKind)
    case MsgParamRecipientDisplayName => TagEntry("msg-param-recipient-display-name", "msgParamRecipientDisplayName", StringKind)
    case MsgParamRecipientId => TagEntry("msg-param-recipient-id", "msgParamRecipientId", StringKind)
    case MsgParamRecipientUserName => TagEntry("msg-param-recipient-user-name", "msgParamRecipientUserName", StringKind)
    case MsgParamSenderCount => TagEntry("msg-param-sender-count", "msgParamSenderCount", NumberKind)
    case MsgParamSenderLogin => TagEntry("msg-param-sender-login", "msgParamSenderLogin", StringKind)
    case MsgParamSenderName => TagEntry("msg-param-sender-name", "msgParamSenderName", StringKind)
    case MsgParamShouldShareStreak => TagEntry("msg-param-should-share-streak", "msgParamShouldShareStreak", BooleanNumberKind)
    case MsgParamStreakMonths => TagEntry("msg-param-streak-months", "msgParamStreakMonths", NumberKind)
    case MsgParamSubPlanName => TagEntry("msg-param-sub-plan-name", "msgParamSubPlanName", StringKind)
    case MsgParamSubPlan => TagEntry("msg-param-sub-plan", "msgParamSubPlan", StringKind)
    case MsgParamThreshold => TagEntry("msg-param-threshold", "msgParamThreshold", NumberKind)
    case MsgParamValue => TagEntry("msg-param-value", "msgParamValue", NumberKind)
    case MsgParamViewerCount => TagEntry("msg-param-viewerCount", "msgParamViewerCount", NumberKind)
    case MsgParamWasGifted => TagEntry("msg-param-was-gifted", "msgParamWasGifted", LiteralBooleanKind)
    case PinnedChatPaidAmount => TagEntry("pinned-chat-paid-amount", "pinnedChatPaidAmount", NumberKind)
    case PinnedChatPaidCanonicalAmount => TagEntry("pinned-chat-paid-canonical-amount", "pinnedChatPaidCanonicalAmount", NumberKind)
    case PinnedChatPaidCurrency => TagEntry("pinned-chat-paid-currency", "pinnedChatPaidCurrency", StringKind)
    case PinnedChatPaidExponent => TagEntry("pinned-chat-paid-exponent", "pinnedChatPaidExponent", NumberKind)
    case PinnedChatPaidLevel => TagEntry("pinned-chat-paid-level", "pinnedChatPaidLevel", StringKind)
    case PinnedChatPaidIsSystemMessage => TagEntry("pinned-chat-paid-is-system-message", "pinnedChatPaidIsSystemMessage", BooleanNumberKind)
    case R9k => TagEntry("r9k", "r9k", BooleanNumberKind)
    case ReplyParentDisplayName => TagEntry("reply-parent-display-name", "replyParentDisplayName", StringKind)
    case ReplyParentMsgBody => TagEntry("reply-parent-msg-body", "replyParentMsgBody", StringKind)
    case ReplyParentMsgId => TagEntry("reply-parent-msg-id", "replyParentMsgId", StringKind)
    case ReplyParentUserId => TagEntry("reply-parent-user-id", "replyParentUserId", StringKind)
    case ReplyParentUserLogin => TagEntry("reply-parent-user-login", "replyParentUserLogin", StringKind)
    case ReplyThreadParentDisplayName => TagEntry("reply-thread-parent-display-name", "replyThreadParentDisplayName", StringKind)
    case ReplyThreadParentMsgId => TagEntry("reply-thread-parent-msg-id", "replyThreadParentMsgId", StringKind)
    case ReplyThreadParentUserId => TagEntry("reply-thread-parent-user-id", "replyThreadParentUserId", StringKind)
    case ReplyThreadParentUserLogin => TagEntry("reply-thread-parent-user-login", "replyThreadParentUserLogin", StringKind)
    case ReturningChatter => TagEntry("returning-chatter", "returningChatter", BooleanNumberKind)
    case RoomId => TagEntry("room-id", "roomId", StringKind)
    case Slow => TagEntry("slow", "slow", SlowKind)
    case SubsOnly => TagEntry("subs-only", "subsOnly", BooleanNumberKind)
    case Subscriber => TagEntry("subscriber", "subscriber", BooleanNumberKind)
    case SystemMsg => TagEntry("system-msg", "systemMsg", StringKind)
    case TargetMsgId => TagEntry("target-msg-id", "targetMsgId", StringKind)
    case TargetUserId => TagEntry("target-user-id", "targetUserId", StringKind)
    case ThreadId => TagEntry("thread-id", "threadId", ThreadIdKind)
    case TmiSentTs => TagEntry("tmi-sent-ts", "tmiSentTs", NumberKind)
    case Turbo => TagEntry("turbo", "turbo", BooleanNumberKind)
    case UserId => TagEntry("user-id", "userId", StringKind)
    case UserType => TagEntry("user-type", "userType", StringKind)
    case Vip => TagEntry("vip", "vip", BooleanNumberKind)
  }

  /** The entry's key as it appears in the `@key=value;...` section of a line. */
  function WireKey(t: KnownTag): string {
    Entry(t).key
  }

  /** The field the entry's decoded value is stored under. */
  function FieldName(t: KnownTag): string {
    Entry(t).name
  }

  /** The decoder the table assigns to the entry. */
  function KindOf(t: KnownTag): TagKind {
    Entry(t).kind
  }

  /** The table lookup by wire key, `None` for a key the table does not list (the keys are dispatched on their length first). */
  function TagOfKey(key: string): Option<KnownTag> {
    match |key|
    case 2 =>
      (match key
      case "id" => Some(Id)
      case _ => None)
    case 3 =>
      (match key
      case "mod" => Some(Mod)
      case "r9k" => Some(R9k)
      case "vip" => Some(Vip)
      case _ => None)
    case 4 =>
      (match key
      case "bits" => Some(Bits)
      case "slow" => Some(Slow)
      case _ => None)
    case 5 =>
      (match key
      case "color" => Some(Color)
      case "flags" => Some(Flags)
      case "login" => Some(Login)
      case "turbo" => Some(Turbo)
      case _ => None)
    case 6 =>
      (match key
      case "badges" => Some(Badges)
      case "emotes" => Some(Emotes)
      case "msg-id" => Some(MsgId)
      case _ => None)
    case 7 =>
      (match key
      case "room-id" => Some(RoomId)
      case "user-id" => Some(UserId)
      case _ => None)
    case 9 =>
      (match key
      case "first-msg" => Some(FirstMsg)
      case "subs-only" => Some(SubsOnly)
      case "thread-id" => Some(ThreadId)
      case "user-type" => Some(UserType)
      case _ => None)
    case 10 =>
      (match key
      case "badge-info" => Some(BadgeInfo)
      case "emote-only" => Some(EmoteOnly)
      case "emote-sets" => Some(EmoteSets)
      case "message-id" => Some(MessageId)
      case "subscriber" => Some(Subscriber)
      case "system-msg" => Some(SystemMsg)
      case _ => None)
    case 11 =>
      (match key
      case "tmi-sent-ts" => Some(TmiSentTs)
      case _ => None)
    case 12 =>
      (match key
      case "ban-duration" => Some(BanDuration)
      case "client-nonce" => Some(ClientNonce)
      case "display-name" => Some(DisplayName)
      case "msg-param-id" => Some(MsgParamId)
      case _ => None)
    case 13 =>
      (match key
      case "target-msg-id" => Some(TargetMsgId)
      case _ => None)
    case 14 =>
      (match key
      case "followers-only" => Some(FollowersOnly)
      case "target-user-id" => Some(TargetUserId)
      case _ => None)
    case 15 =>
      (match key
      case "msg-param-color" => Some(MsgParamColor)
      case "msg-param-login" => Some(MsgParamLogin)
      case "msg-param-value" => Some(MsgParamValue)
      case _ => None)
    case 16 =>
      (match key
      case "custom-reward-id" => Some(CustomRewardId)
      case "msg-param-months" => Some(MsgParamMonths)
      case _ => None)
    case 17 =>
      (match key
      case "returning-chatter" => Some(ReturningChatter)
      case _ => None)
    case 18 =>
      (match key
      case "msg-param-category" => Some(MsgParamCategory)
      case "msg-param-sub-plan" => Some(MsgParamSubPlan)
      case _ => None)
    case 19 =>
      (match key
      case "msg-param-anon-gift" => Some(MsgParamAnonGift)
      case "msg-param-gifter-id" => Some(MsgParamGifterId)
      case "msg-param-origin-id" => Some(MsgParamOriginId)
      case "msg-param-threshold" => Some(MsgParamThreshold)
      case "reply-parent-msg-id" => Some(ReplyParentMsgId)
      case _ => None)
    case 20 =>
      (match key
      case "msg-param-copoReward" => Some(MsgParamCopoReward)
      case "msg-param-fun-string" => Some(MsgParamFunString)
      case "msg-param-gift-theme" => Some(MsgParamGiftTheme)
      case "msg-param-was-gifted" => Some(MsgParamWasGifted)
      case "reply-parent-user-id" => Some(ReplyParentUserId)
      case _ => None)
    case 21 =>
      (match key
      case "msg-param-displayName" => Some(MsgParamDisplayName)
      case "msg-param-gift-months" => Some(MsgParamGiftMonths)
      case "msg-param-gifter-name" => Some(MsgParamGifterName)
      case "msg-param-sender-name" => Some(MsgParamSenderName)
      case "msg-param-viewerCount" => Some(MsgParamViewerCount)
      case "reply-parent-msg-body" => Some(ReplyParentMsgBody)
      case _ => None)
    case 22 =>
      (match key
      case "msg-param-gifter-login" => Some(MsgParamGifterLogin)
      case "msg-param-recipient-id" => Some(MsgParamRecipientId)
      case "msg-param-sender-count" => Some(MsgParamSenderCount)
      case "msg-param-sender-login" => Some(MsgParamSenderLogin)
      case "pinned-chat-paid-level" => Some(PinnedChatPaidLevel)
      case _ => None)
    case 23 =>
      (match key
      case "msg-param-streak-months" => Some(MsgParamStreakMonths)
      case "msg-param-sub-plan-name" => Some(MsgParamSubPlanName)
      case "pinned-chat-paid-amount" => Some(PinnedChatPaidAmount)
      case "reply-parent-user-login" => Some(ReplyParentUserLogin)
      case _ => None)
    case 25 =>
      (match key
      case "msg-param-mass-gift-count" => Some(MsgParamMassGiftCount)
      case "msg-param-prior-gifter-id" => Some(MsgParamPriorGifterId)
      case "msg-param-profileImageURL" => Some(MsgParamProfileImageUrl)
      case "pinned-chat-paid-currency" => Some(PinnedChatPaidCurrency)
      case "pinned-chat-paid-exponent" => Some(PinnedChatPaidExponent)
      case "reply-parent-display-name" => Some(ReplyParentDisplayName)
      case _ => None)
    case 26 =>
      (match key
      case "msg-param-goal-description" => Some(MsgParamGoalDescription)
      case "reply-thread-parent-msg-id" => Some(ReplyThreadParentMsgId)
      case _ => None)
    case 27 =>
      (match key
      case "msg-param-community-gift-id" => Some(MsgParamCommunityGiftId)
      case "msg-param-cumulative-months" => Some(MsgParamCumulativeMonths)
      case "msg-param-multimonth-tenure" => Some(MsgParamMultimonthTenure)
      case "reply-thread-parent-user-id" => Some(ReplyThreadParentUserId)
      case _ => None)
    case 29 =>
      (match key
      case "msg-param-multimonth-duration" => Some(MsgParamMultimonthDuration)
      case "msg-param-recipient-user-name" => Some(MsgParamRecipientUserName)
      case "msg-param-should-share-streak" => Some(MsgParamShouldShareStreak)
      case _ => None)
    case 30 =>
      (match key
      case "reply-thread-parent-user-login" => Some(ReplyThreadParentUserLogin)
      case _ => None)
    case 32 =>
      (match key
      case "msg-param-goal-contribution-type" => Some(MsgParamGoalContributionType)
      case "msg-param-prior-gifter-anonymous" => Some(MsgParamPriorGifterAnonymous)
      case "msg-param-prior-gifter-user-name" => Some(MsgParamPriorGifterUserName)
      case "msg-param-recipient-display-name" => Some(MsgParamRecipientDisplayName)
      case "reply-thread-parent-display-name" => Some(ReplyThreadParentDisplayName)
      case _ => None)
    case 33 =>
      (match key
      case "msg-param-goal-user-contributions" => Some(MsgParamGoalUserContributions)
      case "pinned-chat-paid-canonical-amount" => Some(PinnedChatPaidCanonicalAmount)
      case _ => None)
    case 34 =>
      (match key
      case "pinned-chat-paid-is-system-message" => Some(PinnedChatPaidIsSystemMessage)
      case _ => None)
    case 35 =>
      (match key
      case "msg-param-gift-month-being-redeemed" => Some(MsgParamGiftMonthBeingRedeemed)
      case "msg-param-goal-target-contributions" => Some(MsgParamGoalTargetContributions)
      case "msg-param-prior-gifter-display-name" => Some(MsgParamPriorGifterDisplayName)
      case _ => None)
    case 36 =>
      (match key
      case "msg-param-goal-current-contributions" => Some(MsgParamGoalCurrentContributions)
      case _ => None)
    case _ => None
  }

  /** The entry for a wire key: its field name and decoder. */
  function TagTable(key: string): (r: Option<(string, TagKind)>)
    ensures r.Some? <==> TagOfKey(key).Some?
  {
    match TagOfKey(key)
    case Some(t) => Some((FieldName(t), KindOf(t)))
    case None => None
  }
}
