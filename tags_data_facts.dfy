/**
 * Facts about the tag table, proved a few entries at a time because every step compares
 * string literals: each entry's wire key and field name look up that entry, so no two entries
 * share a key or a field.
 */
module TagsDataFacts {
  import opened Wrappers
  import opened TagsData

  /** The lookup by field name, used to show that no two entries share a field. */
  function TagOfName(name: string): Option<KnownTag> {
    match |name|
    case 2 =>
      (match name
      case "id" => Some(Id)
      case _ => None)
    case 3 =>
      (match name
      case "mod" => Some(Mod)
      case "r9k" => Some(R9k)
      case "vip" => Some(Vip)
      case _ => None)
    case 4 =>
      (match name
      case "bits" => Some(Bits)
      case "slow" => Some(Slow)
      case _ => None)
    case 5 =>
      (match name
      case "color" => Some(Color)
      case "flags" => Some(Flags)
      case "login" => Some(Login)
      case "msgId" => Some(MsgId)
      case "turbo" => Some(Turbo)
      case _ => None)
    case 6 =>
      (match name
      case "badges" => Some(Badges)
      case "emotes" => Some(Emotes)
      case "roomId" => Some(RoomId)
      case "userId" => Some(UserId)
      case _ => None)
    case 8 =>
      (match name
      case "firstMsg" => Some(FirstMsg)
      case "subsOnly" => Some(SubsOnly)
      case "threadId" => Some(ThreadId)
      case "userType" => Some(UserType)
      case _ => None)
    case 9 =>
      (match name
      case "badgeInfo" => Some(BadgeInfo)
      case "emoteOnly" => Some(EmoteOnly)
      case "emoteSets" => Some(EmoteSets)
      case "messageId" => Some(MessageId)
      case "systemMsg" => Some(SystemMsg)
      case "tmiSentTs" => Some(TmiSentTs)
      case _ => None)
    case 10 =>
      (match name
      case "msgParamId" => Some(MsgParamId)
      case "subscriber" => Some(Subscriber)
      case _ => None)
    case 11 =>
      (match name
      case "banDuration" => Some(BanDuration)
      case "clientNonce" => Some(ClientNonce)
      case "displayName" => Some(DisplayName)
      case "targetMsgId" => Some(TargetMsgId)
      case _ => None)
    case 12 =>
      (match name
      case "targetUserId" => Some(TargetUserId)
      case _ => None)
    case 13 =>
      (match name
      case "followersOnly" => Some(FollowersOnly)
      case "msgParamColor" => Some(MsgParamColor)
      case "msgParamLogin" => Some(MsgParamLogin)
      case "msgParamValue" => Some(MsgParamValue)
      case _ => None)
    case 14 =>
      (match name
      case "customRewardId" => Some(CustomRewardId)
      case "msgParamMonths" => Some(MsgParamMonths)
      case _ => None)
    case 15 =>
      (match name
      case "msgParamSubPlan" => Some(MsgParamSubPlan)
      case _ => None)
    case 16 =>
      (match name
      case "msgParamAnonGift" => Some(MsgParamAnonGift)
      case "msgParamCategory" => Some(MsgParamCategory)
      case "msgParamGifterId" => Some(MsgParamGifterId)
      case "msgParamOriginId" => Some(MsgParamOriginId)
      case "replyParentMsgId" => Some(ReplyParentMsgId)
      case "returningChatter" => Some(ReturningChatter)
      case _ => None)
    case 17 =>
      (match name
      case "msgParamFunString" => Some(MsgParamFunString)
      case "msgParamGiftTheme" => Some(MsgParamGiftTheme)
      case "msgParamThreshold" => Some(MsgParamThreshold)
      case "msgParamWasGifted" => Some(MsgParamWasGifted)
      case "replyParentUserId" => Some(ReplyParentUserId)
      case _ => None)
    case 18 =>
      (match name
      case "msgParamCopoReward" => Some(MsgParamCopoReward)
      case "msgParamGiftMonths" => Some(MsgParamGiftMonths)
      case "msgParamGifterName" => Some(MsgParamGifterName)
      case "msgParamSenderName" => Some(MsgParamSenderName)
      case "replyParentMsgBody" => Some(ReplyParentMsgBody)
      case _ => None)
    case 19 =>
      (match name
      case "msgParamDisplayName" => Some(MsgParamDisplayName)
      case "msgParamGifterLogin" => Some(MsgParamGifterLogin)
      case "msgParamRecipientId" => Some(MsgParamRecipientId)
      case "msgParamSenderCount" => Some(MsgParamSenderCount)
      case "msgParamSenderLogin" => Some(MsgParamSenderLogin)
      case "msgParamSubPlanName" => Some(MsgParamSubPlanName)
      case "msgParamViewerCount" => Some(MsgParamViewerCount)
      case "pinnedChatPaidLevel" => Some(PinnedChatPaidLevel)
      case _ => None)
    case 20 =>
      (match name
      case "msgParamStreakMonths" => Some(MsgParamStreakMonths)
      case "pinnedChatPaidAmount" => Some(PinnedChatPaidAmount)
      case "replyParentUserLogin" => Some(ReplyParentUserLogin)
      case _ => None)
    case 21 =>
      (match name
      case "msgParamMassGiftCount" => Some(MsgParamMassGiftCount)
      case "msgParamPriorGifterId" => Some(MsgParamPriorGifterId)
      case _ => None)
    case 22 =>
      (match name
      case "pinnedChatPaidCurrency" => Some(PinnedChatPaidCurrency)
      case "pinnedChatPaidExponent" => Some(PinnedChatPaidExponent)
      case "replyParentDisplayName" => Some(ReplyParentDisplayName)
      case "replyThreadParentMsgId" => Some(ReplyThreadParentMsgId)
      case _ => None)
    case 23 =>
      (match name
      case "msgParamCommunityGiftId" => Some(MsgParamCommunityGiftId)
      case "msgParamGoalDescription" => Some(MsgParamGoalDescription)
      case "msgParamProfileImageUrl" => Some(MsgParamProfileImageUrl)
      case "replyThreadParentUserId" => Some(ReplyThreadParentUserId)
      case _ => None)
    case 24 =>
      (match name
      case "msgParamCumulativeMonths" => Some(MsgParamCumulativeMonths)
      case "msgParamMultimonthTenure" => Some(MsgParamMultimonthTenure)
      case _ => None)
    case 25 =>
      (match name
      case "msgParamRecipientUserName" => Some(MsgParamRecipientUserName)
      case "msgParamShouldShareStreak" => Some(MsgParamShouldShareStreak)
      case _ => None)
    case 26 =>
      (match name
      case "msgParamMultimonthDuration" => Some(MsgParamMultimonthDuration)
      case "replyThreadParentUserLogin" => Some(ReplyThreadParentUserLogin)
      case _ => None)
    case 27 =>
      (match name
      case "msgParamPriorGifterUserName" => Some(MsgParamPriorGifterUserName)
      case _ => None)
    case 28 =>
      (match name
      case "msgParamGoalContributionType" => Some(MsgParamGoalContributionType)
      case "msgParamPriorGifterAnonymous" => Some(MsgParamPriorGifterAnonymous)
      case "msgParamRecipientDisplayName" => Some(MsgParamRecipientDisplayName)
      case "replyThreadParentDisplayName" => Some(ReplyThreadParentDisplayName)
      case _ => None)
    case 29 =>
      (match name
      case "msgParamGoalUserContributions" => Some(MsgParamGoalUserContributions)
      case "pinnedChatPaidCanonicalAmount" => Some(PinnedChatPaidCanonicalAmount)
      case "pinnedChatPaidIsSystemMessage" => Some(PinnedChatPaidIsSystemMessage)
      case _ => None)
    case 30 =>
      (match name
      case "msgParamGiftMonthBeingRedeemed" => Some(MsgParamGiftMonthBeingRedeemed)
      case "msgParamPriorGifterDisplayName" => Some(MsgParamPriorGifterDisplayName)
      case _ => None)
    case 31 =>
      (match name
      case "msgParamGoalTargetContributions" => Some(MsgParamGoalTargetContributions)
      case _ => None)
    case 32 =>
      (match name
      case "msgParamGoalCurrentContributions" => Some(MsgParamGoalCurrentContributions)
      case _ => None)
    case _ => None
  }

  /** Which slice of four entries an entry falls in. */
  function ProofGroup(t: KnownTag): nat {
    match t
    case BadgeInfo => 0
    case Badges => 0
    case BanDuration => 0
    case Bits => 0
    case ClientNonce => 1
    case Color => 1
    case CustomRewardId => 1
    case DisplayName => 1
    case EmoteOnly => 2
    case EmoteSets => 2
    case Emotes => 2
    case FirstMsg => 2
    case Flags => 3
    case FollowersOnly => 3
    case Id => 3
    case Login => 3
    case MessageId => 4
    case Mod => 4
    case MsgId => 4
    case MsgParamAnonGift => 4
    case MsgParamCategory => 5
    case MsgParamColor => 5
    case MsgParamCommunityGiftId => 5
    case MsgParamCopoReward => 5
    case MsgParamCumulativeMonths => 6
    case MsgParamDisplayName => 6
    case MsgParamFunString => 6
    case MsgParamGiftMonthBeingRedeemed => 6
    case MsgParamGiftMonths => 7
    case MsgParamGiftTheme => 7
    case MsgParamGifterId => 7
    case MsgParamGifterLogin => 7
    case MsgParamGifterName => 8
    case MsgParamGoalContributionType => 8
    case MsgParamGoalCurrentContributions => 8
    case MsgParamGoalDescription => 8
    case MsgParamGoalTargetContributions => 9
    case MsgParamGoalUserContributions => 9
    case MsgParamId => 9
    case MsgParamLogin => 9
    case MsgParamMassGiftCount => 10
    case MsgParamMonths => 10
    case MsgParamMultimonthDuration => 10
    case MsgParamMultimonthTenure => 10
    case MsgParamOriginId => 11
    case MsgParamPriorGifterAnonymous => 11
    case MsgParamPriorGifterDisplayName => 11
    case MsgParamPriorGifterId => 11
    case MsgParamPriorGifterUserName => 12
    case MsgParamProfileImageUrl => 12
    case MsgParamRecipientDisplayName => 12
    case MsgParamRecipientId => 12
    case MsgParamRecipientUserName => 13
    case MsgParamSenderCount => 13
    case MsgParamSenderLogin => 13
    case MsgParamSenderName => 13
    case MsgParamShouldShareStreak => 14
    case MsgParamStreakMonths => 14
    case MsgParamSubPlanName => 14
    case MsgParamSubPlan => 14
    case MsgParamThreshold => 15
    case MsgParamValue => 15
    case MsgParamViewerCount => 15
    case MsgParamWasGifted => 15
    case PinnedChatPaidAmount => 16
    case PinnedChatPaidCanonicalAmount => 16
    case PinnedChatPaidCurrency => 16
    case PinnedChatPaidExponent => 16
    case PinnedChatPaidLevel => 17
    case PinnedChatPaidIsSystemMessage => 17
    case R9k => 17
    case ReplyParentDisplayName => 17
    case ReplyParentMsgBody => 18
    case ReplyParentMsgId => 18
    case ReplyParentUserId => 18
    case ReplyParentUserLogin => 18
    case ReplyThreadParentDisplayName => 19
    case ReplyThreadParentMsgId => 19
    case ReplyThreadParentUserId => 19
    case ReplyThreadParentUserLogin => 19
    case ReturningChatter => 20
    case RoomId => 20
    case Slow => 20
    case SubsOnly => 20
    case Subscriber => 21
    case SystemMsg => 21
    case TargetMsgId => 21
    case TargetUserId => 21
    case ThreadId => 22
    case TmiSentTs => 22
    case Turbo => 22
    case UserId => 22
    case UserType => 23
    case Vip => 23
  }

  lemma KeyLookupInverse0(t: KnownTag)
    requires ProofGroup(t) == 0
    ensures TagOfKey(WireKey(t)) == Some(t)
  {
    KeyFacts0();
    match t
    case BadgeInfo =>
    case Badges =>
    case BanDuration =>
    case Bits =>
    case _ => assert false;
  }

  lemma KeyFacts0()
    ensures TagOfKey("badge-info") == Some(BadgeInfo)
    ensures TagOfKey("badges") == Some(Badges)
    ensures TagOfKey("ban-duration") == Some(BanDuration)
    ensures TagOfKey("bits") == Some(Bits)
  {
  }

  lemma KeyLookupInverse1(t: KnownTag)
    requires ProofGroup(t) == 1
    ensures TagOfKey(WireKey(t)) == Some(t)
  {
    KeyFacts1();
    match t
    case ClientNonce =>
    case Color =>
    case CustomRewardId =>
    case DisplayName =>
    case _ => assert false;
  }

  lemma KeyFacts1()
    ensures TagOfKey("client-nonce") == Some(ClientNonce)
    ensures TagOfKey("color") == Some(Color)
    ensures TagOfKey("custom-reward-id") == Some(CustomRewardId)
    ensures TagOfKey("display-name") == Some(DisplayName)
  {
  }

  lemma KeyLookupInverse2(t: KnownTag)
    requires ProofGroup(t) == 2
    ensures TagOfKey(WireKey(t)) == Some(t)
  {
    KeyFacts2();
    match t
    case EmoteOnly =>
    case EmoteSets =>
    case Emotes =>
    case FirstMsg =>
    case _ => assert false;
  }

  lemma KeyFacts2()
    ensures TagOfKey("emote-only") == Some(EmoteOnly)
    ensures TagOfKey("emote-sets") == Some(EmoteSets)
    ensures TagOfKey("emotes") == Some(Emotes)
    ensures TagOfKey("first-msg") == Some(FirstMsg)
  {
  }

  lemma KeyLookupInverse3(t: KnownTag)
    requires ProofGroup(t) == 3
    ensures TagOfKey(WireKey(t)) == Some(t)
  {
    KeyFacts3();
    match t
    case Flags =>
    case FollowersOnly =>
    case Id =>
    case Login =>
    case _ => assert false;
  }

  lemma KeyFacts3()
    ensures TagOfKey("flags") == Some(Flags)
    ensures TagOfKey("followers-only") == Some(FollowersOnly)
    ensures TagOfKey("id") == Some(Id)
    ensures TagOfKey("login") == Some(Login)
  {
  }

  lemma KeyLookupInverse4(t: KnownTag)
    requires ProofGroup(t) == 4
    ensures TagOfKey(WireKey(t)) == Some(t)
  {
    KeyFacts4();
    match t
    case MessageId =>
    case Mod =>
    case MsgId =>
    case MsgParamAnonGift =>
    case _ => assert false;
  }

  lemma KeyFacts4()
    ensures TagOfKey("message-id") == Some(MessageId)
    ensures TagOfKey("mod") == Some(Mod)
    ensures TagOfKey("msg-id") == Some(MsgId)
    ensures TagOfKey("msg-param-anon-gift") == Some(MsgParamAnonGift)
  {
  }

  lemma KeyLookupInverse5(t: KnownTag)
    requires ProofGroup(t) == 5
    ensures TagOfKey(WireKey(t)) == Some(t)
  {
    KeyFacts5();
    match t
    case MsgParamCategory =>
    case MsgParamColor =>
    case MsgParamCommunityGiftId =>
    case MsgParamCopoReward =>
    case _ => assert false;
  }

  lemma KeyFacts5()
    ensures TagOfKey("msg-param-category") == Some(MsgParamCategory)
    ensures TagOfKey("msg-param-color") == Some(MsgParamColor)
    ensures TagOfKey("msg-param-community-gift-id") == Some(MsgParamCommunityGiftId)
    ensures TagOfKey("msg-param-copoReward") == Some(MsgParamCopoReward)
  {
  }

  lemma KeyLookupInverse6(t: KnownTag)
    requires ProofGroup(t) == 6
    ensures TagOfKey(WireKey(t)) == Some(t)
  {
    KeyFacts6();
    match t
    case MsgParamCumulativeMonths =>
    case MsgParamDisplayName =>
    case MsgParamFunString =>
    case MsgParamGiftMonthBeingRedeemed =>
    case _ => assert false;
  }

  lemma KeyFacts6()
    ensures TagOfKey("msg-param-cumulative-months") == Some(MsgParamCumulativeMonths)
    ensures TagOfKey("msg-param-displayName") == Some(MsgParamDisplayName)
    ensures TagOfKey("msg-param-fun-string") == Some(MsgParamFunString)
    ensures TagOfKey("msg-param-gift-month-being-redeemed") == Some(MsgParamGiftMonthBeingRedeemed)
  {
  }

  lemma KeyLookupInverse7(t: KnownTag)
    requires ProofGroup(t) == 7
    ensures TagOfKey(WireKey(t)) == Some(t)
  {
    KeyFacts7();
    match t
    case MsgParamGiftMonths =>
    case MsgParamGiftTheme =>
    case MsgParamGifterId =>
    case MsgParamGifterLogin =>
    case _ => assert false;
  }

  lemma KeyFacts7()
    ensures TagOfKey("msg-param-gift-months") == Some(MsgParamGiftMonths)
    ensures TagOfKey("msg-param-gift-theme") == Some(MsgParamGiftTheme)
    ensures TagOfKey("msg-param-gifter-id") == Some(MsgParamGifterId)
    ensures TagOfKey("msg-param-gifter-login") == Some(MsgParamGifterLogin)
  {
  }

  lemma KeyLookupInverse8(t: KnownTag)
    requires ProofGroup(t) == 8
    ensures TagOfKey(WireKey(t)) == Some(t)
  {
    KeyFacts8();
    match t
    case MsgParamGifterName =>
    case MsgParamGoalContributionType =>
    case MsgParamGoalCurrentContributions =>
    case MsgParamGoalDescription =>
    case _ => assert false;
  }

  lemma KeyFacts8()
    ensures TagOfKey("msg-param-gifter-name") == Some(MsgParamGifterName)
    ensures TagOfKey("msg-param-goal-contribution-type") == Some(MsgParamGoalContributionType)
    ensures TagOfKey("msg-param-goal-current-contributions") == Some(MsgParamGoalCurrentContributions)
    ensures TagOfKey("msg-param-goal-description") == Some(MsgParamGoalDescription)
  {
  }

  lemma KeyLookupInverse9(t: KnownTag)
    requires ProofGroup(t) == 9
    ensures TagOfKey(WireKey(t)) == Some(t)
  {
    KeyFacts9();
    match t
    case MsgParamGoalTargetContributions =>
    case MsgParamGoalUserContributions =>
    case MsgParamId =>
    case MsgParamLogin =>
    case _ => assert false;
  }

  lemma KeyFacts9()
    ensures TagOfKey("msg-param-goal-target-contributions") == Some(MsgParamGoalTargetContributions)
    ensures TagOfKey("msg-param-goal-user-contributions") == Some(MsgParamGoalUserContributions)
    ensures TagOfKey("msg-param-id") == Some(MsgParamId)
    ensures TagOfKey("msg-param-login") == Some(MsgParamLogin)
  {
  }

  lemma KeyLookupInverse10(t: KnownTag)
    requires ProofGroup(t) == 10
    ensures TagOfKey(WireKey(t)) == Some(t)
  {
    KeyFacts10();
    match t
    case MsgParamMassGiftCount =>
    case MsgParamMonths =>
    case MsgParamMultimonthDuration =>
    case MsgParamMultimonthTenure =>
    case _ => assert false;
  }

  lemma KeyFacts10()
    ensures TagOfKey("msg-param-mass-gift-count") == Some(MsgParamMassGiftCount)
    ensures TagOfKey("msg-param-months") == Some(MsgParamMonths)
    ensures TagOfKey("msg-param-multimonth-duration") == Some(MsgParamMultimonthDuration)
    ensures TagOfKey("msg-param-multimonth-tenure") == Some(MsgParamMultimonthTenure)
  {
  }

  lemma KeyLookupInverse11(t: KnownTag)
    requires ProofGroup(t) == 11
    ensures TagOfKey(WireKey(t)) == Some(t)
  {
    KeyFacts11();
    match t
    case MsgParamOriginId =>
    case MsgParamPriorGifterAnonymous =>
    case MsgParamPriorGifterDisplayName =>
    case MsgParamPriorGifterId =>
    case _ => assert false;
  }

  lemma KeyFacts11()
    ensures TagOfKey("msg-param-origin-id") == Some(MsgParamOriginId)
    ensures TagOfKey("msg-param-prior-gifter-anonymous") == Some(MsgParamPriorGifterAnonymous)
    ensures TagOfKey("msg-param-prior-gifter-display-name") == Some(MsgParamPriorGifterDisplayName)
    ensures TagOfKey("msg-param-prior-gifter-id") == Some(MsgParamPriorGifterId)
  {
  }

  lemma KeyLookupInverse12(t: KnownTag)
    requires ProofGroup(t) == 12
    ensures TagOfKey(WireKey(t)) == Some(t)
  {
    KeyFacts12();
    match t
    case MsgParamPriorGifterUserName =>
    case MsgParamProfileImageUrl =>
    case MsgParamRecipientDisplayName =>
    case MsgParamRecipientId =>
    case _ => assert false;
  }

  lemma KeyFacts12()
    ensures TagOfKey("msg-param-prior-gifter-user-name") == Some(MsgParamPriorGifterUserName)
    ensures TagOfKey("msg-param-profileImageURL") == Some(MsgParamProfileImageUrl)
    ensures TagOfKey("msg-param-recipient-display-name") == Some(MsgParamRecipientDisplayName)
    ensures TagOfKey("msg-param-recipient-id") == Some(MsgParamRecipientId)
  {
  }

  lemma KeyLookupInverse13(t: KnownTag)
    requires ProofGroup(t) == 13
    ensures TagOfKey(WireKey(t)) == Some(t)
  {
    KeyFacts13();
    match t
    case MsgParamRecipientUserName =>
    case MsgParamSenderCount =>
    case MsgParamSenderLogin =>
    case MsgParamSenderName =>
    case _ => assert false;
  }

  lemma KeyFacts13()
    ensures TagOfKey("msg-param-recipient-user-name") == Some(MsgParamRecipientUserName)
    ensures TagOfKey("msg-param-sender-count") == Some(MsgParamSenderCount)
    ensures TagOfKey("msg-param-sender-login") == Some(MsgParamSenderLogin)
    ensures TagOfKey("msg-param-sender-name") == Some(MsgParamSenderName)
  {
  }

  lemma KeyLookupInverse14(t: KnownTag)
    requires ProofGroup(t) == 14
    ensures TagOfKey(WireKey(t)) == Some(t)
  {
    KeyFacts14();
    match t
    case MsgParamShouldShareStreak =>
    case MsgParamStreakMonths =>
    case MsgParamSubPlanName =>
    case MsgParamSubPlan =>
    case _ => assert false;
  }

  lemma KeyFacts14()
    ensures TagOfKey("msg-param-should-share-streak") == Some(MsgParamShouldShareStreak)
    ensures TagOfKey("msg-param-streak-months") == Some(MsgParamStreakMonths)
    ensures TagOfKey("msg-param-sub-plan-name") == Some(MsgParamSubPlanName)
    ensures TagOfKey("msg-param-sub-plan") == Some(MsgParamSubPlan)
  {
  }

  lemma KeyLookupInverse15(t: KnownTag)
    requires ProofGroup(t) == 15
    ensures TagOfKey(WireKey(t)) == Some(t)
  {
    KeyFacts15();
    match t
    case MsgParamThreshold =>
    case MsgParamValue =>
    case MsgParamViewerCount =>
    case MsgParamWasGifted =>
    case _ => assert false;
  }

  lemma KeyFacts15()
    ensures TagOfKey("msg-param-threshold") == Some(MsgParamThreshold)
    ensures TagOfKey("msg-param-value") == Some(MsgParamValue)
    ensures TagOfKey("msg-param-viewerCount") == Some(MsgParamViewerCount)
    ensures TagOfKey("msg-param-was-gifted") == Some(MsgParamWasGifted)
  {
  }

  lemma KeyLookupInverse16(t: KnownTag)
    requires ProofGroup(t) == 16
    ensures TagOfKey(WireKey(t)) == Some(t)
  {
    KeyFacts16();
    match t
    case PinnedChatPaidAmount =>
    case PinnedChatPaidCanonicalAmount =>
    case PinnedChatPaidCurrency =>
    case PinnedChatPaidExponent =>
    case _ => assert false;
  }

  lemma KeyFacts16()
    ensures TagOfKey("pinned-chat-paid-amount") == Some(PinnedChatPaidAmount)
    ensures TagOfKey("pinned-chat-paid-canonical-amount") == Some(PinnedChatPaidCanonicalAmount)
    ensures TagOfKey("pinned-chat-paid-currency") == Some(PinnedChatPaidCurrency)
    ensures TagOfKey("pinned-chat-paid-exponent") == Some(PinnedChatPaidExponent)
  {
  }

  lemma KeyLookupInverse17(t: KnownTag)
    requires ProofGroup(t) == 17
    ensures TagOfKey(WireKey(t)) == Some(t)
  {
    KeyFacts17();
    match t
    case PinnedChatPaidLevel =>
    case PinnedChatPaidIsSystemMessage =>
    case R9k =>
    case ReplyParentDisplayName =>
    case _ => assert false;
  }

  lemma KeyFacts17()
    ensures TagOfKey("pinned-chat-paid-level") == Some(PinnedChatPaidLevel)
    ensures TagOfKey("pinned-chat-paid-is-system-message") == Some(PinnedChatPaidIsSystemMessage)
    ensures TagOfKey("r9k") == Some(R9k)
    ensures TagOfKey("reply-parent-display-name") == Some(ReplyParentDisplayName)
  {
  }

  lemma KeyLookupInverse18(t: KnownTag)
    requires ProofGroup(t) == 18
    ensures TagOfKey(WireKey(t)) == Some(t)
  {
    KeyFacts18();
    match t
    case ReplyParentMsgBody =>
    case ReplyParentMsgId =>
    case ReplyParentUserId =>
    case ReplyParentUserLogin =>
    case _ => assert false;
  }

  lemma KeyFacts18()
    ensures TagOfKey("reply-parent-msg-body") == Some(ReplyParentMsgBody)
    ensures TagOfKey("reply-parent-msg-id") == Some(ReplyParentMsgId)
    ensures TagOfKey("reply-parent-user-id") == Some(ReplyParentUserId)
    ensures TagOfKey("reply-parent-user-login") == Some(ReplyParentUserLogin)
  {
  }

  lemma KeyLookupInverse19(t: KnownTag)
    requires ProofGroup(t) == 19
    ensures TagOfKey(WireKey(t)) == Some(t)
  {
    KeyFacts19();
    match t
    case ReplyThreadParentDisplayName =>
    case ReplyThreadParentMsgId =>
    case ReplyThreadParentUserId =>
    case ReplyThreadParentUserLogin =>
    case _ => assert false;
  }

  lemma KeyFacts19()
    ensures TagOfKey("reply-thread-parent-display-name") == Some(ReplyThreadParentDisplayName)
    ensures TagOfKey("reply-thread-parent-msg-id") == Some(ReplyThreadParentMsgId)
    ensures TagOfKey("reply-thread-parent-user-id") == Some(ReplyThreadParentUserId)
    ensures TagOfKey("reply-thread-parent-user-login") == Some(ReplyThreadParentUserLogin)
  {
  }

  lemma KeyLookupInverse20(t: KnownTag)
    requires ProofGroup(t) == 20
    ensures TagOfKey(WireKey(t)) == Some(t)
  {
    KeyFacts20();
    match t
    case ReturningChatter =>
    case RoomId =>
    case Slow =>
    case SubsOnly =>
    case _ => assert false;
  }

  lemma KeyFacts20()
    ensures TagOfKey("returning-chatter") == Some(ReturningChatter)
    ensures TagOfKey("room-id") == Some(RoomId)
    ensures TagOfKey("slow") == Some(Slow)
    ensures TagOfKey("subs-only") == Some(SubsOnly)
  {
  }

  lemma KeyLookupInverse21(t: KnownTag)
    requires ProofGroup(t) == 21
    ensures TagOfKey(WireKey(t)) == Some(t)
  {
    KeyFacts21();
    match t
    case Subscriber =>
    case SystemMsg =>
    case TargetMsgId =>
    case TargetUserId =>
    case _ => assert false;
  }

  lemma KeyFacts21()
    ensures TagOfKey("subscriber") == Some(Subscriber)
    ensures TagOfKey("system-msg") == Some(SystemMsg)
    ensures TagOfKey("target-msg-id") == Some(TargetMsgId)
    ensures TagOfKey("target-user-id") == Some(TargetUserId)
  {
  }

  lemma KeyLookupInverse22(t: KnownTag)
    requires ProofGroup(t) == 22
    ensures TagOfKey(WireKey(t)) == Some(t)
  {
    KeyFacts22();
    match t
    case ThreadId =>
    case TmiSentTs =>
    case Turbo =>
    case UserId =>
    case _ => assert false;
  }

  lemma KeyFacts22()
    ensures TagOfKey("thread-id") == Some(ThreadId)
    ensures TagOfKey("tmi-sent-ts") == Some(TmiSentTs)
    ensures TagOfKey("turbo") == Some(Turbo)
    ensures TagOfKey("user-id") == Some(UserId)
  {
  }

  lemma KeyLookupInverse23(t: KnownTag)
    requires ProofGroup(t) == 23
    ensures TagOfKey(WireKey(t)) == Some(t)
  {
    KeyFacts23();
    match t
    case UserType =>
    case Vip =>
    case _ => assert false;
  }

  lemma KeyFacts23()
    ensures TagOfKey("user-type") == Some(UserType)
    ensures TagOfKey("vip") == Some(Vip)
  {
  }

  lemma NameLookupInverse0(t: KnownTag)
    requires ProofGroup(t) == 0
    ensures TagOfName(FieldName(t)) == Some(t)
  {
    NameFacts0();
    match t
    case BadgeInfo =>
    case Badges =>
    case BanDuration =>
    case Bits =>
    case _ => assert false;
  }

  lemma NameFacts0()
    ensures TagOfName("badgeInfo") == Some(BadgeInfo)
    ensures TagOfName("badges") == Some(Badges)
    ensures TagOfName("banDuration") == Some(BanDuration)
    ensures TagOfName("bits") == Some(Bits)
  {
  }

  lemma NameLookupInverse1(t: KnownTag)
    requires ProofGroup(t) == 1
    ensures TagOfName(FieldName(t)) == Some(t)
  {
    NameFacts1();
    match t
    case ClientNonce =>
    case Color =>
    case CustomRewardId =>
    case DisplayName =>
    case _ => assert false;
  }

  lemma NameFacts1()
    ensures TagOfName("clientNonce") == Some(ClientNonce)
    ensures TagOfName("color") == Some(Color)
    ensures TagOfName("customRewardId") == Some(CustomRewardId)
    ensures TagOfName("displayName") == Some(DisplayName)
  {
  }

  lemma NameLookupInverse2(t: KnownTag)
    requires ProofGroup(t) == 2
    ensures TagOfName(FieldName(t)) == Some(t)
  {
    NameFacts2();
    match t
    case EmoteOnly =>
    case EmoteSets =>
    case Emotes =>
    case FirstMsg =>
    case _ => assert false;
  }

  lemma NameFacts2()
    ensures TagOfName("emoteOnly") == Some(EmoteOnly)
    ensures TagOfName("emoteSets") == Some(EmoteSets)
    ensures TagOfName("emotes") == Some(Emotes)
    ensures TagOfName("firstMsg") == Some(FirstMsg)
  {
  }

  lemma NameLookupInverse3(t: KnownTag)
    requires ProofGroup(t) == 3
    ensures TagOfName(FieldName(t)) == Some(t)
  {
    NameFacts3();
    match t
    case Flags =>
    case FollowersOnly =>
    case Id =>
    case Login =>
    case _ => assert false;
  }

  lemma NameFacts3()
    ensures TagOfName("flags") == Some(Flags)
    ensures TagOfName("followersOnly") == Some(FollowersOnly)
    ensures TagOfName("id") == Some(Id)
    ensures TagOfName("login") == Some(Login)
  {
  }

  lemma NameLookupInverse4(t: KnownTag)
    requires ProofGroup(t) == 4
    ensures TagOfName(FieldName(t)) == Some(t)
  {
    NameFacts4();
    match t
    case MessageId =>
    case Mod =>
    case MsgId =>
    case MsgParamAnonGift =>
    case _ => assert false;
  }

  lemma NameFacts4()
    ensures TagOfName("messageId") == Some(MessageId)
    ensures TagOfName("mod") == Some(Mod)
    ensures TagOfName("msgId") == Some(MsgId)
    ensures TagOfName("msgParamAnonGift") == Some(MsgParamAnonGift)
  {
  }

  lemma NameLookupInverse5(t: KnownTag)
    requires ProofGroup(t) == 5
    ensures TagOfName(FieldName(t)) == Some(t)
  {
    NameFacts5();
    match t
    case MsgParamCategory =>
    case MsgParamColor =>
    case MsgParamCommunityGiftId =>
    case MsgParamCopoReward =>
    case _ => assert false;
  }

  lemma NameFacts5()
    ensures TagOfName("msgParamCategory") == Some(MsgParamCategory)
    ensures TagOfName("msgParamColor") == Some(MsgParamColor)
    ensures TagOfName("msgParamCommunityGiftId") == Some(MsgParamCommunityGiftId)
    ensures TagOfName("msgParamCopoReward") == Some(MsgParamCopoReward)
  {
  }

  lemma NameLookupInverse6(t: KnownTag)
    requires ProofGroup(t) == 6
    ensures TagOfName(FieldName(t)) == Some(t)
  {
    NameFacts6();
    match t
    case MsgParamCumulativeMonths =>
    case MsgParamDisplayName =>
    case MsgParamFunString =>
    case MsgParamGiftMonthBeingRedeemed =>
    case _ => assert false;
  }

  lemma NameFacts6()
    ensures TagOfName("msgParamCumulativeMonths") == Some(MsgParamCumulativeMonths)
    ensures TagOfName("msgParamDisplayName") == Some(MsgParamDisplayName)
    ensures TagOfName("msgParamFunString") == Some(MsgParamFunString)
    ensures TagOfName("msgParamGiftMonthBeingRedeemed") == Some(MsgParamGiftMonthBeingRedeemed)
  {
  }

  lemma NameLookupInverse7(t: KnownTag)
    requires ProofGroup(t) == 7
    ensures TagOfName(FieldName(t)) == Some(t)
  {
    NameFacts7();
    match t
    case MsgParamGiftMonths =>
    case MsgParamGiftTheme =>
    case MsgParamGifterId =>
    case MsgParamGifterLogin =>
    case _ => assert false;
  }

  lemma NameFacts7()
    ensures TagOfName("msgParamGiftMonths") == Some(MsgParamGiftMonths)
    ensures TagOfName("msgParamGiftTheme") == Some(MsgParamGiftTheme)
    ensures TagOfName("msgParamGifterId") == Some(MsgParamGifterId)
    ensures TagOfName("msgParamGifterLogin") == Some(MsgParamGifterLogin)
  {
  }

  lemma NameLookupInverse8(t: KnownTag)
    requires ProofGroup(t) == 8
    ensures TagOfName(FieldName(t)) == Some(t)
  {
    NameFacts8();
    match t
    case MsgParamGifterName =>
    case MsgParamGoalContributionType =>
    case MsgParamGoalCurrentContributions =>
    case MsgParamGoalDescription =>
    case _ => assert false;
  }

  lemma NameFacts8()
    ensures TagOfName("msgParamGifterName") == Some(MsgParamGifterName)
    ensures TagOfName("msgParamGoalContributionType") == Some(MsgParamGoalContributionType)
    ensures TagOfName("msgParamGoalCurrentContributions") == Some(MsgParamGoalCurrentContributions)
    ensures TagOfName("msgParamGoalDescription") == Some(MsgParamGoalDescription)
  {
  }

  lemma NameLookupInverse9(t: KnownTag)
    requires ProofGroup(t) == 9
    ensures TagOfName(FieldName(t)) == Some(t)
  {
    NameFacts9();
    match t
    case MsgParamGoalTargetContributions =>
    case MsgParamGoalUserContributions =>
    case MsgParamId =>
    case MsgParamLogin =>
    case _ => assert false;
  }

  lemma NameFacts9()
    ensures TagOfName("msgParamGoalTargetContributions") == Some(MsgParamGoalTargetContributions)
    ensures TagOfName("msgParamGoalUserContributions") == Some(MsgParamGoalUserContributions)
    ensures TagOfName("msgParamId") == Some(MsgParamId)
    ensures TagOfName("msgParamLogin") == Some(MsgParamLogin)
  {
  }

  lemma NameLookupInverse10(t: KnownTag)
    requires ProofGroup(t) == 10
    ensures TagOfName(FieldName(t)) == Some(t)
  {
    NameFacts10();
    match t
    case MsgParamMassGiftCount =>
    case MsgParamMonths =>
    case MsgParamMultimonthDuration =>
    case MsgParamMultimonthTenure =>
    case _ => assert false;
  }

  lemma NameFacts10()
    ensures TagOfName("msgParamMassGiftCount") == Some(MsgParamMassGiftCount)
    ensures TagOfName("msgParamMonths") == Some(MsgParamMonths)
    ensures TagOfName("msgParamMultimonthDuration") == Some(MsgParamMultimonthDuration)
    ensures TagOfName("msgParamMultimonthTenure") == Some(MsgParamMultimonthTenure)
  {
  }

  lemma NameLookupInverse11(t: KnownTag)
    requires ProofGroup(t) == 11
    ensures TagOfName(FieldName(t)) == Some(t)
  {
    NameFacts11();
    match t
    case MsgParamOriginId =>
    case MsgParamPriorGifterAnonymous =>
    case MsgParamPriorGifterDisplayName =>
    case MsgParamPriorGifterId =>
    case _ => assert false;
  }

  lemma NameFacts11()
    ensures TagOfName("msgParamOriginId") == Some(MsgParamOriginId)
    ensures TagOfName("msgParamPriorGifterAnonymous") == Some(MsgParamPriorGifterAnonymous)
    ensures TagOfName("msgParamPriorGifterDisplayName") == Some(MsgParamPriorGifterDisplayName)
    ensures TagOfName("msgParamPriorGifterId") == Some(MsgParamPriorGifterId)
  {
  }

  lemma NameLookupInverse12(t: KnownTag)
    requires ProofGroup(t) == 12
    ensures TagOfName(FieldName(t)) == Some(t)
  {
    NameFacts12();
    match t
    case MsgParamPriorGifterUserName =>
    case MsgParamProfileImageUrl =>
    case MsgParamRecipientDisplayName =>
    case MsgParamRecipientId =>
    case _ => assert false;
  }

  lemma NameFacts12()
    ensures TagOfName("msgParamPriorGifterUserName") == Some(MsgParamPriorGifterUserName)
    ensures TagOfName("msgParamProfileImageUrl") == Some(MsgParamProfileImageUrl)
    ensures TagOfName("msgParamRecipientDisplayName") == Some(MsgParamRecipientDisplayName)
    ensures TagOfName("msgParamRecipientId") == Some(MsgParamRecipientId)
  {
  }

  lemma NameLookupInverse13(t: KnownTag)
    requires ProofGroup(t) == 13
    ensures TagOfName(FieldName(t)) == Some(t)
  {
    NameFacts13();
    match t
    case MsgParamRecipientUserName =>
    case MsgParamSenderCount =>
    case MsgParamSenderLogin =>
    case MsgParamSenderName =>
    case _ => assert false;
  }

  lemma NameFacts13()
    ensures TagOfName("msgParamRecipientUserName") == Some(MsgParamRecipientUserName)
    ensures TagOfName("msgParamSenderCount") == Some(MsgParamSenderCount)
    ensures TagOfName("msgParamSenderLogin") == Some(MsgParamSenderLogin)
    ensures TagOfName("msgParamSenderName") == Some(MsgParamSenderName)
  {
  }

  lemma NameLookupInverse14(t: KnownTag)
    requires ProofGroup(t) == 14
    ensures TagOfName(FieldName(t)) == Some(t)
  {
    NameFacts14();
    match t
    case MsgParamShouldShareStreak =>
    case MsgParamStreakMonths =>
    case MsgParamSubPlanName =>
    case MsgParamSubPlan =>
    case _ => assert false;
  }

  lemma NameFacts14()
    ensures TagOfName("msgParamShouldShareStreak") == Some(MsgParamShouldShareStreak)
    ensures TagOfName("msgParamStreakMonths") == Some(MsgParamStreakMonths)
    ensures TagOfName("msgParamSubPlanName") == Some(MsgParamSubPlanName)
    ensures TagOfName("msgParamSubPlan") == Some(MsgParamSubPlan)
  {
  }

  lemma NameLookupInverse15(t: KnownTag)
    requires ProofGroup(t) == 15
    ensures TagOfName(FieldName(t)) == Some(t)
  {
    NameFacts15();
    match t
    case MsgParamThreshold =>
    case MsgParamValue =>
    case MsgParamViewerCount =>
    case MsgParamWasGifted =>
    case _ => assert false;
  }

  lemma NameFacts15()
    ensures TagOfName("msgParamThreshold") == Some(MsgParamThreshold)
    ensures TagOfName("msgParamValue") == Some(MsgParamValue)
    ensures TagOfName("msgParamViewerCount") == Some(MsgParamViewerCount)
    ensures TagOfName("msgParamWasGifted") == Some(MsgParamWasGifted)
  {
  }

  lemma NameLookupInverse16(t: KnownTag)
    requires ProofGroup(t) == 16
    ensures TagOfName(FieldName(t)) == Some(t)
  {
    NameFacts16();
    match t
    case PinnedChatPaidAmount =>
    case PinnedChatPaidCanonicalAmount =>
    case PinnedChatPaidCurrency =>
    case PinnedChatPaidExponent =>
    case _ => assert false;
  }

  lemma NameFacts16()
    ensures TagOfName("pinnedChatPaidAmount") == Some(PinnedChatPaidAmount)
    ensures TagOfName("pinnedChatPaidCanonicalAmount") == Some(PinnedChatPaidCanonicalAmount)
    ensures TagOfName("pinnedChatPaidCurrency") == Some(PinnedChatPaidCurrency)
    ensures TagOfName("pinnedChatPaidExponent") == Some(PinnedChatPaidExponent)
  {
  }

  lemma NameLookupInverse17(t: KnownTag)
    requires ProofGroup(t) == 17
    ensures TagOfName(FieldName(t)) == Some(t)
  {
    NameFacts17();
    match t
    case PinnedChatPaidLevel =>
    case PinnedChatPaidIsSystemMessage =>
    case R9k =>
    case ReplyParentDisplayName =>
    case _ => assert false;
  }

  lemma NameFacts17()
    ensures TagOfName("pinnedChatPaidLevel") == Some(PinnedChatPaidLevel)
    ensures TagOfName("pinnedChatPaidIsSystemMessage") == Some(PinnedChatPaidIsSystemMessage)
    ensures TagOfName("r9k") == Some(R9k)
    ensures TagOfName("replyParentDisplayName") == Some(ReplyParentDisplayName)
  {
  }

  lemma NameLookupInverse18(t: KnownTag)
    requires ProofGroup(t) == 18
    ensures TagOfName(FieldName(t)) == Some(t)
  {
    NameFacts18();
    match t
    case ReplyParentMsgBody =>
    case ReplyParentMsgId =>
    case ReplyParentUserId =>
    case ReplyParentUserLogin =>
    case _ => assert false;
  }

  lemma NameFacts18()
    ensures TagOfName("replyParentMsgBody") == Some(ReplyParentMsgBody)
    ensures TagOfName("replyParentMsgId") == Some(ReplyParentMsgId)
    ensures TagOfName("replyParentUserId") == Some(ReplyParentUserId)
    ensures TagOfName("replyParentUserLogin") == Some(ReplyParentUserLogin)
  {
  }

  lemma NameLookupInverse19(t: KnownTag)
    requires ProofGroup(t) == 19
    ensures TagOfName(FieldName(t)) == Some(t)
  {
    NameFacts19();
    match t
    case ReplyThreadParentDisplayName =>
    case ReplyThreadParentMsgId =>
    case ReplyThreadParentUserId =>
    case ReplyThreadParentUserLogin =>
    case _ => assert false;
  }

  lemma NameFacts19()
    ensures TagOfName("replyThreadParentDisplayName") == Some(ReplyThreadParentDisplayName)
    ensures TagOfName("replyThreadParentMsgId") == Some(ReplyThreadParentMsgId)
    ensures TagOfName("replyThreadParentUserId") == Some(ReplyThreadParentUserId)
    ensures TagOfName("replyThreadParentUserLogin") == Some(ReplyThreadParentUserLogin)
  {
  }

  lemma NameLookupInverse20(t: KnownTag)
    requires ProofGroup(t) == 20
    ensures TagOfName(FieldName(t)) == Some(t)
  {
    NameFacts20();
    match t
    case ReturningChatter =>
    case RoomId =>
    case Slow =>
    case SubsOnly =>
    case _ => assert false;
  }

  lemma NameFacts20()
    ensures TagOfName("returningChatter") == Some(ReturningChatter)
    ensures TagOfName("roomId") == Some(RoomId)
    ensures TagOfName("slow") == Some(Slow)
    ensures TagOfName("subsOnly") == Some(SubsOnly)
  {
  }

  lemma NameLookupInverse21(t: KnownTag)
    requires ProofGroup(t) == 21
    ensures TagOfName(FieldName(t)) == Some(t)
  {
    NameFacts21();
    match t
    case Subscriber =>
    case SystemMsg =>
    case TargetMsgId =>
    case TargetUserId =>
    case _ => assert false;
  }

  lemma NameFacts21()
    ensures TagOfName("subscriber") == Some(Subscriber)
    ensures TagOfName("systemMsg") == Some(SystemMsg)
    ensures TagOfName("targetMsgId") == Some(TargetMsgId)
    ensures TagOfName("targetUserId") == Some(TargetUserId)
  {
  }

  lemma NameLookupInverse22(t: KnownTag)
    requires ProofGroup(t) == 22
    ensures TagOfName(FieldName(t)) == Some(t)
  {
    NameFacts22();
    match t
    case ThreadId =>
    case TmiSentTs =>
    case Turbo =>
    case UserId =>
    case _ => assert false;
  }

  lemma NameFacts22()
    ensures TagOfName("threadId") == Some(ThreadId)
    ensures TagOfName("tmiSentTs") == Some(TmiSentTs)
    ensures TagOfName("turbo") == Some(Turbo)
    ensures TagOfName("userId") == Some(UserId)
  {
  }

  lemma NameLookupInverse23(t: KnownTag)
    requires ProofGroup(t) == 23
    ensures TagOfName(FieldName(t)) == Some(t)
  {
    NameFacts23();
    match t
    case UserType =>
    case Vip =>
    case _ => assert false;
  }

  lemma NameFacts23()
    ensures TagOfName("userType") == Some(UserType)
    ensures TagOfName("vip") == Some(Vip)
  {
  }

  /** Looking up an entry's own wire key finds that entry: no key is listed twice. */
  lemma KeyLookupInverse(t: KnownTag)
    ensures TagOfKey(WireKey(t)) == Some(t)
  {
    if ProofGroup(t) == 0 {
      KeyLookupInverse0(t);
    } else if ProofGroup(t) == 1 {
      KeyLookupInverse1(t);
    } else if ProofGroup(t) == 2 {
      KeyLookupInverse2(t);
    } else if ProofGroup(t) == 3 {
      KeyLookupInverse3(t);
    } else if ProofGroup(t) == 4 {
      KeyLookupInverse4(t);
    } else if ProofGroup(t) == 5 {
      KeyLookupInverse5(t);
    } else if ProofGroup(t) == 6 {
      KeyLookupInverse6(t);
    } else if ProofGroup(t) == 7 {
      KeyLookupInverse7(t);
    } else if ProofGroup(t) == 8 {
      KeyLookupInverse8(t);
    } else if ProofGroup(t) == 9 {
      KeyLookupInverse9(t);
    } else if ProofGroup(t) == 10 {
      KeyLookupInverse10(t);
    } else if ProofGroup(t) == 11 {
      KeyLookupInverse11(t);
    } else if ProofGroup(t) == 12 {
      KeyLookupInverse12(t);
    } else if ProofGroup(t) == 13 {
      KeyLookupInverse13(t);
    } else if ProofGroup(t) == 14 {
      KeyLookupInverse14(t);
    } else if ProofGroup(t) == 15 {
      KeyLookupInverse15(t);
    } else if ProofGroup(t) == 16 {
      KeyLookupInverse16(t);
    } else if ProofGroup(t) == 17 {
      KeyLookupInverse17(t);
    } else if ProofGroup(t) == 18 {
      KeyLookupInverse18(t);
    } else if ProofGroup(t) == 19 {
      KeyLookupInverse19(t);
    } else if ProofGroup(t) == 20 {
      KeyLookupInverse20(t);
    } else if ProofGroup(t) == 21 {
      KeyLookupInverse21(t);
    } else if ProofGroup(t) == 22 {
      KeyLookupInverse22(t);
    } else {
      KeyLookupInverse23(t);
    }
  }

  /** Looking up an entry's field name finds that entry: no two entries share a field. */
  lemma NameLookupInverse(t: KnownTag)
    ensures TagOfName(FieldName(t)) == Some(t)
  {
    if ProofGroup(t) == 0 {
      NameLookupInverse0(t);
    } else if ProofGroup(t) == 1 {
      NameLookupInverse1(t);
    } else if ProofGroup(t) == 2 {
      NameLookupInverse2(t);
    } else if ProofGroup(t) == 3 {
      NameLookupInverse3(t);
    } else if ProofGroup(t) == 4 {
      NameLookupInverse4(t);
    } else if ProofGroup(t) == 5 {
      NameLookupInverse5(t);
    } else if ProofGroup(t) == 6 {
      NameLookupInverse6(t);
    } else if ProofGroup(t) == 7 {
      NameLookupInverse7(t);
    } else if ProofGroup(t) == 8 {
      NameLookupInverse8(t);
    } else if ProofGroup(t) == 9 {
      NameLookupInverse9(t);
    } else if ProofGroup(t) == 10 {
      NameLookupInverse10(t);
    } else if ProofGroup(t) == 11 {
      NameLookupInverse11(t);
    } else if ProofGroup(t) == 12 {
      NameLookupInverse12(t);
    } else if ProofGroup(t) == 13 {
      NameLookupInverse13(t);
    } else if ProofGroup(t) == 14 {
      NameLookupInverse14(t);
    } else if ProofGroup(t) == 15 {
      NameLookupInverse15(t);
    } else if ProofGroup(t) == 16 {
      NameLookupInverse16(t);
    } else if ProofGroup(t) == 17 {
      NameLookupInverse17(t);
    } else if ProofGroup(t) == 18 {
      NameLookupInverse18(t);
    } else if ProofGroup(t) == 19 {
      NameLookupInverse19(t);
    } else if ProofGroup(t) == 20 {
      NameLookupInverse20(t);
    } else if ProofGroup(t) == 21 {
      NameLookupInverse21(t);
    } else if ProofGroup(t) == 22 {
      NameLookupInverse22(t);
    } else {
      NameLookupInverse23(t);
    }
  }

  /** Distinct entries store their values under distinct fields. */
  lemma FieldNamesInjective(t: KnownTag, u: KnownTag)
    ensures FieldName(t) == FieldName(u) ==> t == u
  {
    NameLookupInverse(t);
    NameLookupInverse(u);
  }

  /** Every entry of the table is found under its own key, paired with its field name and decoder. */
  lemma TableHasEveryEntry(t: KnownTag)
    ensures TagTable(WireKey(t)) == Some((FieldName(t), KindOf(t)))
  {
    KeyLookupInverse(t);
  }


}

/** Entries of the table that the client's events depend on, one lemma each. */
module TagsDataEntries {
  import opened Wrappers
  import opened TagsData

  /** `mod` is read as the literal `true`. */
  lemma ModEntry()
    ensures TagTable("mod") == Some(("mod", LiteralBooleanKind))
  {
    assert Entry(Mod) == TagEntry("mod", "mod", LiteralBooleanKind);
    assert TagOfKey("mod") == Some(Mod);
  }

  /** `msg-param-was-gifted` is read as the literal `true`. */
  lemma WasGiftedEntry()
    ensures TagTable("msg-param-was-gifted") == Some(("msgParamWasGifted", LiteralBooleanKind))
  {
    assert Entry(MsgParamWasGifted) == TagEntry("msg-param-was-gifted", "msgParamWasGifted", LiteralBooleanKind);
    assert TagOfKey("msg-param-was-gifted") == Some(MsgParamWasGifted);
  }

  /** `subs-only` is read as the number `1`. */
  lemma SubsOnlyEntry()
    ensures TagTable("subs-only") == Some(("subsOnly", BooleanNumberKind))
  {
    assert Entry(SubsOnly) == TagEntry("subs-only", "subsOnly", BooleanNumberKind);
    assert TagOfKey("subs-only") == Some(SubsOnly);
  }

  /** `subscriber` is read as the number `1`. */
  lemma SubscriberEntry()
    ensures TagTable("subscriber") == Some(("subscriber", BooleanNumberKind))
  {
    assert Entry(Subscriber) == TagEntry("subscriber", "subscriber", BooleanNumberKind);
    assert TagOfKey("subscriber") == Some(Subscriber);
  }

  /** `followers-only` has a decoder of its own. */
  lemma FollowersOnlyEntry()
    ensures TagTable("followers-only") == Some(("followersOnly", FollowersOnlyKind))
  {
    assert Entry(FollowersOnly) == TagEntry("followers-only", "followersOnly", FollowersOnlyKind);
    assert TagOfKey("followers-only") == Some(FollowersOnly);
  }

  /** `slow` has a decoder of its own. */
  lemma SlowEntry()
    ensures TagTable("slow") == Some(("slow", SlowKind))
  {
    assert Entry(Slow) == TagEntry("slow", "slow", SlowKind);
    assert TagOfKey("slow") == Some(Slow);
  }

  /** The profile image tag is stored under a name that is not the mechanical camel case of its key. */
  lemma ProfileImageUrlEntry()
    ensures TagTable("msg-param-profileImageURL") == Some(("msgParamProfileImageUrl", StringKind))
  {
    assert Entry(MsgParamProfileImageUrl) == TagEntry("msg-param-profileImageURL", "msgParamProfileImageUrl", StringKind);
    assert TagOfKey("msg-param-profileImageURL") == Some(MsgParamProfileImageUrl);
  }

  /** `thread-id` is split into its parts. */
  lemma ThreadIdEntry()
    ensures TagTable("thread-id") == Some(("threadId", ThreadIdKind))
  {
    assert Entry(ThreadId) == TagEntry("thread-id", "threadId", ThreadIdKind);
    assert TagOfKey("thread-id") == Some(ThreadId);
  }

  /** `emote-sets` is a comma-separated list. */
  lemma EmoteSetsEntry()
    ensures TagTable("emote-sets") == Some(("emoteSets", CommaSeparatedStringsKind))
  {
    assert Entry(EmoteSets) == TagEntry("emote-sets", "emoteSets", CommaSeparatedStringsKind);
    assert TagOfKey("emote-sets") == Some(EmoteSets);
  }
}
