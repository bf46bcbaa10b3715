/**
 * The pure parts of the client's handlers: how a decoded tags object becomes the records
 * the client emits. A field that the tags object does not have reads as `undefined`
 * (`FieldValue`), and the projections keep such values as they are.
 */
module Projections {
  import opened Wrappers
  import opened JsStrings
  import opened Tags

  // The subscription plan of a USERNOTICE.

  datatype Plan = Plan(name: TagValue, plan: TagValue, tier: Option<int>, isPrime: bool)

  const EmptyPlan := Plan(Undefined, Undefined, None, false)

  /** The tier the plan table gives: `2000` and `3000` are tiers 2 and 3; `1000`, `Prime`
      and any plan the table lacks are tier 1. */
  function PlanTier(subPlan: TagValue): int {
    if subPlan == Str("2000") then 2 else if subPlan == Str("3000") then 3 else 1
  }

  /** `getPlan`: no plan gives the empty plan; otherwise the plan and name as given, the
      tier from the table, and `isPrime` exactly for `Prime`. */
  function GetPlan(subPlan: TagValue, subPlanName: TagValue): (p: Plan)
    ensures subPlan.Undefined? ==> p == EmptyPlan
    ensures !subPlan.Undefined? ==> p.plan == subPlan && p.name == subPlanName
    ensures !subPlan.Undefined? ==> p.tier.Some? && 1 <= p.tier.value <= 3
    ensures !subPlan.Undefined? ==> (p.isPrime <==> subPlan == Str("Prime"))
    ensures p.isPrime ==> p.tier == Some(1)
  {
    if subPlan.Undefined? then EmptyPlan
    else Plan(subPlanName, subPlan, Some(PlanTier(subPlan)), subPlan == Str("Prime"))
  }

  /** The table itself, plan by plan. */
  lemma PlanTiers(name: TagValue)
    ensures GetPlan(Str("1000"), name).tier == Some(1) && !GetPlan(Str("1000"), name).isPrime
    ensures GetPlan(Str("2000"), name).tier == Some(2) && !GetPlan(Str("2000"), name).isPrime
    ensures GetPlan(Str("3000"), name).tier == Some(3) && !GetPlan(Str("3000"), name).isPrime
    ensures GetPlan(Str("Prime"), name).tier == Some(1) && GetPlan(Str("Prime"), name).isPrime
  {
    assert Str("Prime") != Str("2000") && Str("Prime") != Str("3000");
  }

  // Users.

  /** `getSimpleUser`: the `isAnonymous` field is present only when an argument was given. */
  datatype SimpleUser = SimpleUser(id: TagValue, name: TagValue, displayName: TagValue, isAnonymous: Option<TagValue>)

  function GetSimpleUser(id: TagValue, name: TagValue, displayName: TagValue, isAnonymous: TagValue): (u: SimpleUser)
    ensures u.isAnonymous.None? <==> isAnonymous.Undefined?
    ensures u.isAnonymous.Some? ==> u.isAnonymous.value == isAnonymous
    ensures u.id == id && u.name == name && u.displayName == displayName
  {
    SimpleUser(id, name, displayName, if isAnonymous.Undefined? then None else Some(isAnonymous))
  }

  datatype User = User(
    id: TagValue, name: TagValue, displayName: TagValue, badgeInfo: TagValue, badges: TagValue,
    color: TagValue, isMod: TagValue, isSubscriber: TagValue, userType: TagValue,
    isAnonymous: Option<bool>)

  const AnonymousGifter: string := "ananonymousgifter"

  /** `getUser`: the sender's fields; with the anonymous check, `isAnonymous` says whether the
      login is Twitch's anonymous gifter. */
  function GetUser(tags: map<string, TagValue>, checkForAnonymous: bool): (u: User)
    ensures u.isAnonymous.Some? <==> checkForAnonymous
    ensures checkForAnonymous ==> (u.isAnonymous.value <==> FieldValue(tags, "login") == Str(AnonymousGifter))
    ensures u.id == FieldValue(tags, "userId") && u.name == FieldValue(tags, "login")
    ensures u.displayName == FieldValue(tags, "displayName") && u.badges == FieldValue(tags, "badges")
  {
    User(FieldValue(tags, "userId"), FieldValue(tags, "login"), FieldValue(tags, "displayName"),
         FieldValue(tags, "badgeInfo"), FieldValue(tags, "badges"), FieldValue(tags, "color"),
         FieldValue(tags, "mod"), FieldValue(tags, "subscriber"), FieldValue(tags, "userType"),
         if checkForAnonymous then Some(FieldValue(tags, "login") == Str(AnonymousGifter)) else None)
  }

  /** `getMessage`: the system message, and the user's text where there is one. */
  datatype NoticeMessage = NoticeMessage(id: TagValue, text: Option<string>, system: TagValue, emotes: TagValue, flags: TagValue)

  function GetMessage(tags: map<string, TagValue>, text: Option<string>): NoticeMessage {
    NoticeMessage(FieldValue(tags, "id"), text, FieldValue(tags, "systemMsg"),
                  FieldValue(tags, "emotes"), FieldValue(tags, "flags"))
  }

  // Goals of gifted subscriptions.

  datatype Goal = Goal(contributionType: TagValue, description: TagValue, current: TagValue, target: TagValue, user: TagValue)

  /** `getGoal`: no goal unless the contribution type is truthy; a missing description
      becomes the empty string. */
  function GetGoal(tags: map<string, TagValue>): (g: Option<Goal>)
    ensures g.None? <==> !Truthy(FieldValue(tags, "msgParamGoalContributionType"))
    ensures g.Some? ==> g.value.contributionType == FieldValue(tags, "msgParamGoalContributionType")
    ensures g.Some? ==> (g.value.description ==
      if FieldValue(tags, "msgParamGoalDescription").Undefined? then Str("") else FieldValue(tags, "msgParamGoalDescription"))
  {
    var kind := FieldValue(tags, "msgParamGoalContributionType");
    if !Truthy(kind) then None
    else
      var description := FieldValue(tags, "msgParamGoalDescription");
      Some(Goal(kind, if description.Undefined? then Str("") else description,
                FieldValue(tags, "msgParamGoalCurrentContributions"),
                FieldValue(tags, "msgParamGoalTargetContributions"),
                FieldValue(tags, "msgParamGoalUserContributions")))
  }

  // The USERNOTICE events.

  /** What a USERNOTICE event carries besides its channel. `kind` is the upgrade or
      pay-forward type, empty for the other events. `details` holds the remaining fields
      read straight from one tag each, by their path in the event (`subscription.streak.months`). */
  datatype UserNotice = UserNotice(
    user: User, message: NoticeMessage, plan: Option<Plan>, goal: Option<Goal>,
    gifter: Option<SimpleUser>, recipient: Option<SimpleUser>, kind: string,
    details: map<string, TagValue>)

  /** The tag each detail field of a USERNOTICE event is read from. */
  function DetailTag(path: string): string {
    match path
    case "subscription.multiMonth.duration" => "msgParamMultimonthDuration"
    case "subscription.multiMonth.tenure" => "msgParamCumulativeMonths"
    case "subscription.cumulativeMonths" => "msgParamCumulativeMonths"
    case "subscription.streak.months" => "msgParamStreakMonths"
    case "subscription.gift.monthBeingRedeemed" => "msgParamGiftMonths"
    case "subscription.gift.months" => "msgParamGiftMonths"
    case "subscription.mysteryGift.id" => "msgParamCommunityGiftId"
    case "subscription.mysteryGift.count" => "msgParamMassGiftCount"
    case "subscription.mysteryGift.userTotal" => "msgParamSenderCount"
    case "subscription.mysteryGift.theme" => "msgParamGiftTheme"
    case "badge.threshold" => "msgParamThreshold"
    case "announcement.color" => "msgParamColor"
    case "raid.profileImageURL" => "msgParamProfileImageUrl"
    case "raid.viewerCount" => "msgParamViewerCount"
    case "milestone.category" => "msgParamCategory"
    case "milestone.value" => "msgParamValue"
    case "milestone.id" => "msgParamId"
    case _ => ""
  }

  /** The detail fields at `paths`, each read from its tag. */
  function Details(tags: map<string, TagValue>, paths: set<string>): (d: map<string, TagValue>)
    ensures d.Keys == paths
    ensures forall p | p in d :: d[p] == FieldValue(tags, DetailTag(p))
  {
    map p | p in paths :: FieldValue(tags, DetailTag(p))
  }

  /** The detail fields each notice carries; `resub` adds the streak when it is to be shared
      and the gift months when the subscription was gifted, and `subgift` names its mystery
      gift only when it came from one. */
  function DetailPaths(msgId: string, tags: map<string, TagValue>): set<string> {
    match msgId
    case "sub" => {"subscription.multiMonth.duration"}
    case "resub" =>
      {"subscription.multiMonth.duration", "subscription.multiMonth.tenure", "subscription.cumulativeMonths"}
      + (if Truthy(FieldValue(tags, "msgParamShouldShareStreak")) then {"subscription.streak.months"} else {})
      + (if Truthy(FieldValue(tags, "msgParamWasGifted"))
         then {"subscription.gift.monthBeingRedeemed", "subscription.gift.months"} else {})
    case "submysterygift" =>
      {"subscription.mysteryGift.id", "subscription.mysteryGift.count", "subscription.mysteryGift.userTotal",
       "subscription.mysteryGift.theme"}
    case "subgift" =>
      {"subscription.gift.months"}
      + (if Truthy(FieldValue(tags, "msgParamCommunityGiftId"))
         then {"subscription.mysteryGift.id", "subscription.mysteryGift.userTotal", "subscription.mysteryGift.theme"}
         else {})
    case "bitsbadgetier" => {"badge.threshold"}
    case "announcement" => {"announcement.color"}
    case "raid" => {"raid.profileImageURL", "raid.viewerCount"}
    case "viewermilestone" => {"milestone.category", "milestone.value", "milestone.id"}
    case _ => {}
  }

  /** The user text of the notices that carry one: the first parameter, or empty. */
  function NoticeText(params: seq<string>): Option<string> {
    Some(if |params| > 0 then params[0] else "")
  }

  /** The event name and payload for a `msg-id`; `None` for an id the client does not handle. */
  function UserNoticeOf(msgId: TagValue, tags: map<string, TagValue>, params: seq<string>): (r: Option<(string, UserNotice)>)
    ensures r.None? <==> !(msgId.Str? && msgId.s in UserNoticeIds)
    ensures r.Some? ==> r.value.0 == UserNoticeEventName(msgId.s)
    ensures r.Some? ==> (r.value.1.user.isAnonymous.Some? <==> msgId.s == "submysterygift" || msgId.s == "subgift")
    ensures r.Some? ==> (r.value.1.goal.Some? ==> msgId.s == "submysterygift" || msgId.s == "subgift")
    ensures r.Some? ==> r.value.1.details.Keys == DetailPaths(msgId.s, tags)
    ensures r.Some? ==> forall p | p in r.value.1.details :: r.value.1.details[p] == FieldValue(tags, DetailTag(p))
  {
    if !msgId.Str? then None
    else
      var user := GetUser(tags, false);
      var message := GetMessage(tags, None);
      var subPlan := FieldValue(tags, "msgParamSubPlan");
      var subPlanName := FieldValue(tags, "msgParamSubPlanName");
      var details := Details(tags, DetailPaths(msgId.s, tags));
      match msgId.s
      case "sub" =>
        Some(("sub", UserNotice(user, message, Some(GetPlan(subPlan, subPlanName)), None, None, None, "", details)))
      case "resub" =>
        var gifter := if Truthy(FieldValue(tags, "msgParamWasGifted")) then
          Some(GetSimpleUser(FieldValue(tags, "msgParamGifterId"), FieldValue(tags, "msgParamGifterLogin"),
                             FieldValue(tags, "msgParamGifterName"), FieldValue(tags, "msgParamAnonGift")))
          else None;
        Some(("resub", UserNotice(user, GetMessage(tags, NoticeText(params)), Some(GetPlan(subPlan, subPlanName)),
                                  None, gifter, None, "", details)))
      case "submysterygift" =>
        Some(("subMysteryGift", UserNotice(GetUser(tags, true), message, Some(GetPlan(subPlan, Undefined)),
                                           GetGoal(tags), None, None, "", details)))
      case "subgift" =>
        var recipient := GetSimpleUser(FieldValue(tags, "msgParamRecipientId"), FieldValue(tags, "msgParamRecipientUserName"),
                                       FieldValue(tags, "msgParamRecipientDisplayName"), Undefined);
        Some(("subGift", UserNotice(GetUser(tags, true), NoticeMessage(FieldValue(tags, "id"), None, FieldValue(tags, "systemMsg"), Undefined, Undefined),
                                    Some(GetPlan(subPlan, subPlanName)), GetGoal(tags), None, Some(recipient), "", details)))
      case "giftpaidupgrade" =>
        var gifter := GetSimpleUser(Undefined, FieldValue(tags, "msgParamSenderLogin"), FieldValue(tags, "msgParamSenderName"), Undefined);
        Some(("paidUpgrade", UserNotice(user, message, None, None, Some(gifter), None, "gift", details)))
      case "primepaidupgrade" =>
        Some(("paidUpgrade", UserNotice(user, message, Some(GetPlan(subPlan, Undefined)), None, None, None, "prime", details)))
      case "standardpayforward" =>
        Some(("payForward", PayForward(tags, user, message, "standard")))
      case "communitypayforward" =>
        Some(("payForward", PayForward(tags, user, message, "community")))
      case "bitsbadgetier" =>
        Some(("bitsBadgeTier", UserNotice(user, GetMessage(tags, NoticeText(params)), None, None, None, None, "", details)))
      case "announcement" =>
        Some(("announcement", UserNotice(user, GetMessage(tags, NoticeText(params)), None, None, None, None, "", details)))
      case "raid" =>
        Some(("raid", UserNotice(user, message, None, None, None, None, "", details)))
      case "unraid" =>
        Some(("unraid", UserNotice(user, message, None, None, None, None, "", details)))
      case "viewermilestone" =>
        Some(("viewerMilestone", UserNotice(user, GetMessage(tags, NoticeText(params)), None, None, None, None, "", details)))
      case _ => None
  }

  /** A resub shares its streak only when asked to, and carries the gift's months and gifter
      only when it was gifted; its tenure is the cumulative months. */
  lemma ResubDetails(tags: map<string, TagValue>, params: seq<string>)
    ensures UserNoticeOf(Str("resub"), tags, params).Some?
    ensures var n := UserNoticeOf(Str("resub"), tags, params).value.1;
      ("subscription.streak.months" in n.details <==> Truthy(FieldValue(tags, "msgParamShouldShareStreak")))
      && ("subscription.gift.months" in n.details <==> Truthy(FieldValue(tags, "msgParamWasGifted")))
      && (n.gifter.Some? <==> Truthy(FieldValue(tags, "msgParamWasGifted")))
      && n.details["subscription.multiMonth.tenure"] == FieldValue(tags, "msgParamCumulativeMonths")
      && n.details["subscription.cumulativeMonths"] == FieldValue(tags, "msgParamCumulativeMonths")
  {
  }

  /** A gifted subscription names its mystery gift only when it came from one, and always
      carries the gift's months. */
  lemma SubGiftDetails(tags: map<string, TagValue>, params: seq<string>)
    ensures UserNoticeOf(Str("subgift"), tags, params).Some?
    ensures var n := UserNoticeOf(Str("subgift"), tags, params).value.1;
      ("subscription.mysteryGift.id" in n.details <==> Truthy(FieldValue(tags, "msgParamCommunityGiftId")))
      && n.details["subscription.gift.months"] == FieldValue(tags, "msgParamGiftMonths")
      && n.recipient.Some? && n.recipient.value.isAnonymous.None?
  {
  }

  const UserNoticeIds: set<string> := {
    "sub", "resub", "submysterygift", "subgift", "giftpaidupgrade", "primepaidupgrade",
    "standardpayforward", "communitypayforward", "bitsbadgetier", "announcement", "raid",
    "unraid", "viewermilestone" }

  function UserNoticeEventName(msgId: string): string {
    match msgId
    case "sub" => "sub"
    case "resub" => "resub"
    case "submysterygift" => "subMysteryGift"
    case "subgift" => "subGift"
    case "giftpaidupgrade" => "paidUpgrade"
    case "primepaidupgrade" => "paidUpgrade"
    case "standardpayforward" => "payForward"
    case "communitypayforward" => "payForward"
    case "bitsbadgetier" => "bitsBadgeTier"
    case "announcement" => "announcement"
    case "raid" => "raid"
    case "unraid" => "unraid"
    case "viewermilestone" => "viewerMilestone"
    case _ => "unhandledCommand"
  }

  /** The pay-forward notices: the prior gifter always, a recipient when the tags name one. */
  function PayForward(tags: map<string, TagValue>, user: User, message: NoticeMessage, kind: string): UserNotice {
    var prior := GetSimpleUser(FieldValue(tags, "msgParamPriorGifterId"), FieldValue(tags, "msgParamPriorGifterUserName"),
                               FieldValue(tags, "msgParamPriorGifterDisplayName"), FieldValue(tags, "msgParamPriorGifterAnonymous"));
    var recipient := if "msgParamRecipientId" in tags then
      Some(GetSimpleUser(tags["msgParamRecipientId"], FieldValue(tags, "msgParamRecipientUserName"),
                         FieldValue(tags, "msgParamRecipientDisplayName"), Undefined))
      else None;
    UserNotice(user, message, None, None, Some(prior), recipient, kind, map[])
  }

  // The raid's profile image.

  const ImageSizes: seq<int> := [28, 50, 70, 150, 300, 600]

  function Abs(x: int): nat {
    if x < 0 then -x else x
  }

  /** The position of the size nearest to `size`; among equally near sizes, the first. This is
      the first element of the list after a stable sort by distance. */
  function NearestIndex(size: int, sizes: seq<int>): (i: nat)
    requires |sizes| > 0
    ensures i < |sizes|
    ensures forall j | 0 <= j < |sizes| :: Abs(size - sizes[i]) <= Abs(size - sizes[j])
    ensures forall j | 0 <= j < i :: Abs(size - sizes[j]) > Abs(size - sizes[i])
    decreases |sizes|
  {
    if |sizes| == 1 then 0
    else
      var k := NearestIndex(size, sizes[1..]) + 1;
      assert forall j | 1 <= j < |sizes| :: sizes[j] == sizes[1..][j - 1];
      if Abs(size - sizes[0]) <= Abs(size - sizes[k]) then 0 else k
  }

  predicate OccursAt(s: string, p: string, i: int) {
    0 <= i <= |s| - |p| && s[i..i + |p|] == p
  }

  /** The first occurrence of `p` in `s`, or -1. */
  function IndexOfText(s: string, p: string): (r: int)
    ensures r == -1 || OccursAt(s, p, r)
    ensures forall i | 0 <= i && (r == -1 || i < r) :: !OccursAt(s, p, i)
    decreases |s|
  {
    if |s| < |p| then -1
    else if s[..|p|] == p then
      assert s[0..|p|] == s[..|p|];
      0
    else
      assert s[0..|p|] == s[..|p|];
      var r := IndexOfText(s[1..], p);
      assert forall i | 1 <= i :: OccursAt(s, p, i) == OccursAt(s[1..], p, i - 1);
      if r == -1 then -1 else r + 1
  }

  /** `s.replace(p, rep)` with a string pattern: the first occurrence only. */
  function ReplaceFirst(s: string, p: string, rep: string): string {
    var i := IndexOfText(s, p);
    if i < 0 then s else s[..i] + rep + s[i + |p|..]
  }

  /** `getProfileImageURL(size)`: a missing size is 50; a size at most 0, or one that is not
      offered, is a range error, the latter naming the nearest offered size; the first `%s`
      of the URL becomes `<size>x<size>`. */
  function ProfileImageUrl(url: TagValue, size: Option<int>): (r: Result<string>)
    ensures size.Some? && size.value <= 0 ==>
      r == Failure("Invalid size: " + IntToString(size.value) + ". Smallest size is 28")
    ensures size.Some? && size.value > 0 && size.value !in ImageSizes ==>
      r == Failure("Invalid size: " + IntToString(size.value) + ". Based on the input, a suggested size is: "
                   + IntToString(ImageSizes[NearestIndex(size.value, ImageSizes)]))
    ensures r.Success? ==> url.Str? && (size.None? || size.value in ImageSizes)
    ensures r.Success? ==>
      var v := IntToString(size.GetOr(50)); r.value == ReplaceFirst(url.s, "%s", v + "x" + v)
  {
    if size.Some? && size.value <= 0 then
      Failure("Invalid size: " + IntToString(size.value) + ". Smallest size is 28")
    else if size.Some? && size.value !in ImageSizes then
      var suggestion := ImageSizes[NearestIndex(size.value, ImageSizes)];
      Failure("Invalid size: " + IntToString(size.value) + ". Based on the input, a suggested size is: " + IntToString(suggestion))
    else if !url.Str? then Failure("TypeError: Cannot read properties of undefined (reading 'replace')")
    else
      var v := IntToString(size.GetOr(50));
      Success(ReplaceFirst(url.s, "%s", v + "x" + v))
  }

  /** Ties go to the smaller size, the one earlier in the list: 39 is as near 28 as 50 and
      gets 28. */
  lemma SuggestedSizeTie()
    ensures ImageSizes[NearestIndex(39, ImageSizes)] == 28
  {
    var i := NearestIndex(39, ImageSizes);
    assert Abs(39 - ImageSizes[i]) <= Abs(39 - ImageSizes[0]);
    assert i == 0;
  }

  /** A size above the largest is pointed to the largest. */
  lemma SuggestedSizeAbove()
    ensures ImageSizes[NearestIndex(1000, ImageSizes)] == 600
  {
    var i := NearestIndex(1000, ImageSizes);
    assert Abs(1000 - ImageSizes[i]) <= Abs(1000 - ImageSizes[5]);
    assert i == 5;
  }

  /** Only the first placeholder is replaced. */
  lemma ReplaceFirstOnly(a: string, b: string, rep: string)
    requires forall i | 0 <= i < |a| :: a[i] != '%'
    ensures ReplaceFirst(a + "%s" + b, "%s", rep) == a + rep + b
  {
    var s := a + "%s" + b;
    var i := IndexOfText(s, "%s");
    assert s[|a|..|a| + 2] == "%s";
    assert OccursAt(s, "%s", |a|);
    forall j | 0 <= j < |a|
      ensures !OccursAt(s, "%s", j)
    {
      assert s[j] == a[j];
    }
    assert i == |a|;
    assert s[..i] == a && s[i + 2..] == b;
  }

  // PRIVMSG.

  const ActionPrefix: string := "\U{1}ACTION "
  const ActionSuffix: string := "\U{1}"

  /** A `/me` message: wrapped in CTCP ACTION. */
  predicate IsAction(text: string) {
    StartsWith(text, ActionPrefix) && EndsWith(text, ActionSuffix)
  }

  /** The text shown: an action loses its wrapping, any other text is kept. */
  function MessageText(text: string): (r: string)
    ensures IsAction(text) ==> ActionPrefix + r + ActionSuffix == text
    ensures !IsAction(text) ==> r == text
  {
    if IsAction(text) then
      assert text[..8][7] == ' ' && text[|text| - 1..][0] == '\U{1}';
      assert |text| >= 9;
      var r := JsSlice(text, 8, -1);
      assert text == text[..8] + r + text[|text| - 1..];
      r
    else text
  }

  /** Wrapping a text in CTCP ACTION and reading it back gives the text. */
  lemma ActionRoundTrip(s: string)
    ensures IsAction(ActionPrefix + s + ActionSuffix)
    ensures MessageText(ActionPrefix + s + ActionSuffix) == s
  {
    var t := ActionPrefix + s + ActionSuffix;
    assert t[..8] == ActionPrefix;
    assert t[|t| - 1..] == ActionSuffix;
    assert ActionPrefix + MessageText(t) + ActionSuffix == ActionPrefix + s + ActionSuffix;
    assert (ActionPrefix + MessageText(t) + ActionSuffix)[8..|t| - 1] == MessageText(t);
    assert t[8..|t| - 1] == s;
  }

  datatype Reward = CustomReward(id: TagValue) | MsgIdReward(kind: TagValue)

  predicate IsCustomReward(tags: map<string, TagValue>) {
    "customRewardId" in tags && tags["customRewardId"] != Str("")
  }

  predicate IsMsgIdReward(tags: map<string, TagValue>) {
    "msgId" in tags && (tags["msgId"] == Str("highlighted-message") || tags["msgId"] == Str("skip-subs-mode-message"))
  }

  /** The reward a message redeems, if any: a channel-points reward id first, then the two
      reward `msg-id`s. */
  function RewardOf(tags: map<string, TagValue>): (r: Option<Reward>)
    ensures r.None? <==> !IsCustomReward(tags) && !IsMsgIdReward(tags)
    ensures r.Some? && r.value.MsgIdReward? ==> !IsCustomReward(tags) && r.value.kind == tags["msgId"]
  {
    if IsCustomReward(tags) then Some(CustomReward(tags["customRewardId"]))
    else if IsMsgIdReward(tags) then Some(MsgIdReward(tags["msgId"]))
    else None
  }

  /** A custom reward wins over a highlighted or sub-mode-skipping message. */
  lemma RewardPrecedence(tags: map<string, TagValue>, id: string)
    requires id != ""
    ensures RewardOf(tags["customRewardId" := Str(id)]) == Some(CustomReward(Str(id)))
  {
  }

  datatype ChatUser = ChatUser(
    id: TagValue, name: Option<string>, displayName: TagValue, color: TagValue, badges: TagValue,
    badgeInfo: TagValue, isMod: TagValue, isSubscriber: TagValue, isFounder: bool, isVip: bool,
    userType: TagValue, isReturningChatter: TagValue)

  datatype ChatText = ChatText(
    id: TagValue, text: string, flags: TagValue, emotes: TagValue, isAction: bool,
    isIntroduction: bool, isFirstMessageByUser: TagValue, wasAcceptedAfterAutomod: bool)

  datatype ReplyUser = ReplyUser(id: TagValue, name: TagValue, displayName: TagValue)

  /** The message a reply answers, and the first message of its thread. */
  datatype ChatParent = ChatParent(id: TagValue, text: TagValue, user: ReplyUser, threadId: TagValue, threadUser: ReplyUser)

  /** The parent of a reply. Its user's `name` is read from the display-name tag, as the
      client does; the thread's user has its login. */
  function ParentOf(tags: map<string, TagValue>): (p: ChatParent)
    ensures p.user.name == FieldValue(tags, "replyParentDisplayName") && p.user.displayName == p.user.name
    ensures p.threadUser.name == FieldValue(tags, "replyThreadParentUserLogin")
  {
    ChatParent(
      FieldValue(tags, "replyParentMsgId"), FieldValue(tags, "replyParentMsgBody"),
      ReplyUser(FieldValue(tags, "replyParentUserId"), FieldValue(tags, "replyParentDisplayName"),
                FieldValue(tags, "replyParentDisplayName")),
      FieldValue(tags, "replyThreadParentMsgId"),
      ReplyUser(FieldValue(tags, "replyThreadParentUserId"), FieldValue(tags, "replyThreadParentUserLogin"),
                FieldValue(tags, "replyThreadParentDisplayName")))
  }

  /** The `message` event of a PRIVMSG. */
  datatype ChatMessage = ChatMessage(
    user: ChatUser, message: ChatText, parent: Option<ChatParent>, cheer: Option<TagValue>, reward: Option<Reward>)

  const StartsWithOfUndefined: string := "TypeError: Cannot read properties of undefined (reading 'startsWith')"
  const HasOfNonMap: string := "TypeError: tags.badges.has is not a function"

  /** The PRIVMSG projection. It throws when there is no text parameter, and when the badges
      field is not a badge map (its `has` is called). */
  function ChatMessageOf(tags: map<string, TagValue>, nick: Option<string>, text: Option<string>): (r: Result<ChatMessage>)
    ensures r.Failure? <==> text.None? || !FieldValue(tags, "badges").BadgeMap?
    ensures r.Success? ==> r.value.message.isAction == IsAction(text.value)
    ensures r.Success? ==> r.value.message.text == MessageText(text.value)
    ensures r.Success? ==> (r.value.user.isFounder <==> "founder" in FieldValue(tags, "badges").badges)
    ensures r.Success? ==> (r.value.message.wasAcceptedAfterAutomod <==>
      "msgId" in tags && tags["msgId"] == Str("") && FieldValue(tags, "customRewardId") == Str(""))
    ensures r.Success? ==> (r.value.message.isIntroduction <==> FieldValue(tags, "msgId") == Str("user-intro"))
    ensures r.Success? ==> r.value.reward == RewardOf(tags) && r.value.user.name == nick
    ensures r.Success? ==> (r.value.parent.Some? <==> "replyParentMsgId" in tags)
    ensures r.Success? && r.value.parent.Some? ==>
      r.value.parent.value.id == tags["replyParentMsgId"] && r.value.parent.value.text == FieldValue(tags, "replyParentMsgBody")
      && r.value.parent.value.user.name == FieldValue(tags, "replyParentDisplayName")
      && r.value.parent.value.threadId == FieldValue(tags, "replyThreadParentMsgId")
    ensures r.Success? ==> (r.value.cheer.Some? <==> "bits" in tags)
  {
    if text.None? then Failure(StartsWithOfUndefined)
    else if !FieldValue(tags, "badges").BadgeMap? then Failure(HasOfNonMap)
    else
      var hasMsgId := "msgId" in tags;
      var user := ChatUser(
        FieldValue(tags, "userId"), nick, FieldValue(tags, "displayName"), FieldValue(tags, "color"),
        FieldValue(tags, "badges"), FieldValue(tags, "badgeInfo"), FieldValue(tags, "mod"),
        FieldValue(tags, "subscriber"), "founder" in FieldValue(tags, "badges").badges,
        Truthy(FieldValue(tags, "vip")), FieldValue(tags, "userType"), FieldValue(tags, "returningChatter"));
      var message := ChatText(
        FieldValue(tags, "id"), MessageText(text.value), FieldValue(tags, "flags"), FieldValue(tags, "emotes"),
        IsAction(text.value), hasMsgId && tags["msgId"] == Str("user-intro"), FieldValue(tags, "firstMsg"),
        hasMsgId && tags["msgId"] == Str("") && FieldValue(tags, "customRewardId") == Str(""));
      Success(ChatMessage(
        user, message,
        if "replyParentMsgId" in tags then Some(ParentOf(tags)) else None,
        if "bits" in tags then Some(tags["bits"]) else None,
        RewardOf(tags)))
  }

  // CLEARCHAT.

  datatype ClearChat = ChatCleared | Ban(name: string, userId: TagValue) | Timeout(name: string, userId: TagValue, banSeconds: TagValue)

  /** No user clears the chat; a user without a ban duration is banned; with one, timed out
      for that many seconds. */
  function ClearChatOf(params: seq<string>, tags: map<string, TagValue>): (c: ClearChat)
    ensures c.ChatCleared? <==> |params| == 0
    ensures c.Ban? <==> |params| > 0 && FieldValue(tags, "banDuration").Undefined?
    ensures !c.ChatCleared? ==> c.name == params[0] && c.userId == FieldValue(tags, "targetUserId")
    ensures c.Timeout? ==> c.banSeconds == FieldValue(tags, "banDuration")
  {
    if |params| == 0 then ChatCleared
    else if FieldValue(tags, "banDuration").Undefined? then Ban(params[0], FieldValue(tags, "targetUserId"))
    else Timeout(params[0], FieldValue(tags, "targetUserId"), FieldValue(tags, "banDuration"))
  }

  // NOTICE.

  /** The room-mode notices, which the ROOMSTATE that follows them already reports. */
  const RoomModeNotices: seq<string> := [
    "emote_only_on", "emote_only_off", "followers_on_zero", "followers_on", "followers_off",
    "slow_on", "slow_off", "subs_on", "subs_off", "r9k_on", "r9k_off"]

  const LoginFailures: seq<string> := ["Login unsuccessful", "Login authentication failed"]

  datatype NoticeKind = RoomModeNotice | LoginFailed | UnhandledNotice

  /** How the NOTICE handler treats a notice: room-mode ids are dropped, the login failures
      are only logged, and any other notice is reported as unhandled. */
  function NoticeKindOf(tags: map<string, TagValue>, params: seq<string>): (k: NoticeKind)
    ensures k == RoomModeNotice <==> FieldValue(tags, "msgId").Str? && FieldValue(tags, "msgId").s in RoomModeNotices
    ensures k == LoginFailed <==> k != RoomModeNotice && |params| > 1 && params[1] in LoginFailures
  {
    var id := FieldValue(tags, "msgId");
    if id.Str? && id.s in RoomModeNotices then RoomModeNotice
    else if |params| > 1 && params[1] in LoginFailures then LoginFailed
    else UnhandledNotice
  }
}
