/**
 * The lines the client writes for `join`, `part` and `say`, and the checks `say` makes before
 * it writes anything.
 *
 * A `say` line carries the caller's tags, with `client-nonce` set, as an IRCv3 tag block:
 * each entry becomes `escapeIrc(key)=escapeIrc(value)` and the entries are joined by `;`.
 * The wait that follows listens for the `USERSTATE` that echoes the nonce, and is rejected by
 * the NOTICE ids Twitch uses for a refused message (and `invalid_parent` for a reply).
 */
module Outgoing {
  import opened Wrappers
  import opened JsStrings
  import opened IrcEscape
  import opened Parser
  import opened Correlation
  import opened Channels

  const NotConnected: string := "Not connected"
  const AnonymousCannotSay: string := "Cannot send messages as anonymous"
  const EmptyMessage: string := "Message is empty or not a string"
  const MessageTooLong: string := "Message is too long (max 500 characters)"
  const MaxMessageLength: int := 500

  const NonceTag: string := "client-nonce"
  const NoncePrefix: string := "tmi.js_"
  const ReplyParentTag: string := "reply-parent-msg-id"

  /** The NOTICE ids that mean Twitch refused a message. */
  const SayBadNotices: seq<string> := [
    "unrecognized_cmd", "msg_duplicate", "msg_ratelimit", "msg_r9k", "msg_rejected_mandatory",
    "msg_subsonly", "msg_timedout", "msg_banned", "msg_bad_characters",
    "msg_requires_verified_phone_number"]
  const InvalidParent: string := "invalid_parent"

  function JoinLine(key: string): string {
    "JOIN #" + key
  }

  function PartLine(key: string): string {
    "PART #" + key
  }

  /** The entries of a tags object, in the order `Object.entries` lists them. */
  type Entries = seq<(string, string)>

  predicate HasKey(tags: Entries, key: string) {
    exists i | 0 <= i < |tags| :: tags[i].0 == key
  }

  /** An object's keys are distinct. */
  predicate DistinctKeys(tags: Entries) {
    forall i, j | 0 <= i < j < |tags| :: tags[i].0 != tags[j].0
  }

  /**
   * `tags[key] = value`: an existing key keeps its place and takes the new value, a new key
   * goes last.
   */
  function SetEntry(tags: Entries, key: string, value: string): Entries {
    if HasKey(tags, key) then
      seq(|tags|, i requires 0 <= i < |tags| => if tags[i].0 == key then (key, value) else tags[i])
    else tags + [(key, value)]
  }

  /** What the assignment promises: the key holds the value, every other entry stays where it
      was, a new key is appended, and the keys stay distinct. */
  lemma SetEntrySpec(tags: Entries, key: string, value: string)
    ensures var r := SetEntry(tags, key, value);
      (DistinctKeys(tags) ==> DistinctKeys(r))
      && HasKey(r, key) && (key, value) in r
      && (HasKey(tags, key) ==> |r| == |tags|)
      && (!HasKey(tags, key) ==> |r| == |tags| + 1 && r[|tags|] == (key, value))
      && (forall i | 0 <= i < |tags| && tags[i].0 != key :: r[i] == tags[i])
      && (forall e | e in r && e.0 != key :: e in tags)
      && (DistinctKeys(tags) ==> forall e | e in r && e.0 == key :: e == (key, value))
  {
    var r := SetEntry(tags, key, value);
    if HasKey(tags, key) {
      var i :| 0 <= i < |tags| && tags[i].0 == key;
      assert r[i] == (key, value);
    } else {
      assert r[|tags|] == (key, value);
    }
  }

  /** One entry of the tag block. */
  function TagItem(e: (string, string)): string {
    EscapeIrcAsWritten(e.0) + "=" + EscapeIrcAsWritten(e.1)
  }

  function Items(tags: Entries): (items: seq<string>)
    ensures |items| == |tags|
  {
    seq(|tags|, i requires 0 <= i < |tags| => TagItem(tags[i]))
  }

  /** The whole `say` line. */
  function SayLine(tags: Entries, key: string, message: string): string {
    "@" + JoinWith(Items(tags), ";") + " PRIVMSG #" + key + " :" + message
  }

  /** The tags `say` sends: the caller's, with the nonce under `client-nonce`. */
  function SayTags(tags: Entries, nonce: string): Entries {
    SetEntry(tags, NonceTag, NoncePrefix + nonce)
  }

  function BadNoticesFor(isReply: bool): seq<string> {
    SayBadNotices + (if isReply then [InvalidParent] else [])
  }

  /** What `say` does once its checks pass: the line it sends and the wait it arms. */
  datatype SayPlan = SayPlan(line: string, wait: Result<WaitSpec>)

  /** What `say` plans: its checks, in order, then the line with the nonce set and the wait
      for the USERSTATE that echoes the nonce. */
  function PlanSay(anonymous: bool, target: Result<string>, message: string, tags: Entries,
                   isReply: bool, nonce: string): Result<SayPlan>
  {
    if anonymous then Failure(AnonymousCannotSay)
    else if message == "" then Failure(EmptyMessage)
    else if Utf16Length(message) > MaxMessageLength then Failure(MessageTooLong)
    else
      var key :- target;
      Success(SayPlan(SayLine(SayTags(tags, nonce), key, message),
                      ByChannel("USERSTATE", key, Some(NoncePrefix + nonce), BadNoticesFor(isReply), None)))
  }

  /**
   * The checks of `say`, in order: an anonymous client may not speak, the message must be
   * non-empty and at most 500 UTF-16 code units long, and the channel must normalise. Once
   * they pass, the line carries the caller's tags with the nonce and the wait listens for
   * that nonce in the target channel.
   */
  lemma PlanSayChecks(anonymous: bool, target: Result<string>, message: string, tags: Entries,
                      isReply: bool, nonce: string)
    ensures var r := PlanSay(anonymous, target, message, tags, isReply, nonce);
      (r.Success? <==> !anonymous && message != "" && Utf16Length(message) <= MaxMessageLength && target.Success?)
      && (anonymous ==> r == Failure(AnonymousCannotSay))
      && (!anonymous && message == "" ==> r == Failure(EmptyMessage))
      && (!anonymous && message != "" && Utf16Length(message) > MaxMessageLength ==> r == Failure(MessageTooLong))
      && (!anonymous && message != "" && Utf16Length(message) <= MaxMessageLength && target.Failure? ==>
          r == Failure(target.error))
      && (r.Success? ==>
            (NonceTag, NoncePrefix + nonce) in SayTags(tags, nonce)
            && r.value.line == SayLine(SayTags(tags, nonce), target.value, message)
            && (r.value.wait.Success? <==> NormalizeName(target.value).Success?)
            && (r.value.wait.Success? ==>
                  r.value.wait.value.filter == ChannelFilter(NormalizeName(target.value).value, Some(NoncePrefix + nonce))
                  && r.value.wait.value.command == "USERSTATE" && r.value.wait.value.badNotices == BadNoticesFor(isReply)
                  && r.value.wait.value.timeoutMs == DefaultTimeoutMs))
  {
    SetEntrySpec(tags, NonceTag, NoncePrefix + nonce);
  }

  /** A planned message whose checks pass and whose wait can be armed. */
  predicate Ready(plan: Result<SayPlan>) {
    plan.Success? && plan.value.wait.Success?
  }

  /** A message `say` accepts: non-empty and at most 500 UTF-16 code units. */
  predicate MessageFits(message: string) {
    message != "" && Utf16Length(message) <= MaxMessageLength
  }

  /** A client that may speak into a channel: it is not anonymous, and the channel normalises
      both when the line is built and when the wait is armed. */
  predicate CanSpeak(anonymous: bool, target: Result<string>) {
    !anonymous && target.Success? && NormalizeName(target.value).Success?
  }

  /** A `say` goes through exactly when the client may speak there and the message fits;
      neither the tags nor the nonce matter. */
  lemma PlanSayReady(anonymous: bool, target: Result<string>, message: string, tags: Entries,
                     isReply: bool, nonce: string)
    ensures Ready(PlanSay(anonymous, target, message, tags, isReply, nonce)) <==>
      CanSpeak(anonymous, target) && MessageFits(message)
  {
  }

  /** The tags `reply` passes to `say`: the parent id when there is a non-empty one. */
  function ReplyTags(replyId: Option<string>): Entries {
    if IsTruthy(replyId) then [(ReplyParentTag, replyId.value)] else []
  }

  // Round trips through the parser.

  /** A character that the escape callback neither rewrites nor writes appears in an escaped
      value only where it was. */
  lemma {:induction false} EscapeKeepsOut(s: string, c: char)
    requires !IsEscapedAsWritten(c) && c !in "snr:undefi" && c !in s
    ensures c !in EscapeIrcAsWritten(s)
    decreases |s|
  {
    if |s| > 0 {
      assert c !in s[1..] && c != s[0];
      if IsEscapedAsWritten(s[0]) {
        var e := EscapeCharAsWritten(s[0]);
        assert e == "\\" + e[1..];
        assert e[1..] in {"s", "n", "r", ":", "\\\\", "undefined"};
      }
      EscapeKeepsOut(s[1..], c);
    }
  }

  /** Joining pieces that lack a character with a separator that lacks it too. */
  lemma {:induction false} JoinKeepsOut(parts: seq<string>, sep: string, c: char)
    requires c !in sep
    requires forall k | 0 <= k < |parts| :: c !in parts[k]
    ensures c !in JoinWith(parts, sep)
    decreases |parts|
  {
    if |parts| > 1 {
      JoinKeepsOut(parts[1..], sep, c);
    }
  }

  /** Splitting a join at its separator gives back the pieces when none holds the separator. */
  lemma {:induction false} SplitOfJoin(parts: seq<string>, c: char)
    requires |parts| > 0
    requires forall k | 0 <= k < |parts| :: c !in parts[k]
    ensures Split(JoinWith(parts, [c]), c) == parts
    decreases |parts|
  {
    if |parts| == 1 {
      SplitHead(parts[0], c);
    } else {
      SplitOfJoin(parts[1..], c);
      SplitAtFirst(parts[0], c, JoinWith(parts[1..], [c]));
      assert parts == [parts[0]] + parts[1..];
    }
  }

  /** No entry of the tag block holds a space or a `;`. */
  lemma ItemsClean(tags: Entries)
    ensures forall k | 0 <= k < |tags| :: ' ' !in Items(tags)[k] && ';' !in Items(tags)[k]
  {
    forall k | 0 <= k < |tags|
      ensures ' ' !in Items(tags)[k] && ';' !in Items(tags)[k]
    {
      EscapeIrcAsWrittenIsClean(tags[k].0, ' ');
      EscapeIrcAsWrittenIsClean(tags[k].1, ' ');
      EscapeIrcAsWrittenIsClean(tags[k].0, ';');
      EscapeIrcAsWrittenIsClean(tags[k].1, ';');
    }
  }

  /** The parser reads the tag block of a `say` line back as the entries written into it. */
  lemma SayLineTagBlock(tags: Entries, key: string, message: string)
    requires |tags| > 0
    ensures TagBlock(SayLine(tags, key, message)) == Items(tags)
  {
    var block := JoinWith(Items(tags), ";");
    ItemsClean(tags);
    JoinKeepsOut(Items(tags), ";", ' ');
    var head := "@" + block;
    var line := SayLine(tags, key, message);
    assert line == head + [' '] + ("PRIVMSG #" + key + " :" + message);
    assert ' ' !in head;
    SplitAtFirst(head, ' ', "PRIVMSG #" + key + " :" + message);
    assert line[..1] == "@";
    assert JsSliceFrom(head, 1) == block;
    SplitOfJoin(Items(tags), ';');
  }

  /** Each entry comes back as its escaped key and its escaped value, provided neither holds
      a `=`; once unescaped, the value is the one written exactly when the escape had nothing
      to do in it. */
  lemma TagItemRoundTrip(k: string, v: string)
    requires '=' !in k && '=' !in v
    ensures TagKey(TagItem((k, v))) == EscapeIrcAsWritten(k)
    ensures TagRawValue(TagItem((k, v))) == Some(EscapeIrcAsWritten(v))
    ensures UnescapeIrcAsWritten(TagRawValue(TagItem((k, v)))) == Some(v) <==> PlainValue(v)
  {
    EscapeKeepsOut(k, '=');
    EscapeKeepsOut(v, '=');
    SplitAtFirst(EscapeIrcAsWritten(k), '=', EscapeIrcAsWritten(v));
    SplitHead(EscapeIrcAsWritten(v), '=');
    UnescapeEscapeAsWritten(v);
  }

  /** The escape leaves `=` alone, so a value holding a `=` comes back cut at it. */
  lemma TagValueCutAtEquals()
    ensures TagRawValue(TagItem(("a", "b=c"))) == Some("b")
  {
    assert PlainValue("a") && PlainValue("b=c");
    EscapeAsWrittenLength("a");
    EscapeAsWrittenLength("b=c");
    SplitAtFirst("a", '=', "b=c");
    SplitAtFirst("b", '=', "c");
  }

  /** The nonce is always sent: a `say` carries exactly one `client-nonce`, the generated one. */
  lemma SayTagsCarryNonce(tags: Entries, nonce: string)
    requires DistinctKeys(tags)
    ensures |SayTags(tags, nonce)| > 0 && DistinctKeys(SayTags(tags, nonce))
    ensures forall e | e in SayTags(tags, nonce) && e.0 == NonceTag :: e.1 == NoncePrefix + nonce
    ensures (NonceTag, NoncePrefix + nonce) in SayTags(tags, nonce)
  {
    SetEntrySpec(tags, NonceTag, NoncePrefix + nonce);
  }

  /** A reply is refused by `invalid_parent` as well; a plain message is not. */
  lemma ReplyListensForInvalidParent(isReply: bool)
    ensures InvalidParent in BadNoticesFor(isReply) <==> isReply
    ensures forall n | n in SayBadNotices :: n in BadNoticesFor(isReply)
  {
    assert InvalidParent !in SayBadNotices;
  }
}
