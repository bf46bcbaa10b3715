# tmi.js chat client core, modelled in Dafny

tmi.js is a Twitch chat client. It reads IRC lines from a WebSocket. It parses each line into a
message: the prefix, the command, the channel, the parameters, and the IRCv3 tags. Each tag is
decoded through a fixed table of names and decoders. The handler for the command then updates
the client's registry of channels and its identity, and emits events. In the other direction the
client sends JOIN, PART and PRIVMSG lines. It then waits for the server's answer, which is
matched by channel or by a `client-nonce` tag, refused by a list of NOTICE ids, or ended by a
timeout.

The modules follow the program's own files:

- `js_strings.dfy`, `js_maps.dfy` (modules `JsStrings` and `JsMaps`): the JavaScript built-ins the
  core relies on, defined once. These are `indexOf`, `split`, `join`, `trim`, `toLowerCase`,
  `slice`, `Number()`, template strings of integers, and `Map.set` applied in order.
- `escape.dfy` (`IrcEscape`): the tag-value escapes of `src/lib/irc/parser.ts`. It holds both the
  code as written, which the parser and `say` use, and the corrected definitions; see
  "## Findings".
- `tags_data.dfy`, `tags_data_facts.dfy` (`TagsData`, `TagsDataFacts`, `TagsDataEntries`): the
  table of 94 known tags from `src/lib/irc/tags-data.ts`. Each entry has a wire key, a field
  name and a decoder kind. The facts modules prove that the table is a bijection between keys,
  entries and field names.
- `tags.dfy` (`Tags`): the decoders of `src/lib/irc/tags.ts`. The decoders that build maps and
  lists are methods with loops. Each is proved equal to a reference function, and the
  reference functions have their own properties proved.
- `parser.dfy` (`Parser`): `parseIrcLine`. It is modelled as a method that moves one working line
  through the stages: tags, prefix, command, channel, parameter loop, tag loop. It is proved
  equal to the function `Parse`, which has three possible outcomes:
  - a message;
  - an exception thrown by a decoder;
  - `Hangs`, for the parameter loop that never ends.
- `channel.dfy` (`Channels`), `token.dfy` (`Tokens`): `Channel.normalizeName`, the `Channel`
  and `ChannelTemporary` classes, and the `Token` class.
- `correlation.dfy` (`Correlation`): `waitForIrcCommand` and its by-channel variant, as a state
  machine. The wait is offered events and clock readings, and the first decision wins.
- `outgoing.dfy` (`Outgoing`): the lines `join`, `part` and `say` build, the checks of `say`,
  and the round trip of `say`'s tag block through the parser.
- `projection.dfy` (`Projections`): the pure projections inside the handlers. These are:
  - the USERNOTICE `msg-id` dispatch and its helpers;
  - the PRIVMSG event;
  - CLEARCHAT;
  - the NOTICE classification;
  - the raid `getProfileImageURL`.
- `client.dfy` (`TmiClient`): the `Client` class, with these fields:
  - the identity;
  - the channel registry (a map from normalised name to a `Channel` object, whose `isJoined`
    and room state the handlers update in place);
  - the pending channel names;
  - the keepalive readings;
  - a connected flag;
  - the lines written to the socket;
  - the emitted events.

  Its methods are the command handlers and `onIrcLine`. The outbound operations are modelled up
  to the point where they wait.

Where the specification of the repository and the code disagree, the model follows the code.
Four places stand out, and each is stated and proved as the code has it:

- The parser's parameter loop never ends on a last parameter that has no space after it and
  does not start with `:`.
- A prefix with nothing after it loses its last character and is read again as the command.
- `normalizeName` strips only one `#`, after the emptiness test, so `#` normalises to the empty
  name.
- The tag-value escapes. The parser unescapes with `UnescapeIrcAsWritten`, so each recognised
  escape pair arrives as the text `undefined`. `say` escapes with `EscapeIrcAsWritten`, so a
  backslash goes out as three and a tab as a backslash before `undefined`. The corrected pair
  `UnescapeIrc`/`EscapeIrc` is only the intended half of the "## Findings" rows.

## Model

| member | source | states |
|---|---|---|
| IrcEscape.EscapeLetter | src/lib/irc/parser.ts:14-20 | each character the escape table covers has a letter that the unescape table maps back to that character |
| IrcEscape.UnescapeEscape | src/lib/irc/parser.ts:7-36 | scanning the escape of any string for pairs gives the string back |
| IrcEscape.UnescapeWithoutBackslash | src/lib/irc/parser.ts:22-28 | the backslash test is only a shortcut: the full scan leaves a backslash-free value unchanged |
| IrcEscape.UnescapeIrcScans | src/lib/irc/parser.ts:22-28 | unescaping a present value is the left-to-right, non-overlapping replacement of every recognised pair |
| IrcEscape.UnescapeIrcEscapeIrc | src/lib/irc/parser.ts:22-36 | corrected round trip: unescaping the escape of any value gives the value back |
| IrcEscape.EscapeIrcIsClean | src/lib/irc/parser.ts:30-36 | an escaped value holds no space, semicolon, CR or LF, so it cannot break a tag block |
| IrcEscape.EscapeIrcAsWrittenIsClean | src/lib/irc/parser.ts:30-36 | the escape as written also leaves no space, semicolon, CR, LF or other JavaScript whitespace |
| IrcEscape.UnescapeAsWrittenLosesPairs | src/lib/irc/parser.ts:7-28 | as written, the pair `\s` unescapes to the text `undefined`, and `a b` makes the round trip as `aundefinedb` |
| IrcEscape.EscapeAsWrittenLength | src/lib/irc/parser.ts:30-36 | the escape as written leaves a value with nothing to escape as it is, and makes any other value longer |
| IrcEscape.UnescapeAsWrittenLength | src/lib/irc/parser.ts:22-28 | the unescape as written never shortens a value, since each pair becomes the nine characters of `undefined` |
| IrcEscape.UnescapeEscapeAsWritten | src/lib/irc/parser.ts:7-36 | as written, a value comes back from escaping and unescaping exactly when it holds no whitespace, `;` or backslash |
| IrcEscape.EscapeAsWrittenMisencodes | src/lib/irc/parser.ts:14-36 | as written, one backslash escapes to three and a tab to a backslash before `undefined`; the corrected escape gives two backslashes and leaves the tab |
| Parser.Parse | src/lib/irc/parser.ts:38-41 | there is no message exactly for the empty line |
| Parser.ParseIrcLine | src/lib/irc/parser.ts:38-123 | the stage-by-stage scan of one working line, with the tag values unescaped as written, ends in exactly the outcome `Parse` gives |
| Parser.ReadParams | src/lib/irc/parser.ts:91-101 | the parameter loop hangs exactly when `ParamsOf` has no answer; otherwise it returns those parameters |
| Parser.DecodeTagBlock | src/lib/irc/parser.ts:103-120 | the tag loop fills `rawTags`, `tags` and the unknown tags as `DecodeTags` says, with each value unescaped as written, or throws what it throws |
| Parser.DecodeTagsFailureStays | src/lib/irc/parser.ts:105-116 | once a tag's decoder throws, later tags change nothing, and the block throws that error |
| Parser.TagBlockOf | src/lib/irc/parser.ts:60-63 | a line starting with `@` has its tags read from the word after the `@`, split at `;`; the scan goes on after that word |
| Parser.TagBlockOnlyAfterAt | src/lib/irc/parser.ts:60-63 | a tag list is read exactly when the line starts with `@` |
| Parser.NoTagsBeforePrefix | src/lib/irc/parser.ts:60-63 | a line starting with the `:` of a prefix has no tags and is scanned from its first character |
| Parser.PrefixParts | src/lib/irc/parser.ts:69-78 | the prefix splits as `nick!user@host`, `nick!user`, `nick@host` or a bare host, and the missing parts stay undefined |
| Parser.PrefixStageOf | src/lib/irc/parser.ts:66-81 | a prefix followed by a space is the text between the `:` and the space, and the scan goes on after the space |
| Parser.PrefixWithoutSpace | src/lib/irc/parser.ts:66-84 | a prefix with no space after it loses its last character, and the working line does not advance, so the command is read from the prefix again |
| Parser.WordOf | src/lib/irc/parser.ts:83-84 | the command word is read up to the next space, and the scan goes on after it; a last word leaves nothing |
| Parser.ChannelOf | src/lib/irc/parser.ts:85-89 | the channel is the word after the command when that word starts with `#`, and it keeps the `#` |
| Parser.ChannelOnlyAfterHash | src/lib/irc/parser.ts:85-89 | a channel is read exactly when the working line starts with `#`; it then keeps the `#`, and otherwise the working line is left as it is |
| Parser.ParamsTrailing | src/lib/irc/parser.ts:93-96 | a `:` parameter is the rest of the line without its `:`, spaces included, and it is the last parameter |
| Parser.ParamsWord | src/lib/irc/parser.ts:98-100 | a parameter not starting with `:` is the text up to the next space |
| Parser.ParamsHang | src/lib/irc/parser.ts:92-101 | the loop never ends when the last parameter does not start with `:` and has no space after it |
| Parser.ParamsOfWords | src/lib/irc/parser.ts:91-101 | space-free words each followed by a space, then a `:` parameter, are read back as written |
| Parser.ParamsAreWords | src/lib/irc/parser.ts:91-101 | every parameter but the last one read is a single space-free word |
| Parser.DecodeTagsThrowAt | src/lib/irc/parser.ts:105-116 | a tag whose decoder throws makes the block throw |
| Parser.ThrowingTag | src/lib/irc/parser.ts:105-116 | a block that throws has a tag whose decoder throws |
| Parser.DecodeTagsFails | src/lib/irc/parser.ts:105-116 | the block throws exactly when some tag's decoder throws |
| Parser.DecodeTagsRawTags | src/lib/irc/parser.ts:112-113 | when the block does not throw, `rawTags` maps each key to the value of its last tag, unescaped as written (each recognised pair becomes `undefined`) |
| Parser.DecodeTagsFields | src/lib/irc/parser.ts:114-115 | when the block does not throw, each field holds the value decoded from the last tag that names that field, after the unescape as written |
| Parser.DecodeTagsUnknown | src/lib/irc/parser.ts:107-110 | the unknown tags are exactly the keys the table lacks, each with the still-escaped value of its last tag |
| Parser.ParseOutcomes | src/lib/irc/parser.ts:91-116 | a non-empty line hangs exactly when its parameter loop never ends, and otherwise throws exactly when some tag's decoder throws |
| Parser.ParsedMessage | src/lib/irc/parser.ts:103-122 | a parsed message keeps the line as `raw`, holds the loop's parameters, the tags unescaped as written, the decoded fields and, when there are any, the unknown tags |
| Parser.UnknownTagsAttached | src/lib/irc/parser.ts:118-120 | `unknownTags` is attached exactly when some tag key is not in the table |
| Parser.UnknownKeysOf | src/lib/irc/parser.ts:105-110 | a tag block leaves some unknown key exactly when some tag's key is not in the table |
| Parser.TagStored | src/lib/irc/parser.ts:106-113 | the last tag with a given key sets its raw value, unescaped as written, and an unknown key also records the value as it arrived |
| Parser.FieldStored | src/lib/irc/parser.ts:112-116 | the last tag decoded into a field sets it: an unknown key as the text unescaped as written under its own name, a known key through its table entry |
| Parser.ParseUntaggedLine | src/lib/irc/parser.ts:38-123 | `:nick!user@host COMMAND #channel :text` parses into exactly those parts |
| Tags.DecodeBadges | src/lib/irc/tags.ts:27-39 | the badge loop returns `BadgesOf` of the text |
| Tags.BadgeLookup | src/lib/irc/tags.ts:33-36 | a badge name is present exactly when some item names it, and it holds the version of the last such item |
| Tags.BadgeKeys | src/lib/irc/tags.ts:33-36 | the keys of the badge map are exactly the names of the items |
| Tags.BadgeEntriesKeys | src/lib/irc/tags.ts:33-36 | the keys set by a list of badge items are exactly the names of those items |
| Tags.DecodeEmotes | src/lib/irc/tags.ts:40-45 | missing or empty text gives no emotes; otherwise the result is that of the emote loop over the `/`-separated items |
| Tags.DecodeEmoteItems | src/lib/irc/tags.ts:46-55 | the emote loop returns `EmotesOfItems` of the items: it throws at an item without positions, and otherwise sets each id to its ranges |
| Tags.RangeOfNumbers | src/lib/irc/tags.ts:48-51 | a `start-end` pair of decimal numbers is stored as `[start, end + 1]` |
| Tags.EmoteLookup | src/lib/irc/tags.ts:40-56 | the emotes decoder throws exactly when some item has no positions; otherwise an id holds the ranges of the last item naming it |
| Tags.DecodeFlags | src/lib/irc/tags.ts:65-92 | the flags decoder returns `FlagsOf` of the text and the message parameters, whose cases `DecodeFails`, `FlagOfNumbers` and `EmptyTextDecodesEmpty` spell out |
| Tags.DecodeFlagItems | src/lib/irc/tags.ts:72-89 | the flag loop pushes one flag per item in order, or throws at the first item without severities |
| Tags.FlagOfNumbers | src/lib/irc/tags.ts:73-88 | a flag `start-end:severities` covers the code points `[start, end + 1)` of the message text and carries its severities |
| Tags.SeverityLookup | src/lib/irc/tags.ts:76-86 | each severity part sets its category to its level, and a later part of the same category wins |
| Tags.DecodeTag | src/lib/irc/tags.ts:22-99 | running the decoder of a kind gives what `Decode` says, the looping decoders included |
| Tags.DecodeFails | src/lib/irc/tags.ts:40-98 | a decoder throws exactly when it would split `undefined`, an emote or flag item lacks its `:` part, or flags arrive on a message without a first parameter |
| Tags.BooleanEncodings | src/lib/irc/tags.ts:25-26 | `literalBoolean` is true only for `true` and `booleanNumber` only for `1`, so each rejects the other's encoding |
| Tags.RoomNumbersDecodeAsNumbers | src/lib/irc/tags.ts:57-64 | the followers-only and slow decoders are `Number`: `-1` and `0` stay numbers |
| Tags.ListDecoders | src/lib/irc/tags.ts:93-98 | the thread-id and comma-list decoders split, so joining the parts back gives the text; empty text gives one empty part |
| Tags.EmptyTextDecodesEmpty | src/lib/irc/tags.ts:27-69 | missing or empty text gives no badges, no emotes and no flags, and is not an error |
| TagsDataFacts.KeyLookupInverse | src/lib/irc/tags-data.ts:15-405 | looking up an entry's own wire key finds that entry, so no key is listed twice |
| TagsDataFacts.NameLookupInverse | src/lib/irc/tags-data.ts:15-405 | looking up an entry's field name finds that entry |
| TagsDataFacts.FieldNamesInjective | src/lib/irc/tags-data.ts:15-405 | distinct entries store their values under distinct fields |
| TagsDataFacts.TableHasEveryEntry | src/lib/irc/tags.ts:101-103 | every entry is found under its own key, paired with its field name and its decoder |
| TagsDataEntries.ModEntry | src/lib/irc/tags-data.ts:84-87 | `mod` is decoded as the literal `true` |
| TagsDataEntries.WasGiftedEntry | src/lib/irc/tags-data.ts:281-284 | `msg-param-was-gifted` is decoded as the literal `true` |
| TagsDataEntries.SubsOnlyEntry | src/lib/irc/tags-data.ts:362-365 | `subs-only` is decoded as the number `1` |
| TagsDataEntries.SubscriberEntry | src/lib/irc/tags-data.ts:366-369 | `subscriber` is decoded as the number `1` |
| TagsDataEntries.FollowersOnlyEntry | src/lib/irc/tags-data.ts:68-71 | `followers-only` has its own decoder |
| TagsDataEntries.SlowEntry | src/lib/irc/tags-data.ts:358-361 | `slow` has its own decoder |
| TagsDataEntries.ProfileImageUrlEntry | src/lib/irc/tags-data.ts:221-224 | the profile image tag is stored under `msgParamProfileImageUrl`, not the camel case of its key |
| TagsDataEntries.ThreadIdEntry | src/lib/irc/tags-data.ts:382-385 | `thread-id` is split into its parts |
| TagsDataEntries.EmoteSetsEntry | src/lib/irc/tags-data.ts:52-55 | `emote-sets` is a comma-separated list |
| Channels.NormalizeName | src/lib/Channel.ts:30-39 | a name is refused exactly when it trims to nothing; otherwise the result has no uppercase letter and is no longer than the trimmed name |
| Channels.NormalizeRef | src/lib/Channel.ts:21-24 | a channel answers with its own name unchanged; a string is normalised |
| Channels.Channel.Init | src/lib/Channel.ts:13-16 | a channel starts not joined and without room state, with the given name, id and temporary flag |
| Channels.Channel.New | src/lib/Channel.ts:13-16 | `new Channel(name)` fails exactly when the name is refused, and otherwise holds the normalised name and is not joined |
| Channels.Channel.NewTemporary | src/lib/Channel.ts:43-49 | `new ChannelTemporary(name, id)` is as `new Channel`, with the id set and `isTemporary` true |
| Channels.NormalizeCanonical | src/lib/Channel.ts:30-39 | a trimmed lowercase name that does not start with `#` is already normal |
| Channels.NormalizeStripsOneHash | src/lib/Channel.ts:35-37 | exactly one `#` is stripped: `#s` gives `s`, and `##s` gives `#s` |
| Channels.NormalizeEdgeCases | src/lib/Channel.ts:30-37 | `#` is accepted as the empty name, while the empty name and an all-blank name are refused |
| Channels.NormalizeNotIdempotent | src/lib/Channel.ts:35-37 | normalising twice can differ from normalising once |
| Tokens.Token.constructor | src/lib/Token.ts:28-38 | a string becomes the value, a getter is kept, and no argument gives the anonymous sentinel; the token is anonymous exactly then or when the string is the sentinel |
| Tokens.Token.GetToken | src/lib/Token.ts:64-80 | a non-empty value is returned as it is; otherwise a non-empty answer of the getter is stored and returned, and an empty answer or a missing getter is an error |
| Tokens.FormatIrcValue | src/lib/Token.ts:82-95 | a missing or empty value is an error; otherwise the result starts with `oauth:`, has something after it, and is the value itself or the value with `oauth:` in front |
| Tokens.FormatIrcIdempotent | src/lib/Token.ts:90-94 | formatting an already formatted token changes nothing |
| Tokens.FormatIrcPrefix | src/lib/Token.ts:90-94 | a prefixed token with a body is kept, a bare body gains the prefix, and the prefix alone is prefixed again |
| Correlation.ByChannel | src/lib/Client.ts:1172-1190 | the by-channel wait fails exactly when the target name is refused; otherwise it filters on the normalised target and the nonce, and the timeout defaults to 10000 ms |
| Correlation.Decision | src/lib/Client.ts:1129-1170 | only a matching message of the awaited command resolves, only a listed NOTICE id rejects (and only when the list is not empty), and only a clock at or past the deadline times out |
| Correlation.SettledStays | src/lib/Client.ts:1135-1160 | once settled, a wait ignores every later input and runs no more cleanup |
| Correlation.RunIsFirstDecision | src/lib/Client.ts:1129-1170 | a run ends in the decision of the first input that has one, and the cleanup runs once if the wait settled and never otherwise |
| Correlation.FirstDecisionAt | src/lib/Client.ts:1129-1170 | the first input with a decision decides, whatever comes after it |
| Correlation.ResolvesOnFirstMatch | src/lib/Client.ts:1148-1165 | the first accepted message of the command, with nothing deciding before it, resolves the wait with that message, after one cleanup |
| Correlation.NoNoticeListener | src/lib/Client.ts:1165-1168 | without bad notices, no NOTICE can reject the wait |
| Correlation.ChannellessNeverMatches | src/lib/Client.ts:1177-1186 | a message without a channel never passes the by-channel filter |
| Correlation.MatchesNormalizedChannel | src/lib/Client.ts:1176-1186 | channel names are compared after normalisation: a wait for `foo` accepts a message about `#Foo` |
| Outgoing.SetEntrySpec | src/lib/Client.ts:1249-1251 | the key assignment makes the key hold the value, keeps every other entry in place, appends a new key, and keeps the keys distinct |
| Outgoing.PlanSayChecks | src/lib/Client.ts:1238-1273 | the checks of `say`, in order: not anonymous, a non-empty message of at most 500 UTF-16 code units, a channel that normalises; then the line with the nonce, its tags escaped as written, and the wait for the USERSTATE echoing it |
| Outgoing.PlanSayReady | src/lib/Client.ts:1238-1247 | a `say` goes through exactly when the client may speak there and the message fits, whatever the tags and the nonce |
| Outgoing.ItemsClean | src/lib/Client.ts:1253-1255 | no entry of the tag block, escaped as written, holds a space or a semicolon |
| Outgoing.SayLineTagBlock | src/lib/Client.ts:1249-1256 | the parser reads the tag block of a `say` line back as the escaped entries written into it, one per tag |
| Outgoing.TagItemRoundTrip | src/lib/Client.ts:1253-1255 | for a key and value without `=`, an entry is read back as the key and value escaped as written; unescaping as written then gives the value back exactly when it holds no whitespace, `;` or backslash |
| Outgoing.TagValueCutAtEquals | src/lib/Client.ts:1253-1255 | the escape leaves `=` alone, so a value holding `=` comes back cut at the first one |
| Outgoing.SayTagsCarryNonce | src/lib/Client.ts:1249-1251 | a `say` line carries exactly one `client-nonce`, the generated one |
| Outgoing.ReplyListensForInvalidParent | src/lib/Client.ts:1257-1273 | a reply is also refused by `invalid_parent`, and a plain message is not |
| Projections.GetPlan | src/lib/Client.ts:628-644 | no plan gives the empty plan; otherwise the plan and name as given, the tier from the table, and `isPrime` exactly for `Prime` |
| Projections.PlanTiers | src/lib/Client.ts:628-644 | `2000` and `3000` are tiers 2 and 3; `1000`, `Prime` and any other plan are tier 1 |
| Projections.GetSimpleUser | src/lib/Client.ts:646-665 | `isAnonymous` is present only when an argument was given |
| Projections.GetUser | src/lib/Client.ts:667-694 | the sender's fields; with the anonymous check, `isAnonymous` says whether the login is the anonymous gifter |
| Projections.GetGoal | src/lib/Client.ts:707-723 | there is no goal unless the contribution type is truthy, and a missing description becomes empty |
| Projections.UserNoticeOf | src/lib/Client.ts:725-979 | a notice is produced exactly for the `msg-id`s the client handles, under that id's event name; only the gift notices check for the anonymous gifter, and only they can carry a goal; the detail fields are those `DetailPaths` lists for the id, each read from its tag |
| Projections.Details | src/lib/Client.ts:734-975 | the detail fields are exactly the listed paths, each holding the value of the tag it is read from |
| Projections.ResubDetails | src/lib/Client.ts:749-787 | a resub carries its streak only when it is to be shared, and its gift months and gifter only when it was gifted; tenure and cumulative months are the cumulative months |
| Projections.SubGiftDetails | src/lib/Client.ts:808-840 | a gifted subscription names its mystery gift only when it came from one, always carries the gift months, and has a recipient without an `isAnonymous` field |
| Projections.NearestIndex | src/lib/Client.ts:934-939 | the chosen size is at least as near as every offered size, and strictly nearer than every earlier one |
| Projections.ProfileImageUrl | src/lib/Client.ts:930-946 | a missing size is 50; a size at most 0 is a range error; a size not offered is a range error naming the nearest size; otherwise the first `%s` becomes `<size>x<size>` |
| Projections.SuggestedSizeTie | src/lib/Client.ts:934-940 | ties go to the earlier, smaller size: 39 suggests 28 |
| Projections.SuggestedSizeAbove | src/lib/Client.ts:934-940 | a size above the largest suggests 600 |
| Projections.ReplaceFirstOnly | src/lib/Client.ts:945 | only the first placeholder of the URL is replaced |
| Projections.MessageText | src/lib/Client.ts:990-993 | an action loses its CTCP wrapping, and any other text is kept |
| Projections.ActionRoundTrip | src/lib/Client.ts:990-993 | wrapping a text in CTCP ACTION and reading it back gives the text, flagged as an action |
| Projections.RewardOf | src/lib/Client.ts:1052-1059 | a non-empty custom reward id is a custom reward; otherwise a highlighted or sub-mode-skipping `msg-id` is that reward; otherwise there is none |
| Projections.RewardPrecedence | src/lib/Client.ts:1052-1059 | a custom reward wins over a reward `msg-id` |
| Projections.ParentOf | src/lib/Client.ts:1024-1045 | the parent's user takes its `name` from the display-name tag, as its display name does, and the thread's user takes its login |
| Projections.ChatMessageOf | src/lib/Client.ts:982-1071 | the PRIVMSG projection throws exactly when there is no text or the badges field is not a badge map; otherwise it carries the shown text, the action flag, the founder badge, the automod and introduction flags, the reward, a cheer exactly when `bits` is present, and a parent exactly when its id is present, with its id, text, user and thread |
| Projections.ClearChatOf | src/lib/Client.ts:1089-1125 | no user clears the chat; a user without a ban duration is banned; with one, timed out for that duration |
| Projections.NoticeKindOf | src/lib/Client.ts:587-621 | room-mode notice ids are dropped, the two login failures are only logged, and any other notice is unhandled |
| TmiClient.ModeEvents | src/lib/Client.ts:512-553 | a room mode has an event exactly when the change holds its field; each event carries the channel, the new value and whether the mode is now on; at most five events |
| TmiClient.MergeState | src/lib/Client.ts:499-510 | the merged room state holds every changed field as sent and every other field as before |
| TmiClient.TargetOf | src/lib/Client.ts:452-468 | a missing name throws the caller's error and a refused one is an invalid name; a name whose normal form is registered finds that channel; any other is a temporary channel, whose constructor normalises the name once more |
| TmiClient.RoomLookup | src/lib/Client.ts:462-467 | `#name`, for a name already in normal form, finds the channel registered under that name, or otherwise a temporary channel of that name |
| TmiClient.HashAloneIsInvalid | src/lib/Client.ts:465-467 | a bare `#` normalises to the empty name, and the temporary channel built for it normalises that again and throws |
| TmiClient.NormalizeAll | src/lib/Client.ts:172-190 | the initial channels are refused exactly when one of them is, and otherwise are each normalised in order |
| TmiClient.ChainExtends | src/lib/Client.ts:1314-1341 | sending one more message of a running chain writes what the reference chain writes next and adds its wait, or stops the chain with its error |
| TmiClient.ChainStopped | src/lib/Client.ts:1314-1341 | after the first message that fails, the chain sends nothing more and ends with that error |
| TmiClient.ChainGoesThrough | src/lib/Client.ts:1314-1341 | a chain succeeds exactly when it is empty, or the socket is open and every planned message is ready |
| TmiClient.ChainLength | src/lib/Client.ts:1314-1341 | a chain writes no more lines than it has messages, and one line and one wait per message when it succeeds |
| TmiClient.ChainSentAt | src/lib/Client.ts:1314-1341 | in a chain that succeeds, line i is the planned line of message i and wait i is the wait it armed |
| TmiClient.ChainPlansAt | src/lib/Client.ts:1319-1339 | message i of a chain is planned as the `say` of that message; the first message of an untargeted chain is plain, and every other replies to the target or, without one, to the first message |
| TmiClient.ReplyChainGoesThrough | src/lib/Client.ts:1289-1341 | every line of a reply chain is written, and every wait armed, exactly when it is empty, or the socket is open, the client may speak in the channel and every message fits |
| TmiClient.HandlerOf | src/lib/Client.ts:265-375 | `001` is the welcome branch, the listed numerics are ignored, any other command outside the named ones (`421` included) is unhandled, and a named branch is reached only by its own command |
| TmiClient.HandlerOfCommandName | src/lib/Client.ts:265-375 | every named branch is reached by its command, and only the ignored and unhandled branches have no command of their own |
| TmiClient.Client.Init | src/lib/Client.ts:172-190 | a new client has no channels, the given pending names, no identity, no keepalive readings, a closed socket and no events |
| TmiClient.Client.New | src/lib/Client.ts:172-190 | construction fails exactly when an initial channel name is refused; otherwise the normalised names are pending |
| TmiClient.Client.Send | src/lib/Client.ts:397-403 | only an open socket takes a line; otherwise `send` throws and nothing is written |
| TmiClient.Client.GetChannel | src/lib/Client.ts:452-468 | the lookup fails as `TargetOf` says, returns the registered channel, or a fresh temporary one |
| TmiClient.Client.OnPong | src/lib/Client.ts:472-485 | the latency since the last keepalive ping, when one was sent, is recorded and reported |
| TmiClient.Client.OnGlobalUserState | src/lib/Client.ts:487-493 | a logged-in client learns its user id and colour; an anonymous one does not |
| TmiClient.Client.OnUserState | src/lib/Client.ts:495-497 | only the command event is emitted |
| TmiClient.Client.OnRoomState | src/lib/Client.ts:499-554 | the lookup may throw; otherwise the channel is joined, takes the room id and the merged state, and the mode events follow |
| TmiClient.Client.OnJoin | src/lib/Client.ts:556-567 | the lookup may throw; otherwise the channel is marked joined and the `join` event is queued |
| TmiClient.Client.OnPart | src/lib/Client.ts:569-585 | the lookup may throw; the client's own PART drops the channel from the registry and marks it parted, and another user's changes nothing |
| TmiClient.Client.OnNotice | src/lib/Client.ts:587-621 | the command event, then an unhandled report unless the notice is a room mode or a login failure |
| TmiClient.Client.OnUserNotice | src/lib/Client.ts:623-980 | the lookup may throw; a handled `msg-id` emits its event and an unhandled one is reported |
| TmiClient.Client.OnPrivmsg | src/lib/Client.ts:982-1071 | throws exactly when the lookup or the projection does; otherwise the `message` event carries the projection |
| TmiClient.Client.OnClearMsg | src/lib/Client.ts:1073-1087 | the lookup may throw; otherwise the `deleteMessage` event carries the deleted text or the empty string |
| TmiClient.Client.OnClearChat | src/lib/Client.ts:1089-1125 | the lookup may throw; otherwise the event `ClearChatOf` gives |
| TmiClient.Client.OnSocketClose | src/lib/Client.ts:238-248 | every registered channel is parted and goes back on the pending list, the registry empties, the keepalive readings clear, and the close event is emitted |
| TmiClient.Client.MarkAllParted | src/lib/Client.ts:240-244 | every registered channel's name is pending again and no channel counts as joined |
| TmiClient.Client.KeepaliveTick | src/lib/Client.ts:418-420 | the ping time is recorded, then the keepalive ping is sent or `send` throws |
| TmiClient.Client.Join | src/lib/Client.ts:1197-1210 | a refused name fails; a registered name gives its channel; any other is registered before the JOIN line is sent and waited for |
| TmiClient.Client.Part | src/lib/Client.ts:1215-1226 | a refused name fails; an unregistered one is ignored; a registered one is removed before the PART line is sent and waited for |
| TmiClient.Client.Say | src/lib/Client.ts:1232-1279 | `say` ends as `PlanSay` plans: the check that fails, or the line, with its tags escaped as written, written and the wait armed |
| TmiClient.Client.Reply | src/lib/Client.ts:1289-1308 | `reply` is a `say` carrying the parent id when there is a non-empty one |
| TmiClient.Client.ChainStep | src/lib/Client.ts:1326-1339 | one message of a chain is sent as its plan says: through `say` for the first message of an untargeted chain, through `reply` otherwise |
| TmiClient.Client.ChainAdvance | src/lib/Client.ts:1326-1339 | one more message extends the chain so far by the line it writes and the wait it arms, or ends it with its error |
| TmiClient.Client.ChainFrom | src/lib/Client.ts:1324-1340 | the loop over the messages writes the lines, and returns the result, of the reference `Chain` over the plans |
| TmiClient.Client.ReplyChain | src/lib/Client.ts:1314-1341 | the lines written and the result are those of the reference `Chain` over the planned messages |
| TmiClient.Client.JoinPendingChannels | src/lib/Client.ts:405-411 | pending names leave the list only once joined; without an error the list empties; no registered channel changes |
| TmiClient.Client.OnMembership | src/lib/Client.ts:287-296 | JOIN and PART throw exactly when the channel name is refused |
| TmiClient.Client.OnRoomCommand | src/lib/Client.ts:307-336 | the room commands throw exactly when their lookup (or, for PRIVMSG, the projection) does |
| TmiClient.Client.OnStateCommand | src/lib/Client.ts:297-316 | GLOBALUSERSTATE, USERSTATE and NOTICE never throw |
| TmiClient.Client.OnServerCommand | src/lib/Client.ts:266-375 | CAP, PING, PONG, RECONNECT, 001, the ignored numerics and unhandled commands do what their branches say |
| TmiClient.Client.Dispatch | src/lib/Client.ts:265-375 | each command's branch: what it emits first, whether it throws, and which parts of the state it may change |
| TmiClient.Client.OnIrcLine | src/lib/Client.ts:255-377 | an empty line is dropped; a line that throws or hangs in the parser emits nothing; otherwise `ircMessage` comes first, then the command's event |
| TmiClient.Client.OnParsed | src/lib/Client.ts:255-265 | what happens once the line is parsed, outcome by outcome |

## Left out

- Socket I/O: `connect`, `disconnect`, `onSocketOpen`, `onSocketError` and the splitting of a socket message into lines. `isConnected` is reduced to a flag, and the lines a socket would carry are the `outbox` field.
- Timers: the keepalive interval is the explicit step `KeepaliveTick`. The ping timeout that closes the socket is left out, and a wait's timeout is a clock reading offered to it.
- Promises: `join`, `part`, `say`, `reply` and `replyChain` are modelled up to their wait. The wait is the separate state machine in `Correlation`; the awaited answer, such as the server's id for a chain's first message, is a parameter.
- RECONNECT: its branch is modelled as emitting nothing, because the reconnect itself is socket I/O.
- The logger and the console warnings are left out.
- Random nonces: the random part of `say`'s client nonce is a parameter.
- The token getter: its answer is a parameter of `GetToken`. `getIrcToken`, which waits on it, is left out.
- The Helix HTTP calls, `validate` and `revoke`, are not part of this model.
- The whisper stub is left out.
- The identity and channel-id getters are left out.
- JavaScript run-time type checks (`instanceof`, `typeof … !== 'string'` and the `TypeError`s they throw) are left out. Channel references are a datatype of name or channel, and tag values are always text or undefined.
- `Number()` is modelled on decimal integer text after trimming, with the empty text giving 0. Other text gives NaN; exponents, fractions, hexadecimal and infinities are not modelled.
- Strings are sequences of code points with ASCII case mapping. UTF-16 is modelled only for `say`'s length limit.
- Set and object order: the order of the pending channels is not modelled, so `joinPendingChannels` takes them in any order. The order `Object.entries` lists tags in is `say`'s argument, given as a sequence.
- The caller's tags object that `say` mutates is modelled as a value, so the caller does not see the added nonce.
- `Object.assign` aliasing of a channel's room state is modelled by copying the merged map.
- `Channel.name` is a constant, because the core never reassigns it.
- The `reply` closure on PRIVMSG events is left out, because it only forwards to `reply`.
- TmiClient.Client.JoinPendingChannels: does not state which lines are written, because the order of the pending set is not modelled.
- TmiClient.Client.JoinPendingChannels, TmiClient.Client.OnServerCommand, TmiClient.Client.ReplyChain: every line is written at once, and each pending name is deleted once its JOIN is sent, not once it is confirmed. The source awaits each `join` and each `say` before the next, so a 001 sends only the first JOIN at once, and a rejected or timed-out wait stops the loop or the chain with the rest unsent.
- TmiClient.Client.Dispatch: for 001, states only that the pending set shrinks (the joins run in the background in the source), not which joins happen.
- TagsDataFacts.KeyLookupInverse: the converse, that a key found in the table is that entry's own key, is not proved symbolically, because each table lookup is a comparison against 94 string literals.
- Tokens.Token.FormatIrc: the method form has no contract of its own; `FormatIrcValue` carries it.

## Findings

The parser and `say` use the as-written escapes; the corrected members state what was
evidently intended.

| source | as written | input that shows it | evidently intended | confidence | as-written member | corrected member |
|---|---|---|---|---|---|---|
| src/lib/irc/parser.ts:7-28 | the unescape callback looks up the second character of the pair in a table keyed by two-character pairs, so every recognised pair becomes the text `undefined` | `\s` unescapes to `undefined`, so `a b` escapes to `a\sb` and comes back as `aundefinedb` | each pair becomes the character it stands for | not executed | IrcEscape.UnescapeAsWrittenLosesPairs | IrcEscape.UnescapeIrcEscapeIrc |
| src/lib/irc/parser.ts:14-36 | the escape table maps backslash to two backslashes, then a backslash is put in front; whitespace with no table entry becomes a backslash before `undefined` | one backslash escapes to three; a tab escapes to a backslash before `undefined` | a backslash escapes to two backslashes, and other characters stay as they are | not executed | IrcEscape.EscapeAsWrittenMisencodes | IrcEscape.EscapeIrcIsClean |
