/**
 * The tag value decoders. Each turns the (already unescaped) text of a tag, which is
 * `undefined` when the tag had no `=`, into a value: the text itself, a number, a boolean,
 * a badge map, an emote map, a list of automod flags or a list of strings. A decoder that
 * calls `split` on `undefined` throws, and so does the flags decoder when the message has
 * no first parameter to take the flagged text from.
 */
module Tags {
  import opened Wrappers
  import opened JsStrings
  import opened JsMaps
  import opened TagsData

  /** The error a decoder throws when it calls `split` on `undefined`. */
  const SplitOfUndefined: string := "TypeError: Cannot read properties of undefined (reading 'split')"

  /** The error the flags decoder throws when it spreads the missing first parameter. */
  const SpreadOfUndefined: string := "TypeError: undefined is not iterable"

  /** A position range as the decoders store it: `end` is one past the last position. */
  datatype Range = Range(start: JsNumber, end: JsNumber)

  /** One automod flag: the flagged range, its severity per category letter, and the flagged text. */
  datatype MessageFlag = MessageFlag(index: Range, flags: map<string, JsNumber>, text: string)

  /** A decoded tag value. `Undefined` is what the string decoder gives for a tag without `=`. */
  datatype TagValue =
    | Undefined
    | Str(s: string)
    | Num(n: JsNumber)
    | Bool(b: bool)
    | BadgeMap(badges: map<string, Option<string>>)
    | EmoteMap(emotes: map<string, seq<Range>>)
    | FlagList(flags: seq<MessageFlag>)
    | StrList(items: seq<string>)

  /** Reading a field of the decoded tags object: a field that is not there reads as `undefined`. */
  function FieldValue(tags: map<string, TagValue>, name: string): TagValue {
    if name in tags then tags[name] else Undefined
  }

  /** JavaScript truthiness of a decoded value: maps and arrays are objects, hence truthy. */
  predicate Truthy(v: TagValue) {
    match v
    case Undefined => false
    case Str(s) => s != ""
    case Num(n) => n.Finite? && n.value != 0
    case Bool(b) => b
    case _ => true
  }

  // Badges: `name/version,name/version,...`

  /** One badge item: the text before the first `/`, and the text after it (or `undefined`). */
  function BadgeEntry(item: string): (string, Option<string>) {
    var parts := Split(item, '/');
    (parts[0], Nth(parts, 1))
  }

  function BadgeEntries(items: seq<string>): seq<(string, Option<string>)> {
    seq(|items|, i requires 0 <= i < |items| => BadgeEntry(items[i]))
  }

  /** What the badges decoder returns: empty for empty or missing text, otherwise the map
      set item by item, a later duplicate name overwriting an earlier one. */
  function BadgesOf(v: Option<string>): map<string, Option<string>> {
    if IsTruthy(v) then SetAll(BadgeEntries(Split(v.value, ','))) else map[]
  }

  method DecodeBadges(v: Option<string>) returns (badges: map<string, Option<string>>)
    ensures badges == BadgesOf(v)
  {
    badges := map[];
    if !IsTruthy(v) {
      return;
    }
    var items := Split(v.value, ',');
    ghost var entries := BadgeEntries(items);
    for i := 0 to |items|
      invariant badges == SetAll(entries[..i])
    {
      var parts := Split(items[i], '/');
      assert entries[i] == (parts[0], Nth(parts, 1));
      PrefixSnoc(entries, i, entries[i]);
      SetAllSnoc(entries[..i], entries[i]);
      badges := badges[parts[0] := Nth(parts, 1)];
    }
    assert entries[..|items|] == entries;
  }

  /** A badge name is present exactly when some item names it, and it holds the version of
      the last item that does. */
  lemma BadgeLookup(s: string, j: nat)
    requires s != "" && j < |Split(s, ',')|
    requires forall l | j < l < |Split(s, ',')| :: BadgeEntry(Split(s, ',')[l]).0 != BadgeEntry(Split(s, ',')[j]).0
    ensures BadgeEntry(Split(s, ',')[j]).0 in BadgesOf(Some(s))
    ensures BadgesOf(Some(s))[BadgeEntry(Split(s, ',')[j]).0] == BadgeEntry(Split(s, ',')[j]).1
  {
    var items := Split(s, ',');
    SetAllLastWins(BadgeEntries(items), j);
  }

  /** The keys of the badge map are exactly the names of the items. */
  lemma BadgeKeys(s: string, name: string)
    requires s != ""
    ensures name in BadgesOf(Some(s)) <==> exists i | 0 <= i < |Split(s, ',')| :: BadgeEntry(Split(s, ',')[i]).0 == name
  {
    assert BadgesOf(Some(s)) == SetAll(BadgeEntries(Split(s, ',')));
    BadgeEntriesKeys(Split(s, ','), name);
  }

  /** The keys set by a list of badge items are the names of those items. */
  lemma BadgeEntriesKeys(items: seq<string>, name: string)
    ensures name in SetAll(BadgeEntries(items)) <==> exists i | 0 <= i < |items| :: BadgeEntry(items[i]).0 == name
  {
    var entries := BadgeEntries(items);
    SetAllKeys(entries, name);
    if name in SetAll(entries) {
      var i :| 0 <= i < |entries| && entries[i].0 == name;
      assert BadgeEntry(items[i]).0 == name;
    }
    if exists i | 0 <= i < |items| :: BadgeEntry(items[i]).0 == name {
      var i :| 0 <= i < |items| && BadgeEntry(items[i]).0 == name;
      assert entries[i].0 == name;
    }
  }

  // Emotes: `id:start-end,start-end/id:start-end,...`

  /** One `start-end` position pair: the start as a number and the end plus one. */
  function RangeOf(pos: string): Range {
    var parts := Split(pos, '-');
    Range(ParseNumber(parts[0]), NumberOf(Nth(parts, 1)).PlusOne())
  }

  /** The ranges of one emote, in the order they are listed. */
  function RangesOf(indices: string): seq<Range> {
    var positions := Split(indices, ',');
    seq(|positions|, i requires 0 <= i < |positions| => RangeOf(positions[i]))
  }

  /** Whether an emote item has a `:` and so a list of positions to split. */
  predicate HasPositions(item: string) {
    |Split(item, ':')| >= 2
  }

  /** One emote item: its id and its ranges (none when it has no positions). */
  function EmoteEntry(item: string): (string, seq<Range>) {
    var parts := Split(item, ':');
    (parts[0], if |parts| >= 2 then RangesOf(parts[1]) else [])
  }

  function EmoteEntries(items: seq<string>): seq<(string, seq<Range>)> {
    seq(|items|, i requires 0 <= i < |items| => EmoteEntry(items[i]))
  }

  /** What the emotes decoder returns for the `/`-separated items: it throws when an item has
      no positions, and otherwise sets each id to its ranges, a later duplicate id overwriting. */
  function EmotesOfItems(items: seq<string>): Result<map<string, seq<Range>>> {
    if forall i | 0 <= i < |items| :: HasPositions(items[i]) then Success(SetAll(EmoteEntries(items)))
    else Failure(SplitOfUndefined)
  }

  function EmotesOf(v: Option<string>): Result<map<string, seq<Range>>> {
    if IsTruthy(v) then EmotesOfItems(Split(v.value, '/')) else Success(map[])
  }

  method DecodeEmotes(v: Option<string>) returns (r: Result<map<string, seq<Range>>>)
    ensures r == EmotesOf(v)
  {
    if !IsTruthy(v) {
      return Success(map[]);
    }
    r := DecodeEmoteItems(Split(v.value, '/'));
  }

  /** The loop of the emotes decoder: each item sets its id, and an item without positions throws. */
  method DecodeEmoteItems(items: seq<string>) returns (r: Result<map<string, seq<Range>>>)
    ensures r == EmotesOfItems(items)
  {
    ghost var entries := EmoteEntries(items);
    var emotes := map[];
    for i := 0 to |items|
      invariant forall j {:trigger HasPositions(items[j])} | 0 <= j < i :: HasPositions(items[j])
      invariant emotes == SetAll(entries[..i])
    {
      var parts := Split(items[i], ':');
      if |parts| < 2 {
        assert !HasPositions(items[i]);
        return Failure(SplitOfUndefined);
      }
      var ranges := RangesOf(parts[1]);
      assert entries[i] == (parts[0], ranges);
      assert entries[..i + 1] == entries[..i] + [entries[i]];
      SetAllSnoc(entries[..i], entries[i]);
      emotes := emotes[parts[0] := ranges];
    }
    assert entries[..|items|] == entries;
    return Success(emotes);
  }

  /** A `start-end` pair of decimal numbers is stored as `[start, end + 1]`. */
  lemma RangeOfNumbers(start: nat, end: nat)
    ensures RangeOf(NatToString(start) + "-" + NatToString(end)) == Range(Finite(start), Finite(end + 1))
  {
    NatToStringHasOnly(start, '-');
    NatToStringHasOnly(end, '-');
    SplitAtFirst(NatToString(start), '-', NatToString(end));
    ParseNumberOfNatToString(start);
    ParseNumberOfNatToString(end);
  }

  /** The emotes decoder throws exactly when some item has no positions; otherwise an id holds the
      ranges of the last item that names it. */
  lemma EmoteLookup(items: seq<string>, j: nat)
    requires j < |items|
    requires forall l | j < l < |items| :: EmoteEntry(items[l]).0 != EmoteEntry(items[j]).0
    ensures EmotesOfItems(items).Failure? <==> exists i | 0 <= i < |items| :: !HasPositions(items[i])
    ensures EmotesOfItems(items).Success? ==>
      EmoteEntry(items[j]).0 in EmotesOfItems(items).value &&
      EmotesOfItems(items).value[EmoteEntry(items[j]).0] == RangesOf(Split(items[j], ':')[1])
  {
    if EmotesOfItems(items).Success? {
      SetAllLastWins(EmoteEntries(items), j);
    }
  }

  // Flags: `start-end:A.n/P.n,...`

  /** A severity part's category: its first character, or the key `undefined` when it is empty. */
  function FlagCategory(part: string): string {
    if |part| > 0 then [part[0]] else "undefined"
  }

  /** A severity part's level: `Number` of its third character, NaN when there is none. */
  function FlagLevel(part: string): JsNumber {
    if |part| > 2 then ParseNumber([part[2]]) else NaN
  }

  /** The severity map of one flag, folded over its `/`-separated parts. */
  function Severities(flagType: string): map<string, JsNumber> {
    var parts := Split(flagType, '/');
    SetAll(seq(|parts|, i requires 0 <= i < |parts| => (FlagCategory(parts[i]), FlagLevel(parts[i]))))
  }

  /** Whether a flag item has a `:` and so a severity list. */
  predicate HasSeverities(item: string) {
    ':' in item
  }

  /** One flag item decoded against the code points of the message text. */
  function FlagOf(item: string, chars: string): MessageFlag {
    var parts := Split(item, ':');
    var index := RangeOf(parts[0]);
    var flagType := if |parts| >= 2 then parts[1] else "";
    MessageFlag(index, Severities(flagType), JsSlice(chars, index.start.AsSliceIndex(), index.end.AsSliceIndex()))
  }

  /** What the flags decoder returns: empty for empty or missing text; it throws when the message
      has no first parameter or an item has no severities; otherwise one flag per item, in order. */
  function FlagsOf(v: Option<string>, params: seq<string>): Result<seq<MessageFlag>> {
    if !IsTruthy(v) then Success([])
    else if |params| == 0 then Failure(SpreadOfUndefined)
    else FlagsOfItems(Split(v.value, ','), params[0])
  }

  /** The flags of the `,`-separated items against the code points of the message text. */
  function FlagsOfItems(items: seq<string>, chars: string): Result<seq<MessageFlag>> {
    if forall i | 0 <= i < |items| :: HasSeverities(items[i]) then
      Success(FlagEntries(items, chars))
    else Failure(SplitOfUndefined)
  }

  function FlagEntries(items: seq<string>, chars: string): seq<MessageFlag> {
    seq(|items|, i requires 0 <= i < |items| => FlagOf(items[i], chars))
  }

  method DecodeFlags(v: Option<string>, params: seq<string>) returns (r: Result<seq<MessageFlag>>)
    ensures r == FlagsOf(v, params)
  {
    if !IsTruthy(v) {
      return Success([]);
    }
    if |params| == 0 {
      return Failure(SpreadOfUndefined);
    }
    var items := Split(v.value, ',');
    assert FlagsOf(v, params) == FlagsOfItems(items, params[0]);
    r := DecodeFlagItems(items, params[0]);
  }

  /** The loop of the flags decoder: one flag per item, pushed in order. */
  method DecodeFlagItems(items: seq<string>, chars: string) returns (r: Result<seq<MessageFlag>>)
    ensures r == FlagsOfItems(items, chars)
  {
    ghost var all := FlagEntries(items, chars);
    var flags := [];
    for i := 0 to |items|
      invariant forall j {:trigger HasSeverities(items[j])} | 0 <= j < i :: HasSeverities(items[j])
      invariant flags == all[..i]
    {
      if !HasSeverities(items[i]) {
        return Failure(SplitOfUndefined);
      }
      var flag := FlagOf(items[i], chars);
      PrefixSnoc(all, i, flag);
      flags := flags + [flag];
    }
    assert all[..|items|] == all;
    return Success(flags);
  }

  lemma PrefixSnoc<T>(all: seq<T>, i: nat, x: T)
    requires i < |all| && all[i] == x
    ensures all[..i + 1] == all[..i] + [x]
  { }

  /** A flag written `start-end:severities` with decimal bounds covers the code points
      `[start, end + 1)` of the message text and carries the severities of its list. */
  lemma FlagOfNumbers(start: nat, end: nat, flagType: string, chars: string)
    requires ':' !in flagType
    requires start <= end + 1 <= |chars|
    ensures FlagOf(NatToString(start) + "-" + NatToString(end) + ":" + flagType, chars)
         == MessageFlag(Range(Finite(start), Finite(end + 1)), Severities(flagType), chars[start..end + 1])
  {
    var bounds := NatToString(start) + "-" + NatToString(end);
    var item := bounds + [':'] + flagType;
    assert NatToString(start) + "-" + NatToString(end) + ":" + flagType == item;
    NatToStringHasOnly(start, ':');
    NatToStringHasOnly(end, ':');
    assert ':' !in bounds;
    SplitAtFirst(bounds, ':', flagType);
    SplitHead(flagType, ':');
    assert Split(item, ':') == [bounds, flagType];
    RangeOfNumbers(start, end);
    var index := RangeOf(bounds);
    assert index.start.AsSliceIndex() == start && index.end.AsSliceIndex() == end + 1;
    assert JsSlice(chars, start, end + 1) == chars[start..end + 1];
  }

  /** Each severity part sets its category to its level; a later part of the same category wins. */
  lemma SeverityLookup(flagType: string, j: nat)
    requires j < |Split(flagType, '/')|
    requires forall l | j < l < |Split(flagType, '/')| ::
      FlagCategory(Split(flagType, '/')[l]) != FlagCategory(Split(flagType, '/')[j])
    ensures FlagCategory(Split(flagType, '/')[j]) in Severities(flagType)
    ensures Severities(flagType)[FlagCategory(Split(flagType, '/')[j])] == FlagLevel(Split(flagType, '/')[j])
  {
    var parts := Split(flagType, '/');
    SetAllLastWins(seq(|parts|, i requires 0 <= i < |parts| => (FlagCategory(parts[i]), FlagLevel(parts[i]))), j);
  }

  // The dispatch from a table kind to its decoder.

  /** What the decoder for `kind` returns, or the error it throws. */
  function Decode(kind: TagKind, v: Option<string>, params: seq<string>): Result<TagValue> {
    match kind
    case StringKind => Success(if v.Some? then Str(v.value) else Undefined)
    case NumberKind => Success(Num(NumberOf(v)))
    case LiteralBooleanKind => Success(Bool(v == Some("true")))
    case BooleanNumberKind => Success(Bool(v == Some("1")))
    case BadgesKind => Success(BadgeMap(BadgesOf(v)))
    case EmotesKind =>
      (match EmotesOf(v)
       case Success(m) => Success(EmoteMap(m))
       case Failure(e) => Failure(e))
    case FollowersOnlyKind => Success(Num(NumberOf(v)))
    case SlowKind => Success(Num(NumberOf(v)))
    case FlagsKind =>
      (match FlagsOf(v, params)
       case Success(f) => Success(FlagList(f))
       case Failure(e) => Failure(e))
    case ThreadIdKind => if v.Some? then Success(StrList(Split(v.value, '_'))) else Failure(SplitOfUndefined)
    case CommaSeparatedStringsKind =>
      if v.Some? then Success(StrList(Split(v.value, ','))) else Failure(SplitOfUndefined)
  }

  /** Runs the decoder for `kind`, the map- and list-building ones by their loops. */
  method DecodeTag(kind: TagKind, v: Option<string>, params: seq<string>) returns (r: Result<TagValue>)
    ensures r == Decode(kind, v, params)
  {
    match kind
    case BadgesKind =>
      var badges := DecodeBadges(v);
      r := Success(BadgeMap(badges));
    case EmotesKind =>
      var emotes := DecodeEmotes(v);
      r := if emotes.Success? then Success(EmoteMap(emotes.value)) else Failure(emotes.error);
    case FlagsKind =>
      var flags := DecodeFlags(v, params);
      r := if flags.Success? then Success(FlagList(flags.value)) else Failure(flags.error);
    case _ =>
      r := Decode(kind, v, params);
  }

  /** A decoder throws exactly when it splits `undefined`, when an emote or flag item lacks its
      `:` part, or when flags arrive on a message without a first parameter. */
  lemma DecodeFails(kind: TagKind, v: Option<string>, params: seq<string>)
    ensures Decode(kind, v, params).Failure? <==>
      match kind
      case ThreadIdKind | CommaSeparatedStringsKind => v.None?
      case EmotesKind =>
        IsTruthy(v) && exists i | 0 <= i < |Split(v.value, '/')| :: !HasPositions(Split(v.value, '/')[i])
      case FlagsKind =>
        IsTruthy(v) && (|params| == 0 || exists i | 0 <= i < |Split(v.value, ',')| :: !HasSeverities(Split(v.value, ',')[i]))
      case _ => false
  {
    if IsTruthy(v) {
      match kind
      case EmotesKind =>
        assert EmotesOf(v) == EmotesOfItems(Split(v.value, '/'));
      case FlagsKind =>
        if |params| > 0 {
          assert FlagsOf(v, params) == FlagsOfItems(Split(v.value, ','), params[0]);
        }
      case _ =>
    }
  }

  /** `literalBoolean` is true only for the exact text `true`, `booleanNumber` only for `1`; so
      each rejects the other's encoding. */
  lemma BooleanEncodings(v: Option<string>, params: seq<string>)
    ensures Decode(LiteralBooleanKind, v, params) == Success(Bool(true)) <==> v == Some("true")
    ensures Decode(BooleanNumberKind, v, params) == Success(Bool(true)) <==> v == Some("1")
    ensures Decode(LiteralBooleanKind, Some("1"), params) == Success(Bool(false))
    ensures Decode(BooleanNumberKind, Some("true"), params) == Success(Bool(false))
  {
  }

  /** The followers-only and slow decoders are the number decoder: `-1` and `0` stay numbers. */
  lemma RoomNumbersDecodeAsNumbers(v: Option<string>, params: seq<string>)
    ensures Decode(FollowersOnlyKind, v, params) == Decode(NumberKind, v, params)
    ensures Decode(SlowKind, v, params) == Decode(NumberKind, v, params)
    ensures Decode(FollowersOnlyKind, Some("-1"), params) == Success(Num(Finite(-1)))
    ensures Decode(SlowKind, Some("0"), params) == Success(Num(Finite(0)))
  {
    ParseNumberOfIntToString(-1);
    ParseNumberOfIntToString(0);
  }

  /** The list decoders split on their separator, so joining the parts back gives the text and
      empty text gives one empty part. */
  lemma ListDecoders(s: string, params: seq<string>)
    ensures Decode(ThreadIdKind, Some(s), params).Success?
    ensures JoinWith(Decode(ThreadIdKind, Some(s), params).value.items, "_") == s
    ensures Decode(CommaSeparatedStringsKind, Some(s), params).Success?
    ensures JoinWith(Decode(CommaSeparatedStringsKind, Some(s), params).value.items, ",") == s
    ensures Decode(ThreadIdKind, Some(""), params) == Success(StrList([""]))
    ensures Decode(CommaSeparatedStringsKind, Some(""), params) == Success(StrList([""]))
  {
    SplitDecoder(ThreadIdKind, '_', s, params);
    SplitDecoder(CommaSeparatedStringsKind, ',', s, params);
    SplitJoin(s, '_');
    SplitJoin(s, ',');
    SplitDecoder(ThreadIdKind, '_', "", params);
    SplitDecoder(CommaSeparatedStringsKind, ',', "", params);
    SplitHead("", '_');
    SplitHead("", ',');
  }

  /** The two list decoders are a split of present text at their separator. */
  lemma SplitDecoder(kind: TagKind, sep: char, s: string, params: seq<string>)
    requires (kind == ThreadIdKind && sep == '_') || (kind == CommaSeparatedStringsKind && sep == ',')
    ensures Decode(kind, Some(s), params) == Success(StrList(Split(s, sep)))
  {
  }

  /** Missing or empty text is not an error for the collection decoders: it gives no badges,
      no emotes and no flags. */
  lemma EmptyTextDecodesEmpty(v: Option<string>, params: seq<string>)
    requires !IsTruthy(v)
    ensures Decode(BadgesKind, v, params) == Success(BadgeMap(map[]))
    ensures Decode(EmotesKind, v, params) == Success(EmoteMap(map[]))
    ensures Decode(FlagsKind, v, params) == Success(FlagList([]))
  {
  }
}
