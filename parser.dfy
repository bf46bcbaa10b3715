/**
 * The line tokenizer: IRCv3 message tags in front of a message laid out as in section 2.3.1
 * of RFC 1459. One pass over a working copy of the line reads, in order, the tag block
 * (after `@`), the prefix (after `:`), the command, the channel (when the next word starts
 * with `#`) and the parameters; then each tag is split at `=`, unescaped, stored raw, and
 * decoded through the tag table against the finished message. The unescape is
 * `UnescapeIrcAsWritten`, the callback as it stands, so each recognised escape pair arrives
 * as the text `undefined`.
 */
module Parser {
  import opened Wrappers
  import opened JsStrings
  import opened JsMaps
  import opened TagsData
  import opened Tags
  import opened IrcEscape

  /** The source of a message; a part the prefix does not have stays `undefined`. */
  datatype Prefix = Prefix(nick: Option<string>, user: Option<string>, host: Option<string>)

  const NoPrefix := Prefix(None, None, None)

  /** A parsed line. `unknownTags` is present only when some tag key is not in the table. */
  datatype IrcMessage = IrcMessage(
    raw: string,
    prefix: Prefix,
    command: string,
    channel: Option<string>,
    params: seq<string>,
    rawTags: map<string, Option<string>>,
    tags: map<string, TagValue>,
    unknownTags: Option<map<string, Option<string>>>)

  /** What parsing a line comes to: nothing for the empty line, a message, a decoder's
      error, or `Hangs` for the line on which the parameter loop never ends. */
  datatype ParseOutcome = NoMessage | Parsed(message: IrcMessage) | Threw(error: string) | Hangs

  // The stages of the scan, each on the working line left by the one before.

  /** The index of the next space, or the end of the text when there is none. */
  function NextSpaceOrEnd(w: string): (r: nat)
    ensures r <= |w|
  {
    var i := IndexOf(w, ' ');
    if i == -1 then |w| else i
  }

  /** The working line after the current word and the space that ends it. */
  function AdvancePastWord(w: string): string {
    JsSliceFrom(w, NextSpaceOrEnd(w) + 1)
  }

  /** The `;`-separated tags of a line starting with `@`, none otherwise. */
  function TagBlock(line: string): seq<string> {
    if StartsWith(line, "@") then Split(JsSliceFrom(FirstToken(line), 1), ';') else []
  }

  function AfterTags(line: string): string {
    if StartsWith(line, "@") then AdvancePastWord(line) else line
  }

  /** The parts of a prefix: `nick!user@host`, `nick@host`, or a bare host. */
  function PrefixOf(raw: string): Prefix {
    if '!' in raw then
      SplitHead(raw, '!');
      var parts := Split(raw, '!');
      var user := parts[1];
      if '@' in user then
        SplitHead(user, '@');
        var userParts := Split(user, '@');
        Prefix(Some(parts[0]), Some(userParts[0]), Some(userParts[1]))
      else Prefix(Some(parts[0]), Some(user), None)
    else if '@' in raw then
      SplitHead(raw, '@');
      var parts := Split(raw, '@');
      Prefix(Some(parts[0]), None, Some(parts[1]))
    else Prefix(None, None, Some(raw))
  }

  /** The prefix text: from after the `:` up to the next space, or up to the last character
      when there is no space. */
  function PrefixText(w: string): string {
    JsSlice(w, 1, IndexOf(w, ' '))
  }

  function PrefixStage(w: string): Prefix {
    if StartsWith(w, ":") then PrefixOf(PrefixText(w)) else NoPrefix
  }

  /** The working line after the prefix; with no space after the prefix it stays as it was. */
  function AfterPrefix(w: string): string {
    if StartsWith(w, ":") then JsSliceFrom(w, IndexOf(w, ' ') + 1) else w
  }

  function ChannelStage(w: string): Option<string> {
    if StartsWith(w, "#") then Some(FirstToken(w)) else None
  }

  function AfterChannel(w: string): string {
    if StartsWith(w, "#") then AdvancePastWord(w) else w
  }

  /** The parameters left in the working line: a `:` parameter takes the rest of the line,
      any other one the text up to the next space. `None` when a parameter is not followed
      by a space, where the loop pushes the same text forever. */
  function ParamsOf(w: string): Option<seq<string>>
    decreases |w|
  {
    if |w| == 0 then Some([])
    else if StartsWith(w, ":") then Some([w[1..]])
    else
      var i := IndexOf(w, ' ');
      if i == -1 then None
      else
        match ParamsOf(w[i + 1..])
        case None => None
        case Some(ps) => Some([w[..i]] + ps)
  }

  // The tag block.

  /** The key of a tag: its text before the first `=`. */
  function TagKey(tag: string): string {
    Split(tag, '=')[0]
  }

  /** The value of a tag: its text between the first and a second `=`, `undefined` without `=`. */
  function TagRawValue(tag: string): Option<string> {
    Nth(Split(tag, '='), 1)
  }

  /** The field a tag is decoded into and the decoder it goes through; a key the table does
      not have is decoded as a string under its own name. */
  function TagField(key: string): (string, TagKind) {
    TagTable(key).GetOr((key, StringKind))
  }

  /** The maps a tag block fills. */
  datatype TagMaps = TagMaps(
    rawTags: map<string, Option<string>>,
    tags: map<string, TagValue>,
    unknown: map<string, Option<string>>)

  const EmptyTagMaps := TagMaps(map[], map[], map[])

  /** The decoded value of one tag against the message parameters. */
  function DecodedTag(tag: string, params: seq<string>): Result<TagValue> {
    Decode(TagField(TagKey(tag)).1, UnescapeIrcAsWritten(TagRawValue(tag)), params)
  }

  /** One turn of the tag loop. */
  function TagStep(m: TagMaps, tag: string, params: seq<string>): Result<TagMaps> {
    var key := TagKey(tag);
    match DecodedTag(tag, params)
    case Failure(e) => Failure(e)
    case Success(d) =>
      Success(TagMaps(
        m.rawTags[key := UnescapeIrcAsWritten(TagRawValue(tag))],
        m.tags[TagField(key).0 := d],
        if TagTable(key).None? then m.unknown[key := TagRawValue(tag)] else m.unknown))
  }

  /** The tag loop over a whole block; the first tag whose decoder throws ends it. */
  function DecodeTags(block: seq<string>, params: seq<string>): Result<TagMaps>
    decreases |block|
  {
    if |block| == 0 then Success(EmptyTagMaps)
    else StepAfter(DecodeTags(block[..|block| - 1], params), block[|block| - 1], params)
  }

  /** The next turn of the tag loop, unless an earlier one threw. */
  function StepAfter(prev: Result<TagMaps>, tag: string, params: seq<string>): Result<TagMaps> {
    match prev
    case Failure(e) => Failure(e)
    case Success(m) => TagStep(m, tag, params)
  }

  /** One more tag at the end of the block. */
  lemma DecodeTagsSnoc(block: seq<string>, i: nat, params: seq<string>)
    requires i < |block|
    ensures DecodeTags(block[..i + 1], params) == StepAfter(DecodeTags(block[..i], params), block[i], params)
  {
    assert block[..i + 1][..i] == block[..i];
  }

  /** Once a tag throws, the rest of the block changes nothing: the block throws that error. */
  lemma {:induction false} DecodeTagsFailureStays(block: seq<string>, i: nat, params: seq<string>)
    requires i <= |block|
    requires DecodeTags(block[..i], params).Failure?
    ensures DecodeTags(block, params) == DecodeTags(block[..i], params)
    decreases |block| - i
  {
    if i < |block| {
      DecodeTagsSnoc(block, i, params);
      DecodeTagsFailureStays(block, i + 1, params);
    } else {
      assert block[..i] == block;
    }
  }

  /** The working line after the command. */
  function AfterCommand(line: string): string {
    AdvancePastWord(AfterPrefix(AfterTags(line)))
  }

  /** The working line the parameter loop starts from. */
  function ParamText(line: string): string {
    AfterChannel(AfterCommand(line))
  }

  /** The whole scan of one line: nothing exactly for the empty line. */
  function Parse(line: string): (r: ParseOutcome)
    ensures r == NoMessage <==> line == ""
  {
    if line == "" then NoMessage
    else
      match ParamsOf(ParamText(line))
      case None => Hangs
      case Some(params) =>
        match DecodeTags(TagBlock(line), params)
        case Failure(e) => Threw(e)
        case Success(m) =>
          Parsed(IrcMessage(line, PrefixStage(AfterTags(line)), FirstToken(AfterPrefix(AfterTags(line))),
                            ChannelStage(AfterCommand(line)), params, m.rawTags, m.tags,
                            if |m.unknown| > 0 then Some(m.unknown) else None))
  }

  /** `parseIrcLine`, advancing one working line through the stages. */
  method ParseIrcLine(line: string) returns (r: ParseOutcome)
    ensures r == Parse(line)
  {
    if line == "" {
      return NoMessage;
    }
    var workingLine := line;
    var tagsRaw := [];
    if StartsWith(workingLine, "@") {
      tagsRaw := Split(JsSliceFrom(FirstToken(workingLine), 1), ';');
      workingLine := AdvancePastWord(workingLine);
    }
    assert tagsRaw == TagBlock(line) && workingLine == AfterTags(line);
    ghost var afterTags := workingLine;
    var prefix := NoPrefix;
    if StartsWith(workingLine, ":") {
      var nextSpace := IndexOf(workingLine, ' ');
      prefix := PrefixOf(JsSlice(workingLine, 1, nextSpace));
      workingLine := JsSliceFrom(workingLine, nextSpace + 1);
    }
    assert prefix == PrefixStage(afterTags) && workingLine == AfterPrefix(afterTags);
    ghost var afterPrefix := workingLine;
    var command := FirstToken(workingLine);
    workingLine := AdvancePastWord(workingLine);
    ghost var afterCommand := workingLine;
    var channel := None;
    if StartsWith(workingLine, "#") {
      channel := Some(FirstToken(workingLine));
      workingLine := AdvancePastWord(workingLine);
    }
    assert afterCommand == AfterCommand(line);
    assert channel == ChannelStage(afterCommand) && workingLine == ParamText(line);
    var params;
    var hangs;
    params, hangs := ReadParams(workingLine);
    if hangs {
      return Hangs;
    }
    var maps := DecodeTagBlock(tagsRaw, params);
    if maps.Failure? {
      return Threw(maps.error);
    }
    var m := maps.value;
    r := Parsed(IrcMessage(line, prefix, command, channel, params, m.rawTags, m.tags,
                           if |m.unknown| > 0 then Some(m.unknown) else None));
  }

  /** The parameters found so far in front of those still to come. */
  function Prepend(front: seq<string>, rest: Option<seq<string>>): Option<seq<string>> {
    match rest
    case None => None
    case Some(ps) => Some(front + ps)
  }

  lemma PrependNothing(rest: Option<seq<string>>)
    ensures Prepend([], rest) == rest
  {
    if rest.Some? {
      assert [] + rest.value == rest.value;
    }
  }

  lemma PrependTwice(a: seq<string>, b: seq<string>, rest: Option<seq<string>>)
    ensures Prepend(a, Prepend(b, rest)) == Prepend(a + b, rest)
  {
    if rest.Some? {
      assert a + (b + rest.value) == (a + b) + rest.value;
    }
  }

  /** The parameter loop; `hangs` when it would never end. */
  method ReadParams(line: string) returns (params: seq<string>, hangs: bool)
    ensures hangs <==> ParamsOf(line).None?
    ensures !hangs ==> ParamsOf(line) == Some(params)
  {
    var workingLine := line;
    params := [];
    PrependNothing(ParamsOf(line));
    while |workingLine| > 0
      invariant ParamsOf(line) == Prepend(params, ParamsOf(workingLine))
      decreases |workingLine|
    {
      if StartsWith(workingLine, ":") {
        params := params + [workingLine[1..]];
        return params, false;
      }
      var nextSpace := IndexOf(workingLine, ' ');
      if nextSpace == -1 {
        return params, true;
      }
      PrependTwice(params, [workingLine[..nextSpace]], ParamsOf(workingLine[nextSpace + 1..]));
      params := params + [workingLine[..nextSpace]];
      workingLine := workingLine[nextSpace + 1..];
    }
    assert params + [] == params;
    return params, false;
  }

  /** The tag loop: store the unescaped value, note an unknown key with its escaped value,
      and decode into the field the table names. */
  method DecodeTagBlock(tagsRaw: seq<string>, params: seq<string>) returns (r: Result<TagMaps>)
    ensures r == DecodeTags(tagsRaw, params)
  {
    var rawTags := map[];
    var tags := map[];
    var unknownTagMap := map[];
    for i := 0 to |tagsRaw|
      invariant DecodeTags(tagsRaw[..i], params) == Success(TagMaps(rawTags, tags, unknownTagMap))
    {
      DecodeTagsSnoc(tagsRaw, i, params);
      ghost var before := TagMaps(rawTags, tags, unknownTagMap);
      var parts := Split(tagsRaw[i], '=');
      var key := parts[0];
      var value := Nth(parts, 1);
      if TagTable(key).None? {
        unknownTagMap := unknownTagMap[key := value];
      }
      var unescapedValue := UnescapeIrcAsWritten(value);
      rawTags := rawTags[key := unescapedValue];
      var field := TagField(key);
      var decoded := DecodeTag(field.1, unescapedValue, params);
      assert decoded == DecodedTag(tagsRaw[i], params);
      if decoded.Failure? {
        DecodeTagsFailureStays(tagsRaw, i + 1, params);
        return Failure(decoded.error);
      }
      tags := tags[field.0 := decoded.value];
      assert TagStep(before, tagsRaw[i], params) == Success(TagMaps(rawTags, tags, unknownTagMap));
    }
    assert tagsRaw[..|tagsRaw|] == tagsRaw;
    r := Success(TagMaps(rawTags, tags, unknownTagMap));
  }

  // What each stage reads.

  /** A line starting with `@` has its tags read from the word after `@`, split at `;`; the
      scan goes on after the space that ends the word. */
  lemma TagBlockOf(block: string, rest: string)
    requires ' ' !in block
    ensures TagBlock("@" + block + " " + rest) == Split(block, ';')
    ensures AfterTags("@" + block + " " + rest) == rest
  {
    var word := "@" + block;
    var line := "@" + block + " " + rest;
    assert line == word + [' '] + rest;
    assert StartsWith(line, "@") by {
      assert line[..1] == "@";
    }
    assert FirstToken(line) == word by {
      SplitAtFirst(word, ' ', rest);
    }
    assert word[1..] == block;
    assert NextSpaceOrEnd(line) == |word| by {
      IndexOfFirst(word, ' ', rest);
    }
    assert line[|word| + 1..] == rest;
  }

  /** A tag list is read exactly when the line starts with `@`. */
  lemma TagBlockOnlyAfterAt(line: string)
    ensures TagBlock(line) != [] <==> StartsWith(line, "@")
    ensures !StartsWith(line, "@") ==> AfterTags(line) == line
  {
  }

  /** The prefix `nick!user@host`, `nick!user`, `nick@host` or a bare host; the parts it
      does not have stay `undefined`. */
  lemma PrefixParts(nick: string, user: string, host: string)
    requires '!' !in nick && '!' !in user && '!' !in host && '@' !in user && '@' !in host
    ensures PrefixOf(nick + "!" + user + "@" + host) == Prefix(Some(nick), Some(user), Some(host))
    ensures PrefixOf(nick + "!" + user) == Prefix(Some(nick), Some(user), None)
    ensures '@' !in nick ==> PrefixOf(nick + "@" + host) == Prefix(Some(nick), None, Some(host))
    ensures PrefixOf(host) == Prefix(None, None, Some(host))
  {
    var userHost := user + "@" + host;
    assert nick + "!" + user + "@" + host == nick + ['!'] + userHost;
    assert '!' !in userHost;
    SplitAtFirst(nick, '!', userHost);
    SplitHead(userHost, '!');
    assert userHost == user + ['@'] + host;
    SplitAtFirst(user, '@', host);
    SplitHead(host, '@');
    assert nick + "!" + user == nick + ['!'] + user;
    SplitAtFirst(nick, '!', user);
    SplitHead(user, '!');
    if '@' !in nick {
      assert nick + "@" + host == nick + ['@'] + host;
      assert '!' !in nick + "@" + host;
      SplitAtFirst(nick, '@', host);
    }
  }

  /** A prefix followed by a space is the text between `:` and the space; the scan goes on
      after the space. */
  lemma PrefixStageOf(p: string, rest: string)
    requires ' ' !in p
    ensures PrefixStage(":" + p + " " + rest) == PrefixOf(p)
    ensures AfterPrefix(":" + p + " " + rest) == rest
  {
    var w := ":" + p + " " + rest;
    assert w == (":" + p) + [' '] + rest;
    IndexOfFirst(":" + p, ' ', rest);
    assert w[1..|p| + 1] == p;
  }

  /** A prefix with nothing after it loses its last character, and the working line is not
      advanced, so the prefix is read again as the command. */
  lemma PrefixWithoutSpace(p: string)
    requires ' ' !in p && |p| > 0
    ensures PrefixStage(":" + p) == PrefixOf(p[..|p| - 1])
    ensures AfterPrefix(":" + p) == ":" + p
    ensures FirstToken(AfterPrefix(":" + p)) == ":" + p
  {
    var w := ":" + p;
    assert ' ' !in w;
    assert w[1..|w| - 1] == p[..|p| - 1];
    SplitHead(w, ' ');
  }

  /** A word followed by a space is read whole, and the scan goes on after the space; a last
      word leaves nothing. */
  lemma WordOf(word: string, rest: string)
    requires ' ' !in word
    ensures FirstToken(word + " " + rest) == word
    ensures AdvancePastWord(word + " " + rest) == rest
    ensures FirstToken(word) == word && AdvancePastWord(word) == ""
  {
    assert word + " " + rest == word + [' '] + rest;
    SplitAtFirst(word, ' ', rest);
    IndexOfFirst(word, ' ', rest);
    SplitHead(word, ' ');
  }

  /** The channel is read exactly when the word after the command starts with `#`, and it
      keeps the `#`. */
  lemma ChannelOf(name: string, rest: string)
    requires ' ' !in name
    ensures ChannelStage("#" + name + " " + rest) == Some("#" + name)
    ensures AfterChannel("#" + name + " " + rest) == rest
  {
    assert "#" + name + " " + rest == ("#" + name) + " " + rest;
    WordOf("#" + name, rest);
  }

  lemma ChannelOnlyAfterHash(w: string)
    ensures ChannelStage(w).Some? <==> StartsWith(w, "#")
    ensures ChannelStage(w).Some? ==> StartsWith(ChannelStage(w).value, "#")
    ensures !StartsWith(w, "#") ==> AfterChannel(w) == w
  {
    if StartsWith(w, "#") {
      var i := IndexOf(w, ' ');
      SplitHead(w, ' ');
      if i != -1 {
        assert w[..i][..1] == w[..1];
      }
    }
  }

  /** A `:` parameter is the rest of the line without the `:`, spaces included, and ends the
      parameters. */
  lemma ParamsTrailing(t: string)
    ensures ParamsOf(":" + t) == Some([t])
  {
    assert (":" + t)[1..] == t;
  }

  /** A parameter not starting with `:` is the text up to the next space. */
  lemma ParamsWord(word: string, rest: string)
    requires ' ' !in word && !StartsWith(word, ":")
    ensures ParamsOf(word + " " + rest) == Prepend([word], ParamsOf(rest))
  {
    var w := word + " " + rest;
    assert w == word + [' '] + rest;
    IndexOfFirst(word, ' ', rest);
    assert w[..|word|] == word && w[|word| + 1..] == rest;
  }

  /** The loop never ends when a last parameter not starting with `:` has no space after it. */
  lemma ParamsHang(word: string)
    requires ' ' !in word && word != "" && !StartsWith(word, ":")
    ensures ParamsOf(word) == None
  {
  }

  /** The words of a parameter list, each followed by one space. */
  function SpacedWords(words: seq<string>): string {
    if |words| == 0 then "" else words[0] + " " + SpacedWords(words[1..])
  }

  /** Space-free parameters followed by a `:` parameter are read back as they were written. */
  lemma {:induction false} ParamsOfWords(words: seq<string>, trailing: string)
    requires forall i | 0 <= i < |words| :: ' ' !in words[i] && !StartsWith(words[i], ":")
    ensures ParamsOf(SpacedWords(words) + ":" + trailing) == Some(words + [trailing])
  {
    if |words| == 0 {
      assert SpacedWords(words) + ":" + trailing == ":" + trailing;
      assert words + [trailing] == [trailing];
      ParamsTrailing(trailing);
    } else {
      var rest := SpacedWords(words[1..]) + ":" + trailing;
      assert SpacedWords(words) + ":" + trailing == words[0] + " " + rest;
      ParamsWord(words[0], rest);
      ParamsOfWords(words[1..], trailing);
      ConsSnoc(words, trailing);
    }
  }

  /** Appending after a non-empty list is appending after its tail. */
  lemma ConsSnoc<T>(s: seq<T>, x: T)
    requires |s| > 0
    ensures s + [x] == [s[0]] + (s[1..] + [x])
  {
    assert s == [s[0]] + s[1..];
  }

  /** Every parameter but the last is a single space-free word. */
  lemma {:induction false} ParamsAreWords(w: string)
    ensures ParamsOf(w).Some? ==> forall i | 0 <= i < |ParamsOf(w).value| - 1 :: ' ' !in ParamsOf(w).value[i]
    decreases |w|
  {
    if |w| > 0 && !StartsWith(w, ":") {
      var i := IndexOf(w, ' ');
      if i != -1 {
        ParamsAreWords(w[i + 1..]);
      }
    }
  }

  // What the tag loop stores.

  /** Each tag's key with its unescaped value. */
  function RawPairs(block: seq<string>): seq<(string, Option<string>)> {
    seq(|block|, i requires 0 <= i < |block| => (TagKey(block[i]), UnescapeIrcAsWritten(TagRawValue(block[i]))))
  }

  /** Each tag's key with its value as it arrived, still escaped. */
  function EscapedPairs(block: seq<string>): seq<(string, Option<string>)> {
    seq(|block|, i requires 0 <= i < |block| => (TagKey(block[i]), TagRawValue(block[i])))
  }

  /** The decoded value of a tag, for a tag whose decoder does not throw. */
  function DecodedValue(tag: string, params: seq<string>): TagValue {
    match DecodedTag(tag, params)
    case Success(d) => d
    case Failure(_) => Undefined
  }

  /** Each tag's field name with its decoded value. */
  function FieldPairs(block: seq<string>, params: seq<string>): seq<(string, TagValue)> {
    seq(|block|, i requires 0 <= i < |block| => (TagField(TagKey(block[i])).0, DecodedValue(block[i], params)))
  }

  /** The entries of a map whose keys the tag table does not have. */
  function UnknownPart(m: map<string, Option<string>>): map<string, Option<string>> {
    map k | k in m && TagTable(k).None? :: m[k]
  }

  lemma UnknownPartSet(m: map<string, Option<string>>, key: string, v: Option<string>)
    ensures UnknownPart(m[key := v]) == if TagTable(key).None? then UnknownPart(m)[key := v] else UnknownPart(m)
  {
  }

  /** A turn of the tag loop throws when an earlier one did or the tag's decoder does. */
  lemma StepAfterFails(prev: Result<TagMaps>, tag: string, params: seq<string>)
    ensures StepAfter(prev, tag, params).Failure? <==> prev.Failure? || DecodedTag(tag, params).Failure?
  {
  }

  /** A tag whose decoder throws makes the block throw. */
  lemma DecodeTagsThrowAt(block: seq<string>, params: seq<string>, i: nat)
    requires i < |block| && DecodedTag(block[i], params).Failure?
    ensures DecodeTags(block, params).Failure?
  {
    DecodeTagsSnoc(block, i, params);
    StepAfterFails(DecodeTags(block[..i], params), block[i], params);
    DecodeTagsFailureStays(block, i + 1, params);
  }

  /** A block that throws has a tag whose decoder throws. */
  lemma {:induction false} ThrowingTag(block: seq<string>, params: seq<string>) returns (i: nat)
    requires DecodeTags(block, params).Failure?
    ensures i < |block| && DecodedTag(block[i], params).Failure?
    decreases |block|
  {
    var n := |block| - 1;
    assert DecodeTags(block, params) == StepAfter(DecodeTags(block[..n], params), block[n], params);
    StepAfterFails(DecodeTags(block[..n], params), block[n], params);
    if DecodeTags(block[..n], params).Failure? {
      i := ThrowingTag(block[..n], params);
      assert block[..n][i] == block[i];
    } else {
      i := n;
    }
  }

  /** The block throws exactly when the decoder of some tag in it throws. */
  lemma DecodeTagsFails(block: seq<string>, params: seq<string>)
    ensures DecodeTags(block, params).Failure? <==> exists i | 0 <= i < |block| :: DecodedTag(block[i], params).Failure?
  {
    if DecodeTags(block, params).Failure? {
      var i := ThrowingTag(block, params);
    }
    if exists i | 0 <= i < |block| :: DecodedTag(block[i], params).Failure? {
      var i :| 0 <= i < |block| && DecodedTag(block[i], params).Failure?;
      DecodeTagsThrowAt(block, params, i);
    }
  }

  /** When the block does not throw, `rawTags` maps each key to the unescaped value of its
      last tag. */
  lemma {:induction false} DecodeTagsRawTags(block: seq<string>, params: seq<string>)
    ensures DecodeTags(block, params).Success? ==> DecodeTags(block, params).value.rawTags == SetAll(RawPairs(block))
    decreases |block|
  {
    if |block| > 0 && DecodeTags(block, params).Success? {
      var n := |block| - 1;
      DecodeTagsRawTags(block[..n], params);
      assert RawPairs(block)[..n] == RawPairs(block[..n]);
    }
  }

  /** When the block does not throw, `tags` maps each field name to the value decoded from
      the last tag that names it. */
  lemma {:induction false} DecodeTagsFields(block: seq<string>, params: seq<string>)
    ensures DecodeTags(block, params).Success? ==> DecodeTags(block, params).value.tags == SetAll(FieldPairs(block, params))
    decreases |block|
  {
    if |block| > 0 && DecodeTags(block, params).Success? {
      var n := |block| - 1;
      DecodeTagsFields(block[..n], params);
      assert FieldPairs(block, params)[..n] == FieldPairs(block[..n], params);
    }
  }

  /** When the block does not throw, the unknown tags are exactly the keys the table does not
      have, each with the still escaped value of its last tag. */
  lemma {:induction false} DecodeTagsUnknown(block: seq<string>, params: seq<string>)
    ensures DecodeTags(block, params).Success? ==>
      DecodeTags(block, params).value.unknown == UnknownPart(SetAll(EscapedPairs(block)))
    decreases |block|
  {
    if |block| > 0 && DecodeTags(block, params).Success? {
      var n := |block| - 1;
      DecodeTagsUnknown(block[..n], params);
      assert EscapedPairs(block)[..n] == EscapedPairs(block[..n]);
      UnknownPartSet(SetAll(EscapedPairs(block[..n])), TagKey(block[n]), TagRawValue(block[n]));
    }
  }

  // The message a line parses to.

  /** A non-empty line hangs exactly when its parameter loop never ends, and throws exactly
      when, after the parameters, some tag's decoder throws. */
  lemma ParseOutcomes(line: string)
    requires line != ""
    ensures Parse(line) == Hangs <==> ParamsOf(ParamText(line)).None?
    ensures Parse(line).Threw? <==> (ParamsOf(ParamText(line)).Some? &&
      exists i | 0 <= i < |TagBlock(line)| :: DecodedTag(TagBlock(line)[i], ParamsOf(ParamText(line)).value).Failure?)
  {
    if ParamsOf(ParamText(line)).Some? {
      DecodeTagsFails(TagBlock(line), ParamsOf(ParamText(line)).value);
    }
  }

  /** A parsed message keeps the line as `raw`, holds the parameters its loop read, stores
      every tag's unescaped value under its key, decodes every tag into its field against
      those parameters, and carries the unknown tags (still escaped) when there are any. */
  lemma ParsedMessage(line: string)
    requires Parse(line).Parsed?
    ensures Parse(line).message.raw == line
    ensures ParamsOf(ParamText(line)) == Some(Parse(line).message.params)
    ensures Parse(line).message.rawTags == SetAll(RawPairs(TagBlock(line)))
    ensures Parse(line).message.tags == SetAll(FieldPairs(TagBlock(line), Parse(line).message.params))
    ensures Parse(line).message.unknownTags ==
      var unknown := UnknownPart(SetAll(EscapedPairs(TagBlock(line))));
      if |unknown| > 0 then Some(unknown) else None
  {
    var params := ParamsOf(ParamText(line)).value;
    DecodeTagsRawTags(TagBlock(line), params);
    DecodeTagsFields(TagBlock(line), params);
    DecodeTagsUnknown(TagBlock(line), params);
  }

  /** `unknownTags` is attached exactly when some tag key is not in the table. */
  lemma UnknownTagsAttached(line: string)
    requires Parse(line).Parsed?
    ensures Parse(line).message.unknownTags.Some? <==>
      exists i | 0 <= i < |TagBlock(line)| :: TagTable(TagKey(TagBlock(line)[i])).None?
  {
    ParsedMessage(line);
    UnknownKeysOf(TagBlock(line));
  }

  /** The tags of a block leave some unknown key exactly when some tag's key is not in the table. */
  lemma UnknownKeysOf(block: seq<string>)
    ensures |UnknownPart(SetAll(EscapedPairs(block)))| > 0 <==>
      exists i | 0 <= i < |block| :: TagTable(TagKey(block[i])).None?
  {
    var unknown := UnknownPart(SetAll(EscapedPairs(block)));
    if exists i | 0 <= i < |block| :: TagTable(TagKey(block[i])).None? {
      var i :| 0 <= i < |block| && TagTable(TagKey(block[i])).None?;
      SetAllKeys(EscapedPairs(block), TagKey(block[i]));
      assert EscapedPairs(block)[i].0 == TagKey(block[i]);
      assert TagKey(block[i]) in unknown;
    }
    if |unknown| > 0 {
      var k :| k in unknown;
      SetAllKeys(EscapedPairs(block), k);
      var i :| 0 <= i < |block| && EscapedPairs(block)[i].0 == k;
      assert TagTable(TagKey(block[i])).None?;
    }
  }

  /** The last tag with a given key sets `rawTags` for it to its unescaped value; when the key
      is not in the table, the unknown tags hold the value as it arrived. */
  lemma TagStored(block: seq<string>, params: seq<string>, m: TagMaps, i: nat)
    requires DecodeTags(block, params) == Success(m) && i < |block|
    requires forall l | i < l < |block| :: TagKey(block[l]) != TagKey(block[i])
    ensures TagKey(block[i]) in m.rawTags && m.rawTags[TagKey(block[i])] == UnescapeIrcAsWritten(TagRawValue(block[i]))
    ensures TagTable(TagKey(block[i])).None? <==> TagKey(block[i]) in m.unknown
    ensures TagKey(block[i]) in m.unknown ==> m.unknown[TagKey(block[i])] == TagRawValue(block[i])
  {
    DecodeTagsRawTags(block, params);
    DecodeTagsUnknown(block, params);
    SetAllLastWins(RawPairs(block), i);
    SetAllLastWins(EscapedPairs(block), i);
  }

  /** The last tag decoded into a field sets it: a key the table does not have is stored as
      the unescaped text under its own name, a known key through its table entry. */
  lemma FieldStored(block: seq<string>, params: seq<string>, m: TagMaps, i: nat)
    requires DecodeTags(block, params) == Success(m) && i < |block|
    requires forall l | i < l < |block| :: TagField(TagKey(block[l])).0 != TagField(TagKey(block[i])).0
    ensures TagField(TagKey(block[i])).0 in m.tags
    ensures m.tags[TagField(TagKey(block[i])).0] == DecodedValue(block[i], params)
    ensures TagTable(TagKey(block[i])).None? ==>
      var text := UnescapeIrcAsWritten(TagRawValue(block[i]));
      TagKey(block[i]) in m.tags && m.tags[TagKey(block[i])] == if text.Some? then Str(text.value) else Undefined
  {
    DecodeTagsFields(block, params);
    SetAllLastWins(FieldPairs(block, params), i);
  }

  /** A line starting with the `:` of a prefix has no tags and is scanned from its start. */
  lemma NoTagsBeforePrefix(line: string)
    requires |line| > 0 && line[0] == ':'
    ensures TagBlock(line) == [] && AfterTags(line) == line
  {
    assert !StartsWith(line, "@");
  }

  /** A full untagged line `:nick!user@host COMMAND #channel :text` parses into its parts. */
  lemma ParseUntaggedLine(nick: string, user: string, host: string, command: string, channel: string, text: string)
    requires '!' !in nick && '!' !in user && '!' !in host && '@' !in user && '@' !in host
    requires ' ' !in nick && ' ' !in user && ' ' !in host && ' ' !in command && ' ' !in channel
    ensures
      var line := ":" + nick + "!" + user + "@" + host + " " + command + " #" + channel + " :" + text;
      Parse(line) == Parsed(IrcMessage(line, Prefix(Some(nick), Some(user), Some(host)), command,
                                       Some("#" + channel), [text], map[], map[], None))
  {
    var p := nick + "!" + user + "@" + host;
    var afterPrefix := command + " " + ("#" + channel + " " + (":" + text));
    var line := ":" + nick + "!" + user + "@" + host + " " + command + " #" + channel + " :" + text;
    assert line == ":" + p + " " + afterPrefix;
    assert ' ' !in p;
    NoTagsBeforePrefix(line);
    PrefixStageOf(p, afterPrefix);
    PrefixParts(nick, user, host);
    WordOf(command, "#" + channel + " " + (":" + text));
    ChannelOf(channel, ":" + text);
    ParamsTrailing(text);
  }
}
