/**
 * Channel names and the channel record the client keeps per joined room.
 *
 * `NormalizeName` trims, lowercases and strips one leading `#`, refusing a name that is
 * empty once trimmed; the emptiness test comes before the strip, so `#` alone becomes the
 * empty name. A `Channel` holds its normalised name, its room id, the last room state and
 * whether the client is joined; a temporary channel is one built for a message about a room
 * that is not in the registry.
 */
module Channels {
  import opened Wrappers
  import opened JsStrings
  import opened Tags

  const InvalidChannelName: string := "Invalid channel name"

  /** `Channel.normalizeName` on a string. */
  function NormalizeName(name: string): (r: Result<string>)
    ensures r.Failure? <==> Trim(name) == ""
    ensures r.Failure? ==> r.error == InvalidChannelName
    ensures r.Success? ==> forall i | 0 <= i < |r.value| :: !IsUpper(r.value[i])
    ensures r.Success? ==> |r.value| <= |Trim(name)|
  {
    var formatted := ToLower(Trim(name));
    if |formatted| == 0 then Failure(InvalidChannelName)
    else if formatted[0] == '#' then Success(formatted[1..])
    else Success(formatted)
  }

  /** What `normalizeName` is given: a name, or a channel (which answers with its own name). */
  datatype ChannelRef = Named(name: string) | Instance(channel: Channel)

  function NormalizeRef(ref: ChannelRef): (r: Result<string>)
    ensures ref.Instance? ==> r == Success(ref.channel.name)
    ensures ref.Named? ==> r == NormalizeName(ref.name)
  {
    match ref
    case Named(name) => NormalizeName(name)
    case Instance(channel) => Success(channel.name)
  }

  /** `Channel` and `ChannelTemporary`: the latter also records an id and says it is temporary. */
  class Channel {
    const name: string
    var id: TagValue
    var roomState: Option<map<string, TagValue>>
    var isJoined: bool
    const isTemporary: bool

    constructor Init(normalized: string, id: TagValue, isTemporary: bool)
      ensures name == normalized && this.id == id && this.isTemporary == isTemporary
      ensures roomState == None && !isJoined
    {
      name := normalized;
      this.id := id;
      roomState := None;
      isJoined := false;
      this.isTemporary := isTemporary;
    }

    /** `new Channel(name)`: fails as `normalizeName` does; otherwise a channel that is not joined. */
    static method New(name: string) returns (r: Result<Channel>)
      ensures r.Failure? <==> NormalizeName(name).Failure?
      ensures r.Failure? ==> r == Failure(InvalidChannelName)
      ensures r.Success? ==> fresh(r.value) && r.value.name == NormalizeName(name).value
      ensures r.Success? ==> r.value.id == Undefined && r.value.roomState == None
      ensures r.Success? ==> !r.value.isJoined && !r.value.isTemporary
    {
      var normalized := NormalizeName(name);
      if normalized.Failure? {
        return Failure(normalized.error);
      }
      var channel := new Channel.Init(normalized.value, Undefined, false);
      return Success(channel);
    }

    /** `new ChannelTemporary(name, id)`: as `New`, with the id set and `isTemporary` true. */
    static method NewTemporary(name: string, id: TagValue) returns (r: Result<Channel>)
      ensures r.Failure? <==> NormalizeName(name).Failure?
      ensures r.Failure? ==> r == Failure(InvalidChannelName)
      ensures r.Success? ==> fresh(r.value) && r.value.name == NormalizeName(name).value
      ensures r.Success? ==> r.value.id == id && r.value.roomState == None
      ensures r.Success? ==> !r.value.isJoined && r.value.isTemporary
    {
      var normalized := NormalizeName(name);
      if normalized.Failure? {
        return Failure(normalized.error);
      }
      var channel := new Channel.Init(normalized.value, id, true);
      return Success(channel);
    }
  }

  /** A trimmed lowercase name that does not start with `#` is already normal. */
  lemma NormalizeCanonical(name: string)
    requires |name| > 0 && !IsJsWhitespace(name[0]) && !IsJsWhitespace(name[|name| - 1])
    requires forall i | 0 <= i < |name| :: !IsUpper(name[i])
    requires name[0] != '#'
    ensures NormalizeName(name) == Success(name)
  {
    TrimUnchanged(name);
    ToLowerUnchanged(name);
  }

  /** Exactly one `#` is stripped: `#s` gives `s` and `##s` gives `#s`. */
  lemma NormalizeStripsOneHash(s: string)
    requires |s| > 0 ==> !IsJsWhitespace(s[|s| - 1])
    requires forall i | 0 <= i < |s| :: !IsUpper(s[i])
    ensures NormalizeName("#" + s) == Success(s)
    ensures NormalizeName("##" + s) == Success("#" + s)
  {
    var one := "#" + s;
    var two := "##" + s;
    assert one[|one| - 1] == (if |s| > 0 then s[|s| - 1] else '#');
    assert two[|two| - 1] == (if |s| > 0 then s[|s| - 1] else '#');
    TrimUnchanged(one);
    TrimUnchanged(two);
    ToLowerUnchanged(one);
    ToLowerUnchanged(two);
    assert one[1..] == s && two[1..] == "#" + s;
  }

  /** The emptiness test comes before the strip: `#` is accepted as the empty name, while
      the empty and the all-blank name are refused. */
  lemma NormalizeEdgeCases()
    ensures NormalizeName("#") == Success("")
    ensures NormalizeName("") == Failure(InvalidChannelName)
    ensures NormalizeName(" \t ") == Failure(InvalidChannelName)
  {
    TrimUnchanged("#");
    assert Trim("#") == "#";
    assert ToLower("#") == "#";
  }

  /** Normalising is not idempotent: the output of one call can be changed by the next. */
  lemma NormalizeNotIdempotent()
    ensures NormalizeName("##a") == Success("#a")
    ensures NormalizeName("#a") == Success("a")
  {
    NormalizeStripsOneHash("a");
    assert "#" + "a" == "#a" && "##" + "a" == "##a";
  }
}
