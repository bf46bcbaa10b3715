/**
 * The chat client: its registry of joined channels, the channels still to join, its identity,
 * the keepalive readings, and the handlers that turn each parsed IRC line into events.
 *
 * The socket is reduced to a flag saying whether it is open and the list of lines written to
 * it. Emitted events are appended to `events` in emission order; the `join` event, which the
 * source queues as a microtask, goes to `deferred` instead. The clock is a parameter.
 */
module TmiClient {
  import opened Wrappers
  import opened JsStrings
  import opened Tags
  import opened Parser
  import opened Channels
  import opened Tokens
  import opened Correlation
  import opened Projections
  import opened Outgoing

  const ReadTagsOfUndefined: string := "TypeError: Cannot read properties of undefined (reading 'tags')"
  const KeepalivePing: string := "PING :tmi.js"
  const CapAck: string := " * ACK :"

  /** How a call ends: normally, with an exception, or never (the parser's endless loop). */
  datatype Status = Ok | Thrown(error: string) | Diverges

  datatype RoomMode = EmoteOnly | FollowersOnly | UniqueMode | SlowMode | SubsOnly

  /** The ROOMSTATE field each mode event reports. */
  function ModeField(mode: RoomMode): string {
    match mode
    case EmoteOnly => "emoteOnly"
    case FollowersOnly => "followersOnly"
    case UniqueMode => "r9k"
    case SlowMode => "slow"
    case SubsOnly => "subsOnly"
  }

  /** `isEnabled` of a mode event: followers-only is off at -1, slow mode at 0, and the
      three switches are on when their field is `true`. */
  function ModeEnabled(mode: RoomMode, state: TagValue): bool {
    match mode
    case FollowersOnly => state != Num(Finite(-1))
    case SlowMode => state != Num(Finite(0))
    case _ => state == Bool(true)
  }

  /** What the client emits. `CommandEvent` is the event named after an IRC command. */
  datatype Event =
    | IrcMessageEvent(message: IrcMessage)
    | CommandEvent(command: string, message: IrcMessage)
    | UnhandledCommand(message: IrcMessage)
    | IgnoredCommand(message: IrcMessage)
    | IdentityEvent(nick: Option<string>)
    | PongEvent(latencyMs: int)
    | RoomStateEvent(channel: Channel, roomState: map<string, TagValue>, isInitial: bool, change: map<string, TagValue>)
    | ModeEvent(mode: RoomMode, channel: Channel, state: TagValue, isEnabled: bool)
    | JoinEvent(channel: Channel, isClient: bool, user: Option<string>)
    | PartEvent(channel: Channel, isClient: bool, user: Option<string>)
    | UserNoticeEvent(name: string, channel: Channel, notice: UserNotice)
    | ChatEvent(channel: Channel, chat: ChatMessage, replyChannel: Option<string>, replyParent: TagValue)
    | DeleteMessageEvent(channel: Channel, login: TagValue, targetMsgId: TagValue, text: string, timestamp: TagValue)
    | ClearChatEvent(channel: Channel, clear: ClearChat, timestamp: TagValue)
    | SocketCloseEvent(code: int, reason: string, wasClean: bool)

  /** The mode event for one field of a ROOMSTATE change, if the change has that field. */
  function ModeEventOf(mode: RoomMode, channel: Channel, change: map<string, TagValue>): seq<Event> {
    var v := FieldValue(change, ModeField(mode));
    if v.Undefined? then [] else [ModeEvent(mode, channel, v, ModeEnabled(mode, v))]
  }

  /** The mode events of a ROOMSTATE change, in the order the handler tests the fields: one
      per mode whose field the change defines, carrying that field's value. */
  function ModeEvents(channel: Channel, change: map<string, TagValue>): (evs: seq<Event>)
    ensures forall e | e in evs ::
      e.ModeEvent? && e.channel == channel && e.state == FieldValue(change, ModeField(e.mode))
      && !e.state.Undefined? && e.isEnabled == ModeEnabled(e.mode, e.state)
    ensures forall mode: RoomMode ::
      (exists e | e in evs :: e.mode == mode) <==> !FieldValue(change, ModeField(mode)).Undefined?
    ensures |evs| <= 5
  {
    var evs := ModeEventOf(EmoteOnly, channel, change) + ModeEventOf(FollowersOnly, channel, change)
      + ModeEventOf(UniqueMode, channel, change) + ModeEventOf(SlowMode, channel, change)
      + ModeEventOf(SubsOnly, channel, change);
    evs
  }

  /** A ROOMSTATE's change: its tags without the room id. */
  function Change(tags: map<string, TagValue>): map<string, TagValue> {
    tags - {"roomId"}
  }

  /** The room state after a ROOMSTATE: the fields it sends replace those already known. */
  function MergeState(previous: Option<map<string, TagValue>>, tags: map<string, TagValue>): (s: map<string, TagValue>)
    ensures s.Keys == tags.Keys + (if previous.Some? then previous.value.Keys else {})
    ensures forall k | k in tags :: s[k] == tags[k]
    ensures previous.Some? ==> forall k | k in previous.value && k !in tags :: s[k] == previous.value[k]
    ensures previous.None? ==> s == tags
  {
    previous.GetOr(map[]) + tags
  }

  /** What a ROOMSTATE emits once its channel is known: the command event, the room-state
      event, and the mode events unless this is the room's first state. */
  function RoomStateEvents(m: IrcMessage, channel: Channel, previous: Option<map<string, TagValue>>): seq<Event> {
    [CommandEvent("ROOMSTATE", m),
     RoomStateEvent(channel, MergeState(previous, m.tags), previous.None?, Change(m.tags))]
    + (if previous.None? then [] else ModeEvents(channel, Change(m.tags)))
  }

  /** Where `getChannel` finds a channel: in the registry under its normalised name, or as a
      new temporary channel, or nowhere because a normalisation throws. */
  datatype Target = Registered(key: string) | Temporary(name: string) | Invalid(error: string)

  /**
   * `getChannel` on a name. A missing name throws `missing` (what the caller's form of the
   * lookup does with `undefined`). A temporary channel normalises the key once more, so that
   * normalisation too can throw.
   */
  function TargetOf(name: Option<string>, missing: string, registry: set<string>): (t: Target)
    ensures name.None? ==> t == Invalid(missing)
    ensures t.Registered? <==>
      name.Some? && NormalizeName(name.value).Success? && NormalizeName(name.value).value in registry
    ensures t.Registered? ==> t.key == NormalizeName(name.value).value
    ensures t.Temporary? ==>
      name.Some? && NormalizeName(name.value).Success? && NormalizeName(name.value).value !in registry
      && NormalizeName(NormalizeName(name.value).value) == Success(t.name)
    ensures t.Invalid? && name.Some? ==> t.error == InvalidChannelName
  {
    match name
    case None => Invalid(missing)
    case Some(n) =>
      match NormalizeName(n)
      case Failure(e) => Invalid(e)
      case Success(key) =>
        if key in registry then Registered(key)
        else match NormalizeName(key)
          case Failure(e) => Invalid(e)
          case Success(normal) => Temporary(normal)
  }

  /** The name a message-form lookup uses: the channel, else the first parameter. */
  function MessageChannelName(m: IrcMessage): Option<string> {
    if m.channel.Some? then m.channel else Nth(m.params, 0)
  }

  /** A message about a room in normal form finds it in the registry, or else is given a
      temporary channel of the same name. */
  lemma RoomLookup(key: string, missing: string, registry: set<string>)
    requires |key| > 0 && !IsJsWhitespace(key[0]) && !IsJsWhitespace(key[|key| - 1]) && key[0] != '#'
    requires forall i | 0 <= i < |key| :: !IsUpper(key[i])
    ensures key in registry ==> TargetOf(Some("#" + key), missing, registry) == Registered(key)
    ensures key !in registry ==> TargetOf(Some("#" + key), missing, registry) == Temporary(key)
  {
    NormalizeStripsOneHash(key);
    NormalizeCanonical(key);
  }

  /** `#` alone normalises to the empty name, which the temporary channel then refuses. */
  lemma HashAloneIsInvalid(missing: string, registry: set<string>)
    requires "" !in registry
    ensures TargetOf(Some("#"), missing, registry) == Invalid(InvalidChannelName)
  {
    NormalizeEdgeCases();
  }

  /** Every name of a list normalised, as the constructor's `map` does; the first that
      throws ends it. */
  function NormalizeAll(names: seq<string>): (r: Result<seq<string>>)
    ensures r.Success? <==> forall i | 0 <= i < |names| :: NormalizeName(names[i]).Success?
    ensures r.Failure? ==> r.error == InvalidChannelName
    ensures r.Success? ==> |r.value| == |names|
    ensures r.Success? ==> forall i | 0 <= i < |names| :: r.value[i] == NormalizeName(names[i]).value
    decreases |names|
  {
    if |names| == 0 then Success([])
    else
      var head :- NormalizeName(names[0]);
      var rest :- NormalizeAll(names[1..]);
      Success([head] + rest)
  }

  /** A wait armed on a spec, unless building the spec threw. */
  function ArmResult(spec: Result<WaitSpec>, now: int): (r: Result<Wait>)
    ensures r.Failure? <==> spec.Failure?
    ensures r.Success? ==> r.value.spec == spec.value && r.value.state == Armed && r.value.armedAt == now
  {
    match spec
    case Failure(e) => Failure(e)
    case Success(w) => Success(Arm(w, now))
  }

  /** What `join` leaves behind: the channel already in the registry, or a new one and the
      wait for the server's JOIN. */
  datatype JoinStart = AlreadyRegistered(channel: Channel) | Joining(channel: Channel, wait: Wait)

  /** The wait `join` arms for a registry key. */
  function JoinWait(key: string, now: int): Result<Wait> {
    ArmResult(ByChannel("JOIN", key, None, [], None), now)
  }

  /** The parent a message of a reply chain answers: the target when there is one; without
      one, the first message is a plain message and the rest answer `baseId`, the id the
      server gave the first. */
  function ChainParent(i: nat, targetId: string, baseId: Option<string>): Option<string> {
    if targetId != "" then Some(targetId) else if i == 0 then None else baseId
  }

  /** The `say` of message `i` of a reply chain. */
  function ChainPlan(anonymous: bool, target: Result<string>, messages: seq<string>, targetId: string,
                     baseId: Option<string>, nonces: seq<string>, i: nat): Result<SayPlan>
    requires i < |messages| && |nonces| == |messages|
  {
    var parent := ChainParent(i, targetId, baseId);
    PlanSay(anonymous, target, messages[i], ReplyTags(parent), IsTruthy(parent), nonces[i])
  }

  /** A planned message that went out as `line` and armed `wait`. */
  predicate Sent(plan: Result<SayPlan>, line: string, wait: Wait, now: int) {
    plan.Success? && plan.value.wait.Success? && line == plan.value.line && wait == Arm(plan.value.wait.value, now)
  }

  /** How a `say` with this plan ends: a failed check is thrown before anything is written,
      a closed socket throws once the checks pass, and otherwise the line is written and its
      wait is armed (which the second normalisation of the channel may still refuse). */
  predicate SaidAs(plan: Result<SayPlan>, connected: bool, before: seq<string>, after: seq<string>,
                   r: Result<Wait>, now: int) {
    (plan.Failure? ==> r == Failure(plan.error) && after == before)
    && (plan.Success? && !connected ==> r == Failure(NotConnected) && after == before)
    && (plan.Success? && connected ==> after == before + [plan.value.line] && r == ArmResult(plan.value.wait, now))
  }

  /** The values of `f` at `0` to `n - 1`, in order. */
  function Prefix<T>(f: nat --> T, n: nat): (r: seq<T>)
    requires forall j: nat | j < n :: f.requires(j)
    ensures |r| == n
    decreases n
  {
    if n == 0 then [] else Prefix(f, n - 1) + [f(n - 1)]
  }

  /** Entry `i` of a prefix is the value at `i`. */
  lemma {:induction false} PrefixAt<T>(f: nat --> T, n: nat, i: nat)
    requires forall j: nat | j < n :: f.requires(j)
    requires i < n
    ensures Prefix(f, n)[i] == f(i)
    decreases n
  {
    if i < n - 1 {
      PrefixAt(f, n - 1, i);
    }
  }

  /** The `say` of a reply chain's message, by its index. */
  function ChainPlanOf(anonymous: bool, target: Result<string>, messages: seq<string>, targetId: string,
                       baseId: Option<string>, nonces: seq<string>): nat --> Result<SayPlan>
  {
    (i: nat) requires i < |messages| && |nonces| == |messages| => ChainPlan(anonymous, target, messages, targetId, baseId, nonces, i)
  }

  /** The `say` of each of the first `n` messages of a reply chain, in order. */
  function ChainPlans(anonymous: bool, target: Result<string>, messages: seq<string>, targetId: string,
                      baseId: Option<string>, nonces: seq<string>, n: nat): (r: seq<Result<SayPlan>>)
    requires n <= |messages| && |nonces| == |messages|
    ensures |r| == n
  {
    Prefix(ChainPlanOf(anonymous, target, messages, targetId, baseId, nonces), n)
  }

  /** Entry `i` of the plans is the `say` of message `i`. */
  lemma ChainPlansAt(anonymous: bool, target: Result<string>, messages: seq<string>, targetId: string,
                     baseId: Option<string>, nonces: seq<string>, n: nat, i: nat)
    requires i < n <= |messages| && |nonces| == |messages|
    ensures ChainPlans(anonymous, target, messages, targetId, baseId, nonces, n)[i]
      == ChainPlan(anonymous, target, messages, targetId, baseId, nonces, i)
  {
    PrefixAt(ChainPlanOf(anonymous, target, messages, targetId, baseId, nonces), n, i);
  }

  /** What a reply chain has written and what it returns so far. */
  datatype ChainOutcome = ChainOutcome(lines: seq<string>, result: Result<seq<Wait>>)

  /** One more `say` of a chain: a chain that has stopped stays stopped; otherwise the `say`
      ends as `SaidAs` says, and its wait joins the others. */
  function AfterSay(prev: ChainOutcome, plan: Result<SayPlan>, connected: bool, now: int): ChainOutcome {
    if prev.result.Failure? then prev
    else if plan.Failure? then ChainOutcome(prev.lines, Failure(plan.error))
    else if !connected then ChainOutcome(prev.lines, Failure(NotConnected))
    else match ArmResult(plan.value.wait, now)
      case Failure(e) => ChainOutcome(prev.lines + [plan.value.line], Failure(e))
      case Success(w) => ChainOutcome(prev.lines + [plan.value.line], Success(prev.result.value + [w]))
  }

  /** The first `n` planned messages of a reply chain, one `say` after another. */
  function Chain(plans: seq<Result<SayPlan>>, connected: bool, now: int, n: nat): ChainOutcome
    requires n <= |plans|
    decreases n
  {
    if n == 0 then ChainOutcome([], Success([]))
    else AfterSay(Chain(plans, connected, now, n - 1), plans[n - 1], connected, now)
  }

  /** One more `say` extends a chain as `SaidAs` says: whatever it writes is the chain's next
      line, and its result is the chain's next result. */
  lemma ChainExtends(plans: seq<Result<SayPlan>>, connected: bool, now: int, index: nat, base: seq<string>,
                     before: seq<string>, after: seq<string>, waits: seq<Wait>, w: Result<Wait>)
    requires index < |plans|
    requires Chain(plans, connected, now, index).result == Success(waits)
    requires before == base + Chain(plans, connected, now, index).lines
    requires SaidAs(plans[index], connected, before, after, w, now)
    ensures after == base + Chain(plans, connected, now, index + 1).lines
    ensures w.Success? ==> Chain(plans, connected, now, index + 1).result == Success(waits + [w.value])
    ensures w.Failure? ==> Chain(plans, connected, now, index + 1).result == Failure(w.error)
  {
  }

  /** The first message that cannot be sent ends the chain: nothing after it is written. */
  lemma {:induction false} ChainStopped(plans: seq<Result<SayPlan>>, connected: bool, now: int, n: nat, k: nat)
    requires n <= k <= |plans|
    requires Chain(plans, connected, now, n).result.Failure?
    ensures Chain(plans, connected, now, k) == Chain(plans, connected, now, n)
    decreases k
  {
    if k > n {
      ChainStopped(plans, connected, now, n, k - 1);
    }
  }

  /** A chain goes through exactly when the socket is open and every planned message is
      ready to go. */
  lemma {:induction false} ChainGoesThrough(plans: seq<Result<SayPlan>>, connected: bool, now: int, n: nat)
    requires n <= |plans|
    ensures Chain(plans, connected, now, n).result.Success? <==>
      n == 0 || (connected && forall i | 0 <= i < n :: Ready(plans[i]))
    decreases n
  {
    if n > 0 {
      ChainGoesThrough(plans, connected, now, n - 1);
    }
  }

  /** A chain never writes more lines than it has messages, and a chain that went through
      writes exactly one line and arms exactly one wait per message. */
  lemma {:induction false} ChainLength(plans: seq<Result<SayPlan>>, connected: bool, now: int, n: nat)
    requires n <= |plans|
    ensures var c := Chain(plans, connected, now, n);
      |c.lines| <= n && (c.result.Success? ==> |c.lines| == n && |c.result.value| == n)
    decreases n
  {
    if n > 0 {
      ChainLength(plans, connected, now, n - 1);
    }
  }

  /** In a chain that went through, line `i` and wait `i` are those of message `i`'s `say`. */
  lemma {:induction false} ChainSentAt(plans: seq<Result<SayPlan>>, connected: bool, now: int, n: nat, i: nat)
    requires n <= |plans| && i < n
    requires Chain(plans, connected, now, n).result.Success?
    ensures var c := Chain(plans, connected, now, n);
      |c.lines| == n && |c.result.value| == n && Sent(plans[i], c.lines[i], c.result.value[i], now)
    decreases n
  {
    ChainLength(plans, connected, now, n);
    ChainLength(plans, connected, now, n - 1);
    if i < n - 1 {
      ChainSentAt(plans, connected, now, n - 1, i);
    }
  }

  /** A reply chain goes through exactly when the socket is open, the client may speak in
      the channel, and every message is non-empty and short enough. */
  lemma ReplyChainGoesThrough(anonymous: bool, target: Result<string>, connected: bool, messages: seq<string>,
                              targetId: string, baseId: Option<string>, nonces: seq<string>, now: int)
    requires |nonces| == |messages|
    ensures Chain(ChainPlans(anonymous, target, messages, targetId, baseId, nonces, |messages|), connected, now,
                  |messages|).result.Success?
      <==> |messages| == 0 || (connected && CanSpeak(anonymous, target) && forall i | 0 <= i < |messages| :: MessageFits(messages[i]))
  {
    var plans := ChainPlans(anonymous, target, messages, targetId, baseId, nonces, |messages|);
    ChainGoesThrough(plans, connected, now, |messages|);
    forall i | 0 <= i < |messages|
      ensures Ready(plans[i]) <==> CanSpeak(anonymous, target) && MessageFits(messages[i])
    {
      ChainPlansAt(anonymous, target, messages, targetId, baseId, nonces, |messages|, i);
      var parent := ChainParent(i, targetId, baseId);
      PlanSayReady(anonymous, target, messages[i], ReplyTags(parent), IsTruthy(parent), nonces[i]);
    }
    if |messages| > 0 && !CanSpeak(anonymous, target) {
      assert !Ready(plans[0]);
    }
  }



  /** The reply to a PING, which writes the parameter list as `Array.prototype.toString` does. */
  function PongLine(params: seq<string>): string {
    "PONG :" + JoinWith(params, ",")
  }

  predicate Contains(s: string, p: string) {
    IndexOfText(s, p) != -1
  }

  /** The branch of the command switch a command takes. */
  datatype Handler =
    | CapHandler | PingHandler | PongHandler | JoinHandler | PartHandler | GlobalUserStateHandler
    | UserStateHandler | RoomStateHandler | NoticeHandler | UserNoticeHandler | PrivmsgHandler
    | ClearMsgHandler | ClearChatHandler | ReconnectHandler | WelcomeHandler | IgnoredHandler
    | UnhandledHandler

  /** The numerics the client ignores; `001` also ends in that branch. */
  const IgnoredNumerics: set<string> := {"002", "003", "004", "353", "366", "375", "372", "376"}

  /** The commands with a branch of their own. */
  const NamedCommands: set<string> := {
    "CAP", "PING", "PONG", "JOIN", "PART", "GLOBALUSERSTATE", "USERSTATE", "ROOMSTATE", "NOTICE",
    "USERNOTICE", "PRIVMSG", "CLEARMSG", "CLEARCHAT", "RECONNECT", "001"}

  /** The command a branch of its own answers to; the ignored and unhandled branches answer
      to many. */
  function CommandName(h: Handler): Option<string> {
    match h
    case CapHandler => Some("CAP")
    case PingHandler => Some("PING")
    case PongHandler => Some("PONG")
    case JoinHandler => Some("JOIN")
    case PartHandler => Some("PART")
    case GlobalUserStateHandler => Some("GLOBALUSERSTATE")
    case UserStateHandler => Some("USERSTATE")
    case RoomStateHandler => Some("ROOMSTATE")
    case NoticeHandler => Some("NOTICE")
    case UserNoticeHandler => Some("USERNOTICE")
    case PrivmsgHandler => Some("PRIVMSG")
    case ClearMsgHandler => Some("CLEARMSG")
    case ClearChatHandler => Some("CLEARCHAT")
    case ReconnectHandler => Some("RECONNECT")
    case WelcomeHandler => Some("001")
    case IgnoredHandler => None
    case UnhandledHandler => None
  }

  function HandlerOf(command: string): (h: Handler)
    ensures h == IgnoredHandler <==> command in IgnoredNumerics
    ensures h == WelcomeHandler <==> command == "001"
    ensures h == UnhandledHandler <==> command !in NamedCommands && command !in IgnoredNumerics
    ensures CommandName(h).Some? ==> CommandName(h).value == command
  {
    match command
    case "CAP" => CapHandler
    case "PING" => PingHandler
    case "PONG" => PongHandler
    case "JOIN" => JoinHandler
    case "PART" => PartHandler
    case "GLOBALUSERSTATE" => GlobalUserStateHandler
    case "USERSTATE" => UserStateHandler
    case "ROOMSTATE" => RoomStateHandler
    case "NOTICE" => NoticeHandler
    case "USERNOTICE" => UserNoticeHandler
    case "PRIVMSG" => PrivmsgHandler
    case "CLEARMSG" => ClearMsgHandler
    case "CLEARCHAT" => ClearChatHandler
    case "RECONNECT" => ReconnectHandler
    case "001" => WelcomeHandler
    case _ => if command in IgnoredNumerics then IgnoredHandler else UnhandledHandler
  }

  /** Every branch of its own is reached by its command, and only the named commands have one. */
  lemma HandlerOfCommandName(h: Handler)
    ensures CommandName(h).Some? ==> HandlerOf(CommandName(h).value) == h
    ensures CommandName(h).Some? <==> h !in {IgnoredHandler, UnhandledHandler}
    ensures CommandName(h).Some? ==> CommandName(h).value in NamedCommands
  {
  }

  /** The handlers that emit the event named after the command before anything can throw. */
  predicate EmitsCommandFirst(h: Handler) {
    h in {JoinHandler, PartHandler, GlobalUserStateHandler, UserStateHandler, NoticeHandler,
          UserNoticeHandler, PrivmsgHandler, ClearMsgHandler, ClearChatHandler}
  }

  class Client {
    const token: Token
    var nick: Option<string>
    var userId: TagValue
    var color: TagValue
    /** The channels the client has joined or is joining, by normalised name. */
    var channels: map<string, Channel>
    var pendingChannels: set<string>
    /** Whether the socket is open. */
    var connected: bool
    /** The lines written to the socket. */
    var outbox: seq<string>
    var events: seq<Event>
    var deferred: seq<Event>
    var lastPingOut: Option<int>
    var lastLatencyMs: Option<int>

    constructor Init(token: Token, pending: set<string>)
      ensures this.token == token && pendingChannels == pending && channels == map[]
      ensures nick == None && userId == Undefined && color == Str("")
      ensures !connected && outbox == [] && events == [] && deferred == []
      ensures lastPingOut == None && lastLatencyMs == None
    {
      this.token := token;
      nick := None;
      userId := Undefined;
      color := Str("");
      channels := map[];
      pendingChannels := pending;
      connected := false;
      outbox := [];
      events := [];
      deferred := [];
      lastPingOut := None;
      lastLatencyMs := None;
    }

    /** `new Client({ token, initialChannels })`, with the token already built: the initial
        channels are normalised (which may throw) and wait to be joined. */
    static method New(token: Token, initialChannels: seq<string>) returns (r: Result<Client>)
      ensures r.Failure? <==> exists i | 0 <= i < |initialChannels| :: NormalizeName(initialChannels[i]).Failure?
      ensures r.Failure? ==> r.error == InvalidChannelName
      ensures r.Success? ==> fresh(r.value) && r.value.token == token && r.value.channels == map[]
      ensures r.Success? ==> forall n :: n in r.value.pendingChannels <==>
        exists i | 0 <= i < |initialChannels| :: NormalizeName(initialChannels[i]) == Success(n)
      ensures r.Success? ==> !r.value.connected && r.value.outbox == [] && r.value.events == []
    {
      var names := NormalizeAll(initialChannels);
      if names.Failure? {
        return Failure(names.error);
      }
      var pending := set n | n in names.value;
      var client := new Client.Init(token, pending);
      assert forall n :: n in pending <==> exists i | 0 <= i < |names.value| :: names.value[i] == n;
      return Success(client);
    }

    /** `identity.isAnonymous`, which asks the token. */
    predicate IsAnonymous()
      reads token
    {
      token.IsAnonymous()
    }

    /** The lookup of a message-form `getChannel`. */
    function MessageTarget(m: IrcMessage): Target
      reads this`channels
    {
      TargetOf(MessageChannelName(m), InvalidChannelName, channels.Keys)
    }

    /** The lookup of a string-form `getChannel` on the message's channel, as JOIN and PART
        call it; without a channel the lookup reads `tags` of `undefined`. */
    function NameTarget(name: Option<string>): Target
      reads this`channels
    {
      TargetOf(name, ReadTagsOfUndefined, channels.Keys)
    }

    /** `send`: only an open socket takes a line. */
    method Send(data: string) returns (s: Status)
      modifies this`outbox
      ensures connected ==> s == Ok && outbox == old(outbox) + [data]
      ensures !connected ==> s == Thrown(NotConnected) && outbox == old(outbox)
    {
      if !connected {
        return Thrown(NotConnected);
      }
      outbox := outbox + [data];
      return Ok;
    }

    /** `getChannel`: the registered channel, or a fresh temporary one with the given id. */
    method GetChannel(name: Option<string>, id: TagValue, missing: string) returns (r: Result<Channel>)
      ensures r.Failure? <==> TargetOf(name, missing, channels.Keys).Invalid?
      ensures r.Failure? ==> r.error == TargetOf(name, missing, channels.Keys).error
      ensures TargetOf(name, missing, channels.Keys).Registered? ==>
        r == Success(channels[TargetOf(name, missing, channels.Keys).key])
      ensures TargetOf(name, missing, channels.Keys).Temporary? ==>
        r.Success? && fresh(r.value) && r.value.name == TargetOf(name, missing, channels.Keys).name
        && r.value.id == id && r.value.isTemporary && !r.value.isJoined && r.value.roomState.None?
    {
      if name.None? {
        return Failure(missing);
      }
      var key := NormalizeName(name.value);
      if key.Failure? {
        return Failure(key.error);
      }
      if key.value in channels {
        return Success(channels[key.value]);
      }
      r := Channel.NewTemporary(key.value, id);
    }

    // The command handlers.

    /** PONG: the latency since the last keepalive ping, if one was sent. */
    method OnPong(now: int)
      modifies this`lastLatencyMs, this`events
      ensures lastPingOut.None? ==> lastLatencyMs == old(lastLatencyMs) && events == old(events)
      ensures lastPingOut.Some? ==>
        lastLatencyMs == Some(now - lastPingOut.value) && events == old(events) + [PongEvent(now - lastPingOut.value)]
    {
      if lastPingOut.None? {
        return;
      }
      lastLatencyMs := Some(now - lastPingOut.value);
      events := events + [PongEvent(now - lastPingOut.value)];
    }

    /** GLOBALUSERSTATE: a logged-in client learns its user id and colour. */
    method OnGlobalUserState(m: IrcMessage)
      modifies this`events, this`userId, this`color
      ensures events == old(events) + [CommandEvent("GLOBALUSERSTATE", m)]
      ensures IsAnonymous() ==> userId == old(userId) && color == old(color)
      ensures !IsAnonymous() ==> userId == FieldValue(m.tags, "userId") && color == FieldValue(m.tags, "color")
    {
      events := events + [CommandEvent("GLOBALUSERSTATE", m)];
      if !IsAnonymous() {
        userId := FieldValue(m.tags, "userId");
        color := FieldValue(m.tags, "color");
      }
    }

    /**
     * ROOMSTATE: the channel is marked joined, takes the room id, and merges the new fields
     * into its state; the mode events follow only when the channel already had a state. A
     * room outside the registry gets a temporary channel, which the registry does not keep.
     */
    method OnRoomState(m: IrcMessage) returns (r: Result<Channel>)
      modifies this`events, channels.Values
      ensures r.Failure? <==> MessageTarget(m).Invalid?
      ensures r.Failure? ==> r.error == MessageTarget(m).error && events == old(events)
      ensures MessageTarget(m).Registered? ==>
        r == Success(channels[MessageTarget(m).key])
        && r.value.roomState == Some(MergeState(old(r.value.roomState), m.tags))
        && events == old(events) + RoomStateEvents(m, r.value, old(r.value.roomState))
      ensures MessageTarget(m).Temporary? ==>
        r.Success? && fresh(r.value) && r.value.isTemporary && r.value.name == MessageTarget(m).name
        && r.value.roomState == Some(m.tags) && events == old(events) + RoomStateEvents(m, r.value, None)
      ensures r.Success? ==> r.value.isJoined && r.value.id == FieldValue(m.tags, "roomId")
      ensures forall c | c in old(channels.Values) && (r.Failure? || c != r.value) :: unchanged(c)
    {
      r := GetChannel(MessageChannelName(m), FieldValue(m.tags, "roomId"), InvalidChannelName);
      if r.Failure? {
        return;
      }
      var channel := r.value;
      var previous := channel.roomState;
      channel.isJoined := true;
      channel.id := FieldValue(m.tags, "roomId");
      channel.roomState := Some(MergeState(previous, m.tags));
      events := events + RoomStateEvents(m, channel, previous);
    }

    /** JOIN: the channel is marked joined, and the `join` event is queued. */
    method OnJoin(m: IrcMessage) returns (r: Result<Channel>)
      modifies this`events, this`deferred, channels.Values`isJoined
      ensures events == old(events) + [CommandEvent("JOIN", m)]
      ensures r.Failure? <==> NameTarget(m.channel).Invalid?
      ensures r.Failure? ==> r.error == NameTarget(m.channel).error && deferred == old(deferred)
      ensures NameTarget(m.channel).Registered? ==> r == Success(channels[NameTarget(m.channel).key])
      ensures NameTarget(m.channel).Temporary? ==>
        r.Success? && fresh(r.value) && r.value.isTemporary && r.value.id == Undefined
      ensures r.Success? ==>
        r.value.isJoined && deferred == old(deferred) + [JoinEvent(r.value, m.prefix.nick == nick, m.prefix.nick)]
      ensures forall c | c in old(channels.Values) && (r.Failure? || c != r.value) :: c.isJoined == old(c.isJoined)
    {
      events := events + [CommandEvent("JOIN", m)];
      r := GetChannel(m.channel, Undefined, ReadTagsOfUndefined);
      if r.Failure? {
        return;
      }
      r.value.isJoined := true;
      deferred := deferred + [JoinEvent(r.value, m.prefix.nick == nick, m.prefix.nick)];
    }

    /**
     * PART: when the client itself left, the channel is marked not joined and its name is
     * dropped from the registry (under the channel's own name, not the key it was found by).
     */
    method OnPart(m: IrcMessage) returns (r: Result<Channel>)
      modifies this`events, this`channels, channels.Values`isJoined
      ensures r.Failure? <==> old(NameTarget(m.channel)).Invalid?
      ensures r.Failure? ==>
        r.error == old(NameTarget(m.channel)).error && events == old(events) + [CommandEvent("PART", m)]
        && channels == old(channels)
      ensures old(NameTarget(m.channel)).Registered? ==> r == Success(old(channels)[old(NameTarget(m.channel)).key])
      ensures old(NameTarget(m.channel)).Temporary? ==> r.Success? && fresh(r.value) && r.value.isTemporary
      ensures r.Success? ==>
        events == old(events) + [CommandEvent("PART", m), PartEvent(r.value, m.prefix.nick == nick, m.prefix.nick)]
      ensures r.Success? && m.prefix.nick == nick ==>
        !r.value.isJoined && channels == old(channels) - {r.value.name}
      ensures r.Success? && m.prefix.nick != nick ==> channels == old(channels)
      ensures old(NameTarget(m.channel)).Registered? && m.prefix.nick != nick ==>
        var c := old(channels)[old(NameTarget(m.channel)).key]; c.isJoined == old(c.isJoined)
      ensures forall c | c in old(channels.Values) && (r.Failure? || c != r.value) :: c.isJoined == old(c.isJoined)
    {
      events := events + [CommandEvent("PART", m)];
      r := GetChannel(m.channel, Undefined, ReadTagsOfUndefined);
      if r.Failure? {
        return;
      }
      var channel := r.value;
      var isClient := m.prefix.nick == nick;
      if isClient {
        channel.isJoined := false;
        channels := channels - {channel.name};
      }
      events := events + [PartEvent(channel, isClient, m.prefix.nick)];
    }

    /** NOTICE: reported as unhandled unless it is a room-mode notice or a login failure. */
    method OnNotice(m: IrcMessage)
      modifies this`events
      ensures events == old(events) + [CommandEvent("NOTICE", m)]
        + (if NoticeKindOf(m.tags, m.params) == UnhandledNotice then [UnhandledCommand(m)] else [])
    {
      events := events + [CommandEvent("NOTICE", m)];
      if NoticeKindOf(m.tags, m.params) == UnhandledNotice {
        events := events + [UnhandledCommand(m)];
      }
    }

    /** USERSTATE: only the command event. */
    method OnUserState(m: IrcMessage)
      modifies this`events
      ensures events == old(events) + [CommandEvent("USERSTATE", m)]
    {
      events := events + [CommandEvent("USERSTATE", m)];
    }

    /** USERNOTICE: the channel is looked up first; a `msg-id` the client knows gives its
        event, any other (or none) is reported as unhandled. */
    method OnUserNotice(m: IrcMessage) returns (r: Result<Channel>)
      modifies this`events
      ensures r.Failure? <==> MessageTarget(m).Invalid?
      ensures r.Failure? ==> r.error == MessageTarget(m).error && events == old(events) + [CommandEvent("USERNOTICE", m)]
      ensures MessageTarget(m).Registered? ==> r == Success(channels[MessageTarget(m).key])
      ensures r.Success? && UserNoticeOf(FieldValue(m.tags, "msgId"), m.tags, m.params).None? ==>
        events == old(events) + [CommandEvent("USERNOTICE", m), UnhandledCommand(m)]
      ensures r.Success? && UserNoticeOf(FieldValue(m.tags, "msgId"), m.tags, m.params).Some? ==>
        var (name, notice) := UserNoticeOf(FieldValue(m.tags, "msgId"), m.tags, m.params).value;
        events == old(events) + [CommandEvent("USERNOTICE", m), UserNoticeEvent(name, r.value, notice)]
    {
      events := events + [CommandEvent("USERNOTICE", m)];
      r := GetChannel(MessageChannelName(m), FieldValue(m.tags, "roomId"), InvalidChannelName);
      if r.Failure? {
        return;
      }
      var notice := UserNoticeOf(FieldValue(m.tags, "msgId"), m.tags, m.params);
      if notice.None? {
        events := events + [UnhandledCommand(m)];
      } else {
        events := events + [UserNoticeEvent(notice.value.0, r.value, notice.value.1)];
      }
    }

    /** PRIVMSG: the `message` event, after the channel lookup and the projection, either of
        which may throw. */
    method OnPrivmsg(m: IrcMessage) returns (r: Result<Channel>)
      modifies this`events
      ensures r.Failure? <==> MessageTarget(m).Invalid? || ChatMessageOf(m.tags, m.prefix.nick, Nth(m.params, 0)).Failure?
      ensures MessageTarget(m).Invalid? ==> r == Failure(MessageTarget(m).error)
      ensures r.Failure? ==> events == old(events) + [CommandEvent("PRIVMSG", m)]
      ensures MessageTarget(m).Registered? && r.Success? ==> r.value == channels[MessageTarget(m).key]
      ensures r.Success? ==>
        events == old(events) + [CommandEvent("PRIVMSG", m),
          ChatEvent(r.value, ChatMessageOf(m.tags, m.prefix.nick, Nth(m.params, 0)).value, m.channel, FieldValue(m.tags, "id"))]
    {
      events := events + [CommandEvent("PRIVMSG", m)];
      r := GetChannel(MessageChannelName(m), FieldValue(m.tags, "roomId"), InvalidChannelName);
      if r.Failure? {
        return;
      }
      var chat := ChatMessageOf(m.tags, m.prefix.nick, Nth(m.params, 0));
      if chat.Failure? {
        return Failure(chat.error);
      }
      events := events + [ChatEvent(r.value, chat.value, m.channel, FieldValue(m.tags, "id"))];
    }

    /** CLEARMSG: the `deleteMessage` event, with the deleted text or the empty string. */
    method OnClearMsg(m: IrcMessage) returns (r: Result<Channel>)
      modifies this`events
      ensures r.Failure? <==> MessageTarget(m).Invalid?
      ensures r.Failure? ==> r.error == MessageTarget(m).error && events == old(events) + [CommandEvent("CLEARMSG", m)]
      ensures MessageTarget(m).Registered? ==> r == Success(channels[MessageTarget(m).key])
      ensures r.Success? ==>
        events == old(events) + [CommandEvent("CLEARMSG", m),
          DeleteMessageEvent(r.value, FieldValue(m.tags, "login"), FieldValue(m.tags, "targetMsgId"),
                             Nth(m.params, 0).GetOr(""), FieldValue(m.tags, "tmiSentTs"))]
    {
      events := events + [CommandEvent("CLEARMSG", m)];
      r := GetChannel(MessageChannelName(m), FieldValue(m.tags, "roomId"), InvalidChannelName);
      if r.Failure? {
        return;
      }
      events := events + [DeleteMessageEvent(r.value, FieldValue(m.tags, "login"), FieldValue(m.tags, "targetMsgId"),
                                              Nth(m.params, 0).GetOr(""), FieldValue(m.tags, "tmiSentTs"))];
    }

    /** CLEARCHAT: a cleared chat, a ban or a timeout. */
    method OnClearChat(m: IrcMessage) returns (r: Result<Channel>)
      modifies this`events
      ensures r.Failure? <==> MessageTarget(m).Invalid?
      ensures r.Failure? ==> r.error == MessageTarget(m).error && events == old(events) + [CommandEvent("CLEARCHAT", m)]
      ensures MessageTarget(m).Registered? ==> r == Success(channels[MessageTarget(m).key])
      ensures r.Success? ==>
        events == old(events) + [CommandEvent("CLEARCHAT", m),
          ClearChatEvent(r.value, ClearChatOf(m.params, m.tags), FieldValue(m.tags, "tmiSentTs"))]
    {
      events := events + [CommandEvent("CLEARCHAT", m)];
      r := GetChannel(MessageChannelName(m), FieldValue(m.tags, "roomId"), InvalidChannelName);
      if r.Failure? {
        return;
      }
      events := events + [ClearChatEvent(r.value, ClearChatOf(m.params, m.tags), FieldValue(m.tags, "tmiSentTs"))];
    }
      // The socket and the keepalive.

    /**
     * The socket closed: the keepalive readings are cleared, every registered channel is
     * marked not joined and its name goes back to the pending set, and the registry empties.
     */
    method OnSocketClose(code: int, reason: string, wasClean: bool)
      modifies this`channels, this`pendingChannels, this`lastPingOut, this`lastLatencyMs
      modifies this`events, this`connected, channels.Values`isJoined
      ensures channels == map[] && !connected
      ensures pendingChannels == old(pendingChannels) + set k | k in old(channels) :: old(channels)[k].name
      ensures forall k | k in old(channels) :: !old(channels)[k].isJoined
      ensures lastPingOut == None && lastLatencyMs == None
      ensures events == old(events) + [SocketCloseEvent(code, reason, wasClean)]
    {
      lastPingOut := None;
      lastLatencyMs := None;
      MarkAllParted();
      channels := map[];
      connected := false;
      events := events + [SocketCloseEvent(code, reason, wasClean)];
    }

    /** Every registered channel goes back on the list to join and stops counting as joined. */
    method MarkAllParted()
      modifies this`pendingChannels, channels.Values`isJoined
      ensures pendingChannels == old(pendingChannels) + set k | k in channels :: channels[k].name
      ensures forall k | k in channels :: !channels[k].isJoined
    {
      var keys := channels.Keys;
      ghost var done: set<string> := {};
      while keys != {}
        invariant keys + done == channels.Keys && keys !! done
        invariant pendingChannels == old(pendingChannels) + set k | k in done :: channels[k].name
        invariant forall k | k in done :: !channels[k].isJoined
        decreases keys
      {
        var k :| k in keys;
        var channel := channels[k];
        pendingChannels := pendingChannels + {channel.name};
        channel.isJoined := false;
        assert (set j | j in done + {k} :: channels[j].name) == (set j | j in done :: channels[j].name) + {channel.name};
        keys := keys - {k};
        done := done + {k};
      }
    }

    /** One tick of the keepalive interval: the time of the ping, then the ping itself. */
    method KeepaliveTick(now: int) returns (s: Status)
      modifies this`lastPingOut, this`outbox
      ensures lastPingOut == Some(now)
      ensures connected ==> s == Ok && outbox == old(outbox) + [KeepalivePing]
      ensures !connected ==> s == Thrown(NotConnected) && outbox == old(outbox)
    {
      lastPingOut := Some(now);
      s := Send(KeepalivePing);
    }

    // Joining, parting and speaking.

    /**
     * `join` up to its wait: a name already in the registry gives its channel back; otherwise
     * a new channel is registered under the normalised name before the JOIN line is sent, so
     * it stays registered when the send throws.
     */
    method Join(name: string, now: int) returns (r: Result<JoinStart>)
      modifies this`channels, this`outbox
      ensures NormalizeName(name).Failure? ==>
        r == Failure(InvalidChannelName) && channels == old(channels) && outbox == old(outbox)
      ensures NormalizeName(name).Success? && NormalizeName(name).value in old(channels) ==>
        r == Success(AlreadyRegistered(old(channels)[NormalizeName(name).value]))
        && channels == old(channels) && outbox == old(outbox)
      ensures (NormalizeName(name).Success? && NormalizeName(name).value !in old(channels)
        && NormalizeName(NormalizeName(name).value).Failure?) ==>
        r == Failure(InvalidChannelName) && channels == old(channels) && outbox == old(outbox)
      ensures (NormalizeName(name).Success? && NormalizeName(name).value !in old(channels)
        && NormalizeName(NormalizeName(name).value).Success?) ==>
        var key := NormalizeName(name).value;
        key in channels && fresh(channels[key]) && channels == old(channels)[key := channels[key]]
        && channels[key].name == NormalizeName(key).value && !channels[key].isJoined
        && (connected ==> (outbox == old(outbox) + [JoinLine(key)]
                           && r == Success(Joining(channels[key], JoinWait(key, now).value))))
        && (!connected ==> outbox == old(outbox) && r == Failure(NotConnected))
      ensures r.Success? ==> NormalizeName(name).value in channels
      ensures forall k | k in old(channels) :: k in channels && channels[k] == old(channels)[k]
    {
      var normalized := NormalizeName(name);
      if normalized.Failure? {
        return Failure(normalized.error);
      }
      var key := normalized.value;
      if key in channels {
        return Success(AlreadyRegistered(channels[key]));
      }
      var channel := Channel.New(key);
      if channel.Failure? {
        return Failure(channel.error);
      }
      channels := channels[key := channel.value];
      var s := Send(JoinLine(key));
      if s.Thrown? {
        return Failure(s.error);
      }
      var wait := JoinWait(key, now);
      return Success(Joining(channel.value, wait.value));
    }

    /**
     * `part` up to its wait: a name outside the registry is ignored; otherwise it is removed
     * from the registry before the PART line is sent.
     */
    method Part(ref: ChannelRef, now: int) returns (r: Result<Option<Wait>>)
      modifies this`channels, this`outbox
      ensures NormalizeRef(ref).Failure? ==>
        r == Failure(NormalizeRef(ref).error) && channels == old(channels) && outbox == old(outbox)
      ensures NormalizeRef(ref).Success? && NormalizeRef(ref).value !in old(channels) ==>
        r == Success(None) && channels == old(channels) && outbox == old(outbox)
      ensures NormalizeRef(ref).Success? && NormalizeRef(ref).value in old(channels) ==>
        var key := NormalizeRef(ref).value;
        channels == old(channels) - {key}
        && (!connected ==> r == Failure(NotConnected) && outbox == old(outbox))
        && (connected ==> (outbox == old(outbox) + [PartLine(key)]
            && r == (match ArmResult(ByChannel("PART", key, None, [], None), now)
                     case Failure(e) => Failure(e)
                     case Success(w) => Success(Some(w)))))
    {
      var normalized := NormalizeRef(ref);
      if normalized.Failure? {
        return Failure(normalized.error);
      }
      var key := normalized.value;
      if key !in channels {
        return Success(None);
      }
      channels := channels - {key};
      var s := Send(PartLine(key));
      if s.Thrown? {
        return Failure(s.error);
      }
      var wait := ArmResult(ByChannel("PART", key, None, [], None), now);
      if wait.Failure? {
        return Failure(wait.error);
      }
      return Success(Some(wait.value));
    }

    /**
     * `say` up to its wait, with `nonce` standing for the random part of the client nonce:
     * the checks of `PlanSay`, then the line, then the wait for the USERSTATE that echoes
     * the nonce.
     */
    method Say(ref: ChannelRef, message: string, tags: Entries, isReply: bool, nonce: string, now: int)
      returns (r: Result<Wait>)
      modifies this`outbox
      ensures SaidAs(PlanSay(IsAnonymous(), NormalizeRef(ref), message, tags, isReply, nonce), connected, old(outbox), outbox, r, now)
    {
      if IsAnonymous() {
        return Failure(AnonymousCannotSay);
      } else if message == "" {
        return Failure(EmptyMessage);
      } else if Utf16Length(message) > MaxMessageLength {
        return Failure(MessageTooLong);
      }
      var key := NormalizeRef(ref);
      if key.Failure? {
        return Failure(key.error);
      }
      var s := Send(SayLine(SayTags(tags, nonce), key.value, message));
      if s.Thrown? {
        return Failure(s.error);
      }
      r := ArmResult(ByChannel("USERSTATE", key.value, Some(NoncePrefix + nonce), BadNoticesFor(isReply), None), now);
    }

    /** `reply`: a `say` carrying the parent id, when there is a non-empty one. */
    method Reply(ref: ChannelRef, message: string, replyId: Option<string>, nonce: string, now: int)
      returns (r: Result<Wait>)
      modifies this`outbox
      ensures SaidAs(PlanSay(IsAnonymous(), NormalizeRef(ref), message, ReplyTags(replyId), IsTruthy(replyId), nonce),
                     connected, old(outbox), outbox, r, now)
    {
      if IsTruthy(replyId) {
        r := Say(ref, message, [(ReplyParentTag, replyId.value)], true, nonce, now);
      } else {
        r := Say(ref, message, [], false, nonce, now);
      }
    }

    /**
     * One message of a reply chain: the first message of a chain without a target goes out
     * through `say`, every other through `reply` with the chain's parent. `anonymous` and
     * `target` are what the client and the reference stand for when the chain starts.
     */
    method ChainStep(ref: ChannelRef, messages: seq<string>, targetId: string, baseId: Option<string>,
                     nonces: seq<string>, index: nat, now: int, ghost anonymous: bool,
                     ghost plans: seq<Result<SayPlan>>)
      returns (w: Result<Wait>)
      requires index < |messages| && |nonces| == |messages| && anonymous == IsAnonymous()
      requires index < |plans| && plans[index] == ChainPlan(anonymous, NormalizeRef(ref), messages, targetId, baseId, nonces, index)
      modifies this`outbox
      ensures SaidAs(plans[index], connected, old(outbox), outbox, w, now)
    {
      var parent := ChainParent(index, targetId, baseId);
      if targetId == "" && index == 0 {
        w := Say(ref, messages[index], [], false, nonces[index], now);
      } else {
        w := Reply(ref, messages[index], parent, nonces[index], now);
      }
    }

    /** One message of a reply chain, seen from the chain: the `say` extends the chain so far
        by its line and its wait, as `ChainExtends` says. */
    method ChainAdvance(ref: ChannelRef, messages: seq<string>, targetId: string, baseId: Option<string>,
                        nonces: seq<string>, index: nat, now: int, ghost anonymous: bool,
                        ghost plans: seq<Result<SayPlan>>, ghost base: seq<string>, ghost waits: seq<Wait>)
      returns (w: Result<Wait>)
      requires index < |messages| && |nonces| == |messages| && anonymous == IsAnonymous()
      requires forall i {:trigger ChainPlan(anonymous, NormalizeRef(ref), messages, targetId, baseId, nonces, i)} | 0 <= i < |messages| ::
        i < |plans| && plans[i] == ChainPlan(anonymous, NormalizeRef(ref), messages, targetId, baseId, nonces, i)
      requires index < |plans| && Chain(plans, connected, now, index).result == Success(waits)
      requires outbox == base + Chain(plans, connected, now, index).lines
      modifies this`outbox
      ensures outbox == base + Chain(plans, connected, now, index + 1).lines
      ensures w.Success? ==> Chain(plans, connected, now, index + 1).result == Success(waits + [w.value])
      ensures w.Failure? ==> Chain(plans, connected, now, index + 1).result == Failure(w.error)
    {
      ghost var before := outbox;
      w := ChainStep(ref, messages, targetId, baseId, nonces, index, now, anonymous, plans);
      ChainExtends(plans, connected, now, index, base, before, outbox, waits, w);
    }

    /**
     * `replyChain`: every message answers the target; without a target the first is a plain
     * message and every other answers the first (not the one before it). `baseId` stands for
     * the id the server gives the first message, `nonces` for the nonce of each message. The
     * first message that cannot be sent ends the chain.
     */
    method ReplyChain(ref: ChannelRef, messages: seq<string>, targetId: string, baseId: Option<string>,
                      nonces: seq<string>, now: int) returns (r: Result<seq<Wait>>)
      requires |nonces| == |messages|
      modifies this`outbox
      ensures var c := Chain(ChainPlans(IsAnonymous(), NormalizeRef(ref), messages, targetId, baseId, nonces, |messages|),
                             connected, now, |messages|);
        r == c.result && outbox == old(outbox) + c.lines
    {
      if |messages| == 0 {
        return Success([]);
      }
      ghost var anonymous := IsAnonymous();
      ghost var plans := ChainPlans(anonymous, NormalizeRef(ref), messages, targetId, baseId, nonces, |messages|);
      forall i | 0 <= i < |messages|
        ensures plans[i] == ChainPlan(anonymous, NormalizeRef(ref), messages, targetId, baseId, nonces, i)
      {
        ChainPlansAt(anonymous, NormalizeRef(ref), messages, targetId, baseId, nonces, |messages|, i);
      }
      r := ChainFrom(ref, messages, targetId, baseId, nonces, now, anonymous, plans);
    }

    /** The loop of `replyChain`, over the plans of its messages. */
    method ChainFrom(ref: ChannelRef, messages: seq<string>, targetId: string, baseId: Option<string>,
                     nonces: seq<string>, now: int, ghost anonymous: bool, ghost plans: seq<Result<SayPlan>>)
      returns (r: Result<seq<Wait>>)
      requires |nonces| == |messages| && anonymous == IsAnonymous() && |plans| == |messages|
      requires forall i {:trigger ChainPlan(anonymous, NormalizeRef(ref), messages, targetId, baseId, nonces, i)} | 0 <= i < |messages| ::
        i < |plans| && plans[i] == ChainPlan(anonymous, NormalizeRef(ref), messages, targetId, baseId, nonces, i)
      modifies this`outbox
      ensures r == Chain(plans, connected, now, |messages|).result
      ensures outbox == old(outbox) + Chain(plans, connected, now, |messages|).lines
    {
      var waits: seq<Wait> := [];
      var index := 0;
      while index < |messages|
        invariant index <= |messages|
        invariant Chain(plans, connected, now, index).result == Success(waits)
        invariant outbox == old(outbox) + Chain(plans, connected, now, index).lines
      {
        var w := ChainAdvance(ref, messages, targetId, baseId, nonces, index, now, anonymous, plans, old(outbox), waits);
        if w.Failure? {
          ChainStopped(plans, connected, now, index + 1, |messages|);
          return Failure(w.error);
        }
        waits := waits + [w.value];
        index := index + 1;
      }
      return Success(waits);
    }

    /**
     * `joinPendingChannels`, with every join taken up to its wait: the pending names are
     * joined one by one and each leaves the pending set once joined; the first join that
     * throws ends the loop.
     */
    method JoinPendingChannels(now: int) returns (s: Status)
      modifies this`channels, this`outbox, this`pendingChannels
      ensures pendingChannels <= old(pendingChannels) && old(outbox) <= outbox
      ensures forall k | k in old(channels) :: k in channels && channels[k] == old(channels)[k]
      ensures s == Ok || s.Thrown?
      ensures s == Ok ==> pendingChannels == {}
      ensures forall n | n in old(pendingChannels) - pendingChannels ::
        NormalizeName(n).Success? && NormalizeName(n).value in channels
    {
      var toJoin := pendingChannels;
      while toJoin != {}
        invariant pendingChannels == toJoin && toJoin <= old(pendingChannels)
        invariant old(outbox) <= outbox
        invariant forall k | k in old(channels) :: k in channels && channels[k] == old(channels)[k]
        invariant forall n | n in old(pendingChannels) - pendingChannels ::
          NormalizeName(n).Success? && NormalizeName(n).value in channels
        decreases toJoin
      {
        var name :| name in toJoin;
        var joined := Join(name, now);
        if joined.Failure? {
          return Thrown(joined.error);
        }
        pendingChannels := pendingChannels - {name};
        toJoin := toJoin - {name};
      }
      return Ok;
    }

    // Reading lines.

    /** JOIN and PART: both emit the command event and then look the channel up by the
        message's channel name, which may throw. */
    method OnMembership(m: IrcMessage, h: Handler) returns (s: Status)
      requires h in {JoinHandler, PartHandler} && CommandName(h) == Some(m.command)
      modifies this`events, this`deferred, this`channels, channels.Values`isJoined
      ensures s.Thrown? <==> old(NameTarget(m.channel)).Invalid?
      ensures s.Thrown? ==> s.error == old(NameTarget(m.channel)).error
      ensures s.Ok? || s.Thrown?
      ensures old(events) <= events && |events| > |old(events)| && events[|old(events)|] == CommandEvent(m.command, m)
      ensures h == JoinHandler ==> channels == old(channels)
    {
      var r: Result<Channel>;
      if h == JoinHandler {
        r := OnJoin(m);
      } else {
        r := OnPart(m);
      }
      return if r.Failure? then Thrown(r.error) else Ok;
    }

    /** The commands that look the channel up from the message itself and throw when it has
        none: ROOMSTATE, USERNOTICE, PRIVMSG, CLEARMSG and CLEARCHAT. */
    method OnRoomCommand(m: IrcMessage, h: Handler) returns (s: Status)
      requires h in {RoomStateHandler, UserNoticeHandler, PrivmsgHandler, ClearMsgHandler, ClearChatHandler}
      requires CommandName(h) == Some(m.command)
      modifies this`events, channels.Values
      ensures h != PrivmsgHandler ==> (s.Thrown? <==> MessageTarget(m).Invalid?)
      ensures h != PrivmsgHandler && s.Thrown? ==> s.error == MessageTarget(m).error
      ensures h == PrivmsgHandler ==>
        (s.Thrown? <==> MessageTarget(m).Invalid? || ChatMessageOf(m.tags, m.prefix.nick, Nth(m.params, 0)).Failure?)
      ensures s.Ok? || s.Thrown?
      ensures old(events) <= events
      ensures h != RoomStateHandler ==> |events| > |old(events)| && events[|old(events)|] == CommandEvent(m.command, m)
    {
      var r: Result<Channel>;
      match h {
        case RoomStateHandler =>
          r := OnRoomState(m);
        case UserNoticeHandler =>
          r := OnUserNotice(m);
        case PrivmsgHandler =>
          r := OnPrivmsg(m);
        case ClearMsgHandler =>
          r := OnClearMsg(m);
        case ClearChatHandler =>
          r := OnClearChat(m);
      }
      return if r.Failure? then Thrown(r.error) else Ok;
    }

    /** GLOBALUSERSTATE, USERSTATE and NOTICE: handlers that cannot throw. */
    method OnStateCommand(m: IrcMessage, h: Handler) returns (s: Status)
      requires h in {GlobalUserStateHandler, UserStateHandler, NoticeHandler} && CommandName(h) == Some(m.command)
      modifies this`events, this`userId, this`color
      ensures s == Ok
      ensures old(events) <= events && |events| > |old(events)| && events[|old(events)|] == CommandEvent(m.command, m)
      ensures h != GlobalUserStateHandler ==> userId == old(userId) && color == old(color)
    {
      if h == GlobalUserStateHandler {
        OnGlobalUserState(m);
      } else if h == UserStateHandler {
        OnUserState(m);
      } else {
        OnNotice(m);
      }
      return Ok;
    }

    /**
     * The branches that talk to the server rather than about a room: CAP is quiet only for an
     * acknowledgement, PING is answered with PONG, PONG gives the latency, the welcome numeric
     * records the nick, announces the identity, joins the pending channels (without waiting
     * for them) and then falls into the ignored numerics, and a command without a branch is
     * reported as unhandled.
     */
    method OnServerCommand(m: IrcMessage, h: Handler, now: int) returns (s: Status)
      requires h in {CapHandler, PingHandler, PongHandler, ReconnectHandler, WelcomeHandler, IgnoredHandler, UnhandledHandler}
      modifies this`events, this`outbox, this`lastLatencyMs, this`nick, this`channels, this`pendingChannels
      ensures s.Ok? || s.Thrown?
      ensures old(events) <= events
      ensures h == CapHandler ==>
        s == Ok && events == old(events) + (if Contains(m.raw, CapAck) then [] else [UnhandledCommand(m)])
      ensures h == PingHandler ==>
        events == old(events)
        && (connected ==> s == Ok && outbox == old(outbox) + [PongLine(m.params)])
        && (!connected ==> s == Thrown(NotConnected) && outbox == old(outbox))
      ensures h == PongHandler ==> s == Ok
      ensures h == WelcomeHandler ==>
        s == Ok && nick == Nth(m.params, 0) && pendingChannels <= old(pendingChannels)
        && events == old(events) + [IdentityEvent(Nth(m.params, 0)), IgnoredCommand(m)]
      ensures h == IgnoredHandler ==> s == Ok && events == old(events) + [IgnoredCommand(m)]
      ensures h == UnhandledHandler ==> s == Ok && events == old(events) + [UnhandledCommand(m)]
      ensures h == ReconnectHandler ==> s == Ok && events == old(events)
      ensures h != WelcomeHandler ==> nick == old(nick) && pendingChannels == old(pendingChannels) && channels == old(channels)
      ensures h !in {PingHandler, WelcomeHandler} ==> outbox == old(outbox)
    {
      match h {
        case CapHandler =>
          if !Contains(m.raw, CapAck) {
            events := events + [UnhandledCommand(m)];
          }
          return Ok;
        case PingHandler =>
          s := Send(PongLine(m.params));
        case PongHandler =>
          OnPong(now);
          return Ok;
        case ReconnectHandler =>
          return Ok;
        case WelcomeHandler =>
          nick := Nth(m.params, 0);
          events := events + [IdentityEvent(nick)];
          var ignored := JoinPendingChannels(now);
          events := events + [IgnoredCommand(m)];
          return Ok;
        case IgnoredHandler =>
          events := events + [IgnoredCommand(m)];
          return Ok;
        case UnhandledHandler =>
          events := events + [UnhandledCommand(m)];
          return Ok;
      }
    }

    /**
     * The command switch of `onIrcLine`, after the `ircMessage` event: each command goes to
     * its branch, and an exception of a handler ends the call. The room handlers' own
     * contracts say what each branch emits and changes.
     */
    method Dispatch(m: IrcMessage, now: int) returns (s: Status)
      modifies this`events, this`deferred, this`channels, this`pendingChannels, this`nick, this`userId
      modifies this`color, this`outbox, this`lastLatencyMs, channels.Values
      ensures s.Ok? || s.Thrown?
      ensures old(events) <= events
      ensures EmitsCommandFirst(HandlerOf(m.command)) ==>
        |events| > |old(events)| && events[|old(events)|] == CommandEvent(m.command, m)
      ensures HandlerOf(m.command) == CapHandler ==>
        s == Ok && events == old(events) + (if Contains(m.raw, CapAck) then [] else [UnhandledCommand(m)])
      ensures HandlerOf(m.command) == PingHandler ==>
        events == old(events)
        && (connected ==> s == Ok && outbox == old(outbox) + [PongLine(m.params)])
        && (!connected ==> s == Thrown(NotConnected) && outbox == old(outbox))
      ensures HandlerOf(m.command) == WelcomeHandler ==>
        s == Ok && nick == Nth(m.params, 0) && pendingChannels <= old(pendingChannels)
        && events == old(events) + [IdentityEvent(Nth(m.params, 0)), IgnoredCommand(m)]
      ensures HandlerOf(m.command) == IgnoredHandler ==> s == Ok && events == old(events) + [IgnoredCommand(m)]
      ensures HandlerOf(m.command) == UnhandledHandler ==> s == Ok && events == old(events) + [UnhandledCommand(m)]
      ensures HandlerOf(m.command) == ReconnectHandler ==> s == Ok && events == old(events)
      ensures HandlerOf(m.command) in {PongHandler, GlobalUserStateHandler, UserStateHandler, NoticeHandler} ==> s == Ok
      ensures HandlerOf(m.command) in {JoinHandler, PartHandler} ==>
        (s.Thrown? <==> old(NameTarget(m.channel)).Invalid?)
        && (s.Thrown? ==> s.error == old(NameTarget(m.channel)).error)
      ensures HandlerOf(m.command) in {RoomStateHandler, UserNoticeHandler, ClearMsgHandler, ClearChatHandler} ==>
        (s.Thrown? <==> old(MessageTarget(m)).Invalid?)
        && (s.Thrown? ==> s.error == old(MessageTarget(m)).error)
      ensures HandlerOf(m.command) == PrivmsgHandler ==>
        (s.Thrown? <==> old(MessageTarget(m)).Invalid? || ChatMessageOf(m.tags, m.prefix.nick, Nth(m.params, 0)).Failure?)
      ensures HandlerOf(m.command) != WelcomeHandler ==> nick == old(nick) && pendingChannels == old(pendingChannels)
      ensures HandlerOf(m.command) != GlobalUserStateHandler ==> userId == old(userId) && color == old(color)
      ensures HandlerOf(m.command) !in {PingHandler, WelcomeHandler} ==> outbox == old(outbox)
      ensures HandlerOf(m.command) !in {PartHandler, WelcomeHandler} ==> channels == old(channels)
    {
      var h := HandlerOf(m.command);
      if h in {JoinHandler, PartHandler} {
        s := OnMembership(m, h);
      } else if h in {RoomStateHandler, UserNoticeHandler, PrivmsgHandler, ClearMsgHandler, ClearChatHandler} {
        s := OnRoomCommand(m, h);
      } else if h in {GlobalUserStateHandler, UserStateHandler, NoticeHandler} {
        s := OnStateCommand(m, h);
      } else {
        s := OnServerCommand(m, h, now);
      }
    }

    /**
     * `onIrcLine`: a line that parses to nothing is dropped; otherwise the parsed message is
     * emitted as `ircMessage` and then dispatched. A line the parser throws on, or never
     * finishes, ends the call the same way.
     */
    method OnIrcLine(line: string, now: int) returns (s: Status)
      modifies this`events, this`deferred, this`channels, this`pendingChannels, this`nick, this`userId
      modifies this`color, this`outbox, this`lastLatencyMs, channels.Values
      ensures Parse(line) == NoMessage ==> s == Ok && events == old(events) && outbox == old(outbox)
      ensures Parse(line) == Hangs ==> s == Diverges && events == old(events)
      ensures Parse(line).Threw? ==> s == Thrown(Parse(line).error) && events == old(events)
      ensures Parse(line).Parsed? ==>
        (s.Ok? || s.Thrown?)
        && old(events) + [IrcMessageEvent(Parse(line).message)] <= events
      ensures Parse(line).Parsed? && EmitsCommandFirst(HandlerOf(Parse(line).message.command)) ==>
        |events| > |old(events)| + 1
        && events[|old(events)| + 1] == CommandEvent(Parse(line).message.command, Parse(line).message)
      ensures !Parse(line).Parsed? ==> channels == old(channels) && nick == old(nick)
    {
      var parsed := ParseIrcLine(line);
      s := OnParsed(parsed, now);
    }

    /** What `onIrcLine` does once the line is parsed. */
    method OnParsed(parsed: ParseOutcome, now: int) returns (s: Status)
      modifies this`events, this`deferred, this`channels, this`pendingChannels, this`nick, this`userId
      modifies this`color, this`outbox, this`lastLatencyMs, channels.Values
      ensures parsed == NoMessage ==> s == Ok && events == old(events) && outbox == old(outbox)
      ensures parsed == Hangs ==> s == Diverges && events == old(events)
      ensures parsed.Threw? ==> s == Thrown(parsed.error) && events == old(events)
      ensures parsed.Parsed? ==>
        (s.Ok? || s.Thrown?)
        && old(events) + [IrcMessageEvent(parsed.message)] <= events
      ensures parsed.Parsed? && EmitsCommandFirst(HandlerOf(parsed.message.command)) ==>
        |events| > |old(events)| + 1
        && events[|old(events)| + 1] == CommandEvent(parsed.message.command, parsed.message)
      ensures !parsed.Parsed? ==> channels == old(channels) && nick == old(nick)
    {
      match parsed
      case NoMessage =>
        return Ok;
      case Hangs =>
        return Diverges;
      case Threw(e) =>
        return Thrown(e);
      case Parsed(m) =>
        events := events + [IrcMessageEvent(m)];
        s := Dispatch(m, now);
    }
  }
}
