/**
 * Waiting for the server's answer to a command (`waitForIrcCommand` and its by-channel
 * variant) as an explicit state machine.
 *
 * A wait is armed with the command it waits for, a filter, a list of NOTICE ids that mean
 * failure, and a timeout. While it is armed, each emitted event and each reading of the
 * clock is offered to it: the first event of its command that passes the filter resolves it,
 * a NOTICE whose id is in the list rejects it (the NOTICE listener exists only when the list
 * is not empty), and the clock reaching the deadline times it out. Whichever happens first
 * runs the cleanup (timer and both listeners) once; after that nothing reaches the wait.
 */
module Correlation {
  import opened Wrappers
  import opened JsStrings
  import opened Tags
  import opened Parser
  import opened Channels

  const DefaultTimeoutMs: int := 10000

  /** The filter of the by-channel variant: the normalised target name, and for `say` the
      `client-nonce` the answer must echo. */
  datatype Filter = ChannelFilter(target: string, nonce: Option<string>)

  datatype WaitSpec = WaitSpec(command: string, filter: Filter, badNotices: seq<string>, timeoutMs: int)

  /** The by-channel filter: a message without a (non-empty) channel never matches; otherwise
      the extra test must pass and the message's channel must normalise to the target. */
  predicate Accepts(f: Filter, m: IrcMessage) {
    IsTruthy(m.channel)
    && (f.nonce.None? || FieldValue(m.tags, "clientNonce") == Str(f.nonce.value))
    && NormalizeName(m.channel.value) == Success(f.target)
  }

  /** `waitForIrcCommandByChannel`: the target is normalised up front, which may be refused;
      a missing timeout takes the default. */
  function ByChannel(command: string, channelName: string, nonce: Option<string>,
                     badNotices: seq<string>, timeoutMs: Option<int>): (r: Result<WaitSpec>)
    ensures r.Failure? <==> NormalizeName(channelName).Failure?
    ensures r.Success? ==> r.value.filter == ChannelFilter(NormalizeName(channelName).value, nonce)
    ensures r.Success? ==> r.value.command == command && r.value.badNotices == badNotices
    ensures r.Success? ==> timeoutMs.None? ==> r.value.timeoutMs == DefaultTimeoutMs
  {
    var target :- NormalizeName(channelName);
    Success(WaitSpec(command, ChannelFilter(target, nonce), badNotices, timeoutMs.GetOr(DefaultTimeoutMs)))
  }

  datatype WaitState = Armed | Resolved(message: IrcMessage) | RejectedNotice(msgId: string) | TimedOut

  /** A wait: what it waits for, when it was armed, where it stands, and how often its
      cleanup has run. */
  datatype Wait = Wait(spec: WaitSpec, armedAt: int, state: WaitState, cleanups: nat)

  /** What can reach a wait: an event emitted under a name, with its message, or the clock. */
  datatype WaitInput = Emitted(event: string, message: IrcMessage) | Clock(now: int)

  function Arm(spec: WaitSpec, now: int): Wait {
    Wait(spec, now, Armed, 0)
  }

  predicate ListensForNotices(spec: WaitSpec) {
    |spec.badNotices| > 0
  }

  /** The outcome one input would settle on while the wait is armed, if any. The command
      listener is registered before the NOTICE listener, so it is asked first. */
  function Decision(spec: WaitSpec, armedAt: int, input: WaitInput): (d: Option<WaitState>)
    ensures d.Some? ==> !d.value.Armed?
    ensures d.Some? && d.value.Resolved? ==>
      input == Emitted(spec.command, d.value.message) && Accepts(spec.filter, d.value.message)
    ensures d.Some? && d.value.RejectedNotice? ==>
      input.Emitted? && input.event == "NOTICE" && ListensForNotices(spec)
      && d.value.msgId in spec.badNotices
    ensures d.Some? && d.value.TimedOut? ==> input.Clock? && input.now >= armedAt + spec.timeoutMs
    ensures input.Emitted? && input.event == spec.command && Accepts(spec.filter, input.message) ==>
      d == Some(Resolved(input.message))
    ensures (input.Emitted? && input.event == "NOTICE" && ListensForNotices(spec)
             && FieldValue(input.message.tags, "msgId").Str? && FieldValue(input.message.tags, "msgId").s in spec.badNotices
             && !(spec.command == "NOTICE" && Accepts(spec.filter, input.message))) ==>
      d == Some(RejectedNotice(FieldValue(input.message.tags, "msgId").s))
    ensures input.Clock? && input.now >= armedAt + spec.timeoutMs ==> d == Some(TimedOut)
    ensures input.Clock? && input.now < armedAt + spec.timeoutMs ==> d.None?
  {
    match input
    case Emitted(event, m) =>
      if event == spec.command && Accepts(spec.filter, m) then Some(Resolved(m))
      else if event == "NOTICE" && ListensForNotices(spec) && FieldValue(m.tags, "msgId").Str?
              && FieldValue(m.tags, "msgId").s in spec.badNotices then
        Some(RejectedNotice(FieldValue(m.tags, "msgId").s))
      else None
    case Clock(now) =>
      if now >= armedAt + spec.timeoutMs then Some(TimedOut) else None
  }

  /** One input: an armed wait settles on its decision and cleans up; a settled one has no
      listeners left and ignores it. */
  function Step(w: Wait, input: WaitInput): Wait {
    if !w.state.Armed? then w
    else match Decision(w.spec, w.armedAt, input)
      case None => w
      case Some(s) => w.(state := s, cleanups := w.cleanups + 1)
  }

  function Run(w: Wait, inputs: seq<WaitInput>): Wait
    decreases |inputs|
  {
    if |inputs| == 0 then w else Run(Step(w, inputs[0]), inputs[1..])
  }

  /** The reference outcome: the decision of the first input that has one. */
  function FirstDecision(spec: WaitSpec, armedAt: int, inputs: seq<WaitInput>): WaitState
    decreases |inputs|
  {
    if |inputs| == 0 then Armed
    else match Decision(spec, armedAt, inputs[0])
      case Some(s) => s
      case None => FirstDecision(spec, armedAt, inputs[1..])
  }

  /** Once settled, a wait stays as it is, cleanup included. */
  lemma {:induction false} SettledStays(w: Wait, inputs: seq<WaitInput>)
    requires !w.state.Armed?
    ensures Run(w, inputs) == w
    decreases |inputs|
  {
    if |inputs| > 0 {
      SettledStays(Step(w, inputs[0]), inputs[1..]);
    }
  }

  /** Running an armed wait ends in the first decision, and its cleanup has run exactly once
      if it settled and not at all if it did not. */
  lemma {:induction false} RunIsFirstDecision(spec: WaitSpec, armedAt: int, inputs: seq<WaitInput>)
    ensures Run(Arm(spec, armedAt), inputs).state == FirstDecision(spec, armedAt, inputs)
    ensures Run(Arm(spec, armedAt), inputs).cleanups == (if FirstDecision(spec, armedAt, inputs).Armed? then 0 else 1)
    ensures Run(Arm(spec, armedAt), inputs).spec == spec && Run(Arm(spec, armedAt), inputs).armedAt == armedAt
    decreases |inputs|
  {
    if |inputs| > 0 {
      var w := Arm(spec, armedAt);
      match Decision(spec, armedAt, inputs[0])
      case None =>
        assert Step(w, inputs[0]) == w;
        RunIsFirstDecision(spec, armedAt, inputs[1..]);
      case Some(s) =>
        SettledStays(Step(w, inputs[0]), inputs[1..]);
    }
  }

  /** The first input with a decision decides, whatever comes after it. */
  lemma {:induction false} FirstDecisionAt(spec: WaitSpec, armedAt: int, inputs: seq<WaitInput>, i: nat)
    requires i < |inputs| && Decision(spec, armedAt, inputs[i]).Some?
    requires forall j | 0 <= j < i :: Decision(spec, armedAt, inputs[j]).None?
    ensures FirstDecision(spec, armedAt, inputs) == Decision(spec, armedAt, inputs[i]).value
    decreases i
  {
    if i > 0 {
      assert Decision(spec, armedAt, inputs[0]).None?;
      assert forall j | 0 <= j < i - 1 :: inputs[1..][j] == inputs[j + 1];
      FirstDecisionAt(spec, armedAt, inputs[1..], i - 1);
    }
  }

  /** A wait resolves on the first message of its command that passes the filter, provided
      nothing settled it earlier. */
  lemma ResolvesOnFirstMatch(spec: WaitSpec, armedAt: int, inputs: seq<WaitInput>, i: nat)
    requires i < |inputs| && inputs[i].Emitted? && inputs[i].event == spec.command
    requires Accepts(spec.filter, inputs[i].message)
    requires forall j | 0 <= j < i :: Decision(spec, armedAt, inputs[j]).None?
    ensures Run(Arm(spec, armedAt), inputs).state == Resolved(inputs[i].message)
    ensures Run(Arm(spec, armedAt), inputs).cleanups == 1
  {
    FirstDecisionAt(spec, armedAt, inputs, i);
    RunIsFirstDecision(spec, armedAt, inputs);
  }

  /** Without bad notices no NOTICE listener exists, so no NOTICE can reject the wait. */
  lemma {:induction false} NoNoticeListener(spec: WaitSpec, armedAt: int, inputs: seq<WaitInput>)
    requires spec.badNotices == []
    ensures !Run(Arm(spec, armedAt), inputs).state.RejectedNotice?
    decreases |inputs|
  {
    RunIsFirstDecision(spec, armedAt, inputs);
    FirstDecisionNoNotice(spec, armedAt, inputs);
  }

  lemma {:induction false} FirstDecisionNoNotice(spec: WaitSpec, armedAt: int, inputs: seq<WaitInput>)
    requires spec.badNotices == []
    ensures !FirstDecision(spec, armedAt, inputs).RejectedNotice?
    decreases |inputs|
  {
    if |inputs| > 0 && Decision(spec, armedAt, inputs[0]).None? {
      FirstDecisionNoNotice(spec, armedAt, inputs[1..]);
    }
  }

  /** Messages without a channel never satisfy the by-channel filter. */
  lemma ChannellessNeverMatches(f: Filter, m: IrcMessage)
    requires m.channel.None? || m.channel == Some("")
    ensures !Accepts(f, m)
  {
  }

  /** Channel names are compared after normalisation: a channel joined as `foo` answers to a
      message about `#Foo`. */
  lemma MatchesNormalizedChannel(m: IrcMessage)
    requires m.channel == Some("#Foo")
    ensures Accepts(ChannelFilter("foo", None), m)
  {
    var t := "#Foo";
    assert !IsJsWhitespace(t[0]) && !IsJsWhitespace(t[|t| - 1]);
    TrimUnchanged(t);
    assert ToLower(t) == "#foo";
    assert "#foo"[1..] == "foo";
  }
}
