/**
 * The login token: a value, or a getter that supplies one on demand, and the anonymous
 * sentinel the token carries when it was built with neither. The getter is asynchronous I/O;
 * its answer is passed to `GetToken` as a parameter.
 */
module Tokens {
  import opened Wrappers
  import opened JsStrings

  /** `Token.anonymousIrcToken`. */
  const AnonymousIrcToken: string := "SCHMOOPIIE"

  const InvalidFromGetter: string := "Did not get a valid token from the supplied getter function"
  const NoValueOrGetter: string := "No token value or getter function"
  const NoValue: string := "No token value, may need to call getToken first"

  /** The constructor argument: nothing, a token string, or a getter function. */
  datatype TokenSource = Absent | Value(value: string) | Getter

  class Token {
    var value: Option<string>
    const hasGetter: bool

    constructor (source: TokenSource)
      ensures source.Value? ==> value == Some(source.value) && !hasGetter
      ensures source.Getter? ==> value == None && hasGetter
      ensures source.Absent? ==> value == Some(AnonymousIrcToken) && !hasGetter
      ensures IsAnonymous() <==> source.Absent? || source == Value(AnonymousIrcToken)
    {
      match source
      case Value(s) =>
        value := Some(s);
        hasGetter := false;
      case Getter =>
        value := None;
        hasGetter := true;
      case Absent =>
        value := Some(AnonymousIrcToken);
        hasGetter := false;
    }

    /** `isAnonymous`: the value is the sentinel (so a token waiting on its getter is not). */
    predicate IsAnonymous()
      reads this
    {
      value == Some(AnonymousIrcToken)
    }

    /**
     * `getToken`, where `fetched` is what the getter would answer. A present, non-empty value
     * is returned as it is and the getter is not used; otherwise a non-empty answer from the
     * getter is stored and returned, and an empty answer or a missing getter is an error.
     */
    method GetToken(fetched: string) returns (r: Result<string>)
      modifies this`value
      ensures IsTruthy(old(value)) ==> r == Success(old(value).value) && value == old(value)
      ensures !IsTruthy(old(value)) && hasGetter && fetched != "" ==>
        r == Success(fetched) && value == Some(fetched)
      ensures !IsTruthy(old(value)) && hasGetter && fetched == "" ==>
        r == Failure(InvalidFromGetter) && value == old(value)
      ensures !IsTruthy(old(value)) && !hasGetter ==>
        r == Failure(NoValueOrGetter) && value == old(value)
    {
      if !IsTruthy(value) {
        if hasGetter {
          if fetched == "" {
            return Failure(InvalidFromGetter);
          }
          value := Some(fetched);
        } else {
          return Failure(NoValueOrGetter);
        }
      }
      return Success(value.value);
    }

    /** `formatIrc` on the current value. */
    function FormatIrc(): Result<string>
      reads this
    {
      FormatIrcValue(value)
    }
  }

  /**
   * `formatIrc` of a token value: a missing or empty value is an error; a value that already
   * has the `oauth:` prefix and something after it is kept; any other gets the prefix.
   */
  function FormatIrcValue(value: Option<string>): (r: Result<string>)
    ensures r.Failure? <==> !IsTruthy(value)
    ensures r.Failure? ==> r.error == NoValue
    ensures r.Success? ==> StartsWith(r.value, "oauth:") && |r.value| > 6
    ensures r.Success? ==> r.value == value.value || r.value == "oauth:" + value.value
  {
    if !IsTruthy(value) then Failure(NoValue)
    else if StartsWith(value.value, "oauth:") && |value.value| > 6 then Success(value.value)
    else Success("oauth:" + value.value)
  }

  /** Formatting an already formatted token changes nothing. */
  lemma FormatIrcIdempotent(value: Option<string>)
    requires FormatIrcValue(value).Success?
    ensures FormatIrcValue(Some(FormatIrcValue(value).value)) == FormatIrcValue(value)
  {
  }

  /** A prefixed token with a body is kept; a bare body gains the prefix; the prefix alone
      is not taken for a token and is prefixed again. */
  lemma FormatIrcPrefix(body: string)
    requires |body| > 0
    ensures FormatIrcValue(Some("oauth:" + body)) == Success("oauth:" + body)
    ensures !StartsWith(body, "oauth:") ==> FormatIrcValue(Some(body)) == Success("oauth:" + body)
    ensures FormatIrcValue(Some("oauth:")) == Success("oauth:oauth:")
  {
    assert ("oauth:" + body)[..6] == "oauth:";
    assert "oauth:" + "oauth:" == "oauth:oauth:";
  }
}
