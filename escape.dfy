/**
 * Tag value escaping, after the "Escaping values" section of the IRCv3 Message Tags
 * specification: space, `;`, CR, LF and backslash travel as `\s`, `\:`, `\r`, `\n` and `\\`.
 *
 * `UnescapeIrcAsWritten` and `EscapeIrcAsWritten` are what the replacement callbacks
 * compute as written, and what the parser and `say` use: the unescape table is indexed by
 * the escape letter alone, while its keys hold backslash and letter, so every recognised
 * pair becomes the text `undefined`; the escape table maps a backslash to two backslashes
 * before a third is put in front, and whitespace outside the table becomes `\undefined`.
 * So a value comes back from the round trip exactly when the escape has nothing to do.
 * `UnescapeIrc` and `EscapeIrc` are the intended mappings, whose round trip loses nothing.
 */
module IrcEscape {
  import opened Wrappers
  import opened JsStrings

  /** A letter that may follow a backslash in an escaped value. */
  predicate IsEscapeLetter(c: char) {
    c == 's' || c == 'n' || c == 'r' || c == ':' || c == '\\'
  }

  /** The character an escape pair stands for. */
  function UnescapedOf(letter: char): char
    requires IsEscapeLetter(letter)
  {
    match letter
    case 's' => ' '
    case 'n' => '\n'
    case 'r' => '\r'
    case ':' => ';'
    case '\\' => '\\'
  }

  /** The replacement of every recognised pair, scanning left to right without overlap. */
  function UnescapePairs(s: string): string
    decreases |s|
  {
    if |s| == 0 then ""
    else if |s| >= 2 && s[0] == '\\' && IsEscapeLetter(s[1]) then [UnescapedOf(s[1])] + UnescapePairs(s[2..])
    else [s[0]] + UnescapePairs(s[1..])
  }

  /** `unescapeIrc`: missing, empty and backslash-free values are returned as they are. */
  function UnescapeIrc(v: Option<string>): Option<string> {
    if !IsTruthy(v) || '\\' !in v.value then v else Some(UnescapePairs(v.value))
  }

  /** The characters the escape table covers. */
  predicate IsEscaped(c: char) {
    c == ' ' || c == '\n' || c == '\r' || c == ';' || c == '\\'
  }

  /** The escape letter of a covered character. */
  function EscapeLetter(c: char): (letter: char)
    requires IsEscaped(c)
    ensures IsEscapeLetter(letter) && UnescapedOf(letter) == c
  {
    match c
    case ' ' => 's'
    case '\n' => 'n'
    case '\r' => 'r'
    case ';' => ':'
    case '\\' => '\\'
  }

  function EscapeChar(c: char): string {
    if IsEscaped(c) then ['\\', EscapeLetter(c)] else [c]
  }

  /** The pieces glued together in order. */
  function Concat(parts: seq<string>): string
    decreases |parts|
  {
    if |parts| == 0 then "" else parts[0] + Concat(parts[1..])
  }

  /** `escapeIrc`: each covered character becomes its pair, every other one stays. */
  function EscapeIrc(s: string): string {
    Concat(seq(|s|, i requires 0 <= i < |s| => EscapeChar(s[i])))
  }

  /** Escaping works character by character from the front. */
  lemma EscapeIrcFirst(s: string)
    ensures EscapeIrc(s) == if |s| == 0 then "" else EscapeChar(s[0]) + EscapeIrc(s[1..])
  {
    if |s| > 0 {
      var pieces := seq(|s|, i requires 0 <= i < |s| => EscapeChar(s[i]));
      assert pieces[1..] == seq(|s| - 1, i requires 0 <= i < |s| - 1 => EscapeChar(s[1..][i]));
    }
  }

  /** Unescaping after an escaped character gives the character back first. */
  lemma UnescapeEscapedChar(c: char, rest: string)
    ensures UnescapePairs(EscapeChar(c) + rest) == [c] + UnescapePairs(rest)
  {
    var s := EscapeChar(c) + rest;
    if IsEscaped(c) {
      assert s[2..] == rest;
    } else {
      assert s[1..] == rest;
    }
  }

  /** Escaping and then unescaping gives every value back. */
  lemma {:induction false} UnescapeEscape(s: string)
    ensures UnescapePairs(EscapeIrc(s)) == s
    decreases |s|
  {
    EscapeIrcFirst(s);
    if |s| > 0 {
      UnescapeEscapedChar(s[0], EscapeIrc(s[1..]));
      UnescapeEscape(s[1..]);
      assert s == [s[0]] + s[1..];
    }
  }

  /** The backslash test is only a shortcut: scanning a backslash-free value changes nothing. */
  lemma {:induction false} UnescapeWithoutBackslash(s: string)
    requires '\\' !in s
    ensures UnescapePairs(s) == s
    decreases |s|
  {
    if |s| > 0 {
      assert '\\' !in s[1..];
      UnescapeWithoutBackslash(s[1..]);
      assert s == [s[0]] + s[1..];
    }
  }

  /** So `unescapeIrc` of a present value is the full scan of it. */
  lemma UnescapeIrcScans(s: string)
    ensures UnescapeIrc(Some(s)) == Some(UnescapePairs(s))
  {
    if '\\' !in s {
      UnescapeWithoutBackslash(s);
    }
  }

  /** The round trip through `escapeIrc` and `unescapeIrc` loses nothing. */
  lemma UnescapeIrcEscapeIrc(s: string)
    ensures UnescapeIrc(Some(EscapeIrc(s))) == Some(s)
  {
    UnescapeIrcScans(EscapeIrc(s));
    UnescapeEscape(s);
  }

  /** An escaped value holds no space, `;`, CR or LF, so it fits in a tag block. */
  lemma {:induction false} EscapeIrcIsClean(s: string)
    ensures ' ' !in EscapeIrc(s) && ';' !in EscapeIrc(s) && '\r' !in EscapeIrc(s) && '\n' !in EscapeIrc(s)
    decreases |s|
  {
    EscapeIrcFirst(s);
    if |s| > 0 {
      EscapeIrcIsClean(s[1..]);
    }
  }

  // The replacement callbacks as written.

  /** The unescape callback as written: the lookup misses, so each pair becomes `undefined`. */
  function UnescapePairsAsWritten(s: string): string
    decreases |s|
  {
    if |s| == 0 then ""
    else if |s| >= 2 && s[0] == '\\' && IsEscapeLetter(s[1]) then "undefined" + UnescapePairsAsWritten(s[2..])
    else [s[0]] + UnescapePairsAsWritten(s[1..])
  }

  function UnescapeIrcAsWritten(v: Option<string>): Option<string> {
    if !IsTruthy(v) || '\\' !in v.value then v else Some(UnescapePairsAsWritten(v.value))
  }

  /** The characters the escape callback's pattern matches: JavaScript whitespace, `;` and backslash. */
  predicate IsEscapedAsWritten(c: char) {
    IsJsWhitespace(c) || c == ';' || c == '\\'
  }

  /** A value holding none of the characters the escape callback rewrites. */
  predicate PlainValue(s: string) {
    forall i | 0 <= i < |s| :: !IsEscapedAsWritten(s[i])
  }

  /** The escape callback as written, over the JavaScript whitespace class plus `;` and backslash. */
  function EscapeCharAsWritten(c: char): string {
    if IsEscapedAsWritten(c) then
      "\\" + (match c
              case ' ' => "s"
              case '\n' => "n"
              case '\r' => "r"
              case ';' => ":"
              case '\\' => "\\\\"
              case _ => "undefined")
    else [c]
  }

  function EscapeIrcAsWritten(s: string): string
    decreases |s|
  {
    if |s| == 0 then "" else EscapeCharAsWritten(s[0]) + EscapeIrcAsWritten(s[1..])
  }

  /** The as-written callbacks never leave space, `;`, CR or LF either, nor any other whitespace. */
  lemma {:induction false} EscapeIrcAsWrittenIsClean(s: string, c: char)
    requires IsJsWhitespace(c) || c == ';'
    ensures c !in EscapeIrcAsWritten(s)
    decreases |s|
  {
    if |s| > 0 {
      EscapeCharAsWrittenIsClean(s[0], c);
      EscapeIrcAsWrittenIsClean(s[1..], c);
    }
  }

  lemma EscapeCharAsWrittenIsClean(d: char, c: char)
    requires IsJsWhitespace(c) || c == ';'
    ensures c !in EscapeCharAsWritten(d)
  {
    if IsEscapedAsWritten(d) {
      var e := EscapeCharAsWritten(d);
      assert e == "\\" + e[1..];
      assert e[1..] in {"s", "n", "r", ":", "\\\\", "undefined"};
    }
  }

  /** A rewritten character becomes at least two characters, any other stays as it is. */
  lemma EscapeCharAsWrittenLength(c: char)
    ensures IsEscapedAsWritten(c) ==> |EscapeCharAsWritten(c)| >= 2
    ensures !IsEscapedAsWritten(c) ==> EscapeCharAsWritten(c) == [c]
  {
  }

  /** Escaping as written leaves a plain value as it is and lengthens any other value. */
  lemma {:induction false} EscapeAsWrittenLength(s: string)
    ensures PlainValue(s) ==> EscapeIrcAsWritten(s) == s
    ensures !PlainValue(s) ==> |EscapeIrcAsWritten(s)| > |s|
    ensures |EscapeIrcAsWritten(s)| >= |s|
    decreases |s|
  {
    if |s| > 0 {
      EscapeCharAsWrittenLength(s[0]);
      EscapeAsWrittenLength(s[1..]);
      if !PlainValue(s) && !IsEscapedAsWritten(s[0]) {
        var i :| 0 <= i < |s| && IsEscapedAsWritten(s[i]);
        assert s[1..][i - 1] == s[i];
      }
      if PlainValue(s) {
        assert PlainValue(s[1..]) by {
          forall i | 0 <= i < |s| - 1 ensures !IsEscapedAsWritten(s[1..][i]) {
            assert s[1..][i] == s[i + 1];
          }
        }
        assert s == [s[0]] + s[1..];
      }
    }
  }

  /** Unescaping as written never shortens a value: a pair of two becomes nine characters. */
  lemma {:induction false} UnescapeAsWrittenLength(s: string)
    ensures |UnescapePairsAsWritten(s)| >= |s|
    decreases |s|
  {
    if |s| >= 2 && s[0] == '\\' && IsEscapeLetter(s[1]) {
      UnescapeAsWrittenLength(s[2..]);
    } else if |s| > 0 {
      UnescapeAsWrittenLength(s[1..]);
    }
  }

  /** As written, a value survives escaping and unescaping exactly when it is plain. */
  lemma UnescapeEscapeAsWritten(v: string)
    ensures UnescapeIrcAsWritten(Some(EscapeIrcAsWritten(v))) == Some(v) <==> PlainValue(v)
  {
    EscapeAsWrittenLength(v);
    var e := EscapeIrcAsWritten(v);
    if PlainValue(v) {
      assert '\\' !in v;
    } else {
      UnescapeAsWrittenLength(e);
    }
  }

  /** As written, `\s` unescapes to the text `undefined`; a space escapes to `\s`, so the
      round trip turns `a b` into `aundefinedb`. */
  lemma UnescapeAsWrittenLosesPairs()
    ensures UnescapeIrcAsWritten(Some("\\s")) == Some("undefined")
    ensures EscapeIrcAsWritten("a b") == "a\\sb"
    ensures UnescapeIrcAsWritten(Some(EscapeIrcAsWritten("a b"))) == Some("aundefinedb")
  {
    assert '\\' in "\\s" && '\\' in "a\\sb";
    UnescapeSpacePairAsWritten();
    EscapeSpaceAsWritten();
    UnescapeSpacedAsWritten();
  }

  lemma UnescapeSpacePairAsWritten()
    ensures UnescapePairsAsWritten("\\s") == "undefined"
  {
    assert "\\s"[0] == '\\' && "\\s"[2..] == "";
    assert UnescapePairsAsWritten("\\s") == "undefined" + UnescapePairsAsWritten("");
  }

  lemma EscapeSpaceAsWritten()
    ensures EscapeIrcAsWritten("a b") == "a\\sb"
  {
    assert EscapeIrcAsWritten("a b") == "a" + EscapeIrcAsWritten(" b");
    assert EscapeIrcAsWritten(" b") == "\\s" + EscapeIrcAsWritten("b");
    assert EscapeIrcAsWritten("b") == "b";
  }

  lemma UnescapeSpacedAsWritten()
    ensures UnescapePairsAsWritten("a\\sb") == "aundefinedb"
  {
    assert "a\\sb"[1] == '\\';
    assert "a\\sb"[1..] == "\\sb" && "\\sb"[2..] == "b";
    assert UnescapePairsAsWritten("a\\sb") == "a" + UnescapePairsAsWritten("\\sb");
    assert UnescapePairsAsWritten("b") == "b";
    assert UnescapePairsAsWritten("\\sb") == "undefined" + UnescapePairsAsWritten("b") == "undefinedb";
  }

  /** As written, one backslash escapes to three and a tab to `\undefined`. */
  lemma EscapeAsWrittenMisencodes()
    ensures EscapeIrcAsWritten("\\") == "\\\\\\"
    ensures EscapeIrcAsWritten("\t") == "\\undefined"
    ensures EscapeIrc("\\") == "\\\\" && EscapeIrc("\t") == "\t"
  {
    EscapeIrcFirst("\\");
    EscapeIrcFirst("\t");
  }
}
