/**
 * Code generators of the behaviour-script blocks: each turns the field
 * values of one block into script text for the in-browser interpreter.
 */
module AutomationBlocks {
  import opened Wrappers
  import opened Strings

  /** Bounds and default of the wait block's SECONDS field. */
  const MinSeconds := 0
  const MaxSeconds := 600
  const DefaultSeconds := 1

  const WaitPrefix := "waitForSeconds("
  const WaitSuffix := ");\n"

  /** The start block only marks where a script begins. */
  function StartCode(): (code: string)
    ensures |code| == 0
  {
    ""
  }

  /** The wait block: a call of the interpreter's asynchronous `waitForSeconds`, which reads back as its own field value. */
  function WaitSecondsCode(seconds: nat): (code: string)
    requires MinSeconds <= seconds <= MaxSeconds
    ensures ParseWait(code) == Some(seconds)
  {
    WaitCallRoundTrip(seconds);
    WaitPrefix + NatToString(seconds) + WaitSuffix
  }

  /**
   * Reads a generated wait statement back: the whole number of seconds it
   * waits, if any. A numeral with a leading zero is refused, since script
   * code in sloppy mode reads "010" as octal.
   */
  function ParseWait(code: string): (r: Option<nat>)
    ensures r.Some? ==> |code| > |WaitPrefix| + |WaitSuffix| &&
                        code[..|WaitPrefix|] == WaitPrefix && code[|code| - |WaitSuffix|..] == WaitSuffix
  {
    if |code| > |WaitPrefix| + |WaitSuffix| && code[..|WaitPrefix|] == WaitPrefix &&
       code[|code| - |WaitSuffix|..] == WaitSuffix
    then
      var digits := code[|WaitPrefix|..|code| - |WaitSuffix|];
      if IsDigits(digits) && (digits[0] == '0' ==> |digits| == 1) then Some(DigitsValue(digits)) else None
    else None
  }

  /** A wait statement for any whole number of seconds, within the field's bounds or not, reads back as that number. */
  lemma WaitCallRoundTrip(seconds: nat)
    ensures ParseWait(WaitPrefix + NatToString(seconds) + WaitSuffix) == Some(seconds)
  {
    var d := NatToString(seconds);
    var code := WaitPrefix + d + WaitSuffix;
    assert code[..|WaitPrefix|] == WaitPrefix;
    assert code[|code| - |WaitSuffix|..] == WaitSuffix;
    assert code[|WaitPrefix|..|code| - |WaitSuffix|] == d;
    NatToStringRoundTrip(seconds);
  }

  /** A wait with a leading zero is not read as a decimal number of seconds. */
  lemma WaitRefusesLeadingZero(n: nat)
    ensures ParseWait(WaitPrefix + "0" + NatToString(n) + WaitSuffix) == None
  {
    var code := WaitPrefix + "0" + NatToString(n) + WaitSuffix;
    assert code[|WaitPrefix|..|code| - |WaitSuffix|] == "0" + NatToString(n);
  }

  /**
   * The move block: an alert showing the distance text, then a wait of as
   * many seconds as the distance text says. The direction is read but not used.
   */
  function MoveCode(direction: string, distance: string): (code: string)
    ensures var alert := "alert(" + distance + "); ";
            |code| > |alert| && code[..|alert|] == alert
    ensures var wait := WaitPrefix + distance + WaitSuffix;
            |code| > |wait| && code[|code| - |wait|..] == wait
  {
    "alert(" + distance + "); " + WaitPrefix + distance + WaitSuffix
  }

  lemma MoveIgnoresDirection(d1: string, d2: string, distance: string)
    ensures MoveCode(d1, distance) == MoveCode(d2, distance)
  {
  }

  /**
   * Moving any whole-number distance (the DIST field is free text, so the
   * wait block's 0..600 bound does not apply) ends with a wait statement for
   * that many seconds.
   */
  lemma MoveWaitsDistance(direction: string, distance: nat)
    ensures var code := MoveCode(direction, NatToString(distance));
            var alert := "alert(" + NatToString(distance) + "); ";
            code == alert + WaitPrefix + NatToString(distance) + WaitSuffix &&
            ParseWait(code[|alert|..]) == Some(distance)
  {
    var alert := "alert(" + NatToString(distance) + "); ";
    var code := MoveCode(direction, NatToString(distance));
    assert code[|alert|..] == WaitPrefix + NatToString(distance) + WaitSuffix;
    WaitCallRoundTrip(distance);
  }

  const SpeakPrefix := "playTTS(\""
  const SpeakSuffix := "\");"

  /** The speak block: the text spliced between double quotes, unescaped, with no newline. */
  function SpeakCode(text: string): (code: string)
    ensures |code| == |SpeakPrefix| + |text| + |SpeakSuffix|
    ensures code[..|SpeakPrefix|] == SpeakPrefix && code[|SpeakPrefix|..|SpeakPrefix| + |text|] == text
    ensures code[|SpeakPrefix| + |text|] == '"'
  {
    SpeakPrefix + text + SpeakSuffix
  }

  /** Text with no character that could end, escape or break a double-quoted JavaScript string literal. */
  predicate Plain(text: string) {
    '"' !in text && '\\' !in text && '\n' !in text && '\r' !in text
  }

  /**
   * Where the double-quoted literal whose body starts at `i` closes: at the
   * first double quote no backslash escapes. A backslash takes the next
   * character with it, or the whole CR LF pair of a line continuation; a line break or the end of the code before the
   * closing quote leaves the literal unterminated (None).
   */
  function LiteralEnd(code: string, i: nat): (r: Option<nat>)
    requires i <= |code|
    ensures r.Some? ==> i <= r.value < |code| && code[r.value] == '"'
    decreases |code| - i
  {
    if i == |code| || code[i] == '\n' || code[i] == '\r' then None
    else if code[i] == '"' then Some(i)
    else if code[i] == '\\' then
      if i + 2 < |code| && code[i + 1] == '\r' && code[i + 2] == '\n' then LiteralEnd(code, i + 3)
      else if i + 1 < |code| then LiteralEnd(code, i + 2)
      else None
    else LiteralEnd(code, i + 1)
  }

  /**
   * The source text of a speak statement's string literal, if the literal
   * closes; None when it is unterminated. Whether the script code after it
   * parses, so that playTTS is called at all, is not checked here. Without
   * backslashes this text is the string playTTS would receive.
   */
  function SpokenText(code: string): (r: Option<string>)
    ensures r.Some? ==> |code| > |SpeakPrefix| + |r.value| && code[|SpeakPrefix| + |r.value|] == '"'
  {
    if |code| < |SpeakPrefix| then None
    else match LiteralEnd(code, |SpeakPrefix|)
      case Some(j) => Some(code[|SpeakPrefix|..j])
      case None => None
  }

  /** Plain characters never end a literal: it closes where it would after them. */
  lemma {:induction false} LiteralEndPlain(code: string, i: nat, text: string)
    requires i + |text| <= |code| && code[i..i + |text|] == text && Plain(text)
    ensures LiteralEnd(code, i) == LiteralEnd(code, i + |text|)
    decreases |text|
  {
    if text != [] {
      assert code[i] == text[0];
      assert code[i + 1..i + 1 + |text[1..]|] == text[1..];
      LiteralEndPlain(code, i + 1, text[1..]);
    }
  }

  /** Text with no quote, backslash or line break is passed to playTTS exactly. */
  lemma SpeakPassesText(text: string)
    requires Plain(text)
    ensures SpokenText(SpeakCode(text)) == Some(text)
  {
    var code := SpeakCode(text);
    LiteralEndPlain(code, |SpeakPrefix|, text);
  }

  /** A double quote in the text ends the literal early: the rest is spliced in as script code. */
  lemma SpeakQuoteEndsLiteral(before: string, after: string)
    requires Plain(before)
    ensures SpokenText(SpeakCode(before + "\"" + after)) == Some(before)
  {
    var code := SpeakCode(before + "\"" + after);
    assert code[|SpeakPrefix|..|SpeakPrefix| + |before|] == before;
    assert code[|SpeakPrefix| + |before|] == '"';
    LiteralEndPlain(code, |SpeakPrefix|, before);
  }

  /** A quote the text itself escapes with a backslash does not end the literal. */
  lemma SpeakEscapedQuoteContinues(before: string, after: string)
    requires Plain(before) && Plain(after)
    ensures SpokenText(SpeakCode(before + "\\\"" + after)) == Some(before + "\\\"" + after)
  {
    var text := before + "\\\"" + after;
    var code := SpeakCode(text);
    var b := |SpeakPrefix| + |before|;
    assert code[|SpeakPrefix|..b] == before;
    LiteralEndPlain(code, |SpeakPrefix|, before);
    assert code[b] == '\\' && code[b + 1] == '"';
    assert code[b + 2..b + 2 + |after|] == after;
    LiteralEndPlain(code, b + 2, after);
    assert code[b + 2 + |after|] == '"';
  }

  /** A backslash before CR LF continues the literal on the next line. */
  lemma SpeakLineContinuation(before: string, after: string)
    requires Plain(before) && Plain(after)
    ensures SpokenText(SpeakCode(before + "\\\r\n" + after)) == Some(before + "\\\r\n" + after)
  {
    var text := before + "\\\r\n" + after;
    var code := SpeakCode(text);
    var b := |SpeakPrefix| + |before|;
    assert code[|SpeakPrefix|..b] == before;
    LiteralEndPlain(code, |SpeakPrefix|, before);
    assert code[b] == '\\' && code[b + 1] == '\r' && code[b + 2] == '\n';
    assert code[b + 3..b + 3 + |after|] == after;
    LiteralEndPlain(code, b + 3, after);
    assert code[b + 3 + |after|] == '"';
  }

  /** A line break in the text leaves the literal unterminated: the script does not parse. */
  lemma SpeakLineBreakUnterminated(before: string, after: string)
    requires Plain(before)
    ensures SpokenText(SpeakCode(before + "\n" + after)) == None
  {
    var code := SpeakCode(before + "\n" + after);
    assert code[|SpeakPrefix|..|SpeakPrefix| + |before|] == before;
    assert code[|SpeakPrefix| + |before|] == '\n';
    LiteralEndPlain(code, |SpeakPrefix|, before);
  }

  /** A trailing backslash escapes the closing quote: the literal runs off the end. */
  lemma SpeakTrailingBackslashUnterminated(before: string)
    requires Plain(before)
    ensures SpokenText(SpeakCode(before + "\\")) == None
  {
    var code := SpeakCode(before + "\\");
    var b := |SpeakPrefix| + |before|;
    assert code[|SpeakPrefix|..b] == before;
    LiteralEndPlain(code, |SpeakPrefix|, before);
    assert code[b] == '\\' && code[b + 1] == '"';
    assert code[b + 2] == ')' && code[b + 3] == ';' && |code| == b + 4;
  }
}
