/** The string handling of LLMDesignAdvisor: the JSON escaping of the design summary,
    the request body, and the small extractor that reads the assistant's answer back
    out of a chat-completions response. JSON strings follow section 7 of RFC 8259,
    of which the escaper produces and the reader decodes a subset. */
module DesignAdvisor {
  import opened Wrappers
  import opened Seqs
  import opened Text
  import opened CountLines

  // ---------------------------------------------------------------------------
  // escapeJson

  /** escapeJson: backslashes doubled first, then quotes and newlines escaped. */
  function EscapeJson(text: string): string
  {
    ReplaceWith(ReplaceWith(ReplaceWith(text, '\\', "\\\\"), '"', "\\\""), '\n', "\\n")
  }

  /** What escapeJson makes of one character. */
  function EscapeChar(c: char): string
  {
    if c == '\\' then "\\\\"
    else if c == '"' then "\\\""
    else if c == '\n' then "\\n"
    else [c]
  }

  lemma {:induction false} ReplaceWithAppend(a: string, b: string, target: char, replacement: string)
    ensures ReplaceWith(a + b, target, replacement)
      == ReplaceWith(a, target, replacement) + ReplaceWith(b, target, replacement)
    decreases |b|
  {
    if b == [] {
      assert a + b == a;
    } else {
      var init := b[..|b| - 1];
      assert (a + b)[..|a + b| - 1] == a + init;
      ReplaceWithAppend(a, init, target, replacement);
    }
  }

  lemma ReplaceWithSingle(c: char, target: char, replacement: string)
    ensures ReplaceWith([c], target, replacement) == if c == target then replacement else [c]
  {
    assert [c][..0] == [];
  }

  lemma EscapeOneChar(c: char)
    ensures EscapeJson([c]) == EscapeChar(c)
  {
    ReplaceWithSingle(c, '\\', "\\\\");
    if c == '\\' {
      assert "\\\\" == ['\\'] + ['\\'];
      ReplaceWithAppend(['\\'], ['\\'], '"', "\\\"");
      ReplaceWithSingle('\\', '"', "\\\"");
      ReplaceWithAppend(['\\'], ['\\'], '\n', "\\n");
      ReplaceWithSingle('\\', '\n', "\\n");
    } else {
      ReplaceWithSingle(c, '"', "\\\"");
      if c == '"' {
        assert "\\\"" == ['\\'] + ['"'];
        ReplaceWithAppend(['\\'], ['"'], '\n', "\\n");
        ReplaceWithSingle('\\', '\n', "\\n");
        ReplaceWithSingle('"', '\n', "\\n");
      } else {
        ReplaceWithSingle(c, '\n', "\\n");
      }
    }
  }

  /** The three chained replacements act character by character: the replacements
      do not interfere, because each one's output holds no character a later one replaces
      except the backslash, which the first one has already doubled. */
  lemma {:induction false} EscapeJsonPerChar(s: string)
    ensures EscapeJson(s) == FlatMap(s, EscapeChar)
  {
    if s != [] {
      var init, c := s[..|s| - 1], s[|s| - 1];
      EscapeJsonPerChar(init);
      assert s == init + [c];
      ReplaceWithAppend(init, [c], '\\', "\\\\");
      var r1 := ReplaceWith(init, '\\', "\\\\");
      var c1 := ReplaceWith([c], '\\', "\\\\");
      ReplaceWithAppend(r1, c1, '"', "\\\"");
      ReplaceWithAppend(ReplaceWith(r1, '"', "\\\""), ReplaceWith(c1, '"', "\\\""), '\n', "\\n");
      EscapeOneChar(c);
    }
  }

  lemma EscapeJsonAppend(a: string, b: string)
    ensures EscapeJson(a + b) == EscapeJson(a) + EscapeJson(b)
  {
    EscapeJsonPerChar(a + b);
    EscapeJsonPerChar(a);
    EscapeJsonPerChar(b);
    FlatMapAppend(a, b, EscapeChar);
  }

  /** Text without backslashes, quotes and newlines is left as it is. */
  lemma EscapeJsonPlain(s: string)
    requires '\\' !in s && '"' !in s && '\n' !in s
    ensures EscapeJson(s) == s
  {
    EscapeJsonPerChar(s);
    PlainCharsKept(s);
  }

  lemma {:induction false} PlainCharsKept(s: string)
    requires '\\' !in s && '"' !in s && '\n' !in s
    ensures FlatMap(s, EscapeChar) == s
  {
    if s != [] {
      var init, c := s[..|s| - 1], s[|s| - 1];
      InitIn(s);
      assert c in s;
      PlainCharsKept(init);
      assert EscapeChar(c) == [c];
      assert s == init + [c];
    }
  }

  /** The escaped text never holds a raw newline, so the request body stays on one line. */
  lemma EscapeJsonSingleLine(s: string)
    ensures NoNewline(EscapeJson(s))
  {
    EscapeJsonPerChar(s);
    forall c | c in s
      ensures NoNewline(EscapeChar(c))
    {
      NoNewlineChars(EscapeChar(c));
    }
    FlatMapNoNewline(s, EscapeChar);
  }

  // ---------------------------------------------------------------------------
  // readJsonString

  /** The text an escape sequence stands for: \n, \r, \t, \", \\ and \/ are decoded;
      any other escaped character keeps its backslash. */
  function EscapedChar(c: char): string
  {
    if c == 'n' then "\n"
    else if c == 'r' then "\r"
    else if c == 't' then "\t"
    else if c == '"' || c == '\\' || c == '/' then [c]
    else ['\\', c]
  }

  /** The decoded text of a JSON string body up to its first unescaped quote, or up to
      its end when it has none; `escaped` says whether a backslash was just read. */
  function DecodeUntilQuote(s: string, escaped: bool): string
  {
    if s == [] then ""
    else if escaped then EscapedChar(s[0]) + DecodeUntilQuote(s[1..], false)
    else if s[0] == '\\' then DecodeUntilQuote(s[1..], true)
    else if s[0] == '"' then ""
    else [s[0]] + DecodeUntilQuote(s[1..], false)
  }

  /** The same decoding, read from index i of the body onwards. */
  function DecodeFrom(body: string, i: nat, escaped: bool): string
    decreases |body| - i
  {
    if i >= |body| then ""
    else if escaped then EscapedChar(body[i]) + DecodeFrom(body, i + 1, false)
    else if body[i] == '\\' then DecodeFrom(body, i + 1, true)
    else if body[i] == '"' then ""
    else [body[i]] + DecodeFrom(body, i + 1, false)
  }

  /** readJsonString(body, start): the string value whose text begins at `start`. */
  function JsonStringAt(body: string, start: nat): string
  {
    DecodeFrom(body, start, false)
  }

  /** Reading from an index decodes the rest of the body. */
  lemma {:induction false} DecodeFromSlice(body: string, i: nat, escaped: bool)
    requires i <= |body|
    ensures DecodeFrom(body, i, escaped) == DecodeUntilQuote(body[i..], escaped)
    decreases |body| - i
  {
    if i < |body| {
      DecodeFromSlice(body, i + 1, false);
      DecodeFromSlice(body, i + 1, true);
      assert body[i..][1..] == body[i + 1..];
    }
  }

  /** The switch of readJsonString on the character after a backslash. */
  method DecodeEscape(c: char) returns (text: string)
    ensures text == EscapedChar(c)
  {
    if c == 'n' {
      text := "\n";
    } else if c == 'r' {
      text := "\r";
    } else if c == 't' {
      text := "\t";
    } else if c == '"' || c == '\\' || c == '/' {
      text := [c];
    } else {
      text := ['\\'] + [c];
    }
  }

  /** readJsonString: a character loop with an `escaped` flag, stopping at the first
      unescaped quote. */
  method ReadJsonString(body: string, start: nat) returns (r: string)
    ensures r == JsonStringAt(body, start)
  {
    r := "";
    var escaped := false;
    var i := start;
    while i < |body|
      invariant start <= i
      invariant r + DecodeFrom(body, i, escaped) == JsonStringAt(body, start)
      decreases |body| - i
    {
      var c := body[i];
      if escaped {
        var decoded := DecodeEscape(c);
        AppendAssoc(r, decoded, DecodeFrom(body, i + 1, false));
        r := r + decoded;
        escaped := false;
      } else if c == '\\' {
        escaped := true;
      } else if c == '"' {
        assert r + "" == r;
        return;
      } else {
        AppendAssoc(r, [c], DecodeFrom(body, i + 1, false));
        r := r + [c];
      }
      i := i + 1;
    }
    assert r + "" == r;
  }

  /** Round trip: reading an escaped text back, up to the closing quote, gives the text. */
  lemma {:induction false} DecodeEscaped(s: string, rest: string)
    ensures DecodeUntilQuote(EscapeJson(s) + "\"" + rest, false) == s
  {
    EscapeJsonPerChar(s);
    DecodeEscapedChars(s, rest);
  }

  lemma {:induction false} DecodeEscapedChars(s: string, rest: string)
    ensures DecodeUntilQuote(FlatMap(s, EscapeChar) + "\"" + rest, false) == s
    decreases |s|
  {
    if s == [] {
      assert FlatMap(s, EscapeChar) + "\"" + rest == ['"'] + rest;
    } else {
      var c, tail := s[0], s[1..];
      assert s == [c] + tail;
      FlatMapCons(c, tail, EscapeChar);
      var escapedTail := FlatMap(tail, EscapeChar);
      var after := escapedTail + "\"" + rest;
      DecodeEscapedChars(tail, rest);
      AppendAssoc(EscapeChar(c), escapedTail, "\"");
      AppendAssoc(EscapeChar(c), escapedTail + "\"", rest);
      var text := EscapeChar(c) + after;
      if c == '\\' || c == '"' || c == '\n' {
        assert text[0] == '\\' && text[1..][0] == EscapeChar(c)[1];
        assert text[1..][1..] == after;
      } else {
        assert text[0] == c && text[1..] == after;
      }
    }
  }

  // ---------------------------------------------------------------------------
  // findStringValueStart

  /** The scan after the colon: skip Java whitespace; if the next character is a quote,
      the value starts just after it, otherwise (or at the end of the body) -1. */
  function ValueAfter(body: string, from: nat): (r: int)
    ensures r == -1 || (from < r <= |body| && body[r - 1] == '"')
    ensures r != -1 ==> forall k :: from <= k < r - 1 ==> IsJavaWhitespace(body[k])
    ensures r == -1 ==> forall k :: from <= k < |body| && body[k] == '"' ==>
      exists j :: from <= j < k && !IsJavaWhitespace(body[j])
    decreases |body| - from
  {
    if from >= |body| then -1
    else if IsJavaWhitespace(body[from]) then ValueAfter(body, from + 1)
    else if body[from] == '"' then from + 1
    else -1
  }

  /** findStringValueStart: the first occurrence of the key, the first ':' after it,
      then the opening quote of the value. */
  function StringValueStart(body: string, key: string): (r: int)
    ensures r == -1 || (1 <= r <= |body| && body[r - 1] == '"')
    ensures r != -1 ==> 0 <= IndexOf(body, key) && IndexOf(body, key) + |key| < r
  {
    var keyIndex := IndexOf(body, key);
    if keyIndex < 0 then -1
    else
      var colonIndex := IndexOfChar(body, ':', keyIndex + |key|);
      if colonIndex < 0 then -1 else ValueAfter(body, colonIndex + 1)
  }

  method FindStringValueStart(body: string, key: string) returns (r: int)
    ensures r == StringValueStart(body, key)
  {
    var keyIndex := IndexOf(body, key);
    if keyIndex < 0 {
      return -1;
    }
    var colonIndex := IndexOfChar(body, ':', keyIndex + |key|);
    if colonIndex < 0 {
      return -1;
    }
    for i := colonIndex + 1 to |body|
      invariant ValueAfter(body, i) == ValueAfter(body, colonIndex + 1)
    {
      var c := body[i];
      if !IsJavaWhitespace(c) {
        return if c == '"' then i + 1 else -1;
      }
    }
    return -1;
  }

  // ---------------------------------------------------------------------------
  // extractStringContent, extractArrayContent, extractContentFromResponse

  const CONTENT_KEY := "\"content\""
  const TEXT_KEY := "\"text\""

  /** The string value of the first occurrence of the key, if it is a string. */
  function StringValueOf(body: string, key: string): (r: Option<string>)
    ensures r.Some? <==> StringValueStart(body, key) >= 0
  {
    var start := StringValueStart(body, key);
    if start >= 0 then Some(JsonStringAt(body, start)) else None
  }

  method ExtractStringContent(body: string) returns (r: Option<string>)
    ensures r == StringValueOf(body, CONTENT_KEY)
  {
    var start := FindStringValueStart(body, CONTENT_KEY);
    if start >= 0 {
      var value := ReadJsonString(body, start);
      r := Some(value);
    } else {
      r := None;
    }
  }

  method ExtractArrayContent(body: string) returns (r: Option<string>)
    ensures r == StringValueOf(body, TEXT_KEY)
  {
    var start := FindStringValueStart(body, TEXT_KEY);
    if start >= 0 {
      var value := ReadJsonString(body, start);
      r := Some(value);
    } else {
      r := None;
    }
  }

  /** The advice text: the trimmed "content" string, else the trimmed "text" string,
      else the raw body. */
  function ResponseContent(body: string): string
  {
    match StringValueOf(body, CONTENT_KEY)
    case Some(content) => Trim(content)
    case None =>
      match StringValueOf(body, TEXT_KEY)
      case Some(text) => Trim(text)
      case None => body
  }

  method ExtractContentFromResponse(responseBody: string) returns (r: string)
    ensures r == ResponseContent(responseBody)
  {
    var directContent := ExtractStringContent(responseBody);
    if directContent.Some? {
      return Trim(directContent.value);
    }
    var arrayContent := ExtractArrayContent(responseBody);
    if arrayContent.Some? {
      return Trim(arrayContent.value);
    }
    return responseBody;
  }

  /** A body naming neither key is returned unchanged. */
  lemma ResponseFallback(body: string)
    requires IndexOf(body, CONTENT_KEY) == -1 && IndexOf(body, TEXT_KEY) == -1
    ensures ResponseContent(body) == body
  {
  }

  /** IndexOf finds an occurrence when no earlier one exists. */
  lemma IndexOfAt(body: string, key: string, p: nat)
    requires OccursAt(body, key, p)
    requires forall j :: 0 <= j < p ==> !OccursAt(body, key, j)
    ensures IndexOf(body, key) == p
  {
  }

  /** Where a "content":"..." member begins, the extractor finds its text. */
  lemma ContentValueAt(prefix: string, tail: string)
    requires forall i :: 0 <= i < |prefix| ==> prefix[i] != '"'
    requires |tail| >= 11 && tail[..11] == "\"content\":\""
    ensures StringValueStart(prefix + tail, CONTENT_KEY) == |prefix| + 11
  {
    var body := prefix + tail;
    var p := |prefix|;
    assert body[p..] == tail;
    assert body[p..p + 9] == tail[..9] == CONTENT_KEY;
    forall j | 0 <= j < p
      ensures !OccursAt(body, CONTENT_KEY, j)
    {
      assert body[j] == prefix[j];
    }
    IndexOfAt(body, CONTENT_KEY, p);
    assert body[p + 9] == tail[9] == ':';
    assert IndexOfChar(body, ':', p + 9) == p + 9;
    assert body[p + 10] == tail[10] == '"';
    assert ValueAfter(body, p + 10) == p + 11;
  }

  /** An answer written as "content":"<escaped text>" after a quote-free prefix is read
      back as the trimmed text. */
  lemma ResponseRoundTrip(prefix: string, answer: string, rest: string)
    requires forall i :: 0 <= i < |prefix| ==> prefix[i] != '"'
    ensures ResponseContent(prefix + "\"content\":\"" + EscapeJson(answer) + "\"" + rest) == Trim(answer)
  {
    var escaped := EscapeJson(answer);
    var value := escaped + "\"" + rest;
    var tail := "\"content\":\"" + value;
    var body := prefix + tail;
    var keyed := prefix + "\"content\":\"";
    AppendAssoc(keyed, escaped, "\"");
    AppendAssoc(keyed, escaped + "\"", rest);
    AppendAssoc(prefix, "\"content\":\"", value);
    ContentValueAt(prefix, tail);
    assert body[|prefix|..] == tail;
    assert tail[11..] == value;
    assert body[|prefix| + 11..] == value;
    DecodeFromSlice(body, |prefix| + 11, false);
    DecodeEscaped(answer, rest);
  }

  // ---------------------------------------------------------------------------
  // buildRequestBody

  const MODEL := "gpt-4o-mini"

  /** The instruction put before the summary, in four pieces. */
  const ANALYZE := "Analyze this class design, "
  const SUGGEST := "suggest potential improvements, "
  const FLAG := "and flag obvious issues. "
  const SUMMARY_LABEL := "Design summary:"
  const INSTRUCTION := ANALYZE + SUGGEST + FLAG + SUMMARY_LABEL

  /** Everything before the text of the user message. */
  const USER_CONTENT_START :=
    "{" + "\"model\":\"" + MODEL + "\"," + "\"messages\":["
    + "{\"role\":\"system\",\"content\":\"You are a Java design reviewer.\"},"
    + "{\"role\":\"user\",\"content\":\""

  /** Everything after the closing quote of the user message. */
  const REQUEST_END := "}" + "]," + "\"temperature\":0.2" + "}"

  /** buildRequestBody: one system message and one user message carrying the
      instruction, a newline and the escaped summary. */
  function BuildRequestBody(designSummary: string): (r: string)
    ensures StartsWith(r, USER_CONTENT_START)
  {
    USER_CONTENT_START + (INSTRUCTION + ("\\n" + (EscapeJson(designSummary) + ("\"" + REQUEST_END))))
  }

  /** Text without backslashes and quotes is read back as it is. */
  lemma {:induction false} DecodePlain(s: string, rest: string)
    requires '\\' !in s && '"' !in s
    ensures DecodeUntilQuote(s + rest, false) == s + DecodeUntilQuote(rest, false)
    decreases |s|
  {
    if s == [] {
      assert s + rest == rest;
    } else {
      var c, tail := s[0], s[1..];
      assert c in s;
      assert forall x :: x in tail ==> x in s;
      DecodePlain(tail, rest);
      var text := s + rest;
      assert text[0] == c && text[1..] == tail + rest;
      calc {
        DecodeUntilQuote(text, false);
        [c] + DecodeUntilQuote(tail + rest, false);
        [c] + (tail + DecodeUntilQuote(rest, false));
        { assert s == [c] + tail; }
        s + DecodeUntilQuote(rest, false);
      }
    }
  }

  /** Text that EscapeJson leaves as it is and DecodeUntilQuote reads back unchanged. */
  predicate Unescaped(s: string)
  {
    '\\' !in s && '"' !in s
  }

  // Each piece of the instruction is checked on its own, which keeps every proof small.
  lemma AnalyzeUnescaped() ensures Unescaped(ANALYZE) {}
  lemma SuggestUnescaped() ensures Unescaped(SUGGEST) {}
  lemma FlagUnescaped() ensures Unescaped(FLAG) {}
  lemma SummaryLabelUnescaped() ensures Unescaped(SUMMARY_LABEL) {}

  lemma InstructionPlain()
    ensures Unescaped(INSTRUCTION)
  {
    AnalyzeUnescaped();
    SuggestUnescaped();
    FlagUnescaped();
    SummaryLabelUnescaped();
  }

  /** The text after the opening quote of the user message decodes to the instruction, a
      newline and the summary. */
  lemma RequestTailDecodes(designSummary: string)
    ensures DecodeUntilQuote(INSTRUCTION + ("\\n" + (EscapeJson(designSummary) + ("\"" + REQUEST_END))), false)
      == INSTRUCTION + "\n" + designSummary
  {
    var value := EscapeJson(designSummary) + ("\"" + REQUEST_END);
    var afterInstruction := "\\n" + value;
    InstructionPlain();
    DecodePlain(INSTRUCTION, afterInstruction);
    assert afterInstruction[0] == '\\' && afterInstruction[1..][0] == 'n';
    assert afterInstruction[1..][1..] == value;
    assert value == EscapeJson(designSummary) + "\"" + REQUEST_END;
    DecodeEscaped(designSummary, REQUEST_END);
  }

  /** The user message of the request decodes to the instruction, a newline and the
      summary exactly as given. */
  lemma RequestCarriesSummary(designSummary: string)
    ensures JsonStringAt(BuildRequestBody(designSummary), |USER_CONTENT_START|)
      == INSTRUCTION + "\n" + designSummary
  {
    var tail := INSTRUCTION + ("\\n" + (EscapeJson(designSummary) + ("\"" + REQUEST_END)));
    var body := BuildRequestBody(designSummary);
    assert body == USER_CONTENT_START + tail;
    assert body[|USER_CONTENT_START|..] == tail;
    DecodeFromSlice(body, |USER_CONTENT_START|, false);
    RequestTailDecodes(designSummary);
  }
}
