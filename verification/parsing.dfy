/** The pure text processing the handler applies to model replies
    (services/gemini_handler.py): the `Keyword:` / `Definition:` parser, the
    Markdown code-fence stripper run before every JSON decode, and the
    quote-stripping of generated keywords. */
module ResponseParsing {
  import opened Text

  const KeywordMarker: string := "Keyword:"
  const DefinitionMarker: string := "Definition:"

  // ---------------------------------------------------------------------------
  // The line scan

  /** How the scan reads one line: after stripping, a line starting with
      `Keyword:` carries a keyword, else one starting with `Definition:`
      carries a definition; each is what follows its marker, trimmed. */
  datatype Line = KeywordLine(keyword: string) | DefinitionLine(definition: string) | OtherLine

  function Classify(line: string): (r: Line)
    ensures r.KeywordLine? <==> StartsWith(Strip(line), KeywordMarker)
    ensures r.DefinitionLine? <==> !StartsWith(Strip(line), KeywordMarker) && StartsWith(Strip(line), DefinitionMarker)
  {
    var stripped := Strip(line);
    if StartsWith(stripped, KeywordMarker) then KeywordLine(Strip(stripped[|KeywordMarker|..]))
    else if StartsWith(stripped, DefinitionMarker) then DefinitionLine(Strip(stripped[|DefinitionMarker|..]))
    else OtherLine
  }

  function ClassifyAll(lines: seq<string>): (r: seq<Line>)
    ensures |r| == |lines|
    ensures forall i :: 0 <= i < |lines| ==> r[i] == Classify(lines[i])
  {
    seq(|lines|, i requires 0 <= i < |lines| => Classify(lines[i]))
  }

  /** The loop of `_parse_keyword_definition_response`: every keyword line
      replaces the keyword, and the first definition line sets the definition
      and ends the loop. */
  function ScanLines(lines: seq<Line>, keyword: string, definition: string): (string, string)
    decreases |lines|
  {
    if |lines| == 0 then (keyword, definition)
    else match lines[0]
      case KeywordLine(k) => ScanLines(lines[1..], k, definition)
      case DefinitionLine(d) => (keyword, d)
      case OtherLine => ScanLines(lines[1..], keyword, definition)
  }

  /** The index of the first definition line, or `|lines|` when there is none. */
  function FirstDefinitionLine(lines: seq<Line>): (r: nat)
    ensures r <= |lines|
    ensures forall i :: 0 <= i < r ==> !lines[i].DefinitionLine?
    ensures r < |lines| ==> lines[r].DefinitionLine?
    decreases |lines|
  {
    if |lines| == 0 then 0
    else if lines[0].DefinitionLine? then 0
    else 1 + FirstDefinitionLine(lines[1..])
  }

  /** The keyword of the last keyword line, read from the end, or `keyword`
      when no line is a keyword line. */
  function LastKeyword(lines: seq<Line>, keyword: string): string
    decreases |lines|
  {
    if |lines| == 0 then keyword
    else if lines[|lines| - 1].KeywordLine? then lines[|lines| - 1].keyword
    else LastKeyword(lines[..|lines| - 1], keyword)
  }

  /** Reading one more line at the front of `LastKeyword` is the same as
      starting from that line's keyword, if it has one. */
  lemma {:induction false} LastKeywordCons(line: Line, lines: seq<Line>, keyword: string)
    ensures LastKeyword([line] + lines, keyword)
            == LastKeyword(lines, if line.KeywordLine? then line.keyword else keyword)
    decreases |lines|
  {
    if |lines| > 0 {
      var all := [line] + lines;
      assert all[..|all| - 1] == [line] + lines[..|lines| - 1];
      assert all[|all| - 1] == lines[|lines| - 1];
      LastKeywordCons(line, lines[..|lines| - 1], keyword);
    }
  }

  /** Without keyword lines the initial keyword survives. */
  lemma {:induction false} LastKeywordNone(lines: seq<Line>, keyword: string)
    requires forall i :: 0 <= i < |lines| ==> !lines[i].KeywordLine?
    ensures LastKeyword(lines, keyword) == keyword
    decreases |lines|
  {
    if |lines| > 0 {
      LastKeywordNone(lines[..|lines| - 1], keyword);
    }
  }

  /** The scan returns the last keyword line before the first definition
      line (else the initial keyword) and that definition line's text (else
      the initial definition). */
  lemma {:induction false} ScanLinesSpec(lines: seq<Line>, keyword: string, definition: string)
    ensures ScanLines(lines, keyword, definition).0
            == LastKeyword(lines[..FirstDefinitionLine(lines)], keyword)
    ensures ScanLines(lines, keyword, definition).1
            == if FirstDefinitionLine(lines) < |lines| then lines[FirstDefinitionLine(lines)].definition
               else definition
    decreases |lines|
  {
    if |lines| > 0 {
      var line, rest := lines[0], lines[1..];
      if line.DefinitionLine? {
        assert lines[..0] == [];
      } else {
        var stop := FirstDefinitionLine(rest);
        assert FirstDefinitionLine(lines) == stop + 1;
        assert lines[..stop + 1] == [line] + rest[..stop];
        LastKeywordCons(line, rest[..stop], keyword);
        if line.KeywordLine? {
          ScanLinesSpec(rest, line.keyword, definition);
        } else {
          ScanLinesSpec(rest, keyword, definition);
        }
      }
    }
  }

  // ---------------------------------------------------------------------------
  // Lines and the text they come from

  /** A marker that starts a stripped piece of the text occurs in the text. */
  lemma MarkerOfPieceOccurs(text: string, piece: string, offset: nat, marker: string)
    requires OccursAt(text, piece, offset)
    requires StartsWith(Strip(piece), marker)
    ensures Contains(text, marker)
  {
    var i, j := StripCharsSlice(piece, Whitespace);
    var stripped := Strip(piece);
    assert OccursAt(stripped, marker, 0);
    assert OccursAt(piece, stripped, i);
    OccursAtTrans(piece, stripped, marker, 0, i);
    OccursAtTrans(text, piece, marker, i, offset);
    FindFromFinds(text, marker, 0, i + offset);
  }

  /** The classified lines of a reply. */
  function Lines(text: string): seq<Line> {
    ClassifyAll(Split(text, '\n'))
  }

  /** A keyword line of the text means `Keyword:` occurs in the text, and a
      definition line means `Definition:` does. */
  lemma LineMarkersOccur(text: string, k: nat)
    requires k < |Lines(text)|
    ensures Lines(text)[k].KeywordLine? ==> Contains(text, KeywordMarker)
    ensures Lines(text)[k].DefinitionLine? ==> Contains(text, DefinitionMarker)
  {
    var piece := Split(text, '\n')[k];
    var offset := SplitPieceOccurs(text, '\n', k);
    assert Lines(text)[k] == Classify(piece);
    if Classify(piece).KeywordLine? {
      MarkerOfPieceOccurs(text, piece, offset, KeywordMarker);
    }
    if Classify(piece).DefinitionLine? {
      MarkerOfPieceOccurs(text, piece, offset, DefinitionMarker);
    }
  }

  /** A character absent from a text is absent from its stripped form. */
  lemma StripKeepsAbsent(s: string, c: char)
    requires c !in s
    ensures c !in Strip(s)
  {
    var i, j := StripCharsSlice(s, Whitespace);
    assert forall k :: 0 <= k < j - i ==> Strip(s)[k] == s[i + k];
  }

  /** What follows a marker on a line, trimmed, holds no newline and is
      shorter than the line. */
  lemma AfterMarker(line: string, n: nat)
    requires '\n' !in line && n <= |Strip(line)| && n >= 1
    ensures '\n' !in Strip(Strip(line)[n..])
    ensures |Strip(Strip(line)[n..])| < |line|
  {
    StripKeepsAbsent(line, '\n');
    var stripped := Strip(line);
    assert forall m :: 0 <= m < |stripped| - n ==> stripped[n..][m] == stripped[n + m];
    StripKeepsAbsent(stripped[n..], '\n');
  }

  /** The definition read from a line of the text holds no newline and is
      strictly shorter than the text. */
  lemma DefinitionOfLine(text: string, k: nat)
    requires k < |Lines(text)| && Lines(text)[k].DefinitionLine?
    ensures '\n' !in Lines(text)[k].definition
    ensures |Lines(text)[k].definition| < |text|
  {
    var piece := Split(text, '\n')[k];
    var offset := SplitPieceOccurs(text, '\n', k);
    SplitPiecesFree(text, '\n');
    assert Lines(text)[k] == Classify(piece);
    AfterMarker(piece, |DefinitionMarker|);
  }

  // ---------------------------------------------------------------------------
  // The parser

  /** The two markers of a text never overlap (no letter of one occurs in
      the other): the first `Keyword:` comes before the first `Definition:`
      exactly when the handler's guard `keyword_start < definition_start`
      holds, and then the whole of `Keyword:` ends before `Definition:` begins. */
  lemma MarkersApart(text: string)
    requires Contains(text, KeywordMarker) && Contains(text, DefinitionMarker)
    ensures Find(text, KeywordMarker) + |KeywordMarker| < Find(text, DefinitionMarker) + |DefinitionMarker|
            <==> Find(text, KeywordMarker) < Find(text, DefinitionMarker)
    ensures Find(text, KeywordMarker) < Find(text, DefinitionMarker)
            ==> Find(text, KeywordMarker) + |KeywordMarker| <= Find(text, DefinitionMarker)
  {
    var k, d := Find(text, KeywordMarker), Find(text, DefinitionMarker);
    OccursAtIndex(text, KeywordMarker, k, k);
    OccursAtIndex(text, DefinitionMarker, d, d);
    assert 'K' !in DefinitionMarker && 'D' !in KeywordMarker;
    forall j | k <= j < k + |KeywordMarker|
      ensures text[j] != 'D'
    {
      OccursAtIndex(text, KeywordMarker, k, j);
    }
    forall j | d <= j < d + |DefinitionMarker|
      ensures text[j] != 'K'
    {
      OccursAtIndex(text, DefinitionMarker, d, j);
    }
  }


  /** `_parse_keyword_definition_response`. Python's slice
      `response_text[keyword_start:definition_start - 11]` never needs
      clamping here, because the markers cannot overlap (`MarkersApart`).
      The function is total: the source's `except` branch is unreachable. */
  function ParseKeywordDefinition(text: string, fallback: string): (string, string) {
    var scanned := ScanLines(Lines(text), fallback, text);
    if (scanned.1 == "" || scanned.1 == text)
       && Contains(text, KeywordMarker) && Contains(text, DefinitionMarker)
       && Find(text, KeywordMarker) + |KeywordMarker| < Find(text, DefinitionMarker) + |DefinitionMarker|
    then
      MarkersApart(text);
      var keywordStart := Find(text, KeywordMarker) + |KeywordMarker|;
      var definitionStart := Find(text, DefinitionMarker) + |DefinitionMarker|;
      (Strip(text[keywordStart..definitionStart - |DefinitionMarker|]), Strip(text[definitionStart..]))
    else scanned
  }

  /** Without `Keyword:` anywhere the fallback keyword is returned; without
      `Definition:` anywhere the whole text is the definition. */
  lemma ParseWithoutMarkers(text: string, fallback: string)
    ensures !Contains(text, KeywordMarker) ==> ParseKeywordDefinition(text, fallback).0 == fallback
    ensures !Contains(text, DefinitionMarker) ==> ParseKeywordDefinition(text, fallback).1 == text
  {
    var lines := Lines(text);
    var stop := FirstDefinitionLine(lines);
    ScanLinesSpec(lines, fallback, text);
    forall k | 0 <= k < |lines|
      ensures lines[k].KeywordLine? ==> Contains(text, KeywordMarker)
      ensures lines[k].DefinitionLine? ==> Contains(text, DefinitionMarker)
    {
      LineMarkersOccur(text, k);
    }
    if !Contains(text, KeywordMarker) {
      LastKeywordNone(lines[..stop], fallback);
    }
  }

  /** With neither marker the result is `(fallback, text)`. */
  lemma ParseNoMarkers(text: string, fallback: string)
    requires !Contains(text, KeywordMarker) && !Contains(text, DefinitionMarker)
    ensures ParseKeywordDefinition(text, fallback) == (fallback, text)
  {
    ParseWithoutMarkers(text, fallback);
  }

  /** When the first definition line carries text, the scan's answer stands:
      the keyword of the last keyword line before it (else the fallback) and
      the rest of that line, which holds no newline. */
  lemma ParseScannedLine(text: string, fallback: string)
    requires FirstDefinitionLine(Lines(text)) < |Lines(text)|
    requires Lines(text)[FirstDefinitionLine(Lines(text))].definition != ""
    ensures ParseKeywordDefinition(text, fallback)
            == (LastKeyword(Lines(text)[..FirstDefinitionLine(Lines(text))], fallback),
                Lines(text)[FirstDefinitionLine(Lines(text))].definition)
    ensures '\n' !in ParseKeywordDefinition(text, fallback).1
  {
    ScanLinesSpec(Lines(text), fallback, text);
    DefinitionOfLine(text, FirstDefinitionLine(Lines(text)));
  }

  /** When the scan finds no usable definition line but both markers occur,
      and the first `Keyword:` comes before the first `Definition:`, the
      positional reading decides: the keyword is what lies between the two
      markers, and the definition everything after `Definition:`, both
      trimmed. */
  lemma ParsePositional(text: string, fallback: string)
    requires FirstDefinitionLine(Lines(text)) == |Lines(text)|
             || Lines(text)[FirstDefinitionLine(Lines(text))].definition == ""
    requires Contains(text, KeywordMarker) && Contains(text, DefinitionMarker)
    requires Find(text, KeywordMarker) < Find(text, DefinitionMarker)
    ensures Find(text, KeywordMarker) + |KeywordMarker| <= Find(text, DefinitionMarker)
    ensures ParseKeywordDefinition(text, fallback)
            == (Strip(text[Find(text, KeywordMarker) + |KeywordMarker|..Find(text, DefinitionMarker)]),
                Strip(text[Find(text, DefinitionMarker) + |DefinitionMarker|..]))
  {
    ScanWithoutDefinition(text, fallback);
    MarkersApart(text);
  }

  /** Otherwise, with `Definition:` first, the scan's answer stands. */
  lemma ParseDefinitionFirst(text: string, fallback: string)
    requires Contains(text, KeywordMarker) && Contains(text, DefinitionMarker)
    requires Find(text, DefinitionMarker) < Find(text, KeywordMarker)
    ensures ParseKeywordDefinition(text, fallback) == ScanLines(Lines(text), fallback, text)
  {
    MarkersApart(text);
  }

  /** Without a usable definition line the scan's definition is empty or the
      whole text. */
  lemma ScanWithoutDefinition(text: string, fallback: string)
    requires FirstDefinitionLine(Lines(text)) == |Lines(text)|
             || Lines(text)[FirstDefinitionLine(Lines(text))].definition == ""
    ensures ScanLines(Lines(text), fallback, text).1 == "" || ScanLines(Lines(text), fallback, text).1 == text
  {
    ScanLinesSpec(Lines(text), fallback, text);
  }

  // ---------------------------------------------------------------------------
  // The answer shape the single-item prompts ask for

  /** The reply the single-item prompts ask for. */
  function Answer(keyword: string, definition: string): string {
    KeywordMarker + " " + keyword + "\n" + DefinitionMarker + " " + definition
  }

  /** A non-empty trimmed text after `marker` and one space: the line is
      already trimmed, and the text is what follows the marker, trimmed. */
  lemma MarkedLine(marker: string, item: string)
    requires marker != [] && marker[0] !in Whitespace
    requires item != [] && NoEdge(item, Whitespace)
    ensures Strip(marker + " " + item) == marker + " " + item
    ensures StartsWith(marker + " " + item, marker)
    ensures Strip((marker + " " + item)[|marker|..]) == item
  {
    MarkedLineTrimmed(marker, item);
    assert marker + " " + item == marker + (" " + item);
    StartsWithAppend(marker, " " + item);
    MarkedLineItem(marker, item);
  }

  lemma MarkedLineTrimmed(marker: string, item: string)
    requires marker != [] && marker[0] !in Whitespace
    requires item != [] && NoEdge(item, Whitespace)
    ensures Strip(marker + " " + item) == marker + " " + item
  {
    var line := marker + " " + item;
    assert line[|line| - 1] == item[|item| - 1];
    StripAround([], line, [], Whitespace);
    assert [] + line + [] == line;
  }

  lemma MarkedLineItem(marker: string, item: string)
    requires item != [] && NoEdge(item, Whitespace)
    ensures Strip((marker + " " + item)[|marker|..]) == item
  {
    var line := marker + " " + item;
    assert line[|marker|..] == " " + item;
    StripAround(" ", item, [], Whitespace);
    assert " " + item + [] == " " + item;
  }

  /** `Keyword: k` is a keyword line carrying `k`. */
  lemma ClassifyKeywordLine(keyword: string)
    requires keyword != [] && NoEdge(keyword, Whitespace)
    ensures Classify(KeywordMarker + " " + keyword) == KeywordLine(keyword)
  {
    MarkedLine(KeywordMarker, keyword);
  }

  /** `Definition: d` is a definition line carrying `d`. */
  lemma ClassifyDefinitionLine(definition: string)
    requires definition != [] && NoEdge(definition, Whitespace)
    ensures Classify(DefinitionMarker + " " + definition) == DefinitionLine(definition)
  {
    MarkedLine(DefinitionMarker, definition);
    FirstCharMismatch(DefinitionMarker + " " + definition, KeywordMarker);
  }

  /** Text with no newline has none after a marker and a space either. */
  lemma NoNewlineAfter(marker: string, item: string)
    requires '\n' !in marker && '\n' !in item
    ensures '\n' !in marker + " " + item
  {
  }

  /** A reply in the answer shape is already trimmed. */
  lemma AnswerTrimmed(keyword: string, definition: string)
    requires definition != [] && NoEdge(definition, Whitespace)
    ensures Strip(Answer(keyword, definition)) == Answer(keyword, definition)
  {
    var text := Answer(keyword, definition);
    assert text[|text| - 1] == definition[|definition| - 1];
    StripAround([], text, [], Whitespace);
    assert [] + text + [] == text;
  }

  /** A reply in the answer shape is two lines. */
  lemma AnswerSplit(keyword: string, definition: string)
    requires '\n' !in keyword && '\n' !in definition
    ensures Split(Answer(keyword, definition), '\n') == [KeywordMarker + " " + keyword, DefinitionMarker + " " + definition]
  {
    var first := KeywordMarker + " " + keyword;
    var second := DefinitionMarker + " " + definition;
    NoNewlineAfter(KeywordMarker, keyword);
    NoNewlineAfter(DefinitionMarker, definition);
    assert Answer(keyword, definition) == first + ['\n'] + second;
    FirstSeparator(first, '\n', second);
    NoSeparator(second, '\n');
    assert (first + ['\n'] + second)[..|first|] == first;
    assert (first + ['\n'] + second)[|first| + 1..] == second;
  }

  /** A reply in the answer shape reads as a keyword line and a definition line. */
  lemma AnswerLines(keyword: string, definition: string)
    requires keyword != [] && NoEdge(keyword, Whitespace) && '\n' !in keyword
    requires definition != [] && NoEdge(definition, Whitespace) && '\n' !in definition
    ensures Lines(Answer(keyword, definition)) == [KeywordLine(keyword), DefinitionLine(definition)]
  {
    var first := KeywordMarker + " " + keyword;
    var second := DefinitionMarker + " " + definition;
    AnswerSplit(keyword, definition);
    ClassifyKeywordLine(keyword);
    ClassifyDefinitionLine(definition);
  }

  /** Parsing the trimmed reply in the requested shape gives back its keyword
      and definition, whatever the fallback: the parser inverts the answer
      shape for single-line, trimmed, non-empty fields. */
  lemma AnswerRoundTrip(keyword: string, definition: string, fallback: string)
    requires keyword != [] && NoEdge(keyword, Whitespace) && '\n' !in keyword
    requires definition != [] && NoEdge(definition, Whitespace) && '\n' !in definition
    ensures ParseKeywordDefinition(Strip(Answer(keyword, definition)), fallback) == (keyword, definition)
  {
    var text := Answer(keyword, definition);
    AnswerTrimmed(keyword, definition);
    AnswerLines(keyword, definition);
    var lines := Lines(text);
    assert lines[1..] == [DefinitionLine(definition)];
    assert ScanLines(lines, fallback, text) == (keyword, definition);
    assert |definition| < |text|;
  }

  // ---------------------------------------------------------------------------
  // Code fences around JSON replies

  /** Python `s[len(p):] if s.startswith(p) else s`. */
  function DropPrefix(s: string, p: string): string {
    if StartsWith(s, p) then s[|p|..] else s
  }

  /** Python `s[:-len(p)] if s.endswith(p) else s`, for a non-empty `p`. */
  function DropSuffix(s: string, p: string): string {
    if EndsWith(s, p) then s[..|s| - |p|] else s
  }

  lemma DropPrefixAppend(p: string, s: string)
    ensures DropPrefix(p + s, p) == s
  {
    StartsWithAppend(p, s);
    assert (p + s)[|p|..] == s;
  }

  lemma DropPrefixMismatch(s: string, p: string)
    requires p != [] && (s == [] || s[0] != p[0])
    ensures DropPrefix(s, p) == s
  {
    if |p| <= |s| {
      assert s[..|p|][0] == s[0];
    }
  }

  lemma DropSuffixAppend(s: string, p: string)
    ensures DropSuffix(s + p, p) == s
  {
    EndsWithAppend(s, p);
    assert (s + p)[..|s|] == s;
  }

  const Fence: string := "```"
  const JsonFence: string := "```json"

  /** The fence stripping applied (in three identical copies) to a reply
      before `json.loads`: drop a leading "```json", then a leading "```",
      then a trailing "```", then trim. */
  function StripFences(text: string): string {
    Strip(DropSuffix(DropPrefix(DropPrefix(text, JsonFence), Fence), Fence))
  }

  /** `response.text.strip()` followed by the fence stripping. */
  function CleanJsonReply(reply: string): string {
    StripFences(Strip(reply))
  }

  /** Text that neither starts nor ends with a fence is only trimmed. */
  lemma UnfencedOnlyTrimmed(text: string)
    requires !StartsWith(text, Fence) && !EndsWith(text, Fence)
    ensures StripFences(text) == Strip(text)
  {
    assert !StartsWith(text, JsonFence) by {
      if |text| >= 7 {
        assert text[..3] == text[..7][..3];
        assert JsonFence[..3] == Fence;
      }
    }
  }

  /** What is left after the opening fence: a payload that does not start
      with a backtick, followed by the closing fence, loses only the closing
      fence. */
  lemma AfterOpeningFence(payload: string)
    requires payload == [] || payload[0] != '`'
    ensures Strip(DropSuffix(DropPrefix(payload + Fence, Fence), Fence)) == Strip(payload)
  {
    if payload == [] {
      assert payload + Fence == Fence + [];
      DropPrefixAppend(Fence, []);
    } else {
      assert (payload + Fence)[0] == payload[0];
      DropPrefixMismatch(payload + Fence, Fence);
      DropSuffixAppend(payload, Fence);
    }
  }

  /** A payload wrapped in a "```json" fence comes back trimmed. */
  lemma JsonFenceRoundTrip(payload: string)
    requires payload == [] || payload[0] != '`'
    ensures StripFences(JsonFence + payload + Fence) == Strip(payload)
  {
    assert JsonFence + payload + Fence == JsonFence + (payload + Fence);
    DropPrefixAppend(JsonFence, payload + Fence);
    AfterOpeningFence(payload);
  }

  /** A payload wrapped in a bare "```" fence comes back trimmed. */
  lemma PlainFenceRoundTrip(payload: string)
    requires payload == [] || (payload[0] != '`' && payload[0] != 'j')
    ensures StripFences(Fence + payload + Fence) == Strip(payload)
  {
    var text := Fence + (payload + Fence);
    assert Fence + payload + Fence == text;
    assert text[3] == (payload + Fence)[0];
    assert !StartsWith(text, JsonFence) by {
      if |text| >= 7 {
        assert text[..7][3] == text[3];
        assert JsonFence[3] == 'j';
      }
    }
    DropPrefixAppend(Fence, payload + Fence);
    AfterOpeningFence(payload);
  }

  // ---------------------------------------------------------------------------
  // Generated keywords

  const Quotes: set<char> := {'"', '\''}

  /** `_generate_algorithm_keyword`'s post-processing: trim, then strip any
      surrounding double or single quotes. */
  function KeywordFromReply(reply: string): (r: string)
    ensures NoEdge(r, Quotes)
    ensures |r| <= |reply|
  {
    StripChars(Strip(reply), Quotes)
  }

  /** A keyword quoted and padded with whitespace in the reply comes back
      bare. */
  lemma QuotedKeywordRoundTrip(pad: string, keyword: string, quote: char)
    requires forall i :: 0 <= i < |pad| ==> pad[i] in Whitespace
    requires quote in Quotes
    requires keyword != [] && NoEdge(keyword, Quotes)
    ensures KeywordFromReply(pad + [quote] + keyword + [quote] + pad) == keyword
  {
    var quoted := [quote] + keyword + [quote];
    assert pad + [quote] + keyword + [quote] + pad == pad + quoted + pad;
    StripAround(pad, quoted, pad, Whitespace);
    StripAround([quote], keyword, [quote], Quotes);
  }
}
