/**
 * `test2.py`: the `SmartContextFileAnalyzer`. Like `FileAnalyzer` it answers
 * questions about an uploaded text file through tools a language model
 * calls, with more tools (document sections, line windows, line positions)
 * and a conversation that is trimmed, with a summary of its middle part,
 * once it grows too long. The model, the token counting and the
 * tool-calling loop are not modelled; a tool call arrives as a tool name and
 * the JSON object of its arguments.
 */
module SmartContextCli {
  import opened Wrappers
  import opened Text
  import opened Json
  import Regex
  import FileAnalyzerCli

  type UploadedFile = FileAnalyzerCli.UploadedFile

  /** A chat message: its role and its `content` (`None` when absent or null). */
  datatype Message = Message(role: string, content: Option<string>)

  /** `analysis_state`: four lists, of which the summary extends `findings` and `tool_results`. */
  datatype AnalysisState = AnalysisState(
    discoveries: seq<string>, findings: seq<string>, toolResults: seq<string>, keyInsights: seq<string>)

  /** The empty lists the analyzer starts with. */
  const InitialState := AnalysisState([], [], [], [])

  predicate IsSystem(m: Message) {
    m.role == "system"
  }

  /** The value of an optional item as a list of zero or one elements. */
  function Listed(o: Option<string>): (r: seq<string>)
    ensures |r| <= 1
  {
    if o.Some? then [o.value] else []
  }

  /** The items a per-message classifier yields, in message order. */
  function Collect(f: Message -> Option<string>, ms: seq<Message>): seq<string>
    decreases |ms|
  {
    if ms == [] then [] else Collect(f, ms[..|ms| - 1]) + Listed(f(ms[|ms| - 1]))
  }

  lemma CollectSnoc(f: Message -> Option<string>, ms: seq<Message>, i: int)
    requires 0 <= i < |ms|
    ensures Collect(f, ms[..i + 1]) == Collect(f, ms[..i]) + Listed(f(ms[i]))
  {
    assert ms[..i + 1][..i] == ms[..i];
  }

  /**
   * An item is collected exactly when some message yields it, and every
   * message that yields one has it collected: nothing is invented, nothing
   * is dropped.
   */
  lemma {:induction false} CollectIff(f: Message -> Option<string>, ms: seq<Message>)
    ensures |Collect(f, ms)| <= |ms|
    ensures forall x :: x in Collect(f, ms) <==> exists k :: 0 <= k < |ms| && f(ms[k]) == Some(x)
    decreases |ms|
  {
    if ms != [] {
      var front := ms[..|ms| - 1];
      CollectIff(f, front);
      assert forall k :: 0 <= k < |front| ==> front[k] == ms[k];
      forall x | exists k :: 0 <= k < |ms| && f(ms[k]) == Some(x)
        ensures x in Collect(f, ms)
      {
        var k :| 0 <= k < |ms| && f(ms[k]) == Some(x);
        if k < |front| {
          assert f(front[k]) == Some(x);
        }
      }
    }
  }

  // ---------------------------------------------------------------- create_conversation_summary

  const Completed := "Tool execution completed"

  /** `'found' in content.lower() or 'discovered' in content.lower()`. */
  predicate Mentions(content: string) {
    IsSubstring("found", Lower(content)) || IsSubstring("discovered", Lower(content))
  }

  /** What an assistant message adds to the findings: the first 200 characters of a content that mentions a discovery. */
  function FindingOf(m: Message): Option<string> {
    if m.role == "assistant" && m.content.Some? && m.content.value != "" && Mentions(m.content.value)
    then Some(Take(m.content.value, 200))
    else None
  }

  /**
   * What a tool message adds to the tool results: its `count`, else the
   * number of its `matches`, else nothing; anything that raises on the way
   * (no content, content that is not JSON, matches without a length) adds
   * the fixed completion note.
   */
  function ToolNoteOf(parse: Parser, floatRepr: FloatRepr, m: Message): Option<string> {
    if m.role != "tool" then None
    else if m.content.None? then Some(Completed)
    else
      match parse(m.content.value)
      case Failure(_) => Some(Completed)
      case Success(j) =>
        if HasKey(j, "count") then Some("Count: " + Str(Lookup(j.fields, "count").value, floatRepr))
        else if HasKey(j, "matches") then
          (match Len(Lookup(j.fields, "matches").value)
           case Some(n) => Some("Matches: " + IntToString(n))
           case None => Some(Completed))
        else None
  }

  function Findings(ms: seq<Message>): seq<string> {
    Collect(FindingOf, ms)
  }

  /** `ToolNoteOf` for one parser and one float formatting, as a per-message classifier. */
  function NoteOf(parse: Parser, floatRepr: FloatRepr): Message -> Option<string> {
    m => ToolNoteOf(parse, floatRepr, m)
  }

  function ToolNotes(parse: Parser, floatRepr: FloatRepr, ms: seq<Message>): seq<string> {
    Collect(NoteOf(parse, floatRepr), ms)
  }

  /** The summary line of the collected findings and tool results: the first 3 and the first 5 of them. */
  function SummaryText(findings: seq<string>, notes: seq<string>): string {
    var parts := (if findings != [] then ["Key discoveries: " + Join(Take(findings, 3), "; ")] else [])
                 + (if notes != [] then ["Tool results: " + Join(Take(notes, 5), "; ")] else []);
    if parts == [] then "Analysis in progress" else Join(parts, "; ")
  }

  /** What `create_conversation_summary` returns for a list of messages. */
  function Summary(parse: Parser, floatRepr: FloatRepr, ms: seq<Message>): string {
    SummaryText(Findings(ms), ToolNotes(parse, floatRepr, ms))
  }

  /**
   * An assistant message yields a finding exactly when its content is
   * non-empty and mentions "found" or "discovered" in any case; the finding
   * is the content cut to at most 200 characters.
   */
  lemma AssistantFinding(m: Message)
    ensures FindingOf(m).Some? <==> m.role == "assistant" && m.content.Some? && m.content.value != "" && Mentions(m.content.value)
    ensures FindingOf(m).Some? ==> var f := FindingOf(m).value;
              |f| <= 200 && StartsWith(m.content.value, f) && (|m.content.value| <= 200 ==> f == m.content.value)
  {
  }

  /**
   * How a tool message is read: a dict with a `count` gives "Count: ...",
   * one with a list of `matches` and no `count` gives their number, a
   * content that does not parse gives the completion note, and no message of
   * another role gives anything.
   */
  lemma ToolMessageNotes(parse: Parser, floatRepr: FloatRepr, m: Message)
    ensures m.role != "tool" ==> ToolNoteOf(parse, floatRepr, m).None?
    ensures m.role == "tool" && (m.content.None? || parse(m.content.value).Failure?)
            ==> ToolNoteOf(parse, floatRepr, m) == Some(Completed)
    ensures m.role == "tool" && m.content.Some? && parse(m.content.value).Success?
            ==> var j := parse(m.content.value).value;
                && (HasKey(j, "count") && Lookup(j.fields, "count").value.JInt?
                    ==> ToolNoteOf(parse, floatRepr, m) == Some("Count: " + IntToString(Lookup(j.fields, "count").value.i)))
                && (!HasKey(j, "count") && HasKey(j, "matches") && Lookup(j.fields, "matches").value.JArray?
                    ==> ToolNoteOf(parse, floatRepr, m) == Some("Matches: " + IntToString(|Lookup(j.fields, "matches").value.items|)))
                && (!j.JObject? ==> ToolNoteOf(parse, floatRepr, m).None?)
  {
  }

  /**
   * The summary says "Analysis in progress" exactly when nothing was
   * collected; otherwise it opens with the discoveries when there are any,
   * else with the tool results, and it quotes each of the first 3 findings
   * and each of the first 5 tool results.
   */
  lemma SummaryTextFacts(findings: seq<string>, notes: seq<string>)
    ensures SummaryText(findings, notes) == "Analysis in progress" <==> findings == [] && notes == []
    ensures findings != [] ==> StartsWith(SummaryText(findings, notes), "Key discoveries: ")
    ensures findings == [] && notes != [] ==> StartsWith(SummaryText(findings, notes), "Tool results: ")
    ensures forall k :: 0 <= k < |findings| && k < 3 ==> IsSubstring(findings[k], SummaryText(findings, notes))
    ensures forall k :: 0 <= k < |notes| && k < 5 ==> IsSubstring(notes[k], SummaryText(findings, notes))
  {
    var fs := if findings != [] then ["Key discoveries: " + Join(Take(findings, 3), "; ")] else [];
    var ns := if notes != [] then ["Tool results: " + Join(Take(notes, 5), "; ")] else [];
    var parts := fs + ns;
    var r := SummaryText(findings, notes);
    if parts != [] {
      assert r == Join(parts, "; ");
      assert parts[0] == "Key discoveries: " + Join(Take(findings, 3), "; ") || parts[0] == "Tool results: " + Join(Take(notes, 5), "; ");
      assert r[..|parts[0]|] == parts[0] by {
        if |parts| == 2 {
          assert r == parts[0] + "; " + Join(parts[1..], "; ");
        }
      }
      assert r[0] == parts[0][0];
      assert r[0] != "Analysis in progress"[0];
    }
    forall k | 0 <= k < |findings| && k < 3 ensures IsSubstring(findings[k], r) {
      var line := fs[0];
      JoinContains(Take(findings, 3), "; ", k);
      SubstringOfSuffix(findings[k], "Key discoveries: ", Join(Take(findings, 3), "; "));
      assert parts[0] == line;
      JoinContains(parts, "; ", 0);
      SubstringTrans(findings[k], line, r);
    }
    forall k | 0 <= k < |notes| && k < 5 ensures IsSubstring(notes[k], r) {
      var line := ns[0];
      JoinContains(Take(notes, 5), "; ", k);
      SubstringOfSuffix(notes[k], "Tool results: ", Join(Take(notes, 5), "; "));
      assert parts[|fs|] == line;
      JoinContains(parts, "; ", |fs|);
      SubstringTrans(notes[k], line, r);
    }
  }

  // ---------------------------------------------------------------- trim_conversation_with_summary

  /** The last system message, if any. */
  function LastSystem(ms: seq<Message>): Option<Message>
    decreases |ms|
  {
    if ms == [] then None
    else if IsSystem(ms[|ms| - 1]) then Some(ms[|ms| - 1])
    else LastSystem(ms[..|ms| - 1])
  }

  /** The other messages, in order. */
  function Others(ms: seq<Message>): seq<Message>
    decreases |ms|
  {
    if ms == [] then []
    else Others(ms[..|ms| - 1]) + (if IsSystem(ms[|ms| - 1]) then [] else [ms[|ms| - 1]])
  }

  const SummaryPrefix := "[CONTEXT SUMMARY] Previous analysis revealed: "

  /** The assistant message that stands for the summarised middle of a long conversation. */
  function SummaryMessage(text: string): Message {
    Message("assistant", Some(SummaryPrefix + text))
  }

  /** The part of a long conversation that is summarised: all but the first 3 and the last 5. */
  function Middle(conv: seq<Message>): seq<Message>
    requires |conv| > 10
  {
    conv[3..|conv| - 5]
  }

  /** The messages kept of the non-system conversation. */
  function Kept(parse: Parser, floatRepr: FloatRepr, conv: seq<Message>): seq<Message> {
    if |conv| > 10 then conv[..3] + [SummaryMessage(Summary(parse, floatRepr, Middle(conv)))] + conv[|conv| - 5..]
    else Slice(conv, -8, |conv|)
  }

  /** What `trim_conversation_with_summary` returns: the last system message, then the kept messages. */
  function Trim(parse: Parser, floatRepr: FloatRepr, ms: seq<Message>): seq<Message> {
    (if LastSystem(ms).Some? then [LastSystem(ms).value] else []) + Kept(parse, floatRepr, Others(ms))
  }

  /**
   * `LastSystem` finds a system message exactly when there is one, and the
   * one it finds comes after every other.
   */
  lemma {:induction false} LastSystemFacts(ms: seq<Message>)
    ensures LastSystem(ms).Some? <==> exists k :: 0 <= k < |ms| && IsSystem(ms[k])
    ensures LastSystem(ms).Some? ==>
              exists k :: 0 <= k < |ms| && ms[k] == LastSystem(ms).value && IsSystem(ms[k])
                          && forall j :: k < j < |ms| ==> !IsSystem(ms[j])
    decreases |ms|
  {
    if ms != [] {
      var front := ms[..|ms| - 1];
      LastSystemFacts(front);
      assert forall k :: 0 <= k < |front| ==> front[k] == ms[k];
      if !IsSystem(ms[|ms| - 1]) && LastSystem(front).Some? {
        var k :| 0 <= k < |front| && front[k] == LastSystem(front).value && IsSystem(front[k])
                 && forall j :: k < j < |front| ==> !IsSystem(front[j]);
        assert forall j :: k < j < |ms| ==> !IsSystem(ms[j]) by {
          forall j | k < j < |ms| ensures !IsSystem(ms[j]) {
            if j < |front| {
              assert !IsSystem(front[j]);
            }
          }
        }
      }
    }
  }

  /** `Others` is a filter: it distributes over concatenation and keeps exactly the non-system messages. */
  lemma {:induction false} OthersConcat(a: seq<Message>, b: seq<Message>)
    ensures Others(a + b) == Others(a) + Others(b)
    decreases |b|
  {
    if b == [] {
      assert a + b == a;
    } else {
      var front := b[..|b| - 1];
      assert (a + b)[..|a + b| - 1] == a + front;
      OthersConcat(a, front);
    }
  }

  /** The others hold no system message, and are fewer than the messages when a system message is left out. */
  lemma {:induction false} OthersCount(ms: seq<Message>)
    ensures forall k :: 0 <= k < |Others(ms)| ==> !IsSystem(Others(ms)[k])
    ensures |Others(ms)| <= |ms|
    ensures LastSystem(ms).Some? ==> |Others(ms)| < |ms|
    decreases |ms|
  {
    if ms != [] {
      OthersCount(ms[..|ms| - 1]);
    }
  }

  /** The others are exactly the non-system messages, and a conversation without a system message is its own others. */
  lemma OthersMembers(ms: seq<Message>)
    ensures forall x :: x in Others(ms) <==> x in ms && !IsSystem(x)
    ensures LastSystem(ms).None? ==> Others(ms) == ms
  {
    forall x ensures x in Others(ms) <==> x in ms && !IsSystem(x) {
      OthersMember(ms, x);
    }
    if LastSystem(ms).None? {
      OthersWithoutSystem(ms);
    }
  }

  /** One message is among the others exactly when it is a non-system message of the conversation. */
  lemma {:induction false} OthersMember(ms: seq<Message>, x: Message)
    ensures x in Others(ms) <==> x in ms && !IsSystem(x)
    decreases |ms|
  {
    if ms != [] {
      var front, last := ms[..|ms| - 1], ms[|ms| - 1];
      assert ms == front + [last];
      assert Others(ms) == Others(front) + (if IsSystem(last) then [] else [last]);
      OthersMember(front, x);
    }
  }

  /** A conversation without a system message is its own others. */
  lemma {:induction false} OthersWithoutSystem(ms: seq<Message>)
    requires LastSystem(ms).None?
    ensures Others(ms) == ms
    decreases |ms|
  {
    if ms != [] {
      var front := ms[..|ms| - 1];
      OthersWithoutSystem(front);
      assert ms == front + [ms[|ms| - 1]];
    }
  }

  /**
   * The trimmed conversation puts the last system message first (when there
   * is one) and holds no other system message; it has at most 10 messages,
   * and never more than the conversation had.
   */
  lemma TrimKeepsSystemFirst(parse: Parser, floatRepr: FloatRepr, ms: seq<Message>)
    ensures var r := Trim(parse, floatRepr, ms);
            var s := if LastSystem(ms).Some? then 1 else 0;
            && |r| <= 10 && |r| <= |ms|
            && (LastSystem(ms).Some? ==> r[0] == LastSystem(ms).value)
            && (forall k :: s <= k < |r| ==> !IsSystem(r[k]))
  {
    var conv := Others(ms);
    var sys := if LastSystem(ms).Some? then [LastSystem(ms).value] else [];
    var kept := Kept(parse, floatRepr, conv);
    OthersCount(ms);
    KeptFacts(parse, floatRepr, conv);
    assert Trim(parse, floatRepr, ms) == sys + kept;
    ConcatAt(sys, kept);
  }

  /** The kept messages: at most 9 and no more than the conversation, and no system message among them. */
  lemma KeptFacts(parse: Parser, floatRepr: FloatRepr, conv: seq<Message>)
    requires forall k :: 0 <= k < |conv| ==> !IsSystem(conv[k])
    ensures |Kept(parse, floatRepr, conv)| <= 9
    ensures |Kept(parse, floatRepr, conv)| <= |conv|
    ensures forall k :: 0 <= k < |Kept(parse, floatRepr, conv)| ==> !IsSystem(Kept(parse, floatRepr, conv)[k])
  {
    if |conv| > 10 {
      var summary := SummaryMessage(Summary(parse, floatRepr, Middle(conv)));
      var kept := conv[..3] + [summary] + conv[|conv| - 5..];
      assert Kept(parse, floatRepr, conv) == kept;
      forall k | 0 <= k < |kept| ensures !IsSystem(kept[k]) {
        if k < 3 {
          assert kept[k] == conv[k];
        } else if k > 3 {
          assert kept[k] == conv[|conv| - 5 + k - 4];
        }
      }
    } else {
      var kept := Slice(conv, -8, |conv|);
      forall k | 0 <= k < |kept| ensures !IsSystem(kept[k]) {
        assert kept[k] == conv[|conv| - |kept| + k];
      }
    }
  }

  /**
   * Of the other messages, a conversation with more than 10 keeps the first
   * 3, one summary message of the middle and the last 5; one with at most 10
   * keeps the last 8, or all of them.
   */
  lemma TrimKeepsEnds(parse: Parser, floatRepr: FloatRepr, ms: seq<Message>)
    ensures var r := Trim(parse, floatRepr, ms);
            var conv := Others(ms);
            var s := if LastSystem(ms).Some? then 1 else 0;
            && (|conv| > 10 ==>
                  && r[s..s + 3] == conv[..3]
                  && r[s + 3] == SummaryMessage(Summary(parse, floatRepr, Middle(conv)))
                  && r[s + 4..] == conv[|conv| - 5..])
            && (|conv| <= 10 ==> r[s..] == conv[|conv| - (if |conv| < 8 then |conv| else 8)..])
  {
    var conv := Others(ms);
    var sys := if LastSystem(ms).Some? then [LastSystem(ms).value] else [];
    var r := Trim(parse, floatRepr, ms);
    var kept := Kept(parse, floatRepr, conv);
    assert r == sys + kept;
    AfterPrefix(sys, kept);
    if |conv| > 10 {
      KeptLong(parse, floatRepr, conv);
    } else {
      KeptShort(parse, floatRepr, conv);
    }
  }

  /** Reading a list past a prefix. */
  lemma AfterPrefix<T>(p: seq<T>, q: seq<T>)
    ensures (p + q)[|p|..] == q
    ensures |q| >= 4 ==> (p + q)[|p|..|p| + 3] == q[..3] && (p + q)[|p| + 3] == q[3] && (p + q)[|p| + 4..] == q[4..]
  {
    assert (p + q)[|p|..] == q;
  }

  /** The three parts kept of a long conversation. */
  lemma KeptLong(parse: Parser, floatRepr: FloatRepr, conv: seq<Message>)
    requires |conv| > 10
    ensures var kept := Kept(parse, floatRepr, conv);
            && |kept| == 9
            && kept[..3] == conv[..3]
            && kept[3] == SummaryMessage(Summary(parse, floatRepr, Middle(conv)))
            && kept[4..] == conv[|conv| - 5..]
  {
    var summary := SummaryMessage(Summary(parse, floatRepr, Middle(conv)));
    var kept := conv[..3] + [summary] + conv[|conv| - 5..];
    assert Kept(parse, floatRepr, conv) == kept;
    assert kept[..3] == conv[..3];
    assert kept[4..] == conv[|conv| - 5..];
  }

  /** A short conversation keeps its last 8 messages, or all of them. */
  lemma KeptShort(parse: Parser, floatRepr: FloatRepr, conv: seq<Message>)
    requires |conv| <= 10
    ensures Kept(parse, floatRepr, conv) == conv[|conv| - (if |conv| < 8 then |conv| else 8)..]
  {
  }

  // ---------------------------------------------------------------- tool results

  /** One entry of `matches` in `search_text`. */
  datatype SearchHit = SearchHit(text: string, lineNumber: int, lineContent: string, startPosition: int, endPosition: int)

  /** One entry of `locations` in `find_document_sections`. */
  datatype Location = Location(lineNumber: int, lineContent: string, context: string)

  /** One entry of `sections_found`: a marker and where it occurs. */
  datatype Section = Section(marker: string, count: nat, locations: seq<Location>)

  /** One entry of `lines` in an extracted window. */
  datatype ContextLine = ContextLine(lineNumber: int, content: string, isTarget: bool)

  /** The value stored under a line number in `extracted_ranges`. */
  datatype RangeEntry = Window(contextStart: int, contextEnd: int, lines: seq<ContextLine>) | OutOfRange(error: string)

  /** One key of `extracted_ranges` with its value. */
  datatype Extracted = Extracted(lineNumber: Json, entry: RangeEntry)

  /** One entry of `positions` in `analyze_line_positions`. */
  datatype Position = Position(lineNumber: int, lineContent: string, determinedSection: string, positionInFile: int)

  /** One key of `position_analysis` with its positions. */
  datatype ItemPositions = ItemPositions(item: Json, positions: seq<Position>, count: nat)

  /** The dict a tool returns. */
  datatype ToolResult =
    | ErrorResult(error: string)
    | Viewed(content: string, totalLines: nat, fileSize: nat, structureInfo: string)
    | MatchCount(count: nat, pattern: string)
    | Searched(matches: seq<SearchHit>, count: nat, pattern: string, suggestion: string)
    | SectionsFound(sections: seq<Section>, totalLines: nat)
    | RangesExtracted(ranges: seq<Extracted>, totalRanges: nat)
    | PositionsAnalyzed(items: seq<ItemPositions>, summary: string)
    | CommandRan(stdout: string, stderr: string, returnCode: int, command: string)
    | GrepSimulated(stdout: string, command: string)
    | Truncated(count: nat, pattern: string, matches: seq<SearchHit>, originalCount: nat)

  /** What the tools use of the world outside the script: `re`, the shell, `repr` of floats and `sys.platform`. */
  datatype Runtime = Runtime(regex: Regex.Engine, shell: FileAnalyzerCli.Shell, floatRepr: FloatRepr, platform: string)

  /** `{"error": f"File not found: {filename}"}`. */
  function NotFound(rt: Runtime, filename: Json): ToolResult {
    ErrorResult("File not found: " + Str(filename, rt.floatRepr))
  }

  /** `content[:start].count('\n') + 1`: the number of the line a match starting at `start` is on. */
  function LineNumberAt(content: string, start: int): (ln: int)
    ensures ln >= 1
  {
    CountChar(Slice(content, 0, start), '\n') + 1
  }

  /** `lines[line_num - 1] if line_num <= len(lines) else ""`. */
  function LineAt(lines: seq<string>, ln: int): string
    requires ln >= 1
  {
    if ln <= |lines| then lines[ln - 1] else ""
  }

  /**
   * A match is on a line of the file: its line number lies between 1 and
   * the number of lines, so the empty fallback line is never taken.
   */
  lemma LineNumberInRange(content: string, start: int)
    ensures 1 <= LineNumberAt(content, start) <= |Split(content, '\n')|
    ensures LineAt(Split(content, '\n'), LineNumberAt(content, start))
            == Split(content, '\n')[LineNumberAt(content, start) - 1]
  {
    var c := Clamp(start, |content|);
    if 0 < c {
      assert Slice(content, 0, start) == content[..c];
      CountCharPrefix(content, c, '\n');
    }
    SplitCount(content, '\n');
  }

  /** A match at or before the end of the text is on the line after the line breaks in front of it. */
  lemma LineNumberCountsBreaks(content: string, start: int)
    requires 0 <= start <= |content|
    ensures LineNumberAt(content, start) == |Split(content[..start], '\n')|
  {
    assert Slice(content, 0, start) == content[..start];
    SplitCount(content[..start], '\n');
  }

  // ---------------------------------------------------------------- view_file

  /** The line that stands for the lines after the first 100. */
  function MoreLines(hidden: int): string {
    "... (" + IntToString(hidden) + " more lines)"
  }

  /** The view without a range: the first 100 lines numbered from 1, and a line saying how many more there are. */
  function HeadView(lines: seq<string>): string {
    Join(FileAnalyzerCli.Numbered(Take(lines, 100), 1), "\n") + (if |lines| > 100 then "\n" + MoreLines(|lines| - 100) else "")
  }

  function StructureInfo(n: int): string {
    "Document has " + IntToString(n) + " lines total"
  }

  /** What `_view_file` returns or raises. */
  function ViewOutcome(rt: Runtime, files: map<string, UploadedFile>, input: seq<Field>): Result<ToolResult, string> {
    var filename := GetOr(input, "filename", JNull);
    var lineRange := GetOr(input, "line_range", JNull);
    var entry :- FileAnalyzerCli.FileLookup(files, filename);
    if entry.None? then Success(NotFound(rt, filename))
    else
      var file := entry.value;
      var lines := Split(file.content, '\n');
      var n := |lines|;
      if Truthy(lineRange) && Len(lineRange).None? then
        Failure("object of type '" + TypeName(lineRange) + "' has no len()")
      else if Truthy(lineRange) && Len(lineRange).value == 2 then
        var bounds :- FileAnalyzerCli.ParseRange(lineRange, n);
        Success(Viewed(FileAnalyzerCli.RangeView(lines, bounds.0, bounds.1), n, |file.content|, StructureInfo(n)))
      else Success(Viewed(HeadView(lines), n, |file.content|, StructureInfo(n)))
  }

  /** A file of at most 100 lines is shown whole, each line under its number. */
  lemma HeadViewShort(lines: seq<string>)
    requires 1 <= |lines| <= 100
    requires forall k :: 0 <= k < |lines| ==> '\n' !in lines[k]
    ensures Split(HeadView(lines), '\n') == FileAnalyzerCli.Numbered(lines, 1)
  {
    assert HeadView(lines) == Join(FileAnalyzerCli.Numbered(lines, 1), "\n") + "";
    assert Join(FileAnalyzerCli.Numbered(lines, 1), "\n") + "" == Join(FileAnalyzerCli.Numbered(lines, 1), "\n");
    FileAnalyzerCli.NumberedOneLine(lines, 1);
    SplitJoin(FileAnalyzerCli.Numbered(lines, 1), '\n');
  }

  /**
   * A file of more than 100 lines shows only its first 100 lines, then one
   * line counting the rest: 101 view lines in all, and nothing of its end
   * (unlike the view of `FileAnalyzer`, which shows both ends).
   */
  /** The head view of a long file is the join of its first 100 numbered lines and the remainder line. */
  lemma HeadViewIsJoin(lines: seq<string>)
    requires |lines| > 100
    ensures HeadView(lines) == Join(FileAnalyzerCli.Numbered(lines[..100], 1) + [MoreLines(|lines| - 100)], "\n")
  {
    var head := FileAnalyzerCli.Numbered(lines[..100], 1);
    var more := MoreLines(|lines| - 100);
    assert Take(lines, 100) == lines[..100];
    JoinSnoc(head, more, "\n");
    Regroup3(Join(head, "\n"), "\n", more);
  }

  lemma HeadViewLong(lines: seq<string>)
    requires |lines| > 100
    requires forall k :: 0 <= k < |lines| ==> '\n' !in lines[k]
    ensures Split(HeadView(lines), '\n') == FileAnalyzerCli.Numbered(lines[..100], 1) + [MoreLines(|lines| - 100)]
    ensures |Split(HeadView(lines), '\n')| == 101
  {
    var head := FileAnalyzerCli.Numbered(lines[..100], 1);
    var more := MoreLines(|lines| - 100);
    FileAnalyzerCli.NumberedOneLine(lines[..100], 1);
    IntToStringOneLine(|lines| - 100);
    assert '\n' !in more;
    HeadViewIsJoin(lines);
    forall k | 0 <= k < |head + [more]| ensures '\n' !in (head + [more])[k] {
      if k < 100 {
        assert (head + [more])[k] == head[k];
      }
    }
    SplitJoin(head + [more], '\n');
  }

  /**
   * What `view_file` reports: a missing or unknown name is "File not found"
   * with the name as Python prints it (`None` when absent); a stored file is
   * reported with the number of lines of its whole text (one more than its
   * line breaks), the length of its text and a sentence giving that number.
   */
  lemma ViewFileFacts(rt: Runtime, files: map<string, UploadedFile>, input: seq<Field>)
    ensures Lookup(input, "filename").None? ==> ViewOutcome(rt, files, input) == Success(ErrorResult("File not found: " + "None"))
    ensures Lookup(input, "filename").Some? && Lookup(input, "filename").value.JString?
            && Lookup(input, "filename").value.s !in files
            ==> ViewOutcome(rt, files, input) == Success(ErrorResult("File not found: " + Lookup(input, "filename").value.s))
    ensures ViewOutcome(rt, files, input).Success? && ViewOutcome(rt, files, input).value.Viewed?
            ==> var name := Lookup(input, "filename").value.s;
                var n := CountChar(files[name].content, '\n') + 1;
                && name in files
                && ViewOutcome(rt, files, input).value.totalLines == n
                && ViewOutcome(rt, files, input).value.fileSize == |files[name].content|
                && ViewOutcome(rt, files, input).value.structureInfo == StructureInfo(n)
  {
    var r := ViewOutcome(rt, files, input);
    if r.Success? && r.value.Viewed? {
      var name := Lookup(input, "filename").value.s;
      SplitCount(files[name].content, '\n');
    }
  }

  /** A range of two integers is shown as `FileAnalyzer` shows it: lines `max(1, start)` to `min(n, end)`. */
  lemma ViewRangeAsFirstAnalyzer(rt: Runtime, files: map<string, UploadedFile>, name: string, start: int, end: int)
    requires name in files
    ensures var lines := Split(files[name].content, '\n');
            var n := |lines|;
            ViewOutcome(rt, files, [Field("filename", JString(name)), Field("line_range", JArray([JInt(start), JInt(end)]))])
            == Success(Viewed(FileAnalyzerCli.RangeView(lines, (if start > 1 then start else 1) - 1, if end < n then end else n),
                              n, |files[name].content|, StructureInfo(n)))
  {
    var input := [Field("filename", JString(name)), Field("line_range", JArray([JInt(start), JInt(end)]))];
    assert Lookup(input, "filename") == Some(JString(name));
    assert Lookup(input, "line_range") == Some(JArray([JInt(start), JInt(end)]));
    FileAnalyzerCli.ParseIntegerRange(start, end, |Split(files[name].content, '\n')|);
  }

  // ---------------------------------------------------------------- search_text

  function Hit(content: string, lines: seq<string>, m: Regex.Span): SearchHit {
    var ln := LineNumberAt(content, m.start);
    SearchHit(m.text, ln, Strip(LineAt(lines, ln)), m.start, m.end)
  }

  /** The `matches` of a search, one per match, in the order the engine found them. */
  function Hits(content: string, spans: seq<Regex.Span>): (r: seq<SearchHit>)
    ensures |r| == |spans|
  {
    seq(|spans|, k requires 0 <= k < |spans| => Hit(content, Split(content, '\n'), spans[k]))
  }

  function Suggestion(count: int, pattern: string): string {
    "Found " + IntToString(count) + " matches. If this seems low, try variations like '" + Lower(pattern) + "', '"
    + Upper(pattern) + "' or broader patterns."
  }

  /** What `_search_text` returns or raises. */
  function SearchOutcome(rt: Runtime, files: map<string, UploadedFile>, input: seq<Field>): Result<ToolResult, string> {
    var filename := GetOr(input, "filename", JNull);
    var pattern := GetOr(input, "pattern", JNull);
    var caseSensitive := GetOr(input, "case_sensitive", JBool(false));
    var countOnly := GetOr(input, "count_only", JBool(false));
    var entry :- FileAnalyzerCli.FileLookup(files, filename);
    if entry.None? then Success(NotFound(rt, filename))
    else if !pattern.JString? then Failure(FileAnalyzerCli.PatternTypeError(pattern))
    else
      var content := entry.value.content;
      match rt.regex.findIter(pattern.s, content, !Truthy(caseSensitive))
      case Failure(e) => Success(ErrorResult("Invalid regex pattern: " + e))
      case Success(spans) =>
        if Truthy(countOnly) then Success(MatchCount(|spans|, pattern.s))
        else Success(Searched(Hits(content, spans), |spans|, pattern.s, Suggestion(|spans|, pattern.s)))
  }

  /**
   * Each reported match keeps the matched text and position the engine
   * gave, and carries the number of the line it starts on (1 plus the line
   * breaks before it, always a line of the file) and that line stripped.
   */
  lemma HitsFacts(content: string, spans: seq<Regex.Span>)
    ensures var lines := Split(content, '\n');
            forall k :: 0 <= k < |spans| ==>
              var h := Hits(content, spans)[k];
              && h.text == spans[k].text && h.startPosition == spans[k].start && h.endPosition == spans[k].end
              && 1 <= h.lineNumber <= |lines|
              && h.lineNumber == CountChar(Slice(content, 0, spans[k].start), '\n') + 1
              && h.lineContent == Strip(lines[h.lineNumber - 1])
  {
    var lines := Split(content, '\n');
    forall k | 0 <= k < |spans|
      ensures var h := Hits(content, spans)[k];
              && h.text == spans[k].text && h.startPosition == spans[k].start && h.endPosition == spans[k].end
              && 1 <= h.lineNumber <= |lines|
              && h.lineNumber == CountChar(Slice(content, 0, spans[k].start), '\n') + 1
              && h.lineContent == Strip(lines[h.lineNumber - 1])
    {
      assert Hits(content, spans)[k] == Hit(content, lines, spans[k]);
      HitFacts(content, spans[k]);
    }
  }

  /** One hit: the match itself, the 1-based line it starts on, and that line stripped. */
  lemma HitFacts(content: string, m: Regex.Span)
    ensures var lines := Split(content, '\n');
            var h := Hit(content, lines, m);
            && h.text == m.text && h.startPosition == m.start && h.endPosition == m.end
            && 1 <= h.lineNumber <= |lines|
            && h.lineNumber == CountChar(Slice(content, 0, m.start), '\n') + 1
            && h.lineContent == Strip(lines[h.lineNumber - 1])
  {
    LineNumberInRange(content, m.start);
  }

  /**
   * A search of a stored file with a string pattern: a pattern `re` rejects
   * is reported, not raised; otherwise `count_only` reports the number of
   * matches, and a full search reports one entry per match in the engine's
   * order, with `count` the same number.
   */
  lemma SearchFacts(rt: Runtime, files: map<string, UploadedFile>, input: seq<Field>, name: string, pattern: string)
    requires Lookup(input, "filename") == Some(JString(name)) && name in files
    requires Lookup(input, "pattern") == Some(JString(pattern))
    ensures var content := files[name].content;
            var ignoreCase := !Truthy(GetOr(input, "case_sensitive", JBool(false)));
            var countOnly := Truthy(GetOr(input, "count_only", JBool(false)));
            match rt.regex.findIter(pattern, content, ignoreCase)
            case Failure(e) => SearchOutcome(rt, files, input) == Success(ErrorResult("Invalid regex pattern: " + e))
            case Success(spans) =>
              && (countOnly ==> SearchOutcome(rt, files, input) == Success(MatchCount(|spans|, pattern)))
              && (!countOnly ==> SearchOutcome(rt, files, input)
                                 == Success(Searched(Hits(content, spans), |spans|, pattern, Suggestion(|spans|, pattern))))
  {
  }

  /**
   * A search of a stored file with a pattern that is not a string raises:
   * a list or dict is unhashable as a compile-cache key, and anything else
   * is refused by the pattern check.
   */
  lemma NonStringPatternRaises(rt: Runtime, files: map<string, UploadedFile>, input: seq<Field>, name: string, pattern: Json)
    requires Lookup(input, "filename") == Some(JString(name)) && name in files
    requires Lookup(input, "pattern") == Some(pattern) && !pattern.JString?
    ensures !Hashable(pattern) ==> SearchOutcome(rt, files, input) == Failure(UnhashableError(pattern))
    ensures Hashable(pattern) ==> SearchOutcome(rt, files, input) == Failure("first argument must be string or compiled pattern")
  {
    assert GetOr(input, "filename", JNull) == JString(name);
    assert GetOr(input, "pattern", JNull) == pattern;
  }

  // ---------------------------------------------------------------- find_document_sections

  const DefaultMarkers: seq<Json> :=
    [JString("substantiated"), JString("unsubstantiated"), JString("complaints"), JString("section"), JString("table")]

  /** `f"{i+1:5d}: {lines[i]}"`. */
  function ContextLineText(lines: seq<string>, i: int): string
    requires 0 <= i < |lines|
  {
    Format5(i + 1) + ": " + lines[i]
  }

  /** The first of the lines around line `ln`: two lines before it, or the first line. */
  function ContextStart(ln: int): int {
    if ln - 3 > 0 then ln - 3 else 0
  }

  /** The end of the lines around line `ln`: two lines after it, or the end of the file. */
  function ContextEnd(lines: seq<string>, ln: int): int {
    if ln + 3 < |lines| then ln + 3 else |lines|
  }

  /** The numbered lines `ln - 2` to `ln + 3` that exist. */
  function ContextParts(lines: seq<string>, ln: int): (r: seq<string>)
    ensures var lo := ContextStart(ln);
            var hi := ContextEnd(lines, ln);
            && |r| == (if lo < hi then hi - lo else 0)
            && forall k :: 0 <= k < |r| ==> r[k] == ContextLineText(lines, lo + k)
  {
    NumberedLines(lines, ContextStart(ln), ContextEnd(lines, ln))
  }

  /** `[f"{i+1:5d}: {lines[i]}" for i in range(lo, hi)]`. */
  function NumberedLines(lines: seq<string>, lo: int, hi: int): (r: seq<string>)
    requires 0 <= lo && hi <= |lines|
    ensures |r| == (if lo < hi then hi - lo else 0)
    ensures forall k :: 0 <= k < |r| ==> r[k] == ContextLineText(lines, lo + k)
    decreases hi - lo
  {
    if hi <= lo then []
    else
      var front := NumberedLines(lines, lo, hi - 1);
      NumberedSnoc(lines, lo, front);
      front + [ContextLineText(lines, lo + |front|)]
  }

  /** Appending the next numbered line keeps every entry numbered from `lo`. */
  lemma NumberedSnoc(lines: seq<string>, lo: int, front: seq<string>)
    requires 0 <= lo && lo + |front| < |lines|
    requires forall k :: 0 <= k < |front| ==> front[k] == ContextLineText(lines, lo + k)
    ensures var r := front + [ContextLineText(lines, lo + |front|)];
            forall k :: 0 <= k < |r| ==> r[k] == ContextLineText(lines, lo + k)
  {
  }


  /** The `context` of a location: lines `ln - 2` to `ln + 3` that exist, numbered, one per line. */
  function ContextBlock(lines: seq<string>, ln: int): string {
    Join(ContextParts(lines, ln), "\n")
  }

  function Locate(content: string, lines: seq<string>, m: Regex.Span): Location {
    var ln := LineNumberAt(content, m.start);
    Location(ln, Strip(LineAt(lines, ln)), ContextBlock(lines, ln))
  }

  function Locations(content: string, spans: seq<Regex.Span>): (r: seq<Location>)
    ensures |r| == |spans|
  {
    seq(|spans|, k requires 0 <= k < |spans| => Locate(content, Split(content, '\n'), spans[k]))
  }

  /** `sections_found[marker] = ...`: a marker already present keeps its place and takes the new value. */
  function PutSection(sections: seq<Section>, s: Section): (r: seq<Section>)
    ensures forall k :: 0 <= k < |r| ==> r[k] == s || r[k] in sections
    ensures s in r
    decreases |sections|
  {
    if sections == [] then [s]
    else if sections[0].marker == s.marker then [s] + sections[1..]
    else
      var rest := PutSection(sections[1..], s);
      assert forall k :: 1 <= k < |[sections[0]] + rest| ==> ([sections[0]] + rest)[k] == rest[k - 1];
      [sections[0]] + rest
  }

  /** `re.escape(marker)` accepts only strings here; anything else raises. */
  function MarkerText(m: Json): Result<string, string> {
    if m.JString? then Success(m.s) else Failure("decoding to str: need a bytes-like object, " + TypeName(m) + " found")
  }

  /** `sections_found` after the given markers, in order; a marker without a whole-word match adds nothing. */
  function SectionsOf(rt: Runtime, content: string, markers: seq<Json>): Result<seq<Section>, string>
    decreases |markers|
  {
    if markers == [] then Success([])
    else
      var before :- SectionsOf(rt, content, markers[..|markers| - 1]);
      var marker :- MarkerText(markers[|markers| - 1]);
      var spans :- rt.regex.findIter(Regex.WordPattern(marker), content, true);
      if spans == [] then Success(before)
      else Success(PutSection(before, Section(marker, |spans|, Locations(content, spans))))
  }

  /** What `_find_document_sections` returns or raises. */
  function SectionsOutcome(rt: Runtime, files: map<string, UploadedFile>, input: seq<Field>): Result<ToolResult, string> {
    var filename := GetOr(input, "filename", JNull);
    var markers := GetOr(input, "section_markers", JArray(DefaultMarkers));
    var entry :- FileAnalyzerCli.FileLookup(files, filename);
    if entry.None? then Success(NotFound(rt, filename))
    else
      var content := entry.value.content;
      match Iterate(markers)
      case None => Failure("'" + TypeName(markers) + "' object is not iterable")
      case Some(ms) =>
        var sections :- SectionsOf(rt, content, ms);
        Success(SectionsFound(sections, |Split(content, '\n')|))
  }

  /** The markers of a list of sections. */
  function Markers(sections: seq<Section>): (r: seq<string>)
    ensures |r| == |sections|
  {
    seq(|sections|, k requires 0 <= k < |sections| => sections[k].marker)
  }

  predicate Distinct<T(==)>(xs: seq<T>) {
    forall a, b :: 0 <= a < b < |xs| ==> xs[a] != xs[b]
  }

  lemma DistinctCons<T>(x: T, xs: seq<T>)
    ensures Distinct([x] + xs) <==> x !in xs && Distinct(xs)
  {
    var ys := [x] + xs;
    assert forall k :: 0 <= k < |xs| ==> ys[k + 1] == xs[k];
    if x !in xs && Distinct(xs) {
      forall a, b | 0 <= a < b < |ys| ensures ys[a] != ys[b] {
        if a > 0 {
          assert ys[a] == xs[a - 1];
        }
      }
    }
    if Distinct(ys) {
      forall a, b | 0 <= a < b < |xs| ensures xs[a] != xs[b] {
        assert ys[a + 1] != ys[b + 1];
      }
      forall k | 0 <= k < |xs| ensures xs[k] != x {
        assert ys[0] != ys[k + 1];
      }
    }
  }

  /** Putting a section keeps the markers distinct and adds its marker to the others. */
  lemma {:induction false} PutSectionMarkers(sections: seq<Section>, s: Section)
    requires Distinct(Markers(sections))
    ensures Distinct(Markers(PutSection(sections, s)))
    ensures forall m :: m in Markers(PutSection(sections, s)) <==> m in Markers(sections) || m == s.marker
    decreases |sections|
  {
    var r := PutSection(sections, s);
    if sections != [] {
      var tail := sections[1..];
      assert Markers(sections) == [sections[0].marker] + Markers(tail);
      DistinctCons(sections[0].marker, Markers(tail));
      if sections[0].marker == s.marker {
        assert Markers(r) == [s.marker] + Markers(tail);
        DistinctCons(s.marker, Markers(tail));
      } else {
        PutSectionMarkers(tail, s);
        var rest := PutSection(tail, s);
        assert r == [sections[0]] + rest;
        assert Markers(r) == [sections[0].marker] + Markers(rest);
        DistinctCons(sections[0].marker, Markers(rest));
      }
    } else {
      assert Markers(r) == [s.marker];
    }
  }

  /** A stored section keeps the count of its locations, which is never zero. */
  predicate WellCounted(sections: seq<Section>) {
    forall k :: 0 <= k < |sections| ==> sections[k].count == |sections[k].locations| >= 1
  }

  /** Each entry holds its own marker's whole-word matches: their number and their locations. */
  predicate HoldsOwnMatches(rt: Runtime, content: string, sections: seq<Section>) {
    forall k :: 0 <= k < |sections| ==> OwnMatches(rt, content, sections[k])
  }

  /** The section's count and locations are those of its marker's whole-word matches. */
  predicate OwnMatches(rt: Runtime, content: string, s: Section) {
    var f := rt.regex.findIter(Regex.WordPattern(s.marker), content, true);
    f.Success? && s.count == |f.value| && s.locations == Locations(content, f.value)
  }

  /** The marker has a whole-word, case-insensitive match in the content. */
  predicate Found(rt: Runtime, content: string, m: string) {
    rt.regex.findIter(Regex.WordPattern(m), content, true).Success?
    && rt.regex.findIter(Regex.WordPattern(m), content, true).value != []
  }

  /** The markers of the sections found for some markers: those asked for that have a match. */
  ghost predicate MarkersFound(rt: Runtime, content: string, markers: seq<Json>, sections: seq<Section>) {
    forall m :: m in Markers(sections) <==> JString(m) in markers && Found(rt, content, m)
  }

  /**
   * `sections_found` names each marker once, a marker is in it exactly when
   * it was asked for and has a whole-word, case-insensitive match, and each
   * entry holds that marker's own matches: their count and their locations.
   */
  lemma {:induction false} SectionsOfFacts(rt: Runtime, content: string, markers: seq<Json>)
    requires SectionsOf(rt, content, markers).Success?
    ensures var sections := SectionsOf(rt, content, markers).value;
            && Distinct(Markers(sections))
            && WellCounted(sections)
            && HoldsOwnMatches(rt, content, sections)
            && MarkersFound(rt, content, markers, sections)
    decreases |markers|
  {
    if markers != [] {
      var front := markers[..|markers| - 1];
      var last := markers[|markers| - 1];
      SectionsOfFacts(rt, content, front);
      var before := SectionsOf(rt, content, front).value;
      var marker := last.s;
      var spans := rt.regex.findIter(Regex.WordPattern(marker), content, true).value;
      var sections := SectionsOf(rt, content, markers).value;
      if spans != [] {
        var s := Section(marker, |spans|, Locations(content, spans));
        assert sections == PutSection(before, s);
        PutFoundSection(rt, content, before, s);
      } else {
        assert sections == before;
      }
      MarkersFoundSnoc(rt, content, markers, front, before, sections);
    }
  }

  /**
   * Putting a section with at least one location keeps the markers distinct,
   * well counted and holding their own matches, adding its marker.
   */
  lemma PutFoundSection(rt: Runtime, content: string, before: seq<Section>, s: Section)
    requires Distinct(Markers(before)) && WellCounted(before) && HoldsOwnMatches(rt, content, before)
    requires s.count == |s.locations| >= 1 && OwnMatches(rt, content, s)
    ensures Distinct(Markers(PutSection(before, s))) && WellCounted(PutSection(before, s))
    ensures HoldsOwnMatches(rt, content, PutSection(before, s))
    ensures forall m :: m in Markers(PutSection(before, s)) <==> m in Markers(before) || m == s.marker
  {
    PutSectionMarkers(before, s);
    var r := PutSection(before, s);
    forall k | 0 <= k < |r| ensures r[k].count == |r[k].locations| >= 1 && OwnMatches(rt, content, r[k]) {
      if r[k] != s {
        var j :| 0 <= j < |before| && before[j] == r[k];
      }
    }
  }

  /** Dict assignment by marker: an equal marker's entry becomes the new section, and every other entry is kept. */
  lemma {:induction false} PutSectionEntries(sections: seq<Section>, s: Section, i: int)
    requires Distinct(Markers(sections)) && 0 <= i < |PutSection(sections, s)|
    ensures var r := PutSection(sections, s)[i];
            && (r.marker == s.marker ==> r == s)
            && (r.marker != s.marker ==> r in sections)
    decreases |sections|
  {
    if sections != [] && sections[0].marker != s.marker {
      if i > 0 {
        assert Markers(sections) == [sections[0].marker] + Markers(sections[1..]);
        DistinctCons(sections[0].marker, Markers(sections[1..]));
        PutSectionEntries(sections[1..], s, i - 1);
        assert PutSection(sections, s)[i] == PutSection(sections[1..], s)[i - 1];
        assert forall y :: y in sections[1..] ==> y in sections;
      } else {
        assert PutSection(sections, s)[0] == sections[0];
      }
    } else if sections != [] && i > 0 {
      assert PutSection(sections, s)[i] == sections[i];
      assert Markers(sections)[0] != Markers(sections)[i];
    }
  }

  /** One more marker: it joins the found markers exactly when it has a match. */
  lemma MarkersFoundSnoc(rt: Runtime, content: string, markers: seq<Json>, front: seq<Json>,
                         before: seq<Section>, sections: seq<Section>)
    requires markers != [] && front == markers[..|markers| - 1] && markers[|markers| - 1].JString?
    requires MarkersFound(rt, content, front, before)
    requires var m := markers[|markers| - 1].s;
             rt.regex.findIter(Regex.WordPattern(m), content, true).Success?
             && forall x :: x in Markers(sections) <==> x in Markers(before) || (x == m && Found(rt, content, m))
    ensures MarkersFound(rt, content, markers, sections)
  {
    forall x ensures x in Markers(sections) <==> JString(x) in markers && Found(rt, content, x) {
      assert JString(x) in markers <==> JString(x) in front || JString(x) == markers[|markers| - 1];
    }
  }

  /** The context of a location shows its own line, numbered, among at most 6 lines. */
  lemma ContextHoldsLine(lines: seq<string>, ln: int)
    requires 1 <= ln <= |lines|
    ensures IsSubstring(ContextLineText(lines, ln - 1), ContextBlock(lines, ln))
    ensures (forall k :: 0 <= k < |lines| ==> '\n' !in lines[k])
            ==> |Split(ContextBlock(lines, ln), '\n')| == ContextEnd(lines, ln) - ContextStart(ln) <= 6
  {
    var lo := ContextStart(ln);
    var parts := ContextParts(lines, ln);
    assert parts[ln - 1 - lo] == ContextLineText(lines, ln - 1);
    JoinContains(parts, "\n", ln - 1 - lo);
    if forall k :: 0 <= k < |lines| ==> '\n' !in lines[k] {
      forall k | 0 <= k < |parts| ensures '\n' !in parts[k] {
        LineTextOneLine(lines, lo + k);
      }
      SplitJoin(parts, '\n');
    }
  }

  /** A numbered line is one line when the line is. */
  lemma LineTextOneLine(lines: seq<string>, i: int)
    requires 0 <= i < |lines| && '\n' !in lines[i]
    ensures '\n' !in ContextLineText(lines, i)
  {
    Format5OneLine(i + 1);
  }

  // ---------------------------------------------------------------- extract_line_ranges

  /** The lines `lo` to `hi` (1-based, both included), each marked when its number equals the target. */
  function ContextLines(lines: seq<string>, lo: int, hi: int, target: real): (r: seq<ContextLine>)
    requires 1 <= lo && hi <= |lines|
    ensures |r| == if lo <= hi then hi - lo + 1 else 0
  {
    seq(if lo <= hi then hi - lo + 1 else 0,
        k requires 0 <= k < (if lo <= hi then hi - lo + 1 else 0) => ContextLine(lo + k, lines[lo + k - 1], (lo + k) as real == target))
  }

  /** The `TypeError` of `1 <= ln` for a line number that is not a number. */
  function NotComparable(ln: Json): string {
    "'<=' not supported between instances of 'int' and '" + TypeName(ln) + "'"
  }

  /** The error entry of a line number outside the file. */
  function OutOfRangeText(ln: Json, floatRepr: FloatRepr): string {
    "Line number " + Str(ln, floatRepr) + " out of range"
  }

  /** The `TypeError` of `ln - c` for a context that is not a number. */
  function BadOperands(ln: Json, c: Json): string {
    "unsupported operand type(s) for -: '" + TypeName(ln) + "' and '" + TypeName(c) + "'"
  }

  /** The `TypeError` of a float bound given to `range`. */
  const FloatBound := "'float' object cannot be interpreted as an integer"

  /**
   * The entry for one requested line number, or what Python raises: a
   * number outside `1..n` gets an error entry; inside, the window
   * `max(1, ln - c)` to `min(n, ln + c)`. A window bound that comes out as
   * a float cannot be a `range` bound.
   */
  function EntryFor(lines: seq<string>, ln: Json, c: Json, floatRepr: FloatRepr): Result<RangeEntry, string> {
    var n := |lines|;
    match AsNumber(ln)
    case None => Failure(NotComparable(ln))
    case Some(v) =>
      if !(1.0 <= v && v <= n as real) then Success(OutOfRange(OutOfRangeText(ln, floatRepr)))
      else InRangeEntry(lines, ln, v, c)
  }

  /** The entry of a line number `ln`, of value `v`, that lies inside the file. */
  function InRangeEntry(lines: seq<string>, ln: Json, v: real, c: Json): Result<RangeEntry, string> {
    var n := |lines|;
    match AsNumber(c)
    case None => Failure(BadOperands(ln, c))
    case Some(cv) =>
      if AsInt(ln).Some? && AsInt(c).Some? then
        var l := AsInt(ln).value;
        var ci := AsInt(c).value;
        var lo := if l - ci > 1 then l - ci else 1;
        var hi := if l + ci < n then l + ci else n;
        Success(Window(lo, hi, ContextLines(lines, lo, hi, l as real)))
      else if v - cv > 1.0 || v + cv < n as real then Failure(FloatBound)
      else Success(Window(1, n, ContextLines(lines, 1, n, v)))
  }

  /** `extracted_ranges[line_num] = ...`: a key equal to one already present (`1`, `1.0` and `True` are equal) keeps its place and first spelling. */
  function PutRange(ranges: seq<Extracted>, e: Extracted): (r: seq<Extracted>)
    ensures |ranges| <= |r| <= |ranges| + 1
    decreases |ranges|
  {
    if ranges == [] then [e]
    else if KeyOf(ranges[0].lineNumber) == KeyOf(e.lineNumber) then [Extracted(ranges[0].lineNumber, e.entry)] + ranges[1..]
    else [ranges[0]] + PutRange(ranges[1..], e)
  }

  /** `extracted_ranges` after the given line numbers, in order. */
  function RangesOf(lines: seq<string>, lns: seq<Json>, c: Json, floatRepr: FloatRepr): Result<seq<Extracted>, string>
    decreases |lns|
  {
    if lns == [] then Success([])
    else
      var before :- RangesOf(lines, lns[..|lns| - 1], c, floatRepr);
      var entry :- EntryFor(lines, lns[|lns| - 1], c, floatRepr);
      Success(PutRange(before, Extracted(lns[|lns| - 1], entry)))
  }

  /** What `_extract_line_ranges` returns or raises; `context_lines` defaults to 10. */
  function ExtractOutcome(rt: Runtime, files: map<string, UploadedFile>, input: seq<Field>): Result<ToolResult, string> {
    var filename := GetOr(input, "filename", JNull);
    var lineNumbers := GetOr(input, "line_numbers", JArray([]));
    var c := GetOr(input, "context_lines", JInt(10));
    var entry :- FileAnalyzerCli.FileLookup(files, filename);
    if entry.None? then Success(NotFound(rt, filename))
    else
      var lines := Split(entry.value.content, '\n');
      match Iterate(lineNumbers)
      case None => Failure("'" + TypeName(lineNumbers) + "' object is not iterable")
      case Some(lns) =>
        var ranges :- RangesOf(lines, lns, c, rt.floatRepr);
        Success(RangesExtracted(ranges, |ranges|))
  }

  /**
   * An integer line number inside the file, with a non-negative context,
   * gets the window from `max(1, ln - c)` to `min(n, ln + c)`: every line of
   * it in order under its own number, and exactly one of them, line `ln`,
   * marked as the target.
   */
  lemma WindowFacts(lines: seq<string>, ln: int, c: int, floatRepr: FloatRepr)
    requires 1 <= ln <= |lines| && c >= 0
    ensures var n := |lines|;
            var lo := if ln - c > 1 then ln - c else 1;
            var hi := if ln + c < n then ln + c else n;
            && EntryFor(lines, JInt(ln), JInt(c), floatRepr).Success?
            && var e := EntryFor(lines, JInt(ln), JInt(c), floatRepr).value;
               && e == Window(lo, hi, e.lines)
               && lo <= ln <= hi && |e.lines| == hi - lo + 1
               && (forall k :: 0 <= k < |e.lines| ==> e.lines[k].lineNumber == lo + k && e.lines[k].content == lines[lo + k - 1])
               && (forall k :: 0 <= k < |e.lines| ==> (e.lines[k].isTarget <==> k == ln - lo))
  {
  }

  /** An integer line number outside the file gets an error entry naming it. */
  lemma OutOfRangeEntry(lines: seq<string>, ln: int, c: Json, floatRepr: FloatRepr)
    requires ln < 1 || ln > |lines|
    ensures EntryFor(lines, JInt(ln), c, floatRepr) == Success(OutOfRange("Line number " + IntToString(ln) + " out of range"))
  {
  }

  /** The position of the last value in `xs` whose dict key is `x`, or -1 when there is none. */
  function LastKeyIndex(xs: seq<Json>, x: Key): (k: int)
    ensures -1 <= k < |xs|
    ensures 0 <= k ==> KeyOf(xs[k]) == x
    ensures forall j :: k < j < |xs| ==> KeyOf(xs[j]) != x
    decreases |xs|
  {
    if xs == [] then -1
    else if KeyOf(xs[|xs| - 1]) == x then |xs| - 1
    else
      var front := xs[..|xs| - 1];
      assert forall j :: 0 <= j < |front| ==> front[j] == xs[j];
      LastKeyIndex(front, x)
  }

  /** The keys of a list of ranges. */
  function RangeKeys(ranges: seq<Extracted>): (r: seq<Key>)
    ensures |r| == |ranges|
  {
    seq(|ranges|, k requires 0 <= k < |ranges| => KeyOf(ranges[k].lineNumber))
  }

  lemma {:induction false} PutRangeKeys(ranges: seq<Extracted>, e: Extracted)
    requires Distinct(RangeKeys(ranges))
    ensures Distinct(RangeKeys(PutRange(ranges, e)))
    ensures forall x :: x in RangeKeys(PutRange(ranges, e)) <==> x in RangeKeys(ranges) || x == KeyOf(e.lineNumber)
    decreases |ranges|
  {
    var r := PutRange(ranges, e);
    if ranges != [] {
      var tail := ranges[1..];
      assert RangeKeys(ranges) == [KeyOf(ranges[0].lineNumber)] + RangeKeys(tail);
      DistinctCons(KeyOf(ranges[0].lineNumber), RangeKeys(tail));
      if KeyOf(ranges[0].lineNumber) == KeyOf(e.lineNumber) {
        assert RangeKeys(r) == [KeyOf(e.lineNumber)] + RangeKeys(tail);
      } else {
        PutRangeKeys(tail, e);
        var rest := PutRange(tail, e);
        assert r == [ranges[0]] + rest;
        assert RangeKeys(r) == [KeyOf(ranges[0].lineNumber)] + RangeKeys(rest);
        DistinctCons(KeyOf(ranges[0].lineNumber), RangeKeys(rest));
      }
    } else {
      assert RangeKeys(r) == [KeyOf(e.lineNumber)];
    }
  }

  /** Putting a range in replaces the entry of its key, or adds it; every other entry stays as it was. */
  lemma {:induction false} PutRangeEntries(ranges: seq<Extracted>, e: Extracted, i: int)
    requires Distinct(RangeKeys(ranges)) && 0 <= i < |PutRange(ranges, e)|
    ensures var r := PutRange(ranges, e)[i];
            && (KeyOf(r.lineNumber) == KeyOf(e.lineNumber) ==> r.entry == e.entry)
            && (KeyOf(r.lineNumber) != KeyOf(e.lineNumber) ==> r in ranges)
    decreases |ranges|
  {
    if ranges != [] && KeyOf(ranges[0].lineNumber) != KeyOf(e.lineNumber) {
      if i > 0 {
        assert RangeKeys(ranges) == [KeyOf(ranges[0].lineNumber)] + RangeKeys(ranges[1..]);
        DistinctCons(KeyOf(ranges[0].lineNumber), RangeKeys(ranges[1..]));
        PutRangeEntries(ranges[1..], e, i - 1);
        assert PutRange(ranges, e)[i] == PutRange(ranges[1..], e)[i - 1];
        assert forall y :: y in ranges[1..] ==> y in ranges;
      } else {
        assert PutRange(ranges, e)[0] == ranges[0];
      }
    } else if ranges != [] && i > 0 {
      assert PutRange(ranges, e)[i] == ranges[i];
      assert RangeKeys(ranges)[0] != RangeKeys(ranges)[i];
    }
  }

  /** The line numbers' last occurrences: one key more is the last line number. */
  lemma LastKeyIndexSnoc(lns: seq<Json>, front: seq<Json>, x: Key)
    requires lns != [] && front == lns[..|lns| - 1]
    ensures LastKeyIndex(lns, x) == if KeyOf(lns[|lns| - 1]) == x then |lns| - 1 else LastKeyIndex(front, x)
  {
  }

  /**
   * `extracted_ranges` has one entry per distinct requested line number
   * (equal numbers share one), so `total_ranges` counts the distinct numbers;
   * each entry is the one built for the last occurrence of its number.
   */
  lemma {:induction false} RangesOfKeys(lines: seq<string>, lns: seq<Json>, c: Json, floatRepr: FloatRepr)
    requires RangesOf(lines, lns, c, floatRepr).Success?
    ensures var ranges := RangesOf(lines, lns, c, floatRepr).value;
            && Distinct(RangeKeys(ranges))
            && |ranges| <= |lns|
            && (forall x :: x in RangeKeys(ranges) <==> exists k :: 0 <= k < |lns| && KeyOf(lns[k]) == x)
            && forall i :: 0 <= i < |ranges| ==>
                 var k := LastKeyIndex(lns, KeyOf(ranges[i].lineNumber));
                 0 <= k && EntryFor(lines, lns[k], c, floatRepr) == Success(ranges[i].entry)
    decreases |lns|
  {
    if lns != [] {
      var front := lns[..|lns| - 1];
      RangesOfKeys(lines, front, c, floatRepr);
      var before := RangesOf(lines, front, c, floatRepr).value;
      var entry := EntryFor(lines, lns[|lns| - 1], c, floatRepr).value;
      var e := Extracted(lns[|lns| - 1], entry);
      PutRangeKeys(before, e);
      var ranges := RangesOf(lines, lns, c, floatRepr).value;
      assert ranges == PutRange(before, e);
      forall x ensures x in RangeKeys(ranges) <==> exists k :: 0 <= k < |lns| && KeyOf(lns[k]) == x {
        KeyOfSnoc(lns, front, x);
      }
      forall i | 0 <= i < |ranges|
        ensures var k := LastKeyIndex(lns, KeyOf(ranges[i].lineNumber));
                0 <= k && EntryFor(lines, lns[k], c, floatRepr) == Success(ranges[i].entry)
      {
        RangesOfEntry(lines, lns, front, c, floatRepr, before, e, i);
      }
    }
  }

  /** One entry of `extracted_ranges` after one more line number. */
  lemma RangesOfEntry(lines: seq<string>, lns: seq<Json>, front: seq<Json>, c: Json, floatRepr: FloatRepr,
                      before: seq<Extracted>, e: Extracted, i: int)
    requires lns != [] && front == lns[..|lns| - 1]
    requires e.lineNumber == lns[|lns| - 1] && EntryFor(lines, lns[|lns| - 1], c, floatRepr) == Success(e.entry)
    requires Distinct(RangeKeys(before))
    requires forall i :: 0 <= i < |before| ==>
               var k := LastKeyIndex(front, KeyOf(before[i].lineNumber));
               0 <= k && EntryFor(lines, front[k], c, floatRepr) == Success(before[i].entry)
    requires 0 <= i < |PutRange(before, e)|
    ensures var r := PutRange(before, e)[i]; var k := LastKeyIndex(lns, KeyOf(r.lineNumber));
            0 <= k && EntryFor(lines, lns[k], c, floatRepr) == Success(r.entry)
  {
    var r := PutRange(before, e)[i];
    var x := KeyOf(r.lineNumber);
    PutRangeEntries(before, e, i);
    LastKeyIndexSnoc(lns, front, x);
    if x != KeyOf(e.lineNumber) {
      var j :| 0 <= j < |before| && before[j] == r;
      var k := LastKeyIndex(front, x);
      assert lns[k] == front[k];
    }
  }

  /** A key is among those of `lns` exactly when it is among those of all but the last, or is the last one's. */
  lemma KeyOfSnoc(lns: seq<Json>, front: seq<Json>, x: Key)
    requires lns != [] && front == lns[..|lns| - 1]
    ensures (exists k :: 0 <= k < |lns| && KeyOf(lns[k]) == x)
            <==> (exists k :: 0 <= k < |front| && KeyOf(front[k]) == x) || x == KeyOf(lns[|lns| - 1])
  {
    if exists k :: 0 <= k < |lns| && KeyOf(lns[k]) == x {
      var k :| 0 <= k < |lns| && KeyOf(lns[k]) == x;
      if k < |lns| - 1 {
        assert KeyOf(front[k]) == x;
      }
    }
    if exists k :: 0 <= k < |lns| - 1 && KeyOf(front[k]) == x {
      var k :| 0 <= k < |lns| - 1 && KeyOf(front[k]) == x;
      assert KeyOf(lns[k]) == x;
    }
  }

  /**
   * With no `context_lines` argument the window reaches 10 lines each way:
   * one in-file line number gives one window from `max(1, ln - 10)` to
   * `min(n, ln + 10)`.
   */
  lemma DefaultContextIsTen(rt: Runtime, files: map<string, UploadedFile>, name: string, ln: int)
    requires name in files && 1 <= ln <= |Split(files[name].content, '\n')|
    ensures var lines := Split(files[name].content, '\n');
            var n := |lines|;
            var lo := if ln - 10 > 1 then ln - 10 else 1;
            var hi := if ln + 10 < n then ln + 10 else n;
            ExtractOutcome(rt, files, [Field("filename", JString(name)), Field("line_numbers", JArray([JInt(ln)]))])
            == Success(RangesExtracted([Extracted(JInt(ln), Window(lo, hi, ContextLines(lines, lo, hi, ln as real)))], 1))
  {
    var f0 := Field("filename", JString(name));
    var f1 := Field("line_numbers", JArray([JInt(ln)]));
    var input := [f0, f1];
    assert input[1..] == [f1];
    assert Lookup(input, "filename") == Some(JString(name));
    assert Lookup(input, "line_numbers") == Some(JArray([JInt(ln)]));
    assert Lookup(input, "context_lines") == None;
    var lines := Split(files[name].content, '\n');
    IntegerEntry(lines, ln, 10, rt.floatRepr);
    OneLineNumber(lines, JInt(ln), JInt(10), rt.floatRepr);
  }

  /** An integer line number inside the file with an integer context `c` gets the window `max(1, ln - c)` to `min(n, ln + c)`. */
  lemma IntegerEntry(lines: seq<string>, ln: int, c: int, floatRepr: FloatRepr)
    requires 1 <= ln <= |lines|
    ensures var n := |lines|;
            var lo := if ln - c > 1 then ln - c else 1;
            var hi := if ln + c < n then ln + c else n;
            EntryFor(lines, JInt(ln), JInt(c), floatRepr) == Success(Window(lo, hi, ContextLines(lines, lo, hi, ln as real)))
  {
    assert AsNumber(JInt(ln)) == Some(ln as real);
    assert EntryFor(lines, JInt(ln), JInt(c), floatRepr) == InRangeEntry(lines, JInt(ln), ln as real, JInt(c));
  }

  /** A single requested line number gives its own entry, or its own failure. */
  lemma OneLineNumber(lines: seq<string>, ln: Json, c: Json, floatRepr: FloatRepr)
    ensures RangesOf(lines, [ln], c, floatRepr)
            == match EntryFor(lines, ln, c, floatRepr)
               case Success(e) => Success([Extracted(ln, e)])
               case Failure(m) => Failure(m)
  {
    assert [ln][..0] == [];
  }

  // ---------------------------------------------------------------- analyze_line_positions

  const HeaderSection := "document_header_or_substantiated"
  const MiddleSection := "middle_section"
  const AppendixSection := "unsubstantiated_or_appendix"

  /** The section a line falls in by its place in the file: the first 30%, up to 70%, or the rest. */
  function PositionLabel(ln: int, total: nat): string {
    if (ln as real) < (total as real) * 0.3 then HeaderSection
    else if (ln as real) < (total as real) * 0.7 then MiddleSection
    else AppendixSection
  }

  /** A boundary dict with numeric `start` and `end` around the line. */
  predicate Encloses(b: Json, ln: int) {
    && b.JObject? && HasKey(b, "start") && HasKey(b, "end")
    && AsNumber(Lookup(b.fields, "start").value).Some? && AsNumber(Lookup(b.fields, "end").value).Some?
    && AsNumber(Lookup(b.fields, "start").value).value <= ln as real <= AsNumber(Lookup(b.fields, "end").value).value
  }

  /** A boundary entry that is passed over without raising: not a dict with both keys, or numeric bounds that miss the line. */
  predicate PassesOver(b: Json, ln: int) {
    if b.JObject? && HasKey(b, "start") && HasKey(b, "end") then
      && AsNumber(Lookup(b.fields, "start").value).Some?
      && (AsNumber(Lookup(b.fields, "start").value).value > ln as real
          || (AsNumber(Lookup(b.fields, "end").value).Some? && AsNumber(Lookup(b.fields, "end").value).value < ln as real))
    else true
  }

  /** The name of the first boundary, in dict order, whose range holds the line; or what the comparison raises. */
  function FirstBoundary(fields: seq<Field>, ln: int): Result<Option<string>, string>
    decreases |fields|
  {
    if fields == [] then Success(None)
    else
      var b := fields[0].value;
      if b.JObject? && HasKey(b, "start") && HasKey(b, "end") then
        var lo := Lookup(b.fields, "start").value;
        var hi := Lookup(b.fields, "end").value;
        if AsNumber(lo).None? then Failure("'<=' not supported between instances of '" + TypeName(lo) + "' and 'int'")
        else if AsNumber(lo).value > ln as real then FirstBoundary(fields[1..], ln)
        else if AsNumber(hi).None? then Failure("'<=' not supported between instances of 'int' and '" + TypeName(hi) + "'")
        else if ln as real <= AsNumber(hi).value then Success(Some(fields[0].key))
        else FirstBoundary(fields[1..], ln)
      else FirstBoundary(fields[1..], ln)
  }

  /** What `_determine_section_by_position` returns or raises. */
  function DetermineSection(ln: int, boundaries: Json, total: nat): Result<string, string> {
    if !Truthy(boundaries) then Success(PositionLabel(ln, total))
    else if !boundaries.JObject? then Failure("'" + TypeName(boundaries) + "' object has no attribute 'items'")
    else
      var found :- FirstBoundary(boundaries.fields, ln);
      if found.Some? then Success(found.value) else Success(PositionLabel(ln, total))
  }

  /** The thresholds in whole numbers: the header is below 3/10 of the lines, the middle below 7/10. */
  lemma PositionLabelThresholds(ln: int, total: nat)
    ensures PositionLabel(ln, total) == HeaderSection <==> 10 * ln < 3 * total
    ensures PositionLabel(ln, total) == MiddleSection <==> 3 * total <= 10 * ln < 7 * total
    ensures PositionLabel(ln, total) == AppendixSection <==> 7 * total <= 10 * ln
  {
    assert HeaderSection != MiddleSection && HeaderSection != AppendixSection && MiddleSection != AppendixSection by {
      assert |HeaderSection| != |MiddleSection| && |HeaderSection| != |AppendixSection| && |MiddleSection| != |AppendixSection|;
    }
  }

  /**
   * The first boundary that holds the line wins, provided every boundary
   * before it is passed over without raising.
   */
  lemma {:induction false} FirstBoundaryWins(fields: seq<Field>, ln: int, k: int)
    requires 0 <= k < |fields| && Encloses(fields[k].value, ln)
    requires forall j :: 0 <= j < k ==> PassesOver(fields[j].value, ln)
    ensures FirstBoundary(fields, ln) == Success(Some(fields[k].key))
    decreases k
  {
    if k > 0 {
      assert PassesOver(fields[0].value, ln);
      FirstBoundaryWins(fields[1..], ln, k - 1);
    }
  }

  /** One step of the scan: a boundary holding the line is returned; one that does not is passed over or raises. */
  lemma FirstBoundaryHead(fields: seq<Field>, ln: int)
    requires |fields| > 0
    ensures Encloses(fields[0].value, ln) ==> FirstBoundary(fields, ln) == Success(Some(fields[0].key))
    ensures !Encloses(fields[0].value, ln) && FirstBoundary(fields, ln).Success? && FirstBoundary(fields, ln).value.Some?
            ==> PassesOver(fields[0].value, ln) && FirstBoundary(fields, ln) == FirstBoundary(fields[1..], ln)
  {
  }

  /** A boundary name is returned only for a boundary that holds the line, with every earlier one passed over. */
  lemma {:induction false} FirstBoundarySound(fields: seq<Field>, ln: int)
    requires FirstBoundary(fields, ln).Success? && FirstBoundary(fields, ln).value.Some?
    ensures exists k :: 0 <= k < |fields| && fields[k].key == FirstBoundary(fields, ln).value.value
                        && Encloses(fields[k].value, ln) && forall j :: 0 <= j < k ==> PassesOver(fields[j].value, ln)
    decreases |fields|
  {
    FirstBoundaryHead(fields, ln);
    var name := FirstBoundary(fields, ln).value.value;
    if Encloses(fields[0].value, ln) {
      assert fields[0].key == name;
    } else {
      var rest := fields[1..];
      FirstBoundarySound(rest, ln);
      var k :| 0 <= k < |rest| && rest[k].key == name
               && Encloses(rest[k].value, ln) && forall j :: 0 <= j < k ==> PassesOver(rest[j].value, ln);
      FoundAfterHead(fields, rest, ln, k);
    }
  }

  /** A boundary found in the rest, after a head that is passed over, is found one place later in the whole. */
  lemma FoundAfterHead(fields: seq<Field>, rest: seq<Field>, ln: int, k: int)
    requires |fields| > 0 && rest == fields[1..] && 0 <= k < |rest|
    requires PassesOver(fields[0].value, ln)
    requires forall j :: 0 <= j < k ==> PassesOver(rest[j].value, ln)
    ensures fields[k + 1] == rest[k]
    ensures forall j :: 0 <= j < k + 1 ==> PassesOver(fields[j].value, ln)
  {
    forall j | 0 <= j < k + 1 ensures PassesOver(fields[j].value, ln) {
      if j > 0 {
        assert fields[j] == rest[j - 1];
      }
    }
  }

  /** Without boundaries, or when none holds the line, the line's place in the file decides. */
  lemma FallbackByPosition(ln: int, boundaries: Json, total: nat)
    ensures !Truthy(boundaries) ==> DetermineSection(ln, boundaries, total) == Success(PositionLabel(ln, total))
    ensures boundaries.JObject? && FirstBoundary(boundaries.fields, ln) == Success(None)
            ==> DetermineSection(ln, boundaries, total) == Success(PositionLabel(ln, total))
  {
  }

  /** The positions of one item's matches, in order, or what determining a section raises. */
  function PositionsFor(content: string, spans: seq<Regex.Span>, boundaries: Json): Result<seq<Position>, string>
    decreases |spans|
  {
    if spans == [] then Success([])
    else
      var before :- PositionsFor(content, spans[..|spans| - 1], boundaries);
      var m := spans[|spans| - 1];
      var lines := Split(content, '\n');
      var ln := LineNumberAt(content, m.start);
      var section :- DetermineSection(ln, boundaries, |lines|);
      Success(before + [Position(ln, Strip(LineAt(lines, ln)), section, m.start)])
  }

  /** `position_analysis[item] = ...`, with Python's key equality. */
  function PutItem(items: seq<ItemPositions>, x: ItemPositions): (r: seq<ItemPositions>)
    ensures |items| <= |r| <= |items| + 1
    decreases |items|
  {
    if items == [] then [x]
    else if KeyOf(items[0].item) == KeyOf(x.item) then [ItemPositions(items[0].item, x.positions, x.count)] + items[1..]
    else [items[0]] + PutItem(items[1..], x)
  }

  /** `position_analysis` after the given items, in order; each item is searched for literally, ignoring case. */
  function ItemsAnalysis(rt: Runtime, content: string, items: seq<Json>, boundaries: Json): Result<seq<ItemPositions>, string>
    decreases |items|
  {
    if items == [] then Success([])
    else
      var before :- ItemsAnalysis(rt, content, items[..|items| - 1], boundaries);
      var entry :- ItemOutcome(rt, content, items[|items| - 1], boundaries);
      Success(PutItem(before, entry))
  }

  /** The entry of one search item, or what searching for it, placing its matches or hashing it raises. */
  function ItemOutcome(rt: Runtime, content: string, item: Json, boundaries: Json): (r: Result<ItemPositions, string>)
    ensures r.Success? ==> r.value.item == item && r.value.count == |r.value.positions| && Hashable(item)
  {
    var spans :- rt.regex.findIter(Regex.Escape(Str(item, rt.floatRepr)), content, true);
    var positions :- PositionsFor(content, spans, boundaries);
    if !Hashable(item) then Failure(UnhashableError(item))
    else Success(ItemPositions(item, positions, |positions|))
  }

  /** What `_analyze_line_positions` returns or raises. */
  function PositionsOutcome(rt: Runtime, files: map<string, UploadedFile>, input: seq<Field>): Result<ToolResult, string> {
    var filename := GetOr(input, "filename", JNull);
    var items := GetOr(input, "search_items", JArray([]));
    var boundaries := GetOr(input, "section_boundaries", JObject([]));
    var entry :- FileAnalyzerCli.FileLookup(files, filename);
    if entry.None? then Success(NotFound(rt, filename))
    else
      match Iterate(items)
      case None => Failure("'" + TypeName(items) + "' object is not iterable")
      case Some(xs) =>
        var analysis :- ItemsAnalysis(rt, entry.value.content, xs, boundaries);
        Success(PositionsAnalyzed(analysis, "Analyzed positions of " + IntToString(|xs|) + " items to determine categorization"))
  }

  /**
   * Every position is reported on a line of the file, with the section
   * `_determine_section_by_position` gives that line, one per match in the
   * engine's order.
   */
  lemma {:induction false} PositionsForFacts(content: string, spans: seq<Regex.Span>, boundaries: Json)
    requires PositionsFor(content, spans, boundaries).Success?
    ensures var ps := PositionsFor(content, spans, boundaries).value;
            var lines := Split(content, '\n');
            && |ps| == |spans|
            && forall k :: 0 <= k < |ps| ==>
                 && ps[k].positionInFile == spans[k].start
                 && 1 <= ps[k].lineNumber <= |lines|
                 && ps[k].lineNumber == LineNumberAt(content, spans[k].start)
                 && DetermineSection(ps[k].lineNumber, boundaries, |lines|) == Success(ps[k].determinedSection)
    decreases |spans|
  {
    if spans != [] {
      var front := spans[..|spans| - 1];
      var m := spans[|spans| - 1];
      var lines := Split(content, '\n');
      var ln := LineNumberAt(content, m.start);
      assert PositionsFor(content, front, boundaries).Success?;
      assert DetermineSection(ln, boundaries, |lines|).Success?;
      var before := PositionsFor(content, front, boundaries).value;
      var section := DetermineSection(ln, boundaries, |lines|).value;
      var ps := PositionsFor(content, spans, boundaries).value;
      assert ps == before + [Position(ln, Strip(LineAt(lines, ln)), section, m.start)];
      PositionsForFacts(content, front, boundaries);
      LineNumberInRange(content, m.start);
      forall k | 0 <= k < |ps|
        ensures && ps[k].positionInFile == spans[k].start
                && 1 <= ps[k].lineNumber <= |lines|
                && ps[k].lineNumber == LineNumberAt(content, spans[k].start)
                && DetermineSection(ps[k].lineNumber, boundaries, |lines|) == Success(ps[k].determinedSection)
      {
        if k < |before| {
          assert ps[k] == before[k] && front[k] == spans[k];
        }
      }
    }
  }

  // ---------------------------------------------------------------- run_command

  const SafePrefixes: seq<string> := ["grep", "wc", "head", "tail", "cat", "awk", "sed", "sort", "uniq", "cut", "find", "findstr"]

  /** `any(command.strip().startswith(cmd) for cmd in safe_commands)`: a test of the leading characters, not of the first word. */
  predicate Allowed(command: string) {
    exists k :: 0 <= k < |SafePrefixes| && StartsWith(Strip(command), SafePrefixes[k])
  }

  /** A text that holds the separator splits into at least two pieces. */
  lemma SplitAtSeparator(s: string, sep: char)
    requires sep in s
    ensures |Split(s, sep)| >= 2
  {
    var i := IndexOf(s, sep);
    assert i >= 0;
  }

  /** The pattern the grep simulation counts: the text between the first two quotes, or the second word. */
  function GrepPattern(command: string): Result<string, string> {
    if '\'' in command then
      SplitAtSeparator(command, '\'');
      Success(Split(command, '\'')[1])
    else if |Words(command)| >= 2 then Success(Words(command)[1])
    else Failure("list index out of range")
  }

  /** The Windows path for `grep`: count the pattern's matches in the stored text with Python's `re`. */
  function GrepSimulation(rt: Runtime, command: string, content: string): ToolResult {
    match GrepPattern(command)
    case Failure(e) => ErrorResult("Command execution failed: " + e)
    case Success(pattern) =>
      match rt.regex.findAll(pattern, content, true)
      case Failure(e) => ErrorResult("Command execution failed: " + e)
      case Success(found) => GrepSimulated(IntToString(|found|) + "\n", "Python grep simulation for: " + command)
  }

  /** `subprocess.run(command, shell=True, cwd=self.working_dir, timeout=30)` and what is made of its outcome. */
  function RunShell(rt: Runtime, command: string, workingDir: string): ToolResult {
    match rt.shell(command, workingDir)
    case Completed(out, err, code) => CommandRan(out, err, code, command)
    case TimedOut => ErrorResult("Command timed out")
    case Raised(e) => ErrorResult("Command execution failed: " + e)
  }

  /** The guarded part of `_run_command`, where every exception becomes an error result. */
  function AllowedOutcome(rt: Runtime, files: map<string, UploadedFile>, workingDir: string, command: string, filename: Json): ToolResult {
    if Truthy(filename) && !Hashable(filename) then ErrorResult("Command execution failed: " + UnhashableError(filename))
    else if Truthy(filename) && filename.JString? && filename.s in files then
      var file := files[filename.s];
      if StartsWith(Strip(command), "grep") && rt.platform == "win32" then GrepSimulation(rt, command, file.content)
      else RunShell(rt, Replace(command, filename.s, file.path), workingDir)
    else RunShell(rt, command, workingDir)
  }

  /** What `_run_command` returns or raises. */
  function CommandOutcome(rt: Runtime, files: map<string, UploadedFile>, workingDir: string, input: seq<Field>): Result<ToolResult, string> {
    var command := GetOr(input, "command", JString(""));
    var filename := GetOr(input, "filename", JNull);
    if !command.JString? then Failure("'" + TypeName(command) + "' object has no attribute 'strip'")
    else if !Allowed(command.s) then Success(ErrorResult("Command not allowed: " + command.s))
    else Success(AllowedOutcome(rt, files, workingDir, command.s, filename))
  }

  /** No outcome of an allowed command reads as a refusal. */
  lemma AllowedIsNotRefused(rt: Runtime, files: map<string, UploadedFile>, workingDir: string, command: string, filename: Json, other: string)
    ensures AllowedOutcome(rt, files, workingDir, command, filename) != ErrorResult("Command not allowed: " + other)
  {
    var refusal := "Command not allowed: " + other;
    assert refusal[8] == 'n';
    assert ("Command execution failed: " + other)[8] == 'e';
    assert forall e :: ("Command execution failed: " + e)[8] == 'e';
    assert "Command timed out"[8] == 't';
  }

  /**
   * A string command is refused exactly when its stripped text starts with
   * none of the 12 allowed prefixes; a command that is not a string raises,
   * and a missing one is the empty command, which is refused.
   */
  lemma RunCommandAllowList(rt: Runtime, files: map<string, UploadedFile>, workingDir: string, input: seq<Field>)
    ensures Lookup(input, "command").Some? && Lookup(input, "command").value.JString?
            ==> var command := Lookup(input, "command").value.s;
                (CommandOutcome(rt, files, workingDir, input) == Success(ErrorResult("Command not allowed: " + command))
                 <==> !Allowed(command))
    ensures Lookup(input, "command").None? ==> CommandOutcome(rt, files, workingDir, input) == Success(ErrorResult("Command not allowed: "))
    ensures Lookup(input, "command").Some? && !Lookup(input, "command").value.JString?
            ==> CommandOutcome(rt, files, workingDir, input).Failure?
  {
    if Lookup(input, "command").Some? && Lookup(input, "command").value.JString? {
      AllowedIsNotRefused(rt, files, workingDir, Lookup(input, "command").value.s, GetOr(input, "filename", JNull),
                          Lookup(input, "command").value.s);
    }
    if Lookup(input, "command").None? {
      assert Strip("") == "" by {
        StripFacts("");
      }
      assert !Allowed("");
      assert "Command not allowed: " + "" == "Command not allowed: ";
    }
  }

  /**
   * The allow-list looks at leading characters only: "grepx" and "findstr"
   * pass, and so does "cat;ls", which `FileAnalyzer` refuses because its
   * first word is not an allowed command.
   */
  lemma PrefixNotWord()
    ensures Allowed("grepx") && Allowed("findstr")
    ensures Allowed("cat;ls") && FileAnalyzerCli.Refusal("cat;ls").Some?
  {
    StripFacts("grepx");
    StripFacts("findstr");
    StripFacts("cat;ls");
    NoSpaceStrip("grepx");
    NoSpaceStrip("findstr");
    NoSpaceStrip("cat;ls");
    assert StartsWith("grepx", SafePrefixes[0]);
    assert StartsWith("findstr", SafePrefixes[10]);
    assert StartsWith("cat;ls", SafePrefixes[4]);
    FileAnalyzerCli.RefusalReadsFirstWordOnly("cat", []);
  }

  /** Stripping a text without white space leaves it as it is. */
  lemma NoSpaceStrip(s: string)
    requires forall k :: 0 <= k < |s| ==> !IsSpace(s[k])
    ensures Strip(s) == s
  {
    StripFacts(s);
    if s != [] {
      assert !IsSpace(s[0]) && !IsSpace(s[|s| - 1]);
    }
  }

  /**
   * With a stored file named, the shell is given the command with every
   * occurrence of the name replaced by the stored path, except for `grep`
   * on Windows, which counts the pattern's matches in the stored text
   * instead.
   */
  lemma StoredFileSubstituted(rt: Runtime, files: map<string, UploadedFile>, workingDir: string, command: string, name: string)
    requires Allowed(command) && name in files && name != ""
    ensures var file := files[name];
            var input := [Field("command", JString(command)), Field("filename", JString(name))];
            CommandOutcome(rt, files, workingDir, input)
            == Success(if StartsWith(Strip(command), "grep") && rt.platform == "win32" then GrepSimulation(rt, command, file.content)
                       else RunShell(rt, Replace(command, name, file.path), workingDir))
  {
    var input := [Field("command", JString(command)), Field("filename", JString(name))];
    assert input[1..] == [Field("filename", JString(name))];
    assert Lookup(input, "command") == Some(JString(command));
    assert Lookup(input, "filename") == Some(JString(name));
  }

  // ---------------------------------------------------------------- execute_tool

  /** The names `execute_tool` dispatches on. */
  const HandledTools: seq<string> :=
    ["view_file", "search_text", "find_document_sections", "extract_line_ranges", "analyze_line_positions", "run_command", "analyze_data"]

  /** The names `define_tools` offers the model. */
  const AdvertisedTools: seq<string> := ["view_file", "search_text", "find_sections", "analyze_positions", "run_command"]

  const NoAnalyzeData := "'SmartContextFileAnalyzer' object has no attribute '_analyze_data'"

  function Dispatch(rt: Runtime, files: map<string, UploadedFile>, workingDir: string, name: string, input: seq<Field>): Result<ToolResult, string> {
    if name == "view_file" then ViewOutcome(rt, files, input)
    else if name == "search_text" then SearchOutcome(rt, files, input)
    else if name == "find_document_sections" then SectionsOutcome(rt, files, input)
    else if name == "extract_line_ranges" then ExtractOutcome(rt, files, input)
    else if name == "analyze_line_positions" then PositionsOutcome(rt, files, input)
    else if name == "run_command" then CommandOutcome(rt, files, workingDir, input)
    else if name == "analyze_data" then Failure(NoAnalyzeData)
    else Success(ErrorResult("Unknown tool: " + name))
  }

  /** `execute_tool`: a raised exception becomes an error result. */
  function ToolOutcome(rt: Runtime, files: map<string, UploadedFile>, workingDir: string, name: string, input: seq<Field>): ToolResult {
    match Dispatch(rt, files, workingDir, name, input)
    case Success(r) => r
    case Failure(m) => ErrorResult("Tool execution failed: " + m)
  }

  /**
   * The advertised and the handled names disagree: the advertised
   * "find_sections" and "analyze_positions" are unknown tools, "analyze_data"
   * is handled but has no method behind it, and two handled tools are never
   * advertised. Any other unhandled name is unknown.
   */
  lemma DispatchMismatch(rt: Runtime, files: map<string, UploadedFile>, workingDir: string, input: seq<Field>, name: string)
    ensures ToolOutcome(rt, files, workingDir, "find_sections", input) == ErrorResult("Unknown tool: " + "find_sections")
    ensures ToolOutcome(rt, files, workingDir, "analyze_positions", input) == ErrorResult("Unknown tool: " + "analyze_positions")
    ensures ToolOutcome(rt, files, workingDir, "analyze_data", input) == ErrorResult("Tool execution failed: " + NoAnalyzeData)
    ensures name !in HandledTools ==> ToolOutcome(rt, files, workingDir, name, input) == ErrorResult("Unknown tool: " + name)
    ensures forall t :: t in AdvertisedTools && t in HandledTools <==> t in ["view_file", "search_text", "run_command"]
  {
    assert "find_sections" !in HandledTools;
    assert "analyze_positions" !in HandledTools;
  }

  // ---------------------------------------------------------------- the tool result kept in the conversation

  /**
   * The result put into the conversation: a search result whose JSON text
   * is longer than 3000 characters keeps its count and pattern and only its
   * first 5 matches, with the original number; anything else is kept whole.
   */
  function ForHistory(dumpedLength: nat, result: ToolResult): ToolResult {
    if dumpedLength > 3000 && result.Searched? then
      Truncated(result.count, result.pattern, Take(result.matches, 5), |result.matches|)
    else result
  }

  /** Truncation keeps the first five matches in order and records how many there were; short or match-less results pass unchanged. */
  lemma TruncationKeepsFirstFive(dumpedLength: nat, result: ToolResult)
    ensures dumpedLength <= 3000 || !result.Searched? ==> ForHistory(dumpedLength, result) == result
    ensures dumpedLength > 3000 && result.Searched? ==>
              var t := ForHistory(dumpedLength, result);
              && t.Truncated? && t.count == result.count && t.pattern == result.pattern
              && t.originalCount == |result.matches|
              && |t.matches| <= 5 && t.matches <= result.matches
              && (|result.matches| <= 5 ==> t.matches == result.matches)
  {
  }

  // ---------------------------------------------------------------- extract_line_ranges, step by step

  /** A failure on a prefix of the line numbers is the failure of the whole list. */
  lemma {:induction false} RangesOfFailure(lines: seq<string>, lns: seq<Json>, j: int, c: Json, floatRepr: FloatRepr)
    requires 0 <= j <= |lns| && RangesOf(lines, lns[..j], c, floatRepr).Failure?
    ensures RangesOf(lines, lns, c, floatRepr) == RangesOf(lines, lns[..j], c, floatRepr)
    decreases |lns| - j
  {
    if j < |lns| {
      assert lns[..j + 1][..j] == lns[..j];
      RangesOfFailure(lines, lns, j + 1, c, floatRepr);
    } else {
      assert lns[..j] == lns;
    }
  }

  /** The loop over `range(start_line - 1, end_line)`. */
  method CollectContextLines(lines: seq<string>, lo: int, hi: int, target: real) returns (out: seq<ContextLine>)
    requires 1 <= lo && hi <= |lines|
    ensures out == ContextLines(lines, lo, hi, target)
  {
    out := [];
    if hi < lo {
      return;
    }
    var i := lo - 1;
    while i < hi
      invariant lo - 1 <= i <= hi
      invariant out == ContextLines(lines, lo, i, target)
    {
      var next := ContextLines(lines, lo, i + 1, target);
      assert |next| == |out| + 1;
      assert forall k :: 0 <= k < |out| ==> next[k] == out[k];
      out := out + [ContextLine(i + 1, lines[i], (i + 1) as real == target)];
      assert out == next;
      i := i + 1;
    }
  }

  /** The body of the loop over the requested line numbers: one entry, or what Python raises. */
  method WindowEntry(lines: seq<string>, ln: Json, c: Json, floatRepr: FloatRepr) returns (e: Result<RangeEntry, string>)
    ensures e == EntryFor(lines, ln, c, floatRepr)
  {
    var n := |lines|;
    match AsNumber(ln)
    case None =>
      e := Failure(NotComparable(ln));
    case Some(v) =>
      if !(1.0 <= v && v <= n as real) {
        e := Success(OutOfRange(OutOfRangeText(ln, floatRepr)));
      } else {
        e := InRangeWindow(lines, ln, v, c);
      }
  }

  /** The window of a line number inside the file, built by `CollectContextLines`. */
  method InRangeWindow(lines: seq<string>, ln: Json, v: real, c: Json) returns (e: Result<RangeEntry, string>)
    ensures e == InRangeEntry(lines, ln, v, c)
  {
    var n := |lines|;
    match AsNumber(c)
    case None =>
      e := Failure(BadOperands(ln, c));
    case Some(cv) =>
      if AsInt(ln).Some? && AsInt(c).Some? {
        var l := AsInt(ln).value;
        var ci := AsInt(c).value;
        var lo := if l - ci > 1 then l - ci else 1;
        var hi := if l + ci < n then l + ci else n;
        var window := CollectContextLines(lines, lo, hi, l as real);
        e := Success(Window(lo, hi, window));
      } else if v - cv > 1.0 || v + cv < n as real {
        e := Failure(FloatBound);
      } else {
        var window := CollectContextLines(lines, 1, n, v);
        e := Success(Window(1, n, window));
      }
  }

  // ---------------------------------------------------------------- the match loops, step by step

  /** The loop of `_search_text` over the matches: one record per match, in order. */
  method CollectHits(content: string, spans: seq<Regex.Span>) returns (results: seq<SearchHit>)
    ensures results == Hits(content, spans)
  {
    var lines := Split(content, '\n');
    results := [];
    var i := 0;
    while i < |spans|
      invariant 0 <= i <= |spans|
      invariant |results| == i
      invariant forall k :: 0 <= k < i ==> results[k] == Hit(content, lines, spans[k])
    {
      var m := spans[i];
      var ln := LineNumberAt(content, m.start);
      var hit := SearchHit(m.text, ln, Strip(LineAt(lines, ln)), m.start, m.end);
      assert hit == Hit(content, lines, m);
      results := results + [hit];
      i := i + 1;
    }
    assert results == Hits(content, spans);
  }

  /** The loop over `range(context_start, context_end)`: the numbered lines around line `ln`, joined. */
  method CollectContext(lines: seq<string>, ln: int) returns (context: string)
    ensures context == ContextBlock(lines, ln)
  {
    var lo := ContextStart(ln);
    var hi := ContextEnd(lines, ln);
    var parts: seq<string> := [];
    if lo < hi {
      var i := lo;
      while i < hi
        invariant lo <= i <= hi
        invariant parts == NumberedLines(lines, lo, i)
      {
        parts := parts + [ContextLineText(lines, i)];
        i := i + 1;
      }
    }
    context := Join(parts, "\n");
  }

  /** One match's entry of `section_info`: its line number, the stripped line and the context loop's block. */
  method LocateMatch(content: string, lines: seq<string>, m: Regex.Span) returns (location: Location)
    ensures location == Locate(content, lines, m)
  {
    var ln := LineNumberAt(content, m.start);
    var context := CollectContext(lines, ln);
    location := Location(ln, Strip(LineAt(lines, ln)), context);
  }

  /** The inner loop of `_find_document_sections`: one location per match of a marker, in order. */
  method CollectLocations(content: string, spans: seq<Regex.Span>) returns (info: seq<Location>)
    ensures info == Locations(content, spans)
  {
    var lines := Split(content, '\n');
    info := [];
    var i := 0;
    while i < |spans|
      invariant 0 <= i <= |spans|
      invariant info == Locations(content, spans[..i])
    {
      var location := LocateMatch(content, lines, spans[i]);
      LocationsSnoc(content, spans, i);
      info := info + [location];
      i := i + 1;
    }
    assert spans[..i] == spans;
  }

  /** The locations of one more match are the earlier ones and that match's own. */
  lemma LocationsSnoc(content: string, spans: seq<Regex.Span>, i: int)
    requires 0 <= i < |spans|
    ensures Locations(content, spans[..i + 1])
            == Locations(content, spans[..i]) + [Locate(content, Split(content, '\n'), spans[i])]
  {
    var a := Locations(content, spans[..i + 1]);
    var b := Locations(content, spans[..i]) + [Locate(content, Split(content, '\n'), spans[i])];
    assert forall k :: 0 <= k < |a| ==> a[k] == b[k];
  }

  /** A failure on a prefix of the markers is the failure of the whole list. */
  lemma {:induction false} SectionsOfFailure(rt: Runtime, content: string, markers: seq<Json>, j: int)
    requires 0 <= j <= |markers| && SectionsOf(rt, content, markers[..j]).Failure?
    ensures SectionsOf(rt, content, markers) == SectionsOf(rt, content, markers[..j])
    decreases |markers| - j
  {
    if j < |markers| {
      assert markers[..j + 1][..j] == markers[..j];
      SectionsOfFailure(rt, content, markers, j + 1);
    } else {
      assert markers[..j] == markers;
    }
  }

  /** One turn of the loop over the markers: a marker that is not a string, or a failing search, ends it; a found marker is put in. */
  lemma SectionsOfStep(rt: Runtime, content: string, markers: seq<Json>, i: int, sections: seq<Section>)
    requires 0 <= i < |markers| && SectionsOf(rt, content, markers[..i]) == Success(sections)
    ensures var marker := MarkerText(markers[i]);
            && (marker.Failure? ==> SectionsOf(rt, content, markers) == Failure(marker.error))
            && (marker.Success? ==>
                  var found := rt.regex.findIter(Regex.WordPattern(marker.value), content, true);
                  && (found.Failure? ==> SectionsOf(rt, content, markers) == Failure(found.error))
                  && (found.Success? ==> SectionsOf(rt, content, markers[..i + 1])
                                         == Success(if found.value == [] then sections
                                                    else PutSection(sections, Section(marker.value, |found.value|, Locations(content, found.value))))))
  {
    assert markers[..i + 1][..i] == markers[..i];
    var marker := MarkerText(markers[i]);
    if marker.Failure? || rt.regex.findIter(Regex.WordPattern(marker.value), content, true).Failure? {
      SectionsOfFailure(rt, content, markers, i + 1);
    }
  }

  /** The outer loop of `_find_document_sections`, over the markers. */
  method CollectSections(rt: Runtime, content: string, markers: seq<Json>) returns (r: Result<seq<Section>, string>)
    ensures r == SectionsOf(rt, content, markers)
  {
    var sections: seq<Section> := [];
    var i := 0;
    while i < |markers|
      invariant 0 <= i <= |markers|
      invariant SectionsOf(rt, content, markers[..i]) == Success(sections)
    {
      SectionsOfStep(rt, content, markers, i, sections);
      var marker := MarkerText(markers[i]);
      if marker.Failure? {
        return Failure(marker.error);
      }
      var found := rt.regex.findIter(Regex.WordPattern(marker.value), content, true);
      if found.Failure? {
        return Failure(found.error);
      }
      if found.value != [] {
        var info := CollectLocations(content, found.value);
        sections := PutSection(sections, Section(marker.value, |info|, info));
      }
      i := i + 1;
    }
    assert markers[..i] == markers;
    r := Success(sections);
  }

  /** The loop over `section_boundaries.items()`: the first boundary that holds the line, or what comparing raises. */
  method ScanBoundaries(fields: seq<Field>, ln: int) returns (r: Result<Option<string>, string>)
    ensures r == FirstBoundary(fields, ln)
  {
    var i := 0;
    while i < |fields|
      invariant 0 <= i <= |fields|
      invariant FirstBoundary(fields, ln) == FirstBoundary(fields[i..], ln)
    {
      assert fields[i..][1..] == fields[i + 1..];
      var b := fields[i].value;
      if b.JObject? && HasKey(b, "start") && HasKey(b, "end") {
        var lo := Lookup(b.fields, "start").value;
        var hi := Lookup(b.fields, "end").value;
        if AsNumber(lo).None? {
          return Failure("'<=' not supported between instances of '" + TypeName(lo) + "' and 'int'");
        }
        if AsNumber(lo).value <= ln as real {
          if AsNumber(hi).None? {
            return Failure("'<=' not supported between instances of 'int' and '" + TypeName(hi) + "'");
          }
          if ln as real <= AsNumber(hi).value {
            return Success(Some(fields[i].key));
          }
        }
      }
      i := i + 1;
    }
    r := Success(None);
  }

  /** `_determine_section_by_position`. */
  method DetermineSectionByPosition(ln: int, boundaries: Json, total: nat) returns (r: Result<string, string>)
    ensures r == DetermineSection(ln, boundaries, total)
  {
    if Truthy(boundaries) {
      if !boundaries.JObject? {
        return Failure("'" + TypeName(boundaries) + "' object has no attribute 'items'");
      }
      var found := ScanBoundaries(boundaries.fields, ln);
      if found.Failure? {
        return Failure(found.error);
      }
      if found.value.Some? {
        return Success(found.value.value);
      }
    }
    r := Success(PositionLabel(ln, total));
  }

  /** A failure on a prefix of the matches is the failure of the whole list. */
  lemma {:induction false} PositionsForFailure(content: string, spans: seq<Regex.Span>, boundaries: Json, j: int)
    requires 0 <= j <= |spans| && PositionsFor(content, spans[..j], boundaries).Failure?
    ensures PositionsFor(content, spans, boundaries) == PositionsFor(content, spans[..j], boundaries)
    decreases |spans| - j
  {
    if j < |spans| {
      assert spans[..j + 1][..j] == spans[..j];
      PositionsForFailure(content, spans, boundaries, j + 1);
    } else {
      assert spans[..j] == spans;
    }
  }

  /** One turn of the loop over an item's matches: a section that cannot be determined ends it, any other match is placed. */
  lemma PositionsForStep(content: string, spans: seq<Regex.Span>, boundaries: Json, i: int, positions: seq<Position>)
    requires 0 <= i < |spans| && PositionsFor(content, spans[..i], boundaries) == Success(positions)
    ensures var lines := Split(content, '\n');
            var ln := LineNumberAt(content, spans[i].start);
            var section := DetermineSection(ln, boundaries, |lines|);
            && (section.Failure? ==> PositionsFor(content, spans, boundaries) == Failure(section.error))
            && (section.Success? ==> PositionsFor(content, spans[..i + 1], boundaries)
                                     == Success(positions + [Position(ln, Strip(LineAt(lines, ln)), section.value, spans[i].start)]))
  {
    assert spans[..i + 1][..i] == spans[..i];
    var ln := LineNumberAt(content, spans[i].start);
    if DetermineSection(ln, boundaries, |Split(content, '\n')|).Failure? {
      PositionsForFailure(content, spans, boundaries, i + 1);
    }
  }

  /** The inner loop of `_analyze_line_positions`: one position per match of an item, in order. */
  method CollectPositions(content: string, spans: seq<Regex.Span>, boundaries: Json) returns (r: Result<seq<Position>, string>)
    ensures r == PositionsFor(content, spans, boundaries)
  {
    var lines := Split(content, '\n');
    var positions: seq<Position> := [];
    var i := 0;
    while i < |spans|
      invariant 0 <= i <= |spans|
      invariant PositionsFor(content, spans[..i], boundaries) == Success(positions)
    {
      var m := spans[i];
      var ln := LineNumberAt(content, m.start);
      var section := DetermineSectionByPosition(ln, boundaries, |lines|);
      PositionsForStep(content, spans, boundaries, i, positions);
      if section.Failure? {
        return Failure(section.error);
      }
      positions := positions + [Position(ln, Strip(LineAt(lines, ln)), section.value, m.start)];
      i := i + 1;
    }
    assert spans[..i] == spans;
    r := Success(positions);
  }

  /** A failure on a prefix of the items is the failure of the whole list. */
  lemma {:induction false} ItemsAnalysisFailure(rt: Runtime, content: string, items: seq<Json>, boundaries: Json, j: int)
    requires 0 <= j <= |items| && ItemsAnalysis(rt, content, items[..j], boundaries).Failure?
    ensures ItemsAnalysis(rt, content, items, boundaries) == ItemsAnalysis(rt, content, items[..j], boundaries)
    decreases |items| - j
  {
    if j < |items| {
      assert items[..j + 1][..j] == items[..j];
      ItemsAnalysisFailure(rt, content, items, boundaries, j + 1);
    } else {
      assert items[..j] == items;
    }
  }

  /** The body of the loop over the search items: the item's entry, built by `CollectPositions`. */
  method ItemEntry(rt: Runtime, content: string, item: Json, boundaries: Json) returns (r: Result<ItemPositions, string>)
    ensures r == ItemOutcome(rt, content, item, boundaries)
  {
    var found := rt.regex.findIter(Regex.Escape(Str(item, rt.floatRepr)), content, true);
    if found.Failure? {
      return Failure(found.error);
    }
    var positions := CollectPositions(content, found.value, boundaries);
    if positions.Failure? {
      return Failure(positions.error);
    }
    if !Hashable(item) {
      return Failure(UnhashableError(item));
    }
    r := Success(ItemPositions(item, positions.value, |positions.value|));
  }

  /** The keys of `position_analysis`. */
  function ItemKeys(items: seq<ItemPositions>): (r: seq<Key>)
    ensures |r| == |items|
  {
    seq(|items|, k requires 0 <= k < |items| => KeyOf(items[k].item))
  }

  /** Putting an item in keeps the keys distinct and adds its key, and no other. */
  lemma {:induction false} PutItemKeys(items: seq<ItemPositions>, x: ItemPositions)
    requires Distinct(ItemKeys(items))
    ensures Distinct(ItemKeys(PutItem(items, x)))
    ensures forall y :: y in ItemKeys(PutItem(items, x)) <==> y in ItemKeys(items) || y == KeyOf(x.item)
    decreases |items|
  {
    var r := PutItem(items, x);
    if items != [] {
      var tail := items[1..];
      assert ItemKeys(items) == [KeyOf(items[0].item)] + ItemKeys(tail);
      DistinctCons(KeyOf(items[0].item), ItemKeys(tail));
      if KeyOf(items[0].item) == KeyOf(x.item) {
        assert ItemKeys(r) == [KeyOf(x.item)] + ItemKeys(tail);
      } else {
        PutItemKeys(tail, x);
        var rest := PutItem(tail, x);
        assert r == [items[0]] + rest;
        assert ItemKeys(r) == [KeyOf(items[0].item)] + ItemKeys(rest);
        DistinctCons(KeyOf(items[0].item), ItemKeys(rest));
      }
    } else {
      assert ItemKeys(r) == [KeyOf(x.item)];
    }
  }

  /** Putting an item in replaces the positions of its key, or adds them; every other entry stays as it was. */
  lemma {:induction false} PutItemEntries(items: seq<ItemPositions>, x: ItemPositions, i: int)
    requires Distinct(ItemKeys(items)) && 0 <= i < |PutItem(items, x)|
    ensures var r := PutItem(items, x)[i];
            && (KeyOf(r.item) == KeyOf(x.item) ==> r.positions == x.positions && r.count == x.count)
            && (KeyOf(r.item) != KeyOf(x.item) ==> r in items)
    decreases |items|
  {
    if items != [] && KeyOf(items[0].item) != KeyOf(x.item) {
      if i > 0 {
        assert ItemKeys(items) == [KeyOf(items[0].item)] + ItemKeys(items[1..]);
        DistinctCons(KeyOf(items[0].item), ItemKeys(items[1..]));
        PutItemEntries(items[1..], x, i - 1);
        assert PutItem(items, x)[i] == PutItem(items[1..], x)[i - 1];
        assert forall y :: y in items[1..] ==> y in items;
      } else {
        assert PutItem(items, x)[0] == items[0];
      }
    } else if items != [] && i > 0 {
      assert PutItem(items, x)[i] == items[i];
      assert ItemKeys(items)[0] != ItemKeys(items)[i];
    }
  }

  /** An item that is put in carries its own positions and their number. */
  predicate FromLastOccurrence(rt: Runtime, content: string, items: seq<Json>, boundaries: Json, e: ItemPositions) {
    var k := LastKeyIndex(items, KeyOf(e.item));
    && 0 <= k
    && ItemOutcome(rt, content, items[k], boundaries).Success?
    && ItemOutcome(rt, content, items[k], boundaries).value.positions == e.positions
    && e.count == |e.positions|
  }

  /**
   * `position_analysis` has one entry per distinct search item (`1`, `1.0`
   * and `True` share one), at most as many as there are items; each entry
   * holds the positions found for the last occurrence of its item, and
   * `count` is their number.
   */
  lemma {:induction false} ItemsAnalysisKeys(rt: Runtime, content: string, items: seq<Json>, boundaries: Json)
    requires ItemsAnalysis(rt, content, items, boundaries).Success?
    ensures var analysis := ItemsAnalysis(rt, content, items, boundaries).value;
            && Distinct(ItemKeys(analysis))
            && |analysis| <= |items|
            && (forall x :: x in ItemKeys(analysis) <==> exists k :: 0 <= k < |items| && KeyOf(items[k]) == x)
            && forall i :: 0 <= i < |analysis| ==> FromLastOccurrence(rt, content, items, boundaries, analysis[i])
    decreases |items|
  {
    if items != [] {
      var front := items[..|items| - 1];
      ItemsAnalysisKeys(rt, content, front, boundaries);
      var before := ItemsAnalysis(rt, content, front, boundaries).value;
      var entry := ItemOutcome(rt, content, items[|items| - 1], boundaries).value;
      PutItemKeys(before, entry);
      var analysis := ItemsAnalysis(rt, content, items, boundaries).value;
      assert analysis == PutItem(before, entry);
      forall x ensures x in ItemKeys(analysis) <==> exists k :: 0 <= k < |items| && KeyOf(items[k]) == x {
        KeyOfSnoc(items, front, x);
      }
      forall i | 0 <= i < |analysis| ensures FromLastOccurrence(rt, content, items, boundaries, analysis[i]) {
        ItemsAnalysisEntry(rt, content, items, front, boundaries, before, entry, i);
      }
    }
  }

  /** One entry of `position_analysis` after one more search item. */
  lemma ItemsAnalysisEntry(rt: Runtime, content: string, items: seq<Json>, front: seq<Json>, boundaries: Json,
                           before: seq<ItemPositions>, x: ItemPositions, i: int)
    requires items != [] && front == items[..|items| - 1]
    requires ItemOutcome(rt, content, items[|items| - 1], boundaries) == Success(x)
    requires Distinct(ItemKeys(before))
    requires forall i :: 0 <= i < |before| ==> FromLastOccurrence(rt, content, front, boundaries, before[i])
    requires 0 <= i < |PutItem(before, x)|
    ensures FromLastOccurrence(rt, content, items, boundaries, PutItem(before, x)[i])
  {
    var r := PutItem(before, x)[i];
    var y := KeyOf(r.item);
    PutItemEntries(before, x, i);
    LastKeyIndexSnoc(items, front, y);
    if y != KeyOf(x.item) {
      var j :| 0 <= j < |before| && before[j] == r;
      assert FromLastOccurrence(rt, content, front, boundaries, before[j]);
      var k := LastKeyIndex(front, y);
      assert items[k] == front[k];
    }
  }

  /** One turn of the loop over the search items: a failing item ends the analysis, any other is put in. */
  lemma ItemsAnalysisStep(rt: Runtime, content: string, items: seq<Json>, boundaries: Json, i: int, analysis: seq<ItemPositions>)
    requires 0 <= i < |items| && ItemsAnalysis(rt, content, items[..i], boundaries) == Success(analysis)
    ensures var entry := ItemOutcome(rt, content, items[i], boundaries);
            && (entry.Failure? ==> ItemsAnalysis(rt, content, items, boundaries) == Failure(entry.error))
            && (entry.Success? ==> ItemsAnalysis(rt, content, items[..i + 1], boundaries) == Success(PutItem(analysis, entry.value)))
  {
    assert items[..i + 1][..i] == items[..i];
    if ItemOutcome(rt, content, items[i], boundaries).Failure? {
      ItemsAnalysisFailure(rt, content, items, boundaries, i + 1);
    }
  }

  /** The outer loop of `_analyze_line_positions`, over the search items. */
  method CollectItems(rt: Runtime, content: string, items: seq<Json>, boundaries: Json) returns (r: Result<seq<ItemPositions>, string>)
    ensures r == ItemsAnalysis(rt, content, items, boundaries)
  {
    var analysis: seq<ItemPositions> := [];
    var i := 0;
    while i < |items|
      invariant 0 <= i <= |items|
      invariant ItemsAnalysis(rt, content, items[..i], boundaries) == Success(analysis)
    {
      var entry := ItemEntry(rt, content, items[i], boundaries);
      ItemsAnalysisStep(rt, content, items, boundaries, i, analysis);
      if entry.Failure? {
        return Failure(entry.error);
      }
      analysis := PutItem(analysis, entry.value);
      i := i + 1;
    }
    assert items[..i] == items;
    r := Success(analysis);
  }

  // ---------------------------------------------------------------- the analyzer

  /** The first loop of `trim_conversation_with_summary`: the last system message, and the others in order. */
  method SeparateSystem(messages: seq<Message>) returns (system: Option<Message>, conv: seq<Message>)
    ensures system == LastSystem(messages)
    ensures conv == Others(messages)
  {
    system := None;
    conv := [];
    var i := 0;
    while i < |messages|
      invariant 0 <= i <= |messages|
      invariant system == LastSystem(messages[..i])
      invariant conv == Others(messages[..i])
    {
      assert messages[..i + 1][..i] == messages[..i];
      if IsSystem(messages[i]) {
        system := Some(messages[i]);
      } else {
        conv := conv + [messages[i]];
      }
      i := i + 1;
    }
    assert messages[..i] == messages;
  }

  class SmartContextFileAnalyzer {
    const workingDir: string
    var uploadedFiles: map<string, UploadedFile>
    var analysisState: AnalysisState

    constructor(workingDir: string)
      ensures this.workingDir == workingDir
      ensures uploadedFiles == map[] && analysisState == InitialState
    {
      this.workingDir := workingDir;
      uploadedFiles := map[];
      analysisState := InitialState;
    }

    /** `upload_file`, as in `FileAnalyzer`: the text is stored under the file's base name. */
    method UploadFile(filePath: string, content: Option<string>) returns (r: Result<string, string>)
      modifies this
      ensures content.None? ==> r == Failure("File not found: " + filePath) && uploadedFiles == old(uploadedFiles)
      ensures content.Some? ==>
                && r == Success(content.value)
                && var name := FileAnalyzerCli.BaseName(filePath);
                   uploadedFiles == old(uploadedFiles)[name :=
                     FileAnalyzerCli.UploadedFile(FileAnalyzerCli.PathJoin(workingDir, name), content.value, |content.value|)]
      ensures analysisState == old(analysisState)
    {
      if content.None? {
        return Failure("File not found: " + filePath);
      }
      var filename := FileAnalyzerCli.BaseName(filePath);
      var destPath := FileAnalyzerCli.PathJoin(workingDir, filename);
      uploadedFiles := uploadedFiles[filename := FileAnalyzerCli.UploadedFile(destPath, content.value, |content.value|)];
      r := Success(content.value);
    }

    /** `_extract_line_ranges`, with its loops. */
    method ExtractLineRanges(rt: Runtime, input: seq<Field>) returns (r: Result<ToolResult, string>)
      ensures r == ExtractOutcome(rt, uploadedFiles, input)
    {
      var filename := GetOr(input, "filename", JNull);
      var lineNumbers := GetOr(input, "line_numbers", JArray([]));
      var c := GetOr(input, "context_lines", JInt(10));
      var entry :- FileAnalyzerCli.FileLookup(uploadedFiles, filename);
      if entry.None? {
        return Success(NotFound(rt, filename));
      }
      var lines := Split(entry.value.content, '\n');
      var iterated := Iterate(lineNumbers);
      if iterated.None? {
        return Failure("'" + TypeName(lineNumbers) + "' object is not iterable");
      }
      var lns := iterated.value;
      var ranges: seq<Extracted> := [];
      var i := 0;
      while i < |lns|
        invariant 0 <= i <= |lns|
        invariant RangesOf(lines, lns[..i], c, rt.floatRepr) == Success(ranges)
      {
        var e := WindowEntry(lines, lns[i], c, rt.floatRepr);
        assert lns[..i + 1][..i] == lns[..i];
        if e.Failure? {
          RangesOfFailure(lines, lns, i + 1, c, rt.floatRepr);
          return Failure(e.error);
        }
        ranges := PutRange(ranges, Extracted(lns[i], e.value));
        i := i + 1;
      }
      assert lns[..i] == lns;
      r := Success(RangesExtracted(ranges, |ranges|));
    }

    /** `_search_text`, with its loop over the matches. */
    method SearchText(rt: Runtime, input: seq<Field>) returns (r: Result<ToolResult, string>)
      ensures r == SearchOutcome(rt, uploadedFiles, input)
    {
      var filename := GetOr(input, "filename", JNull);
      var pattern := GetOr(input, "pattern", JNull);
      var caseSensitive := GetOr(input, "case_sensitive", JBool(false));
      var countOnly := GetOr(input, "count_only", JBool(false));
      var entry :- FileAnalyzerCli.FileLookup(uploadedFiles, filename);
      if entry.None? {
        return Success(NotFound(rt, filename));
      }
      if !pattern.JString? {
        return Failure(FileAnalyzerCli.PatternTypeError(pattern));
      }
      var content := entry.value.content;
      var found := rt.regex.findIter(pattern.s, content, !Truthy(caseSensitive));
      if found.Failure? {
        return Success(ErrorResult("Invalid regex pattern: " + found.error));
      }
      var spans := found.value;
      if Truthy(countOnly) {
        return Success(MatchCount(|spans|, pattern.s));
      }
      var results := CollectHits(content, spans);
      r := Success(Searched(results, |spans|, pattern.s, Suggestion(|spans|, pattern.s)));
    }

    /** `_find_document_sections`, with its loops. */
    method FindDocumentSections(rt: Runtime, input: seq<Field>) returns (r: Result<ToolResult, string>)
      ensures r == SectionsOutcome(rt, uploadedFiles, input)
    {
      var filename := GetOr(input, "filename", JNull);
      var markers := GetOr(input, "section_markers", JArray(DefaultMarkers));
      var entry :- FileAnalyzerCli.FileLookup(uploadedFiles, filename);
      if entry.None? {
        return Success(NotFound(rt, filename));
      }
      var content := entry.value.content;
      var iterated := Iterate(markers);
      if iterated.None? {
        return Failure("'" + TypeName(markers) + "' object is not iterable");
      }
      var sections :- CollectSections(rt, content, iterated.value);
      r := Success(SectionsFound(sections, |Split(content, '\n')|));
    }

    /** `_analyze_line_positions`, with its loops. */
    method AnalyzeLinePositions(rt: Runtime, input: seq<Field>) returns (r: Result<ToolResult, string>)
      ensures r == PositionsOutcome(rt, uploadedFiles, input)
    {
      var filename := GetOr(input, "filename", JNull);
      var items := GetOr(input, "search_items", JArray([]));
      var boundaries := GetOr(input, "section_boundaries", JObject([]));
      var entry :- FileAnalyzerCli.FileLookup(uploadedFiles, filename);
      if entry.None? {
        return Success(NotFound(rt, filename));
      }
      var iterated := Iterate(items);
      if iterated.None? {
        return Failure("'" + TypeName(items) + "' object is not iterable");
      }
      var xs := iterated.value;
      var analysis :- CollectItems(rt, entry.value.content, xs, boundaries);
      r := Success(PositionsAnalyzed(analysis, "Analyzed positions of " + IntToString(|xs|) + " items to determine categorization"));
    }

    /** `execute_tool`. */
    method ExecuteTool(rt: Runtime, name: string, input: seq<Field>) returns (r: ToolResult)
      ensures r == ToolOutcome(rt, uploadedFiles, workingDir, name, input)
    {
      var out: Result<ToolResult, string>;
      if name == "search_text" {
        out := SearchText(rt, input);
      } else if name == "find_document_sections" {
        out := FindDocumentSections(rt, input);
      } else if name == "extract_line_ranges" {
        out := ExtractLineRanges(rt, input);
      } else if name == "analyze_line_positions" {
        out := AnalyzeLinePositions(rt, input);
      } else {
        out := Dispatch(rt, uploadedFiles, workingDir, name, input);
      }
      r := match out
        case Success(x) => x
        case Failure(m) => ErrorResult("Tool execution failed: " + m);
    }

    /**
     * `create_conversation_summary`: collects the findings and tool results
     * of the messages, appends them to `analysis_state`, and returns the
     * summary line.
     */
    method CreateConversationSummary(parse: Parser, floatRepr: FloatRepr, messages: seq<Message>) returns (summary: string)
      modifies this
      ensures summary == Summary(parse, floatRepr, messages)
      ensures analysisState == old(analysisState).(findings := old(analysisState.findings) + Findings(messages),
                                                   toolResults := old(analysisState.toolResults) + ToolNotes(parse, floatRepr, messages))
      ensures uploadedFiles == old(uploadedFiles)
    {
      var note := NoteOf(parse, floatRepr);
      var findings: seq<string> := [];
      var toolResults: seq<string> := [];
      var i := 0;
      while i < |messages|
        invariant 0 <= i <= |messages|
        invariant findings == Collect(FindingOf, messages[..i])
        invariant toolResults == Collect(note, messages[..i])
        invariant analysisState == old(analysisState) && uploadedFiles == old(uploadedFiles)
      {
        var msg := messages[i];
        var f := FindingOf(msg);
        if f.Some? {
          findings := findings + [f.value];
        }
        var t := ToolNoteOf(parse, floatRepr, msg);
        if t.Some? {
          toolResults := toolResults + [t.value];
        }
        CollectSnoc(FindingOf, messages, i);
        CollectSnoc(note, messages, i);
        i := i + 1;
      }
      assert messages[..i] == messages;
      summary := SummaryText(findings, toolResults);
      analysisState := analysisState.(findings := analysisState.findings + findings,
                                       toolResults := analysisState.toolResults + toolResults);
    }

    /**
     * The branch of `trim_conversation_with_summary` that chooses the kept
     * non-system messages, summarising the middle of a long conversation.
     */
    method KeepRecent(parse: Parser, floatRepr: FloatRepr, conv: seq<Message>) returns (trimmed: seq<Message>)
      modifies this
      ensures trimmed == Kept(parse, floatRepr, conv)
      ensures analysisState == if |conv| > 10
                               then old(analysisState).(findings := old(analysisState.findings) + Findings(Middle(conv)),
                                                        toolResults := old(analysisState.toolResults)
                                                                       + ToolNotes(parse, floatRepr, Middle(conv)))
                               else old(analysisState)
      ensures uploadedFiles == old(uploadedFiles)
    {
      if |conv| > 10 {
        var start := conv[..3];
        var end := conv[|conv| - 5..];
        var middle := conv[3..|conv| - 5];
        assert middle == Middle(conv);
        var text := CreateConversationSummary(parse, floatRepr, middle);
        trimmed := start + [SummaryMessage(text)] + end;
      } else {
        trimmed := Slice(conv, -8, |conv|);
      }
    }

    /**
     * `trim_conversation_with_summary`: separates the last system message
     * from the rest, keeps the first 3 and last 5 of more than 10 others
     * around a summary of the middle (which `analysis_state` records), or
     * the last 8 of fewer.
     */
    method TrimConversationWithSummary(parse: Parser, floatRepr: FloatRepr, messages: seq<Message>) returns (result: seq<Message>)
      modifies this
      ensures result == Trim(parse, floatRepr, messages)
      ensures var conv := Others(messages);
              analysisState == if |conv| > 10
                               then old(analysisState).(findings := old(analysisState.findings) + Findings(Middle(conv)),
                                                        toolResults := old(analysisState.toolResults)
                                                                       + ToolNotes(parse, floatRepr, Middle(conv)))
                               else old(analysisState)
      ensures uploadedFiles == old(uploadedFiles)
    {
      var system, conv := SeparateSystem(messages);
      var trimmed := KeepRecent(parse, floatRepr, conv);
      result := [];
      if system.Some? {
        result := result + [system.value];
      }
      result := result + trimmed;
    }
  }
}
