/**
 * `test.py`: the command-line `FileAnalyzer`. A language model answers
 * questions about an uploaded text file by calling four tools: view
 * numbered lines, search with a regular expression, run an allow-listed
 * shell command, and count or tally a list of values. The model and its
 * tool-calling loop are not modelled; a tool call arrives as a tool name and
 * the JSON object of its arguments, and its result is the dict the tool
 * returns.
 */
module FileAnalyzerCli {
  import opened Wrappers
  import opened Text
  import opened Json
  import Regex

  /** An entry of `uploaded_files`: where the copy lives, its text and `len(content)`. */
  datatype UploadedFile = UploadedFile(path: string, content: string, size: nat)

  /** What `subprocess.run(command, shell=True, cwd=..., capture_output=True, text=True, timeout=30)` does. */
  datatype ShellOutcome = Completed(stdout: string, stderr: string, returnCode: int) | TimedOut | Raised(message: string)

  /** The shell, given the command line and the working directory. */
  type Shell = (string, string) -> ShellOutcome

  /** What the tools use of the world outside the script: the `re` module, the shell, and `repr` of floats. */
  datatype Runtime = Runtime(regex: Regex.Engine, shell: Shell, floatRepr: FloatRepr)

  /** One entry of the `frequency` dict: the first item seen with its key, and how often the key occurs. */
  datatype Tally = Tally(item: Json, count: nat)

  /** The dict a tool returns. */
  datatype ToolResult =
    | ErrorResult(error: string)
    | Viewed(content: string, totalLines: nat, fileSize: nat)
    | CountOnly(count: nat)
    | Searched(matches: seq<Json>, matchingLines: seq<string>, count: nat, lineCount: nat)
    | CommandRan(stdout: string, stderr: string, returnCode: int)
    | DataCount(count: nat, uniqueCount: nat)
    | Frequency(frequency: seq<Tally>, total: nat)
    | DataSummary(totalItems: nat, uniqueItems: nat, sample: Json)

  // ---------------------------------------------------------------- arguments

  /** `tool_input[key]`: the value, or the text of the `KeyError` (the quoted key). */
  function Arg(input: seq<Field>, key: string): (r: Result<Json, string>)
    ensures r.Failure? <==> Lookup(input, key).None?
    ensures r.Failure? ==> r.error == StrRepr(key)
  {
    match Lookup(input, key)
    case Some(v) => Success(v)
    case None => Failure(StrRepr(key))
  }

  /**
   * `filename not in self.uploaded_files` and the lookup after it: the entry
   * of a string name, nothing for any other hashable value, and the
   * `TypeError` for a list or a dict.
   */
  function FileLookup(files: map<string, UploadedFile>, filename: Json): (r: Result<Option<UploadedFile>, string>)
    ensures r.Failure? <==> !Hashable(filename)
    ensures r.Success? && r.value.Some? <==> filename.JString? && filename.s in files
    ensures r.Success? && r.value.Some? ==> r.value.value == files[filename.s]
  {
    if !Hashable(filename) then Failure(UnhashableError(filename))
    else if filename.JString? && filename.s in files then Success(Some(files[filename.s]))
    else Success(None)
  }

  /** `{"error": f"File not found: {filename}"}`. */
  function NotFound(rt: Runtime, filename: Json): ToolResult {
    ErrorResult("File not found: " + Str(filename, rt.floatRepr))
  }

  // ---------------------------------------------------------------- view_file

  /** `f"{num:5d}\t{line}"`. */
  function NumberedLine(num: int, line: string): string {
    Format5(num) + "\t" + line
  }

  /** The lines, numbered consecutively from `first`. */
  function Numbered(lines: seq<string>, first: int): (r: seq<string>)
    ensures |r| == |lines|
  {
    seq(|lines|, i requires 0 <= i < |lines| => NumberedLine(first + i, lines[i]))
  }

  /** Python's `max(1, x)` on a number: `x` itself only when `x > 1`. */
  function Max1(x: Json): (r: Json)
    requires AsNumber(x).Some?
  {
    if AsNumber(x).value > 1.0 then x else JInt(1)
  }

  /** Python's `min(n, x)` on a number: `x` itself only when `x < n`. */
  function MinN(n: nat, x: Json): (r: Json)
    requires AsNumber(x).Some?
  {
    if AsNumber(x).value < n as real then x else JInt(n)
  }

  /** The text of the `TypeError` a comparison of a non-number with an `int` raises. */
  function Unordered(op: string, x: Json): string {
    "'" + op + "' not supported between instances of '" + TypeName(x) + "' and 'int'"
  }

  /**
   * `start, end = line_range; start = max(1, start) - 1; end = min(len(lines), end)`:
   * the 0-based start and the end of the slice, or what Python raises
   * (unpacking a value that is not a pair, comparing a non-number, slicing
   * with a float).
   */
  function ParseRange(lineRange: Json, n: nat): (r: Result<(int, int), string>)
    ensures r.Success? ==> 0 <= r.value.0 && r.value.1 <= n
  {
    match Iterate(lineRange)
    case None => Failure("cannot unpack non-iterable " + TypeName(lineRange) + " object")
    case Some(xs) =>
      if |xs| > 2 then Failure("too many values to unpack (expected 2)")
      else if |xs| < 2 then Failure("not enough values to unpack (expected 2, got " + IntToString(|xs|) + ")")
      else if AsNumber(xs[0]).None? then Failure(Unordered(">", xs[0]))
      else if AsNumber(xs[1]).None? then Failure(Unordered("<", xs[1]))
      else
        var s := AsInt(Max1(xs[0]));
        var e := AsInt(MinN(n, xs[1]));
        if s.None? || e.None? then Failure("slice indices must be integers or None or have an __index__ method")
        else Success((s.value - 1, e.value))
  }

  /** The view of a line range: `lines[start:end]`, numbered from `start + 1`. */
  function RangeView(lines: seq<string>, start: int, end: int): string {
    Join(Numbered(Slice(lines, start, end), start + 1), "\n")
  }

  /** The line that stands for the hidden middle of a long file. */
  function TruncationLine(hidden: int): string {
    "... [truncated " + IntToString(hidden) + " lines] ..."
  }

  /** The view without a range: every line, or for more than 100 lines the first 50 and the last 50. */
  function FullView(lines: seq<string>): string {
    var n := |lines|;
    if n > 100 then
      Join(Numbered(lines[..50], 1), "\n") + ("\n" + TruncationLine(n - 100) + "\n")
      + Join(Numbered(lines[n - 50..], n - 49), "\n")
    else Join(Numbered(lines, 1), "\n")
  }

  /** What `_view_file` returns or raises. */
  function ViewOutcome(rt: Runtime, files: map<string, UploadedFile>, input: seq<Field>): Result<ToolResult, string> {
    var filename :- Arg(input, "filename");
    var lineRange := GetOr(input, "line_range", JNull);
    var entry :- FileLookup(files, filename);
    if entry.None? then Success(NotFound(rt, filename))
    else
      var file := entry.value;
      var lines := Split(file.content, '\n');
      if Truthy(lineRange) then
        var bounds :- ParseRange(lineRange, |lines|);
        Success(Viewed(RangeView(lines, bounds.0, bounds.1), |lines|, file.size))
      else Success(Viewed(FullView(lines), |lines|, file.size))
  }

  /** A numbered line is one line of the view when the line it numbers is. */
  lemma NumberedOneLine(lines: seq<string>, first: int)
    requires forall k :: 0 <= k < |lines| ==> '\n' !in lines[k]
    ensures forall k :: 0 <= k < |lines| ==> '\n' !in Numbered(lines, first)[k]
  {
    forall k | 0 <= k < |lines| ensures '\n' !in Numbered(lines, first)[k] {
      Format5OneLine(first + k);
    }
  }

  /** A pair of integers is read as the 0-based start `max(1, start) - 1` and the end `min(n, end)`. */
  lemma ParseIntegerRange(start: int, end: int, n: nat)
    ensures ParseRange(JArray([JInt(start), JInt(end)]), n)
            == Success(((if start > 1 then start else 1) - 1, if end < n then end else n))
  {
    var xs := [JInt(start), JInt(end)];
    assert Iterate(JArray(xs)) == Some(xs);
    assert (start as real > 1.0) == (start > 1) && (end as real < n as real) == (end < n);
    assert Max1(JInt(start)) == JInt(if start > 1 then start else 1);
    assert MinN(n, JInt(end)) == JInt(if end < n then end else n);
  }

  /**
   * A range from line `lo` to line `hi` (1-based, `lo <= hi <= n`) shows
   * those lines, one per view line, each under its own number.
   */
  lemma RangeViewShowsOriginalNumbers(lines: seq<string>, lo: int, hi: int)
    requires forall k :: 0 <= k < |lines| ==> '\n' !in lines[k]
    requires 1 <= lo <= hi <= |lines|
    ensures Split(RangeView(lines, lo - 1, hi), '\n') == Numbered(lines[lo - 1..hi], lo)
  {
    assert Slice(lines, lo - 1, hi) == lines[lo - 1..hi];
    NumberedOneLine(lines[lo - 1..hi], lo);
    SplitJoin(Numbered(lines[lo - 1..hi], lo), '\n');
  }

  /** A negative end counts from the end of the file, as Python slicing does. */
  lemma RangeViewNegativeEnd(lines: seq<string>, start: int, end: int)
    requires forall k :: 0 <= k < |lines| ==> '\n' !in lines[k]
    requires end < 0 && 1 <= start < |lines| + end + 1
    ensures Split(RangeView(lines, start - 1, end), '\n') == Numbered(lines[start - 1..|lines| + end], start)
  {
    assert Slice(lines, start - 1, end) == lines[start - 1..|lines| + end];
    NumberedOneLine(lines[start - 1..|lines| + end], start);
    SplitJoin(Numbered(lines[start - 1..|lines| + end], start), '\n');
  }

  /** A file of at most 100 lines is shown whole, each line under its number. */
  lemma ShortFileShownWhole(lines: seq<string>)
    requires 1 <= |lines| <= 100
    requires forall k :: 0 <= k < |lines| ==> '\n' !in lines[k]
    ensures Split(FullView(lines), '\n') == Numbered(lines, 1)
  {
    NumberedOneLine(lines, 1);
    SplitJoin(Numbered(lines, 1), '\n');
  }

  /**
   * A file of more than 100 lines shows its first 50 lines, one line saying
   * how many are hidden, and its last 50 lines under their own numbers
   * `n - 49` to `n`: 101 view lines in all.
   */
  lemma LongFileShowsBothEnds(lines: seq<string>)
    requires |lines| > 100
    requires forall k :: 0 <= k < |lines| ==> '\n' !in lines[k]
    ensures var n := |lines|;
            Split(FullView(lines), '\n')
            == Numbered(lines[..50], 1) + [TruncationLine(n - 100)] + Numbered(lines[n - 50..], n - 49)
    ensures |Split(FullView(lines), '\n')| == 101
  {
    var n := |lines|;
    var head := Numbered(lines[..50], 1);
    var tail := Numbered(lines[n - 50..], n - 49);
    var mid := TruncationLine(n - 100);
    LongViewIsJoin(lines);
    NumberedOneLine(lines[..50], 1);
    NumberedOneLine(lines[n - 50..], n - 49);
    IntToStringOneLine(n - 100);
    assert '\n' !in mid;
    OneLineAround(head, mid, tail);
    SplitJoin(head + [mid] + tail, '\n');
  }

  /** Lines without a break, put around one more such line, are still lines without a break. */
  lemma OneLineAround(head: seq<string>, mid: string, tail: seq<string>)
    requires forall k :: 0 <= k < |head| ==> '\n' !in head[k]
    requires '\n' !in mid
    requires forall k :: 0 <= k < |tail| ==> '\n' !in tail[k]
    ensures forall k :: 0 <= k < |head + [mid] + tail| ==> '\n' !in (head + [mid] + tail)[k]
  {
    var all := head + [mid] + tail;
    forall k | 0 <= k < |all| ensures '\n' !in all[k] {
      if k < |head| {
        assert all[k] == head[k];
      } else if k > |head| {
        assert all[k] == tail[k - |head| - 1];
      }
    }
  }

  /** The long view is the join of the numbered head, the truncation line and the numbered tail. */
  lemma LongViewIsJoin(lines: seq<string>)
    requires |lines| > 100
    ensures var n := |lines|;
            FullView(lines)
            == Join(Numbered(lines[..50], 1) + [TruncationLine(n - 100)] + Numbered(lines[n - 50..], n - 49), "\n")
  {
    var n := |lines|;
    var head := Numbered(lines[..50], 1);
    var tail := Numbered(lines[n - 50..], n - 49);
    JoinAround(head, TruncationLine(n - 100), tail, "\n");
  }

  /**
   * What `view_file` reports of a stored file, whatever the view: the number
   * of lines of the whole stored text (one more than its line breaks) and
   * its stored size; a name that was not uploaded is an error result, and a
   * missing `filename` argument raises `KeyError`.
   */
  lemma ViewFileFacts(rt: Runtime, files: map<string, UploadedFile>, input: seq<Field>)
    ensures Lookup(input, "filename").None? ==> ViewOutcome(rt, files, input) == Failure(StrRepr("filename"))
    ensures Lookup(input, "filename").Some? && Lookup(input, "filename").value.JString?
            && Lookup(input, "filename").value.s !in files
            ==> ViewOutcome(rt, files, input) == Success(ErrorResult("File not found: " + Lookup(input, "filename").value.s))
    ensures ViewOutcome(rt, files, input).Success? && ViewOutcome(rt, files, input).value.Viewed?
            ==> var name := Lookup(input, "filename").value.s;
                && name in files
                && ViewOutcome(rt, files, input).value.totalLines == CountChar(files[name].content, '\n') + 1
                && ViewOutcome(rt, files, input).value.fileSize == files[name].size
  {
    var r := ViewOutcome(rt, files, input);
    if r.Success? && r.value.Viewed? {
      var name := Lookup(input, "filename").value.s;
      SplitCount(files[name].content, '\n');
    }
  }

  // ---------------------------------------------------------------- search_text

  /** `f"Line {i+1}: {line.strip()}"`. */
  function MatchingLineText(i: int, line: string): string {
    "Line " + IntToString(i + 1) + ": " + Strip(line)
  }

  /** `matching_lines` over the first `n` lines: one entry per line the pattern is found in, in line order. */
  function ReportsUpTo(e: Regex.Engine, pattern: string, ic: bool, lines: seq<string>, n: nat): seq<string>
    requires n <= |lines|
  {
    if n == 0 then []
    else ReportsUpTo(e, pattern, ic, lines, n - 1)
         + (if e.search(pattern, lines[n - 1], ic) then [MatchingLineText(n - 1, lines[n - 1])] else [])
  }

  /** `matching_lines`. */
  function MatchingLines(e: Regex.Engine, pattern: string, ic: bool, lines: seq<string>): seq<string> {
    ReportsUpTo(e, pattern, ic, lines, |lines|)
  }

  /** The loop of `_search_text` that collects `matching_lines`. */
  method CollectMatchingLines(e: Regex.Engine, pattern: string, ic: bool, lines: seq<string>) returns (matching: seq<string>)
    ensures matching == MatchingLines(e, pattern, ic, lines)
  {
    matching := [];
    var i := 0;
    while i < |lines|
      invariant 0 <= i <= |lines|
      invariant matching == ReportsUpTo(e, pattern, ic, lines, i)
    {
      if e.search(pattern, lines[i], ic) {
        matching := matching + [MatchingLineText(i, lines[i])];
      } else {
        assert ReportsUpTo(e, pattern, ic, lines, i + 1) == matching + [];
      }
      i := i + 1;
    }
  }

  /** An entry is reported among the first `n` lines exactly when it reports a line there that the pattern is found in. */
  lemma {:induction false} ReportsUpToExact(e: Regex.Engine, pattern: string, ic: bool, lines: seq<string>, n: nat, t: string)
    requires n <= |lines|
    ensures t in ReportsUpTo(e, pattern, ic, lines, n) <==>
              exists j :: 0 <= j < n && e.search(pattern, lines[j], ic) && t == MatchingLineText(j, lines[j])
  {
    if n > 0 {
      var prev := ReportsUpTo(e, pattern, ic, lines, n - 1);
      var hit := e.search(pattern, lines[n - 1], ic);
      var last := if hit then [MatchingLineText(n - 1, lines[n - 1])] else [];
      assert ReportsUpTo(e, pattern, ic, lines, n) == prev + last;
      ReportsUpToExact(e, pattern, ic, lines, n - 1, t);
      if t in prev {
        var j :| 0 <= j < n - 1 && e.search(pattern, lines[j], ic) && t == MatchingLineText(j, lines[j]);
        assert 0 <= j < n;
      } else if t in last {
        assert hit && t == MatchingLineText(n - 1, lines[n - 1]);
      } else {
        forall j | 0 <= j < n && e.search(pattern, lines[j], ic) ensures t != MatchingLineText(j, lines[j]) {
          if j == n - 1 {
            assert MatchingLineText(j, lines[j]) in last;
          }
        }
      }
    }
  }

  /**
   * The `TypeError` of `re.findall` or `re.finditer` for a pattern that is
   * not a string: a list or dict already fails at the compile cache's key,
   * any other value at the pattern check.
   */
  function PatternTypeError(pattern: Json): string {
    if Hashable(pattern) then "first argument must be string or compiled pattern" else UnhashableError(pattern)
  }

  /** What `_search_text` returns or raises. */
  function SearchOutcome(rt: Runtime, files: map<string, UploadedFile>, input: seq<Field>): Result<ToolResult, string> {
    var filename :- Arg(input, "filename");
    var pattern :- Arg(input, "pattern");
    var caseSensitive := GetOr(input, "case_sensitive", JBool(false));
    var countOnly := GetOr(input, "count_only", JBool(false));
    var entry :- FileLookup(files, filename);
    if entry.None? then Success(NotFound(rt, filename))
    else if !pattern.JString? then Failure(PatternTypeError(pattern))
    else
      var content := entry.value.content;
      var ic := !Truthy(caseSensitive);
      match rt.regex.findAll(pattern.s, content, ic)
      case Failure(m) => Success(ErrorResult("Invalid regex pattern: " + m))
      case Success(ms) =>
        if Truthy(countOnly) then Success(CountOnly(|ms|))
        else
          var matching := MatchingLines(rt.regex, pattern.s, ic, Split(content, '\n'));
          Success(Searched(ms, matching, |ms|, |matching|))
  }

  /**
   * A search of an uploaded file with a valid pattern reports every
   * `re.findall` match and, unless only the count was asked for, exactly the
   * lines the pattern is found in, as "Line k: <stripped line>", in order;
   * the search ignores case unless `case_sensitive` is truthy.
   */
  lemma SearchReportsMatchingLines(rt: Runtime, files: map<string, UploadedFile>, input: seq<Field>, name: string, pattern: string)
    requires Lookup(input, "filename") == Some(JString(name)) && name in files
    requires Lookup(input, "pattern") == Some(JString(pattern))
    requires !Truthy(GetOr(input, "count_only", JBool(false)))
    requires rt.regex.findAll(pattern, files[name].content, !Truthy(GetOr(input, "case_sensitive", JBool(false)))).Success?
    ensures var ic := !Truthy(GetOr(input, "case_sensitive", JBool(false)));
            var lines := Split(files[name].content, '\n');
            var r := SearchOutcome(rt, files, input);
            && r.Success? && r.value.Searched?
            && r.value.matches == rt.regex.findAll(pattern, files[name].content, ic).value
            && r.value.count == |r.value.matches| && r.value.lineCount == |r.value.matchingLines|
            && (forall j :: 0 <= j < |lines| && rt.regex.search(pattern, lines[j], ic)
                  ==> MatchingLineText(j, lines[j]) in r.value.matchingLines)
            && (forall t :: t in r.value.matchingLines
                  ==> exists j :: 0 <= j < |lines| && rt.regex.search(pattern, lines[j], ic) && t == MatchingLineText(j, lines[j]))
  {
    var ic := !Truthy(GetOr(input, "case_sensitive", JBool(false)));
    var lines := Split(files[name].content, '\n');
    SearchOutcomeSearched(rt, files, input, name, pattern);
    LineReportsExact(rt.regex, pattern, ic, lines);
  }

  /** Under the conditions of `SearchReportsMatchingLines`, the outcome is the list of matches and the line reports. */
  lemma SearchOutcomeSearched(rt: Runtime, files: map<string, UploadedFile>, input: seq<Field>, name: string, pattern: string)
    requires Lookup(input, "filename") == Some(JString(name)) && name in files
    requires Lookup(input, "pattern") == Some(JString(pattern))
    requires !Truthy(GetOr(input, "count_only", JBool(false)))
    requires rt.regex.findAll(pattern, files[name].content, !Truthy(GetOr(input, "case_sensitive", JBool(false)))).Success?
    ensures var ic := !Truthy(GetOr(input, "case_sensitive", JBool(false)));
            var ms := rt.regex.findAll(pattern, files[name].content, ic).value;
            var matching := MatchingLines(rt.regex, pattern, ic, Split(files[name].content, '\n'));
            SearchOutcome(rt, files, input) == Success(Searched(ms, matching, |ms|, |matching|))
  {
  }

  /** The line reports name exactly the lines the pattern is found in. */
  lemma LineReportsExact(e: Regex.Engine, pattern: string, ic: bool, lines: seq<string>)
    ensures forall j :: 0 <= j < |lines| && e.search(pattern, lines[j], ic)
              ==> MatchingLineText(j, lines[j]) in MatchingLines(e, pattern, ic, lines)
    ensures forall t :: t in MatchingLines(e, pattern, ic, lines)
              ==> exists j :: 0 <= j < |lines| && e.search(pattern, lines[j], ic) && t == MatchingLineText(j, lines[j])
  {
    forall j | 0 <= j < |lines| && e.search(pattern, lines[j], ic)
      ensures MatchingLineText(j, lines[j]) in MatchingLines(e, pattern, ic, lines)
    {
      ReportsUpToExact(e, pattern, ic, lines, |lines|, MatchingLineText(j, lines[j]));
    }
    forall t | t in MatchingLines(e, pattern, ic, lines)
      ensures exists j :: 0 <= j < |lines| && e.search(pattern, lines[j], ic) && t == MatchingLineText(j, lines[j])
    {
      ReportsUpToExact(e, pattern, ic, lines, |lines|, t);
    }
  }

  // ---------------------------------------------------------------- run_command

  /** The commands `_run_command` lets through, by first word. */
  const SafeCommands: seq<string> := ["grep", "wc", "head", "tail", "cat", "sort", "uniq", "awk", "sed"]

  /** The allow-list check: the error text when the first word of the command is not a safe command. */
  function Refusal(command: string): Option<string> {
    var parts := Words(command);
    if parts == [] || parts[0] !in SafeCommands
    then Some("Command not allowed: " + if parts == [] then "empty command" else parts[0])
    else None
  }

  /** What `_run_command` returns or raises: the allow-list check, the `$FILE` substitution, then the shell. */
  function CommandOutcome(rt: Runtime, files: map<string, UploadedFile>, workingDir: string, input: seq<Field>): Result<ToolResult, string> {
    var command :- Arg(input, "command");
    var filename := GetOr(input, "filename", JNull);
    if !command.JString? then Failure("'" + TypeName(command) + "' object has no attribute 'split'")
    else if Refusal(command.s).Some? then Success(ErrorResult(Refusal(command.s).value))
    else
      var target :- if Truthy(filename) then FileLookup(files, filename) else Success(None);
      var line := if target.Some? then Replace(command.s, "$FILE", target.value.path) else command.s;
      Success(match rt.shell(line, workingDir)
              case Completed(out, err, code) => CommandRan(out, err, code)
              case TimedOut => ErrorResult("Command timed out")
              case Raised(m) => ErrorResult("Command execution failed: " + m))
  }

  /**
   * The shell runs a command exactly when its first word is one of the nine
   * safe commands; then it runs in the working directory, with `$FILE`
   * replaced by the stored path of the named uploaded file.
   */
  lemma RunCommandAllowList(rt: Runtime, files: map<string, UploadedFile>, workingDir: string, input: seq<Field>, command: string)
    requires Lookup(input, "command") == Some(JString(command))
    ensures (Words(command) == [] || Words(command)[0] !in SafeCommands)
            ==> CommandOutcome(rt, files, workingDir, input)
                == Success(ErrorResult("Command not allowed: " + if Words(command) == [] then "empty command" else Words(command)[0]))
    ensures var filename := GetOr(input, "filename", JNull);
            Words(command) != [] && Words(command)[0] in SafeCommands && !Truthy(filename)
            ==> CommandOutcome(rt, files, workingDir, input)
                == Success(match rt.shell(command, workingDir)
                           case Completed(out, err, code) => CommandRan(out, err, code)
                           case TimedOut => ErrorResult("Command timed out")
                           case Raised(m) => ErrorResult("Command execution failed: " + m))
    ensures var filename := GetOr(input, "filename", JNull);
            Words(command) != [] && Words(command)[0] in SafeCommands
            && filename.JString? && filename.s != "" && filename.s in files
            ==> var line := Replace(command, "$FILE", files[filename.s].path);
                CommandOutcome(rt, files, workingDir, input).Success?
                && (rt.shell(line, workingDir).Completed?
                    ==> CommandOutcome(rt, files, workingDir, input).value
                        == CommandRan(rt.shell(line, workingDir).stdout, rt.shell(line, workingDir).stderr,
                                      rt.shell(line, workingDir).returnCode))
  {
    assert Arg(input, "command") == Success(JString(command));
  }

  /** Leading white space is skipped: the check reads the first word wherever it starts. */
  lemma RefusalSkipsLeadingSpace(command: string)
    requires |command| > 0 && IsSpace(command[0])
    ensures Refusal(command) == Refusal(command[1..])
  {
  }

  /** The safe commands are single words. */
  lemma SafeCommandsAreWords(c: string)
    requires c in SafeCommands
    ensures |c| > 0 && forall j :: 0 <= j < |c| ==> !IsSpace(c[j])
  {
  }

  /**
   * The check reads the first word only: a safe command followed by white
   * space passes whatever comes after it, other programs chained with `;`,
   * `&&` or `|` included, while a safe name glued to more text is refused.
   */
  lemma RefusalReadsFirstWordOnly(c: string, rest: string)
    requires c in SafeCommands
    requires rest == [] || IsSpace(rest[0])
    ensures Refusal(c + rest).None?
    ensures Refusal("cat;ls") == Some("Command not allowed: " + "cat;ls")
  {
    SafeCommandsAreWords(c);
    FirstWord(c, rest);
    FirstWord("cat;ls", []);
    assert "cat;ls" + [] == "cat;ls";
    assert "cat;ls" != "cat";
  }

  // ---------------------------------------------------------------- analyze_data

  /** `len(x)`, or the `TypeError` for a value without a length. */
  function LenOf(j: Json): (r: Result<nat, string>)
    ensures r.Success? <==> Iterate(j).Some?
    ensures r.Success? ==> r.value == |Iterate(j).value|
  {
    match Len(j)
    case Some(n) => Success(n)
    case None => Failure("object of type '" + TypeName(j) + "' has no len()")
  }

  /** `for item in x`, or the `TypeError` for a value that cannot be iterated. */
  function ItemsOf(j: Json): (r: Result<seq<Json>, string>)
    ensures r.Success? <==> Iterate(j).Some?
    ensures r.Success? ==> r.value == Iterate(j).value
  {
    match Iterate(j)
    case Some(xs) => Success(xs)
    case None => Failure("'" + TypeName(j) + "' object is not iterable")
  }

  /** The index of the first item that cannot be hashed, or `|items|`. */
  function FirstUnhashable(items: seq<Json>): (k: nat)
    ensures k <= |items|
    ensures forall j :: 0 <= j < k ==> Hashable(items[j])
    ensures k < |items| ==> !Hashable(items[k])
  {
    if items == [] then 0
    else if !Hashable(items[0]) then 0
    else
      var k := FirstUnhashable(items[1..]);
      assert forall j :: 1 <= j < |items| ==> items[j] == items[1..][j - 1];
      k + 1
  }

  /** The keys of the items: what `set(data)` holds. */
  function KeySet(items: seq<Json>): set<Key> {
    set k | 0 <= k < |items| :: KeyOf(items[k])
  }

  /** `len(set(data))`, or the `TypeError` of the first unhashable item. */
  function UniqueCount(items: seq<Json>): Result<nat, string> {
    var k := FirstUnhashable(items);
    if k < |items| then Failure(UnhashableError(items[k])) else Success(|KeySet(items)|)
  }

  /** The position of the entry with key `key`, or -1. */
  function TallyIndex(freq: seq<Tally>, key: Key): (k: int)
    ensures -1 <= k < |freq|
    ensures 0 <= k ==> KeyOf(freq[k].item) == key
    ensures k < 0 ==> forall j :: 0 <= j < |freq| ==> KeyOf(freq[j].item) != key
  {
    if freq == [] then -1
    else if KeyOf(freq[|freq| - 1].item) == key then |freq| - 1
    else TallyIndex(freq[..|freq| - 1], key)
  }

  /** `freq[item] = freq.get(item, 0) + 1`: the count of the item's key goes up, a new key is added last. */
  function Bump(freq: seq<Tally>, x: Json): seq<Tally> {
    var k := TallyIndex(freq, KeyOf(x));
    if k < 0 then freq + [Tally(x, 1)] else freq[k := Tally(freq[k].item, freq[k].count + 1)]
  }

  /** The `freq` dict after the loop has seen every item. */
  function Tallies(items: seq<Json>): seq<Tally>
    decreases |items|
  {
    if items == [] then [] else Bump(Tallies(items[..|items| - 1]), items[|items| - 1])
  }

  /** How many items have key `key`. */
  function Occurrences(items: seq<Json>, key: Key): nat
    decreases |items|
  {
    if items == [] then 0
    else Occurrences(items[..|items| - 1], key) + (if KeyOf(items[|items| - 1]) == key then 1 else 0)
  }

  /** The sum of the counts of a tally. */
  function Total(freq: seq<Tally>): nat
    decreases |freq|
  {
    if freq == [] then 0 else Total(freq[..|freq| - 1]) + freq[|freq| - 1].count
  }

  /** The keys a tally holds. */
  function TallyKeys(freq: seq<Tally>): set<Key> {
    set k | 0 <= k < |freq| :: KeyOf(freq[k].item)
  }

  /** No key appears twice in a tally. */
  predicate DistinctKeys(freq: seq<Tally>) {
    forall a, b :: 0 <= a < b < |freq| ==> KeyOf(freq[a].item) != KeyOf(freq[b].item)
  }

  lemma {:induction false} TotalUpdate(freq: seq<Tally>, k: int, t: Tally)
    requires 0 <= k < |freq|
    ensures Total(freq[k := t]) == Total(freq) - freq[k].count + t.count
    decreases |freq|
  {
    var front := freq[..|freq| - 1];
    if k < |freq| - 1 {
      assert freq[k := t][..|freq| - 1] == front[k := t];
      TotalUpdate(front, k, t);
    } else {
      assert freq[k := t][..|freq| - 1] == front;
    }
  }

  lemma TallyKeysSnoc(freq: seq<Tally>, t: Tally)
    ensures TallyKeys(freq + [t]) == TallyKeys(freq) + {KeyOf(t.item)}
  {
    var all := freq + [t];
    forall key | key in TallyKeys(all) ensures key in TallyKeys(freq) + {KeyOf(t.item)} {
      var k :| 0 <= k < |all| && KeyOf(all[k].item) == key;
      if k < |freq| {
        assert all[k] == freq[k];
      }
    }
    forall key | key in TallyKeys(freq) ensures key in TallyKeys(all) {
      var k :| 0 <= k < |freq| && KeyOf(freq[k].item) == key;
      assert all[k] == freq[k];
    }
    assert KeyOf(all[|freq|].item) in TallyKeys(all);
  }

  lemma KeySetSnoc(items: seq<Json>, x: Json)
    ensures KeySet(items + [x]) == KeySet(items) + {KeyOf(x)}
  {
    var all := items + [x];
    forall key | key in KeySet(all) ensures key in KeySet(items) + {KeyOf(x)} {
      var k :| 0 <= k < |all| && KeyOf(all[k]) == key;
      if k < |items| {
        assert all[k] == items[k];
      }
    }
    forall key | key in KeySet(items) ensures key in KeySet(all) {
      var k :| 0 <= k < |items| && KeyOf(items[k]) == key;
      assert all[k] == items[k];
    }
    assert KeyOf(all[|items|]) in KeySet(all);
  }

  /** A distinct-keyed tally has as many entries as keys. */
  lemma {:induction false} TallyKeysCount(freq: seq<Tally>)
    requires DistinctKeys(freq)
    ensures |TallyKeys(freq)| == |freq|
    decreases |freq|
  {
    if freq != [] {
      var front := freq[..|freq| - 1];
      var last := freq[|freq| - 1];
      assert front + [last] == freq;
      TallyKeysCount(front);
      TallyKeysSnoc(front, last);
      forall k | 0 <= k < |front| ensures KeyOf(front[k].item) != KeyOf(last.item) {
        assert front[k] == freq[k];
      }
      assert KeyOf(last.item) !in TallyKeys(front);
    }
  }

  /** The invariant of the `freq` loop over `items`. */
  predicate TallyOf(freq: seq<Tally>, items: seq<Json>) {
    && DistinctKeys(freq)
    && TallyKeys(freq) == KeySet(items)
    && Total(freq) == |items|
    && (forall k :: 0 <= k < |freq| ==> freq[k].count == Occurrences(items, KeyOf(freq[k].item)))
    && (forall k :: 0 <= k < |freq| ==> freq[k].item in items)
  }

  /** A key no item has occurs zero times. */
  lemma {:induction false} OccurrencesAbsent(items: seq<Json>, key: Key)
    requires key !in KeySet(items)
    ensures Occurrences(items, key) == 0
    decreases |items|
  {
    if items != [] {
      var front := items[..|items| - 1];
      var x := items[|items| - 1];
      assert front + [x] == items;
      KeySetSnoc(front, x);
      OccurrencesAbsent(front, key);
    }
  }

  /** An item with a new key gets a new last entry counting 1. */
  lemma BumpNewKey(items: seq<Json>, x: Json, freq: seq<Tally>)
    requires TallyOf(freq, items)
    requires TallyIndex(freq, KeyOf(x)) < 0
    ensures TallyOf(Bump(freq, x), items + [x])
  {
    var all := items + [x];
    var next := freq + [Tally(x, 1)];
    assert Bump(freq, x) == next;
    assert next[..|freq|] == freq;
    KeySetSnoc(items, x);
    TallyKeysSnoc(freq, Tally(x, 1));
    NewKeyCounts(items, x, freq);
    NewKeyEntry(freq, x);
    assert forall k :: 0 <= k < |next| ==> next[k].item in all;
  }

  /** A new last entry with a key not yet held keeps the keys distinct and adds its count to the total. */
  lemma NewKeyEntry(freq: seq<Tally>, x: Json)
    requires DistinctKeys(freq)
    requires TallyIndex(freq, KeyOf(x)) < 0
    ensures DistinctKeys(freq + [Tally(x, 1)])
    ensures Total(freq + [Tally(x, 1)]) == Total(freq) + 1
  {
    var next := freq + [Tally(x, 1)];
    assert next[..|next| - 1] == freq;
    forall a, b | 0 <= a < b < |next| ensures KeyOf(next[a].item) != KeyOf(next[b].item) {
      assert next[a] == freq[a];
      if b < |freq| {
        assert next[b] == freq[b];
      }
    }
  }

  /** The counts after a new key: the old keys keep their counts, the new one counts 1. */
  lemma NewKeyCounts(items: seq<Json>, x: Json, freq: seq<Tally>)
    requires TallyOf(freq, items)
    requires TallyIndex(freq, KeyOf(x)) < 0
    ensures var next := freq + [Tally(x, 1)];
            forall k :: 0 <= k < |next| ==> next[k].count == Occurrences(items + [x], KeyOf(next[k].item))
  {
    var all := items + [x];
    var next := freq + [Tally(x, 1)];
    assert all[..|all| - 1] == items;
    assert KeyOf(x) !in TallyKeys(freq);
    OccurrencesAbsent(items, KeyOf(x));
    forall k | 0 <= k < |next| ensures next[k].count == Occurrences(all, KeyOf(next[k].item)) {
      if k < |freq| {
        assert next[k] == freq[k];
        assert KeyOf(freq[k].item) != KeyOf(x);
      }
    }
  }

  /** An item with a known key raises that key's count by one. */
  lemma BumpKnownKey(items: seq<Json>, x: Json, freq: seq<Tally>)
    requires TallyOf(freq, items)
    requires TallyIndex(freq, KeyOf(x)) >= 0
    ensures TallyOf(Bump(freq, x), items + [x])
  {
    var i := TallyIndex(freq, KeyOf(x));
    assert Bump(freq, x) == freq[i := Tally(freq[i].item, freq[i].count + 1)];
    KnownKeyTally(items, x, freq, i);
  }

  /** Counting one more item under the key of entry `i` keeps the tally exact. */
  lemma KnownKeyTally(items: seq<Json>, x: Json, freq: seq<Tally>, i: int)
    requires TallyOf(freq, items)
    requires 0 <= i < |freq| && KeyOf(freq[i].item) == KeyOf(x)
    ensures TallyOf(freq[i := Tally(freq[i].item, freq[i].count + 1)], items + [x])
  {
    var next := freq[i := Tally(freq[i].item, freq[i].count + 1)];
    TotalUpdate(freq, i, Tally(freq[i].item, freq[i].count + 1));
    KeySetSnoc(items, x);
    KnownKeyKeys(freq, i, freq[i].count + 1);
    KnownKeyCounts(items, x, freq, i);
    assert KeyOf(x) in TallyKeys(freq);
    assert forall k :: 0 <= k < |next| ==> next[k].item in items + [x];
  }

  /** Changing the count of one entry keeps the keys and their distinctness. */
  lemma KnownKeyKeys(freq: seq<Tally>, i: int, c: nat)
    requires 0 <= i < |freq|
    ensures var next := freq[i := Tally(freq[i].item, c)];
            && TallyKeys(next) == TallyKeys(freq)
            && (DistinctKeys(freq) ==> DistinctKeys(next))
  {
    var next := freq[i := Tally(freq[i].item, c)];
    assert forall k :: 0 <= k < |next| ==> KeyOf(next[k].item) == KeyOf(freq[k].item);
    forall key | key in TallyKeys(next) ensures key in TallyKeys(freq) {
      var k :| 0 <= k < |next| && KeyOf(next[k].item) == key;
      assert KeyOf(freq[k].item) == key;
    }
    forall key | key in TallyKeys(freq) ensures key in TallyKeys(next) {
      var k :| 0 <= k < |freq| && KeyOf(freq[k].item) == key;
      assert KeyOf(next[k].item) == key;
    }
  }

  /** The counts after a known key: that key's count goes up by one, the others stay. */
  lemma KnownKeyCounts(items: seq<Json>, x: Json, freq: seq<Tally>, i: int)
    requires TallyOf(freq, items)
    requires 0 <= i < |freq| && KeyOf(freq[i].item) == KeyOf(x)
    ensures var next := freq[i := Tally(freq[i].item, freq[i].count + 1)];
            forall k :: 0 <= k < |next| ==> next[k].count == Occurrences(items + [x], KeyOf(next[k].item))
  {
    var all := items + [x];
    var next := freq[i := Tally(freq[i].item, freq[i].count + 1)];
    assert all[..|all| - 1] == items;
    forall k | 0 <= k < |next| ensures next[k].count == Occurrences(all, KeyOf(next[k].item)) {
      if k != i {
        assert next[k] == freq[k];
        assert KeyOf(freq[k].item) != KeyOf(x) by {
          if k < i {
            assert KeyOf(freq[k].item) != KeyOf(freq[i].item);
          } else {
            assert KeyOf(freq[i].item) != KeyOf(freq[k].item);
          }
        }
      }
    }
  }

  /**
   * The `frequency` dict: one entry per distinct key (`1`, `1.0` and `True`
   * are one key), under the first item that has it, counting the items with
   * that key; there are as many entries as `set(data)` has elements, and the
   * counts add up to `len(data)`.
   */
  lemma {:induction false} TalliesFacts(items: seq<Json>)
    ensures TallyOf(Tallies(items), items)
    ensures |Tallies(items)| == |KeySet(items)|
    decreases |items|
  {
    if items == [] {
      assert KeySet(items) == {};
    } else {
      var front := items[..|items| - 1];
      var x := items[|items| - 1];
      TalliesFacts(front);
      assert front + [x] == items;
      if TallyIndex(Tallies(front), KeyOf(x)) < 0 {
        BumpNewKey(front, x, Tallies(front));
      } else {
        BumpKnownKey(front, x, Tallies(front));
      }
    }
    TallyKeysCount(Tallies(items));
  }

  /** `freq`, or the `TypeError` of the first unhashable item. */
  function FrequencyOf(items: seq<Json>): Result<seq<Tally>, string> {
    var k := FirstUnhashable(items);
    if k < |items| then Failure(UnhashableError(items[k])) else Success(Tallies(items))
  }

  /** The loop of `_analyze_data` that fills `freq`. */
  method CountFrequencies(items: seq<Json>) returns (r: Result<seq<Tally>, string>)
    ensures r == FrequencyOf(items)
  {
    var freq: seq<Tally> := [];
    var i := 0;
    while i < |items|
      invariant 0 <= i <= |items|
      invariant freq == Tallies(items[..i])
      invariant FirstUnhashable(items) >= i
    {
      if !Hashable(items[i]) {
        return Failure(UnhashableError(items[i]));
      }
      assert items[..i + 1][..i] == items[..i];
      freq := Bump(freq, items[i]);
      i := i + 1;
    }
    assert items[..i] == items;
    return Success(freq);
  }

  /** `data[:5] if len(data) > 5 else data`; a dict cannot be sliced. */
  function Sample(data: Json): Result<Json, string> {
    match data
    case JArray(xs) => Success(if |xs| > 5 then JArray(xs[..5]) else data)
    case JString(s) => Success(if |s| > 5 then JString(s[..5]) else data)
    case JObject(fields) => if |fields| > 5 then Failure("unhashable type: 'slice'") else Success(data)
    case _ => Success(data)
  }

  /** What `_analyze_data` returns or raises. */
  function AnalyzeOutcome(rt: Runtime, input: seq<Field>): Result<ToolResult, string> {
    var dataType :- Arg(input, "data_type");
    var data :- Arg(input, "data");
    if dataType == JString("count") then
      var n :- LenOf(data);
      var unique :- UniqueCount(Iterate(data).value);
      Success(DataCount(n, unique))
    else if dataType == JString("frequency") then
      var items :- ItemsOf(data);
      var tally :- FrequencyOf(items);
      Success(Frequency(tally, |items|))
    else if dataType == JString("summary") then
      var n :- LenOf(data);
      var unique :- UniqueCount(Iterate(data).value);
      var sample :- Sample(data);
      Success(DataSummary(n, unique, sample))
    else Success(ErrorResult("Unknown analysis type: " + Str(dataType, rt.floatRepr)))
  }

  /**
   * A tally of items with numbers: `frequency` keeps one entry per distinct
   * key, so its size is the `unique_count` of `count`, and its counts add up
   * to `total`, the `count`.
   */
  lemma AnalysesAgree(rt: Runtime, input: seq<Field>, items: seq<Json>)
    requires Lookup(input, "data") == Some(JArray(items))
    requires FirstUnhashable(items) == |items|
    ensures Lookup(input, "data_type") == Some(JString("frequency"))
            ==> var r := AnalyzeOutcome(rt, input);
                && r == Success(Frequency(Tallies(items), |items|))
                && Total(r.value.frequency) == r.value.total
                && |r.value.frequency| == |KeySet(items)|
    ensures Lookup(input, "data_type") == Some(JString("count"))
            ==> AnalyzeOutcome(rt, input) == Success(DataCount(|items|, |Tallies(items)|))
    ensures Lookup(input, "data_type") == Some(JString("summary"))
            ==> AnalyzeOutcome(rt, input)
                == Success(DataSummary(|items|, |Tallies(items)|, JArray(Take(items, 5))))
  {
    TalliesFacts(items);
    var data := JArray(items);
    assert Iterate(data) == Some(items);
    assert Arg(input, "data") == Success(data);
    assert LenOf(data) == Success(|items|);
    assert ItemsOf(data) == Success(items);
    assert UniqueCount(items) == Success(|Tallies(items)|);
    assert FrequencyOf(items) == Success(Tallies(items));
    assert Sample(data) == Success(JArray(Take(items, 5)));
  }

  /** Any other analysis type is reported, not raised; a missing `data` raises `KeyError` first. */
  lemma UnknownAnalysisType(rt: Runtime, input: seq<Field>)
    requires Lookup(input, "data_type").Some? && Lookup(input, "data").Some?
    requires Lookup(input, "data_type").value !in {JString("count"), JString("frequency"), JString("summary")}
    ensures AnalyzeOutcome(rt, input)
            == Success(ErrorResult("Unknown analysis type: " + Str(Lookup(input, "data_type").value, rt.floatRepr)))
  {
  }

  // ---------------------------------------------------------------- execute_tool

  /** The tools `execute_tool` dispatches on. */
  const ToolNames: seq<string> := ["view_file", "search_text", "run_command", "analyze_data"]

  /** What the tool named `name` returns or raises. */
  function Dispatch(rt: Runtime, files: map<string, UploadedFile>, workingDir: string, name: string, input: seq<Field>): Result<ToolResult, string> {
    if name == "view_file" then ViewOutcome(rt, files, input)
    else if name == "search_text" then SearchOutcome(rt, files, input)
    else if name == "run_command" then CommandOutcome(rt, files, workingDir, input)
    else if name == "analyze_data" then AnalyzeOutcome(rt, input)
    else Success(ErrorResult("Unknown tool: " + name))
  }

  /** `execute_tool`: a raised exception becomes an error result. */
  function ToolOutcome(rt: Runtime, files: map<string, UploadedFile>, workingDir: string, name: string, input: seq<Field>): ToolResult {
    match Dispatch(rt, files, workingDir, name, input)
    case Success(r) => r
    case Failure(m) => ErrorResult("Tool execution failed: " + m)
  }

  /**
   * `execute_tool` never raises: an unknown tool name is reported as
   * unknown, and a tool whose required argument is missing fails with the
   * quoted name of that argument.
   */
  lemma ToolOutcomeErrors(rt: Runtime, files: map<string, UploadedFile>, workingDir: string, name: string, input: seq<Field>)
    ensures name !in ToolNames ==> ToolOutcome(rt, files, workingDir, name, input) == ErrorResult("Unknown tool: " + name)
    ensures name in ["view_file", "search_text"] && Lookup(input, "filename").None?
            ==> ToolOutcome(rt, files, workingDir, name, input) == ErrorResult("Tool execution failed: " + StrRepr("filename"))
    ensures name == "run_command" && Lookup(input, "command").None?
            ==> ToolOutcome(rt, files, workingDir, name, input) == ErrorResult("Tool execution failed: " + StrRepr("command"))
    ensures name == "analyze_data" && Lookup(input, "data_type").None?
            ==> ToolOutcome(rt, files, workingDir, name, input) == ErrorResult("Tool execution failed: " + StrRepr("data_type"))
  {
  }

  // ---------------------------------------------------------------- the analyzer

  /** `os.path.basename`: what follows the last `/`. */
  function BaseName(path: string): (name: string)
    ensures '/' !in name
    ensures |name| <= |path| && path[|path| - |name|..] == name
    ensures |name| < |path| ==> path[|path| - |name| - 1] == '/'
  {
    var i := LastIndexOf(path, '/');
    assert forall j :: i + 1 <= j < |path| ==> path[j] != '/';
    path[i + 1..]
  }

  /** `os.path.join(directory, name)` for a name without `/`. */
  function PathJoin(directory: string, name: string): string {
    if directory == "" || directory[|directory| - 1] == '/' then directory + name else directory + "/" + name
  }

  /** `FileAnalyzer`: its working directory and the files uploaded into it. */
  class FileAnalyzer {
    const workingDir: string
    var uploadedFiles: map<string, UploadedFile>

    /** `__init__`, given the directory `tempfile.mkdtemp` made. */
    constructor(workingDir: string)
      ensures this.workingDir == workingDir && uploadedFiles == map[]
    {
      this.workingDir := workingDir;
      uploadedFiles := map[];
    }

    /**
     * `upload_file`, given the file's text when the file exists: the file is
     * stored under its base name, in the working directory, with its size;
     * an earlier file of the same name is replaced.
     */
    method UploadFile(filePath: string, content: Option<string>) returns (r: Result<string, string>)
      modifies this
      ensures content.None? ==> r == Failure("File not found: " + filePath) && uploadedFiles == old(uploadedFiles)
      ensures content.Some? ==>
                && r == Success(content.value)
                && uploadedFiles == old(uploadedFiles)[BaseName(filePath) :=
                     UploadedFile(PathJoin(workingDir, BaseName(filePath)), content.value, |content.value|)]
    {
      if content.None? {
        return Failure("File not found: " + filePath);
      }
      var filename := BaseName(filePath);
      var destPath := PathJoin(workingDir, filename);
      uploadedFiles := uploadedFiles[filename := UploadedFile(destPath, content.value, |content.value|)];
      r := Success(content.value);
    }

    /** `_search_text`, with its line loop. */
    method SearchText(rt: Runtime, input: seq<Field>) returns (r: Result<ToolResult, string>)
      ensures r == SearchOutcome(rt, uploadedFiles, input)
    {
      var filename :- Arg(input, "filename");
      var pattern :- Arg(input, "pattern");
      var caseSensitive := GetOr(input, "case_sensitive", JBool(false));
      var countOnly := GetOr(input, "count_only", JBool(false));
      var entry :- FileLookup(uploadedFiles, filename);
      if entry.None? {
        return Success(NotFound(rt, filename));
      }
      if !pattern.JString? {
        return Failure(PatternTypeError(pattern));
      }
      var content := entry.value.content;
      var ic := !Truthy(caseSensitive);
      var found := rt.regex.findAll(pattern.s, content, ic);
      if found.Failure? {
        return Success(ErrorResult("Invalid regex pattern: " + found.error));
      }
      if Truthy(countOnly) {
        return Success(CountOnly(|found.value|));
      }
      var matching := CollectMatchingLines(rt.regex, pattern.s, ic, Split(content, '\n'));
      r := Success(Searched(found.value, matching, |found.value|, |matching|));
    }

    /** `_analyze_data`, with its counting loop. */
    method AnalyzeData(rt: Runtime, input: seq<Field>) returns (r: Result<ToolResult, string>)
      ensures r == AnalyzeOutcome(rt, input)
    {
      var dataType :- Arg(input, "data_type");
      var data :- Arg(input, "data");
      if dataType == JString("frequency") {
        var items :- ItemsOf(data);
        var tally :- CountFrequencies(items);
        return Success(Frequency(tally, |items|));
      }
      r := AnalyzeOutcome(rt, input);
    }

    /** `execute_tool`. */
    method ExecuteTool(rt: Runtime, toolName: string, toolInput: seq<Field>) returns (r: ToolResult)
      ensures r == ToolOutcome(rt, uploadedFiles, workingDir, toolName, toolInput)
    {
      var outcome: Result<ToolResult, string>;
      if toolName == "search_text" {
        outcome := SearchText(rt, toolInput);
      } else if toolName == "analyze_data" {
        outcome := AnalyzeData(rt, toolInput);
      } else {
        outcome := Dispatch(rt, uploadedFiles, workingDir, toolName, toolInput);
      }
      r := match outcome
           case Success(v) => v
           case Failure(m) => ErrorResult("Tool execution failed: " + m);
    }
  }

  /** Viewing a stored file by name, with no range, shows the whole view of its text with its line count and size. */
  lemma ViewByName(rt: Runtime, files: map<string, UploadedFile>, name: string)
    requires name in files
    ensures ViewOutcome(rt, files, [Field("filename", JString(name))])
            == Success(Viewed(FullView(Split(files[name].content, '\n')), CountChar(files[name].content, '\n') + 1,
                              files[name].size))
  {
    var input := [Field("filename", JString(name))];
    assert Lookup(input, "filename") == Some(JString(name));
    assert Lookup(input, "line_range") == None;
    SplitCount(files[name].content, '\n');
  }

  /** The `view_file` tool on a stored file reports its whole view. */
  lemma ViewToolByName(rt: Runtime, files: map<string, UploadedFile>, workingDir: string, name: string)
    requires name in files
    ensures ToolOutcome(rt, files, workingDir, "view_file", [Field("filename", JString(name))])
            == Viewed(FullView(Split(files[name].content, '\n')), CountChar(files[name].content, '\n') + 1, files[name].size)
  {
    var input := [Field("filename", JString(name))];
    assert Dispatch(rt, files, workingDir, "view_file", input) == ViewOutcome(rt, files, input);
    ViewByName(rt, files, name);
  }
}
