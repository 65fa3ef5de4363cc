/**
 * The pattern matcher: it decides whether a question is a counting question
 * over known entities, names the entities it mentions, keeps the lines of a
 * text that mention every requested entity (each with a window of context)
 * and reports the count, the first fifty matches and a summary.
 *
 * Each entity pattern is `(?i)\b(<alt 1>|...|<alt n>)\b` over literal
 * phrases, so it matches exactly when one of its phrases occurs, in any
 * case, between word boundaries (`Regex.HasBoundedAlternative`).
 */
module PatternMatcher {
  import opened Text
  import opened Regex

  // ---------------------------------------------------------------- entity patterns

  /** One entry of `ENTITY_PATTERNS`: the entity's name and the phrases of its pattern, lower-case. */
  datatype EntityPattern = EntityPattern(name: string, alternatives: seq<string>)

  /** `ENTITY_PATTERNS`, in declaration order (the order of `compiled_patterns`). */
  function EntityPatterns(): seq<EntityPattern> {
    [ EntityPattern("israel", ["israel", "israeli"]),
      EntityPattern("unsubstantiated", ["unsubstantiated", "not substantiated", "unvalidated"]),
      EntityPattern("substantiated", ["substantiated", "validated", "confirmed"]),
      EntityPattern("complaint", ["complaint", "adverse event", "ae", "report"]),
      EntityPattern("usa", ["usa", "united states", "u.s.a", "america", "american"]),
      EntityPattern("uk", ["uk", "united kingdom", "u.k", "britain", "british"]),
      EntityPattern("germany", ["germany", "german", "deutschland"]),
      EntityPattern("france", ["france", "french"]),
      EntityPattern("italy", ["italy", "italian"]),
      EntityPattern("spain", ["spain", "spanish"]),
      EntityPattern("canada", ["canada", "canadian"]),
      EntityPattern("australia", ["australia", "australian"]),
      EntityPattern("japan", ["japan", "japanese"]),
      EntityPattern("china", ["china", "chinese"]) ]
  }

  /** `pattern.search(s)`. */
  predicate Matches(p: EntityPattern, s: string) {
    HasBoundedAlternative(s, p.alternatives)
  }

  predicate DistinctNames(ps: seq<EntityPattern>) {
    forall i, j :: 0 <= i < j < |ps| ==> ps[i].name != ps[j].name
  }

  /** Position of the first pattern named `name`, or `|ps|` when there is none. */
  function PatternIndex(ps: seq<EntityPattern>, name: string): (k: nat)
    ensures k <= |ps|
    ensures k < |ps| ==> ps[k].name == name
    ensures forall j :: 0 <= j < k ==> ps[j].name != name
  {
    if ps == [] then 0 else if ps[0].name == name then 0 else 1 + PatternIndex(ps[1..], name)
  }

  /** `entity in compiled_patterns`, for the patterns `ps`. */
  predicate Known(ps: seq<EntityPattern>, name: string) {
    PatternIndex(ps, name) < |ps|
  }

  /** `ENTITY_PATTERNS` names every entity once: no two names agree in both length and first letter. */
  lemma EntityPatternsDistinct()
    ensures DistinctNames(EntityPatterns())
  {
    var ps := EntityPatterns();
    forall i, j | 0 <= i < j < |ps| ensures ps[i].name != ps[j].name {
      assert |ps[i].name| != |ps[j].name| || ps[i].name[0] != ps[j].name[0];
    }
  }

  // ---------------------------------------------------------------- matching names

  /** The names of the patterns that match `s`, in pattern order. */
  function MatchingNames(ps: seq<EntityPattern>, s: string): seq<string>
    decreases |ps|
  {
    if ps == [] then [] else (if Matches(ps[0], s) then [ps[0].name] else []) + MatchingNames(ps[1..], s)
  }

  lemma MatchingNamesStep(ps: seq<EntityPattern>, p: int, s: string)
    requires 0 <= p < |ps|
    ensures MatchingNames(ps[p..], s) == (if Matches(ps[p], s) then [ps[p].name] else []) + MatchingNames(ps[p + 1..], s)
  {
    assert ps[p..][1..] == ps[p + 1..];
  }

  /** One turn of the loop of `CollectMatching`: the name of pattern `p` is appended exactly when it matches. */
  lemma CollectStep(ps: seq<EntityPattern>, p: int, s: string, names: seq<string>)
    requires 0 <= p < |ps|
    requires MatchingNames(ps, s) == names + MatchingNames(ps[p..], s)
    ensures MatchingNames(ps, s) == (if Matches(ps[p], s) then names + [ps[p].name] else names) + MatchingNames(ps[p + 1..], s)
  {
    MatchingNamesStep(ps, p, s);
    if Matches(ps[p], s) {
      Regroup(MatchingNames(ps, s), names, [ps[p].name], MatchingNames(ps[p + 1..], s));
    } else {
      assert [] + MatchingNames(ps[p + 1..], s) == MatchingNames(ps[p + 1..], s);
    }
  }

  /**
   * The loop `for entity, pattern in ...: if pattern.search(s): names.append(entity)`,
   * shared by `extract_entities_from_query` and the inner loop of `scan_document`.
   */
  method CollectMatching(ps: seq<EntityPattern>, s: string) returns (names: seq<string>)
    ensures names == MatchingNames(ps, s)
  {
    names := [];
    var p := 0;
    assert ps[0..] == ps;
    while p < |ps|
      invariant 0 <= p <= |ps|
      invariant MatchingNames(ps, s) == names + MatchingNames(ps[p..], s)
    {
      CollectStep(ps, p, s, names);
      if Matches(ps[p], s) {
        names := names + [ps[p].name];
      }
      p := p + 1;
    }
    assert ps[p..] == [];
    assert names + [] == names;
  }

  /** A name is collected exactly when a pattern of that name matches. */
  lemma {:induction false} MatchingNamesIff(ps: seq<EntityPattern>, s: string, name: string)
    ensures name in MatchingNames(ps, s) <==> exists k :: 0 <= k < |ps| && ps[k].name == name && Matches(ps[k], s)
    decreases |ps|
  {
    if ps != [] {
      MatchingNamesIff(ps[1..], s, name);
      if exists k :: 0 <= k < |ps| && ps[k].name == name && Matches(ps[k], s) {
        var k :| 0 <= k < |ps| && ps[k].name == name && Matches(ps[k], s);
        if k > 0 {
          assert ps[1..][k - 1] == ps[k];
        }
      }
      if exists k :: 0 <= k < |ps[1..]| && ps[1..][k].name == name && Matches(ps[1..][k], s) {
        var k :| 0 <= k < |ps[1..]| && ps[1..][k].name == name && Matches(ps[1..][k], s);
        assert ps[k + 1] == ps[1..][k];
      }
    }
  }

  /** The collected names are names of `ps`, in the order of `ps`: each at most once when the names are distinct. */
  lemma {:induction false} MatchingNamesOrdered(ps: seq<EntityPattern>, s: string)
    requires DistinctNames(ps)
    ensures forall i :: 0 <= i < |MatchingNames(ps, s)| ==> PatternIndex(ps, MatchingNames(ps, s)[i]) < |ps|
    ensures forall i, j :: 0 <= i < j < |MatchingNames(ps, s)| ==>
              PatternIndex(ps, MatchingNames(ps, s)[i]) < PatternIndex(ps, MatchingNames(ps, s)[j])
    ensures forall i, j :: 0 <= i < j < |MatchingNames(ps, s)| ==> MatchingNames(ps, s)[i] != MatchingNames(ps, s)[j]
    decreases |ps|
  {
    if ps != [] {
      var rest := ps[1..];
      assert DistinctNames(rest) by {
        forall i, j | 0 <= i < j < |rest| ensures rest[i].name != rest[j].name {
          assert rest[i] == ps[i + 1] && rest[j] == ps[j + 1];
        }
      }
      MatchingNamesOrdered(rest, s);
      var t := MatchingNames(rest, s);
      forall i | 0 <= i < |t| ensures PatternIndex(ps, t[i]) == 1 + PatternIndex(rest, t[i]) {
        var k := PatternIndex(rest, t[i]);
        assert rest[k] == ps[k + 1];
        assert ps[0].name != t[i];
      }
    }
  }

  /** All patterns match exactly when as many names are collected as there are patterns. */
  lemma {:induction false} MatchingNamesFull(ps: seq<EntityPattern>, s: string)
    ensures |MatchingNames(ps, s)| <= |ps|
    ensures |MatchingNames(ps, s)| == |ps| <==> forall k :: 0 <= k < |ps| ==> Matches(ps[k], s)
    ensures (forall k :: 0 <= k < |ps| ==> Matches(ps[k], s)) ==>
              MatchingNames(ps, s) == seq(|ps|, k requires 0 <= k < |ps| => ps[k].name)
    decreases |ps|
  {
    if ps != [] {
      var rest := ps[1..];
      MatchingNamesFull(rest, s);
      if forall k :: 0 <= k < |rest| ==> Matches(rest[k], s) {
        if Matches(ps[0], s) {
          assert forall k :: 0 <= k < |ps| ==> Matches(ps[k], s) by {
            forall k | 0 <= k < |ps| ensures Matches(ps[k], s) {
              if k > 0 { assert ps[k] == rest[k - 1]; }
            }
          }
        }
      } else {
        var k :| 0 <= k < |rest| && !Matches(rest[k], s);
        assert ps[k + 1] == rest[k];
      }
    }
  }

  // ---------------------------------------------------------------- the query

  /** The phrases `is_counting_query` looks for, each as a whole word. */
  function CountingKeywords(): seq<string> {
    ["how many", "count", "number of", "total", "sum"]
  }

  /** `is_counting_query`: one of the counting phrases occurs as a whole word in the lower-cased query. */
  predicate IsCountingQuery(query: string) {
    HasBoundedAlternative(Lower(query), CountingKeywords())
  }

  /** Lower-casing a lower-case phrase changes nothing. */
  lemma LowerOfKeyword(k: int)
    requires 0 <= k < |CountingKeywords()|
    ensures Lower(CountingKeywords()[k]) == CountingKeywords()[k]
  {
    var w := CountingKeywords()[k];
    assert forall i :: 0 <= i < |w| ==> !('A' <= w[i] <= 'Z');
  }

  /** A counting phrase standing as a whole word, in any case, makes the query a counting query. */
  lemma CountingKeywordCounts(before: string, k: int, after: string)
    requires 0 <= k < |CountingKeywords()|
    requires before == [] || !IsWordChar(before[|before| - 1])
    requires after == [] || !IsWordChar(after[0])
    ensures IsCountingQuery(before + CountingKeywords()[k] + after)
  {
    var w := CountingKeywords()[k];
    LowerOfKeyword(k);
    assert IsWordChar(w[0]) && IsWordChar(w[|w| - 1]);
    var lb := Lower(before);
    var la := Lower(after);
    assert Lower(before + w + after) == lb + w + la;
    if before != [] {
      WordCharLower(before[|before| - 1]);
    }
    if after != [] {
      WordCharLower(after[0]);
    }
    BoundedLiteralInContext(lb, w, la);
    HasBoundedAlternativeIff(lb + w + la, CountingKeywords());
  }

  /** `is_counting_query` ignores case. */
  lemma CountingIgnoresCase(query: string)
    ensures IsCountingQuery(query) == IsCountingQuery(Lower(query))
  {
    LowerIdempotent(query);
  }

  /** `extract_entities_from_query`: the entities whose pattern matches the lower-cased query. */
  method ExtractEntities(query: string) returns (entities: seq<string>)
    ensures entities == MatchingNames(EntityPatterns(), Lower(query))
  {
    entities := CollectMatching(EntityPatterns(), Lower(query));
  }

  /**
   * Every extracted entity is known and mentioned, every mentioned entity is
   * extracted, and they come in pattern order, so once each (for
   * `ENTITY_PATTERNS` and the lower-cased query, by `EntityPatternsDistinct`).
   */
  lemma ExtractedEntitiesFacts(ps: seq<EntityPattern>, s: string, name: string)
    requires DistinctNames(ps)
    ensures name in MatchingNames(ps, s) <==> Known(ps, name) && Matches(ps[PatternIndex(ps, name)], s)
    ensures forall i, j :: 0 <= i < j < |MatchingNames(ps, s)| ==>
              PatternIndex(ps, MatchingNames(ps, s)[i]) < PatternIndex(ps, MatchingNames(ps, s)[j])
  {
    MatchingNamesIff(ps, s, name);
    MatchingNamesOrdered(ps, s);
    if exists k :: 0 <= k < |ps| && ps[k].name == name && Matches(ps[k], s) {
      var k :| 0 <= k < |ps| && ps[k].name == name && Matches(ps[k], s);
      assert PatternIndex(ps, name) == k;
    }
  }

  /** The entities `extract_entities_from_query` finds in `query`. */
  function QueryEntities(query: string): seq<string> {
    MatchingNames(EntityPatterns(), Lower(query))
  }

  /** The decision of `should_use_pattern_matching`. */
  predicate ShouldUse(query: string) {
    IsCountingQuery(query) && QueryEntities(query) != []
  }

  /** `should_use_pattern_matching`: a counting query that mentions at least one entity. */
  method ShouldUsePatternMatching(query: string) returns (shouldUse: bool, entities: seq<string>)
    ensures entities == QueryEntities(query)
    ensures shouldUse <==> IsCountingQuery(query) && |entities| > 0
    ensures shouldUse == ShouldUse(query)
  {
    var isCounting := IsCountingQuery(query);
    entities := ExtractEntities(query);
    shouldUse := isCounting && |entities| > 0;
  }

  // ---------------------------------------------------------------- scanning

  /** A `MatchResult`: the 1-based line number, the stripped line, the entities it matched and its context. */
  datatype MatchResult = MatchResult(lineNumber: int, lineText: string, matchedEntities: seq<string>, context: string)

  /**
   * The `patterns` dict `{entity: compiled[entity] for entity in entities if entity in compiled}`:
   * the known entities' patterns, each once, in the order of their first mention.
   */
  function Requested(ps: seq<EntityPattern>, entities: seq<string>): (req: seq<EntityPattern>)
    decreases |entities|
  {
    if entities == [] then []
    else
      var front := Requested(ps, entities[..|entities| - 1]);
      var e := entities[|entities| - 1];
      if Known(ps, e) && forall k :: 0 <= k < |front| ==> front[k].name != e
      then front + [ps[PatternIndex(ps, e)]]
      else front
  }

  /** `req` holds known patterns of `ps`, each under its own name, each once. */
  predicate KnownPatterns(ps: seq<EntityPattern>, req: seq<EntityPattern>) {
    && DistinctNames(req)
    && forall k :: 0 <= k < |req| ==> Known(ps, req[k].name) && req[k] == ps[PatternIndex(ps, req[k].name)]
  }

  /** The requested patterns are the known, mentioned entities' own patterns, each once. */
  lemma {:induction false} RequestedFacts(ps: seq<EntityPattern>, entities: seq<string>)
    ensures KnownPatterns(ps, Requested(ps, entities))
    ensures forall k :: 0 <= k < |Requested(ps, entities)| ==> Requested(ps, entities)[k].name in entities
    ensures forall e :: e in entities && Known(ps, e) ==>
              exists k :: 0 <= k < |Requested(ps, entities)| && Requested(ps, entities)[k].name == e
    decreases |entities|
  {
    if entities != [] {
      var front := entities[..|entities| - 1];
      var e := entities[|entities| - 1];
      RequestedFacts(ps, front);
      assert entities == front + [e];
      var f := Requested(ps, front);
      if Known(ps, e) && forall k :: 0 <= k < |f| ==> f[k].name != e {
        var r := f + [ps[PatternIndex(ps, e)]];
        assert Requested(ps, entities) == r;
        assert r[|f|].name == e;
        forall x | x in entities && Known(ps, x)
          ensures exists k :: 0 <= k < |r| && r[k].name == x
        {
          if x != e {
            assert x in front;
            var k :| 0 <= k < |f| && f[k].name == x;
            assert r[k] == f[k];
          } else {
            assert r[|f|].name == x;
          }
        }
      } else {
        assert Requested(ps, entities) == f;
        forall x | x in entities && Known(ps, x)
          ensures exists k :: 0 <= k < |f| && f[k].name == x
        {
          if x != e {
            assert x in front;
          }
        }
      }
    }
  }

  /** Naming an unknown entity, or one already named, changes nothing. */
  lemma RequestedIgnoresUnknownAndRepeats(ps: seq<EntityPattern>, entities: seq<string>, e: string)
    requires !Known(ps, e) || e in entities
    ensures Requested(ps, entities + [e]) == Requested(ps, entities)
  {
    var all := entities + [e];
    assert all[..|all| - 1] == entities;
    if Known(ps, e) {
      RequestedFacts(ps, entities);
    }
  }

  /** The source's test `len(matched_entities) == len(patterns)`. */
  predicate LineMatches(req: seq<EntityPattern>, line: string) {
    |MatchingNames(req, line)| == |req|
  }

  /** The context of line `i`: `'\n'.join(lines[max(0, i - c):min(len(lines), i + c + 1)])`. */
  function Context(lines: seq<string>, c: int, i: int): string {
    var start := if i - c > 0 then i - c else 0;
    var end := if |lines| < i + c + 1 then |lines| else i + c + 1;
    Join(Slice(lines, start, end), "\n")
  }

  /** The record for line `i`. */
  function MatchAt(lines: seq<string>, req: seq<EntityPattern>, c: int, i: int): MatchResult
    requires 0 <= i < |lines|
  {
    MatchResult(i + 1, Strip(lines[i]), MatchingNames(req, lines[i]), Context(lines, c, i))
  }

  /** The indices, from `i` on, of the lines that match every requested entity, in line order. */
  function HitsFrom(lines: seq<string>, req: seq<EntityPattern>, i: nat): (hits: seq<nat>)
    ensures forall k :: 0 <= k < |hits| ==> i <= hits[k] < |lines|
    decreases |lines| - i
  {
    if i >= |lines| then []
    else (if LineMatches(req, lines[i]) then [i] else []) + HitsFrom(lines, req, i + 1)
  }

  /** The records of the lines at `hits`, in that order. */
  function Records(lines: seq<string>, req: seq<EntityPattern>, c: int, hits: seq<nat>): (r: seq<MatchResult>)
    requires forall k :: 0 <= k < |hits| ==> hits[k] < |lines|
    ensures |r| == |hits|
  {
    seq(|hits|, k requires 0 <= k < |hits| => MatchAt(lines, req, c, hits[k]))
  }

  /** The records of all matching lines. */
  function Matched(lines: seq<string>, req: seq<EntityPattern>, c: int): seq<MatchResult> {
    Records(lines, req, c, HitsFrom(lines, req, 0))
  }

  /** What `scan_document(text, entities, c)` returns. */
  function Scan(text: string, entities: seq<string>, c: int): seq<MatchResult> {
    if entities == [] then [] else Matched(Split(text, '\n'), Requested(EntityPatterns(), entities), c)
  }

  lemma HitsStep(lines: seq<string>, req: seq<EntityPattern>, i: nat)
    requires i < |lines|
    ensures LineMatches(req, lines[i]) ==> HitsFrom(lines, req, i) == [i] + HitsFrom(lines, req, i + 1)
    ensures !LineMatches(req, lines[i]) ==> HitsFrom(lines, req, i) == HitsFrom(lines, req, i + 1)
  {
  }

  lemma RecordsSnoc(lines: seq<string>, req: seq<EntityPattern>, c: int, hits: seq<nat>, i: nat)
    requires forall k :: 0 <= k < |hits| ==> hits[k] < |lines|
    requires i < |lines|
    ensures Records(lines, req, c, hits + [i]) == Records(lines, req, c, hits) + [MatchAt(lines, req, c, i)]
  {
    var a := Records(lines, req, c, hits + [i]);
    var b := Records(lines, req, c, hits) + [MatchAt(lines, req, c, i)];
    forall k | 0 <= k < |a| ensures a[k] == b[k] {
      if k < |hits| {
        assert (hits + [i])[k] == hits[k];
      }
    }
  }

  /** The outer loop of `scan_document`, over the lines. */
  method ScanLines(lines: seq<string>, req: seq<EntityPattern>, c: int) returns (matches: seq<MatchResult>)
    ensures matches == Matched(lines, req, c)
  {
    matches := [];
    ghost var done: seq<nat> := [];
    var i := 0;
    while i < |lines|
      invariant 0 <= i <= |lines|
      invariant HitsFrom(lines, req, 0) == done + HitsFrom(lines, req, i)
      invariant forall k :: 0 <= k < |done| ==> done[k] < i
      invariant matches == Records(lines, req, c, done)
    {
      var matched := CollectMatching(req, lines[i]);
      HitsStep(lines, req, i);
      if |matched| == |req| {
        var start := if i - c > 0 then i - c else 0;
        var end := if |lines| < i + c + 1 then |lines| else i + c + 1;
        var context := Join(Slice(lines, start, end), "\n");
        var m := MatchResult(i + 1, Strip(lines[i]), matched, context);
        assert m == MatchAt(lines, req, c, i);
        Regroup(HitsFrom(lines, req, 0), done, [i], HitsFrom(lines, req, i + 1));
        RecordsSnoc(lines, req, c, done, i);
        matches := matches + [m];
        done := done + [i];
      }
      i := i + 1;
    }
    assert done == HitsFrom(lines, req, 0);
  }

  /** `scan_document`; `c` is `context_lines`, 2 unless given. */
  method ScanDocument(text: string, entities: seq<string>, c: int) returns (matches: seq<MatchResult>)
    ensures matches == Scan(text, entities, c)
    ensures entities == [] ==> matches == []
  {
    if entities == [] {
      return [];
    }
    var lines := Split(text, '\n');
    var req := Requested(EntityPatterns(), entities);
    matches := ScanLines(lines, req, c);
  }

  /** Every index is that of a matching line from `i` on, and every such line is there. */
  lemma {:induction false} HitsIff(lines: seq<string>, req: seq<EntityPattern>, i: nat, j: int)
    ensures j in HitsFrom(lines, req, i) <==> i <= j < |lines| && LineMatches(req, lines[j])
    decreases |lines| - i
  {
    if i < |lines| {
      HitsIff(lines, req, i + 1, j);
    }
  }

  /** The indices strictly increase. */
  lemma {:induction false} HitsIncreasing(lines: seq<string>, req: seq<EntityPattern>, i: nat)
    ensures forall a, b :: 0 <= a < b < |HitsFrom(lines, req, i)| ==> HitsFrom(lines, req, i)[a] < HitsFrom(lines, req, i)[b]
    decreases |lines| - i
  {
    if i < |lines| {
      HitsIncreasing(lines, req, i + 1);
    }
  }

  /** `m` is the record of a matching line. */
  predicate IsMatchOf(lines: seq<string>, req: seq<EntityPattern>, c: int, m: MatchResult) {
    && 1 <= m.lineNumber <= |lines|
    && LineMatches(req, lines[m.lineNumber - 1])
    && m == MatchAt(lines, req, c, m.lineNumber - 1)
  }

  /** Every record is that of a line that matches every requested entity. */
  lemma MatchedSound(lines: seq<string>, req: seq<EntityPattern>, c: int)
    ensures forall k :: 0 <= k < |Matched(lines, req, c)| ==> IsMatchOf(lines, req, c, Matched(lines, req, c)[k])
  {
    var hits := HitsFrom(lines, req, 0);
    forall k | 0 <= k < |hits| ensures IsMatchOf(lines, req, c, Matched(lines, req, c)[k]) {
      HitsIff(lines, req, 0, hits[k]);
    }
  }

  /** Every line that matches every requested entity has its record. */
  lemma MatchedComplete(lines: seq<string>, req: seq<EntityPattern>, c: int, j: int)
    requires 0 <= j < |lines| && LineMatches(req, lines[j])
    ensures MatchAt(lines, req, c, j) in Matched(lines, req, c)
  {
    var hits := HitsFrom(lines, req, 0);
    HitsIff(lines, req, 0, j);
    var k :| 0 <= k < |hits| && hits[k] == j;
    assert Matched(lines, req, c)[k] == MatchAt(lines, req, c, j);
  }

  /** Records come in strictly increasing line order, so each line has at most one. */
  lemma MatchedIncreasing(lines: seq<string>, req: seq<EntityPattern>, c: int)
    ensures forall a, b :: 0 <= a < b < |Matched(lines, req, c)| ==>
              Matched(lines, req, c)[a].lineNumber < Matched(lines, req, c)[b].lineNumber
  {
    var hits := HitsFrom(lines, req, 0);
    HitsIncreasing(lines, req, 0);
    forall a, b | 0 <= a < b < |hits|
      ensures Matched(lines, req, c)[a].lineNumber < Matched(lines, req, c)[b].lineNumber
    {
      assert Matched(lines, req, c)[a] == MatchAt(lines, req, c, hits[a]);
      assert Matched(lines, req, c)[b] == MatchAt(lines, req, c, hits[b]);
    }
  }

  /**
   * A matching line's record lists every requested entity, in request order,
   * and its context is the lines from `i - c` to `i + c`, cut at the ends,
   * which include the line itself.
   */
  lemma MatchAtFacts(lines: seq<string>, req: seq<EntityPattern>, c: int, i: int)
    requires 0 <= i < |lines| && LineMatches(req, lines[i]) && c >= 0
    ensures MatchAt(lines, req, c, i).matchedEntities == seq(|req|, k requires 0 <= k < |req| => req[k].name)
    ensures var lo := if i - c > 0 then i - c else 0;
            var hi := if |lines| < i + c + 1 then |lines| else i + c + 1;
            && lo <= i < hi
            && MatchAt(lines, req, c, i).context == Join(lines[lo..hi], "\n")
            && IsSubstring(lines[i], MatchAt(lines, req, c, i).context)
  {
    MatchingNamesFull(req, lines[i]);
    var lo := if i - c > 0 then i - c else 0;
    var hi := if |lines| < i + c + 1 then |lines| else i + c + 1;
    assert Slice(lines, lo, hi) == lines[lo..hi];
    JoinContains(lines[lo..hi], "\n", i - lo);
    assert lines[lo..hi][i - lo] == lines[i];
  }

  /** With no pattern required, every line matches. */
  lemma {:induction false} NoPatternHitsEveryLine(lines: seq<string>, i: nat)
    requires i <= |lines|
    ensures |HitsFrom(lines, [], i)| == |lines| - i
    decreases |lines| - i
  {
    if i < |lines| {
      NoPatternHitsEveryLine(lines, i + 1);
      assert LineMatches([], lines[i]);
    }
  }

  /** Only unknown names request no pattern at all. */
  lemma {:induction false} UnknownRequestNothing(ps: seq<EntityPattern>, entities: seq<string>)
    requires forall k :: 0 <= k < |entities| ==> !Known(ps, entities[k])
    ensures Requested(ps, entities) == []
    decreases |entities|
  {
    if entities != [] {
      UnknownRequestNothing(ps, entities[..|entities| - 1]);
    }
  }

  /** `scan_document` with only unknown entity names returns a record for every line. */
  lemma ScanOfUnknownEntities(text: string, entities: seq<string>, c: int)
    requires entities != [] && forall k :: 0 <= k < |entities| ==> !Known(EntityPatterns(), entities[k])
    ensures |Scan(text, entities, c)| == |Split(text, '\n')|
  {
    UnknownRequestNothing(EntityPatterns(), entities);
    NoPatternHitsEveryLine(Split(text, '\n'), 0);
  }

  // ---------------------------------------------------------------- summary and result

  /** One sample line: the line number and the first 100 characters of the line. */
  function SampleLine(m: MatchResult): string {
    "\n- Line " + IntToString(m.lineNumber) + ": " + Take(m.lineText, 100) + "..."
  }

  /** The sample lines of `ms`, in order. */
  function Samples(ms: seq<MatchResult>): string
    decreases |ms|
  {
    if ms == [] then "" else Samples(ms[..|ms| - 1]) + SampleLine(ms[|ms| - 1])
  }

  function SummaryHeader(entities: seq<string>, matches: seq<MatchResult>): string {
    "Found " + IntToString(|matches|) + " occurrences matching all entities: " + Join(entities, ", ") + "\n\nSample matches:"
  }

  /** What `_generate_summary` returns. */
  function SummaryText(entities: seq<string>, matches: seq<MatchResult>): string {
    if matches == [] then "No matches found for entities: " + Join(entities, ", ")
    else SummaryHeader(entities, matches) + Samples(Take(matches, 3))
  }

  /** `_generate_summary`. */
  method GenerateSummary(query: string, entities: seq<string>, matches: seq<MatchResult>) returns (summary: string)
    ensures summary == SummaryText(entities, matches)
  {
    if matches == [] {
      return "No matches found for entities: " + Join(entities, ", ");
    }
    summary := "Found " + IntToString(|matches|) + " occurrences matching all entities: " + Join(entities, ", ");
    summary := summary + "\n\nSample matches:";
    var head := Take(matches, 3);
    var k := 0;
    while k < |head|
      invariant 0 <= k <= |head|
      invariant summary == SummaryHeader(entities, matches) + Samples(head[..k])
    {
      var m := head[k];
      ghost var before := Samples(head[..k]);
      assert head[..k + 1][..k] == head[..k];
      assert Samples(head[..k + 1]) == before + SampleLine(m);
      summary := summary + ("\n- Line " + IntToString(m.lineNumber) + ": " + Take(m.lineText, 100) + "...");
      Regroup(SummaryHeader(entities, matches) + Samples(head[..k + 1]), SummaryHeader(entities, matches), before, SampleLine(m));
      k := k + 1;
    }
    assert head[..k] == head;
  }

  /** Each of the given matches' sample lines occurs in `Samples`. */
  lemma {:induction false} SamplesContain(ms: seq<MatchResult>, k: int)
    requires 0 <= k < |ms|
    ensures IsSubstring(SampleLine(ms[k]), Samples(ms))
    decreases |ms|
  {
    var front := ms[..|ms| - 1];
    if k == |ms| - 1 {
      SubstringOfConcat(Samples(front), SampleLine(ms[k]), []);
      assert Samples(front) + SampleLine(ms[k]) + [] == Samples(ms);
    } else {
      SamplesContain(front, k);
      assert front[k] == ms[k];
      SubstringOfPrefix(SampleLine(ms[k]), Samples(front), SampleLine(ms[|ms| - 1]));
    }
  }

  /**
   * Without matches the summary says none were found; otherwise it starts with
   * the full count and shows a sample line for each of the first three matches.
   */
  lemma SummaryFacts(entities: seq<string>, matches: seq<MatchResult>, k: int)
    requires 0 <= k < |matches| && k < 3
    ensures StartsWith(SummaryText(entities, []), "No matches found for entities: ")
    ensures StartsWith(SummaryText(entities, matches), "Found " + IntToString(|matches|) + " occurrences")
    ensures IsSubstring(SampleLine(matches[k]), SummaryText(entities, matches))
  {
    var n := "Found " + IntToString(|matches|) + " occurrences";
    var h := SummaryHeader(entities, matches);
    var s := Samples(Take(matches, 3));
    assert h[..|n|] == n;
    assert (h + s)[..|n|] == n;
    assert Take(matches, 3)[k] == matches[k];
    SamplesContain(Take(matches, 3), k);
    SubstringOfSuffix(SampleLine(matches[k]), h, s);
  }

  /** The dict `execute_counting_search` returns; `matches` holds the first fifty records. */
  datatype CountingResult = CountingResult(
    isCountingQuery: bool,
    query: string,
    entitiesSearched: seq<string>,
    totalMatches: int,
    matches: seq<MatchResult>,
    summary: string)

  /** `execute_counting_search`: the count is complete; the list is cut to fifty. */
  method ExecuteCountingSearch(query: string, text: string) returns (r: CountingResult)
    ensures r.entitiesSearched == MatchingNames(EntityPatterns(), Lower(query))
    ensures r.isCountingQuery && r.query == query
    ensures var all := Scan(text, r.entitiesSearched, 2);
      && r.totalMatches == |all|
      && r.matches == Take(all, 50)
      && r.summary == SummaryText(r.entitiesSearched, all)
  {
    var entities := ExtractEntities(query);
    var matches := ScanDocument(text, entities, 2);
    var summary := GenerateSummary(query, entities, matches);
    r := CountingResult(true, query, entities, |matches|, Take(matches, 50), summary);
  }

  /** The first fifty records, all of them when there are fewer. */
  lemma FirstFifty(all: seq<MatchResult>)
    ensures |Take(all, 50)| == if |all| < 50 then |all| else 50
    ensures forall k :: 0 <= k < |Take(all, 50)| ==> Take(all, 50)[k] == all[k]
  {
  }
}
