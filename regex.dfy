/**
 * Regular expressions. Patterns that arrive at run time (from a language model)
 * go to an abstract engine; the fixed patterns of the pattern matcher, which are
 * word-bounded alternatives of literal phrases under `(?i)`, are given a direct
 * meaning here. `re.escape` is written out.
 */
module Regex {
  import opened Wrappers
  import opened Text
  import opened Json

  /** One `re.Match`: `start()`, `end()` and `group()`. */
  datatype Span = Span(start: int, end: int, text: string)

  /**
   * The `re` calls the code makes on run-time patterns; the boolean says
   * whether `re.IGNORECASE` is set. A `Failure` is the text of `re.error`.
   */
  datatype Engine = Engine(
    findAll: (string, string, bool) -> Result<seq<Json>, string>,
    findIter: (string, string, bool) -> Result<seq<Span>, string>,
    search: (string, string, bool) -> bool)

  /** `\w` on one character (ASCII letters, digits and the underscore). */
  predicate IsWordChar(c: char) {
    ('a' <= c <= 'z') || ('A' <= c <= 'Z') || ('0' <= c <= '9') || c == '_'
  }

  predicate WordAt(s: string, p: int) {
    0 <= p < |s| && IsWordChar(s[p])
  }

  /** `\b` holds at position `p` of `s`. */
  predicate Boundary(s: string, p: int) {
    WordAt(s, p - 1) != WordAt(s, p)
  }

  /** `\b<lit>\b` matches `s` at `p`, case-insensitively; `lit` is lower-case. */
  predicate BoundedLiteralAt(s: string, lit: string, p: int) {
    0 <= p <= |s| - |lit| && Lower(s[p..p + |lit|]) == lit && Boundary(s, p) && Boundary(s, p + |lit|)
  }

  /** `\b<lit>\b` matches `s`, case-insensitively, at `p` or at some later position. */
  predicate BoundedLiteralFrom(s: string, lit: string, p: nat)
    decreases |s| - p
  {
    p + |lit| <= |s| && (BoundedLiteralAt(s, lit, p) || BoundedLiteralFrom(s, lit, p + 1))
  }

  /** `re.search(r'(?i)\b<lit>\b', s)` succeeds: the search tries every position from the left. */
  predicate HasBoundedLiteral(s: string, lit: string) {
    BoundedLiteralFrom(s, lit, 0)
  }

  /** The search from `p` succeeds exactly when the phrase matches at some position from `p` on. */
  lemma {:induction false} BoundedLiteralFromIff(s: string, lit: string, p: nat)
    ensures BoundedLiteralFrom(s, lit, p) <==> exists q :: p <= q <= |s| - |lit| && BoundedLiteralAt(s, lit, q)
    decreases |s| - p
  {
    if p + |lit| <= |s| {
      BoundedLiteralFromIff(s, lit, p + 1);
      if exists q :: p <= q <= |s| - |lit| && BoundedLiteralAt(s, lit, q) {
        var q :| p <= q <= |s| - |lit| && BoundedLiteralAt(s, lit, q);
        assert q == p || (p + 1 <= q <= |s| - |lit| && BoundedLiteralAt(s, lit, q));
      }
    }
  }

  /** `re.search(r'(?i)\b(<alt 1>|...|<alt n>)\b', s)` succeeds. */
  predicate HasBoundedAlternative(s: string, alts: seq<string>)
    decreases |alts|
  {
    |alts| > 0 && (HasBoundedLiteral(s, alts[0]) || HasBoundedAlternative(s, alts[1..]))
  }

  /** An alternation is found exactly when one of its phrases is. */
  lemma {:induction false} HasBoundedAlternativeIff(s: string, alts: seq<string>)
    ensures HasBoundedAlternative(s, alts) <==> exists k :: 0 <= k < |alts| && HasBoundedLiteral(s, alts[k])
    decreases |alts|
  {
    if |alts| > 0 {
      HasBoundedAlternativeIff(s, alts[1..]);
      if exists k :: 0 <= k < |alts| && HasBoundedLiteral(s, alts[k]) {
        var k :| 0 <= k < |alts| && HasBoundedLiteral(s, alts[k]);
        if k > 0 {
          assert alts[1..][k - 1] == alts[k];
        }
      }
      if exists k :: 0 <= k < |alts[1..]| && HasBoundedLiteral(s, alts[1..][k]) {
        var k :| 0 <= k < |alts[1..]| && HasBoundedLiteral(s, alts[1..][k]);
        assert alts[k + 1] == alts[1..][k];
      }
    }
  }

  /** Lower-casing keeps word characters word characters. */
  lemma WordCharLower(c: char)
    ensures IsWordChar(LowerChar(c)) == IsWordChar(c)
  {
  }

  /**
   * A lower-case phrase that starts and ends with a word character, standing
   * between non-word characters (or the ends), is found in any case.
   */
  lemma BoundedLiteralInContext(before: string, lit: string, after: string)
    requires Lower(lit) == lit && |lit| > 0 && IsWordChar(lit[0]) && IsWordChar(lit[|lit| - 1])
    requires before == [] || !IsWordChar(before[|before| - 1])
    requires after == [] || !IsWordChar(after[0])
    ensures HasBoundedLiteral(before + lit + after, lit)
  {
    var q := before + lit + after;
    var p := |before|;
    var n := |lit|;
    assert q[p..p + n] == lit;
    assert q[p] == lit[0] && q[p + n - 1] == lit[n - 1];
    if before != [] {
      assert q[p - 1] == before[p - 1];
    }
    if after != [] {
      assert q[p + n] == after[0];
    }
    assert BoundedLiteralAt(q, lit, p);
    BoundedLiteralFromIff(q, lit, 0);
  }

  /** The characters `re.escape` prefixes with a backslash. */
  predicate IsRegexSpecial(c: char) {
    c in "()[]{}?*+-|^$\\.&~# \t\n\r" || c as int == 11 || c as int == 12
  }

  /** `re.escape(s)`. */
  function Escape(s: string): (r: string)
    ensures |r| >= |s|
  {
    if s == [] then []
    else (if IsRegexSpecial(s[0]) then ['\\', s[0]] else [s[0]]) + Escape(s[1..])
  }

  /** Reading an escaped pattern back as a literal: a backslash stands for the character after it. */
  function Unescape(t: string): (r: string)
    ensures |r| <= |t|
    decreases |t|
  {
    if t == [] then []
    else if t[0] == '\\' && |t| >= 2 then [t[1]] + Unescape(t[2..])
    else [t[0]] + Unescape(t[1..])
  }

  /**
   * The escaped pattern spells the text back, special characters included, so
   * it matches the text literally.
   */
  lemma {:induction false} EscapeRoundTrip(s: string)
    ensures Unescape(Escape(s)) == s
  {
    if s != [] {
      EscapeRoundTrip(s[1..]);
      var head := if IsRegexSpecial(s[0]) then ['\\', s[0]] else [s[0]];
      var t := head + Escape(s[1..]);
      assert t == Escape(s);
      if IsRegexSpecial(s[0]) {
        assert t[2..] == Escape(s[1..]);
      } else {
        assert s[0] != '\\';
        assert t[1..] == Escape(s[1..]);
      }
    }
  }

  /** `rf'\b{re.escape(word)}\b'`. */
  function WordPattern(word: string): string {
    "\\b" + Escape(word) + "\\b"
  }
}
