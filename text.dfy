/**
 * The Python `str` and `list` operations the analysed code relies on, stated
 * over `seq<char>`: lower-casing, `strip`, `split`, `join`, `find`/`rfind`,
 * `in`, `startswith`, `replace`, slicing with negative indices and integer
 * formatting.
 */
module Text {

  /** Python's `str.isspace()` for one character (the characters `strip()` and `split()` drop). */
  predicate IsSpace(c: char) {
    var n := c as int;
    n == 32 || (9 <= n <= 13) || (28 <= n <= 31) || n == 0x85 || n == 0xA0 || n == 0x1680
    || (0x2000 <= n <= 0x200A) || n == 0x2028 || n == 0x2029 || n == 0x202F || n == 0x205F
    || n == 0x3000
  }

  /** `str.lower()` on one character; only the ASCII letters are mapped. */
  function LowerChar(c: char): char {
    if 'A' <= c <= 'Z' then (c as int + 32) as char else c
  }

  function Lower(s: string): (r: string)
    ensures |r| == |s|
    ensures forall i :: 0 <= i < |s| ==> r[i] == LowerChar(s[i])
  {
    seq(|s|, i requires 0 <= i < |s| => LowerChar(s[i]))
  }

  /** `str.upper()` on one character; only the ASCII letters are mapped. */
  function UpperChar(c: char): char {
    if 'a' <= c <= 'z' then (c as int - 32) as char else c
  }

  function Upper(s: string): (r: string)
    ensures |r| == |s|
  {
    seq(|s|, i requires 0 <= i < |s| => UpperChar(s[i]))
  }

  function Repeat(c: char, n: nat): (r: string)
    ensures |r| == n
  {
    seq(n, _ => c)
  }

  // ---------------------------------------------------------------- strip

  /** `s.lstrip()`. Its properties are stated by `LStripFacts`, so that they are only in scope where used. */
  function LStrip(s: string): string {
    if |s| > 0 && IsSpace(s[0]) then LStrip(s[1..]) else s
  }

  /** `s.rstrip()`. Its properties are stated by `RStripFacts`. */
  function RStrip(s: string): string {
    if |s| > 0 && IsSpace(s[|s| - 1]) then RStrip(s[..|s| - 1]) else s
  }

  /** `lstrip` drops the leading white space and nothing else. */
  lemma {:induction false} LStripFacts(s: string)
    ensures |LStrip(s)| <= |s| && LStrip(s) == s[|s| - |LStrip(s)|..]
    ensures LStrip(s) == [] || !IsSpace(LStrip(s)[0])
    ensures forall j :: 0 <= j < |s| - |LStrip(s)| ==> IsSpace(s[j])
    decreases |s|
  {
    if |s| > 0 && IsSpace(s[0]) {
      LStripFacts(s[1..]);
    }
  }

  /** `rstrip` drops the trailing white space and nothing else. */
  lemma {:induction false} RStripFacts(s: string)
    ensures |RStrip(s)| <= |s| && RStrip(s) == s[..|RStrip(s)|]
    ensures RStrip(s) == [] || !IsSpace(RStrip(s)[|RStrip(s)| - 1])
    ensures forall j :: |RStrip(s)| <= j < |s| ==> IsSpace(s[j])
    decreases |s|
  {
    if |s| > 0 && IsSpace(s[|s| - 1]) {
      RStripFacts(s[..|s| - 1]);
    }
  }

  /** `str.strip()`: the longest infix that neither starts nor ends with white space. */
  function Strip(s: string): string {
    RStrip(LStrip(s))
  }

  /** What `strip` keeps: an infix of `s` that neither starts nor ends with white space, everything around it being white space. */
  lemma StripFacts(s: string)
    ensures var a := |s| - |LStrip(s)|;
            && 0 <= a && a + |Strip(s)| <= |s|
            && Strip(s) == s[a..a + |Strip(s)|]
            && (Strip(s) == [] || (!IsSpace(Strip(s)[0]) && !IsSpace(Strip(s)[|Strip(s)| - 1])))
            && (forall j :: 0 <= j < a ==> IsSpace(s[j]))
            && (forall j :: a + |Strip(s)| <= j < |s| ==> IsSpace(s[j]))
  {
    var l := LStrip(s);
    LStripFacts(s);
    RStripFacts(l);
    var a := |s| - |l|;
    var r := RStrip(l);
    assert r == l[..|r|];
    assert s[a..a + |r|] == l[..|r|];
    if r != [] {
      assert r[0] == l[0];
    }
    forall j | a + |r| <= j < |s| ensures IsSpace(s[j]) {
      assert s[j] == l[j - a];
    }
  }

  /** A string made only of white space strips to the empty string, and every other string does not. */
  lemma StripEmptyIffAllSpace(s: string)
    ensures Strip(s) == [] <==> forall j :: 0 <= j < |s| ==> IsSpace(s[j])
  {
    StripFacts(s);
    if Strip(s) != [] {
      var a := |s| - |LStrip(s)|;
      assert Strip(s)[0] == s[a];
    }
  }

  // ---------------------------------------------------------------- find

  /** `s.find(c)`: the first index of `c`, or -1. */
  function IndexOf(s: string, c: char): (i: int)
    ensures -1 <= i < |s|
    ensures 0 <= i ==> s[i] == c
    ensures forall j :: 0 <= j < |s| && (i < 0 || j < i) ==> s[j] != c
  {
    if |s| == 0 then -1
    else if s[0] == c then 0
    else
      var j := IndexOf(s[1..], c);
      if j < 0 then -1 else j + 1
  }

  /** `s.rfind(c)`: the last index of `c`, or -1. */
  function LastIndexOf(s: string, c: char): (i: int)
    ensures -1 <= i < |s|
    ensures 0 <= i ==> s[i] == c
    ensures forall j :: i < j < |s| ==> s[j] != c
  {
    if |s| == 0 then -1
    else if s[|s| - 1] == c then |s| - 1
    else LastIndexOf(s[..|s| - 1], c)
  }

  /** `s.count(c)` for a single character. */
  function CountChar(s: string, c: char): (n: nat)
    ensures n <= |s|
  {
    if |s| == 0 then 0 else (if s[|s| - 1] == c then 1 else 0) + CountChar(s[..|s| - 1], c)
  }

  lemma {:induction false} CountCharAppend(a: string, b: string, c: char)
    ensures CountChar(a + b, c) == CountChar(a, c) + CountChar(b, c)
    decreases |b|
  {
    if |b| == 0 {
      assert a + b == a;
    } else {
      assert (a + b)[..|a + b| - 1] == a + b[..|b| - 1];
      CountCharAppend(a, b[..|b| - 1], c);
    }
  }

  lemma CountCharPrefix(s: string, k: nat, c: char)
    requires k <= |s|
    ensures CountChar(s[..k], c) <= CountChar(s, c)
  {
    assert s == s[..k] + s[k..];
    CountCharAppend(s[..k], s[k..], c);
  }

  // ---------------------------------------------------------------- split / join

  /** `s.split(sep)` for a one-character separator: never empty, and no piece holds `sep`. */
  function Split(s: string, sep: char): (r: seq<string>)
    ensures |r| >= 1
    decreases |s|
  {
    var i := IndexOf(s, sep);
    if i < 0 then [s] else [s[..i]] + Split(s[i + 1..], sep)
  }

  /** No piece of a split holds the separator. */
  lemma {:induction false} SplitPiecesNoSep(s: string, sep: char)
    ensures forall k :: 0 <= k < |Split(s, sep)| ==> sep !in Split(s, sep)[k]
    decreases |s|
  {
    var i := IndexOf(s, sep);
    NoSepBefore(s, sep);
    if i >= 0 {
      SplitPiecesNoSep(s[i + 1..], sep);
      SplitUnfold(s, sep);
      NoSepCons(s[..i], Split(s[i + 1..], sep), sep);
    }
  }

  /** A piece without the separator in front of pieces without it. */
  lemma NoSepCons(a: string, rest: seq<string>, sep: char)
    requires sep !in a
    requires forall k :: 0 <= k < |rest| ==> sep !in rest[k]
    ensures forall k :: 0 <= k < |[a] + rest| ==> sep !in ([a] + rest)[k]
  {
    forall k | 0 <= k < |[a] + rest| ensures sep !in ([a] + rest)[k] {
      if k > 0 {
        assert ([a] + rest)[k] == rest[k - 1];
      }
    }
  }

  /** No separator comes before the first one. */
  lemma NoSepBefore(s: string, sep: char)
    ensures IndexOf(s, sep) < 0 ==> sep !in s
    ensures IndexOf(s, sep) >= 0 ==> sep !in s[..IndexOf(s, sep)]
  {
    var i := IndexOf(s, sep);
    if i >= 0 {
      assert forall j :: 0 <= j < i ==> s[..i][j] == s[j];
    }
  }

  /** One step of `Split`: the piece before the first separator, then the pieces of the rest. */
  lemma SplitUnfold(s: string, sep: char)
    requires IndexOf(s, sep) >= 0
    ensures Split(s, sep) == [s[..IndexOf(s, sep)]] + Split(s[IndexOf(s, sep) + 1..], sep)
  {
  }

  /** `sep.join(parts)`. */
  function Join(parts: seq<string>, sep: string): string {
    if |parts| == 0 then ""
    else if |parts| == 1 then parts[0]
    else parts[0] + sep + Join(parts[1..], sep)
  }

  /** `sep.join(s.split(sep)) == s`: splitting loses nothing. */
  lemma {:induction false} JoinSplit(s: string, sep: char)
    ensures Join(Split(s, sep), [sep]) == s
    decreases |s|
  {
    var i := IndexOf(s, sep);
    if i >= 0 {
      var a, t := s[..i], s[i + 1..];
      var rest := Split(t, sep);
      SplitUnfold(s, sep);
      JoinCons(a, rest, [sep]);
      JoinSplit(t, sep);
      AroundIndex(s, i);
    }
  }

  /** A sequence is the part before index `i`, the element at `i` and the part after. */
  lemma AroundIndex<T>(s: seq<T>, i: int)
    requires 0 <= i < |s|
    ensures s == s[..i] + [s[i]] + s[i + 1..]
  {
  }

  /** Joining a first part before at least one more. */
  lemma JoinCons(a: string, rest: seq<string>, sep: string)
    requires |rest| >= 1
    ensures Join([a] + rest, sep) == a + sep + Join(rest, sep)
  {
    assert ([a] + rest)[1..] == rest;
  }

  /** `s.split(sep)` undoes `sep.join(parts)` when no part holds `sep`. */
  lemma {:induction false} SplitJoin(parts: seq<string>, sep: char)
    requires |parts| >= 1
    requires forall k :: 0 <= k < |parts| ==> sep !in parts[k]
    ensures Split(Join(parts, [sep]), sep) == parts
    decreases |parts|
  {
    if |parts| > 1 {
      var p := parts[0];
      var tail := Join(parts[1..], [sep]);
      var s := Join(parts, [sep]);
      assert s == p + [sep] + tail;
      assert s[|p|] == sep;
      assert forall j :: 0 <= j < |p| ==> s[j] == p[j] && s[j] != sep;
      var i := IndexOf(s, sep);
      assert i == |p|;
      assert s[..i] == p;
      assert s[i + 1..] == tail;
      SplitJoin(parts[1..], sep);
      assert parts == [p] + parts[1..];
    }
  }

  /** Every piece of `s.split(sep)` occurs in `s`. */
  lemma {:induction false} SplitPieceIsSubstring(s: string, sep: char, k: int)
    requires 0 <= k < |Split(s, sep)|
    ensures IsSubstring(Split(s, sep)[k], s)
    decreases |s|
  {
    var i := IndexOf(s, sep);
    if i < 0 {
      SplitWhole(s, sep);
    } else if k == 0 {
      SplitHead(s, sep);
    } else {
      SplitTailPiece(s, sep, k);
      SplitPieceIsSubstring(s[i + 1..], sep, k - 1);
      SubstringOfTail(Split(s, sep)[k], s, i + 1);
    }
  }

  /** Without a separator the string is its only piece. */
  lemma SplitWhole(s: string, sep: char)
    requires IndexOf(s, sep) < 0
    ensures Split(s, sep) == [s] && IsSubstring(s, s)
  {
    assert OccursAt(s, s, 0);
  }

  /** The first piece, before a separator, occurs at the start. */
  lemma SplitHead(s: string, sep: char)
    requires IndexOf(s, sep) >= 0
    ensures IsSubstring(Split(s, sep)[0], s)
  {
    SplitUnfold(s, sep);
    assert OccursAt(s[..IndexOf(s, sep)], s, 0);
  }

  /** Every later piece is a piece of the text after the first separator. */
  lemma SplitTailPiece(s: string, sep: char, k: int)
    requires IndexOf(s, sep) >= 0 && 0 < k < |Split(s, sep)|
    ensures var i := IndexOf(s, sep);
            k - 1 < |Split(s[i + 1..], sep)| && Split(s, sep)[k] == Split(s[i + 1..], sep)[k - 1]
  {
    SplitUnfold(s, sep);
  }

  /** A string split on `sep` has one more piece than it has separators. */
  lemma {:induction false} SplitCount(s: string, sep: char)
    ensures |Split(s, sep)| == CountChar(s, sep) + 1
    decreases |s|
  {
    var i := IndexOf(s, sep);
    if i < 0 {
      NoSepBefore(s, sep);
      CountCharNone(s, sep);
      SplitWhole(s, sep);
    } else {
      SplitStep(s, sep);
      SplitCount(s[i + 1..], sep);
    }
  }

  /** Cutting at the first separator removes one piece and one separator. */
  lemma SplitStep(s: string, sep: char)
    requires IndexOf(s, sep) >= 0
    ensures var t := s[IndexOf(s, sep) + 1..];
            && |Split(s, sep)| == 1 + |Split(t, sep)|
            && CountChar(s, sep) == 1 + CountChar(t, sep)
  {
    var i := IndexOf(s, sep);
    var a, t := s[..i], s[i + 1..];
    assert s == a + [sep] + t;
    CountCharAround(a, sep, t);
  }

  /** A text with one `c` after a part free of it counts one more `c` than its rest. */
  lemma CountCharAround(a: string, c: char, t: string)
    requires c !in a
    ensures CountChar(a + [c] + t, c) == 1 + CountChar(t, c)
  {
    assert a + [c] + t == a + ([c] + t);
    CountCharAppend(a, [c] + t, c);
    CountCharAppend([c], t, c);
    CountCharNone(a, c);
    assert CountChar([c], c) == 1 by {
      assert [c][..0] == [];
    }
  }

  lemma {:induction false} CountCharNone(s: string, c: char)
    requires c !in s
    ensures CountChar(s, c) == 0
    decreases |s|
  {
    if |s| > 0 {
      assert c !in s[..|s| - 1];
      CountCharNone(s[..|s| - 1], c);
    }
  }

  /** `Join` of a list with one more element. */
  lemma {:induction false} JoinSnoc(parts: seq<string>, x: string, sep: string)
    ensures Join(parts + [x], sep) == if parts == [] then x else Join(parts, sep) + sep + x
    decreases |parts|
  {
    if |parts| == 1 {
      assert parts + [x] == [parts[0], x];
    } else if |parts| > 1 {
      assert (parts + [x])[1..] == parts[1..] + [x];
      JoinSnoc(parts[1..], x, sep);
    }
  }

  /** Joining two non-empty lists is joining each and putting one separator between them. */
  lemma {:induction false} JoinConcat(a: seq<string>, b: seq<string>, sep: string)
    requires |a| >= 1 && |b| >= 1
    ensures Join(a + b, sep) == Join(a, sep) + sep + Join(b, sep)
    decreases |b|
  {
    var front := b[..|b| - 1];
    var x := b[|b| - 1];
    assert b == front + [x];
    assert a + b == (a + front) + [x];
    JoinSnoc(a + front, x, sep);
    JoinSnoc(front, x, sep);
    if front != [] {
      JoinConcat(a, front, sep);
    } else {
      assert a + front == a;
    }
  }

  /** Joining `a`, one more part and `b` puts the separator on both sides of that part. */
  lemma JoinAround(a: seq<string>, x: string, b: seq<string>, sep: string)
    requires |a| >= 1 && |b| >= 1
    ensures Join(a + [x] + b, sep) == Join(a, sep) + (sep + x + sep) + Join(b, sep)
  {
    var ja, jb := Join(a, sep), Join(b, sep);
    JoinConcat([x], b, sep);
    assert Join([x], sep) == x;
    var right := Join([x] + b, sep);
    assert right == x + sep + jb;
    JoinConcat(a, [x] + b, sep);
    assert a + ([x] + b) == a + [x] + b;
    assert Join(a + [x] + b, sep) == ja + sep + right;
    Around(ja, sep, x, jb);
  }

  /** Regrouping three parts. */
  lemma Regroup3<T>(p: seq<T>, q: seq<T>, r: seq<T>)
    ensures p + q + r == p + (q + r)
  {
  }

  /** The elements of `p + q`: those of `p`, then those of `q`. */
  lemma ConcatAt<T>(p: seq<T>, q: seq<T>)
    ensures |p + q| == |p| + |q|
    ensures forall k :: 0 <= k < |p| ==> (p + q)[k] == p[k]
    ensures forall k :: |p| <= k < |p + q| ==> (p + q)[k] == q[k - |p|]
  {
  }

  /** Regrouping the parts of `p + s + x + s + q`. */
  lemma Around<T>(p: seq<T>, s: seq<T>, x: seq<T>, q: seq<T>)
    ensures p + s + (x + s + q) == p + (s + x + s) + q
  {
  }

  /** Length of the leading run of non-space characters. */
  function WordLength(s: string): (n: nat)
    ensures n <= |s|
    ensures forall j :: 0 <= j < n ==> !IsSpace(s[j])
    ensures n < |s| ==> IsSpace(s[n])
  {
    if |s| == 0 || IsSpace(s[0]) then 0 else 1 + WordLength(s[1..])
  }

  /** `s.split()` with no argument: the maximal runs of non-space characters, in order. */
  function Words(s: string): (r: seq<string>)
    ensures forall k :: 0 <= k < |r| ==> |r[k]| > 0
    ensures forall k, j :: 0 <= k < |r| && 0 <= j < |r[k]| ==> !IsSpace(r[k][j])
    decreases |s|
  {
    if |s| == 0 then []
    else if IsSpace(s[0]) then Words(s[1..])
    else
      var n := WordLength(s);
      [s[..n]] + Words(s[n..])
  }

  /** A word followed by white space, or by nothing, is the first word. */
  lemma FirstWord(w: string, rest: string)
    requires |w| > 0 && forall j :: 0 <= j < |w| ==> !IsSpace(w[j])
    requires rest == [] || IsSpace(rest[0])
    ensures Words(w + rest) != [] && Words(w + rest)[0] == w
    ensures rest == [] ==> Words(w + rest) == [w]
  {
    var s := w + rest;
    assert forall j :: 0 <= j < |w| ==> s[j] == w[j];
    var n := WordLength(s);
    assert n >= |w|;
    if rest != [] {
      assert s[|w|] == rest[0];
    }
    assert n == |w|;
    assert s[..n] == w;
    if rest == [] {
      assert s[n..] == [];
    }
  }

  // ---------------------------------------------------------------- predicates

  /** Python's `needle in hay` for strings. */
  predicate IsSubstring(needle: string, hay: string) {
    exists i | 0 <= i <= |hay| - |needle| :: OccursAt(needle, hay, i)
  }

  /** `needle` occurs in `hay` starting at index `i`. */
  predicate OccursAt(needle: string, hay: string, i: int) {
    0 <= i <= |hay| - |needle| && hay[i..i + |needle|] == needle
  }

  lemma SubstringOfConcat(a: string, needle: string, b: string)
    ensures IsSubstring(needle, a + needle + b)
  {
    var h := a + needle + b;
    assert OccursAt(needle, h, |a|);
  }

  /** What occurs in a tail of `s` occurs in `s`. */
  lemma SubstringOfTail(needle: string, s: string, i: int)
    requires 0 <= i <= |s| && IsSubstring(needle, s[i..])
    ensures IsSubstring(needle, s)
  {
    var j :| 0 <= j <= |s[i..]| - |needle| && OccursAt(needle, s[i..], j);
    assert s[i..][j..j + |needle|] == s[i + j..i + j + |needle|];
    assert OccursAt(needle, s, i + j);
  }

  lemma SubstringOfSuffix(needle: string, a: string, b: string)
    requires IsSubstring(needle, b)
    ensures IsSubstring(needle, a + b)
  {
    var i :| 0 <= i <= |b| - |needle| && OccursAt(needle, b, i);
    assert (a + b)[|a| + i..|a| + i + |needle|] == b[i..i + |needle|];
    assert OccursAt(needle, a + b, |a| + i);
  }

  lemma SubstringOfPrefix(needle: string, a: string, b: string)
    requires IsSubstring(needle, a)
    ensures IsSubstring(needle, a + b)
  {
    var i :| 0 <= i <= |a| - |needle| && OccursAt(needle, a, i);
    assert (a + b)[i..i + |needle|] == a[i..i + |needle|];
    assert OccursAt(needle, a + b, i);
  }

  /** `in` is transitive. */
  lemma SubstringTrans(a: string, b: string, c: string)
    requires IsSubstring(a, b) && IsSubstring(b, c)
    ensures IsSubstring(a, c)
  {
    var i :| 0 <= i <= |b| - |a| && OccursAt(a, b, i);
    var j :| 0 <= j <= |c| - |b| && OccursAt(b, c, j);
    assert forall k :: 0 <= k < |b| ==> c[j + k] == b[k] by {
      forall k | 0 <= k < |b| ensures c[j + k] == b[k] {
        assert c[j..j + |b|][k] == c[j + k];
      }
    }
    assert forall k :: 0 <= k < |a| ==> b[i + k] == a[k] by {
      forall k | 0 <= k < |a| ensures b[i + k] == a[k] {
        assert b[i..i + |a|][k] == b[i + k];
      }
    }
    assert c[j + i..j + i + |a|] == a;
    assert OccursAt(a, c, j + i);
  }

  /** Lower-casing keeps an occurrence where it was. */
  lemma LowerSubstring(a: string, b: string)
    requires IsSubstring(a, b)
    ensures IsSubstring(Lower(a), Lower(b))
  {
    var i :| 0 <= i <= |b| - |a| && OccursAt(a, b, i);
    assert Lower(b)[i..i + |a|] == Lower(a);
    assert OccursAt(Lower(a), Lower(b), i);
  }

  /**
   * Stripping only removes whitespace at the ends, so an occurrence of a
   * needle that starts and ends with a non-space character survives it.
   */
  lemma SubstringSurvivesStrip(needle: string, s: string)
    requires IsSubstring(needle, s)
    requires |needle| > 0 && !IsSpace(needle[0]) && !IsSpace(needle[|needle| - 1])
    ensures IsSubstring(needle, Strip(s))
  {
    var p :| 0 <= p <= |s| - |needle| && OccursAt(needle, s, p);
    var n := |needle|;
    assert s[p] == needle[0] && s[p + n - 1] == needle[n - 1] by {
      assert s[p..p + n] == needle;
    }
    StripFacts(s);
    var a := |s| - |LStrip(s)|;
    var r := Strip(s);
    assert p >= a;
    assert p + n <= a + |r|;
    forall k | 0 <= k < n ensures r[p - a + k] == needle[k] {
      assert r[p - a + k] == s[p + k];
      assert s[p..p + n][k] == s[p + k];
    }
    assert r[p - a..p - a + n] == needle;
    assert OccursAt(needle, r, p - a);
  }

  /** Every part occurs in the joined string. */
  lemma {:induction false} JoinContains(parts: seq<string>, sep: string, k: int)
    requires 0 <= k < |parts|
    ensures IsSubstring(parts[k], Join(parts, sep))
    decreases |parts|
  {
    if |parts| == 1 {
      SubstringOfConcat([], parts[0], []);
      assert [] + parts[0] + [] == parts[0];
    } else if k == 0 {
      SubstringOfConcat([], parts[0], sep + Join(parts[1..], sep));
      assert [] + parts[0] + (sep + Join(parts[1..], sep)) == Join(parts, sep);
    } else {
      JoinContains(parts[1..], sep, k - 1);
      SubstringOfSuffix(parts[k], parts[0] + sep, Join(parts[1..], sep));
      assert parts[0] + sep + Join(parts[1..], sep) == Join(parts, sep);
    }
  }

  /** Lower-casing twice is lower-casing once. */
  lemma LowerIdempotent(s: string)
    ensures Lower(Lower(s)) == Lower(s)
  {
    assert forall i :: 0 <= i < |s| ==> Lower(Lower(s))[i] == Lower(s)[i];
  }

  /** `total == s + (a + b)` read as `(s + a) + b`. */
  lemma Regroup<T>(total: seq<T>, s: seq<T>, a: seq<T>, b: seq<T>)
    requires total == s + (a + b)
    ensures total == (s + a) + b
  {
  }

  /** `s.startswith(p)`. */
  predicate StartsWith(s: string, p: string) {
    |p| <= |s| && s[..|p|] == p
  }

  // ---------------------------------------------------------------- slicing

  /** How Python normalises one slice bound against a length. */
  function Clamp(i: int, len: nat): (r: nat)
    ensures r <= len
  {
    if i < 0 then (if i + len < 0 then 0 else i + len) else if i > len then len else i
  }

  /** Python's `s[a:b]`, negative bounds counting from the end. */
  function Slice<T>(s: seq<T>, a: int, b: int): (r: seq<T>)
    ensures |r| <= |s|
  {
    var x := Clamp(a, |s|);
    var y := Clamp(b, |s|);
    if x < y then s[x..y] else []
  }

  /** Python's `s[:n]` for `n >= 0`. */
  function Take<T>(s: seq<T>, n: nat): (r: seq<T>)
    ensures |r| == if n < |s| then n else |s|
  {
    if n < |s| then s[..n] else s
  }

  /** The concatenation of a list of lists, in order. */
  function Flatten<T>(xss: seq<seq<T>>): seq<T>
    decreases |xss|
  {
    if xss == [] then [] else Flatten(xss[..|xss| - 1]) + xss[|xss| - 1]
  }

  lemma FlattenSnoc<T>(xss: seq<seq<T>>, xs: seq<T>)
    ensures Flatten(xss + [xs]) == Flatten(xss) + xs
  {
    assert (xss + [xs])[..|xss|] == xss;
  }

  /** An element of the concatenation comes from one of the lists, and every element of every list is in it. */
  lemma {:induction false} FlattenMember<T>(xss: seq<seq<T>>, x: T)
    ensures x in Flatten(xss) <==> exists k :: 0 <= k < |xss| && x in xss[k]
    decreases |xss|
  {
    if xss != [] {
      var front := xss[..|xss| - 1];
      FlattenMember(front, x);
      assert forall k :: 0 <= k < |front| ==> front[k] == xss[k];
    }
  }

  /** Appending the next list after a prefix and the concatenation of the first `i` lists. */
  lemma FlattenStep<T>(h: seq<T>, xss: seq<seq<T>>, i: int, before: seq<T>, after: seq<T>)
    requires 0 <= i < |xss|
    requires before == h + Flatten(xss[..i])
    requires after == before + xss[i]
    ensures after == h + Flatten(xss[..i + 1])
  {
    FlattenSnoc(xss[..i], xss[i]);
    assert xss[..i + 1] == xss[..i] + [xss[i]];
  }

  /** Each of the joined strings occurs, whole, in their concatenation. */
  lemma {:induction false} FlattenContains(xss: seq<string>, k: int)
    requires 0 <= k < |xss|
    ensures IsSubstring(xss[k], Flatten(xss))
    decreases |xss|
  {
    var front := xss[..|xss| - 1];
    if k == |xss| - 1 {
      SubstringOfConcat(Flatten(front), xss[k], []);
      assert Flatten(front) + xss[k] + [] == Flatten(xss);
    } else {
      FlattenContains(front, k);
      assert front[k] == xss[k];
      SubstringOfPrefix(xss[k], Flatten(front), xss[|xss| - 1]);
    }
  }

  /** `s.replace(pat, rep)`: every non-overlapping occurrence, left to right. */
  function Replace(s: string, pat: string, rep: string): string
    requires |pat| > 0
    decreases |s|
  {
    if |s| < |pat| then s
    else if s[..|pat|] == pat then rep + Replace(s[|pat|..], pat, rep)
    else [s[0]] + Replace(s[1..], pat, rep)
  }

  // ---------------------------------------------------------------- numbers

  function DigitChar(d: nat): (c: char)
    requires d < 10
    ensures '0' <= c <= '9'
  {
    (d + 48) as char
  }

  /** `str(n)` for a non-negative integer: its decimal digits. */
  function NatToString(n: nat): (r: string)
    ensures |r| >= 1
    ensures forall i :: 0 <= i < |r| ==> '0' <= r[i] <= '9'
  {
    if n < 10 then [DigitChar(n)] else NatToString(n / 10) + [DigitChar(n % 10)]
  }

  /** `str(i)` for any integer. */
  function IntToString(i: int): string {
    if i < 0 then "-" + NatToString(-i) else NatToString(i)
  }

  /** `f"{s:>w}"`: right-aligned in a field of width `w`. */
  function PadLeft(s: string, w: nat): (r: string)
    ensures |r| == if |s| < w then w else |s|
  {
    if |s| < w then Repeat(' ', w - |s|) + s else s
  }

  /** A written integer is one line: digits and a sign only. */
  lemma IntToStringOneLine(n: int)
    ensures '\n' !in IntToString(n)
  {
    var d := NatToString(if n < 0 then -n else n);
    assert '\n' !in d;
    assert IntToString(n) == d || IntToString(n) == "-" + d;
  }

  /** A formatted integer is one line: its digits, a sign and padding only. */
  lemma Format5OneLine(n: int)
    ensures '\n' !in Format5(n)
  {
    IntToStringOneLine(n);
  }

  /** `f"{n:5d}"`. */
  function Format5(n: int): string {
    PadLeft(IntToString(n), 5)
  }
}
