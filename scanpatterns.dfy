/** The declaration recognisers of the code scanner (plugin/CodeScanner.kt).

    The scanner runs `find()` with five Java regular expressions of the shape
        (val|var|lateinit var)\s+\w+\s*[:=]\s*(\w+\.)*<Type><.*>         (Flow, StateFlow, LiveData)
        (val|var|lateinit var)\s+\w+\s*[:=]\s*(\w+\.)*<Type><.*>\(.*\)   (MutableStateFlow, MutableLiveData)
    on each line, and `extractVariableName` runs `(val|var|lateinit var)\s+(\w+)`
    on the matched text. Each is written out here as a recogniser. Up to the
    `<` every step has exactly one way to match: the three keywords begin
    differently, `\s`, `\w`, `:`/`=` and `.` are disjoint classes, so every run
    is maximal, and a qualifier segment `\w+\.` cannot begin where `<Type><`
    does. Only the trailing `.*` can backtrack; it ends at the last `>` (or
    `)`) before the end of the line. */
module ScanPatterns {
  import opened Text

  /** `\w`: an ASCII letter, digit or underscore. */
  predicate IsWordChar(c: char) {
    ('a' <= c <= 'z') || ('A' <= c <= 'Z') || ('0' <= c <= '9') || c == '_'
  }

  /** `\s`: space, tab, line feed, vertical tab, form feed, carriage return. */
  predicate IsRegexSpace(c: char) {
    c == ' ' || c == '\t' || c == '\n' || c == '\U{B}' || c == '\U{C}' || c == '\r'
  }

  /** The characters `.` does not match: Java's line terminators. */
  predicate IsLineTerminator(c: char) {
    c == '\n' || c == '\r' || c == '\U{85}' || c == '\U{2028}' || c == '\U{2029}'
  }

  /** Length of the longest run of word characters starting at `i`. */
  function WordRun(s: string, i: nat): (n: nat)
    requires i <= |s|
    ensures i + n <= |s|
    decreases |s| - i
  {
    if i < |s| && IsWordChar(s[i]) then 1 + WordRun(s, i + 1) else 0
  }

  /** Length of the longest run of `\s` characters starting at `i`. */
  function SpaceRun(s: string, i: nat): (n: nat)
    requires i <= |s|
    ensures i + n <= |s|
    decreases |s| - i
  {
    if i < |s| && IsRegexSpace(s[i]) then 1 + SpaceRun(s, i + 1) else 0
  }

  /** Length of the longest run of characters `.` matches, starting at `i`. */
  function LineRun(s: string, i: nat): (n: nat)
    requires i <= |s|
    ensures i + n <= |s|
    decreases |s| - i
  {
    if i < |s| && !IsLineTerminator(s[i]) then 1 + LineRun(s, i + 1) else 0
  }

  /** The literal `w` matched at `q`, character by character. */
  predicate TextAt(s: string, q: nat, w: string): (r: bool)
    ensures r ==> q + |w| <= |s|
    decreases |s| - q
  {
    if w == [] then q <= |s| else q < |s| && s[q] == w[0] && TextAt(s, q + 1, w[1..])
  }

  /** Matching a literal character by character is finding it at that position. */
  lemma {:induction false} TextAtOccurs(s: string, q: nat, w: string)
    ensures TextAt(s, q, w) <==> OccursAt(s, w, q)
    decreases |s| - q
  {
    if w != [] && q < |s| {
      TextAtOccurs(s, q + 1, w[1..]);
      if q + |w| <= |s| {
        assert s[q..q + |w|] == [s[q]] + s[q + 1..q + 1 + |w[1..]|];
        assert w == [w[0]] + w[1..];
      }
    }
  }

  /** `(val|var|lateinit var)` at `i`: the length of the keyword found, 0 for none. */
  function KeywordAt(s: string, i: nat): (n: nat)
    ensures n == 0 || n == 3 || n == 12
    ensures n > 0 ==> i + n <= |s|
  {
    if TextAt(s, i, "val") || TextAt(s, i, "var") then 3
    else if TextAt(s, i, "lateinit var") then 12
    else 0
  }

  /** Where the declared identifier lies in a line. */
  datatype Span = Span(start: nat, end: nat)

  /** `(val|var|lateinit var)\s+(\w+)` matched at `i`: the span of group 2. */
  function NameAt(s: string, i: nat): (r: Option<Span>)
    requires i <= |s|
    ensures r.Some? ==> i < r.value.start < r.value.end <= |s|
  {
    var k := KeywordAt(s, i);
    if k == 0 then None
    else
      var a := i + k;
      var w := SpaceRun(s, a);
      if w == 0 then None
      else
        var n := WordRun(s, a + w);
        if n == 0 then None else Some(Span(a + w, a + w + n))
  }

  /** `matcher.find()` of the name pattern from position `i` on: the first start at which it matches. */
  function FindName(d: string, i: nat): (r: Option<string>)
    requires i <= |d|
    decreases |d| - i
  {
    match NameAt(d, i)
    case Some(span) => Some(d[span.start..span.end])
    case None => if i == |d| then None else FindName(d, i + 1)
  }

  /** `extractVariableName`: the identifier after the first `val`, `var` or
      `lateinit var` followed by whitespace, or null when there is none. */
  function ExtractVariableName(declaration: string): Option<string> {
    FindName(declaration, 0)
  }

  /** `(\w+\.)*` from `p`: skips every `segment.` in turn. */
  function SkipQualifier(s: string, p: nat): (q: nat)
    requires p <= |s|
    ensures p <= q <= |s|
    decreases |s| - p
  {
    var n := WordRun(s, p);
    if n > 0 && p + n < |s| && s[p + n] == '.' then SkipQualifier(s, p + n + 1) else p
  }

  /** The last index in `[lo, hi)` holding `c`. */
  function LastIndex(s: string, lo: nat, hi: nat, c: char): (r: Option<nat>)
    requires lo <= hi <= |s|
    ensures r.Some? ==> lo <= r.value < hi
    decreases hi - lo
  {
    if lo == hi then None
    else if s[hi - 1] == c then Some(hi - 1)
    else LastIndex(s, lo, hi - 1, c)
  }

  /** `LastIndex` finds `c` at the index it reports and nowhere after it; when it
      reports nothing, `c` does not occur in the range. */
  lemma {:induction false} LastIndexSpec(s: string, lo: nat, hi: nat, c: char)
    requires lo <= hi <= |s|
    ensures var r := LastIndex(s, lo, hi, c);
      && (r.Some? ==> s[r.value] == c && forall k :: r.value < k < hi ==> s[k] != c)
      && (r.None? ==> forall k :: lo <= k < hi ==> s[k] != c)
    decreases hi - lo
  {
    if lo < hi && s[hi - 1] != c {
      LastIndexSpec(s, lo, hi - 1, c);
    }
  }

  /** One of the five declaration patterns: the type name before `<`, and whether
      a constructor call `\(.*\)` must follow the type argument. */
  datatype Shape = Shape(typeName: string, withCall: bool)

  const FlowShape := Shape("Flow", false)
  const StateFlowShape := Shape("StateFlow", false)
  const MutableStateFlowShape := Shape("MutableStateFlow", true)
  const LiveDataShape := Shape("LiveData", false)
  const MutableLiveDataShape := Shape("MutableLiveData", true)

  /** `.*>` or `.*>\(.*\)` from `t`, inside the line: the end of the match. */
  function TailEnd(s: string, t: nat, withCall: bool): (r: Option<nat>)
    requires t <= |s|
    ensures r.Some? ==> t < r.value <= |s|
  {
    var lineEnd := t + LineRun(s, t);
    if !withCall then
      match LastIndex(s, t, lineEnd, '>')
      case Some(j) => Some(j + 1)
      case None => None
    else
      match LastIndex(s, t, lineEnd, ')')
      case Some(k) => if Contains(s[t..k], ">(") then Some(k + 1) else None
      case None => None
  }

  /** The head of every declaration pattern, `(val|var|lateinit var)\s+\w+\s*[:=]\s*(\w+\.)*`,
      matched from `i`: where the type name has to begin. */
  function TypeStart(s: string, i: nat): (r: Option<nat>)
    requires i <= |s|
    ensures r.Some? ==> NameAt(s, i).Some? && NameAt(s, i).value.end < r.value <= |s|
  {
    match NameAt(s, i)
    case None => None
    case Some(span) =>
      var c := span.end + SpaceRun(s, span.end);
      if c < |s| && (s[c] == ':' || s[c] == '=') then
        Some(SkipQualifier(s, c + 1 + SpaceRun(s, c + 1)))
      else None
  }

  /** The whole pattern matched from `i`: the end of the match. */
  function MatchAt(s: string, i: nat, shape: Shape): (r: Option<nat>)
    requires i <= |s|
    ensures r.Some? ==> NameAt(s, i).Some? && NameAt(s, i).value.end < r.value <= |s|
  {
    match TypeStart(s, i)
    case None => None
    case Some(q) =>
      if TextAt(s, q, shape.typeName + "<") then TailEnd(s, q + |shape.typeName| + 1, shape.withCall)
      else None
  }

  /** A match found by `find()`: where it starts and ends. */
  datatype Found = Found(start: nat, end: nat)

  /** `matcher.find()` from position `i` on: the leftmost start at which the pattern matches. */
  function FindFrom(s: string, shape: Shape, i: nat): (r: Option<Found>)
    requires i <= |s|
    ensures r.Some? ==> i <= r.value.start <= |s| && NameAt(s, r.value.start).Some?
                        && NameAt(s, r.value.start).value.end < r.value.end <= |s|
    decreases |s| - i
  {
    match MatchAt(s, i, shape)
    case Some(e) => Some(Found(i, e))
    case None => if i == |s| then None else FindFrom(s, shape, i + 1)
  }

  /** The pattern matches at no start in `[lo, hi)`, checked start by start. */
  ghost predicate NoMatchIn(s: string, shape: Shape, lo: nat, hi: nat)
    decreases hi - lo
  {
    lo >= hi || (lo <= |s| && MatchAt(s, lo, shape).None? && NoMatchIn(s, shape, lo + 1, hi))
  }

  /** Checking start by start is checking every start. */
  lemma {:induction false} NoMatchInEvery(s: string, shape: Shape, lo: nat, hi: nat)
    requires hi <= |s| + 1
    ensures NoMatchIn(s, shape, lo, hi) <==> forall k :: lo <= k < hi ==> MatchAt(s, k, shape).None?
    decreases hi - lo
  {
    if lo < hi {
      NoMatchInEvery(s, shape, lo + 1, hi);
    }
  }

  /** `find()` reports a start at which the pattern matches, with the end of that
      match, and no start before it matches; it reports nothing only when the
      pattern matches at no start from `i` on. */
  lemma {:induction false} FindFromLeftmost(s: string, shape: Shape, i: nat)
    requires i <= |s|
    ensures var r := FindFrom(s, shape, i);
      && (r.Some? ==> MatchAt(s, r.value.start, shape) == Some(r.value.end) && NoMatchIn(s, shape, i, r.value.start))
      && (r.None? ==> NoMatchIn(s, shape, i, |s| + 1))
    decreases |s| - i
  {
    if MatchAt(s, i, shape).None? && i < |s| {
      FindFromLeftmost(s, shape, i + 1);
    }
  }

  function Find(s: string, shape: Shape): Option<Found> {
    FindFrom(s, shape, 0)
  }

  /** A run measured inside a slice is the run of the whole string, as long as
      the slice extends past the run's end. */
  lemma {:induction false} WordRunInSlice(s: string, lo: nat, hi: nat, j: nat)
    requires lo <= j <= hi <= |s| && j + WordRun(s, j) < hi
    ensures WordRun(s[lo..hi], j - lo) == WordRun(s, j)
    decreases hi - j
  {
    if IsWordChar(s[j]) {
      WordRunInSlice(s, lo, hi, j + 1);
    }
  }

  lemma {:induction false} SpaceRunInSlice(s: string, lo: nat, hi: nat, j: nat)
    requires lo <= j <= hi <= |s| && j + SpaceRun(s, j) < hi
    ensures SpaceRun(s[lo..hi], j - lo) == SpaceRun(s, j)
    decreases hi - j
  {
    if IsRegexSpace(s[j]) {
      SpaceRunInSlice(s, lo, hi, j + 1);
    }
  }

  /** A literal matched inside a slice is matched at the same place of the whole string. */
  lemma {:induction false} TextAtInSlice(s: string, lo: nat, hi: nat, q: nat, w: string)
    requires lo <= q && q + |w| <= hi <= |s|
    ensures TextAt(s[lo..hi], q - lo, w) == TextAt(s, q, w)
    decreases |w|
  {
    if w != [] {
      TextAtInSlice(s, lo, hi, q + 1, w[1..]);
    }
  }

  /** The keyword at the start of the matched text is the keyword of the line. */
  lemma KeywordInSlice(s: string, i: nat, e: nat)
    requires i <= e <= |s| && KeywordAt(s, i) > 0 && i + KeywordAt(s, i) <= e
    ensures KeywordAt(s[i..e], 0) == KeywordAt(s, i)
  {
    TextAtInSlice(s, i, e, i, "val");
    TextAtInSlice(s, i, e, i, "var");
    if KeywordAt(s, i) == 12 {
      TextAtInSlice(s, i, e, i, "lateinit var");
    }
  }

  /** The name pattern, run on the matched text, finds the declaration's own
      identifier at the start of the match. */
  lemma NameAtStartOfMatch(s: string, i: nat, e: nat)
    requires i <= e <= |s| && NameAt(s, i).Some? && NameAt(s, i).value.end < e
    ensures NameAt(s[i..e], 0) == Some(Span(NameAt(s, i).value.start - i, NameAt(s, i).value.end - i))
  {
    var k := KeywordAt(s, i);
    var a := i + k;
    var w := SpaceRun(s, a);
    var n := WordRun(s, a + w);
    assert NameAt(s, i) == Some(Span(a + w, a + w + n));
    KeywordInSlice(s, i, e);
    SpaceRunInSlice(s, i, e, a);
    WordRunInSlice(s, i, e, a + w);
  }

  /** `extractVariableName` on text cut from a line at a declaration start, past the
      identifier, yields that identifier. */
  lemma ExtractFromCut(s: string, i: nat, e: nat)
    requires i <= e <= |s| && NameAt(s, i).Some? && NameAt(s, i).value.end < e
    ensures ExtractVariableName(s[i..e]) == Some(s[NameAt(s, i).value.start..NameAt(s, i).value.end])
  {
    var span := NameAt(s, i).value;
    var d := s[i..e];
    NameAtStartOfMatch(s, i, e);
    assert FindName(d, 0) == Some(d[span.start - i..span.end - i]);
    SliceOfSlice(s, i, e, span.start, span.end);
  }

  /** A slice of a slice is the slice of the whole at the shifted bounds. */
  lemma SliceOfSlice(s: string, i: nat, e: nat, a: nat, b: nat)
    requires i <= a <= b <= e <= |s|
    ensures s[i..e][a - i..b - i] == s[a..b]
  {
    var d := s[i..e];
    forall k | 0 <= k < b - a
      ensures d[a - i..b - i][k] == s[a..b][k]
    {
      assert d[a - i..b - i][k] == d[a - i + k] == s[a + k];
    }
  }

  /** The name a detection reports is never the "Unknown" fallback: the name
      pattern always finds, in the matched text, the identifier the declaration
      pattern matched. */
  lemma DetectedNameIsDeclared(line: string, shape: Shape)
    requires Find(line, shape).Some?
    ensures var f := Find(line, shape).value;
      ExtractVariableName(line[f.start..f.end]) == Some(line[NameAt(line, f.start).value.start..NameAt(line, f.start).value.end])
  {
    var f := Find(line, shape).value;
    ExtractFromCut(line, f.start, f.end);
  }

  /** `extractVariableName` finds no name in text without any keyword followed by whitespace. */
  lemma {:induction false} NoKeywordNoName(d: string, i: nat)
    requires i <= |d|
    requires forall k :: i <= k <= |d| ==> NameAt(d, k).None?
    ensures FindName(d, i).None?
    decreases |d| - i
  {
    if i < |d| {
      NoKeywordNoName(d, i + 1);
    }
  }

  /** At one start, a line declares at most one of the three plain type names. */
  lemma PlainShapesExclusive(s: string, i: nat)
    requires i <= |s|
    ensures !(MatchAt(s, i, FlowShape).Some? && MatchAt(s, i, StateFlowShape).Some?)
    ensures !(MatchAt(s, i, FlowShape).Some? && MatchAt(s, i, LiveDataShape).Some?)
    ensures !(MatchAt(s, i, StateFlowShape).Some? && MatchAt(s, i, LiveDataShape).Some?)
  {
    if TypeStart(s, i).Some? {
      var q := TypeStart(s, i).value;
      assert TextAt(s, q, "Flow<") ==> s[q] == 'F';
      assert TextAt(s, q, "StateFlow<") ==> s[q] == 'S';
      assert TextAt(s, q, "LiveData<") ==> s[q] == 'L';
    }
  }

  /** The declaration line of the examples below. */
  const TypedDeclaration := "val x: Flow<T>"

  /** The keyword, the space after it and the identifier of the example. */
  lemma DeclarationNameSpan()
    ensures NameAt(TypedDeclaration, 0) == Some(Span(4, 5))
  {
    var s := TypedDeclaration;
    assert TextAt(s, 0, "val");
    assert SpaceRun(s, 3) == 1;
    assert WordRun(s, 4) == 1;
  }

  /** The head of a typed declaration ends where its type name begins. */
  lemma TypedDeclarationHead()
    ensures TypeStart(TypedDeclaration, 0) == Some(7)
  {
    var s := TypedDeclaration;
    DeclarationNameSpan();
    assert SpaceRun(s, 5) == 0 && s[5] == ':';
    assert SpaceRun(s, 6) == 1;
    QualifierOfExample();
  }

  /** The example's type name carries no package qualifier. */
  lemma QualifierOfExample()
    ensures SkipQualifier(TypedDeclaration, 7) == 7
  {
    assert WordRun(TypedDeclaration, 7) == 4;
  }

  /** After the type name of the example, `<.*>` runs to its last character. */
  lemma TypedDeclarationTail()
    ensures TextAt(TypedDeclaration, 7, "Flow<")
    ensures TailEnd(TypedDeclaration, 12, false) == Some(14)
  {
    var s := TypedDeclaration;
    assert TextAt(s, 12, "");
    assert TextAt(s, 11, "<");
    assert TextAt(s, 10, "w<");
    assert TextAt(s, 9, "ow<");
    assert TextAt(s, 8, "low<");
    assert LineRun(s, 12) == 2;
    assert LastIndex(s, 12, 14, '>') == Some(13);
  }

  /** The Flow pattern matches the example from its first character to its last `>`. */
  lemma TypedDeclarationMatch()
    ensures MatchAt(TypedDeclaration, 0, FlowShape) == Some(14)
  {
    TypedDeclarationHead();
    TypedDeclarationTail();
    assert FlowShape.typeName + "<" == "Flow<";
  }

  /** `find()` reports the typed declaration from its first character to its last `>`. */
  lemma TypedDeclarationFound()
    ensures Find(TypedDeclaration, FlowShape) == Some(Found(0, 14))
  {
    TypedDeclarationMatch();
  }

  /** The name pattern reads the identifier after the keyword. */
  lemma NameExtracted()
    ensures ExtractVariableName(TypedDeclaration) == Some("x")
  {
    DeclarationNameSpan();
    assert TypedDeclaration[4..5] == "x";
  }
}
