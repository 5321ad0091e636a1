/** The code scanner (plugin/CodeScanner.kt): walks a project tree, scans every
    Kotlin and Java source file line by line with the five declaration
    recognisers, and reports what it found to its listeners. The file system
    is an immutable tree whose files hold their lines; paths are built as
    `parent + "/" + name`, as `File(parent, name).absolutePath` does. */
module Scanner {
  import opened Text
  import opened ScanPatterns

  /** `CodeScanner.StreamType`. */
  datatype ScanType = FLOW | STATE_FLOW | LIVE_DATA

  /** `DetectedStream`. */
  datatype DetectedStream = DetectedStream(name: string, kind: ScanType, filePath: string, lineNumber: int, snippet: string)

  /** The identifier a line declares, at the first place the pattern finds a declaration. */
  function DeclaredName(line: string, shape: Shape): string
    requires Find(line, shape).Some?
  {
    var span := NameAt(line, Find(line, shape).value.start).value;
    line[span.start..span.end]
  }

  /** What one line contributes to `scanWithPattern`: the record for line `index`
      (0-based) when the pattern finds a declaration in it, nothing otherwise. */
  function Detect(shape: Shape, line: string, index: nat, filePath: string, kind: ScanType): (r: seq<DetectedStream>)
    ensures |r| <= 1
    ensures |r| == 1 <==> Find(line, shape).Some?
    ensures |r| == 1 ==>
      r[0] == DetectedStream(DeclaredName(line, shape), kind, filePath, index + 1, Trim(line))
  {
    match Find(line, shape)
    case None => []
    case Some(f) =>
      DetectedNameIsDeclared(line, shape);
      var name := ExtractVariableName(line[f.start..f.end]);
      [DetectedStream(if name.Some? then name.value else "Unknown", kind, filePath, index + 1, Trim(line))]
  }

  /** The records a per-line detector yields over the lines, in line order. */
  function Collect(detect: (string, nat) -> seq<DetectedStream>, lines: seq<string>): seq<DetectedStream> {
    if lines == [] then []
    else Collect(detect, lines[..|lines| - 1]) + detect(lines[|lines| - 1], |lines| - 1)
  }

  /** The per-line detector of one pattern. */
  function Detector(shape: Shape, filePath: string, kind: ScanType): (string, nat) -> seq<DetectedStream> {
    (line: string, index: nat) => Detect(shape, line, index, filePath, kind)
  }

  /** `scanWithPattern`: every line's contribution, in line order. */
  function PatternResults(shape: Shape, lines: seq<string>, filePath: string, kind: ScanType): seq<DetectedStream> {
    Collect(Detector(shape, filePath, kind), lines)
  }

  /** A detector that yields at most one record for a line, numbered after the line. */
  ghost predicate PerLine(detect: (string, nat) -> seq<DetectedStream>) {
    forall line: string, i: nat :: |detect(line, i)| <= 1 && (|detect(line, i)| == 1 ==> detect(line, i)[0].lineNumber == i + 1)
  }

  /** The detector yields exactly `d` for `line`, numbered `index`. */
  ghost predicate Yields(detect: (string, nat) -> seq<DetectedStream>, line: string, index: nat, d: DetectedStream) {
    |detect(line, index)| == 1 && detect(line, index)[0] == d
  }

  /** Line `i` (0-based) has a record in `r`. */
  ghost predicate Reported(r: seq<DetectedStream>, i: int) {
    exists j :: 0 <= j < |r| && r[j].lineNumber == i + 1
  }

  /** The records' line numbers strictly increase. */
  ghost predicate LineOrdered(r: seq<DetectedStream>) {
    forall j, k :: 0 <= j < k < |r| ==> r[j].lineNumber < r[k].lineNumber
  }

  /** Each record is numbered after one of the lines and is what the detector yields for that line. */
  ghost predicate YieldedBy(detect: (string, nat) -> seq<DetectedStream>, lines: seq<string>, r: seq<DetectedStream>) {
    forall j :: 0 <= j < |r| ==>
      1 <= r[j].lineNumber <= |lines| && Yields(detect, lines[r[j].lineNumber - 1], r[j].lineNumber - 1, r[j])
  }

  /** Exactly the lines for which the detector yields a record are reported. */
  ghost predicate CompleteFor(detect: (string, nat) -> seq<DetectedStream>, lines: seq<string>, r: seq<DetectedStream>) {
    forall i :: 0 <= i < |lines| ==> (Reported(r, i) <==> |detect(lines[i], i)| == 1)
  }

  /** Collecting one more line appends what the detector yields for it. */
  lemma CollectStep(detect: (string, nat) -> seq<DetectedStream>, lines: seq<string>, k: nat)
    requires k < |lines|
    ensures Collect(detect, lines[..k + 1]) == Collect(detect, lines[..k]) + detect(lines[k], k)
  {
    assert lines[..k + 1][..k] == lines[..k];
  }

  /** A per-line detector's records number no more than the lines. */
  lemma {:induction false} CollectLength(detect: (string, nat) -> seq<DetectedStream>, lines: seq<string>)
    requires PerLine(detect)
    ensures |Collect(detect, lines)| <= |lines|
    decreases |lines|
  {
    if lines != [] {
      CollectLength(detect, lines[..|lines| - 1]);
    }
  }

  /** A per-line detector's records are in strictly increasing line order, and
      each is what the detector yields for the line it is numbered after. */
  lemma {:induction false} CollectNumbered(detect: (string, nat) -> seq<DetectedStream>, lines: seq<string>)
    requires PerLine(detect)
    ensures YieldedBy(detect, lines, Collect(detect, lines))
    ensures LineOrdered(Collect(detect, lines))
    decreases |lines|
  {
    if lines != [] {
      var n := |lines| - 1;
      var init := lines[..n];
      CollectNumbered(detect, init);
      var a := Collect(detect, init);
      var b := detect(lines[n], n);
      var r := a + b;
      assert r == Collect(detect, lines);
      forall j | 0 <= j < |r|
        ensures 1 <= r[j].lineNumber <= |lines| && Yields(detect, lines[r[j].lineNumber - 1], r[j].lineNumber - 1, r[j])
      {
        if j < |a| {
          assert r[j] == a[j];
          assert init[a[j].lineNumber - 1] == lines[a[j].lineNumber - 1];
        } else {
          assert r[j] == b[0];
        }
      }
      forall j, k | 0 <= j < k < |r|
        ensures r[j].lineNumber < r[k].lineNumber
      {
        if k >= |a| {
          assert r[k] == b[0] && r[j] == a[j];
        }
      }
    }
  }

  /** Appending the records of line `n` to those of earlier lines leaves earlier
      lines reported as they were, and reports line `n` exactly when a record was appended. */
  lemma ReportedAppend(a: seq<DetectedStream>, b: seq<DetectedStream>, n: nat)
    requires forall j :: 0 <= j < |a| ==> 1 <= a[j].lineNumber <= n
    requires |b| <= 1 && (|b| == 1 ==> b[0].lineNumber == n + 1)
    ensures forall i :: 0 <= i < n ==> (Reported(a + b, i) <==> Reported(a, i))
    ensures Reported(a + b, n) <==> |b| == 1
  {
    var r := a + b;
    forall i | 0 <= i < n
      ensures Reported(r, i) <==> Reported(a, i)
    {
      if Reported(r, i) {
        var j :| 0 <= j < |r| && r[j].lineNumber == i + 1;
        assert j < |a|;
        assert r[j] == a[j];
      }
      if Reported(a, i) {
        var j :| 0 <= j < |a| && a[j].lineNumber == i + 1;
        assert r[j] == a[j];
      }
    }
    if |b| == 1 {
      assert r[|a|] == b[0];
    }
    if Reported(r, n) {
      var j :| 0 <= j < |r| && r[j].lineNumber == n + 1;
      assert j >= |a|;
    }
  }

  /** A line is reported exactly when the detector yields a record for it. */
  lemma {:induction false} CollectComplete(detect: (string, nat) -> seq<DetectedStream>, lines: seq<string>)
    requires PerLine(detect)
    ensures CompleteFor(detect, lines, Collect(detect, lines))
    decreases |lines|
  {
    if lines != [] {
      var n := |lines| - 1;
      var init := lines[..n];
      CollectComplete(detect, init);
      CollectNumbered(detect, init);
      var a := Collect(detect, init);
      var b := detect(lines[n], n);
      assert |b| <= 1 && (|b| == 1 ==> b[0].lineNumber == n + 1);
      ReportedAppend(a, b, n);
      assert a + b == Collect(detect, lines);
      forall i | 0 <= i < n
        ensures Reported(a + b, i) <==> |detect(lines[i], i)| == 1
      {
        assert init[i] == lines[i];
      }
    }
  }

  /** Each record is numbered after a line in which the pattern finds a declaration,
      and carries the declared name, the category, the file and the trimmed line. */
  ghost predicate RecordsDeclarations(shape: Shape, lines: seq<string>, filePath: string, kind: ScanType, r: seq<DetectedStream>) {
    forall j :: 0 <= j < |r| ==>
      && 1 <= r[j].lineNumber <= |lines|
      && Find(lines[r[j].lineNumber - 1], shape).Some?
      && r[j] == DetectedStream(DeclaredName(lines[r[j].lineNumber - 1], shape), kind, filePath,
                                r[j].lineNumber, Trim(lines[r[j].lineNumber - 1]))
  }

  /** Exactly the lines in which the pattern finds a declaration are reported. */
  ghost predicate ReportsDeclarations(shape: Shape, lines: seq<string>, r: seq<DetectedStream>) {
    forall i :: 0 <= i < |lines| ==> (Reported(r, i) <==> Find(lines[i], shape).Some?)
  }

  /** Whatever the detector yields for a line is the record of a declaration found in it. */
  ghost predicate DetectsDeclarations(detect: (string, nat) -> seq<DetectedStream>, shape: Shape, filePath: string, kind: ScanType) {
    forall line: string, i: nat :: |detect(line, i)| == 1 ==>
      && Find(line, shape).Some?
      && detect(line, i)[0] == DetectedStream(DeclaredName(line, shape), kind, filePath, i + 1, Trim(line))
  }

  /** A pattern's detector yields at most one record per line, numbered after
      the line, and only for a declaration found in it. */
  lemma DetectorSpec(shape: Shape, filePath: string, kind: ScanType)
    ensures PerLine(Detector(shape, filePath, kind))
    ensures DetectsDeclarations(Detector(shape, filePath, kind), shape, filePath, kind)
  {
    var detect := Detector(shape, filePath, kind);
    forall line: string, i: nat
      ensures |detect(line, i)| <= 1 && (|detect(line, i)| == 1 ==> detect(line, i)[0].lineNumber == i + 1)
      ensures |detect(line, i)| == 1 ==>
        && Find(line, shape).Some?
        && detect(line, i)[0] == DetectedStream(DeclaredName(line, shape), kind, filePath, i + 1, Trim(line))
    {
      assert detect(line, i) == Detect(shape, line, i, filePath, kind);
    }
  }

  /** The records a declaration detector collects are records of declarations, each after its own line. */
  lemma CollectRecords(detect: (string, nat) -> seq<DetectedStream>, lines: seq<string>, shape: Shape, filePath: string, kind: ScanType)
    requires PerLine(detect)
    requires DetectsDeclarations(detect, shape, filePath, kind)
    ensures RecordsDeclarations(shape, lines, filePath, kind, Collect(detect, lines))
  {
    CollectNumbered(detect, lines);
  }

  /** `scanWithPattern` yields at most one record per line, in line order, each
      numbered from 1 after a line in which the pattern finds a declaration, and
      carrying the declared name, the category, the file and the trimmed line. */
  lemma PatternResultsRecords(shape: Shape, lines: seq<string>, filePath: string, kind: ScanType)
    ensures |PatternResults(shape, lines, filePath, kind)| <= |lines|
    ensures LineOrdered(PatternResults(shape, lines, filePath, kind))
    ensures RecordsDeclarations(shape, lines, filePath, kind, PatternResults(shape, lines, filePath, kind))
  {
    var detect := Detector(shape, filePath, kind);
    DetectorSpec(shape, filePath, kind);
    CollectLength(detect, lines);
    CollectNumbered(detect, lines);
    CollectRecords(detect, lines, shape, filePath, kind);
  }

  /** `scanWithPattern` yields a record for a line exactly when the pattern finds a declaration in it. */
  lemma PatternResultsComplete(shape: Shape, lines: seq<string>, filePath: string, kind: ScanType)
    ensures ReportsDeclarations(shape, lines, PatternResults(shape, lines, filePath, kind))
  {
    var detect := Detector(shape, filePath, kind);
    var r := Collect(detect, lines);
    CollectComplete(detect, lines);
    forall i | 0 <= i < |lines|
      ensures Reported(r, i) <==> Find(lines[i], shape).Some?
    {
      assert detect(lines[i], i) == Detect(shape, lines[i], i, filePath, kind);
    }
  }

  /** Every record a per-line detector yields carries the category and the file it was built with. */
  lemma {:induction false} CollectTagged(detect: (string, nat) -> seq<DetectedStream>, lines: seq<string>, kind: ScanType, filePath: string)
    requires forall line: string, i: nat :: forall d :: d in detect(line, i) ==> d.kind == kind && d.filePath == filePath
    ensures forall d :: d in Collect(detect, lines) ==> d.kind == kind && d.filePath == filePath
    decreases |lines|
  {
    if lines != [] {
      CollectTagged(detect, lines[..|lines| - 1], kind, filePath);
    }
  }

  /** Every record a pattern yields carries the pattern's category and the scanned file. */
  lemma PatternResultsKind(shape: Shape, lines: seq<string>, filePath: string, kind: ScanType)
    ensures forall d :: d in PatternResults(shape, lines, filePath, kind) ==> d.kind == kind && d.filePath == filePath
  {
    CollectTagged(Detector(shape, filePath, kind), lines, kind, filePath);
  }

  /** `scanSingleFile`: the five patterns' results, in the fixed order Flow,
      StateFlow, MutableStateFlow, LiveData, MutableLiveData. */
  function FileResults(lines: seq<string>, filePath: string): seq<DetectedStream> {
    PatternResults(FlowShape, lines, filePath, FLOW)
    + PatternResults(StateFlowShape, lines, filePath, STATE_FLOW)
    + PatternResults(MutableStateFlowShape, lines, filePath, STATE_FLOW)
    + PatternResults(LiveDataShape, lines, filePath, LIVE_DATA)
    + PatternResults(MutableLiveDataShape, lines, filePath, LIVE_DATA)
  }

  function KindRank(k: ScanType): nat {
    match k
    case FLOW => 0
    case STATE_FLOW => 1
    case LIVE_DATA => 2
  }

  /** The records come grouped by category, Flow first, LiveData last. */
  ghost predicate KindOrdered(r: seq<DetectedStream>) {
    forall i, j :: 0 <= i < j < |r| ==> KindRank(r[i].kind) <= KindRank(r[j].kind)
  }

  /** Five groups of records, each of one category, concatenated in category order, come out ordered by category. */
  lemma GroupedByKind(f: seq<DetectedStream>, s1: seq<DetectedStream>, s2: seq<DetectedStream>,
                      l1: seq<DetectedStream>, l2: seq<DetectedStream>)
    requires forall d :: d in f ==> d.kind == FLOW
    requires forall d :: d in s1 ==> d.kind == STATE_FLOW
    requires forall d :: d in s2 ==> d.kind == STATE_FLOW
    requires forall d :: d in l1 ==> d.kind == LIVE_DATA
    requires forall d :: d in l2 ==> d.kind == LIVE_DATA
    ensures KindOrdered(f + s1 + s2 + l1 + l2)
  {
    var r := f + s1 + s2 + l1 + l2;
    var e := |f|;
    var m := |f| + |s1| + |s2|;
    assert forall i :: 0 <= i < e ==> r[i] in f;
    assert forall i :: e <= i < m ==> r[i] in s1 || r[i] in s2;
    assert forall i :: m <= i < |r| ==> r[i] in l1 || r[i] in l2;
  }

  /** A file's records come grouped by category: all Flow records, then all
      StateFlow ones, then all LiveData ones, and all name the scanned file. */
  lemma FileResultsOrdered(lines: seq<string>, filePath: string)
    ensures KindOrdered(FileResults(lines, filePath))
    ensures forall d :: d in FileResults(lines, filePath) ==> d.filePath == filePath
  {
    PatternResultsKind(FlowShape, lines, filePath, FLOW);
    PatternResultsKind(StateFlowShape, lines, filePath, STATE_FLOW);
    PatternResultsKind(MutableStateFlowShape, lines, filePath, STATE_FLOW);
    PatternResultsKind(LiveDataShape, lines, filePath, LIVE_DATA);
    PatternResultsKind(MutableLiveDataShape, lines, filePath, LIVE_DATA);
    GroupedByKind(PatternResults(FlowShape, lines, filePath, FLOW),
                  PatternResults(StateFlowShape, lines, filePath, STATE_FLOW),
                  PatternResults(MutableStateFlowShape, lines, filePath, STATE_FLOW),
                  PatternResults(LiveDataShape, lines, filePath, LIVE_DATA),
                  PatternResults(MutableLiveDataShape, lines, filePath, LIVE_DATA));
  }

  // ---------------------------------------------------------------------
  // File names, directory names and the walk
  // ---------------------------------------------------------------------

  /** `isSourceFile`: the lower-cased name ends with ".kt" or ".java". */
  predicate IsSourceFile(name: string) {
    EndsWith(Lower(name), ".kt") || EndsWith(Lower(name), ".java")
  }

  /** The test ignores case: a name and its lower-cased form are judged alike. */
  lemma SourceFileIgnoresCase(name: string)
    ensures IsSourceFile(Lower(name)) == IsSourceFile(name)
    ensures IsSourceFile("Main.KT") && IsSourceFile("App.Java") && !IsSourceFile("build.gradle")
  {
    assert Lower(Lower(name)) == Lower(name);
    assert Lower("Main.KT") == "main.kt";
    assert Lower("App.Java") == "app.java";
    assert Lower("build.gradle") == "build.gradle";
    assert Lower("build.gradle")[9..] == "dle";
  }

  /** `isThirdPartyLibrary`, on a directory's absolute path. */
  predicate IsThirdPartyLibrary(path: string) {
    Contains(path, "/build/") || Contains(path, "/.gradle/") || Contains(path, "/gradle/") || Contains(path, "/generated/")
  }

  /** The same test on the path with a separator after it, so that the `build`,
      `.gradle`, `gradle` and `generated` directories themselves are recognised. */
  predicate IsThirdPartyDirectory(path: string) {
    IsThirdPartyLibrary(path + "/")
  }

  /** What the as-written test recognises, the corrected one recognises too. */
  lemma ThirdPartyDirectoryExtends(path: string)
    ensures IsThirdPartyLibrary(path) ==> IsThirdPartyDirectory(path)
  {
    forall needle: string, i: nat | OccursAt(path, needle, i)
      ensures OccursAt(path + "/", needle, i)
    {
      assert (path + "/")[i..i + |needle|] == path[i..i + |needle|];
    }
  }

  /** A directory name, with the separator before and after it, occurs in its own path. */
  lemma NameBetweenSeparators(parent: string, name: string)
    ensures Contains(parent + "/" + name + "/", "/" + name + "/")
  {
    var p := parent + "/" + name + "/";
    var needle := "/" + name + "/";
    assert p[|parent|..|parent| + |needle|] == needle;
    assert OccursAt(p, needle, |parent|);
  }

  /** A directory named `build`, `.gradle`, `gradle` or `generated` is recognised
      by the corrected test, wherever it sits. */
  lemma ThirdPartyNamesRecognised(parent: string, name: string)
    requires name == "build" || name == ".gradle" || name == "gradle" || name == "generated"
    ensures IsThirdPartyDirectory(parent + "/" + name)
  {
    NameBetweenSeparators(parent, name);
    if name == "build" {
      assert "/" + name + "/" == "/build/";
    } else if name == ".gradle" {
      assert "/" + name + "/" == "/.gradle/";
    } else if name == "gradle" {
      assert "/" + name + "/" == "/gradle/";
    } else {
      assert "/" + name + "/" == "/generated/";
    }
  }

  /** A project tree: a file holds its lines, a directory its entries in listing order. */
  datatype Node = File(name: string, lines: seq<string>) | Dir(name: string, children: seq<Node>)

  /** A source file the walk scans. */
  datatype SourceFile = SourceFile(path: string, name: string, lines: seq<string>)

  /** The source files `scanDirectory` scans below `node` (whose path is `path`), in
      visiting order: nothing unless `node` is a directory; a subdirectory is
      entered only if third-party code is included or `thirdParty` rejects its path. */
  function Scanned(node: Node, path: string, included: bool, thirdParty: string -> bool): seq<SourceFile>
    decreases node, 1
  {
    if node.File? then [] else ScannedPrefix(node, path, included, thirdParty, |node.children|)
  }

  /** The source files found under the first `n` entries of a directory. */
  function ScannedPrefix(dir: Node, path: string, included: bool, thirdParty: string -> bool, n: nat): seq<SourceFile>
    requires dir.Dir? && n <= |dir.children|
    decreases dir, 0, n
  {
    if n == 0 then []
    else
      var child := dir.children[n - 1];
      ScannedPrefix(dir, path, included, thirdParty, n - 1) + ScannedChild(child, path + "/" + child.name, included, thirdParty)
  }

  /** The source files one directory entry contributes. */
  function ScannedChild(child: Node, childPath: string, included: bool, thirdParty: string -> bool): seq<SourceFile>
    decreases child, 2
  {
    match child
    case Dir(_, _) => if included || !thirdParty(childPath) then Scanned(child, childPath, included, thirdParty) else []
    case File(name, lines) => if IsSourceFile(name) then [SourceFile(childPath, name, lines)] else []
  }

  /** Every file is a source file, and its path ends with its own name. */
  ghost predicate AllSourceFiles(files: seq<SourceFile>) {
    forall f :: f in files ==> IsSourceFile(f.name) && EndsWith(f.path, "/" + f.name)
  }

  lemma AllSourceFilesAppend(a: seq<SourceFile>, b: seq<SourceFile>)
    requires AllSourceFiles(a) && AllSourceFiles(b)
    ensures AllSourceFiles(a + b)
  {
  }

  /** Every scanned file is a source file, and its path ends with its own name. */
  lemma {:induction false} ScannedAreSourceFiles(node: Node, path: string, included: bool, thirdParty: string -> bool)
    ensures forall f :: f in Scanned(node, path, included, thirdParty) ==> IsSourceFile(f.name) && EndsWith(f.path, "/" + f.name)
    decreases node, 1
  {
    if node.Dir? {
      ScannedPrefixAreSourceFiles(node, path, included, thirdParty, |node.children|);
    }
  }

  lemma {:induction false} ScannedPrefixAreSourceFiles(dir: Node, path: string, included: bool, thirdParty: string -> bool, n: nat)
    requires dir.Dir? && n <= |dir.children|
    ensures AllSourceFiles(ScannedPrefix(dir, path, included, thirdParty, n))
    decreases dir, 0, n
  {
    if n > 0 {
      var child := dir.children[n - 1];
      var childPath := path + "/" + child.name;
      ScannedPrefixAreSourceFiles(dir, path, included, thirdParty, n - 1);
      ScannedChildAreSourceFiles(child, path, included, thirdParty);
      AllSourceFilesAppend(ScannedPrefix(dir, path, included, thirdParty, n - 1),
                           ScannedChild(child, childPath, included, thirdParty));
    }
  }

  lemma {:induction false} ScannedChildAreSourceFiles(child: Node, parent: string, included: bool, thirdParty: string -> bool)
    ensures AllSourceFiles(ScannedChild(child, parent + "/" + child.name, included, thirdParty))
    decreases child, 2
  {
    var childPath := parent + "/" + child.name;
    match child
    case Dir(_, _) =>
      if included || !thirdParty(childPath) {
        ScannedAreSourceFiles(child, childPath, included, thirdParty);
      }
    case File(name, lines) =>
      assert childPath[|childPath| - |"/" + name|..] == "/" + name;
  }

  /** With third-party code excluded, an entry the test rejects contributes nothing, and a
      `build`, `.gradle`, `gradle` or `generated` directory is rejected by the corrected test. */
  lemma ThirdPartyDirectorySkipped(parent: string, name: string, children: seq<Node>)
    requires name == "build" || name == ".gradle" || name == "gradle" || name == "generated"
    ensures ScannedChild(Dir(name, children), parent + "/" + name, false, IsThirdPartyDirectory) == []
  {
    ThirdPartyNamesRecognised(parent, name);
  }

  /** The records of a run of source files, file by file, as `results` gives them for each file. */
  function ConcatMap(results: SourceFile -> seq<DetectedStream>, files: seq<SourceFile>): seq<DetectedStream> {
    if files == [] then []
    else ConcatMap(results, files[..|files| - 1]) + results(files[|files| - 1])
  }

  lemma {:induction false} ConcatMapAppend(results: SourceFile -> seq<DetectedStream>, a: seq<SourceFile>, b: seq<SourceFile>)
    ensures ConcatMap(results, a + b) == ConcatMap(results, a) + ConcatMap(results, b)
    decreases |b|
  {
    if b == [] {
      assert a + b == a;
    } else {
      var n := |b| - 1;
      assert (a + b)[..|a + b| - 1] == a + b[..n];
      assert (a + b)[|a + b| - 1] == b[n];
      ConcatMapAppend(results, a, b[..n]);
    }
  }

  lemma ConcatMapSingle(results: SourceFile -> seq<DetectedStream>, f: SourceFile)
    ensures ConcatMap(results, [f]) == results(f)
  {
    assert [f][..0] == [];
  }

  /** Every record lies in one of the files, when each file's records name that file. */
  lemma {:induction false} ConcatMapFrom(results: SourceFile -> seq<DetectedStream>, files: seq<SourceFile>)
    requires forall f: SourceFile :: forall d :: d in results(f) ==> d.filePath == f.path
    ensures forall d :: d in ConcatMap(results, files) ==> exists f :: f in files && d.filePath == f.path
    decreases |files|
  {
    if files != [] {
      var init := files[..|files| - 1];
      var last := files[|files| - 1];
      ConcatMapFrom(results, init);
      forall d | d in ConcatMap(results, files)
        ensures exists f :: f in files && d.filePath == f.path
      {
        if d in ConcatMap(results, init) {
          var f :| f in init && d.filePath == f.path;
          assert f in files;
        } else {
          assert d in results(last);
        }
      }
    }
  }

  /** `scanSingleFile` of one source file. */
  function FileDetections(f: SourceFile): seq<DetectedStream> {
    FileResults(f.lines, f.path)
  }

  /** `scanSingleFile` applied to each file in turn. */
  function Detections(files: seq<SourceFile>): seq<DetectedStream> {
    ConcatMap(FileDetections, files)
  }

  /** Scanning two runs of files one after the other finds the concatenation of what each finds. */
  lemma DetectionsAppend(a: seq<SourceFile>, b: seq<SourceFile>)
    ensures Detections(a + b) == Detections(a) + Detections(b)
  {
    ConcatMapAppend(FileDetections, a, b);
  }

  /** The records `results` gives for the source files below `node`, gathered
      by following `scanDirectory`'s recursion. */
  function TreeConcat(results: SourceFile -> seq<DetectedStream>, node: Node, path: string, included: bool, thirdParty: string -> bool): seq<DetectedStream>
    decreases node, 1
  {
    if node.File? then [] else PrefixConcat(results, node, path, included, thirdParty, |node.children|)
  }

  /** The same for the first `n` entries of a directory. */
  function PrefixConcat(results: SourceFile -> seq<DetectedStream>, dir: Node, path: string, included: bool, thirdParty: string -> bool, n: nat): seq<DetectedStream>
    requires dir.Dir? && n <= |dir.children|
    decreases dir, 0, n
  {
    if n == 0 then []
    else
      var child := dir.children[n - 1];
      PrefixConcat(results, dir, path, included, thirdParty, n - 1) + EntryConcat(results, child, path + "/" + child.name, included, thirdParty)
  }

  /** The same for one directory entry. */
  function EntryConcat(results: SourceFile -> seq<DetectedStream>, child: Node, childPath: string, included: bool, thirdParty: string -> bool): seq<DetectedStream>
    decreases child, 2
  {
    match child
    case Dir(_, _) => if included || !thirdParty(childPath) then TreeConcat(results, child, childPath, included, thirdParty) else []
    case File(name, lines) => if IsSourceFile(name) then results(SourceFile(childPath, name, lines)) else []
  }

  /** Following the recursion gathers what the source files below the node, taken in walk order, give. */
  lemma {:induction false} TreeConcatScanned(results: SourceFile -> seq<DetectedStream>, node: Node, path: string, included: bool, thirdParty: string -> bool)
    ensures TreeConcat(results, node, path, included, thirdParty) == ConcatMap(results, Scanned(node, path, included, thirdParty))
    decreases node, 1
  {
    if node.Dir? {
      PrefixConcatScanned(results, node, path, included, thirdParty, |node.children|);
    }
  }

  lemma {:induction false} PrefixConcatScanned(results: SourceFile -> seq<DetectedStream>, dir: Node, path: string, included: bool, thirdParty: string -> bool, n: nat)
    requires dir.Dir? && n <= |dir.children|
    ensures PrefixConcat(results, dir, path, included, thirdParty, n) == ConcatMap(results, ScannedPrefix(dir, path, included, thirdParty, n))
    decreases dir, 0, n
  {
    if n > 0 {
      var child := dir.children[n - 1];
      var childPath := path + "/" + child.name;
      PrefixConcatScanned(results, dir, path, included, thirdParty, n - 1);
      EntryConcatScanned(results, child, childPath, included, thirdParty);
      ConcatMapAppend(results, ScannedPrefix(dir, path, included, thirdParty, n - 1), ScannedChild(child, childPath, included, thirdParty));
    }
  }

  lemma {:induction false} EntryConcatScanned(results: SourceFile -> seq<DetectedStream>, child: Node, childPath: string, included: bool, thirdParty: string -> bool)
    ensures EntryConcat(results, child, childPath, included, thirdParty) == ConcatMap(results, ScannedChild(child, childPath, included, thirdParty))
    decreases child, 2
  {
    match child
    case Dir(_, _) =>
      if included || !thirdParty(childPath) {
        TreeConcatScanned(results, child, childPath, included, thirdParty);
      }
    case File(name, lines) =>
      if IsSourceFile(name) {
        ConcatMapSingle(results, SourceFile(childPath, name, lines));
      }
  }

  /** What `scanDirectory` appends for `node` at `path`. */
  function TreeDetections(node: Node, path: string, included: bool, thirdParty: string -> bool): seq<DetectedStream> {
    TreeConcat(FileDetections, node, path, included, thirdParty)
  }

  /** What `scanDirectory` appends is what scanning the source files below the node, in walk order, finds. */
  lemma TreeDetectionsScanned(node: Node, path: string, included: bool, thirdParty: string -> bool)
    ensures TreeDetections(node, path, included, thirdParty) == Detections(Scanned(node, path, included, thirdParty))
  {
    TreeConcatScanned(FileDetections, node, path, included, thirdParty);
  }

  /** Appending in two steps is appending the two pieces at once. */
  lemma AppendedInTurn(a: seq<DetectedStream>, b: seq<DetectedStream>, c: seq<DetectedStream>)
    ensures a + b + c == a + (b + c)
  {
  }

  /** Every detected stream names one of the scanned files. */
  lemma DetectionsFromScannedFiles(files: seq<SourceFile>)
    ensures forall d :: d in Detections(files) ==> exists f :: f in files && d.filePath == f.path
  {
    var results := FileDetections;
    forall f: SourceFile
      ensures forall d :: d in results(f) ==> d.filePath == f.path
    {
      FileResultsOrdered(f.lines, f.path);
    }
    ConcatMapFrom(results, files);
  }

  /** Every stream a walk detects lies in a Kotlin or Java source file the walk scanned. */
  lemma WalkDetectsInSourceFiles(node: Node, path: string, included: bool, thirdParty: string -> bool)
    ensures forall d :: d in Detections(Scanned(node, path, included, thirdParty)) ==>
      exists f :: f in Scanned(node, path, included, thirdParty) && d.filePath == f.path && IsSourceFile(f.name)
  {
    var files := Scanned(node, path, included, thirdParty);
    ScannedAreSourceFiles(node, path, included, thirdParty);
    DetectionsFromScannedFiles(files);
  }

  /** A file as the scanner's `scanFile` finds it on disk: missing, a directory, or a file. */
  type Entry = Option<Node>

  /** The project tree of the finding: a `build` directory right under the root, holding one Kotlin file. */
  const BuildTree := Dir("p", [Dir("build", [File("A.kt", [])])])

  /** As written, the test does not recognise the `build` directory itself, whose
      path has no separator after it, so a source file directly inside it is scanned. */
  lemma BuildDirectoryScannedAsWritten()
    ensures !IsThirdPartyLibrary("/p/build")
    ensures Scanned(BuildTree, "/p", false, IsThirdPartyLibrary) == [SourceFile("/p/build/A.kt", "A.kt", [])]
  {
    var s := "/p/build";
    forall i: nat | i <= |s|
      ensures !OccursAt(s, "/build/", i) && !OccursAt(s, "/.gradle/", i)
      ensures !OccursAt(s, "/gradle/", i) && !OccursAt(s, "/generated/", i)
    {
      if i == 0 {
        assert s[0..7] != "/build/" by { assert s[1] != 'b'; }
        assert s[0..8] != "/gradle/" by { assert s[1] != 'g'; }
      } else if i == 1 {
        assert s[1..8] != "/build/" by { assert s[1] != '/'; }
      }
    }
    var file := File("A.kt", []);
    var build := Dir("build", [file]);
    assert IsSourceFile("A.kt") by { assert Lower("A.kt") == "a.kt"; }
    assert "/p/build" + "/" + "A.kt" == "/p/build/A.kt";
    assert "/p" + "/" + "build" == "/p/build";
    var inner := ScannedChild(file, "/p/build/A.kt", false, IsThirdPartyLibrary);
    assert inner == [SourceFile("/p/build/A.kt", "A.kt", [])];
    assert ScannedPrefix(build, "/p/build", false, IsThirdPartyLibrary, 1) == [] + inner;
    assert Scanned(build, "/p/build", false, IsThirdPartyLibrary) == inner;
    assert ScannedChild(build, "/p/build", false, IsThirdPartyLibrary) == inner;
    assert ScannedPrefix(BuildTree, "/p", false, IsThirdPartyLibrary, 1) == [] + inner;
  }

  /** With the corrected test, the same tree yields no source file at all. */
  lemma BuildDirectorySkipped()
    ensures Scanned(BuildTree, "/p", false, IsThirdPartyDirectory) == []
  {
    var build := Dir("build", [File("A.kt", [])]);
    ThirdPartyDirectorySkipped("/p", "build", [File("A.kt", [])]);
    assert "/p" + "/" + "build" == "/p/build";
    assert ScannedChild(build, "/p/build", false, IsThirdPartyDirectory) == [];
    assert ScannedPrefix(BuildTree, "/p", false, IsThirdPartyDirectory, 1) == [] + [];
  }

  /** A listener, by identity. */
  datatype Listener = Listener(id: nat)

  /** One call of a listener with a scan's results. */
  datatype Report = Report(listener: Listener, streams: seq<DetectedStream>)

  /** The launched scanning loop. */
  datatype Job = ScanLoop(intervalMs: int64)

  /** The position of the first occurrence of `x`. */
  function FirstIndex(s: seq<Listener>, x: Listener): (i: nat)
    requires x in s
    ensures i < |s| && s[i] == x && x !in s[..i]
  {
    if s[0] == x then 0
    else
      var i := 1 + FirstIndex(s[1..], x);
      assert s[..i] == [s[0]] + s[1..][..i - 1];
      i
  }

  /** `MutableList.remove(element)`: the list without the first occurrence of `x`, if any. */
  function RemoveFirst(s: seq<Listener>, x: Listener): (r: seq<Listener>)
    ensures x !in s ==> r == s
    ensures x in s ==> |r| == |s| - 1
  {
    if s == [] then []
    else if s[0] == x then s[1..]
    else [s[0]] + RemoveFirst(s[1..], x)
  }

  /** Removing drops exactly the first occurrence and keeps the rest in order. */
  lemma {:induction false} RemoveFirstSpec(s: seq<Listener>, x: Listener)
    requires x in s
    ensures RemoveFirst(s, x) == s[..FirstIndex(s, x)] + s[FirstIndex(s, x) + 1..]
  {
    if s[0] != x {
      var t := s[1..];
      RemoveFirstSpec(t, x);
      assert s == [s[0]] + t;
      SlicesAfterHead(s[0], t, FirstIndex(t, x));
    }
  }

  /** Cutting element `i` out of `t` and putting `a` in front is cutting element `i + 1` out of `[a] + t`. */
  lemma SlicesAfterHead<X>(a: X, t: seq<X>, i: nat)
    requires i < |t|
    ensures [a] + (t[..i] + t[i + 1..]) == ([a] + t)[..i + 1] + ([a] + t)[i + 2..]
  {
    assert ([a] + t)[..i + 1] == [a] + t[..i];
    assert ([a] + t)[i + 2..] == t[i + 1..];
  }

  /** Removing takes exactly one `x` out of the list's contents. */
  lemma RemoveFirstCount(s: seq<Listener>, x: Listener)
    requires x in s
    ensures multiset(RemoveFirst(s, x)) == multiset(s) - multiset{x}
  {
    var i := FirstIndex(s, x);
    RemoveFirstSpec(s, x);
    assert RemoveFirst(s, x) == s[..i] + s[i + 1..];
    CutCount(s, i, x);
  }

  /** Cutting the element `x` at position `i` out of `s` takes one copy of `x` out of the contents. */
  lemma CutCount<X>(s: seq<X>, i: nat, x: X)
    requires i < |s| && s[i] == x
    ensures multiset(s[..i] + s[i + 1..]) == multiset(s) - multiset{x}
  {
    assert s == s[..i] + [x] + s[i + 1..];
  }

  /** The calls `reportResults` makes: each listener, in registration order. */
  function Reports(listeners: seq<Listener>, streams: seq<DetectedStream>): (r: seq<Report>)
    ensures |r| == |listeners|
    ensures forall i :: 0 <= i < |r| ==> r[i] == Report(listeners[i], streams)
  {
    seq(|listeners|, i requires 0 <= i < |listeners| => Report(listeners[i], streams))
  }

  class CodeScanner {
    const projectRoot: Node
    /** The absolute path of `projectRoot`, normalised and not the file-system root
        `/`: each child's path is `rootPath + "/" + name`, as `File` builds it. */
    const rootPath: string
    const scanIntervalMs: int64
    const includeThirdPartyLibraries: bool

    var scanJob: Option<Job>
    var detectedStreams: seq<DetectedStream>
    var listeners: seq<Listener>
    /** Every listener call made so far. */
    var reports: seq<Report>

    /** `CodeScanner.create`. */
    constructor Create(projectRoot: Node, rootPath: string, scanIntervalMs: int64 := 5000,
                       includeThirdPartyLibraries: bool := false)
      ensures this.projectRoot == projectRoot && this.rootPath == rootPath
      ensures this.scanIntervalMs == scanIntervalMs && this.includeThirdPartyLibraries == includeThirdPartyLibraries
      ensures scanJob == None && detectedStreams == [] && listeners == [] && reports == []
    {
      this.projectRoot := projectRoot;
      this.rootPath := rootPath;
      this.scanIntervalMs := scanIntervalMs;
      this.includeThirdPartyLibraries := includeThirdPartyLibraries;
      scanJob := None;
      detectedStreams := [];
      listeners := [];
      reports := [];
    }

    /** What a whole scan finds. */
    function Walk(): seq<DetectedStream>
    {
      Detections(Scanned(projectRoot, rootPath, includeThirdPartyLibraries, IsThirdPartyLibrary))
    }

    /** `startScanning`: launches the scanning loop unless one is already running. */
    method StartScanning()
      modifies this`scanJob
      ensures old(scanJob).Some? ==> scanJob == old(scanJob)
      ensures old(scanJob).None? ==> scanJob == Some(ScanLoop(scanIntervalMs))
    {
      if scanJob.Some? {
        return;
      }
      scanJob := Some(ScanLoop(scanIntervalMs));
    }

    /** `stopScanning`: cancels the loop, so that a later start launches a new one. */
    method StopScanning()
      modifies this`scanJob
      ensures scanJob == None
    {
      scanJob := None;
    }

    method AddListener(listener: Listener)
      modifies this`listeners
      ensures listeners == old(listeners) + [listener]
    {
      listeners := listeners + [listener];
    }

    method RemoveListener(listener: Listener)
      modifies this`listeners
      ensures listeners == RemoveFirst(old(listeners), listener)
    {
      listeners := RemoveFirst(listeners, listener);
    }

    /** One iteration of the scanning loop: a full scan, reported to every listener. */
    method ScanTick()
      modifies this`detectedStreams, this`reports
      ensures scanJob.None? ==> detectedStreams == old(detectedStreams) && reports == old(reports)
      ensures scanJob.Some? ==> detectedStreams == Walk() && reports == old(reports) + Reports(listeners, Walk())
    {
      if scanJob.None? {
        return;
      }
      var streams := ScanCodebase();
      ReportResults(streams);
    }

    /** `scanCodebase`: forgets earlier detections, then walks the project. */
    method ScanCodebase() returns (streams: seq<DetectedStream>)
      modifies this`detectedStreams
      ensures streams == detectedStreams == Walk()
    {
      detectedStreams := [];
      ScanDirectory(projectRoot, rootPath);
      TreeDetectionsScanned(projectRoot, rootPath, includeThirdPartyLibraries, IsThirdPartyLibrary);
      streams := detectedStreams;
    }

    /** `scanDirectory`: appends the detections of every source file below `node`. */
    method ScanDirectory(node: Node, path: string)
      modifies this`detectedStreams
      ensures detectedStreams == old(detectedStreams) + TreeDetections(node, path, includeThirdPartyLibraries, IsThirdPartyLibrary)
      decreases node, 1
    {
      if !node.Dir? {
        return;
      }
      ghost var start := detectedStreams;
      var i := 0;
      while i < |node.children|
        invariant 0 <= i <= |node.children|
        invariant detectedStreams == start + PrefixConcat(FileDetections, node, path, includeThirdPartyLibraries, IsThirdPartyLibrary, i)
      {
        ScanEntry(node, path, i, start);
        i := i + 1;
      }
    }

    /** The body of `scanDirectory`'s loop for entry `i` of `dir`: a directory is
        descended into unless it is a skipped third-party one, a source file is
        scanned and its records appended, anything else is passed over. */
    method ScanEntry(dir: Node, path: string, i: nat, ghost gathered: seq<DetectedStream>)
      requires dir.Dir? && i < |dir.children|
      requires detectedStreams == gathered + PrefixConcat(FileDetections, dir, path, includeThirdPartyLibraries, IsThirdPartyLibrary, i)
      modifies this`detectedStreams
      ensures detectedStreams == gathered + PrefixConcat(FileDetections, dir, path, includeThirdPartyLibraries, IsThirdPartyLibrary, i + 1)
      decreases dir, 0
    {
      var child := dir.children[i];
      var childPath := path + "/" + child.name;
      AppendedInTurn(gathered, PrefixConcat(FileDetections, dir, path, includeThirdPartyLibraries, IsThirdPartyLibrary, i),
                     EntryConcat(FileDetections, child, childPath, includeThirdPartyLibraries, IsThirdPartyLibrary));
      if child.Dir? {
        if includeThirdPartyLibraries || !IsThirdPartyLibrary(childPath) {
          ScanDirectory(child, childPath);
        }
      } else if IsSourceFile(child.name) {
        var streams := ScanSingleFile(child.lines, childPath);
        detectedStreams := detectedStreams + streams;
      }
    }

    /** `reportResults`: calls every listener with the scan's results. */
    method ReportResults(streams: seq<DetectedStream>)
      modifies this`reports
      ensures reports == old(reports) + Reports(listeners, streams)
    {
      var i := 0;
      while i < |listeners|
        invariant 0 <= i <= |listeners|
        invariant reports == old(reports) + Reports(listeners[..i], streams)
      {
        reports := reports + [Report(listeners[i], streams)];
        i := i + 1;
      }
      assert listeners[..i] == listeners;
    }
  }

  /** `scanWithPattern`: one pass over the lines, adding a record for every line in which the pattern finds a declaration. */
  method ScanWithPattern(shape: Shape, lines: seq<string>, filePath: string, kind: ScanType) returns (results: seq<DetectedStream>)
    ensures results == PatternResults(shape, lines, filePath, kind)
  {
    results := [];
    var lineNumber := 0;
    while lineNumber < |lines|
      invariant 0 <= lineNumber <= |lines|
      invariant results == PatternResults(shape, lines[..lineNumber], filePath, kind)
    {
      CollectStep(Detector(shape, filePath, kind), lines, lineNumber);
      var line := lines[lineNumber];
      var found := Find(line, shape);
      if found.Some? {
        var variableName := ExtractVariableName(line[found.value.start..found.value.end]);
        results := results + [DetectedStream(if variableName.Some? then variableName.value else "Unknown",
                                             kind, filePath, lineNumber + 1, Trim(line))];
      }
      lineNumber := lineNumber + 1;
    }
    assert lines[..lineNumber] == lines;
  }

  /** `scanSingleFile`. */
  method ScanSingleFile(lines: seq<string>, filePath: string) returns (results: seq<DetectedStream>)
    ensures results == FileResults(lines, filePath)
  {
    results := ScanWithPattern(FlowShape, lines, filePath, FLOW);
    var r := ScanWithPattern(StateFlowShape, lines, filePath, STATE_FLOW);
    results := results + r;
    r := ScanWithPattern(MutableStateFlowShape, lines, filePath, STATE_FLOW);
    results := results + r;
    r := ScanWithPattern(LiveDataShape, lines, filePath, LIVE_DATA);
    results := results + r;
    r := ScanWithPattern(MutableLiveDataShape, lines, filePath, LIVE_DATA);
    results := results + r;
  }

  /** `scanFile`: nothing for a missing path or one that is not a regular file.
      `filePath` stands for `File(filePath).absolutePath`: the caller passes the path
      already made absolute and normalised, and the records carry it unchanged. */
  method ScanFile(entry: Entry, filePath: string) returns (results: seq<DetectedStream>)
    ensures !(entry.Some? && entry.value.File?) ==> results == []
    ensures entry.Some? && entry.value.File? ==> results == FileResults(entry.value.lines, filePath)
  {
    if entry.None? || !entry.value.File? {
      return [];
    }
    results := ScanSingleFile(entry.value.lines, filePath);
  }
}
