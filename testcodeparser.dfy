/**
 * The bookkeeping of the autotest plugin's test code parser: whether
 * parsing is enabled or an update is pending, the two tables from file to
 * test information, the string helpers that find Qt Quick test sources, and
 * the signals the parser emits, recorded as an event log. What the C++ and
 * QML front ends compute (macro uses, ASTs, project parts, the tree model's
 * answers) enters as parameters.
 */
module Autotest {

  import opened Wrappers
  import opened QtStrings

  datatype TestType = AutoTest | QuickTest

  /** The parts of a `TestTreeItem` the parser stores or forwards. */
  datatype TestTreeItem = TestTreeItem(name: string, filePath: string, childNames: seq<string>)

  /** `TestInfo`: what the parser remembers about one file. */
  datatype TestInfo = TestInfo(
    testClass: string,
    testFunctions: seq<string>,
    revision: int,
    editorRevision: int,
    referencingFile: string,
    proFile: string)

  /** `TestInfo(name, functions, revision, editorRevision)`: no referencing file, no .pro file. */
  function NewTestInfo(testClass: string, functions: seq<string>, revision: int, editorRevision: int): TestInfo {
    TestInfo(testClass, functions, revision, editorRevision, "", "")
  }

  /** The signals the parser emits. */
  datatype Event =
    | CacheCleared
    | TestItemsRemoved(file: string, kind: TestType)
    | TestItemCreated(item: TestTreeItem, kind: TestType)
    | TestItemModified(item: TestTreeItem, kind: TestType, file: string)
    | UnnamedQuickTestsRemoved(file: string)

  /** The progress-manager task kinds the parser listens to. */
  datatype TaskType = TaskIndex | ProFileEvaluate | OtherTask(id: string)

  /** C++ indexing and .pro file evaluation postpone test parsing. */
  predicate PostponesParsing(t: TaskType) {
    t.TaskIndex? || t.ProFileEvaluate?
  }

  /**
   * What `scanForTests` leaves behind when it runs on emptied tables: the
   * front end decides it, so it is an input here.
   */
  datatype ScanResult = ScanResult(
    cppDocMap: map<string, TestInfo>,
    quickDocMap: map<string, TestInfo>,
    events: seq<Event>)

  predicate Distinct(s: seq<string>) {
    forall i, j :: 0 <= i < j < |s| ==> s[i] != s[j]
  }

  function ToSet(s: seq<string>): set<string> {
    set x | x in s
  }

  /** One `testItemsRemoved(file, kind)` per file, in order. */
  function RemovedEvents(files: seq<string>, kind: TestType): (r: seq<Event>)
    ensures |r| == |files|
    ensures forall i :: 0 <= i < |files| ==> r[i] == TestItemsRemoved(files[i], kind)
  {
    if files == [] then []
    else RemovedEvents(files[..|files| - 1], kind) + [TestItemsRemoved(files[|files| - 1], kind)]
  }

  /** One `unnamedQuickTestsRemoved(file)` per file, in order. */
  function UnnamedRemovedEvents(files: seq<string>): (r: seq<Event>)
    ensures |r| == |files|
    ensures forall i :: 0 <= i < |files| ==> r[i] == UnnamedQuickTestsRemoved(files[i])
  {
    if files == [] then []
    else UnnamedRemovedEvents(files[..|files| - 1]) + [UnnamedQuickTestsRemoved(files[|files| - 1])]
  }

  // ---------------------------------------------------------------------
  // quickTestSrcDir and the tst_*.qml filter

  /** The define a Qt Quick test's main file is compiled with. */
  const SourceDirMarker: string := " QUICK_TEST_SOURCE_DIR "

  /**
   * Strips one pair of enclosing `"` (the last character is dropped without
   * being looked at), then, if what is left starts with `\"`, two characters
   * from each end.
   */
  function StripQuotes(raw: string): (r: string)
    ensures forall c :: c in r ==> c in raw
  {
    var once := if StartsWith(raw, "\"") then RemoveRange(RemoveRange(raw, |raw| - 1, 1), 0, 1) else raw;
    if StartsWith(once, "\\\"") then RemoveRange(RemoveRange(once, |once| - 2, 2), 0, 2) else once
  }

  /** The text after the marker on the first line that contains it. */
  function SourceDirOfLines(lines: seq<string>): (r: string)
    ensures (forall k :: 0 <= k < |lines| ==> '\n' !in lines[k]) ==> '\n' !in r
  {
    if lines == [] then ""
    else if Contains(lines[0], SourceDirMarker) then
      StripQuotes(lines[0][IndexOf(lines[0], SourceDirMarker) + |SourceDirMarker|..])
    else SourceDirOfLines(lines[1..])
  }

  /**
   * `quickTestSrcDir`: the quick test source directory named in the
   * defines of the file's first project part (`None` when the file has no
   * project part), or the empty string.
   */
  function QuickTestSrcDir(projectDefines: Option<string>): (r: string)
    ensures '\n' !in r
    ensures projectDefines.None? ==> r == ""
    ensures projectDefines.Some? && !Contains(projectDefines.value, SourceDirMarker) ==> r == ""
  {
    match projectDefines
    case None => ""
    case Some(defines) =>
      NoMarkerInLines(defines);
      SourceDirOfLines(Split(defines, '\n'))
  }

  /** Defines that do not hold the marker name no source directory. */
  lemma NoMarkerInLines(defines: string)
    ensures !Contains(defines, SourceDirMarker) ==> SourceDirOfLines(Split(defines, '\n')) == ""
  {
    if !Contains(defines, SourceDirMarker) {
      var lines := Split(defines, '\n');
      JoinSplit(defines, '\n');
      forall k | 0 <= k < |lines|
        ensures !Contains(lines[k], SourceDirMarker)
      {
        PieceContainmentCarries(lines, '\n', k, SourceDirMarker);
      }
      NoMarkerNoDir(lines);
    }
  }

  lemma {:induction false} NoMarkerNoDir(lines: seq<string>)
    requires forall k :: 0 <= k < |lines| ==> !Contains(lines[k], SourceDirMarker)
    ensures SourceDirOfLines(lines) == ""
  {
    if lines != [] {
      NoMarkerNoDir(lines[1..]);
    }
  }

  /** Whatever a piece of a join contains, the join contains. */
  lemma {:induction false} PieceContainmentCarries(parts: seq<string>, sep: char, k: nat, p: string)
    requires |parts| >= 1 && k < |parts|
    ensures Contains(parts[k], p) ==> Contains(Join(parts, sep), p)
  {
    if Contains(parts[k], p) {
      var i :| 0 <= i <= |parts[k]| && OccursAt(parts[k], p, i);
      if |parts| == 1 {
        assert Join(parts, sep) == parts[0];
      } else {
        var rest := Join(parts[1..], sep);
        var whole := parts[0] + [sep] + rest;
        assert Join(parts, sep) == whole;
        if k == 0 {
          assert whole[i..i + |p|] == parts[0][i..i + |p|];
          assert OccursAt(whole, p, i);
        } else {
          PieceContainmentCarries(parts[1..], sep, k - 1, p);
          var off := |parts[0]| + 1;
          var j :| 0 <= j <= |rest| && OccursAt(rest, p, j);
          assert whole[off + j..off + j + |p|] == rest[j..j + |p|];
          assert OccursAt(whole, p, off + j);
        }
      }
    }
  }

  /** The value on a `#define QUICK_TEST_SOURCE_DIR value` line. */
  lemma DefineLineValue(value: string)
    ensures var line := "#define" + SourceDirMarker + value;
      Contains(line, SourceDirMarker)
      && line[IndexOf(line, SourceDirMarker) + |SourceDirMarker|..] == value
  {
    var line := "#define" + SourceDirMarker + value;
    assert OccursAt(line, SourceDirMarker, 7);
    forall j | 0 <= j < 7
      ensures !OccursAt(line, SourceDirMarker, j)
    {
      assert line[j] == "#define"[j] != ' ';
      if j + |SourceDirMarker| <= |line| {
        assert line[j..j + |SourceDirMarker|][0] == line[j];
      }
    }
    assert line[7 + |SourceDirMarker|..] == value;
  }

  /**
   * The extraction finds the first define line naming the source directory,
   * whatever lines come before and after it.
   */
  lemma QuickTestSrcDirOfDefines(before: seq<string>, value: string, after: seq<string>)
    requires forall k :: 0 <= k < |before| ==> '\n' !in before[k] && !Contains(before[k], SourceDirMarker)
    requires forall k :: 0 <= k < |after| ==> '\n' !in after[k]
    requires '\n' !in value
    ensures QuickTestSrcDir(Some(Join(before + ["#define" + SourceDirMarker + value] + after, '\n')))
         == StripQuotes(value)
  {
    var lines := before + ["#define" + SourceDirMarker + value] + after;
    LinesWithoutNewline(before, value, after);
    SplitJoin(lines, '\n');
    SrcDirOfSplit(Join(lines, '\n'));
    DirOfLinesWithDefine(before, value, after);
  }

  lemma DirOfLinesWithDefine(before: seq<string>, value: string, after: seq<string>)
    requires forall k :: 0 <= k < |before| ==> !Contains(before[k], SourceDirMarker)
    ensures SourceDirOfLines(before + ["#define" + SourceDirMarker + value] + after) == StripQuotes(value)
  {
    var line := "#define" + SourceDirMarker + value;
    assert before + [line] + after == before + ([line] + after);
    SkipLinesWithoutMarker(before, [line] + after);
    DirOfDefineLine(value, after);
  }

  lemma SrcDirOfSplit(text: string)
    ensures QuickTestSrcDir(Some(text)) == SourceDirOfLines(Split(text, '\n'))
  {
  }

  lemma LinesWithoutNewline(before: seq<string>, value: string, after: seq<string>)
    requires forall k :: 0 <= k < |before| ==> '\n' !in before[k]
    requires forall k :: 0 <= k < |after| ==> '\n' !in after[k]
    requires '\n' !in value
    ensures var lines := before + ["#define" + SourceDirMarker + value] + after;
      forall k :: 0 <= k < |lines| ==> '\n' !in lines[k]
  {
    DefineLineWithoutNewline(value);
    AroundWithoutNewline(before, "#define" + SourceDirMarker + value, after);
  }

  lemma DefineLineWithoutNewline(value: string)
    requires '\n' !in value
    ensures '\n' !in "#define" + SourceDirMarker + value
  {
    var prefix := "#define" + SourceDirMarker;
    assert '\n' !in prefix by {
      assert prefix == "#define QUICK_TEST_SOURCE_DIR ";
    }
  }

  lemma AroundWithoutNewline(before: seq<string>, line: string, after: seq<string>)
    requires forall k :: 0 <= k < |before| ==> '\n' !in before[k]
    requires forall k :: 0 <= k < |after| ==> '\n' !in after[k]
    requires '\n' !in line
    ensures var lines := before + [line] + after;
      forall k :: 0 <= k < |lines| ==> '\n' !in lines[k]
  {
    var lines := before + [line] + after;
    forall k | 0 <= k < |lines| ensures '\n' !in lines[k] {
      if k < |before| { assert lines[k] == before[k]; }
      else if k > |before| { assert lines[k] == after[k - |before| - 1]; }
    }
  }

  lemma DirOfDefineLine(value: string, after: seq<string>)
    ensures SourceDirOfLines(["#define" + SourceDirMarker + value] + after) == StripQuotes(value)
  {
    var line := "#define" + SourceDirMarker + value;
    DefineLineValue(value);
    assert ([line] + after)[0] == line;
  }

  lemma {:induction false} SkipLinesWithoutMarker(before: seq<string>, rest: seq<string>)
    requires forall k :: 0 <= k < |before| ==> !Contains(before[k], SourceDirMarker)
    ensures SourceDirOfLines(before + rest) == SourceDirOfLines(rest)
  {
    if before == [] {
      assert before + rest == rest;
    } else {
      assert (before + rest)[0] == before[0];
      assert !Contains(before[0], SourceDirMarker);
      assert SourceDirOfLines(before + rest) == SourceDirOfLines((before + rest)[1..]);
      assert (before + rest)[1..] == before[1..] + rest;
      assert forall k :: 0 <= k < |before[1..]| ==> before[1..][k] == before[k + 1];
      SkipLinesWithoutMarker(before[1..], rest);
    }
  }

  /** A value in plain quotes loses them. */
  lemma StripPlainQuotes(x: string)
    requires !StartsWith(x, "\\\"")
    ensures StripQuotes("\"" + x + "\"") == x
  {
    var raw := "\"" + x + "\"";
    assert RemoveRange(raw, |raw| - 1, 1) == "\"" + x;
    assert RemoveRange("\"" + x, 0, 1) == x;
  }

  /** A value in escaped quotes inside plain quotes loses both pairs. */
  lemma StripEscapedQuotes(x: string)
    ensures StripQuotes("\"\\\"" + x + "\\\"\"") == x
  {
    var raw := "\"\\\"" + x + "\\\"\"";
    assert RemoveRange(raw, |raw| - 1, 1) == "\"\\\"" + x + "\\\"";
    var once := "\\\"" + x + "\\\"";
    assert RemoveRange("\"\\\"" + x + "\\\"", 0, 1) == once;
    assert StartsWith(once, "\\\"");
    assert RemoveRange(once, |once| - 2, 2) == "\\\"" + x;
    assert RemoveRange("\\\"" + x, 0, 2) == x;
  }

  /** A value not starting with a quote is returned as it is. */
  lemma StripUnquoted(x: string)
    requires x == [] || (x[0] != '"' && x[0] != '\\')
    ensures StripQuotes(x) == x
  {
  }

  /** The file-name filter of `scanDirectoryForQuickTestQmlFiles`. */
  predicate IsQuickTestQmlFile(path: string) {
    var name := FileName(path);
    StartsWith(name, "tst_") && EndsWith(name, ".qml")
  }

  /** The documents that pass the filter, in order. */
  function QuickTestQmlFiles(docs: seq<string>): seq<string> {
    if docs == [] then []
    else if IsQuickTestQmlFile(docs[|docs| - 1]) then QuickTestQmlFiles(docs[..|docs| - 1]) + [docs[|docs| - 1]]
    else QuickTestQmlFiles(docs[..|docs| - 1])
  }

  /** Exactly the `tst_*.qml` documents are kept. */
  lemma {:induction false} QuickTestQmlFilesMembers(docs: seq<string>, d: string)
    ensures d in QuickTestQmlFiles(docs) <==> d in docs && IsQuickTestQmlFile(d)
  {
    if docs != [] {
      QuickTestQmlFilesMembers(docs[..|docs| - 1], d);
      assert docs == docs[..|docs| - 1] + [docs[|docs| - 1]];
    }
  }

  /** The documents of all scanned directories, directory by directory. */
  function Flatten(dirs: seq<seq<string>>): seq<string> {
    if dirs == [] then [] else Flatten(dirs[..|dirs| - 1]) + dirs[|dirs| - 1]
  }

  lemma {:induction false} QuickTestQmlFilesAppend(a: seq<string>, b: seq<string>)
    ensures QuickTestQmlFiles(a + b) == QuickTestQmlFiles(a) + QuickTestQmlFiles(b)
  {
    if b != [] {
      var init := b[..|b| - 1];
      assert (a + b)[..|a + b| - 1] == a + init;
      QuickTestQmlFilesAppend(a, init);
    } else {
      assert a + b == a;
    }
  }

  /**
   * The collecting loop of `scanDirectoryForQuickTestQmlFiles`: the
   * documents of each directory, as the QML model lists them, filtered by
   * file name.
   */
  method CollectQuickTestQmlFiles(docsByDir: seq<seq<string>>) returns (found: seq<string>)
    ensures found == QuickTestQmlFiles(Flatten(docsByDir))
  {
    found := [];
    var i := 0;
    while i < |docsByDir|
      invariant 0 <= i <= |docsByDir|
      invariant found == QuickTestQmlFiles(Flatten(docsByDir[..i]))
    {
      var docs := docsByDir[i];
      ghost var before := Flatten(docsByDir[..i]);
      var j := 0;
      assert before + docs[..0] == before;
      while j < |docs|
        invariant 0 <= j <= |docs|
        invariant found == QuickTestQmlFiles(before + docs[..j])
      {
        QuickTestQmlFilesSnoc(before, docs, j);
        if IsQuickTestQmlFile(docs[j]) {
          found := found + [docs[j]];
        }
        j := j + 1;
      }
      FlattenSnoc(docsByDir, i);
      assert docs[..j] == docs;
      i := i + 1;
    }
    assert docsByDir[..i] == docsByDir;
  }

  lemma FlattenSnoc(dirs: seq<seq<string>>, i: nat)
    requires i < |dirs|
    ensures Flatten(dirs[..i + 1]) == Flatten(dirs[..i]) + dirs[i]
  {
    assert dirs[..i + 1][..i] == dirs[..i];
  }

  lemma QuickTestQmlFilesSnoc(before: seq<string>, docs: seq<string>, j: nat)
    requires j < |docs|
    ensures QuickTestQmlFiles(before + docs[..j + 1])
         == QuickTestQmlFiles(before + docs[..j]) + (if IsQuickTestQmlFile(docs[j]) then [docs[j]] else [])
  {
    var s := before + docs[..j + 1];
    assert s[..|s| - 1] == before + docs[..j];
    assert s[|s| - 1] == docs[j];
  }

  // ---------------------------------------------------------------------
  // The tables, as functions of the old tables

  /** The quick-table keys `removeTestsIfNecessary` drops for `file`. */
  function QuickMatches(m: map<string, TestInfo>, file: string): set<string> {
    set k | k in m && (k == file || m[k].referencingFile == file)
  }

  /** The keys whose entry belongs to `proFile`. */
  function ProFileKeys(m: map<string, TestInfo>, proFile: string): set<string> {
    set k | k in m && m[k].proFile == proFile
  }

  /** `QList::removeOne`: drops the first occurrence of `x`, if any. */
  function RemoveOne(fs: seq<string>, x: string): (r: seq<string>)
    ensures multiset(r) == multiset(fs) - multiset{x}
  {
    if fs == [] then []
    else if fs[0] == x then
      assert fs == [fs[0]] + fs[1..];
      fs[1..]
    else
      assert fs == [fs[0]] + fs[1..];
      [fs[0]] + RemoveOne(fs[1..], x)
  }

  /** `r` is `fs` without its element at `i`, the first occurrence of `x`. */
  predicate RemovedFirstAt(fs: seq<string>, x: string, r: seq<string>, i: int) {
    0 <= i < |fs| && fs[i] == x && x !in fs[..i] && r == fs[..i] + fs[i + 1..]
  }

  /** `removeOne` removes the first occurrence and keeps the others in order; without one it changes nothing. */
  lemma {:induction false} RemoveOneFirst(fs: seq<string>, x: string)
    ensures x !in fs ==> RemoveOne(fs, x) == fs
    ensures x in fs ==> exists i :: RemovedFirstAt(fs, x, RemoveOne(fs, x), i)
  {
    if fs != [] {
      assert fs == [fs[0]] + fs[1..];
      if fs[0] == x {
        assert fs[..0] == [];
        assert RemovedFirstAt(fs, x, RemoveOne(fs, x), 0);
      } else {
        RemoveOneFirst(fs[1..], x);
        if x in fs[1..] {
          var i :| RemovedFirstAt(fs[1..], x, RemoveOne(fs[1..], x), i);
          assert RemoveOne(fs, x) == [fs[0]] + RemoveOne(fs[1..], x);
          RemovedFirstAtCons(fs[0], fs[1..], x, RemoveOne(fs[1..], x), i);
        }
      }
    }
  }

  /** A first occurrence stays first, one place later, behind another element. */
  lemma RemovedFirstAtCons(a: string, t: seq<string>, x: string, rt: seq<string>, i: int)
    requires a != x
    requires RemovedFirstAt(t, x, rt, i)
    ensures RemovedFirstAt([a] + t, x, [a] + rt, i + 1)
  {
    var fs := [a] + t;
    assert fs[i + 1] == t[i];
    assert fs[..i + 1] == [a] + t[..i];
    assert fs[i + 2..] == t[i + 1..];
    assert [a] + rt == fs[..i + 1] + fs[i + 2..];
  }

  /** `removeOne` for each name in turn. */
  function RemoveEachOnce(fs: seq<string>, names: seq<string>): (r: seq<string>)
    ensures multiset(r) == multiset(fs) - multiset(names)
  {
    if names == [] then fs
    else
      assert names == names[..|names| - 1] + [names[|names| - 1]];
      RemoveOne(RemoveEachOnce(fs, names[..|names| - 1]), names[|names| - 1])
  }

  lemma RemoveEachOnceSnoc(fs: seq<string>, names: seq<string>, k: nat)
    requires k < |names|
    ensures RemoveEachOnce(fs, names[..k + 1]) == RemoveOne(RemoveEachOnce(fs, names[..k]), names[k])
  {
    assert names[..k + 1][..k] == names[..k];
  }

  /** What `operator[]` default-constructs for a missing key. */
  function DefaultTestInfo(): TestInfo {
    NewTestInfo("", [], 0, 0)
  }

  /**
   * The unnamed-quick-test entry after `removeTestsIfNecessary`: the
   * functions the model reports for the removed main file leave it, and the
   * entry goes when no function is left (or when there are no unnamed tests).
   */
  function DropUnnamedFunctions(m: map<string, TestInfo>, key: string, hasUnnamed: bool, names: seq<string>): map<string, TestInfo> {
    if !hasUnnamed then m - {key}
    else
      var info := if key in m then m[key] else DefaultTestInfo();
      var fs := RemoveEachOnce(info.testFunctions, names);
      if |fs| == 0 then m - {key} else m[key := info.(testFunctions := fs)]
  }

  /** `DropUnnamedFunctions` with an unnamed entry, given its old entry and the functions left. */
  lemma DropUnnamedFunctionsKept(m: map<string, TestInfo>, key: string, names: seq<string>, info: TestInfo, fs: seq<string>)
    requires info == if key in m then m[key] else DefaultTestInfo()
    requires fs == RemoveEachOnce(info.testFunctions, names)
    ensures DropUnnamedFunctions(m, key, true, names)
         == if |fs| == 0 then m - {key} else m[key := info.(testFunctions := fs)]
  {
  }

  /**
   * The unnamed-quick-test entry after `removeTestsIfNecessaryByProFile`:
   * it holds the model's current unnamed functions, or goes when there are none.
   */
  function SetUnnamedFunctions(m: map<string, TestInfo>, key: string, functions: seq<string>): map<string, TestInfo> {
    var info := if key in m then m[key] else NewTestInfo("", [], 666, 0);
    if |functions| == 0 then m - {key} else m[key := info.(testFunctions := functions)]
  }

  /** Only the unnamed entry changes, and it never gains functions. */
  lemma DropUnnamedFunctionsOnlyTouchesKey(m: map<string, TestInfo>, key: string, hasUnnamed: bool, names: seq<string>)
    ensures var r := DropUnnamedFunctions(m, key, hasUnnamed, names);
      (forall k :: k != key ==> (k in r <==> k in m) && (k in r ==> r[k] == m[k]))
      && (key in r ==> hasUnnamed && key in m && r[key] == m[key].(testFunctions := r[key].testFunctions)
                       && |r[key].testFunctions| > 0
                       && multiset(r[key].testFunctions) <= multiset(m[key].testFunctions))
  {
  }

  /**
   * `updateModelAndCppDocMap`'s effect on the C++ table: the document's
   * file maps to a fresh entry, the declaring file (when it is another
   * file) to the same entry referencing the document's file.
   */
  function CppDocMapAfterUpdate(m: map<string, TestInfo>, fileName: string, declaringFile: string,
                                item: TestTreeItem, revision: int, editorRevision: int, proFile: string): map<string, TestInfo>
  {
    var info := NewTestInfo(item.name, item.childNames, revision, editorRevision).(proFile := proFile);
    if declaringFile == fileName then m[fileName := info]
    else m[fileName := info][declaringFile := info.(referencingFile := fileName)]
  }

  /** The C++ table after an update: what each key holds. */
  lemma CppDocMapAfterUpdateEntries(m: map<string, TestInfo>, fileName: string, declaringFile: string,
                                    item: TestTreeItem, revision: int, editorRevision: int, proFile: string, k: string)
    ensures var r := CppDocMapAfterUpdate(m, fileName, declaringFile, item, revision, editorRevision, proFile);
      var info := TestInfo(item.name, item.childNames, revision, editorRevision, "", proFile);
      && r.Keys == m.Keys + {fileName, declaringFile}
      && r[fileName] == info
      && (declaringFile != fileName ==> r[declaringFile] == info.(referencingFile := fileName))
      && (k != fileName && k != declaringFile && k in m ==> r[k] == m[k])
  {
  }

  /** The stored revisions of `fileName` are these. */
  predicate RevisionRecorded(m: map<string, TestInfo>, fileName: string, revision: int, editorRevision: int) {
    fileName in m && m[fileName].revision == revision && m[fileName].editorRevision == editorRevision
  }

  /**
   * Once a document revision is recorded, the same revision of the same
   * document is skipped by `onCppDocumentUpdated`; so is the declaring file
   * delivered with that revision.
   */
  lemma RecordedRevisionIsSkipped(m: map<string, TestInfo>, fileName: string, declaringFile: string,
                                  item: TestTreeItem, revision: int, editorRevision: int, proFile: string)
    ensures RevisionRecorded(CppDocMapAfterUpdate(m, fileName, declaringFile, item, revision, editorRevision, proFile),
                             fileName, revision, editorRevision)
    ensures RevisionRecorded(CppDocMapAfterUpdate(m, fileName, declaringFile, item, revision, editorRevision, proFile),
                             declaringFile, revision, editorRevision)
  {
  }

  /** The parser's state: its two flags, its two tables and what it has emitted. */
  class TestCodeParser {
    var parserEnabled: bool
    var pendingUpdate: bool
    var cppDocMap: map<string, TestInfo>
    var quickDocMap: map<string, TestInfo>
    var events: seq<Event>
    /** `tr(Constants::UNNAMED_QUICKTESTS)`, the key of the unnamed quick tests. */
    const unnamedQuickTests: string

    constructor (unnamedQuickTests: string)
      ensures parserEnabled && !pendingUpdate
      ensures cppDocMap == map[] && quickDocMap == map[] && events == []
      ensures this.unnamedQuickTests == unnamedQuickTests
    {
      parserEnabled := true;
      pendingUpdate := false;
      cppDocMap := map[];
      quickDocMap := map[];
      events := [];
      this.unnamedQuickTests := unnamedQuickTests;
    }

    /** `clearMaps`: both tables become empty. */
    method ClearMaps()
      modifies this
      ensures cppDocMap == map[] && quickDocMap == map[]
      ensures parserEnabled == old(parserEnabled) && pendingUpdate == old(pendingUpdate) && events == old(events)
    {
      cppDocMap := map[];
      quickDocMap := map[];
    }

    /**
     * `updateTestTree`: postponed while parsing is disabled; otherwise the
     * tables are cleared and, when there is a current project, refilled by
     * the scan, which also clears the pending flag.
     */
    method UpdateTestTree(hasCurrentProject: bool, scan: ScanResult)
      modifies this
      ensures parserEnabled == old(parserEnabled)
      ensures !old(parserEnabled) ==>
        pendingUpdate && cppDocMap == old(cppDocMap) && quickDocMap == old(quickDocMap) && events == old(events)
      ensures old(parserEnabled) && !hasCurrentProject ==>
        cppDocMap == map[] && quickDocMap == map[] && events == old(events) + [CacheCleared]
        && pendingUpdate == old(pendingUpdate)
      ensures old(parserEnabled) && hasCurrentProject ==>
        cppDocMap == scan.cppDocMap && quickDocMap == scan.quickDocMap
        && events == old(events) + [CacheCleared] + scan.events && !pendingUpdate
    {
      if !parserEnabled {
        pendingUpdate := true;
        return;
      }
      ClearMaps();
      events := events + [CacheCleared];
      if !hasCurrentProject {
        return;
      }
      cppDocMap, quickDocMap := scan.cppDocMap, scan.quickDocMap;
      events := events + scan.events;
      pendingUpdate := false;
    }

    /** `onTaskStarted`: indexing or .pro evaluation disables parsing. */
    method OnTaskStarted(t: TaskType)
      modifies this
      ensures parserEnabled == if PostponesParsing(t) then false else old(parserEnabled)
      ensures pendingUpdate == old(pendingUpdate) && events == old(events)
      ensures cppDocMap == old(cppDocMap) && quickDocMap == old(quickDocMap)
    {
      if !PostponesParsing(t) {
        return;
      }
      parserEnabled := false;
    }

    /**
     * `onAllTasksFinished`: indexing or .pro evaluation finishing enables
     * parsing and runs the update that was postponed, if any.
     */
    method OnAllTasksFinished(t: TaskType, hasCurrentProject: bool, scan: ScanResult)
      modifies this
      ensures !PostponesParsing(t) ==> unchanged(this)
      ensures PostponesParsing(t) ==> parserEnabled
      ensures PostponesParsing(t) && !old(pendingUpdate) ==>
        !pendingUpdate && cppDocMap == old(cppDocMap) && quickDocMap == old(quickDocMap) && events == old(events)
      ensures PostponesParsing(t) && old(pendingUpdate) && hasCurrentProject ==>
        !pendingUpdate && cppDocMap == scan.cppDocMap && quickDocMap == scan.quickDocMap
        && events == old(events) + [CacheCleared] + scan.events
      ensures PostponesParsing(t) && old(pendingUpdate) && !hasCurrentProject ==>
        pendingUpdate && cppDocMap == map[] && quickDocMap == map[] && events == old(events) + [CacheCleared]
    {
      if !PostponesParsing(t) {
        return;
      }
      parserEnabled := true;
      if pendingUpdate {
        UpdateTestTree(hasCurrentProject, scan);
      }
    }

    /** The first loop of `removeTestsIfNecessary`: the quick keys tied to `fileName`. */
    method QuickTestsOf(fileName: string) returns (toBeRemoved: seq<string>)
      ensures Distinct(toBeRemoved)
      ensures ToSet(toBeRemoved) == QuickMatches(quickDocMap, fileName)
    {
      toBeRemoved := [];
      var keys := quickDocMap.Keys;
      while keys != {}
        invariant keys <= quickDocMap.Keys
        invariant Distinct(toBeRemoved)
        invariant forall x :: x in toBeRemoved ==> x !in keys
        invariant ToSet(toBeRemoved) == QuickMatches(quickDocMap, fileName) - keys
        decreases keys
      {
        var file :| file in keys;
        keys := keys - {file};
        if file == fileName || quickDocMap[file].referencingFile == fileName {
          assert ToSet(toBeRemoved + [file]) == ToSet(toBeRemoved) + {file};
          toBeRemoved := toBeRemoved + [file];
        }
        assert QuickMatches(quickDocMap, fileName) - keys
            == (QuickMatches(quickDocMap, fileName) - (keys + {file}))
               + (if file in QuickMatches(quickDocMap, fileName) then {file} else {});
      }
    }

    /** The collecting loops of `removeTestsIfNecessaryByProFile`. */
    static method KeysWithProFile(m: map<string, TestInfo>, proFile: string) returns (fList: seq<string>)
      ensures Distinct(fList)
      ensures ToSet(fList) == ProFileKeys(m, proFile)
    {
      fList := [];
      var keys := m.Keys;
      while keys != {}
        invariant keys <= m.Keys
        invariant Distinct(fList)
        invariant forall x :: x in fList ==> x !in keys
        invariant ToSet(fList) == ProFileKeys(m, proFile) - keys
        decreases keys
      {
        var file :| file in keys;
        keys := keys - {file};
        if m[file].proFile == proFile {
          assert ToSet(fList + [file]) == ToSet(fList) + {file};
          fList := fList + [file];
        }
        assert ProFileKeys(m, proFile) - keys
            == (ProFileKeys(m, proFile) - (keys + {file}))
               + (if file in ProFileKeys(m, proFile) then {file} else {});
      }
    }

    /** Drops the keys in `files` from the quick table, emitting one removal each. */
    method RemoveQuickEntries(files: seq<string>)
      modifies this
      ensures quickDocMap == old(quickDocMap) - ToSet(files)
      ensures events == old(events) + RemovedEvents(files, QuickTest)
      ensures cppDocMap == old(cppDocMap) && parserEnabled == old(parserEnabled) && pendingUpdate == old(pendingUpdate)
    {
      var i := 0;
      while i < |files|
        invariant 0 <= i <= |files|
        invariant quickDocMap == old(quickDocMap) - ToSet(files[..i])
        invariant events == old(events) + RemovedEvents(files[..i], QuickTest)
        invariant cppDocMap == old(cppDocMap) && parserEnabled == old(parserEnabled) && pendingUpdate == old(pendingUpdate)
      {
        assert files[..i + 1][..i] == files[..i];
        assert ToSet(files[..i + 1]) == ToSet(files[..i]) + {files[i]};
        quickDocMap := quickDocMap - {files[i]};
        events := events + [TestItemsRemoved(files[i], QuickTest)];
        i := i + 1;
      }
      assert files[..i] == files;
    }

    /** Drops the keys in `files` from the C++ table, emitting one removal each. */
    method RemoveCppEntries(files: seq<string>)
      modifies this
      ensures cppDocMap == old(cppDocMap) - ToSet(files)
      ensures events == old(events) + RemovedEvents(files, AutoTest)
      ensures quickDocMap == old(quickDocMap) && parserEnabled == old(parserEnabled) && pendingUpdate == old(pendingUpdate)
    {
      var i := 0;
      while i < |files|
        invariant 0 <= i <= |files|
        invariant cppDocMap == old(cppDocMap) - ToSet(files[..i])
        invariant events == old(events) + RemovedEvents(files[..i], AutoTest)
        invariant quickDocMap == old(quickDocMap) && parserEnabled == old(parserEnabled) && pendingUpdate == old(pendingUpdate)
      {
        assert files[..i + 1][..i] == files[..i];
        assert ToSet(files[..i + 1]) == ToSet(files[..i]) + {files[i]};
        cppDocMap := cppDocMap - {files[i]};
        events := events + [TestItemsRemoved(files[i], AutoTest)];
        i := i + 1;
      }
      assert files[..i] == files;
    }

    /**
     * `removeTestsIfNecessary`: a C++ test file leaves the C++ table;
     * otherwise every quick entry of the file or referencing it goes, and
     * the unnamed quick tests of the file as main file are dropped. The tree
     * model's answers (whether there are unnamed quick tests, their files and
     * function names for this main file) are parameters. `removed` is the
     * order in which the quick keys were dropped.
     */
    method RemoveTestsIfNecessary(fileName: string, hasUnnamedQuickTests: bool,
                                  unnamedFiles: seq<string>, unnamedFunctionNames: seq<string>)
      returns (ghost removed: seq<string>)
      modifies this
      ensures parserEnabled == old(parserEnabled) && pendingUpdate == old(pendingUpdate)
      ensures fileName in old(cppDocMap) ==>
        cppDocMap == old(cppDocMap) - {fileName} && quickDocMap == old(quickDocMap)
        && events == old(events) + [TestItemsRemoved(fileName, AutoTest)]
      ensures fileName !in old(cppDocMap) ==>
        cppDocMap == old(cppDocMap)
        && Distinct(removed) && ToSet(removed) == QuickMatches(old(quickDocMap), fileName)
        && quickDocMap == DropUnnamedFunctions(old(quickDocMap) - QuickMatches(old(quickDocMap), fileName),
                                               unnamedQuickTests, hasUnnamedQuickTests, unnamedFunctionNames)
        && events == old(events) + RemovedEvents(removed, QuickTest)
                     + (if hasUnnamedQuickTests then RemovedEvents(unnamedFiles, QuickTest) else [])
    {
      removed := [];
      if fileName in cppDocMap {
        cppDocMap := cppDocMap - {fileName};
        events := events + [TestItemsRemoved(fileName, AutoTest)];
        return;
      }
      var toBeRemoved := QuickTestsOf(fileName);
      removed := toBeRemoved;
      RemoveQuickEntries(toBeRemoved);
      DropUnnamedQuickTests(hasUnnamedQuickTests, unnamedFiles, unnamedFunctionNames);
    }

    /** Emits one removal of kind `kind` per file, changing nothing else. */
    method EmitRemoved(files: seq<string>, kind: TestType)
      modifies this
      ensures events == old(events) + RemovedEvents(files, kind)
      ensures cppDocMap == old(cppDocMap) && quickDocMap == old(quickDocMap)
      ensures parserEnabled == old(parserEnabled) && pendingUpdate == old(pendingUpdate)
    {
      var i := 0;
      while i < |files|
        invariant 0 <= i <= |files|
        invariant events == old(events) + RemovedEvents(files[..i], kind)
        invariant cppDocMap == old(cppDocMap) && quickDocMap == old(quickDocMap)
        invariant parserEnabled == old(parserEnabled) && pendingUpdate == old(pendingUpdate)
      {
        assert files[..i + 1][..i] == files[..i];
        events := events + [TestItemsRemoved(files[i], kind)];
        i := i + 1;
      }
      assert files[..i] == files;
    }

    /** Emits one `unnamedQuickTestsRemoved` per file, changing nothing else. */
    method EmitUnnamedRemoved(files: seq<string>)
      modifies this
      ensures events == old(events) + UnnamedRemovedEvents(files)
      ensures cppDocMap == old(cppDocMap) && quickDocMap == old(quickDocMap)
      ensures parserEnabled == old(parserEnabled) && pendingUpdate == old(pendingUpdate)
    {
      var i := 0;
      while i < |files|
        invariant 0 <= i <= |files|
        invariant events == old(events) + UnnamedRemovedEvents(files[..i])
        invariant cppDocMap == old(cppDocMap) && quickDocMap == old(quickDocMap)
        invariant parserEnabled == old(parserEnabled) && pendingUpdate == old(pendingUpdate)
      {
        assert files[..i + 1][..i] == files[..i];
        events := events + [UnnamedQuickTestsRemoved(files[i])];
        i := i + 1;
      }
      assert files[..i] == files;
    }

    /** The `removeOne` loop over the unnamed function names. */
    static method RemoveEach(fs: seq<string>, names: seq<string>) returns (functions: seq<string>)
      ensures functions == RemoveEachOnce(fs, names)
    {
      functions := fs;
      var k := 0;
      while k < |names|
        invariant 0 <= k <= |names|
        invariant functions == RemoveEachOnce(fs, names[..k])
      {
        RemoveEachOnceSnoc(fs, names, k);
        functions := RemoveOne(functions, names[k]);
        k := k + 1;
      }
      assert names[..k] == names;
    }

    /** The unnamed-quick-test part of `removeTestsIfNecessary`. */
    method DropUnnamedQuickTests(hasUnnamedQuickTests: bool, unnamedFiles: seq<string>, unnamedFunctionNames: seq<string>)
      modifies this
      ensures quickDocMap == DropUnnamedFunctions(old(quickDocMap), unnamedQuickTests, hasUnnamedQuickTests, unnamedFunctionNames)
      ensures events == old(events) + (if hasUnnamedQuickTests then RemovedEvents(unnamedFiles, QuickTest) else [])
      ensures cppDocMap == old(cppDocMap)
      ensures parserEnabled == old(parserEnabled) && pendingUpdate == old(pendingUpdate)
    {
      if hasUnnamedQuickTests {
        EmitRemoved(unnamedFiles, QuickTest);
        UpdateUnnamedEntry(unnamedFunctionNames);
      } else {
        quickDocMap := quickDocMap - {unnamedQuickTests};
      }
    }

    /** Drops the given functions from the unnamed entry, and the entry when none is left. */
    method UpdateUnnamedEntry(unnamedFunctionNames: seq<string>)
      modifies this
      ensures quickDocMap == DropUnnamedFunctions(old(quickDocMap), unnamedQuickTests, true, unnamedFunctionNames)
      ensures events == old(events) && cppDocMap == old(cppDocMap)
      ensures parserEnabled == old(parserEnabled) && pendingUpdate == old(pendingUpdate)
    {
      var m := quickDocMap;
      var unnamedInfo := if unnamedQuickTests in m then m[unnamedQuickTests] else DefaultTestInfo();
      var functions := RemoveEach(unnamedInfo.testFunctions, unnamedFunctionNames);
      if |functions| == 0 {
        m := m - {unnamedQuickTests};
      } else {
        m := m[unnamedQuickTests := unnamedInfo.(testFunctions := functions)];
      }
      DropUnnamedFunctionsKept(quickDocMap, unnamedQuickTests, unnamedFunctionNames, unnamedInfo, functions);
      quickDocMap := m;
    }

    /**
     * `removeTestsIfNecessaryByProFile`: every entry of either table that
     * belongs to `proFile` goes; the unnamed quick entry is then reset to
     * the model's current unnamed functions. The model's answers (the QML
     * files of the .pro file, the unnamed functions) are parameters.
     */
    method RemoveTestsIfNecessaryByProFile(proFile: string, proFileQmlFiles: seq<string>, unnamedFunctions: seq<string>)
      returns (ghost cppRemoved: seq<string>, ghost quickRemoved: seq<string>)
      modifies this
      ensures parserEnabled == old(parserEnabled) && pendingUpdate == old(pendingUpdate)
      ensures Distinct(cppRemoved) && ToSet(cppRemoved) == ProFileKeys(old(cppDocMap), proFile)
      ensures Distinct(quickRemoved) && ToSet(quickRemoved) == ProFileKeys(old(quickDocMap), proFile)
      ensures cppDocMap == old(cppDocMap) - ProFileKeys(old(cppDocMap), proFile)
      ensures quickDocMap == SetUnnamedFunctions(old(quickDocMap) - ProFileKeys(old(quickDocMap), proFile),
                                                 unnamedQuickTests, unnamedFunctions)
      ensures events == old(events) + RemovedEvents(cppRemoved, AutoTest) + RemovedEvents(quickRemoved, QuickTest)
                        + UnnamedRemovedEvents(proFileQmlFiles)
    {
      var fList := KeysWithProFile(cppDocMap, proFile);
      cppRemoved := fList;
      RemoveCppEntries(fList);
      fList := KeysWithProFile(quickDocMap, proFile);
      quickRemoved := fList;
      RemoveQuickEntries(fList);
      EmitUnnamedRemoved(proFileQmlFiles);
      var unnamedInfo := if unnamedQuickTests in quickDocMap then quickDocMap[unnamedQuickTests] else NewTestInfo("", [], 666, 0);
      unnamedInfo := unnamedInfo.(testFunctions := unnamedFunctions);
      if |unnamedInfo.testFunctions| == 0 {
        quickDocMap := quickDocMap - {unnamedQuickTests};
      } else {
        quickDocMap := quickDocMap[unnamedQuickTests := unnamedInfo];
      }
    }

    /**
     * `updateModelAndCppDocMap`: records a C++ test case found in document
     * `fileName` (revisions `revision`, `editorRevision`, .pro file
     * `proFile`) whose class is declared in `declaringFile`; emits a
     * modification per recorded file for a known document, a creation
     * otherwise.
     */
    method UpdateModelAndCppDocMap(fileName: string, declaringFile: string, testItem: TestTreeItem,
                                   revision: int, editorRevision: int, proFile: string)
      modifies this
      ensures cppDocMap == CppDocMapAfterUpdate(old(cppDocMap), fileName, declaringFile, testItem,
                                                revision, editorRevision, proFile)
      ensures quickDocMap == old(quickDocMap)
      ensures parserEnabled == old(parserEnabled) && pendingUpdate == old(pendingUpdate)
      ensures events == old(events) +
        if fileName in old(cppDocMap) then
          [TestItemModified(testItem, AutoTest, fileName)]
          + (if declaringFile != fileName then [TestItemModified(testItem, AutoTest, declaringFile)] else [])
        else [TestItemCreated(testItem, AutoTest)]
    {
      if fileName in cppDocMap {
        var files := [fileName] + if fileName != declaringFile then [declaringFile] else [];
        var i := 0;
        while i < |files|
          invariant 0 <= i <= |files|
          invariant cppDocMap == if i == 0 then old(cppDocMap)
                                 else CppDocMapAfterUpdate(old(cppDocMap), fileName, if i == 1 then fileName else declaringFile,
                                                           testItem, revision, editorRevision, proFile)
          invariant events == old(events) + seq(i, j requires 0 <= j < i <= |files| => TestItemModified(testItem, AutoTest, files[j]))
          invariant quickDocMap == old(quickDocMap) && parserEnabled == old(parserEnabled) && pendingUpdate == old(pendingUpdate)
        {
          var file := files[i];
          var setReferencingFile := |files| == 2 && file == declaringFile;
          events := events + [TestItemModified(testItem, AutoTest, file)];
          var testInfo := NewTestInfo(testItem.name, testItem.childNames, revision, editorRevision).(proFile := proFile);
          if setReferencingFile {
            testInfo := testInfo.(referencingFile := fileName);
          }
          cppDocMap := cppDocMap[file := testInfo];
          i := i + 1;
        }
      } else {
        events := events + [TestItemCreated(testItem, AutoTest)];
        var ti := NewTestInfo(testItem.name, testItem.childNames, revision, editorRevision).(proFile := proFile);
        cppDocMap := cppDocMap[fileName := ti];
        if declaringFile != fileName {
          ti := ti.(referencingFile := fileName);
          cppDocMap := cppDocMap[declaringFile := ti];
        }
      }
    }

    /**
     * `updateModelAndQuickDocMap`: records a named Qt Quick test case of the
     * QML document `fileName`, run by the C++ main file `referencingFile`.
     * A known document is updated under its own name; a new one is stored
     * under the test item's file path.
     */
    method UpdateModelAndQuickDocMap(fileName: string, editorRevision: int, referencingFile: string,
                                     testItem: TestTreeItem, proFile: string)
      modifies this
      ensures var info := TestInfo(testItem.name, testItem.childNames, 0, editorRevision, referencingFile, proFile);
        if fileName in old(quickDocMap) then
          quickDocMap == old(quickDocMap)[fileName := info]
          && events == old(events) + [TestItemModified(testItem, QuickTest, fileName)]
        else
          quickDocMap == old(quickDocMap)[testItem.filePath := info]
          && events == old(events) + [UnnamedQuickTestsRemoved(fileName), TestItemCreated(testItem, QuickTest)]
      ensures cppDocMap == old(cppDocMap)
      ensures parserEnabled == old(parserEnabled) && pendingUpdate == old(pendingUpdate)
    {
      var testInfo := NewTestInfo(testItem.name, testItem.childNames, 0, editorRevision);
      testInfo := testInfo.(referencingFile := referencingFile).(proFile := proFile);
      if fileName in quickDocMap {
        events := events + [TestItemModified(testItem, QuickTest, fileName)];
        quickDocMap := quickDocMap[fileName := testInfo];
      } else {
        events := events + [UnnamedQuickTestsRemoved(fileName), TestItemCreated(testItem, QuickTest)];
        quickDocMap := quickDocMap[testItem.filePath := testInfo];
      }
    }

    /**
     * The gate of `onCppDocumentUpdated`: whether the document is handed on
     * to `checkDocumentForTestCode`. Nothing happens without a current
     * project; a recorded file whose revisions did not change is skipped,
     * and an unrecorded file is checked only when the project lists it.
     */
    method OnCppDocumentUpdated(hasCurrentProject: bool, fileName: string, revision: int, editorRevision: int,
                                projectFiles: seq<string>) returns (check: bool)
      ensures !hasCurrentProject ==> !check
      ensures hasCurrentProject && fileName in cppDocMap ==>
        (check <==> !RevisionRecorded(cppDocMap, fileName, revision, editorRevision))
      ensures hasCurrentProject && fileName !in cppDocMap ==> (check <==> fileName in projectFiles)
    {
      if !hasCurrentProject {
        return false;
      }
      if fileName in cppDocMap {
        if cppDocMap[fileName].revision == revision && cppDocMap[fileName].editorRevision == editorRevision {
          return false;
        }
      } else if fileName !in projectFiles {
        return false;
      }
      return true;
    }
  }
}
