# A verified model of three Qt Creator components

This project models three self-contained pieces of Qt Creator in Dafny and
proves properties of the models.

- **The code-model backend's project registry** (`CodeModelBackEnd`,
  `projects.dfy`). It is a vector of projects keyed by project file path.
  `createOrUpdate` upserts containers in input order. `remove` drops a batch
  with `std::remove_if`, consuming every matched path from a working copy of
  the request, and then throws one `ProjectDoesNotExistException` carrying
  what was left. `hasProject` and `project` are linear lookups.
- **The autotest plugin's test code parser bookkeeping** (`Autotest`,
  `testcodeparser.dfy`). This covers:
  - the enabled / pending-update flags driven by `updateTestTree`,
    `onTaskStarted` and `onAllTasksFinished`;
  - the two file-to-`TestInfo` tables (C++ tests and Qt Quick tests) and
    the five operations that update them in place: `clearMaps`,
    `removeTestsIfNecessary`, `removeTestsIfNecessaryByProFile`,
    `updateModelAndCppDocMap` and `updateModelAndQuickDocMap`;
  - the `QUICK_TEST_SOURCE_DIR` define extraction and the `tst_*.qml`
    file-name filter;
  - the revision comparison that decides whether an updated C++ document is
    parsed again.

  Emitted signals are recorded in an event log.
- **The QML project run configuration's settings logic** (`QmlProjectManager`,
  `qmlprojectrunconfiguration.dfy`). This covers:
  - the viewer path and its arguments;
  - the main script and the current-file choice;
  - the enabled flag;
  - persistence to and from a variant map, with defaults for missing keys;
  - the entries and selected index of the main-file chooser, built from a
    case-insensitive stable sort.

The Qt string and container operations these components use are
in `QtStrings` (`qtstrings.dfy`):
- `split`/`join`;
- `indexOf`;
- `QByteArray::remove`;
- `toLower`;
- `operator<`;
- `QFileInfo::fileName`/`suffix`/`baseName`;
- `qStableSort`.

`Wrappers` (`wrappers.dfy`) holds an `Option` type.

The three components are modelled as they work: classes whose fields are
updated in place by methods. Each method's postcondition ties the new state
to a specification function of the old state, and the lemmas prove what the
source promises about those functions. Collaborators that the components
only query are parameters:
- the editor manager;
- the MIME database;
- the project's directory, files and import paths;
- the C++ and QML front ends;
- the test tree model.

## Model

| member | source | states |
|---|---|---|
| CodeModelBackEnd.FindProject | src/tools/codemodelbackend/ipcsource/projects.cpp:75-87 | the index of the first project with the path; the index is the end exactly when no project has that path |
| CodeModelBackEnd.FindProjectIsFirst | src/tools/codemodelbackend/ipcsource/projects.cpp:75-87 | any index that matches and has no earlier match is the one `findProject` yields |
| CodeModelBackEnd.Upsert | src/tools/codemodelbackend/ipcsource/projects.cpp:94-101 | `createOrUpdateProject` on the vector: append a new path, else replace the first match's arguments; its properties are UpsertAppendsNew, UpsertReplacesExisting, UpsertKeepsUnique and UpsertLookup |
| CodeModelBackEnd.UpsertAll | src/tools/codemodelbackend/ipcsource/projects.cpp:39-43 | `createOrUpdate` as the upserts of the containers in input order; its properties are UpsertAllLookup, UpsertAllKeepsUnique and UpsertAllSize |
| CodeModelBackEnd.UpsertAppendsNew | src/tools/codemodelbackend/ipcsource/projects.cpp:96-98 | a path not yet registered is appended as one new project with the container's path and arguments |
| CodeModelBackEnd.UpsertReplacesExisting | src/tools/codemodelbackend/ipcsource/projects.cpp:96-100 | a registered path keeps its position; only its arguments are replaced, and the size is unchanged |
| CodeModelBackEnd.UpsertKeepsUnique | src/tools/codemodelbackend/ipcsource/projects.cpp:94-101 | an upsert keeps at most one project per path and adds exactly the container's path to the set of paths |
| CodeModelBackEnd.UpsertLookup | src/tools/codemodelbackend/ipcsource/projects.cpp:94-101 | after an upsert, the container's path yields the container's arguments and every other path yields what it yielded before |
| CodeModelBackEnd.UpsertAllLookup | src/tools/codemodelbackend/ipcsource/projects.cpp:39-43 | after `createOrUpdate`, a path named by several containers carries the arguments of the last of them; unnamed paths are untouched |
| CodeModelBackEnd.UpsertAllKeepsUnique | src/tools/codemodelbackend/ipcsource/projects.cpp:39-43 | `createOrUpdate` keeps paths unique; the new paths are the old ones plus those of the containers |
| CodeModelBackEnd.UniqueSize | src/tools/codemodelbackend/ipcsource/projects.cpp:89-92 | with unique paths there are as many projects as paths |
| CodeModelBackEnd.UpsertAllSize | src/tools/codemodelbackend/ipcsource/projects.cpp:39-43 | the size after `createOrUpdate` is the old size plus the number of distinct container paths that were not registered |
| CodeModelBackEnd.RemoveScan | src/tools/codemodelbackend/ipcsource/projects.cpp:47-54 | the first-to-last `remove_if` scan: the kept projects and what is left of the request; its properties are RemoveScanConserves, RemoveScanUnique, RemoveFailsIff and RemoveEmptyRequest |
| CodeModelBackEnd.RemoveScanConserves | src/tools/codemodelbackend/ipcsource/projects.cpp:49-51 | what is left of the request is a sub-multiset of it, and each removed project consumed exactly one requested occurrence |
| CodeModelBackEnd.RemoveScanUnique | src/tools/codemodelbackend/ipcsource/projects.cpp:47-57 | on a registry with unique paths, `remove` keeps exactly the unrequested projects in their original order, and the exception carries the request less one occurrence of each registered path |
| CodeModelBackEnd.UnmatchedStep | src/tools/codemodelbackend/ipcsource/projects.cpp:49-51 | consuming a newly visited project's path from what is left of the request |
| CodeModelBackEnd.KeepUnrequestedMembers | src/tools/codemodelbackend/ipcsource/projects.cpp:49-54 | a project survives `remove` if and only if it was registered and its path was not requested |
| CodeModelBackEnd.KeepUnrequestedUnique | src/tools/codemodelbackend/ipcsource/projects.cpp:49-54 | removal keeps the paths unique |
| CodeModelBackEnd.RemoveFailsIff | src/tools/codemodelbackend/ipcsource/projects.cpp:56-57 | `remove` throws if and only if some requested path is not registered or is requested more than once |
| CodeModelBackEnd.RemoveEmptyRequest | src/tools/codemodelbackend/ipcsource/projects.cpp:45-58 | an empty request removes nothing and does not throw |
| CodeModelBackEnd.Projects.CreateOrUpdateProject | src/tools/codemodelbackend/ipcsource/projects.cpp:94-101 | the new vector is the upsert of the container into the old one, and paths stay unique |
| CodeModelBackEnd.Projects.CreateOrUpdate | src/tools/codemodelbackend/ipcsource/projects.cpp:39-43 | the containers are upserted one after another, in input order, and paths stay unique |
| CodeModelBackEnd.Projects.Remove | src/tools/codemodelbackend/ipcsource/projects.cpp:45-58 | the surviving projects and the outcome are those of the first-to-last `remove_if` scan; the removals stand even when it throws; paths stay unique |
| CodeModelBackEnd.Projects.HasProject | src/tools/codemodelbackend/ipcsource/projects.cpp:60-63 | true if and only if some registered project has the path |
| CodeModelBackEnd.Projects.ProjectNamed | src/tools/codemodelbackend/ipcsource/projects.cpp:65-73 | the first project with the path when there is one; otherwise the exception carrying exactly that path |
| CodeModelBackEnd.Projects.FindIndex | src/tools/codemodelbackend/ipcsource/projects.cpp:82-87 | the linear search yields `findProject`'s position |
| CodeModelBackEnd.Projects.AllProjects | src/tools/codemodelbackend/ipcsource/projects.cpp:89-92 | the registered projects have unique paths, one project per path |
| CodeModelBackEnd.RemoveFast | src/tools/codemodelbackend/ipcsource/projects.cpp:50-52 | one occurrence of the path is removed, and the result says whether there was one |
| Autotest.RemovedEvents | plugins/autotest/testcodeparser.cpp:527-530 | one `testItemsRemoved(file, kind)` per file, in order |
| Autotest.UnnamedRemovedEvents | plugins/autotest/testcodeparser.cpp:575-577 | one `unnamedQuickTestsRemoved(file)` per file, in order |
| Autotest.StripQuotes | plugins/autotest/testcodeparser.cpp:204-207 | stripping quotes only removes characters |
| Autotest.StripPlainQuotes | plugins/autotest/testcodeparser.cpp:204-205 | a value in one pair of `"` that does not start with `\"` loses exactly that pair |
| Autotest.StripEscapedQuotes | plugins/autotest/testcodeparser.cpp:206-207 | a value in `\"` inside `"` loses both pairs |
| Autotest.StripUnquoted | plugins/autotest/testcodeparser.cpp:204-207 | a value that starts with neither `"` nor `\` is returned unchanged |
| Autotest.SourceDirOfLines | plugins/autotest/testcodeparser.cpp:201-210 | lines without a newline give a directory without a newline |
| Autotest.QuickTestSrcDir | plugins/autotest/testcodeparser.cpp:194-213 | the directory holds no newline; it is empty when the file has no project part or its defines do not name a source directory |
| Autotest.NoMarkerInLines | plugins/autotest/testcodeparser.cpp:201-202 | when the defines hold no marker, no line of their split holds one and the result is empty |
| Autotest.NoMarkerNoDir | plugins/autotest/testcodeparser.cpp:201-212 | lines without the marker give the empty string |
| Autotest.PieceContainmentCarries | plugins/autotest/testcodeparser.cpp:201-202 | a marker found in a line of the split occurs in the whole text |
| Autotest.DefineLineValue | plugins/autotest/testcodeparser.cpp:202-203 | on a `#define QUICK_TEST_SOURCE_DIR value` line, the text after the marker is the value |
| Autotest.QuickTestSrcDirOfDefines | plugins/autotest/testcodeparser.cpp:197-212 | the directory read from defines whose first marker line is `#define QUICK_TEST_SOURCE_DIR value` is that value, with its quotes stripped, whatever lines come before (without the marker) or after |
| Autotest.DirOfLinesWithDefine | plugins/autotest/testcodeparser.cpp:201-209 | the first define line with the marker decides the directory |
| Autotest.SrcDirOfSplit | plugins/autotest/testcodeparser.cpp:199-201 | the directory of a file's defines is that of their lines |
| Autotest.LinesWithoutNewline | plugins/autotest/testcodeparser.cpp:201 | the lines of such defines hold no newline |
| Autotest.DirOfDefineLine | plugins/autotest/testcodeparser.cpp:202-208 | a marker line as the first line gives its value, quotes stripped |
| Autotest.SkipLinesWithoutMarker | plugins/autotest/testcodeparser.cpp:201-202 | lines without the marker are skipped |
| Autotest.QuickTestQmlFiles | plugins/autotest/testcodeparser.cpp:284-287 | the documents passing the `tst_*.qml` filter, in order; its properties are QuickTestQmlFilesMembers and QuickTestQmlFilesAppend |
| Autotest.QuickTestQmlFilesMembers | plugins/autotest/testcodeparser.cpp:284-287 | a document is kept if and only if it is among the scanned ones and its file name starts with `tst_` and ends with `.qml` |
| Autotest.QuickTestQmlFilesAppend | plugins/autotest/testcodeparser.cpp:282-289 | filtering distributes over the directories scanned one after another |
| Autotest.CollectQuickTestQmlFiles | plugins/autotest/testcodeparser.cpp:280-291 | the nested loops keep exactly the filtered documents of all directories, in scan order |
| Autotest.RemoveOne | plugins/autotest/testcodeparser.cpp:541-542 | `removeOne` drops one occurrence of the name, as a multiset |
| Autotest.RemoveOneFirst | plugins/autotest/testcodeparser.cpp:541-542 | `removeOne` removes the first occurrence and keeps the other elements in order; without an occurrence the list is unchanged |
| Autotest.RemoveEachOnce | plugins/autotest/testcodeparser.cpp:540-542 | the function list loses one occurrence of each name, as a multiset |
| Autotest.DropUnnamedFunctions | plugins/autotest/testcodeparser.cpp:531-550 | the unnamed entry after `removeTestsIfNecessary`; its property is DropUnnamedFunctionsOnlyTouchesKey |
| Autotest.SetUnnamedFunctions | plugins/autotest/testcodeparser.cpp:579-586 | the unnamed entry after `removeTestsIfNecessaryByProFile`: the model's current unnamed functions on the old entry (or a fresh one with revision 666), or no entry when there are none |
| Autotest.CppDocMapAfterUpdate | plugins/autotest/testcodeparser.cpp:637-661 | the C++ table after `updateModelAndCppDocMap`; its properties are CppDocMapAfterUpdateEntries and RecordedRevisionIsSkipped |
| Autotest.DropUnnamedFunctionsOnlyTouchesKey | plugins/autotest/testcodeparser.cpp:531-550 | only the unnamed-quick-tests entry changes; it survives only when there are unnamed tests and some function is left, and it never gains functions |
| Autotest.CppDocMapAfterUpdateEntries | plugins/autotest/testcodeparser.cpp:637-661 | the document's file maps to the fresh entry, a different declaring file to that entry referencing the document, and no other key changes |
| Autotest.RecordedRevisionIsSkipped | plugins/autotest/testcodeparser.cpp:437-442 | once an update records a revision, the same revision of the document and of its declaring file is skipped |
| Autotest.TestCodeParser.constructor | plugins/autotest/testcodeparser.cpp:48-53 | parsing is enabled, no update is pending, both tables are empty |
| Autotest.TestCodeParser.ClearMaps | plugins/autotest/testcodeparser.cpp:504-508 | both tables are empty and nothing else changes |
| Autotest.TestCodeParser.UpdateTestTree | plugins/autotest/testcodeparser.cpp:80-103 | while disabled, only the pending flag is set; otherwise the tables are cleared and `cacheCleared` is emitted; with a current project the scan refills them and the pending flag is cleared |
| Autotest.TestCodeParser.OnTaskStarted | plugins/autotest/testcodeparser.cpp:589-595 | indexing and .pro evaluation disable parsing; other tasks change nothing |
| Autotest.TestCodeParser.OnAllTasksFinished | plugins/autotest/testcodeparser.cpp:597-605 | indexing and .pro evaluation enable parsing and run the pending update, if any; other tasks change nothing |
| Autotest.TestCodeParser.QuickTestsOf | plugins/autotest/testcodeparser.cpp:517-526 | the collected keys are distinct and are exactly the quick keys equal to the file or referencing it |
| Autotest.TestCodeParser.KeysWithProFile | plugins/autotest/testcodeparser.cpp:556-560 | the collected keys are distinct and are exactly those whose entry belongs to the .pro file |
| Autotest.TestCodeParser.RemoveQuickEntries | plugins/autotest/testcodeparser.cpp:527-530 | the keys leave the quick table, one removal emitted per key |
| Autotest.TestCodeParser.RemoveCppEntries | plugins/autotest/testcodeparser.cpp:561-564 | the keys leave the C++ table, one removal emitted per key |
| Autotest.TestCodeParser.RemoveTestsIfNecessary | plugins/autotest/testcodeparser.cpp:510-552 | a C++ test file leaves only the C++ table; otherwise exactly the quick entries of the file or referencing it go, with one removal each, and the unnamed entry loses the main file's functions |
| Autotest.TestCodeParser.EmitRemoved | plugins/autotest/testcodeparser.cpp:536-537 | one removal per file is emitted and nothing else changes |
| Autotest.TestCodeParser.EmitUnnamedRemoved | plugins/autotest/testcodeparser.cpp:576-577 | one unnamed removal per file is emitted and nothing else changes |
| Autotest.TestCodeParser.RemoveEach | plugins/autotest/testcodeparser.cpp:540-542 | the `removeOne` loop computes the list less one occurrence of each name |
| Autotest.TestCodeParser.DropUnnamedQuickTests | plugins/autotest/testcodeparser.cpp:531-550 | the unnamed entry is updated or dropped, and the unnamed test files are reported removed when there are unnamed tests |
| Autotest.TestCodeParser.UpdateUnnamedEntry | plugins/autotest/testcodeparser.cpp:539-547 | the unnamed entry loses the given functions, and goes when none is left |
| Autotest.TestCodeParser.RemoveTestsIfNecessaryByProFile | plugins/autotest/testcodeparser.cpp:554-587 | exactly the entries of either table that belong to the .pro file go, one removal each; the unnamed entry is reset to the model's current unnamed functions |
| Autotest.TestCodeParser.UpdateModelAndCppDocMap | plugins/autotest/testcodeparser.cpp:626-662 | the C++ table becomes the recorded update; a known document emits one modification per recorded file, a new one a creation |
| Autotest.TestCodeParser.UpdateModelAndQuickDocMap | plugins/autotest/testcodeparser.cpp:664-691 | a known document's entry is replaced under its name with one modification; a new one is stored under the test item's path, after unnamed removal and creation are emitted |
| Autotest.TestCodeParser.OnCppDocumentUpdated | plugins/autotest/testcodeparser.cpp:431-447 | without a project nothing is parsed; a recorded file is parsed if and only if its revisions changed; an unrecorded one if and only if the project lists it |
| QtStrings.IndexFrom | plugins/autotest/testcodeparser.cpp:203 | the first occurrence at or after the start, or -1 when there is none |
| QtStrings.IndexOf | plugins/autotest/testcodeparser.cpp:203 | `indexOf` is -1 if and only if the text does not occur; otherwise it is the first occurrence |
| QtStrings.Split | plugins/autotest/testcodeparser.cpp:201 | `split` yields at least one piece and no piece holds the separator |
| QtStrings.JoinSplit | src/plugins/qmlprojectmanager/qmlprojectrunconfiguration.cpp:150 | joining the pieces of a split gives back the string |
| QtStrings.SplitJoin | plugins/autotest/testcodeparser.cpp:201 | splitting a join of separator-free pieces gives back the pieces |
| QtStrings.SplitNoSeparator | plugins/autotest/testcodeparser.cpp:201 | a string without the separator splits into itself |
| QtStrings.SplitAppend | plugins/autotest/testcodeparser.cpp:201 | splitting peels off a separator-free first piece |
| QtStrings.FileNameIsLastComponent | plugins/autotest/testcodeparser.cpp:285 | the file name ends the path and holds no `/`; a path without `/` is its own file name |
| QtStrings.SuffixIsLastExtension | src/plugins/qmlprojectmanager/qmlprojectrunconfiguration.cpp:244 | the suffix ends the file name and holds neither `.` nor `/`; a file name without `.` has an empty suffix |
| QtStrings.SuffixBeforeScan | src/plugins/qmlprojectmanager/qmlprojectrunconfiguration.cpp:244 | scanning back over a tail without `.` or `/` gives a suffix that ends the file name |
| QtStrings.FileNameKeepsTail | plugins/autotest/testcodeparser.cpp:285 | a tail without `/` is the end of the file name |
| QtStrings.BaseNameIsFirstPart | src/plugins/qmlprojectmanager/qmlprojectrunconfiguration.cpp:343 | the base name starts the file name and holds no `.`; a file name without `.` is its own base name |
| QtStrings.UpToFirstDotIsPrefix | src/plugins/qmlprojectmanager/qmlprojectrunconfiguration.cpp:343 | the text before the first `.` is a prefix holding no `.` |
| QtStrings.RemoveRange | plugins/autotest/testcodeparser.cpp:205 | an in-range removal shortens by its length; an out-of-range position changes nothing |
| QtStrings.ToLower | src/plugins/qmlprojectmanager/qmlprojectrunconfiguration.cpp:177 | lower-casing keeps the length and maps each character |
| QtStrings.LessIrreflexive | src/plugins/qmlprojectmanager/qmlprojectrunconfiguration.cpp:175-178 | no string is less than itself |
| QtStrings.LessTransitive | src/plugins/qmlprojectmanager/qmlprojectrunconfiguration.cpp:175-178 | the string order is transitive |
| QtStrings.LessTotal | src/plugins/qmlprojectmanager/qmlprojectrunconfiguration.cpp:175-178 | two strings are ordered one way or the other, or equal |
| QtStrings.LessAsymmetric | src/plugins/qmlprojectmanager/qmlprojectrunconfiguration.cpp:175-178 | the string order is asymmetric |
| QtStrings.CaseInsensitiveLess | src/plugins/qmlprojectmanager/qmlprojectrunconfiguration.cpp:175-178 | `caseInsensitiveLessThan`: the order of the lower-cased strings |
| QtStrings.StableSort | src/plugins/qmlprojectmanager/qmlprojectrunconfiguration.cpp:240 | `qStableSort` with `caseInsensitiveLessThan`; its properties are StableSortSorted, StableSortPermutes and StableSortIsStable |
| QtStrings.InsertStable | src/plugins/qmlprojectmanager/qmlprojectrunconfiguration.cpp:240 | an insertion adds exactly the element |
| QtStrings.InsertStableSorted | src/plugins/qmlprojectmanager/qmlprojectrunconfiguration.cpp:240 | inserting into a sorted list keeps it sorted |
| QtStrings.FirstNotAbove | src/plugins/qmlprojectmanager/qmlprojectrunconfiguration.cpp:240 | a step of the insertion: no later element is below the head it passed |
| QtStrings.StableSortSorted | src/plugins/qmlprojectmanager/qmlprojectrunconfiguration.cpp:240 | `qStableSort` with `caseInsensitiveLessThan` orders its result |
| QtStrings.StableSortPermutes | src/plugins/qmlprojectmanager/qmlprojectrunconfiguration.cpp:240 | the sort is a permutation of its input |
| QtStrings.InsertStableWithKey | src/plugins/qmlprojectmanager/qmlprojectrunconfiguration.cpp:240 | an insertion keeps the order of the entries with the same lower-cased form |
| QtStrings.StableSortIsStable | src/plugins/qmlprojectmanager/qmlprojectrunconfiguration.cpp:240 | entries that compare equal keep their input order |
| QmlProjectManager.DefaultDebugData | src/plugins/qmlprojectmanager/qmlprojectrunconfiguration.cpp:56-59 | the default debug server is 127.0.0.1 on port 3768 |
| QmlProjectManager.DecimalString | src/plugins/qmlprojectmanager/qmlprojectrunconfiguration.cpp:311 | a number prints as a non-empty string of digits |
| QmlProjectManager.ParseUInt | src/plugins/qmlprojectmanager/qmlprojectrunconfiguration.cpp:321 | a non-zero result comes from a string of decimal digits with that value |
| QmlProjectManager.DigitsValueOfDecimal | src/plugins/qmlprojectmanager/qmlprojectrunconfiguration.cpp:311 | the digits of a number read back as the number |
| QmlProjectManager.ParseDecimal | src/plugins/qmlprojectmanager/qmlprojectrunconfiguration.cpp:321 | parsing a printed 32-bit number gives the number |
| QmlProjectManager.VariantToString | src/plugins/qmlprojectmanager/qmlprojectrunconfiguration.cpp:318-322 | a string variant gives its string, a number variant a text that parses back to the number |
| QmlProjectManager.VariantToUInt | src/plugins/qmlprojectmanager/qmlprojectrunconfiguration.cpp:321 | a number variant gives its number, a string variant its parse |
| QmlProjectManager.SettingsOf | src/plugins/qmlprojectmanager/qmlprojectrunconfiguration.cpp:318-322 | a missing key reads as its default: empty viewer and arguments, the current-file key, port 3768, 127.0.0.1 |
| QmlProjectManager.SettingsMap | src/plugins/qmlprojectmanager/qmlprojectrunconfiguration.cpp:306-313 | the map gains the five keys and keeps the base configuration's entries |
| QmlProjectManager.SettingsRoundTrip | src/plugins/qmlprojectmanager/qmlprojectrunconfiguration.cpp:304-326 | reading back what was written restores every setting, whatever the base map holds |
| QmlProjectManager.SettingsDefaults | src/plugins/qmlprojectmanager/qmlprojectrunconfiguration.cpp:318-322 | a map without the five keys reads as all defaults |
| QmlProjectManager.ImportArguments | src/plugins/qmlprojectmanager/qmlprojectrunconfiguration.cpp:153-156 | a `-I path` pair per import path, in order |
| QmlProjectManager.ViewerArgumentList | src/plugins/qmlprojectmanager/qmlprojectrunconfiguration.cpp:144-162 | the arguments `viewerArguments` builds; its layout is ViewerArgumentLayout |
| QmlProjectManager.ViewerArgumentLayout | src/plugins/qmlprojectmanager/qmlprojectrunconfiguration.cpp:144-162 | the user's words (which hold no space and join back into the user's string), then the `-I` pairs, then the main script when there is one |
| QmlProjectManager.QmlEntries | src/plugins/qmlprojectmanager/qmlprojectrunconfiguration.cpp:242-252 | the relative paths of the `.qml` files of the sorted list, in order; its properties are QmlEntriesSnoc and QmlEntriesMembers |
| QmlProjectManager.QmlEntriesSnoc | src/plugins/qmlprojectmanager/qmlprojectrunconfiguration.cpp:242-252 | one loop step adds the relative path of a `.qml` file and nothing for another file |
| QmlProjectManager.QmlEntriesMembers | src/plugins/qmlprojectmanager/qmlprojectrunconfiguration.cpp:242-252 | an entry is listed if and only if it is the relative path of some `.qml` project file |
| QmlProjectManager.FirstLowerCaseQmlFile | src/plugins/qmlprojectmanager/qmlprojectrunconfiguration.cpp:340-351 | the search position is within the list or its end |
| QmlProjectManager.FirstLowerCaseQmlFileIsFirst | src/plugins/qmlprojectmanager/qmlprojectrunconfiguration.cpp:340-351 | the search stops at the first non-empty QML file with a lower-case base name, and reaches the end only when there is none |
| QmlProjectManager.CurrentFileChoice | src/plugins/qmlprojectmanager/qmlprojectrunconfiguration.cpp:330-354 | the file `changeCurrentFile` picks and whether it enables the configuration; its properties are CurrentFileChoiceProperties |
| QmlProjectManager.CurrentFileChoiceProperties | src/plugins/qmlprojectmanager/qmlprojectrunconfiguration.cpp:330-354 | enabled only on a QML file; with an editor, enabled if and only if the picked file is QML; an editor not showing a `.qmlproject` file is always picked; otherwise the fallback picks a lower-case QML project file when and only when there is one |
| QmlProjectManager.NormalizedScript | src/plugins/qmlprojectmanager/qmlprojectrunconfiguration.cpp:269-272 | the stored script is never the chooser's label; any other script is kept |
| QmlProjectManager.QmlProjectRunConfiguration.constructor | src/plugins/qmlprojectmanager/qmlprojectrunconfiguration.cpp:61-69 | a new configuration uses the current file, is disabled, and has no custom viewer, no arguments and the default debug data |
| QmlProjectManager.QmlProjectRunConfiguration.Copy | src/plugins/qmlprojectmanager/qmlprojectrunconfiguration.cpp:71-82 | a copy takes the source's viewer, arguments and debug data and its normalised script, then sets that script: the current-file choice, or the resolved main file with the configuration enabled |
| QmlProjectManager.QmlProjectRunConfiguration.ViewerPath | src/plugins/qmlprojectmanager/qmlprojectrunconfiguration.cpp:137-142 | the custom viewer when it is set, else the default one |
| QmlProjectManager.QmlProjectRunConfiguration.MainScript | src/plugins/qmlprojectmanager/qmlprojectrunconfiguration.cpp:221-227 | the current file when it is used, else the main script file |
| QmlProjectManager.QmlProjectRunConfiguration.IsEnabled | src/plugins/qmlprojectmanager/qmlprojectrunconfiguration.cpp:84-89 | the value the last `setEnabled` announced |
| QmlProjectManager.QmlProjectRunConfiguration.SetEnabled | src/plugins/qmlprojectmanager/qmlprojectrunconfiguration.cpp:358-362 | the flag is stored and announced, and nothing else changes |
| QmlProjectManager.QmlProjectRunConfiguration.FindLowerCaseQmlFile | src/plugins/qmlprojectmanager/qmlprojectrunconfiguration.cpp:340-351 | finds a file if and only if some project file qualifies, and then the first one |
| QmlProjectManager.QmlProjectRunConfiguration.ChangeCurrentFile | src/plugins/qmlprojectmanager/qmlprojectrunconfiguration.cpp:328-356 | when the current file is used, the file and the announced flag are the current-file choice; otherwise nothing changes |
| QmlProjectManager.QmlProjectRunConfiguration.SetMainScript | src/plugins/qmlprojectmanager/qmlprojectrunconfiguration.cpp:267-282 | the script is normalised; an empty or current-file script switches to the current-file choice; any other becomes the resolved main file and enables the configuration |
| QmlProjectManager.QmlProjectRunConfiguration.ViewerArguments | src/plugins/qmlprojectmanager/qmlprojectrunconfiguration.cpp:144-162 | the append loop builds the argument layout |
| QmlProjectManager.QmlProjectRunConfiguration.ToMap | src/plugins/qmlprojectmanager/qmlprojectrunconfiguration.cpp:304-314 | reading the map back gives this configuration's settings; the base configuration's entries are kept and no other key is added |
| QmlProjectManager.QmlProjectRunConfiguration.FromMap | src/plugins/qmlprojectmanager/qmlprojectrunconfiguration.cpp:316-326 | the settings read (defaults for missing keys) are stored, then the script read is set: the current-file choice, or the resolved main file with the configuration enabled |
| QmlProjectManager.QmlProjectRunConfiguration.FileComboEntries | src/plugins/qmlprojectmanager/qmlprojectrunconfiguration.cpp:229-259 | the label, then the relative paths of the `.qml` project files in case-insensitive stable order; the selected index is that of the last entry equal to the script, or 0 exactly when no entry equals it |
| QmlProjectManager.QmlProjectRunConfiguration.ListQmlFiles | src/plugins/qmlprojectmanager/qmlprojectrunconfiguration.cpp:242-252 | the loop lists the label and the `.qml` entries, and remembers the last entry equal to the script, or -1 |

## Left out

- Input/output, timers, signal and slot connections, and the widgets (`createConfigurationWidget` and its slots `onViewerChanged`, `onViewerArgsChanged`, `onDebugServerAddressChanged`, `onDebugServerPortChanged`) are not modelled: they only move values between widgets and fields.
- `updateFileComboBox` returns early when no chooser widget exists. The model computes the list and index the chooser would be given.
- The C++ and QML front ends (macro uses, AST visitors, `preprocessedDocument`, `importScan`, the directory walk, reading files) are not modelled. Their results enter as parameters: the scan result of `updateTestTree`, the project part's defines of `quickTestSrcDir`, the documents of each scanned directory, and the test tree model's answers.
- `scanForTests`, `checkDocumentForTestCode`, `handleQtQuickTest`, `onQmlDocumentUpdated`, `onProFileEvaluated`, `removeFiles` and `updateUnnamedQuickTests` are not modelled. They lie outside the bookkeeping modelled here and are called from the front-end handlers. Two of them also change the tables: `checkDocumentForTestCode` drops a C++ entry whose referencing file is gone, and `updateUnnamedQuickTests` drops a quick entry and rewrites the unnamed entry. `removeFiles` is a loop over the modelled `removeTestsIfNecessary`. `onCppDocumentUpdated` is modelled only up to the decision to hand the document on.
- `quickTestName` is not modelled. It reads a third element of a two-element array, which is undefined behaviour.
- Autotest.TestCodeParser.QuickTestsOf: the order in which `QMap::keys` lists keys is not modelled. The removal events of `removeTestsIfNecessary` and `removeTestsIfNecessaryByProFile` come out in some order of the matching keys; that order is returned as a ghost out-parameter.
- Autotest.TestCodeParser.RemoveTestsIfNecessary: `QSet` iteration order is not modelled. The model's file set arrives as a sequence in the order it would be iterated.
- The translated key of the unnamed quick tests (`tr(Constants::UNNAMED_QUICKTESTS)`) is a constructor parameter, because the constants header is not part of this model.
- `TestInfo` defaults are taken as: no referencing file, no .pro file, revisions 0. The header that declares them is not part of this model.
- The settings keys are a datatype rather than the string constants of the constants header, which is not part of this model. The default debug port 3768 is the value of `QML_DEFAULT_DEBUG_SERVER_PORT`.
- The base run configuration's `toMap` and `fromMap` are not modelled. Its entries are carried through untouched, and `fromMap`'s boolean result is not modelled.
- QmlProjectManager.ParseUInt: covers decimal digits only. `QString::toUInt`'s acceptance of surrounding whitespace and a leading `+` is not modelled.
- QtStrings.Less: compares characters (Unicode scalar values). QString compares UTF-16 code units, so a character above U+FFFF sorts after U+E000 to U+FFFF here and before them in the source. Below U+10000 the two orders agree.
- QtStrings.ToLower: lower-cases only ASCII letters. `QChar::isLower` is modelled on ASCII the same way, so non-ASCII case rules are not modelled.
- `QFileInfo::fileName`, `suffix` and `baseName`: a path is split on `/` only. `QFileInfo`'s native separators and path cleaning are not modelled.
- The fallback search of `changeCurrentFile` treats an empty base name as not lower-case. In the source, `baseName()[0]` on an empty name yields a null character, which is not lower-case, so the two agree.
- The MIME database becomes a function from file name to MIME type. The source looks up once by name and once by `QFileInfo`; both are taken to give the same answer.
- `QDir::relativeFilePath` and `QDir::absoluteFilePath` become functions given as parameters.
- The filesystem checks of `ctor` that pick the default viewer are not modelled. Their result is the `defaultViewerPath` parameter.
- `debugServerAddress`, `debugServerPort`, `workingDirectory` and `qmlTarget` are not modelled: they are plain accessors.
- `Project::clearProjectFilePath` on the removed elements before `erase` is not modelled. Those elements are destroyed right after.
- The copy constructor leaves `m_usingCurrentFile` and `m_isEnabled` uninitialised until `setMainScript` sets them. The model starts the copy disabled, with no announcement yet; `setMainScript` always sets both before the constructor returns.
