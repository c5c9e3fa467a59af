/**
 * The settings logic of the QML project run configuration: which viewer
 * runs, with which arguments and main script, whether the configuration is
 * enabled, how its settings are stored in and restored from a variant map,
 * and the entries of the main-file chooser. The editor manager, the MIME
 * database, the project (its files, directory and import paths) and the
 * base run configuration are collaborators whose answers are parameters.
 */
module QmlProjectManager {

  import opened Wrappers
  import opened QtStrings

  newtype uint32 = x: int | 0 <= x < 0x1_0000_0000

  /** `Constants::QML_DEFAULT_DEBUG_SERVER_PORT`. */
  const DefaultDebugServerPort: uint32 := 3768

  /** The chooser's label for "run the file in the current editor" (`CURRENT_FILE`). */
  const CurrentFileLabel: string := "<Current File>"

  /** The locale-independent stored form of that choice (`M_CURRENT_FILE`). */
  const CurrentFileKey: string := "CurrentFile"

  const QmlMimeType: string := "application/x-qml"
  const QmlProjectMimeType: string := "application/x-qmlproject"

  /** `QmlProjectRunConfigurationDebugData`. */
  datatype DebugData = DebugData(serverAddress: string, serverPort: uint32)

  /** The debug data a new configuration starts with. */
  function DefaultDebugData(): (d: DebugData)
    ensures d.serverAddress == "127.0.0.1" && d.serverPort == 3768
  {
    DebugData("127.0.0.1", DefaultDebugServerPort)
  }

  /**
   * The keys of a settings map: the five this configuration writes, and any
   * other key, which the base run configuration owns.
   */
  datatype SettingKey =
    | ViewerKey
    | ViewerArgumentsKey
    | MainScriptKey
    | DebugServerPortKey
    | DebugServerAddressKey
    | OtherKey(name: string)

  /** The two kinds of `QVariant` stored under those keys. */
  datatype Variant = VString(s: string) | VUInt(n: uint32)

  function DigitChar(d: nat): char
    requires d < 10
  {
    ('0' as int + d) as char
  }

  /** The decimal text of `n`, without leading zeros. */
  function DecimalString(n: nat): (r: string)
    ensures |r| >= 1 && AllDigits(r)
  {
    if n < 10 then [DigitChar(n)] else DecimalString(n / 10) + [DigitChar(n % 10)]
  }

  predicate AllDigits(s: string) {
    forall i :: 0 <= i < |s| ==> '0' <= s[i] <= '9'
  }

  /** The value of a string of decimal digits. */
  function DigitsValue(s: string): nat
    requires AllDigits(s)
  {
    if s == [] then 0 else DigitsValue(s[..|s| - 1]) * 10 + (s[|s| - 1] as int - '0' as int)
  }

  /**
   * `QString::toUInt` on decimal text: 0 for an empty string, a non-digit
   * or a value that does not fit in 32 bits.
   */
  function ParseUInt(s: string): (r: uint32)
    ensures r != 0 ==> s != [] && AllDigits(s) && DigitsValue(s) == r as int
  {
    if s != [] && AllDigits(s) && DigitsValue(s) < 0x1_0000_0000 then DigitsValue(s) as uint32 else 0
  }

  /** Reading back the decimal text of a number gives the number. */
  lemma {:induction false} DigitsValueOfDecimal(n: nat)
    ensures DigitsValue(DecimalString(n)) == n
  {
    if n >= 10 {
      var s := DecimalString(n);
      assert s[..|s| - 1] == DecimalString(n / 10);
      DigitsValueOfDecimal(n / 10);
    }
  }

  lemma ParseDecimal(n: uint32)
    ensures ParseUInt(DecimalString(n as nat)) == n
  {
    DigitsValueOfDecimal(n as nat);
  }

  /** `QVariant::toString()`. */
  function VariantToString(v: Variant): (r: string)
    ensures v.VString? ==> r == v.s
    ensures v.VUInt? ==> ParseUInt(r) == v.n
  {
    match v
    case VString(s) => s
    case VUInt(n) =>
      ParseDecimal(n);
      DecimalString(n as nat)
  }

  /** `QVariant::toUInt()`. */
  function VariantToUInt(v: Variant): (r: uint32)
    ensures v.VUInt? ==> r == v.n
    ensures v.VString? ==> r == ParseUInt(v.s)
  {
    match v
    case VString(s) => ParseUInt(s)
    case VUInt(n) => n
  }

  /** The five values `toMap` writes and `fromMap` reads. */
  datatype Settings = Settings(
    viewerPath: string,
    viewerArguments: string,
    mainScript: string,
    debugServerPort: uint32,
    debugServerAddress: string)

  /** `map.value(key, default)` for a string setting. */
  function StringSetting(m: map<SettingKey, Variant>, key: SettingKey, default: string): string {
    if key in m then VariantToString(m[key]) else default
  }

  /**
   * What `fromMap` reads: a missing viewer or argument key reads as the
   * empty string, a missing main script as the current-file key, a missing
   * port and address as the debug defaults.
   */
  function SettingsOf(m: map<SettingKey, Variant>): (s: Settings)
    ensures ViewerKey !in m ==> s.viewerPath == ""
    ensures ViewerArgumentsKey !in m ==> s.viewerArguments == ""
    ensures MainScriptKey !in m ==> s.mainScript == CurrentFileKey
    ensures DebugServerPortKey !in m ==> s.debugServerPort == DefaultDebugServerPort
    ensures DebugServerAddressKey !in m ==> s.debugServerAddress == DefaultDebugData().serverAddress
  {
    Settings(
      StringSetting(m, ViewerKey, ""),
      StringSetting(m, ViewerArgumentsKey, ""),
      StringSetting(m, MainScriptKey, CurrentFileKey),
      if DebugServerPortKey in m then VariantToUInt(m[DebugServerPortKey]) else DefaultDebugServerPort,
      StringSetting(m, DebugServerAddressKey, DefaultDebugData().serverAddress))
  }

  /** What `toMap` writes on top of the base configuration's map. */
  function SettingsMap(base: map<SettingKey, Variant>, s: Settings): (m: map<SettingKey, Variant>)
    ensures m.Keys == base.Keys + {ViewerKey, ViewerArgumentsKey, MainScriptKey, DebugServerPortKey, DebugServerAddressKey}
    ensures forall k :: k in base && k.OtherKey? ==> m[k] == base[k]
  {
    base[ViewerKey := VString(s.viewerPath)]
        [ViewerArgumentsKey := VString(s.viewerArguments)]
        [MainScriptKey := VString(s.mainScript)]
        [DebugServerPortKey := VUInt(s.debugServerPort)]
        [DebugServerAddressKey := VString(s.debugServerAddress)]
  }

  /** Reading back what was written restores every setting, whatever the base map holds. */
  lemma SettingsRoundTrip(base: map<SettingKey, Variant>, s: Settings)
    ensures SettingsOf(SettingsMap(base, s)) == s
  {
  }

  /** A map without any of the five keys reads as the defaults. */
  lemma SettingsDefaults(m: map<SettingKey, Variant>)
    requires forall k :: k in m ==> k.OtherKey?
    ensures SettingsOf(m) == Settings("", "", CurrentFileKey, DefaultDebugServerPort, "127.0.0.1")
  {
  }

  /** `import paths` as viewer arguments: `-I path` for each, in order. */
  function ImportArguments(importPaths: seq<string>): (r: seq<string>)
    ensures |r| == 2 * |importPaths|
    ensures forall i :: 0 <= i < |importPaths| ==> r[2 * i] == "-I" && r[2 * i + 1] == importPaths[i]
  {
    if importPaths == [] then []
    else
      var init := importPaths[..|importPaths| - 1];
      var r := ImportArguments(init) + ["-I", importPaths[|importPaths| - 1]];
      assert forall i :: 0 <= i < |init| ==> importPaths[i] == init[i];
      r
  }

  /** The user's argument string as a list: split on ' ', none when empty. */
  function UserArguments(viewerArgs: string): seq<string> {
    if viewerArgs == "" then [] else Split(viewerArgs, ' ')
  }

  /** The arguments the viewer is started with. */
  function ViewerArgumentList(viewerArgs: string, importPaths: seq<string>, mainScript: string): seq<string> {
    UserArguments(viewerArgs) + ImportArguments(importPaths) + (if mainScript == "" then [] else [mainScript])
  }

  /**
   * The layout of the viewer's arguments: the user's words, which join back
   * into the user's string and contain no space, a `-I path` pair per
   * import path, then the main script when there is one.
   */
  lemma ViewerArgumentLayout(viewerArgs: string, importPaths: seq<string>, mainScript: string)
    ensures var args := ViewerArgumentList(viewerArgs, importPaths, mainScript);
      var u := UserArguments(viewerArgs);
      && |args| == |u| + 2 * |importPaths| + (if mainScript == "" then 0 else 1)
      && args[..|u|] == u
      && (viewerArgs != "" ==> Join(u, ' ') == viewerArgs)
      && (forall k :: 0 <= k < |u| ==> ' ' !in args[k])
      && (forall i :: 0 <= i < |importPaths| ==> args[|u| + 2 * i] == "-I" && args[|u| + 2 * i + 1] == importPaths[i])
      && (mainScript != "" ==> args[|args| - 1] == mainScript)
  {
    if viewerArgs != "" {
      JoinSplit(viewerArgs, ' ');
    }
  }

  /** A file the chooser lists: its suffix is `qml`. */
  predicate IsQml(fileName: string) {
    Suffix(fileName) == "qml"
  }

  /** The `.qml` files of a sorted project file list, relative to the project directory. */
  function QmlEntries(sorted: seq<string>, relative: string -> string): seq<string> {
    if sorted == [] then []
    else
      var fn := sorted[|sorted| - 1];
      QmlEntries(sorted[..|sorted| - 1], relative) + (if IsQml(fn) then [relative(fn)] else [])
  }

  lemma QmlEntriesSnoc(sorted: seq<string>, i: nat, relative: string -> string)
    requires i < |sorted|
    ensures QmlEntries(sorted[..i + 1], relative)
         == QmlEntries(sorted[..i], relative) + (if IsQml(sorted[i]) then [relative(sorted[i])] else [])
  {
    assert sorted[..i + 1][..i] == sorted[..i];
  }

  /** An entry comes from a `.qml` project file, and every `.qml` project file has one. */
  lemma {:induction false} QmlEntriesMembers(sorted: seq<string>, relative: string -> string, e: string)
    ensures e in QmlEntries(sorted, relative) <==> exists fn :: fn in sorted && IsQml(fn) && relative(fn) == e
  {
    if sorted != [] {
      var init := sorted[..|sorted| - 1];
      QmlEntriesMembers(init, relative, e);
      assert sorted == init + [sorted[|sorted| - 1]];
    }
  }

  /** The file a run configuration falls back to: non-empty, lower-case base name, QML. */
  predicate IsLowerCaseQmlFile(fileName: string, mimeTypeOf: string -> string) {
    var base := BaseName(fileName);
    fileName != "" && base != "" && IsLowerChar(base[0]) && mimeTypeOf(fileName) == QmlMimeType
  }

  /** The index of the first such file, or `|files|`. */
  function FirstLowerCaseQmlFile(files: seq<string>, mimeTypeOf: string -> string): (i: nat)
    ensures i <= |files|
  {
    if files == [] then 0
    else if IsLowerCaseQmlFile(files[0], mimeTypeOf) then 0
    else 1 + FirstLowerCaseQmlFile(files[1..], mimeTypeOf)
  }

  /**
   * The collaborators' answers: the file of the current editor (`None`
   * when there is no editor), the project's files, the MIME type of a file,
   * and the project directory's `absoluteFilePath`.
   */
  datatype Environment = Environment(
    currentEditorFile: Option<string>,
    projectFiles: seq<string>,
    mimeTypeOf: string -> string,
    absoluteFilePath: string -> string)

  /**
   * `changeCurrentFile` while the current file is used: the editor's file,
   * enabled when it is QML; with no editor, or a `.qmlproject` file open,
   * the first project file with a lower-case base name that is QML instead.
   * Gives the new current file and whether the configuration is enabled.
   */
  function CurrentFileChoice(env: Environment, current: string): (string, bool) {
    var name := if env.currentEditorFile.Some? then env.currentEditorFile.value else current;
    var enable := env.currentEditorFile.Some? && env.mimeTypeOf(name) == QmlMimeType;
    if env.currentEditorFile.None? || env.mimeTypeOf(name) == QmlProjectMimeType then
      var i := FirstLowerCaseQmlFile(env.projectFiles, env.mimeTypeOf);
      if i < |env.projectFiles| then (env.projectFiles[i], true) else (name, enable)
    else (name, enable)
  }

  /**
   * The choice enables the configuration exactly when the file it picks is
   * QML. An editor showing anything but a `.qmlproject` file is always
   * picked; otherwise a fallback project file is picked when there is one.
   */
  lemma CurrentFileChoiceProperties(env: Environment, current: string)
    ensures var (name, enable) := CurrentFileChoice(env, current);
      && (enable ==> env.mimeTypeOf(name) == QmlMimeType)
      && (env.currentEditorFile.Some? ==> (enable <==> env.mimeTypeOf(name) == QmlMimeType))
      && (env.currentEditorFile.Some? && env.mimeTypeOf(env.currentEditorFile.value) != QmlProjectMimeType ==>
            name == env.currentEditorFile.value)
      && (env.currentEditorFile.None? || env.mimeTypeOf(env.currentEditorFile.value) == QmlProjectMimeType ==>
            ((exists i :: 0 <= i < |env.projectFiles| && IsLowerCaseQmlFile(env.projectFiles[i], env.mimeTypeOf))
             <==> name in env.projectFiles && IsLowerCaseQmlFile(name, env.mimeTypeOf)))
      && (env.currentEditorFile.None? ==> (enable <==> name in env.projectFiles && IsLowerCaseQmlFile(name, env.mimeTypeOf)))
  {
    var files := env.projectFiles;
    var i := FirstLowerCaseQmlFile(files, env.mimeTypeOf);
    FirstLowerCaseQmlFileIsFirst(files, env.mimeTypeOf);
    if i < |files| {
      assert files[i] in files;
    } else {
      forall x | x in files ensures !IsLowerCaseQmlFile(x, env.mimeTypeOf) {
        var j :| 0 <= j < |files| && files[j] == x;
      }
    }
  }

  /** `setMainScript` stores the label of the current-file choice as its key. */
  function NormalizedScript(scriptFile: string): (r: string)
    ensures r != CurrentFileLabel
    ensures scriptFile != CurrentFileLabel ==> r == scriptFile
  {
    if scriptFile == CurrentFileLabel then CurrentFileKey else scriptFile
  }

  /** A stored script that means "the file in the current editor". */
  predicate UsesCurrentFile(scriptFile: string) {
    scriptFile == "" || scriptFile == CurrentFileKey
  }

  function LastEnabled(signals: seq<bool>): bool {
    if signals == [] then false else signals[|signals| - 1]
  }

  /** The settings state of a QML run configuration. */
  class QmlProjectRunConfiguration {
    var viewerCustomPath: string
    var viewerDefaultPath: string
    var viewerArgs: string
    var scriptFile: string
    var usingCurrentFile: bool
    var mainScriptFilename: string
    var currentFileFilename: string
    var isEnabled: bool
    var debugData: DebugData
    /** The values `isEnabledChanged` was emitted with, in order. */
    var enabledSignals: seq<bool>

    /**
     * The stored script is never the chooser's label, the current file is
     * used exactly when the script says so, and the flag is the last value
     * announced.
     */
    ghost predicate Valid()
      reads this
    {
      && scriptFile != CurrentFileLabel
      && (usingCurrentFile <==> UsesCurrentFile(scriptFile))
      && EnabledAnnounced()
    }

    /** The enabled flag is the last value `isEnabledChanged` announced. */
    ghost predicate EnabledAnnounced()
      reads this
    {
      isEnabled == LastEnabled(enabledSignals)
    }

    /**
     * A new configuration: uses the current file, is disabled, has the
     * default debug data. `defaultViewerPath` is the viewer found next to
     * the application, or empty when there is none.
     */
    constructor (defaultViewerPath: string)
      ensures Valid()
      ensures viewerCustomPath == "" && viewerArgs == "" && scriptFile == ""
      ensures viewerDefaultPath == defaultViewerPath
      ensures usingCurrentFile && !isEnabled && enabledSignals == []
      ensures mainScriptFilename == "" && currentFileFilename == ""
      ensures debugData == DefaultDebugData()
    {
      viewerCustomPath := "";
      viewerDefaultPath := defaultViewerPath;
      viewerArgs := "";
      scriptFile := "";
      usingCurrentFile := true;
      mainScriptFilename := "";
      currentFileFilename := "";
      isEnabled := false;
      debugData := DefaultDebugData();
      enabledSignals := [];
    }

    /**
     * The copy constructor: takes the viewer path, arguments and debug
     * data of `source`, then sets `source`'s script.
     */
    constructor Copy(source: QmlProjectRunConfiguration, defaultViewerPath: string, env: Environment)
      ensures Valid()
      ensures viewerCustomPath == source.viewerCustomPath && viewerArgs == source.viewerArgs
      ensures viewerDefaultPath == defaultViewerPath && debugData == source.debugData
      ensures scriptFile == NormalizedScript(source.scriptFile)
      ensures usingCurrentFile <==> UsesCurrentFile(NormalizedScript(source.scriptFile))
      ensures UsesCurrentFile(NormalizedScript(source.scriptFile)) ==>
        var choice := CurrentFileChoice(env, "");
        currentFileFilename == choice.0 && isEnabled == choice.1 && enabledSignals == [choice.1]
        && mainScriptFilename == ""
      ensures !UsesCurrentFile(NormalizedScript(source.scriptFile)) ==>
        mainScriptFilename == env.absoluteFilePath(source.scriptFile)
        && isEnabled && enabledSignals == [true] && currentFileFilename == ""
    {
      viewerCustomPath := source.viewerCustomPath;
      viewerDefaultPath := defaultViewerPath;
      viewerArgs := source.viewerArgs;
      scriptFile := "";
      mainScriptFilename := "";
      currentFileFilename := "";
      debugData := source.debugData;
      isEnabled := false;
      enabledSignals := [];
      new;
      SetMainScript(source.scriptFile, env);
    }

    /** `viewerPath`: the custom viewer when one is set, else the default one. */
    function ViewerPath(): (r: string)
      reads this
      ensures viewerCustomPath != "" ==> r == viewerCustomPath
      ensures viewerCustomPath == "" ==> r == viewerDefaultPath
    {
      if viewerCustomPath != "" then viewerCustomPath else viewerDefaultPath
    }

    /** `mainScript`: the current file when it is used, else the chosen main file. */
    function MainScript(): (r: string)
      reads this
      ensures usingCurrentFile ==> r == currentFileFilename
      ensures !usingCurrentFile ==> r == mainScriptFilename
    {
      if usingCurrentFile then currentFileFilename else mainScriptFilename
    }

    /** `isEnabled`: the value the last `setEnabled` stored. */
    function IsEnabled(): (b: bool)
      reads this
      requires Valid()
      ensures b == LastEnabled(enabledSignals)
    {
      isEnabled
    }

    /** `setEnabled`: stores the flag and announces it. */
    method SetEnabled(value: bool)
      requires Valid()
      modifies this
      ensures Valid()
      ensures isEnabled == value && enabledSignals == old(enabledSignals) + [value]
      ensures LastEnabled(enabledSignals) == value
      ensures viewerCustomPath == old(viewerCustomPath) && viewerDefaultPath == old(viewerDefaultPath)
      ensures viewerArgs == old(viewerArgs) && scriptFile == old(scriptFile)
      ensures usingCurrentFile == old(usingCurrentFile) && mainScriptFilename == old(mainScriptFilename)
      ensures currentFileFilename == old(currentFileFilename) && debugData == old(debugData)
    {
      isEnabled := value;
      enabledSignals := enabledSignals + [value];
    }

    /** The search loop of `changeCurrentFile` over the project's files. */
    static method FindLowerCaseQmlFile(files: seq<string>, mimeTypeOf: string -> string) returns (found: Option<string>)
      ensures found.Some? <==> exists i :: 0 <= i < |files| && IsLowerCaseQmlFile(files[i], mimeTypeOf)
      ensures found.Some? ==>
        FirstLowerCaseQmlFile(files, mimeTypeOf) < |files| && found.value == files[FirstLowerCaseQmlFile(files, mimeTypeOf)]
    {
      FirstLowerCaseQmlFileIsFirst(files, mimeTypeOf);
      var i := 0;
      while i < |files|
        invariant 0 <= i <= |files|
        invariant forall j :: 0 <= j < i ==> !IsLowerCaseQmlFile(files[j], mimeTypeOf)
      {
        if IsLowerCaseQmlFile(files[i], mimeTypeOf) {
          return Some(files[i]);
        }
        i := i + 1;
      }
      return None;
    }

    /**
     * `changeCurrentFile`: when the current file is used, picks it as
     * `CurrentFileChoice` says and announces whether the configuration is
     * enabled; otherwise nothing changes.
     */
    method ChangeCurrentFile(env: Environment)
      requires Valid()
      modifies this
      ensures Valid()
      ensures !old(usingCurrentFile) ==> unchanged(this)
      ensures old(usingCurrentFile) ==>
        var choice := CurrentFileChoice(env, old(currentFileFilename));
        currentFileFilename == choice.0 && isEnabled == choice.1 && enabledSignals == old(enabledSignals) + [choice.1]
      ensures viewerCustomPath == old(viewerCustomPath) && viewerDefaultPath == old(viewerDefaultPath)
      ensures viewerArgs == old(viewerArgs) && scriptFile == old(scriptFile)
      ensures usingCurrentFile == old(usingCurrentFile) && mainScriptFilename == old(mainScriptFilename)
      ensures debugData == old(debugData)
    {
      if usingCurrentFile {
        FirstLowerCaseQmlFileIsFirst(env.projectFiles, env.mimeTypeOf);
        var enable := false;
        if env.currentEditorFile.Some? {
          currentFileFilename := env.currentEditorFile.value;
          if env.mimeTypeOf(MainScript()) == QmlMimeType {
            enable := true;
          }
        }
        if env.currentEditorFile.None? || env.mimeTypeOf(MainScript()) == QmlProjectMimeType {
          var found := FindLowerCaseQmlFile(env.projectFiles, env.mimeTypeOf);
          if found.Some? {
            currentFileFilename := found.value;
            enable := true;
          }
        }
        SetEnabled(enable);
      }
    }

    /**
     * `setMainScript`: stores the script (the chooser's label as the
     * current-file key). The current-file choice switches to the current
     * file; any other script becomes the main file, resolved against the
     * project directory, and enables the configuration.
     */
    method SetMainScript(script: string, env: Environment)
      requires EnabledAnnounced()
      modifies this
      ensures Valid()
      ensures scriptFile == NormalizedScript(script)
      ensures usingCurrentFile <==> UsesCurrentFile(NormalizedScript(script))
      ensures UsesCurrentFile(NormalizedScript(script)) ==>
        var choice := CurrentFileChoice(env, old(currentFileFilename));
        currentFileFilename == choice.0 && isEnabled == choice.1 && enabledSignals == old(enabledSignals) + [choice.1]
        && mainScriptFilename == old(mainScriptFilename)
      ensures !UsesCurrentFile(NormalizedScript(script)) ==>
        mainScriptFilename == env.absoluteFilePath(script) && MainScript() == env.absoluteFilePath(script)
        && isEnabled && enabledSignals == old(enabledSignals) + [true]
        && currentFileFilename == old(currentFileFilename)
      ensures viewerCustomPath == old(viewerCustomPath) && viewerDefaultPath == old(viewerDefaultPath)
      ensures viewerArgs == old(viewerArgs) && debugData == old(debugData)
    {
      scriptFile := script;
      if scriptFile == CurrentFileLabel {
        scriptFile := CurrentFileKey;
      }
      if scriptFile == "" || scriptFile == CurrentFileKey {
        usingCurrentFile := true;
        ChangeCurrentFile(env);
      } else {
        usingCurrentFile := false;
        mainScriptFilename := env.absoluteFilePath(script);
        SetEnabled(true);
      }
    }

    /** `viewerArguments`, for the project's import paths. */
    method ViewerArguments(importPaths: seq<string>) returns (args: seq<string>)
      ensures args == ViewerArgumentList(viewerArgs, importPaths, MainScript())
    {
      args := [];
      if viewerArgs != "" {
        args := args + Split(viewerArgs, ' ');
      }
      var i := 0;
      while i < |importPaths|
        invariant 0 <= i <= |importPaths|
        invariant args == UserArguments(viewerArgs) + ImportArguments(importPaths[..i])
      {
        assert importPaths[..i + 1][..i] == importPaths[..i];
        args := args + ["-I"];
        args := args + [importPaths[i]];
        i := i + 1;
      }
      assert importPaths[..i] == importPaths;
      var s := MainScript();
      if s != "" {
        args := args + [s];
      }
    }

    /** The settings this configuration writes. */
    function CurrentSettings(): Settings
      reads this
    {
      Settings(viewerCustomPath, viewerArgs, scriptFile, debugData.serverPort, debugData.serverAddress)
    }

    /**
     * `toMap`, on top of the base configuration's map: reading the result
     * back gives this configuration's settings, and the base's own entries
     * are kept.
     */
    function ToMap(base: map<SettingKey, Variant>): (m: map<SettingKey, Variant>)
      reads this
      ensures SettingsOf(m) == CurrentSettings()
      ensures forall k :: k in base && k.OtherKey? ==> k in m && m[k] == base[k]
      ensures forall k :: k in m && k.OtherKey? ==> k in base
    {
      SettingsRoundTrip(base, CurrentSettings());
      SettingsMap(base, CurrentSettings())
    }

    /**
     * `fromMap`: reads the five settings, defaults for the missing ones,
     * then sets the script read. The base configuration's part is not
     * modelled.
     */
    method FromMap(m: map<SettingKey, Variant>, env: Environment)
      requires Valid()
      modifies this
      ensures Valid()
      ensures var s := SettingsOf(m);
        viewerCustomPath == s.viewerPath && viewerArgs == s.viewerArguments
        && debugData == DebugData(s.debugServerAddress, s.debugServerPort)
        && scriptFile == NormalizedScript(s.mainScript)
      ensures usingCurrentFile <==> UsesCurrentFile(NormalizedScript(SettingsOf(m).mainScript))
      ensures UsesCurrentFile(NormalizedScript(SettingsOf(m).mainScript)) ==>
        var choice := CurrentFileChoice(env, old(currentFileFilename));
        currentFileFilename == choice.0 && isEnabled == choice.1 && enabledSignals == old(enabledSignals) + [choice.1]
        && mainScriptFilename == old(mainScriptFilename)
      ensures !UsesCurrentFile(NormalizedScript(SettingsOf(m).mainScript)) ==>
        mainScriptFilename == env.absoluteFilePath(SettingsOf(m).mainScript)
        && MainScript() == env.absoluteFilePath(SettingsOf(m).mainScript)
        && isEnabled && enabledSignals == old(enabledSignals) + [true]
        && currentFileFilename == old(currentFileFilename)
      ensures viewerDefaultPath == old(viewerDefaultPath)
    {
      viewerCustomPath := StringSetting(m, ViewerKey, "");
      viewerArgs := StringSetting(m, ViewerArgumentsKey, "");
      scriptFile := StringSetting(m, MainScriptKey, CurrentFileKey);
      var port := if DebugServerPortKey in m then VariantToUInt(m[DebugServerPortKey]) else DefaultDebugServerPort;
      debugData := debugData.(serverPort := port);
      var address := StringSetting(m, DebugServerAddressKey, "127.0.0.1");
      debugData := debugData.(serverAddress := address);
      SetMainScript(scriptFile, env);
    }

    /**
     * The list and index `updateFileComboBox` shows: the current-file label,
     * then the project's `.qml` files in case-insensitive stable order,
     * relative to the project directory; the index of the last entry equal
     * to the stored script, or 0.
     */
    method FileComboEntries(projectFiles: seq<string>, relative: string -> string)
      returns (entries: seq<string>, index: nat)
      requires Valid()
      ensures entries == [CurrentFileLabel] + QmlEntries(StableSort(projectFiles), relative)
      ensures index < |entries|
      ensures index > 0 ==> entries[index] == scriptFile
      ensures forall k :: index < k < |entries| ==> entries[k] != scriptFile
      ensures index == 0 <==> scriptFile !in entries
    {
      var sorted := StableSort(projectFiles);
      var currentIndex;
      entries, currentIndex := ListQmlFiles(sorted, relative, scriptFile);
      index := if currentIndex != -1 then currentIndex else 0;
      if index == 0 {
        forall k | 0 <= k < |entries| ensures entries[k] != scriptFile {
          if k == 0 { assert entries[0] == CurrentFileLabel; }
        }
      }
    }

    /** The loop of `updateFileComboBox`: the entries, and the last one equal to `script` (or -1). */
    static method ListQmlFiles(sorted: seq<string>, relative: string -> string, script: string)
      returns (entries: seq<string>, currentIndex: int)
      ensures |entries| >= 1 && entries[0] == CurrentFileLabel
      ensures entries[1..] == QmlEntries(sorted, relative)
      ensures -1 <= currentIndex < |entries| && currentIndex != 0
      ensures currentIndex > 0 ==> entries[currentIndex] == script
      ensures forall k :: currentIndex < k < |entries| && 0 < k ==> entries[k] != script
    {
      entries := [CurrentFileLabel];
      currentIndex := -1;
      ghost var listed: seq<string> := [];
      var i := 0;
      while i < |sorted|
        invariant 0 <= i <= |sorted|
        invariant entries == [CurrentFileLabel] + listed
        invariant listed == QmlEntries(sorted[..i], relative)
        invariant -1 <= currentIndex < |entries|
        invariant currentIndex != 0
        invariant currentIndex > 0 ==> entries[currentIndex] == script
        invariant forall k :: currentIndex < k < |entries| && 0 < k ==> entries[k] != script
      {
        var fn := sorted[i];
        QmlEntriesSnoc(sorted, i, relative);
        if IsQml(fn) {
          var fileName := relative(fn);
          if fileName == script {
            currentIndex := |entries|;
          }
          entries := entries + [fileName];
          listed := listed + [fileName];
        } else {
          assert listed + [] == listed;
        }
        i := i + 1;
      }
      assert sorted[..i] == sorted;
    }
  }

  /** The search stops at the first lower-case QML file, and finds one when there is one. */
  lemma {:induction false} FirstLowerCaseQmlFileIsFirst(files: seq<string>, mimeTypeOf: string -> string)
    ensures var i := FirstLowerCaseQmlFile(files, mimeTypeOf);
      && (i < |files| ==> IsLowerCaseQmlFile(files[i], mimeTypeOf))
      && (forall j :: 0 <= j < i ==> !IsLowerCaseQmlFile(files[j], mimeTypeOf))
      && (i == |files| <==> forall j :: 0 <= j < |files| ==> !IsLowerCaseQmlFile(files[j], mimeTypeOf))
  {
    if files != [] && !IsLowerCaseQmlFile(files[0], mimeTypeOf) {
      FirstLowerCaseQmlFileIsFirst(files[1..], mimeTypeOf);
      var i := FirstLowerCaseQmlFile(files, mimeTypeOf);
      assert i == 1 + FirstLowerCaseQmlFile(files[1..], mimeTypeOf);
      forall j | 0 < j < |files| ensures files[j] == files[1..][j - 1] {}
    }
  }
}
