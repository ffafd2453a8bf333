/**
 * The args-file writer of `internal/PrepareRunForIde.java`: for one run type of
 * the parsed userdev configuration it assembles, line by line, the JVM
 * arguments, system properties, main class and program arguments that an IDE
 * or the run task passes to the game as `@<args file>`.
 */
module PrepareRunForIde {
  import opened Wrappers
  import opened Text
  import opened RunUtils

  /** One run type of the userdev configuration, with its properties in the
      order the parsed map enumerates them. */
  datatype UserDevRunType = UserDevRunType(
    main: string,
    jvmArgs: seq<string>,
    props: seq<(string, string)>,
    args: seq<string>)

  datatype UserDevConfig = UserDevConfig(runs: map<string, UserDevRunType>)

  /** What the task reads: its input properties, already resolved to values.
      Files are given by their absolute paths; `assetPropertiesFile` holds the
      pairs read from the asset properties file, or `None` when reading failed;
      `runType` is `None` when the run never set a type. */
  datatype TaskInputs = TaskInputs(
    runType: Option<string>,
    userDevConfig: UserDevConfig,
    modules: seq<string>,
    pathSeparator: string,
    legacyClasspathFile: string,
    log4j2Xml: string,
    assetPropertiesFile: Option<map<string, string>>,
    systemProperties: seq<(string, string)>,
    jvmArguments: seq<string>,
    programArguments: seq<string>)

  datatype PrepareError =
    | MissingRunType      // the task's run-type property holds no value
    | UnknownRun(requested: string, available: set<string>)
    | AssetPropertiesFailure(cause: AssetPropertiesError)

  /** A JVM argument after substitution: exactly `{modules}` becomes the module path. */
  function InterpolateJvmArg(arg: string, modulePath: string): string {
    if arg == "{modules}" then modulePath else arg
  }

  /** A property value after substitution: exactly `{minecraft_classpath_file}`
      becomes the legacy classpath file. */
  function InterpolatePropValue(value: string, legacyClasspathFile: string): string {
    if value == "{minecraft_classpath_file}" then legacyClasspathFile else value
  }

  /** A program argument after substitution from the asset properties. */
  function InterpolateProgramArg(arg: string, assets: AssetProperties): string {
    if arg == "{assets_root}" then assets.assetsRoot
    else if arg == "{asset_index}" then assets.assetIndex
    else arg
  }

  /** The line of one system property: `"-D<name>=<escaped value>"`; the name is
      not escaped. */
  function SystemPropLine(name: string, value: string): (r: string)
    ensures |r| == |name| + |Escape(value)| + 5 && r[|r| - 1] == '"'
  {
    "\"-D" + name + "=" + Escape(value) + "\""
  }

  /** The line pointing log4j at its configuration file: the property line for
      `log4j2.configurationFile`, whose value part reads back as the file's path. */
  function Log4jLine(log4j2Xml: string): (r: string)
    ensures |r| >= 29 && r[|r| - 1] == '"'
    ensures Unescape(r[28..|r| - 1]) == log4j2Xml
  {
    SystemPropLineReadBack("log4j2.configurationFile", log4j2Xml);
    SystemPropLine("log4j2.configurationFile", log4j2Xml)
  }

  function JvmArgLines(jvmArgs: seq<string>, modulePath: string): seq<string> {
    seq(|jvmArgs|, i requires 0 <= i < |jvmArgs| => Quote(InterpolateJvmArg(jvmArgs[i], modulePath)))
  }

  function UserJvmBlock(userJvmArgs: seq<string>): seq<string> {
    if userJvmArgs == [] then [] else ["", "# User JVM Arguments"] + userJvmArgs + [""]
  }

  function RunTypePropLines(props: seq<(string, string)>, legacyClasspathFile: string): seq<string> {
    seq(|props|, i requires 0 <= i < |props| =>
      SystemPropLine(props[i].0, InterpolatePropValue(props[i].1, legacyClasspathFile)))
  }

  function UserPropLines(props: seq<(string, string)>): seq<string> {
    seq(|props|, i requires 0 <= i < |props| => SystemPropLine(props[i].0, props[i].1))
  }

  function MainClassBlock(main: string): seq<string> {
    ["", "# Main Class", main, "", "# NeoForge Run-Type Program Arguments"]
  }

  function ProgramArgLines(args: seq<string>, assets: AssetProperties): seq<string> {
    seq(|args|, i requires 0 <= i < |args| => Quote(InterpolateProgramArg(args[i], assets)))
  }

  function UserProgramBlock(userArgs: seq<string>): seq<string> {
    ["# User Supplied Program Arguments"] + userArgs
  }

  /** The JVM section: the run type's JVM arguments, the user's JVM block and
      the log4j line. */
  function JvmPart(runConfig: UserDevRunType, inputs: TaskInputs): seq<string> {
    JvmArgLines(runConfig.jvmArgs, Join(inputs.modules, inputs.pathSeparator))
      + UserJvmBlock(inputs.jvmArguments)
      + [Log4jLine(inputs.log4j2Xml)]
  }

  /** The property section: the run type's properties, then the user's. */
  function PropertyPart(runConfig: UserDevRunType, inputs: TaskInputs): seq<string> {
    RunTypePropLines(runConfig.props, inputs.legacyClasspathFile) + UserPropLines(inputs.systemProperties)
  }

  /** The program section: the main class, the run type's program arguments and
      the user's program arguments. */
  function ProgramPart(runConfig: UserDevRunType, inputs: TaskInputs, assets: AssetProperties): seq<string> {
    MainClassBlock(runConfig.main) + ProgramArgLines(runConfig.args, assets) + UserProgramBlock(inputs.programArguments)
  }

  /** The content of the args file for a run type that was found and asset
      properties that loaded. */
  function ArgsFileLines(runConfig: UserDevRunType, inputs: TaskInputs, assets: AssetProperties): (r: seq<string>)
    ensures |r| == UserArgsHeaderIndex(runConfig, inputs) + 1 + |inputs.programArguments|
    ensures r[UserArgsHeaderIndex(runConfig, inputs)] == "# User Supplied Program Arguments"
  {
    JvmPart(runConfig, inputs) + PropertyPart(runConfig, inputs) + ProgramPart(runConfig, inputs, assets)
  }

  /** `getInterpolatedJvmArgs`: one quoted line per JVM argument of the run type,
      in order, with exactly `{modules}` replaced by the module paths joined by
      the path separator. */
  method GetInterpolatedJvmArgs(jvmArgs: seq<string>, modules: seq<string>, pathSeparator: string) returns (result: seq<string>)
    ensures |result| == |jvmArgs|
    ensures forall i :: 0 <= i < |jvmArgs| ==>
      result[i] == Quote(if jvmArgs[i] == "{modules}" then Join(modules, pathSeparator) else jvmArgs[i])
  {
    result := [];
    for i := 0 to |jvmArgs|
      invariant |result| == i
      invariant forall k :: 0 <= k < i ==>
        result[k] == Quote(if jvmArgs[k] == "{modules}" then Join(modules, pathSeparator) else jvmArgs[k])
    {
      var arg := jvmArgs[i];
      if arg == "{modules}" {
        arg := Join(modules, pathSeparator);
      }
      result := result + ["\"" + Escape(arg) + "\""];
    }
  }

  /** `addSystemProp`: appends the line of one system property. */
  method AddSystemProp(name: string, value: string, lines: seq<string>) returns (result: seq<string>)
    ensures |result| == |lines| + 1 && result[..|lines|] == lines
    ensures result[|lines|] == SystemPropLine(name, value)
  {
    result := lines + ["\"-D" + name + "=" + Escape(value) + "\""];
  }

  /** The loop of `prepareRun` over the run type's properties: one line per
      property, in order, with its value substituted. */
  method AddRunTypeProps(props: seq<(string, string)>, legacyClasspathFile: string, lines: seq<string>) returns (result: seq<string>)
    ensures result == lines + RunTypePropLines(props, legacyClasspathFile)
  {
    result := lines;
    for i := 0 to |props|
      invariant |result| == |lines| + i && result[..|lines|] == lines
      invariant forall k :: 0 <= k < i ==>
        result[|lines| + k] == SystemPropLine(props[k].0, InterpolatePropValue(props[k].1, legacyClasspathFile))
    {
      var propValue := props[i].1;
      if propValue == "{minecraft_classpath_file}" {
        propValue := legacyClasspathFile;
      }
      result := AddSystemProp(props[i].0, propValue, result);
    }
    assert result == lines + RunTypePropLines(props, legacyClasspathFile);
  }

  /** The loop of `prepareRun` over the user's system properties: one line per
      property, in order, without substitution. */
  method AddUserProps(props: seq<(string, string)>, lines: seq<string>) returns (result: seq<string>)
    ensures result == lines + UserPropLines(props)
  {
    result := lines;
    for i := 0 to |props|
      invariant |result| == |lines| + i && result[..|lines|] == lines
      invariant forall k :: 0 <= k < i ==> result[|lines| + k] == SystemPropLine(props[k].0, props[k].1)
    {
      result := AddSystemProp(props[i].0, props[i].1, result);
    }
    assert result == lines + UserPropLines(props);
  }

  /** The loop of `prepareRun` over the run type's program arguments: one quoted
      line per argument, in order, with the asset placeholders substituted. */
  method AddProgramArgs(args: seq<string>, assetProperties: AssetProperties, lines: seq<string>) returns (result: seq<string>)
    ensures result == lines + ProgramArgLines(args, assetProperties)
  {
    result := lines;
    for i := 0 to |args|
      invariant |result| == |lines| + i && result[..|lines|] == lines
      invariant forall k :: 0 <= k < i ==> result[|lines| + k] == Quote(InterpolateProgramArg(args[k], assetProperties))
    {
      var arg := args[i];
      if arg == "{assets_root}" {
        arg := assetProperties.assetsRoot;
      } else if arg == "{asset_index}" {
        arg := assetProperties.assetIndex;
      }
      result := result + ["\"" + Escape(arg) + "\""];
    }
    assert result == lines + ProgramArgLines(args, assetProperties);
  }

  /** `prepareRun`: the args file written for the task's inputs, or the failure
      that stops the task before anything is written. */
  method PrepareRun(inputs: TaskInputs) returns (r: Result<seq<string>, PrepareError>)
    ensures inputs.runType.None? ==> r == Err(MissingRunType)
    ensures var runs := inputs.userDevConfig.runs;
      inputs.runType.Some? && inputs.runType.value !in runs ==> r == Err(UnknownRun(inputs.runType.value, runs.Keys))
    ensures var runs := inputs.userDevConfig.runs;
      inputs.runType.Some? && inputs.runType.value in runs ==>
        match LoadAssetProperties(inputs.assetPropertiesFile)
        case Err(e) => r == Err(AssetPropertiesFailure(e))
        case Ok(assets) => r == Ok(ArgsFileLines(runs[inputs.runType.value], inputs, assets))
  {
    var runs := inputs.userDevConfig.runs;
    if inputs.runType.None? {
      return Err(MissingRunType);
    }
    var runType := inputs.runType.value;
    if runType !in runs {
      return Err(UnknownRun(runType, runs.Keys));
    }
    var runConfig := runs[runType];

    var lines: seq<string> := [];
    var jvmLines := GetInterpolatedJvmArgs(runConfig.jvmArgs, inputs.modules, inputs.pathSeparator);
    assert jvmLines == JvmArgLines(runConfig.jvmArgs, Join(inputs.modules, inputs.pathSeparator));
    lines := lines + jvmLines;

    var userJvmArgs := inputs.jvmArguments;
    if userJvmArgs != [] {
      lines := lines + [""];
      lines := lines + ["# User JVM Arguments"];
      lines := lines + userJvmArgs;
      lines := lines + [""];
      assert lines == jvmLines + (["", "# User JVM Arguments"] + userJvmArgs + [""]);
    }
    assert lines == jvmLines + UserJvmBlock(userJvmArgs);

    lines := lines + [Log4jLine(inputs.log4j2Xml)];
    ghost var jvmPart := lines;
    assert jvmPart == JvmPart(runConfig, inputs);

    lines := AddRunTypeProps(runConfig.props, inputs.legacyClasspathFile, lines);
    lines := AddUserProps(inputs.systemProperties, lines);
    ghost var propPart := lines;
    AppendAssoc(jvmPart, RunTypePropLines(runConfig.props, inputs.legacyClasspathFile), UserPropLines(inputs.systemProperties));
    assert propPart == jvmPart + PropertyPart(runConfig, inputs);

    lines := lines + [""];
    lines := lines + ["# Main Class"];
    lines := lines + [runConfig.main];

    lines := lines + [""];
    lines := lines + ["# NeoForge Run-Type Program Arguments"];
    assert lines == propPart + MainClassBlock(runConfig.main);
    var loaded := LoadAssetProperties(inputs.assetPropertiesFile);
    if loaded.Err? {
      return Err(AssetPropertiesFailure(loaded.error));
    }
    var assetProperties := loaded.value;
    lines := AddProgramArgs(runConfig.args, assetProperties, lines);
    ghost var argPart := lines;
    AppendAssoc(propPart, MainClassBlock(runConfig.main), ProgramArgLines(runConfig.args, assetProperties));

    lines := lines + ["# User Supplied Program Arguments"];
    lines := lines + inputs.programArguments;
    assert lines == argPart + UserProgramBlock(inputs.programArguments);
    AppendAssoc(propPart, MainClassBlock(runConfig.main) + ProgramArgLines(runConfig.args, assetProperties),
      UserProgramBlock(inputs.programArguments));
    assert lines == propPart + ProgramPart(runConfig, inputs, assetProperties);

    r := Ok(lines);
  }

  /** The positions of the sections of the args file. */
  function JvmEnd(runConfig: UserDevRunType): nat {
    |runConfig.jvmArgs|
  }

  function Log4jIndex(runConfig: UserDevRunType, inputs: TaskInputs): nat {
    JvmEnd(runConfig) + |UserJvmBlock(inputs.jvmArguments)|
  }

  function MainClassIndex(runConfig: UserDevRunType, inputs: TaskInputs): nat {
    Log4jIndex(runConfig, inputs) + 1 + |runConfig.props| + |inputs.systemProperties|
  }

  function UserArgsHeaderIndex(runConfig: UserDevRunType, inputs: TaskInputs): nat {
    MainClassIndex(runConfig, inputs) + 5 + |runConfig.args|
  }

  /** The first lines are the run type's JVM arguments, one quoted line each, in
      order; then comes the user JVM block, present exactly when the user gave
      JVM arguments, and then the log4j line. */
  lemma JvmSection(runConfig: UserDevRunType, inputs: TaskInputs, assets: AssetProperties)
    ensures var lines := ArgsFileLines(runConfig, inputs, assets);
      var j, l := JvmEnd(runConfig), Log4jIndex(runConfig, inputs);
      var user := inputs.jvmArguments;
      && l < |lines|
      && (forall i :: 0 <= i < j ==> lines[i] == Quote(InterpolateJvmArg(runConfig.jvmArgs[i], Join(inputs.modules, inputs.pathSeparator))))
      && (user == [] <==> l == j)
      && (user != [] ==>
            && lines[j] == "" && lines[j + 1] == "# User JVM Arguments"
            && (forall k :: 0 <= k < |user| ==> lines[j + 2 + k] == user[k])
            && lines[l - 1] == "" && l == j + |user| + 3)
      && lines[l] == Log4jLine(inputs.log4j2Xml)
  {
  }

  /** After the log4j line come the run type's properties, each with its value
      substituted, and then the user's properties, one line each, in order. */
  lemma PropertySection(runConfig: UserDevRunType, inputs: TaskInputs, assets: AssetProperties)
    ensures var lines := ArgsFileLines(runConfig, inputs, assets);
      var l, m := Log4jIndex(runConfig, inputs), MainClassIndex(runConfig, inputs);
      var props, userProps := runConfig.props, inputs.systemProperties;
      && m <= |lines|
      && (forall k :: 0 <= k < |props| ==>
            lines[l + 1 + k] == SystemPropLine(props[k].0, InterpolatePropValue(props[k].1, inputs.legacyClasspathFile)))
      && (forall k :: 0 <= k < |userProps| ==>
            lines[l + 1 + |props| + k] == SystemPropLine(userProps[k].0, userProps[k].1))
  {
  }

  /** Then the main-class block, the run type's program arguments (quoted, with
      the asset placeholders substituted) and, last, the user's program
      arguments under their own header, verbatim. */
  lemma ProgramSection(runConfig: UserDevRunType, inputs: TaskInputs, assets: AssetProperties)
    ensures var lines := ArgsFileLines(runConfig, inputs, assets);
      var m, a := MainClassIndex(runConfig, inputs), UserArgsHeaderIndex(runConfig, inputs);
      var user := inputs.programArguments;
      && |lines| == a + 1 + |user|
      && lines[m] == "" && lines[m + 1] == "# Main Class" && lines[m + 2] == runConfig.main
      && lines[m + 3] == "" && lines[m + 4] == "# NeoForge Run-Type Program Arguments"
      && (forall k :: 0 <= k < |runConfig.args| ==> lines[m + 5 + k] == Quote(InterpolateProgramArg(runConfig.args[k], assets)))
      && lines[a] == "# User Supplied Program Arguments"
      && (forall k :: 0 <= k < |user| ==> lines[a + 1 + k] == user[k])
  {
  }

  /** Reading a JVM-argument line back gives the argument after substitution:
      the module path when the argument is exactly `{modules}`, the argument
      itself otherwise (so `-Xmx{modules}` stays as it is); the placeholder
      itself survives only if the module path happens to equal it. */
  lemma JvmArgsReadBack(runConfig: UserDevRunType, inputs: TaskInputs, assets: AssetProperties)
    ensures var lines := ArgsFileLines(runConfig, inputs, assets);
      var modulePath := Join(inputs.modules, inputs.pathSeparator);
      forall i :: 0 <= i < |runConfig.jvmArgs| ==>
        && (runConfig.jvmArgs[i] == "{modules}" ==> Unquote(lines[i]) == modulePath)
        && (runConfig.jvmArgs[i] != "{modules}" ==> Unquote(lines[i]) == runConfig.jvmArgs[i])
        && (Unquote(lines[i]) == "{modules}" ==> modulePath == "{modules}")
  {
    JvmSection(runConfig, inputs, assets);
    var modulePath := Join(inputs.modules, inputs.pathSeparator);
    forall i | 0 <= i < |runConfig.jvmArgs| {
      UnquoteQuote(InterpolateJvmArg(runConfig.jvmArgs[i], modulePath));
    }
  }

  /** Reading a run-type program-argument line back gives the argument after
      substitution: the assets root for exactly `{assets_root}`, the asset index
      for exactly `{asset_index}`, the argument itself otherwise. */
  lemma ProgramArgsReadBack(runConfig: UserDevRunType, inputs: TaskInputs, assets: AssetProperties)
    ensures var lines := ArgsFileLines(runConfig, inputs, assets);
      var m := MainClassIndex(runConfig, inputs);
      forall k :: 0 <= k < |runConfig.args| ==>
        && (runConfig.args[k] == "{assets_root}" ==> Unquote(lines[m + 5 + k]) == assets.assetsRoot)
        && (runConfig.args[k] == "{asset_index}" ==> Unquote(lines[m + 5 + k]) == assets.assetIndex)
        && (runConfig.args[k] != "{assets_root}" && runConfig.args[k] != "{asset_index}" ==>
              Unquote(lines[m + 5 + k]) == runConfig.args[k])
  {
    ProgramSection(runConfig, inputs, assets);
    forall k | 0 <= k < |runConfig.args| {
      UnquoteQuote(InterpolateProgramArg(runConfig.args[k], assets));
    }
  }

  /** A property line holds the name verbatim and the value escaped, so the
      value is read back by halving the doubled backslashes. */
  lemma SystemPropLineReadBack(name: string, value: string)
    ensures var line := SystemPropLine(name, value);
      && |line| >= |name| + 5
      && line[..3] == "\"-D" && line[3..3 + |name|] == name && line[3 + |name|] == '='
      && line[|line| - 1] == '"'
      && Unescape(line[4 + |name|..|line| - 1]) == value
  {
    var line := SystemPropLine(name, value);
    assert line[4 + |name|..|line| - 1] == Escape(value);
    UnescapeEscape(value);
  }

  /** Every property line of a section written by `SystemPropLine` reads back
      as its name and its value. */
  lemma PropLinesReadBack(lines: seq<string>, start: nat, props: seq<(string, string)>)
    requires start + |props| <= |lines|
    requires forall k :: 0 <= k < |props| ==> lines[start + k] == SystemPropLine(props[k].0, props[k].1)
    ensures forall k :: 0 <= k < |props| ==>
      var line, name := lines[start + k], props[k].0;
      && |line| >= |name| + 5
      && line[3..3 + |name|] == name
      && Unescape(line[4 + |name|..|line| - 1]) == props[k].1
  {
    forall k | 0 <= k < |props|
      ensures var line, name := lines[start + k], props[k].0;
        && |line| >= |name| + 5
        && line[3..3 + |name|] == name
        && Unescape(line[4 + |name|..|line| - 1]) == props[k].1
    {
      SystemPropLineReadBack(props[k].0, props[k].1);
    }
  }

  /** Every run-type property line reads back as its name and its value after
      substitution: the legacy classpath file for exactly
      `{minecraft_classpath_file}`, the value itself otherwise. */
  lemma RunTypePropsReadBack(runConfig: UserDevRunType, inputs: TaskInputs, assets: AssetProperties)
    ensures var lines := ArgsFileLines(runConfig, inputs, assets);
      var l := Log4jIndex(runConfig, inputs);
      var props := runConfig.props;
      forall k :: 0 <= k < |props| ==>
        var line, name := lines[l + 1 + k], props[k].0;
        && |line| >= |name| + 5
        && line[3..3 + |name|] == name
        && (props[k].1 == "{minecraft_classpath_file}" ==> Unescape(line[4 + |name|..|line| - 1]) == inputs.legacyClasspathFile)
        && (props[k].1 != "{minecraft_classpath_file}" ==> Unescape(line[4 + |name|..|line| - 1]) == props[k].1)
  {
    var lines := ArgsFileLines(runConfig, inputs, assets);
    var props := runConfig.props;
    var substituted := seq(|props|, k requires 0 <= k < |props| =>
      (props[k].0, InterpolatePropValue(props[k].1, inputs.legacyClasspathFile)));
    var l := Log4jIndex(runConfig, inputs);
    PropertySection(runConfig, inputs, assets);
    forall k | 0 <= k < |substituted|
      ensures substituted[k] == (props[k].0, InterpolatePropValue(props[k].1, inputs.legacyClasspathFile))
      ensures lines[l + 1 + k] == SystemPropLine(substituted[k].0, substituted[k].1)
    {
    }
    PropLinesReadBack(lines, l + 1, substituted);
  }

  /** A run type used by the example below. */
  function ExampleRunType(): UserDevRunType {
    UserDevRunType("Boot", ["-Xmx{modules}"], [("key", "{minecraft_classpath_file}")], ["{assets_root}"])
  }

  function ExampleInputs(runType: Option<string>): TaskInputs {
    TaskInputs(
      runType,
      UserDevConfig(map["client" := ExampleRunType(), "server" := ExampleRunType()]),
      ["/a.jar", "/b.jar"], ";", "/tmp/lcp.txt", "/run/log4j2.xml",
      Some(map["assets_root" := "/game/assets", "asset_index" := "17"]),
      [], [], [])
  }

  /** Asking for a run type the configuration lacks names every available one. */
  method ExampleUnknownRun() returns (r: Result<seq<string>, PrepareError>)
    ensures r == Err(UnknownRun("data", {"client", "server"}))
  {
    var inputs := ExampleInputs(Some("data"));
    var runs := inputs.userDevConfig.runs;
    assert "data" != "client" && "data" != "server";
    assert runs.Keys == {"client", "server"};
    assert inputs.runType.Some? && inputs.runType.value == "data" && "data" !in runs;
    r := PrepareRun(inputs);
    assert r == Err(UnknownRun("data", runs.Keys));
  }
}
