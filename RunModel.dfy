/**
 * The declarative run definition of the build script (`dsl/RunModel.java`) and
 * the inputs it refers to: a mod and the source sets that make it up.
 */
module Dsl {
  import opened Wrappers
  import opened Text

  /** A compilation unit: its name, its class output directories and its resources directory. */
  datatype SourceSet = SourceSet(name: string, classesDirs: seq<string>, resourcesDir: string)

  /** A mod: its name, the files of its mod configuration, and its source sets in order. */
  datatype ModModel = ModModel(name: string, configurationFiles: seq<string>, modSourceSets: seq<SourceSet>)

  /** One run of the game: a mutable record whose setters the build script calls. */
  class RunModel {
    const name: string
    /** The run's name in upper camel case, computed by the constructor's caller. */
    const baseName: string
    var gameDirectory: string
    var mods: seq<ModModel>
    var systemProperties: map<string, string>
    var programArguments: seq<string>
    var runType: Option<string>

    /** The game directory defaults to `run` under the project directory and the
        mods to the extension's mods; no type is set. */
    constructor (name: string, baseName: string, projectDirectory: string, extensionMods: seq<ModModel>)
      ensures this.name == name && this.baseName == baseName
      ensures gameDirectory == Resolve(projectDirectory, "run")
      ensures mods == extensionMods
      ensures systemProperties == map[] && programArguments == [] && runType == None
    {
      this.name := name;
      this.baseName := baseName;
      gameDirectory := Resolve(projectDirectory, "run");
      mods := extensionMods;
      systemProperties := map[];
      programArguments := [];
      runType := None;
    }

    function GetName(): (r: string)
      ensures r == name
    {
      name
    }

    method SystemProperty(key: string, value: string)
      modifies this
      ensures systemProperties == old(systemProperties)[key := value]
      // Follows from the map update above; spelled out for callers: every other key keeps its value.
      ensures forall k :: k in old(systemProperties) && k != key ==> k in systemProperties && systemProperties[k] == old(systemProperties)[k]
      ensures programArguments == old(programArguments) && runType == old(runType)
      ensures gameDirectory == old(gameDirectory) && mods == old(mods)
    {
      systemProperties := systemProperties[key := value];
    }

    method ProgramArgument(arg: string)
      modifies this
      ensures programArguments == old(programArguments) + [arg]
      // Follows from the append above; spelled out for callers: the earlier arguments stay, in order.
      ensures programArguments[..|old(programArguments)|] == old(programArguments)
      ensures systemProperties == old(systemProperties) && runType == old(runType)
      ensures gameDirectory == old(gameDirectory) && mods == old(mods)
    {
      programArguments := programArguments + [arg];
    }

    method Client()
      modifies this
      ensures runType == Some("client")
      ensures systemProperties == old(systemProperties) && programArguments == old(programArguments)
      ensures gameDirectory == old(gameDirectory) && mods == old(mods)
    {
      runType := Some("client");
    }

    method Data()
      modifies this
      ensures runType == Some("data")
      ensures systemProperties == old(systemProperties) && programArguments == old(programArguments)
      ensures gameDirectory == old(gameDirectory) && mods == old(mods)
    {
      runType := Some("data");
    }

    method Server()
      modifies this
      ensures runType == Some("server")
      ensures systemProperties == old(systemProperties) && programArguments == old(programArguments)
      ensures gameDirectory == old(gameDirectory) && mods == old(mods)
    {
      runType := Some("server");
    }

    /** A derived name: `uncapitalize(prefix + baseName + capitalize(suffix))`,
        with a missing prefix or suffix read as the empty string. */
    function NameOf(prefix: Option<string>, suffix: Option<string>): (r: string)
      ensures var p, s := prefix.GetOr(""), suffix.GetOr("");
        && |r| == |p| + |baseName| + |s|
        && (p + baseName != [] ==> r == Uncapitalize(p + baseName) + Capitalize(s))
        && (p + baseName == [] ==> r == Uncapitalize(s))
    {
      var p, s := prefix.GetOr(""), suffix.GetOr("");
      var whole := p + baseName + Capitalize(s);
      if p + baseName != [] then
        assert whole == (p + baseName) + Capitalize(s);
        assert Uncapitalize(whole) == Uncapitalize(p + baseName) + Capitalize(s);
        Uncapitalize(whole)
      else
        assert whole == Capitalize(s);
        assert s != [] ==> ToLower(ToUpper(s[0])) == ToLower(s[0]);
        Uncapitalize(whole)
    }

    function ToString(): (r: string)
      ensures |r| == |name| + 5
      ensures r[..4] == "Run[" && r[4..|r| - 1] == GetName() && r[|r| - 1] == ']'
    {
      "Run[" + GetName() + "]"
    }
  }

  /** A short build script: the last of `client()`, `data()` and `server()` wins,
      and the other settings keep what was set before. */
  method LastTypeCallWins(projectDirectory: string) returns (t: Option<string>, args: seq<string>, props: map<string, string>)
    ensures t == Some("server")
    ensures args == ["--demo", "--width"]
    ensures props == map["a" := "2", "b" := "1"]
  {
    var run := new RunModel("client", "Client", projectDirectory, []);
    run.Client();
    run.ProgramArgument("--demo");
    run.SystemProperty("a", "1");
    run.Data();
    run.SystemProperty("b", "1");
    run.SystemProperty("a", "2");
    run.ProgramArgument("--width");
    run.Server();
    t, args, props := run.runType, run.programArguments, run.systemProperties;
  }
}
