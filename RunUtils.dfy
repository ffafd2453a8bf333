/**
 * The helpers of `internal/RunUtils.java`: the required run type, the checks
 * made on a loaded asset-properties file, the args-file location, and the
 * per-mod folder lists for a run launched by Gradle or by IntelliJ IDEA.
 */
module RunUtils {
  import opened Wrappers
  import opened Text
  import opened Dsl
  import opened ModDevPluginImpl

  /** The run's type when set; otherwise a failure that names the run. */
  function GetRequiredType(run: RunModel): (r: Result<string, string>)
    reads run
    ensures r.Ok? <==> run.runType.Some?
    ensures r.Ok? ==> r.value == run.runType.value
    ensures r.Err? ==> r.error == "The run '" + run.GetName() + "' did not specify a type property"
  {
    if run.runType.Some? then Ok(run.runType.value)
    else Err("The run '" + run.GetName() + "' did not specify a type property")
  }

  datatype AssetProperties = AssetProperties(assetIndex: string, assetsRoot: string)

  datatype AssetPropertiesError =
    | LoadFailed          // the file could not be read
    | MissingKey(key: string)

  /** `loadAssetProperties`, given the key/value pairs that were read from the
      file, or `None` when reading it failed. */
  function LoadAssetProperties(file: Option<map<string, string>>): (r: Result<AssetProperties, AssetPropertiesError>)
    ensures file.None? ==> r == Err(LoadFailed)
    ensures file.Some? ==> (r.Ok? <==> "assets_root" in file.value && "asset_index" in file.value)
    ensures file.Some? && "assets_root" !in file.value ==> r == Err(MissingKey("assets_root"))
    ensures file.Some? && "assets_root" in file.value && "asset_index" !in file.value ==> r == Err(MissingKey("asset_index"))
    ensures r.Ok? ==> r.value.assetIndex == file.value["asset_index"] && r.value.assetsRoot == file.value["assets_root"]
  {
    match file
    case None => Err(LoadFailed)
    case Some(properties) =>
      if "assets_root" !in properties then Err(MissingKey("assets_root"))
      else if "asset_index" !in properties then Err(MissingKey("asset_index"))
      else Ok(AssetProperties(properties["asset_index"], properties["assets_root"]))
  }

  /** The name of a source set's directory in IntelliJ's output layout. */
  function GetIdeaOutName(sourceSetName: string): (r: string)
    ensures sourceSetName == "main" ==> r == "production"
    ensures sourceSetName != "main" ==> r == sourceSetName
  {
    if sourceSetName == "main" then "production" else sourceSetName
  }

  /** The only two source sets that share an IntelliJ output directory are `main`
      and one named `production`. */
  lemma IdeaOutNameCollision(a: string, b: string)
    requires a != b && GetIdeaOutName(a) == GetIdeaOutName(b)
    ensures (a == "main" && b == "production") || (a == "production" && b == "main")
  {
  }

  lemma CapitalizedRunArgs()
    ensures Capitalize("runArgs") == "RunArgs"
  {
    assert ToUpper('r') == 'R';
    assert "runArgs"[1..] == "unArgs";
  }

  /** The args file of a run: `moddev/<nameOf("", "runArgs")>.txt` under the build directory. */
  function GetArgFile(buildDirectory: string, run: RunModel): (r: string)
    reads run
    ensures var middle := run.NameOf(Some(""), Some("runArgs"));
      r == Resolve(buildDirectory, "moddev/" + middle + ".txt")
    ensures run.baseName != [] ==>
      r == Resolve(buildDirectory, "moddev/" + Uncapitalize(run.baseName) + "RunArgs" + ".txt")
  {
    var middle := run.NameOf(Some(""), Some("runArgs"));
    assert run.baseName != [] ==> "moddev/" + middle + ".txt" == "moddev/" + Uncapitalize(run.baseName) + "RunArgs" + ".txt" by {
      if run.baseName != [] {
        assert "" + run.baseName == run.baseName;
        CapitalizedRunArgs();
        assert "moddev/" + (Uncapitalize(run.baseName) + "RunArgs") == "moddev/" + Uncapitalize(run.baseName) + "RunArgs";
      }
    }
    Resolve(buildDirectory, "moddev/" + middle + ".txt")
  }

  /** Where the folders of a mod's source sets are taken from: Gradle's own
      output directories, or IntelliJ's output directory. */
  datatype FolderLayout = GradleLayout | IdeaLayout(outDir: string)

  /** The folders one source set contributes: its classes directories and then
      its resources directory. */
  function SourceSetOutput(sourceSet: SourceSet, layout: FolderLayout): (r: seq<string>)
    ensures layout.GradleLayout? ==>
              |r| == |sourceSet.classesDirs| + 1
              && r[..|sourceSet.classesDirs|] == sourceSet.classesDirs
              && r[|r| - 1] == sourceSet.resourcesDir
    ensures layout.IdeaLayout? ==> |r| == 2
  {
    match layout
    case GradleLayout => sourceSet.classesDirs + [sourceSet.resourcesDir]
    case IdeaLayout(outDir) =>
      var sourceSetDir := Resolve(outDir, GetIdeaOutName(sourceSet.name));
      [Resolve(sourceSetDir, "classes"), Resolve(sourceSetDir, "resources")]
  }

  function SourceSetFolders(sourceSets: seq<SourceSet>, layout: FolderLayout): seq<string> {
    if sourceSets == [] then [] else SourceSetOutput(sourceSets[0], layout) + SourceSetFolders(sourceSets[1..], layout)
  }

  /** The folders of a mod: the files of its mod configuration first, then the
      outputs of its source sets in order. */
  function ModFolderContents(mod: ModModel, layout: FolderLayout): (r: seq<string>)
    ensures |r| >= |mod.configurationFiles| && r[..|mod.configurationFiles|] == mod.configurationFiles
    ensures mod.modSourceSets == [] ==> r == mod.configurationFiles
  {
    mod.configurationFiles + SourceSetFolders(mod.modSourceSets, layout)
  }

  lemma {:induction false} SourceSetFoldersAppend(a: seq<SourceSet>, b: seq<SourceSet>, layout: FolderLayout)
    ensures SourceSetFolders(a + b, layout) == SourceSetFolders(a, layout) + SourceSetFolders(b, layout)
  {
    if a == [] {
      assert a + b == b;
    } else {
      assert (a + b)[0] == a[0] && (a + b)[1..] == a[1..] + b;
      SourceSetFoldersAppend(a[1..], b, layout);
    }
  }

  /** Source-set order is kept: the outputs of source set k come after those of
      every earlier source set and before those of every later one. */
  lemma SourceSetFoldersInOrder(sourceSets: seq<SourceSet>, layout: FolderLayout, k: nat)
    requires k < |sourceSets|
    ensures SourceSetFolders(sourceSets, layout) ==
      SourceSetFolders(sourceSets[..k], layout) + SourceSetOutput(sourceSets[k], layout) + SourceSetFolders(sourceSets[k + 1..], layout)
  {
    var rest := [sourceSets[k]] + sourceSets[k + 1..];
    assert sourceSets == sourceSets[..k] + rest;
    SourceSetFoldersAppend(sourceSets[..k], rest, layout);
    assert rest[0] == sourceSets[k] && rest[1..] == sourceSets[k + 1..];
  }

  lemma SourceSetFoldersSnoc(sourceSets: seq<SourceSet>, layout: FolderLayout, k: nat)
    requires k < |sourceSets|
    ensures SourceSetFolders(sourceSets[..k + 1], layout) ==
      SourceSetFolders(sourceSets[..k], layout) + SourceSetOutput(sourceSets[k], layout)
  {
    assert sourceSets[..k + 1] == sourceSets[..k] + [sourceSets[k]];
    SourceSetFoldersAppend(sourceSets[..k], [sourceSets[k]], layout);
    assert SourceSetFolders([sourceSets[k]], layout) == SourceSetOutput(sourceSets[k], layout) + SourceSetFolders([], layout);
  }

  lemma AppendAssoc(a: seq<string>, b: seq<string>, c: seq<string>)
    ensures (a + b) + c == a + (b + c)
  {
  }

  /** In IntelliJ's layout every source set contributes exactly two folders,
      `<outDir>/<ideaOutName>/classes` and then `<outDir>/<ideaOutName>/resources`. */
  lemma {:induction false} IdeaFoldersAt(sourceSets: seq<SourceSet>, outDir: string, k: nat)
    requires k < |sourceSets|
    ensures var folders := SourceSetFolders(sourceSets, IdeaLayout(outDir));
      var dir := Resolve(outDir, GetIdeaOutName(sourceSets[k].name));
      && |folders| == 2 * |sourceSets|
      && folders[2 * k] == Resolve(dir, "classes")
      && folders[2 * k + 1] == Resolve(dir, "resources")
  {
    IdeaFoldersCount(sourceSets[1..], outDir);
    if k > 0 {
      IdeaFoldersAt(sourceSets[1..], outDir, k - 1);
    }
  }

  lemma {:induction false} IdeaFoldersCount(sourceSets: seq<SourceSet>, outDir: string)
    ensures |SourceSetFolders(sourceSets, IdeaLayout(outDir))| == 2 * |sourceSets|
  {
    if sourceSets != [] {
      IdeaFoldersCount(sourceSets[1..], outDir);
    }
  }

  /** The `ModFolder` of a mod in a run launched by Gradle. */
  method NewGradleModFolder(mod: ModModel) returns (modFolder: ModFolder)
    ensures fresh(modFolder)
    ensures modFolder.folders == ModFolderContents(mod, GradleLayout)
  {
    modFolder := new ModFolder();
    modFolder.From(mod.configurationFiles);
    var sourceSets := mod.modSourceSets;
    for i := 0 to |sourceSets|
      invariant modFolder.folders == mod.configurationFiles + SourceSetFolders(sourceSets[..i], GradleLayout)
    {
      var sourceSet := sourceSets[i];
      ghost var before := modFolder.folders;
      modFolder.From(sourceSet.classesDirs);
      modFolder.From([sourceSet.resourcesDir]);
      assert modFolder.folders == before + SourceSetOutput(sourceSet, GradleLayout);
      SourceSetFoldersSnoc(sourceSets, GradleLayout, i);
      AppendAssoc(mod.configurationFiles, SourceSetFolders(sourceSets[..i], GradleLayout), SourceSetOutput(sourceSet, GradleLayout));
    }
    assert sourceSets[..|sourceSets|] == sourceSets;
  }

  /** The `ModFolder` of a mod in a run launched by IntelliJ. */
  method NewIdeaModFolder(mod: ModModel, outDir: string) returns (modFolder: ModFolder)
    ensures fresh(modFolder)
    ensures modFolder.folders == ModFolderContents(mod, IdeaLayout(outDir))
  {
    modFolder := new ModFolder();
    modFolder.From(mod.configurationFiles);
    var sourceSets := mod.modSourceSets;
    for i := 0 to |sourceSets|
      invariant modFolder.folders == mod.configurationFiles + SourceSetFolders(sourceSets[..i], IdeaLayout(outDir))
    {
      var sourceSet := sourceSets[i];
      var sourceSetDir := Resolve(outDir, GetIdeaOutName(sourceSet.name));
      ghost var before := modFolder.folders;
      modFolder.From([Resolve(sourceSetDir, "classes")]);
      modFolder.From([Resolve(sourceSetDir, "resources")]);
      assert modFolder.folders == before + SourceSetOutput(sourceSet, IdeaLayout(outDir));
      SourceSetFoldersSnoc(sourceSets, IdeaLayout(outDir), i);
      AppendAssoc(mod.configurationFiles, SourceSetFolders(sourceSets[..i], IdeaLayout(outDir)), SourceSetOutput(sourceSet, IdeaLayout(outDir)));
    }
    assert sourceSets[..|sourceSets|] == sourceSets;
  }

  /** `Collectors.toMap` refuses a second mod with a name already used. */
  datatype ModFoldersError = DuplicateModName(name: string)

  function EntryNames(entries: seq<ModFolderEntry>): set<string> {
    set i | 0 <= i < |entries| :: entries[i].name
  }

  lemma EntryNamesSnoc(entries: seq<ModFolderEntry>, entry: ModFolderEntry)
    ensures EntryNames(entries + [entry]) == EntryNames(entries) + {entry.name}
  {
    assert forall j :: 0 <= j < |entries| ==> (entries + [entry])[j] == entries[j];
    assert (entries + [entry])[|entries|] == entry;
  }

  /** The mod-folder map of a run, in mod order. */
  function ModFolderSet(mods: seq<ModModel>, layout: FolderLayout): (r: Result<seq<ModFolderEntry>, ModFoldersError>)
    ensures mods == [] ==> r == Ok([])
    ensures r.Ok? ==> |r.value| == |mods|
  {
    if mods == [] then Ok([])
    else
      var last := mods[|mods| - 1];
      match ModFolderSet(mods[..|mods| - 1], layout)
      case Err(e) => Err(e)
      case Ok(entries) =>
        if last.name in EntryNames(entries) then Err(DuplicateModName(last.name))
        else Ok(entries + [ModFolderEntry(last.name, ModFolderContents(last, layout))])
  }

  ghost predicate DistinctNames(mods: seq<ModModel>) {
    forall i, j :: 0 <= i < j < |mods| ==> mods[i].name != mods[j].name
  }

  /** A map, when it exists, has one entry per mod, in mod order, holding that
      mod's folders, and the mod names are distinct. */
  lemma {:induction false} ModFolderSetOk(mods: seq<ModModel>, layout: FolderLayout)
    requires ModFolderSet(mods, layout).Ok?
    ensures DistinctNames(mods)
    ensures var entries := ModFolderSet(mods, layout).value;
      forall i :: 0 <= i < |mods| ==> entries[i] == ModFolderEntry(mods[i].name, ModFolderContents(mods[i], layout))
  {
    if mods != [] {
      var n := |mods| - 1;
      var init, last := mods[..n], mods[n];
      ModFolderSetOk(init, layout);
      var entries := ModFolderSet(init, layout).value;
      assert last.name !in EntryNames(entries);
      var result := entries + [ModFolderEntry(last.name, ModFolderContents(last, layout))];
      assert ModFolderSet(mods, layout).value == result;
      forall i | 0 <= i < n ensures mods[i].name != last.name {
        assert init[i] == mods[i] && entries[i].name == mods[i].name;
      }
      forall i | 0 <= i < |mods|
        ensures result[i] == ModFolderEntry(mods[i].name, ModFolderContents(mods[i], layout))
      {
        if i < n {
          assert result[i] == entries[i] && init[i] == mods[i];
        }
      }
      forall i, j | 0 <= i < j < |mods| ensures mods[i].name != mods[j].name {
        if j < n {
          assert init[i] == mods[i] && init[j] == mods[j];
        }
      }
    }
  }

  /** A failure names a mod name that occurs twice. */
  lemma {:induction false} ModFolderSetErr(mods: seq<ModModel>, layout: FolderLayout)
    requires ModFolderSet(mods, layout).Err?
    ensures exists i, j :: 0 <= i < j < |mods| && mods[i].name == mods[j].name == ModFolderSet(mods, layout).error.name
  {
    var n := |mods| - 1;
    var init, last := mods[..n], mods[n];
    match ModFolderSet(init, layout)
    case Err(e) => {
      ModFolderSetErr(init, layout);
      var i, j :| 0 <= i < j < |init| && init[i].name == init[j].name == e.name;
      assert mods[i] == init[i] && mods[j] == init[j];
    }
    case Ok(entries) => {
      ModFolderSetOk(init, layout);
      var i :| 0 <= i < |entries| && entries[i].name == last.name;
      assert mods[i] == init[i];
      assert mods[i].name == mods[n].name == ModFolderSet(mods, layout).error.name;
    }
  }

  /** The map exists exactly when the mod names are distinct; it then has one
      entry per mod, in mod order, holding that mod's folders; otherwise the
      failure names a mod name that occurs twice. */
  lemma ModFolderSetCorrect(mods: seq<ModModel>, layout: FolderLayout)
    ensures ModFolderSet(mods, layout).Ok? <==> DistinctNames(mods)
    ensures ModFolderSet(mods, layout).Ok? ==>
      var entries := ModFolderSet(mods, layout).value;
      && |entries| == |mods|
      && forall i :: 0 <= i < |mods| ==> entries[i] == ModFolderEntry(mods[i].name, ModFolderContents(mods[i], layout))
    ensures ModFolderSet(mods, layout).Err? ==>
      exists i, j :: 0 <= i < j < |mods| && mods[i].name == mods[j].name == ModFolderSet(mods, layout).error.name
  {
    if ModFolderSet(mods, layout).Ok? {
      ModFolderSetOk(mods, layout);
    } else {
      ModFolderSetErr(mods, layout);
    }
  }

  /** Once some prefix of the mods has no map, neither has the whole list. */
  lemma {:induction false} ModFolderSetErrorSticks(mods: seq<ModModel>, layout: FolderLayout, k: nat)
    requires k <= |mods| && ModFolderSet(mods[..k], layout).Err?
    ensures ModFolderSet(mods, layout) == ModFolderSet(mods[..k], layout)
    decreases |mods| - k
  {
    if k < |mods| {
      var n := |mods| - 1;
      assert mods[..n][..k] == mods[..k];
      ModFolderSetErrorSticks(mods[..n], layout, k);
    } else {
      assert mods[..k] == mods;
    }
  }

  /** Builds the mod-folder map with one `ModFolder` per mod. */
  method CollectModFolders(mods: seq<ModModel>, layout: FolderLayout) returns (r: Result<seq<ModFolderEntry>, ModFoldersError>)
    ensures r == ModFolderSet(mods, layout)
  {
    var entries: seq<ModFolderEntry> := [];
    var names: set<string> := {};
    for i := 0 to |mods|
      invariant ModFolderSet(mods[..i], layout) == Ok(entries)
      invariant names == EntryNames(entries)
    {
      var mod := mods[i];
      assert mods[..i + 1][..i] == mods[..i] && mods[..i + 1][i] == mod;
      var modFolder: ModFolder;
      match layout {
        case GradleLayout => modFolder := NewGradleModFolder(mod);
        case IdeaLayout(outDir) => modFolder := NewIdeaModFolder(mod, outDir);
      }
      if mod.name in names {
        ModFolderSetErrorSticks(mods, layout, i + 1);
        return Err(DuplicateModName(mod.name));
      }
      var entry := ModFolderEntry(mod.name, modFolder.folders);
      EntryNamesSnoc(entries, entry);
      entries := entries + [entry];
      names := names + {mod.name};
    }
    assert mods[..|mods|] == mods;
    r := Ok(entries);
  }

  /** `getModFoldersForGradle`. */
  method GetModFoldersForGradle(mods: seq<ModModel>) returns (r: Result<seq<ModFolderEntry>, ModFoldersError>)
    ensures r == ModFolderSet(mods, GradleLayout)
  {
    r := CollectModFolders(mods, GradleLayout);
  }

  /** The folders behind `getIdeaModFoldersProvider`: IntelliJ's layout when the
      IDE runs the game itself, Gradle's layout otherwise. */
  method GetIdeaModFolders(runWithIdea: bool, outDir: string, mods: seq<ModModel>) returns (r: Result<seq<ModFolderEntry>, ModFoldersError>)
    ensures runWithIdea ==> r == ModFolderSet(mods, IdeaLayout(outDir))
    ensures !runWithIdea ==> r == ModFolderSet(mods, GradleLayout)
  {
    if runWithIdea {
      r := CollectModFolders(mods, IdeaLayout(outDir));
    } else {
      r := GetModFoldersForGradle(mods);
    }
  }
}
