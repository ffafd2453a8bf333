# NeoForgeGradle run preparation, modelled in Dafny

This project models how the NeoForge Gradle plugin prepares a game run.
It covers four parts of the plugin:

- **The run definition** (`RunModel`). A mutable record holding the run type, the system properties, the program arguments, the game directory and the mods. It derives task and file names with `nameOf`.
- **The args file** (`PrepareRunForIde.prepareRun`). It takes a parsed run-type descriptor and the user's settings and produces an ordered list of lines:
  - the JVM arguments, quoted and escaped, with `{modules}` substituted;
  - the user JVM block;
  - the log4j configuration line;
  - the descriptor's and the user's system properties;
  - the main-class block;
  - the program arguments, with the asset placeholders substituted;
  - the user's program arguments.
- **The run helpers** (`RunUtils`): the required run type, the key checks on the asset-properties file, the args-file path, and the per-mod folder lists. A run launched by Gradle takes Gradle's output directories. An IntelliJ IDEA run configuration takes IDEA's output layout when IDEA runs the game itself (`runWithIdea`), and Gradle's directories otherwise.
- **Coordinates and the mod-folder encoding** (`ModDevPluginImpl`):
  - the Maven coordinate guessed for a resolved artifact;
  - the `fml.modFolders` value (`name%%path` segments joined by the path separator);
  - the `@<args file>` main-class strings.

The Dafny modules follow the source files: `Dsl` (`RunModel.java`), `RunUtils`, `ModDevPluginImpl` and `PrepareRunForIde`. Two helper modules sit beside them:

- `Text` holds the string operations the code relies on. These are Java's `replace`, `lastIndexOf`, `startsWith` and `Collectors.joining`, the quoting convention, ASCII `capitalize`/`uncapitalize`, and path joining. It also holds `Unescape`, `Unquote`, `Split` and `IndexOf`, which the code never calls. They belong to the reader that the quoting convention and the `fml.modFolders` format imply, and they are used only to state what those formats preserve.
- `Wrappers` holds `Option` and `Result`.

The model is written in the code's own form:

- `RunModel` and `ModFolder` are classes whose methods update their fields.
- `prepareRun`, `getInterpolatedJvmArgs`, `guessMavenGav` and the per-mod folder construction are methods that update local state step by step, with loops where the source has them. Each is proved against a specification function.
- The string rules are functions, with lemmas about them.

Each failure the model covers becomes an `Err` value:

- a run with no type, both in `getRequiredType` and when the prepare task reads its run type (`MissingRunType`);
- an unknown run type;
- an asset-properties file that cannot be read or lacks a key;
- two mods with the same name, which `Collectors.toMap` rejects.

For `prepareRun`, `Ok` carries the lines the file would hold and `Err` means nothing is written.

Two points where the code's behaviour may surprise a reader:

- Placeholders are replaced only when a whole token equals them. `-Xmx{modules}` stays exactly as written (`PrepareRunForIde.java:79`; see `JvmArgsReadBack`).
- No failure is raised for a placeholder that cannot be substituted. The asset-properties file is always loaded and its two keys always checked, whether or not a program argument uses them (`PrepareRunForIde.java:153`).

Inputs the model takes as given:

- The nondeterministic or environment-dependent values are parameters: the path separator, absolute paths, the log4j file path, and the iteration order of the descriptor's and the user's property maps (given as sequences of pairs).
- The loaded asset-properties file is an `Option<map<string, string>>`, where `None` stands for a file that could not be read.

## Model

| member | source | states |
|---|---|---|
| Text.Escape | src/java17/java/net/neoforged/neoforgegradle/internal/PrepareRunForIde.java:84 | escaping never shortens a string and leaves a string with no backslash unchanged |
| Text.UnescapeEscape | src/java17/java/net/neoforged/neoforgegradle/internal/PrepareRunForIde.java:170 | halving the doubled backslashes recovers the original value exactly |
| Text.EscapeKeepsOtherChars | src/java17/java/net/neoforged/neoforgegradle/internal/ModDevPluginImpl.java:447 | escaping adds only backslashes: any other character occurs after escaping iff it occurred before |
| Text.UnquoteQuote | src/java17/java/net/neoforged/neoforgegradle/internal/PrepareRunForIde.java:84 | a quoted token read back gives the original string |
| Text.Quote | src/java17/java/net/neoforged/neoforgegradle/internal/PrepareRunForIde.java:84 | one argument-file token (also written at `PrepareRunForIde.java:160`): a `"` at each end with the escaped string between them; `UnquoteQuote`, `QuoteKeepsInnerQuote` and `QuoteInjective` say what the token preserves |
| Text.QuoteKeepsInnerQuote | src/java17/java/net/neoforged/neoforgegradle/internal/PrepareRunForIde.java:84 | the interior of a quoted token holds a `"` exactly when the value does: quotes inside a value are not escaped |
| Text.QuoteInjective | src/java17/java/net/neoforged/neoforgegradle/internal/PrepareRunForIde.java:160 | two different arguments never produce the same quoted line |
| Text.Join | src/java17/java/net/neoforged/neoforgegradle/internal/ModDevPluginImpl.java:450 | joining nothing gives the empty string; joining one part gives that part |
| Text.Split | src/java17/java/net/neoforged/neoforgegradle/internal/ModDevPluginImpl.java:450 | a helper of the implied reader of the value joined at this line: cutting at a separator always yields at least one piece |
| Text.SplitPrefix | src/java17/java/net/neoforged/neoforgegradle/internal/ModDevPluginImpl.java:450 | a separator-free prefix extends the first piece and changes no other piece |
| Text.SplitJoin | src/java17/java/net/neoforged/neoforgegradle/internal/ModDevPluginImpl.java:450 | splitting a joined list at the separator gives the list back when no part contains the separator |
| Text.LastIndexOf | src/java17/java/net/neoforged/neoforgegradle/internal/ModDevPluginImpl.java:399 | the result is -1 or an index holding the character, and no later index holds it |
| Text.IndexOf | src/java17/java/net/neoforged/neoforgegradle/internal/ModDevPluginImpl.java:447 | a helper of the implied reader of the segments written at this line: the result is -1 or an index holding the character, and no earlier index holds it |
| Text.ReplaceChar | src/java17/java/net/neoforged/neoforgegradle/internal/ModDevPluginImpl.java:324 | same length; each position holds the replacement where the original had the replaced character, else the original |
| Text.Capitalize | src/java17/java/net/neoforged/neoforgegradle/dsl/RunModel.java:92 | same length; only the first character is upper-cased |
| Text.Uncapitalize | src/java17/java/net/neoforged/neoforgegradle/dsl/RunModel.java:92 | same length; only the first character is lower-cased |
| Dsl.RunModel.constructor | src/java17/java/net/neoforged/neoforgegradle/dsl/RunModel.java:29-34 | keeps the name; the game directory is `<project>/run`; the mods are the extension's mods; nothing else is set |
| Dsl.RunModel.GetName | src/java17/java/net/neoforged/neoforgegradle/dsl/RunModel.java:42-45 | returns the name given to the constructor |
| Dsl.RunModel.SystemProperty | src/java17/java/net/neoforged/neoforgegradle/dsl/RunModel.java:51-53 | maps the key to the value, replacing an earlier value; every other key keeps its value; no other field changes |
| Dsl.RunModel.ProgramArgument | src/java17/java/net/neoforged/neoforgegradle/dsl/RunModel.java:57-59 | appends the argument and keeps the earlier ones in order; no other field changes |
| Dsl.RunModel.Client | src/java17/java/net/neoforged/neoforgegradle/dsl/RunModel.java:65-67 | sets the type to `client` and changes nothing else |
| Dsl.RunModel.Data | src/java17/java/net/neoforged/neoforgegradle/dsl/RunModel.java:69-71 | sets the type to `data` and changes nothing else |
| Dsl.RunModel.Server | src/java17/java/net/neoforged/neoforgegradle/dsl/RunModel.java:73-75 | sets the type to `server` and changes nothing else |
| Dsl.RunModel.NameOf | src/java17/java/net/neoforged/neoforgegradle/dsl/RunModel.java:91-93 | a missing prefix or suffix counts as empty; the name is the uncapitalized prefix and base name followed by the capitalized suffix, and its length is the sum of the three |
| Dsl.RunModel.ToString | src/java17/java/net/neoforged/neoforgegradle/dsl/RunModel.java:96-98 | `Run[`, then the run's name, then `]` |
| Dsl.LastTypeCallWins | src/java17/java/net/neoforged/neoforgegradle/dsl/RunModel.java:51-75 | one example script of setter calls: the last type call wins, properties hold their last values, and arguments are in call order |
| ModDevPluginImpl.ModFolder.constructor | src/java17/java/net/neoforged/neoforgegradle/internal/ModDevPluginImpl.java:424-431 | a new mod folder holds no folders |
| ModDevPluginImpl.ModFolder.From | src/java17/java/net/neoforged/neoforgegradle/internal/RunUtils.java:184-187 | adds the given files after the folders already held |
| ModDevPluginImpl.EntrySegments | src/java17/java/net/neoforged/neoforgegradle/internal/ModDevPluginImpl.java:445-448 | one segment per folder of the entry, in folder order, each `name%%` plus the escaped path |
| ModDevPluginImpl.GetEncodedFolders | src/java17/java/net/neoforged/neoforgegradle/internal/ModDevPluginImpl.java:442-451 | the value is the segments of all entries joined by the separator, one segment per folder, so no folders give the empty value; `SegmentCount`, `SegmentsInEntryOrder` and `EncodingRoundTrip` give the value its meaning |
| ModDevPluginImpl.AsArguments | src/java17/java/net/neoforged/neoforgegradle/internal/ModDevPluginImpl.java:454-456 | exactly one argument, `"-Dfml.modFolders=` + the encoded folders + `"`, whose interior is the encoded value |
| ModDevPluginImpl.SegmentCount | src/java17/java/net/neoforged/neoforgegradle/internal/ModDevPluginImpl.java:442-451 | the number of segments equals the total number of folders |
| ModDevPluginImpl.SegmentsInEntryOrder | src/java17/java/net/neoforged/neoforgegradle/internal/ModDevPluginImpl.java:443-449 | the segments of entry k come after those of every earlier entry and before those of every later one |
| ModDevPluginImpl.FolderPairs | src/java17/java/net/neoforged/neoforgegradle/internal/ModDevPluginImpl.java:443-449 | one (mod name, folder) pair per folder |
| ModDevPluginImpl.DecodeSegments | src/java17/java/net/neoforged/neoforgegradle/internal/ModDevPluginImpl.java:447 | one decoded pair per segment |
| ModDevPluginImpl.DecodeSegmentOf | src/java17/java/net/neoforged/neoforgegradle/internal/ModDevPluginImpl.java:447 | a segment reads back as its mod name and its unescaped path when the name has no `%` |
| ModDevPluginImpl.SegmentsAvoidSeparator | src/java17/java/net/neoforged/neoforgegradle/internal/ModDevPluginImpl.java:447-450 | when neither names nor paths contain the separator, no segment does, because escaping adds only backslashes |
| ModDevPluginImpl.DecodeEncodedSegments | src/java17/java/net/neoforged/neoforgegradle/internal/ModDevPluginImpl.java:443-449 | decoding every segment gives exactly the (mod name, folder) pairs in entry and folder order |
| ModDevPluginImpl.EncodingRoundTrip | src/java17/java/net/neoforged/neoforgegradle/internal/ModDevPluginImpl.java:442-451 | the reader the encoding implies (split at the separator, cut at the first `%`, halve doubled backslashes) recovers exactly the (mod name, folder) pairs, in order, from the encoded value whenever there is a folder and names and paths avoid the delimiters |
| ModDevPluginImpl.SplitExtension | src/java17/java/net/neoforged/neoforgegradle/internal/ModDevPluginImpl.java:398-403 | the extension is the text after the last `.` and the stem the text before it; with no `.` the stem is the whole name and the extension is empty |
| ModDevPluginImpl.CutExtension | src/java17/java/net/neoforged/neoforgegradle/internal/ModDevPluginImpl.java:398-403 | the step-by-step cut of the file name gives exactly the stem and extension of the last-dot rule |
| ModDevPluginImpl.ClassifierOf | src/java17/java/net/neoforged/neoforgegradle/internal/ModDevPluginImpl.java:405-407 | a classifier exists iff the stem starts with `artifact-version-`, and it is the rest of the stem |
| ModDevPluginImpl.MavenGav | src/java17/java/net/neoforged/neoforgegradle/internal/ModDevPluginImpl.java:390-421 | the coordinate function: a non-module artifact gives its component's string; `GavStartsWithCoordinates`, `GavSuffixes` and `GavOfDotlessFileName` state the shape of a module artifact's coordinate |
| ModDevPluginImpl.GuessMavenGav | src/java17/java/net/neoforged/neoforgegradle/internal/ModDevPluginImpl.java:390-421 | the step-by-step computation gives the coordinate function's value; for a non-module artifact it is the component's string |
| ModDevPluginImpl.GavStartsWithCoordinates | src/java17/java/net/neoforged/neoforgegradle/internal/ModDevPluginImpl.java:408-413 | a module artifact's coordinate begins with `group:artifact:version` |
| ModDevPluginImpl.GavSuffixes | src/java17/java/net/neoforged/neoforgegradle/internal/ModDevPluginImpl.java:405-419 | `:classifier` is appended iff the stem starts with `artifact-version-`, and `@ext` iff the extension is not `jar`; all four combinations |
| ModDevPluginImpl.GavOfDotlessFileName | src/java17/java/net/neoforged/neoforgegradle/internal/ModDevPluginImpl.java:399-419 | a file name without `.` gives a coordinate ending in a bare `@` |
| ModDevPluginImpl.IdeaMainClass | src/java17/java/net/neoforged/neoforgegradle/internal/ModDevPluginImpl.java:324 | `@` followed by the path with every backslash turned into `/`; the result has no backslash |
| ModDevPluginImpl.RunTaskMainClass | src/java17/java/net/neoforged/neoforgegradle/internal/ModDevPluginImpl.java:283 | `@` followed by the path unchanged |
| RunUtils.GetRequiredType | src/java17/java/net/neoforged/neoforgegradle/internal/RunUtils.java:28-32 | succeeds iff the run has a type, with that type; otherwise the message names the run |
| RunUtils.LoadAssetProperties | src/java17/java/net/neoforged/neoforgegradle/internal/RunUtils.java:34-52 | an unreadable file fails; `assets_root` is checked before `asset_index`; it succeeds iff both keys are present, taking each field from its own key (empty values accepted) |
| RunUtils.GetIdeaOutName | src/java17/java/net/neoforged/neoforgegradle/internal/RunUtils.java:176-178 | `main` maps to `production`; every other name is unchanged |
| RunUtils.IdeaOutNameCollision | src/java17/java/net/neoforged/neoforgegradle/internal/RunUtils.java:176-178 | two distinct source sets share an output directory only when they are `main` and `production` |
| RunUtils.GetArgFile | src/java17/java/net/neoforged/neoforgegradle/internal/RunUtils.java:142-144 | `moddev/` + `nameOf("", "runArgs")` + `.txt` under the build directory, which is `<uncapitalized base name>RunArgs.txt` for a non-empty base name |
| RunUtils.SourceSetOutput | src/java17/java/net/neoforged/neoforgegradle/internal/RunUtils.java:184-188 | in Gradle's layout, a source set's classes directories and then its resources directory; in IDEA's layout (`RunUtils.java:163-165`), exactly two folders (their paths are given by `IdeaFoldersAt`) |
| RunUtils.ModFolderContents | src/java17/java/net/neoforged/neoforgegradle/internal/RunUtils.java:184-188 | the mod's configuration files come first (in both layouts; IDEA's at `RunUtils.java:159-166`), unchanged; with no source sets they are all the folders; `SourceSetFoldersInOrder` places the source sets' outputs after them |
| RunUtils.SourceSetFoldersAppend | src/java17/java/net/neoforged/neoforgegradle/internal/RunUtils.java:185-188 | the folders of two lists of source sets are the folders of the first followed by those of the second |
| RunUtils.SourceSetFoldersInOrder | src/java17/java/net/neoforged/neoforgegradle/internal/RunUtils.java:185-188 | the outputs of source set k come after those of every earlier source set and before those of every later one |
| RunUtils.SourceSetFoldersSnoc | src/java17/java/net/neoforged/neoforgegradle/internal/RunUtils.java:185-188 | one more source set appends exactly its outputs |
| RunUtils.IdeaFoldersAt | src/java17/java/net/neoforged/neoforgegradle/internal/RunUtils.java:160-166 | in IDEA's layout, source set k contributes `outDir/<ideaOutName>/classes` at position 2k and `.../resources` at 2k+1 |
| RunUtils.IdeaFoldersCount | src/java17/java/net/neoforged/neoforgegradle/internal/RunUtils.java:160-166 | in IDEA's layout each source set contributes exactly two folders |
| RunUtils.NewGradleModFolder | src/java17/java/net/neoforged/neoforgegradle/internal/RunUtils.java:182-189 | a fresh mod folder holding the configuration files, then each source set's classes directories and resources directory, in order |
| RunUtils.NewIdeaModFolder | src/java17/java/net/neoforged/neoforgegradle/internal/RunUtils.java:157-167 | a fresh mod folder holding the configuration files, then each source set's IDEA classes and resources directories, in order |
| RunUtils.ModFolderSetOk | src/java17/java/net/neoforged/neoforgegradle/internal/RunUtils.java:181-190 | when the map exists, the mod names are distinct and entry k holds mod k's name and folders |
| RunUtils.ModFolderSetErr | src/java17/java/net/neoforged/neoforgegradle/internal/RunUtils.java:181-182 | when the map fails, the name it reports belongs to two different mods |
| RunUtils.ModFolderSetCorrect | src/java17/java/net/neoforged/neoforgegradle/internal/RunUtils.java:181-190 | the map exists iff the mod names are distinct; it then has one entry per mod, each with that mod's folders; otherwise the failure names a duplicated mod name |
| RunUtils.ModFolderSetErrorSticks | src/java17/java/net/neoforged/neoforgegradle/internal/RunUtils.java:181-182 | once a prefix of the mods has a duplicate name, the whole list fails with the same error |
| RunUtils.ModFolderSet | src/java17/java/net/neoforged/neoforgegradle/internal/RunUtils.java:181-190 | the `toMap` map as a list of entries in mod order: no mods give an empty map, and a map has one entry per mod; `ModFolderSetCorrect` states when it exists and what each entry holds |
| RunUtils.CollectModFolders | src/java17/java/net/neoforged/neoforgegradle/internal/RunUtils.java:181-190 | the loop building one mod folder per mod computes the mod-folder map |
| RunUtils.GetModFoldersForGradle | src/java17/java/net/neoforged/neoforgegradle/internal/RunUtils.java:180-191 | the mod-folder map in Gradle's layout |
| RunUtils.GetIdeaModFolders | src/java17/java/net/neoforged/neoforgegradle/internal/RunUtils.java:154-172 | IDEA's layout when IDEA runs the game itself; exactly the Gradle result otherwise |
| PrepareRunForIde.GetInterpolatedJvmArgs | src/java17/java/net/neoforged/neoforgegradle/internal/PrepareRunForIde.java:75-87 | one quoted line per JVM argument, in order; exactly `{modules}` becomes the module paths joined by the separator; every other argument passes through |
| PrepareRunForIde.AddSystemProp | src/java17/java/net/neoforged/neoforgegradle/internal/PrepareRunForIde.java:169-171 | appends one line `"-D<name>=<escaped value>"` and keeps the earlier lines |
| PrepareRunForIde.SystemPropLine | src/java17/java/net/neoforged/neoforgegradle/internal/PrepareRunForIde.java:170 | a property line starts with `"-D`, ends with `"`, and is five characters longer than the name and the escaped value together; `SystemPropLineReadBack` reads it back |
| PrepareRunForIde.Log4jLine | src/java17/java/net/neoforged/neoforgegradle/internal/PrepareRunForIde.java:132 | the log4j line is the property line for `log4j2.configurationFile` with the log4j file as its value |
| PrepareRunForIde.AddRunTypeProps | src/java17/java/net/neoforged/neoforgegradle/internal/PrepareRunForIde.java:133-140 | appends one property line per descriptor property, in order, with exactly `{minecraft_classpath_file}` replaced by the legacy classpath file |
| PrepareRunForIde.AddUserProps | src/java17/java/net/neoforged/neoforgegradle/internal/PrepareRunForIde.java:142-144 | appends one property line per user property, in order, values unsubstituted |
| PrepareRunForIde.AddProgramArgs | src/java17/java/net/neoforged/neoforgegradle/internal/PrepareRunForIde.java:154-161 | appends one quoted line per run-type program argument, with exact asset placeholders substituted |
| PrepareRunForIde.PrepareRun | src/java17/java/net/neoforged/neoforgegradle/internal/PrepareRunForIde.java:96-166 | a run type that was never set fails; an unknown run type fails, naming every available run type; a failed asset load fails with its cause; otherwise the result is the full args file in section order |
| PrepareRunForIde.ArgsFileLines | src/java17/java/net/neoforged/neoforgegradle/internal/PrepareRunForIde.java:105-164 | the whole file for a found run type: its JVM, property and program sections in that order; the header of the user's program arguments sits exactly as many lines before the end as the user gave arguments; `JvmSection`, `PropertySection` and `ProgramSection` state every section line by line |
| PrepareRunForIde.ExampleUnknownRun | src/java17/java/net/neoforged/neoforgegradle/internal/PrepareRunForIde.java:97-100 | asking for `data` when only `client` and `server` exist fails, listing those two |
| PrepareRunForIde.JvmSection | src/java17/java/net/neoforged/neoforgegradle/internal/PrepareRunForIde.java:105-132 | the JVM lines come first, in order; the user JVM block is present iff user JVM arguments exist and is `""`, `# User JVM Arguments`, the arguments verbatim, `""`; the log4j line follows |
| PrepareRunForIde.PropertySection | src/java17/java/net/neoforged/neoforgegradle/internal/PrepareRunForIde.java:132-144 | right after the log4j line come the descriptor's property lines, in order, then the user's |
| PrepareRunForIde.ProgramSection | src/java17/java/net/neoforged/neoforgegradle/internal/PrepareRunForIde.java:146-164 | then `""`, `# Main Class`, the main class, `""`, `# NeoForge Run-Type Program Arguments`, the quoted program arguments, and last `# User Supplied Program Arguments` with the user's arguments verbatim |
| PrepareRunForIde.JvmArgsReadBack | src/java17/java/net/neoforged/neoforgegradle/internal/PrepareRunForIde.java:77-84 | each JVM line reads back as the module path for an exact `{modules}` token and as the argument itself otherwise (so `-Xmx{modules}` is untouched) |
| PrepareRunForIde.ProgramArgsReadBack | src/java17/java/net/neoforged/neoforgegradle/internal/PrepareRunForIde.java:154-161 | each run-type program-argument line reads back as the assets root, the asset index, or the argument itself |
| PrepareRunForIde.SystemPropLineReadBack | src/java17/java/net/neoforged/neoforgegradle/internal/PrepareRunForIde.java:169-171 | a property line is `"-D`, the unescaped name, `=`, the escaped value, `"`; unescaping the value part gives the value back |
| PrepareRunForIde.PropLinesReadBack | src/java17/java/net/neoforged/neoforgegradle/internal/PrepareRunForIde.java:139-143 | every line of a property section reads back as its name and its value |
| PrepareRunForIde.RunTypePropsReadBack | src/java17/java/net/neoforged/neoforgegradle/internal/PrepareRunForIde.java:133-140 | each descriptor property line holds its name verbatim and reads back as the legacy classpath file for an exact `{minecraft_classpath_file}` value and as the value otherwise |

## Left out

- File-system effects are left out: creating the run directory, writing `log4j2.xml`, writing the args file atomically, and creating dummy files in the local repository. The log4j path is an input, and the written file is the `Ok` value of `PrepareRun`. As a consequence the model does not capture two side effects that happen before a failure. The run directory is created (`PrepareRunForIde.java:94`) before any of the failures of `PrepareRun`. `log4j2.xml` is written (`PrepareRunForIde.java:110`) after the run-type checks but before the asset-properties failure (`PrepareRunForIde.java:153`).
- Parsing the run-type descriptor (`UserDevConfig.from`) and `java.util.Properties.load` are library parsers. The model takes their parsed results: a datatype for the descriptor, and a map for the properties or `None` for a read failure.
- `StringUtils.toCamelCase` is not part of this model. The sanitized base name is a constructor input.
- `capitalize` and `uncapitalize` are modelled with ASCII case mapping of the first character, with no Unicode case rules.
- Absolute paths, `File.pathSeparator` and path resolution are parameters or plain `/` joins. No JDK path normalisation is modelled.
- Hash-map iteration order is not modelled. The descriptor's properties and the user system properties are given as sequences of pairs in the order the code visits them.
- `ModFolderSet` lists its entries in the order of the mods. That order stands in for the iteration order of the `HashMap` that `Collectors.toMap` builds (`RunUtils.java:157`, `RunUtils.java:182`), which the source does not guarantee. So the order of the `fml.modFolders` segments across mods is the model's choice, not a promise of the source. Only the duplicate-name check follows the mods' order, and within one mod the folder order is the source's. `EncodingRoundTrip` holds for whichever entry order is used.
- A Gradle file collection can drop duplicate files; this de-duplication is not modelled, and `ModFolder.From` keeps every file given.
- Lazy provider evaluation, task inputs and outputs, and caching annotations are left out. Every value is taken as already resolved.
- `ModDevPluginImpl.apply` and the rest of the Gradle and IntelliJ wiring are left out: task registration, configurations, repositories, toolchains, jarJar, and locating IDEA's run configurations. Only the two `@path` main-class strings are modelled.
- The text of the unknown-run message is not modelled. The error carries the requested name and the set of available names instead of Java's rendering of that set.
- `Text.UnquoteQuote`, `JvmArgsReadBack` and `ProgramArgsReadBack` read a token back with the model's own reader `Unquote`. It strips the outer quotes and halves backslashes. The source escapes backslashes but never `"` (`PrepareRunForIde.java:84`, `132`, `160`, `170`), so a value containing `"` is written with that `"` inside the token (`QuoteKeepsInnerQuote`). A JVM args-file reader would end the token there, so `Unquote` agrees with the JVM's reading only for tokens without `"`. The read-back lemmas therefore state what was written, not what the JVM will see for such values.
- The failures of parsing and of the file system are not modelled: a malformed run-type descriptor, or a descriptor collection without exactly one file (`PrepareRunForIde.java:96`); and an I/O error while creating the run directory (`PrepareRunForIde.java:94`), writing `log4j2.xml` (`PrepareRunForIde.java:110-113`) or writing the args file (`PrepareRunForIde.java:166`). `PrepareRun` has no `Err` for them. The only read failure modelled is that of the asset-properties file.
- `DecodeSegment`, `DecodeModFolders` and `EncodingRoundTrip` use the reader that the `fml.modFolders` format implies. Nothing in the source reads the value back. The same encoded string is also passed to IntelliJ unquoted as the `MOD_CLASSES` environment variable (`ModDevPluginImpl.java:326`). There nothing halves the doubled backslashes, so the round trip does not describe how that variable is read.
- The `requireNonNull` checks on the asset values are not modelled as failures. They cannot fail after both keys have been checked.
- `RunModel`'s additional-runtime-classpath configuration and dependency collector are Gradle objects and are left out.
