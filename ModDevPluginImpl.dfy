/**
 * The self-contained rules of `internal/ModDevPluginImpl.java`: the folder
 * collection of a mod (`ModFolder`), the `fml.modFolders` encoding
 * (`ModFoldersProvider`), the Maven coordinate guessed for a resolved artifact,
 * and the `@`-prefixed main-class strings that point a launcher at an args file.
 */
module ModDevPluginImpl {
  import opened Wrappers
  import opened Text

  /** The folders of one mod, grown by repeated `From` calls. */
  class ModFolder {
    var folders: seq<string>

    constructor ()
      ensures folders == []
    {
      folders := [];
    }

    method From(files: seq<string>)
      modifies this
      ensures folders == old(folders) + files
    {
      folders := folders + files;
    }
  }

  /** One entry of the mod-folder map: a mod name and the folders of its `ModFolder`. */
  datatype ModFolderEntry = ModFolderEntry(name: string, folders: seq<string>)

  /** The encoded segment of one folder of a mod. */
  function Segment(name: string, folder: string): string {
    name + "%%" + Escape(folder)
  }

  /** The segments of one entry, one per folder, in folder order. */
  function EntrySegments(e: ModFolderEntry): (r: seq<string>)
    ensures |r| == |e.folders|
    ensures forall j :: 0 <= j < |r| ==> r[j] == Segment(e.name, e.folders[j])
  {
    seq(|e.folders|, j requires 0 <= j < |e.folders| => Segment(e.name, e.folders[j]))
  }

  /** The segments of all entries, in entry order (the `mapMulti` step). */
  function EncodedSegments(entries: seq<ModFolderEntry>): seq<string> {
    if entries == [] then [] else EntrySegments(entries[0]) + EncodedSegments(entries[1..])
  }

  function TotalFolders(entries: seq<ModFolderEntry>): nat {
    if entries == [] then 0 else |entries[0].folders| + TotalFolders(entries[1..])
  }

  /** `getEncodedFolders`: the segments joined by the platform path separator,
      one segment per folder, so no folders give the empty value. */
  function GetEncodedFolders(entries: seq<ModFolderEntry>, pathSeparator: string): (r: string)
    ensures TotalFolders(entries) == 0 ==> r == ""
    ensures |EncodedSegments(entries)| == TotalFolders(entries)
  {
    SegmentCount(entries);
    Join(EncodedSegments(entries), pathSeparator)
  }

  /** `asArguments`: a single quoted system-property argument. */
  function AsArguments(entries: seq<ModFolderEntry>, pathSeparator: string): (r: seq<string>)
    ensures |r| == 1
    ensures var enc := GetEncodedFolders(entries, pathSeparator);
      r[0] == "\"-Dfml.modFolders=" + enc + "\"" && r[0][18..|r[0]| - 1] == enc
  {
    ["\"-Dfml.modFolders=" + GetEncodedFolders(entries, pathSeparator) + "\""]
  }

  /** There is one segment per folder. */
  lemma {:induction false} SegmentCount(entries: seq<ModFolderEntry>)
    ensures |EncodedSegments(entries)| == TotalFolders(entries)
  {
    if entries != [] {
      SegmentCount(entries[1..]);
    }
  }

  /** Entry order is kept: the segments of entry k come after those of every
      earlier entry and before those of every later one. */
  lemma {:induction false} SegmentsInEntryOrder(entries: seq<ModFolderEntry>, k: nat)
    requires k < |entries|
    ensures EncodedSegments(entries) ==
      EncodedSegments(entries[..k]) + EntrySegments(entries[k]) + EncodedSegments(entries[k + 1..])
  {
    if k == 0 {
      assert entries[..0] == [];
      assert entries[1..] == entries[k + 1..];
    } else {
      SegmentsInEntryOrder(entries[1..], k - 1);
      assert entries[1..][..k - 1] == entries[1..k];
      assert entries[1..][k - 1] == entries[k];
      assert entries[1..][k..] == entries[k + 1..];
      assert entries[..k][0] == entries[0] && entries[..k][1..] == entries[1..k];
    }
  }

  /** The (mod name, folder) pairs the encoding stands for, in encoding order. */
  function FolderPairs(entries: seq<ModFolderEntry>): (r: seq<(string, string)>)
    ensures |r| == TotalFolders(entries)
  {
    if entries == [] then []
    else
      var e := entries[0];
      seq(|e.folders|, j requires 0 <= j < |e.folders| => (e.name, e.folders[j])) + FolderPairs(entries[1..])
  }

  /** The reader the encoding implies (the source itself never reads the value
      back) applied to one segment: the name up to the first `%`, then the
      unescaped path after `%%`. */
  function DecodeSegment(segment: string): (string, string) {
    var i := IndexOf(segment, '%');
    if 0 <= i && i + 2 <= |segment| then (segment[..i], Unescape(segment[i + 2..])) else (segment, "")
  }

  function DecodeSegments(segments: seq<string>): (r: seq<(string, string)>)
    ensures |r| == |segments|
  {
    seq(|segments|, i requires 0 <= i < |segments| => DecodeSegment(segments[i]))
  }

  /** The reader the encoding implies, applied to the whole `fml.modFolders`
      value: split at the path separator, then decode every segment. */
  function DecodeModFolders(encoded: string, pathSeparator: char): seq<(string, string)> {
    DecodeSegments(Split(encoded, pathSeparator))
  }

  lemma DecodeSegmentOf(name: string, folder: string)
    requires '%' !in name
    ensures DecodeSegment(Segment(name, folder)) == (name, folder)
  {
    var s := Segment(name, folder);
    assert s[|name|] == '%';
    assert s[..|name|] == name && s[|name| + 2..] == Escape(folder);
    UnescapeEscape(folder);
  }

  /** Names and folders that cannot be confused with the encoding's delimiters. */
  ghost predicate Encodable(entries: seq<ModFolderEntry>, pathSeparator: char) {
    forall i :: 0 <= i < |entries| ==>
      '%' !in entries[i].name && pathSeparator !in entries[i].name &&
      forall j :: 0 <= j < |entries[i].folders| ==> pathSeparator !in entries[i].folders[j]
  }

  lemma {:induction false} SegmentsAvoidSeparator(entries: seq<ModFolderEntry>, sep: char)
    requires sep != '\\' && sep != '%'
    requires Encodable(entries, sep)
    ensures forall i :: 0 <= i < |EncodedSegments(entries)| ==> sep !in EncodedSegments(entries)[i]
  {
    if entries != [] {
      assert Encodable(entries[1..], sep) by {
        forall i | 0 <= i < |entries[1..]| ensures '%' !in entries[1..][i].name {
          assert entries[1..][i] == entries[i + 1];
        }
      }
      SegmentsAvoidSeparator(entries[1..], sep);
      var e := entries[0];
      var es := EntrySegments(e);
      forall j | 0 <= j < |es| ensures sep !in es[j] {
        EscapeKeepsOtherChars(e.folders[j], sep);
        assert es[j] == e.name + "%%" + Escape(e.folders[j]);
      }
    }
  }

  lemma {:induction false} DecodeEncodedSegments(entries: seq<ModFolderEntry>)
    requires forall i :: 0 <= i < |entries| ==> '%' !in entries[i].name
    ensures DecodeSegments(EncodedSegments(entries)) == FolderPairs(entries)
  {
    if entries != [] {
      var e := entries[0];
      DecodeEncodedSegments(entries[1..]);
      var es := EntrySegments(e);
      var rest := EncodedSegments(entries[1..]);
      assert EncodedSegments(entries) == es + rest;
      var d := DecodeSegments(es + rest);
      forall i | 0 <= i < |d| ensures d[i] == FolderPairs(entries)[i] {
        if i < |es| {
          DecodeSegmentOf(e.name, e.folders[i]);
        } else {
          assert (es + rest)[i] == rest[i - |es|];
        }
      }
    }
  }

  /** The implied reader recovers exactly the (mod name, folder) pairs, in order, from
      the encoded value, whenever there is at least one folder and no name or
      folder contains the path separator and no name contains `%`. */
  lemma EncodingRoundTrip(entries: seq<ModFolderEntry>, sep: char)
    requires sep != '\\' && sep != '%'
    requires Encodable(entries, sep)
    requires TotalFolders(entries) > 0
    ensures DecodeModFolders(GetEncodedFolders(entries, [sep]), sep) == FolderPairs(entries)
  {
    SegmentCount(entries);
    SegmentsAvoidSeparator(entries, sep);
    SplitJoin(EncodedSegments(entries), sep);
    DecodeEncodedSegments(entries);
  }

  /** The identity of a resolved artifact: a module artifact with Maven-style
      coordinates, or any other component, known only by its display string. */
  datatype ArtifactId =
    | ModuleArtifact(group: string, artifact: string, version: string)
    | OtherArtifact(componentId: string)

  datatype ResolvedArtifact = ResolvedArtifact(id: ArtifactId, fileName: string)

  /** A file name cut at its last `.` into stem and extension; without a `.` the
      extension is empty and the stem is the whole name. */
  function SplitExtension(fileName: string): (r: (string, string))
    ensures '.' in fileName ==> fileName == r.0 + "." + r.1 && '.' !in r.1
    ensures '.' !in fileName ==> r == (fileName, "")
  {
    var dot := LastIndexOf(fileName, '.');
    if dot == -1 then (fileName, "")
    else
      var stem, ext := fileName[..dot], fileName[dot + 1..];
      assert fileName == stem + "." + ext;
      assert forall j :: 0 <= j < |ext| ==> ext[j] == fileName[dot + 1 + j];
      (stem, ext)
  }

  /** The classifier encoded in a file stem: the rest of the stem after
      `artifact-version-`, when the stem starts with that. */
  function ClassifierOf(stem: string, artifact: string, version: string): (r: Option<string>)
    ensures r.Some? <==> StartsWith(stem, artifact + "-" + version + "-")
    ensures r.Some? ==> stem == artifact + "-" + version + "-" + r.value
  {
    var marker := artifact + "-" + version + "-";
    if StartsWith(stem, marker) then
      assert stem == marker + stem[|marker|..];
      Some(stem[|marker|..])
    else None
  }

  /** The coordinate guessed for a resolved artifact:
      `group:artifact:version[:classifier][@ext]` for a module artifact, the
      component's display string for anything else (whose extension counts as `jar`). */
  function MavenGav(result: ResolvedArtifact): (r: string)
    ensures result.id.OtherArtifact? ==> r == result.id.componentId
  {
    match result.id
    case OtherArtifact(componentId) => componentId
    case ModuleArtifact(group, artifact, version) =>
      var stem, ext := SplitExtension(result.fileName).0, SplitExtension(result.fileName).1;
      var classifier := ClassifierOf(stem, artifact, version);
      group + ":" + artifact + ":" + version
        + (if classifier.Some? then ":" + classifier.value else "")
        + (if ext != "jar" then "@" + ext else "")
  }

  /** The first step of `guessMavenGav`: the file name is cut at its last `.`,
      keeping an empty extension when there is none. */
  method CutExtension(fileName: string) returns (filename: string, ext: string)
    ensures (filename, ext) == SplitExtension(fileName)
  {
    filename, ext := fileName, "";
    var startOfExt := LastIndexOf(filename, '.');
    if startOfExt != -1 {
      ext := filename[startOfExt + 1..];
      filename := filename[..startOfExt];
    }
  }

  /** `guessMavenGav`, with its locals reassigned step by step as in the source. */
  method GuessMavenGav(result: ResolvedArtifact) returns (gav: string)
    ensures result.id.OtherArtifact? ==> gav == result.id.componentId
    ensures gav == MavenGav(result)
  {
    var artifactId: string;
    var ext := "";
    var classifier: Option<string> := None;
    if result.id.ModuleArtifact? {
      var artifact := result.id.artifact;
      var version := result.id.version;
      var expectedBasename := artifact + "-" + version;
      var filename;
      filename, ext := CutExtension(result.fileName);
      if StartsWith(filename, expectedBasename + "-") {
        classifier := Some(filename[|expectedBasename + "-"|..]);
      }
      assert classifier == ClassifierOf(filename, artifact, version);
      artifactId := result.id.group + ":" + artifact + ":" + version;
    } else {
      ext := "jar";
      artifactId := result.id.componentId;
    }
    ghost var classifierPart := if classifier.Some? then ":" + classifier.value else "";
    ghost var extPart := if ext != "jar" then "@" + ext else "";
    gav := artifactId;
    if classifier.Some? {
      gav := gav + ":" + classifier.value;
      assert gav == artifactId + classifierPart;
    }
    ghost var withClassifier := gav;
    if "jar" != ext {
      gav := gav + "@" + ext;
      assert gav == withClassifier + extPart;
    }
    assert gav == artifactId + classifierPart + extPart;
  }

  /** A module artifact's coordinate always begins with `group:artifact:version`. */
  lemma GavStartsWithCoordinates(result: ResolvedArtifact)
    requires result.id.ModuleArtifact?
    ensures StartsWith(MavenGav(result), result.id.group + ":" + result.id.artifact + ":" + result.id.version)
  {
  }

  /** `:classifier` is appended exactly when the stem starts with
      `artifact-version-`, and `@ext` exactly when the extension is not `jar`. */
  lemma GavSuffixes(result: ResolvedArtifact, classifier: string, ext: string)
    requires result.id.ModuleArtifact?
    requires ext == SplitExtension(result.fileName).1
    ensures var coordinates := result.id.group + ":" + result.id.artifact + ":" + result.id.version;
      var stem := SplitExtension(result.fileName).0;
      var marker := result.id.artifact + "-" + result.id.version + "-";
      && (stem == marker + classifier && ext == "jar" ==> MavenGav(result) == coordinates + ":" + classifier)
      && (stem == marker + classifier && ext != "jar" ==> MavenGav(result) == coordinates + ":" + classifier + "@" + ext)
      && (!StartsWith(stem, marker) && ext == "jar" ==> MavenGav(result) == coordinates)
      && (!StartsWith(stem, marker) && ext != "jar" ==> MavenGav(result) == coordinates + "@" + ext)
  {
  }

  /** A file name without a `.` has an empty extension, which is not `jar`, so the
      coordinate ends in a bare `@`. */
  lemma GavOfDotlessFileName(result: ResolvedArtifact)
    requires result.id.ModuleArtifact? && '.' !in result.fileName
    ensures var gav := MavenGav(result); |gav| > 0 && gav[|gav| - 1] == '@'
  {
  }

  /** The main class of the IntelliJ run configuration: `@` and the args-file path
      with every backslash turned into a forward slash. */
  function IdeaMainClass(argsFilePath: string): (r: string)
    ensures |r| == |argsFilePath| + 1 && r[0] == '@'
    ensures forall i :: 0 <= i < |argsFilePath| ==>
      r[i + 1] == if argsFilePath[i] == '\\' then '/' else argsFilePath[i]
    ensures '\\' !in r
  {
    var replaced := ReplaceChar(argsFilePath, '\\', '/');
    assert forall i :: 0 <= i < |replaced| ==> replaced[i] != '\\';
    "@" + replaced
  }

  /** The main class of the run task: `@` and the absolute args-file path unchanged. */
  function RunTaskMainClass(argsFilePath: string): (r: string)
    ensures |r| == |argsFilePath| + 1 && r[0] == '@' && r[1..] == argsFilePath
  {
    "@" + argsFilePath
  }
}
