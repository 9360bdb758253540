/** The output-path resolver of the CLI's `ObfuscatedCodeWriter`.

    A writer is built once from the raw input path the user gave, the
    filesystem kind of that path (taken as given) and the raw `output`
    option. Its two queries are pure: where the obfuscated
    code of one input file goes, and where the companion source map goes.
 */
module CliUtils {
  import opened Paths

  /** Filesystem kind of a raw path. */
  datatype PathKind = File | Directory

  datatype Error =
    | DirectoryInputToFileOutput  // a directory tree cannot be written into one file
    | EmptyOutputCodePath         // a source map needs the path of its code file

  datatype Result<T> = Ok(value: T) | Err(error: Error)

  /** The extensions of the scripts the CLI reads and writes. */
  const ScriptExtensions: seq<string> := [".js"]

  /** The kind of the raw output path, read off its text alone (the output
      need not exist yet): a last segment with a script extension names a
      file; anything else names a directory, dotted names such as `foo.bar`
      included. */
  function OutputKind(output: Path): PathKind
    requires output != []
  {
    if ExtName(BaseName(output)) in ScriptExtensions then File else Directory
  }

  /** An output path is a file path exactly when its last segment ends in `.js`
      after at least one other character; a dot elsewhere does not count. */
  lemma OutputKindIff(output: Path)
    requires output != []
    ensures OutputKind(output) == File <==>
            |BaseName(output)| >= 4 && EndsWith(BaseName(output), ".js")
  {
    ScriptExtensionIff(BaseName(output));
  }

  /** How a user-supplied source-map file name ends. */
  datatype SourceMapNameKind = NoExtension | ScriptOnly | SourceMapAlready

  function ClassifySourceMapName(name: string): SourceMapNameKind {
    if EndsWith(name, ".js.map") then SourceMapAlready
    else if EndsWith(name, ".js") then ScriptOnly
    else NoExtension
  }

  /** The source-map file name with its extension completed to `.js.map`:
      only the missing part of that extension is appended. */
  function NormaliseSourceMapName(name: string): (r: string)
    ensures EndsWith(r, ".js.map")
    ensures name <= r && |r| <= |name| + 7
    ensures r == name <==> EndsWith(name, ".js.map")
  {
    match ClassifySourceMapName(name)
    case SourceMapAlready => name
    case ScriptOnly => name + ".map"
    case NoExtension => name + ".js.map"
  }

  /** Completing the extension twice is completing it once. */
  lemma NormaliseSourceMapNameIdempotent(name: string)
    ensures NormaliseSourceMapName(NormaliseSourceMapName(name)) == NormaliseSourceMapName(name)
  {
  }

  /** A bare stem, one ending in neither `.js` nor `.js.map`, gains the whole
      `.js.map` extension. */
  lemma BareStemSourceMapName(stem: string)
    requires !EndsWith(stem, ".js") && !EndsWith(stem, ".js.map")
    ensures NormaliseSourceMapName(stem) == stem + ".js.map"
  {
  }

  /** For any stem at all, the stem with `.js` gains `.map` and the stem with
      `.js.map` is kept, so both name the same source map (`a.js.js` gives
      `a.js.js.map`). */
  lemma ScriptStemSourceMapName(stem: string)
    ensures NormaliseSourceMapName(stem + ".js") == stem + ".js.map"
    ensures NormaliseSourceMapName(stem + ".js.map") == stem + ".js.map"
  {
    var js := stem + ".js";
    assert js[|js| - 1] == 's';
    assert EndsWith(js, ".js");
  }

  /** A writer, built from `(rawInputPath, { output })`. */
  datatype ObfuscatedCodeWriter = ObfuscatedCodeWriter(rawInputPath: Path, inputKind: PathKind, output: Path)
  {
    /** Where the obfuscated code of the input file `inputPath` is written. */
    function GetOutputCodePath(inputPath: Path): (r: Result<Path>)
      requires output != [] && inputPath != []
      requires inputKind == Directory && OutputKind(output) == Directory ==> rawInputPath < inputPath
      // a directory input cannot be written into a single output file, and that is the only failure
      ensures r.Err? <==> inputKind == Directory && OutputKind(output) == File
      ensures r.Err? ==> r.error == DirectoryInputToFileOutput
      // file to file: the output path, verbatim
      ensures inputKind == File && OutputKind(output) == File ==> r == Ok(output)
      // into an output directory: the result lies under it and keeps the input file's name
      ensures r.Ok? && OutputKind(output) == Directory ==>
                output < r.value && BaseName(r.value) == BaseName(inputPath)
      // file into a directory: directly inside it
      ensures r.Ok? && inputKind == File && OutputKind(output) == Directory ==> DirName(r.value) == output
      // tree into a directory: the file's place under the input root is its place under the output root
      ensures r.Ok? && inputKind == Directory ==>
                output <= r.value && Relative(output, r.value) == Relative(rawInputPath, inputPath)
      ensures r.Ok? && WellFormed(output) && WellFormed(inputPath) ==> WellFormed(r.value)
    {
      match (inputKind, OutputKind(output))
      case (File, File) => Ok(output)
      case (File, Directory) => Ok(output + [BaseName(inputPath)])
      case (Directory, File) => Err(DirectoryInputToFileOutput)
      case (Directory, Directory) => Ok(output + Relative(rawInputPath, inputPath))
    }

    /** Where the source map of the code written at `outputCodePath` goes.
        An empty `sourceMapFileName` (or one of separators only) means none
        was given. */
    function GetOutputSourceMapPath(outputCodePath: Path, sourceMapFileName: string): (r: Result<Path>)
      // the code path is needed, and its absence is the only failure
      ensures r.Err? <==> outputCodePath == []
      ensures r.Err? ==> r.error == EmptyOutputCodePath
      // a source map always sits at or below the code file's directory and ends in `.map`
      ensures r.Ok? ==> r.value != [] && DirName(outputCodePath) <= DirName(r.value) && EndsWith(BaseName(r.value), ".map")
      // no name given: the code path with `.map` appended, every directory segment untouched
      ensures r.Ok? && Split(sourceMapFileName) == [] ==>
                DirName(r.value) == DirName(outputCodePath) && Join(r.value) == Join(outputCodePath) + ".map"
      // a name given: its sub-directories kept in order below the code file's directory,
      // and its file name completed to `.js.map`
      ensures r.Ok? && Split(sourceMapFileName) != [] ==>
                var name := Split(sourceMapFileName);
                Relative(DirName(outputCodePath), DirName(r.value)) == DirName(name) &&
                BaseName(r.value) == NormaliseSourceMapName(BaseName(name))
    {
      if outputCodePath == [] then Err(EmptyOutputCodePath)
      else
        var dir := DirName(outputCodePath);
        var name := Split(sourceMapFileName);
        if name == [] then
          JoinExtendLast(outputCodePath, ".map");
          Ok(dir + [BaseName(outputCodePath) + ".map"])
        else
          Ok(dir + DirName(name) + [NormaliseSourceMapName(BaseName(name))])
    }
  }
}
