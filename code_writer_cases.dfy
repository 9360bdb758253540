/** The cases of the `ObfuscatedCodeWriter` unit tests, stated over the model.

    The tests build every path with `path.join(tmpDirectoryPath, ...)` where
    `tmpDirectoryPath` is `test/tmp`; `JoinUnderTmp` shows that such a join is
    the segments `test`, `tmp` followed by the other parts, and the lemmas
    `InputPathsAreJoins` to `ExpectedSourceMapPathsAreJoins` state, path by
    path, that the constants below are the paths the tests compare. Since `Split` undoes `Join` on
    well-formed paths, equal segment sequences mean equal path strings.
 */
module ObfuscatedCodeWriterCases {
  import opened Paths
  import opened CliUtils

  const TmpDirectory: string := "test/tmp"
  const Tmp: Path := ["test", "tmp"]

  const InputDirectory: Path := Tmp + ["input"]
  const InputFile: Path := Tmp + ["input", "test-input.js"]
  const NestedInputFile: Path := Tmp + ["input", "nested", "test-input.js"]
  const OutputDirectory: Path := Tmp + ["output"]
  const OutputFile: Path := Tmp + ["output", "test-output.js"]

  /** `path.join(tmpDirectoryPath, ...parts)` is `Tmp + parts`. */
  lemma JoinUnderTmp(parts: Path)
    requires WellFormed(parts)
    ensures PathJoin([TmpDirectory] + parts) == Tmp + parts
  {
    assert Join(Tmp) == TmpDirectory;
    SplitJoin(Tmp);
    if parts == [] {
      assert [TmpDirectory] + parts == [TmpDirectory];
    } else {
      PathJoinConcat(TmpDirectory, parts);
      PathJoinOfSegments(parts);
    }
  }

  /** The input paths of the tests are the tests' own `path.join(tmpDirectoryPath, ...)` expressions. */
  lemma InputPathsAreJoins()
    ensures InputDirectory == PathJoin([TmpDirectory] + ["input"])
    ensures InputFile == PathJoin([TmpDirectory] + ["input", "test-input.js"])
    ensures NestedInputFile == PathJoin([TmpDirectory] + ["input", "nested", "test-input.js"])
  {
    JoinUnderTmp(["input"]);
    JoinUnderTmp(["input", "test-input.js"]);
    JoinUnderTmp(["input", "nested", "test-input.js"]);
  }

  /** The raw output paths of the tests are the tests' own `path.join(tmpDirectoryPath, ...)` expressions. */
  lemma OutputPathsAreJoins()
    ensures OutputDirectory == PathJoin([TmpDirectory] + ["output"])
    ensures OutputFile == PathJoin([TmpDirectory] + ["output", "test-output.js"])
    ensures Tmp + ["output", "foo.bar"] == PathJoin([TmpDirectory] + ["output", "foo.bar"])
    ensures Tmp + ["output.with.dot", "test-output.js"] == PathJoin([TmpDirectory] + ["output.with.dot", "test-output.js"])
  {
    JoinUnderTmp(["output"]);
    JoinUnderTmp(["output", "test-output.js"]);
    JoinUnderTmp(["output", "foo.bar"]);
    JoinUnderTmp(["output.with.dot", "test-output.js"]);
  }

  /** The expected code paths of `getOutputCodePath` are the tests' own `path.join(tmpDirectoryPath, ...)` expressions. */
  lemma ExpectedCodePathsAreJoins()
    ensures Tmp + ["output", "test-input.js"] == PathJoin([TmpDirectory] + ["output", "test-input.js"])
    ensures Tmp + ["output", "nested", "test-input.js"] == PathJoin([TmpDirectory] + ["output", "nested", "test-input.js"])
    ensures Tmp + ["output", "foo.bar", "nested", "test-input.js"] == PathJoin([TmpDirectory] + ["output", "foo.bar", "nested", "test-input.js"])
  {
    JoinUnderTmp(["output", "test-input.js"]);
    JoinUnderTmp(["output", "nested", "test-input.js"]);
    JoinUnderTmp(["output", "foo.bar", "nested", "test-input.js"]);
  }

  /** The expected source-map paths of `getOutputSourceMapPath` are the tests' own `path.join(tmpDirectoryPath, ...)` expressions. */
  lemma ExpectedSourceMapPathsAreJoins()
    ensures Tmp + ["output", "test-output.js.map"] == PathJoin([TmpDirectory] + ["output", "test-output.js.map"])
    ensures Tmp + ["output.with.dot", "test-output.js.map"] == PathJoin([TmpDirectory] + ["output.with.dot", "test-output.js.map"])
    ensures Tmp + ["output", "foo.js.map"] == PathJoin([TmpDirectory] + ["output", "foo.js.map"])
    ensures Tmp + ["output", "parent", "foo.js.map"] == PathJoin([TmpDirectory] + ["output", "parent", "foo.js.map"])
  {
    JoinUnderTmp(["output", "test-output.js.map"]);
    JoinUnderTmp(["output.with.dot", "test-output.js.map"]);
    JoinUnderTmp(["output", "foo.js.map"]);
    JoinUnderTmp(["output", "parent", "foo.js.map"]);
  }

  /** `test-output.js` names a file. */
  lemma OutputIsFile()
    ensures OutputKind(OutputFile) == File
  {
    OutputKindIff(OutputFile);
    assert BaseName(OutputFile)[|"test-output.js"| - 3..] == ".js";
  }

  /** `output` and `foo.bar` name directories. */
  lemma OutputIsDirectory(output: Path)
    requires output == OutputDirectory || output == Tmp + ["output", "foo.bar"]
    ensures OutputKind(output) == Directory
  {
  }

  /** Raw input file, raw output file: the output file itself. */
  lemma FileInputFileOutput()
    ensures ObfuscatedCodeWriter(NestedInputFile, File, OutputFile).GetOutputCodePath(NestedInputFile)
            == Ok(OutputFile)
  {
    OutputIsFile();
  }

  /** Raw input file, raw output directory: the input's name inside that directory. */
  lemma FileInputDirectoryOutput()
    ensures ObfuscatedCodeWriter(NestedInputFile, File, OutputDirectory).GetOutputCodePath(NestedInputFile)
            == Ok(Tmp + ["output", "test-input.js"])
  {
    OutputIsDirectory(OutputDirectory);
    assert BaseName(NestedInputFile) == "test-input.js";
    assert OutputDirectory + ["test-input.js"] == Tmp + ["output", "test-input.js"];
  }

  /** Raw input directory, raw output file: an error. */
  lemma DirectoryInputFileOutput()
    ensures ObfuscatedCodeWriter(InputDirectory, Directory, OutputFile).GetOutputCodePath(InputFile).Err?
  {
    OutputIsFile();
  }

  /** Raw input directory, raw output directory: the nested sub-path is kept. */
  lemma DirectoryInputDirectoryOutput()
    ensures ObfuscatedCodeWriter(InputDirectory, Directory, OutputDirectory).GetOutputCodePath(NestedInputFile)
            == Ok(Tmp + ["output", "nested", "test-input.js"])
  {
    OutputIsDirectory(OutputDirectory);
    assert InputDirectory < NestedInputFile;
    assert Relative(InputDirectory, NestedInputFile) == ["nested", "test-input.js"];
    assert OutputDirectory + ["nested", "test-input.js"] == Tmp + ["output", "nested", "test-input.js"];
  }

  /** An output directory named `foo.bar` is still a directory. */
  lemma DottedOutputDirectory()
    ensures ObfuscatedCodeWriter(InputDirectory, Directory, Tmp + ["output", "foo.bar"])
              .GetOutputCodePath(NestedInputFile)
            == Ok(Tmp + ["output", "foo.bar", "nested", "test-input.js"])
  {
    OutputIsDirectory(Tmp + ["output", "foo.bar"]);
    assert InputDirectory < NestedInputFile;
    assert Relative(InputDirectory, NestedInputFile) == ["nested", "test-input.js"];
    assert Tmp + ["output", "foo.bar"] + ["nested", "test-input.js"]
        == Tmp + ["output", "foo.bar", "nested", "test-input.js"];
  }

  /** No source-map name: the code path with `.map` appended. */
  lemma SourceMapBesideCode()
    ensures ObfuscatedCodeWriter(InputFile, File, OutputFile).GetOutputSourceMapPath(OutputFile, "")
            == Ok(Tmp + ["output", "test-output.js.map"])
  {
    assert Split("") == [];
    assert DirName(OutputFile) == OutputDirectory && BaseName(OutputFile) == "test-output.js";
    assert "test-output.js" + ".map" == "test-output.js.map";
    assert OutputDirectory + ["test-output.js.map"] == Tmp + ["output", "test-output.js.map"];
  }

  /** Dots in the code file's directory are left alone. */
  lemma SourceMapBesideCodeInDottedDirectory()
    ensures var code := Tmp + ["output.with.dot", "test-output.js"];
            ObfuscatedCodeWriter(Tmp + ["input.with.dot", "test-input.js"], File, code)
              .GetOutputSourceMapPath(code, "")
            == Ok(Tmp + ["output.with.dot", "test-output.js.map"])
  {
    var code := Tmp + ["output.with.dot", "test-output.js"];
    assert Split("") == [];
    assert DirName(code) == Tmp + ["output.with.dot"] && BaseName(code) == "test-output.js";
    assert "test-output.js" + ".map" == "test-output.js.map";
    assert Tmp + ["output.with.dot"] + ["test-output.js.map"] == Tmp + ["output.with.dot", "test-output.js.map"];
  }

  /** `foo`, `foo.js` and `foo.js.map` all name `foo.js.map` beside the code file. */
  lemma NamedSourceMap(name: string)
    requires name in ["foo", "foo.js", "foo.js.map"]
    ensures ObfuscatedCodeWriter(InputFile, File, OutputFile).GetOutputSourceMapPath(OutputFile, name)
            == Ok(Tmp + ["output", "foo.js.map"])
  {
    FooNamesAreOneSourceMap(name);
    SegmentIsItsOwnSplit(name);
    assert DirName(OutputFile) == OutputDirectory && DirName([name]) == [];
    assert OutputDirectory + [] + ["foo.js.map"] == Tmp + ["output", "foo.js.map"];
  }

  lemma FooNamesAreOneSourceMap(name: string)
    requires name in ["foo", "foo.js", "foo.js.map"]
    ensures IsSegment(name) && NormaliseSourceMapName(name) == "foo.js.map"
  {
  }

  /** A source-map name with a directory keeps it below the code file's directory. */
  lemma NamedSourceMapInSubdirectory()
    ensures ObfuscatedCodeWriter(InputFile, File, OutputFile)
              .GetOutputSourceMapPath(OutputFile, Join(["parent", "foo.js.map"]))
            == Ok(Tmp + ["output", "parent", "foo.js.map"])
  {
    assert IsSegment("parent") && IsSegment("foo.js.map");
    SplitJoin(["parent", "foo.js.map"]);
    assert DirName(OutputFile) == OutputDirectory;
    assert NormaliseSourceMapName("foo.js.map") == "foo.js.map";
    assert OutputDirectory + ["parent"] + ["foo.js.map"] == Tmp + ["output", "parent", "foo.js.map"];
  }

  /** An empty code path is refused. */
  lemma EmptyCodePath()
    ensures ObfuscatedCodeWriter(InputFile, File, OutputFile).GetOutputSourceMapPath([], "").Err?
  {
  }
}
