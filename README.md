# ObfuscatedCodeWriter output paths, in Dafny

This project models the output-path resolver of the javascript-obfuscator
CLI's `ObfuscatedCodeWriter`, as its unit tests pin it down. A writer is built
once from the raw input path the user gave (one file or a directory tree) and
the raw `output` option (one file or a directory). It answers two queries:

- `getOutputCodePath(inputPath)`: where the obfuscated code of one input file
  goes. The answer depends on the input kind and the output kind:
  - file to file: the output path, verbatim;
  - file to directory: the directory plus the input file's name;
  - directory to file: an error;
  - directory to directory: the output root plus the file's sub-path below
    the input root.
- `getOutputSourceMapPath(outputCodePath, sourceMapFileName?)`: where the
  companion source map goes. With no name, it is the code path with `.map`
  appended. With a name, it goes in the code file's directory, keeps any
  sub-directories of the name, and its file name is completed to `.js.map`.
  An empty code path is an error.

Files:

- `paths.dfy` (module `Paths`): paths as sequences of segments over one
  separator. `Split` reads a path string, `Join` writes one, and `PathJoin`
  is Node's `path.join` on plain segments. `ExtName` is Node's
  `path.extname` on one segment. The lemmas show that `Split` undoes `Join`,
  that `path.join` concatenates the segments of its parts, that appending to
  the last segment appends to the string, and when a name has the `.js`
  extension.
- `code_writer.dfy` (module `CliUtils`): the writer. It is a datatype holding
  the raw input path, the input's filesystem kind and the raw output path.
  It has the output classifier, the source-map name normaliser and the two
  queries. Each query's contract states its whole decision table.
- `code_writer_cases.dfy` (module `ObfuscatedCodeWriterCases`): each test
  variant of the unit-test file as a lemma over the same concrete paths.

Design decisions:

- The kind of the raw input path is taken as given: a constructor argument,
  `File` or `Directory`. The tests do not show when or how the original
  finds it; the source-map cases build writers on input paths that do not
  exist and still expect success.
- The kind of the raw output path is read from its text, because the tests
  never create the output. A last segment whose extension is a script
  extension (`.js`) names a file. Anything else names a directory, including
  dotted names such as `foo.bar`. Classifying by existence checks and
  trailing separators instead would fail the tests:
  `test/tmp/output/test-output.js` does not exist and has no trailing
  separator, yet it must be a file.
- Segment sequences stand for path strings. `Split(Join(p)) == p` for
  well-formed `p` (`Paths.SplitJoin`), so two paths are equal exactly when
  their strings are. That is what the tests compare with `assert.equal`.
- The source-map name is a raw string, because the resolver splits it at
  separators itself. A name that is empty, or holds only separators, counts
  as no name.
- The name suffix rule is three-way: `.js.map` is kept, `.js` gets `.map`,
  anything else gets `.js.map`. The tests pin only `foo`, `foo.js` and
  `foo.js.map`, and all three rules agree with them. Other dotted names
  (`foo.min`) follow the same rule.

## Model

| member | source | states |
|---|---|---|
| `CliUtils.ObfuscatedCodeWriter.GetOutputCodePath` | test/unit-tests/cli/utils/ObfuscatedCodeWriter.spec.ts:23-147 | fails exactly for a directory input with a file output; file to file gives the output path verbatim; into a directory, the result lies under it and keeps the input file's name, directly inside it for a file input; for a tree input, the result's sub-path below the output root equals the file's sub-path below the input root |
| `CliUtils.ObfuscatedCodeWriter.GetOutputSourceMapPath` | test/unit-tests/cli/utils/ObfuscatedCodeWriter.spec.ts:204-366 | fails exactly when the code path is empty; otherwise ends in `.map` at or below the code file's directory; with no name, its string is the code path's string plus `.map` and the directory is unchanged; with a name, the name's sub-directories come in order below the code file's directory and the file name is the normalised name |
| `CliUtils.OutputKindIff` | test/unit-tests/cli/utils/ObfuscatedCodeWriter.spec.ts:120-147 | a raw output path names a file exactly when its last segment ends in `.js` after at least one other character; a dot elsewhere (`foo.bar`) means a directory |
| `CliUtils.NormaliseSourceMapName` | test/unit-tests/cli/utils/ObfuscatedCodeWriter.spec.ts:251-321 | the result ends in `.js.map`, extends the name by at most seven characters, and equals the name exactly when the name already ends in `.js.map` |
| `CliUtils.NormaliseSourceMapNameIdempotent` | test/unit-tests/cli/utils/ObfuscatedCodeWriter.spec.ts:299-321 | normalising an already normalised source-map name changes nothing |
| `CliUtils.BareStemSourceMapName` | test/unit-tests/cli/utils/ObfuscatedCodeWriter.spec.ts:251-273 | for any stem not ending in `.js` or `.js.map`, the whole `.js.map` extension is appended |
| `CliUtils.ScriptStemSourceMapName` | test/unit-tests/cli/utils/ObfuscatedCodeWriter.spec.ts:275-321 | for every stem, the stem plus `.js` and the stem plus `.js.map` both normalise to the stem plus `.js.map` |
| `Paths.ExtName` | test/unit-tests/cli/utils/ObfuscatedCodeWriter.spec.ts:120-130 | a name has an extension exactly when it is not `..` and has a dot after its first character; the extension is then the dot-led, dot-free suffix, that is, from the last dot on (`foo.bar` has `.bar`) |
| `Paths.ScriptExtensionIff` | test/unit-tests/cli/utils/ObfuscatedCodeWriter.spec.ts:26 | a name's extension is `.js` exactly when it ends in `.js` and has a character before that dot |
| `Paths.Relative` | test/unit-tests/cli/utils/ObfuscatedCodeWriter.spec.ts:91-118 | the sub-path below a root, put back after the root, gives the whole path |
| `Paths.DirName` | test/unit-tests/cli/utils/ObfuscatedCodeWriter.spec.ts:251-273 | a path is its directory followed by its base name |
| `Paths.SplitJoin` | test/unit-tests/cli/utils/ObfuscatedCodeWriter.spec.ts:327 | reading back a written well-formed path gives the same segments, so a name such as `parent/foo.js.map` splits into its parts |
| `Paths.SplitAround` | test/unit-tests/cli/utils/ObfuscatedCodeWriter.spec.ts:327 | splitting a string at a separator splits the text on each side independently |
| `Paths.PathJoinConcat` | test/unit-tests/cli/utils/ObfuscatedCodeWriter.spec.ts:24-27 | `path.join` of a first part and the rest is the first part's segments followed by the join of the rest |
| `Paths.PathJoinOfSegments` | test/unit-tests/cli/utils/ObfuscatedCodeWriter.spec.ts:327 | `path.join` of well-formed segments is those segments |
| `Paths.JoinExtendLast` | test/unit-tests/cli/utils/ObfuscatedCodeWriter.spec.ts:205-226 | appending to the last segment appends to the path string, so the default map path is the code path string plus `.map` |
| `ObfuscatedCodeWriterCases.JoinUnderTmp` | test/unit-tests/cli/utils/ObfuscatedCodeWriter.spec.ts:12-27 | `path.join("test/tmp", ...parts)` is the segments `test`, `tmp` followed by the parts |
| `ObfuscatedCodeWriterCases.InputPathsAreJoins` | test/unit-tests/cli/utils/ObfuscatedCodeWriter.spec.ts:70-71 | the input paths of the cases are the tests' `path.join` of `test/tmp` with `input`, `nested` and `test-input.js` |
| `ObfuscatedCodeWriterCases.OutputPathsAreJoins` | test/unit-tests/cli/utils/ObfuscatedCodeWriter.spec.ts:120-130 | the raw output paths of the cases, `output`, `test-output.js`, `foo.bar` and `output.with.dot`, are the tests' `path.join` expressions |
| `ObfuscatedCodeWriterCases.ExpectedCodePathsAreJoins` | test/unit-tests/cli/utils/ObfuscatedCodeWriter.spec.ts:91-130 | the expected code paths of the cases are the tests' `path.join` expressions |
| `ObfuscatedCodeWriterCases.ExpectedSourceMapPathsAreJoins` | test/unit-tests/cli/utils/ObfuscatedCodeWriter.spec.ts:204-345 | the expected source-map paths of the cases are the tests' `path.join` expressions |
| `ObfuscatedCodeWriterCases.FileInputFileOutput` | test/unit-tests/cli/utils/ObfuscatedCodeWriter.spec.ts:23-44 | file input, file output: the output file path |
| `ObfuscatedCodeWriterCases.FileInputDirectoryOutput` | test/unit-tests/cli/utils/ObfuscatedCodeWriter.spec.ts:46-67 | file input, output directory: `test/tmp/output/test-input.js` |
| `ObfuscatedCodeWriterCases.DirectoryInputFileOutput` | test/unit-tests/cli/utils/ObfuscatedCodeWriter.spec.ts:69-89 | directory input, file output: an error |
| `ObfuscatedCodeWriterCases.DirectoryInputDirectoryOutput` | test/unit-tests/cli/utils/ObfuscatedCodeWriter.spec.ts:91-118 | directory input, output directory: `test/tmp/output/nested/test-input.js` |
| `ObfuscatedCodeWriterCases.DottedOutputDirectory` | test/unit-tests/cli/utils/ObfuscatedCodeWriter.spec.ts:120-147 | output directory `foo.bar`: `test/tmp/output/foo.bar/nested/test-input.js` |
| `ObfuscatedCodeWriterCases.OutputIsFile` | test/unit-tests/cli/utils/ObfuscatedCodeWriter.spec.ts:26 | `test/tmp/output/test-output.js` names a file |
| `ObfuscatedCodeWriterCases.OutputIsDirectory` | test/unit-tests/cli/utils/ObfuscatedCodeWriter.spec.ts:123 | `test/tmp/output` and `test/tmp/output/foo.bar` name directories |
| `ObfuscatedCodeWriterCases.SourceMapBesideCode` | test/unit-tests/cli/utils/ObfuscatedCodeWriter.spec.ts:205-226 | no name: `test/tmp/output/test-output.js.map` |
| `ObfuscatedCodeWriterCases.SourceMapBesideCodeInDottedDirectory` | test/unit-tests/cli/utils/ObfuscatedCodeWriter.spec.ts:228-249 | no name, dotted directory: `test/tmp/output.with.dot/test-output.js.map` |
| `ObfuscatedCodeWriterCases.NamedSourceMap` | test/unit-tests/cli/utils/ObfuscatedCodeWriter.spec.ts:251-321 | names `foo`, `foo.js` and `foo.js.map` all give `test/tmp/output/foo.js.map` |
| `ObfuscatedCodeWriterCases.FooNamesAreOneSourceMap` | test/unit-tests/cli/utils/ObfuscatedCodeWriter.spec.ts:251-321 | `foo`, `foo.js` and `foo.js.map` are segments that all normalise to `foo.js.map` |
| `ObfuscatedCodeWriterCases.NamedSourceMapInSubdirectory` | test/unit-tests/cli/utils/ObfuscatedCodeWriter.spec.ts:323-345 | name `parent/foo.js.map`: `test/tmp/output/parent/foo.js.map` |
| `ObfuscatedCodeWriterCases.EmptyCodePath` | test/unit-tests/cli/utils/ObfuscatedCodeWriter.spec.ts:347-366 | an empty code path is an error |

## Left out

- The implementation file `src/cli/utils/ObfuscatedCodeWriter.ts` is not part of this model. The behaviour modelled is what its unit tests assert.
- The case with no `output` option. Every test passes one, so `GetOutputCodePath` requires a non-empty output path.
- Input files that are not strictly below a directory-kind raw input. No test covers them, so `GetOutputCodePath` requires the input root to be a proper prefix of the file path in the directory-to-directory case.
- How the original finds the kind of the raw input path. The model takes it as the `inputKind` argument.
- Resolution of `.` and `..` segments, absolute paths, drive letters and trailing separators by Node's `path.join` and `path.normalize`. There is one separator and plain segments.
- The Win32-only test branch, which depends on the platform, `__dirname` and absolute paths.
- Writing code and map files, the obfuscation itself, the CLI driver and the directory walker. These are I/O or sit outside this component.
- The error values are distinct constructors. The original throws an `Error` in both failure cases; the tests do not tell which kind.
- The test scaffolding: directory creation, file writes, clean-up and the test framework.
