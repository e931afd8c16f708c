# TreeSitterSetup decision logic in Dafny

This project models the decision logic of `TreeSitterSetup` in
`treesitter_setup.py`. That class installs tree-sitter grammars. For each
supported language it clones the grammar repository, resolves the C/C++
sources from per-language layout rules, compiles and links a shared library
(`parser.so` on Unix, `parser.dll` on Windows), and records the language in a
persisted set of installed languages.

Everything outside the program is an input to the model:

- the platform;
- the disk, as a set of existing paths plus `glob`/`rglob` enumerations whose
  order is left open;
- the exit status of every command (`run: Command -> bool`);
- what the Windows registry, `vswhere` and `os.listdir` answer;
- the tools found on the search path;
- which clone directories already exist.

A command is a record (tool, source, object, includes, output). The build
methods return the commands they issue, in order, so that every property is
stated over those records. Iteration over a Python `set(...)` is modelled by
an unspecified choice (`:|`), so no proof depends on the order of a set.

Modules, one per file:

| file | module | contents |
|---|---|---|
| wrappers.dfy | Wrappers | `Option`, `Result` |
| paths.dfy | Paths | paths as component lists, `PurePath.suffix`/`stem`/`name`, ASCII `lower()` |
| seqs.dfy | Seqs | distinctness, list-as-set facts |
| languages.dfy | Languages | `LANGUAGE_CONFIGS`, the extension table, `_detect_language`, the language check of `parse_file` |
| layout.dfy | Layout | install-directory layout, artifact path, object-file names |
| toolchain.dfy | Toolchain | "latest" picks, architecture, MSVC setup decisions, dependency probe |
| filesystem.dfy | FileSystems | the disk snapshot and its glob enumerations |
| sources.dfy | Sources | `_get_source_files` |
| commands.dfy | Commands | command records, errors, the checked compile-then-link loops |
| unixbuild.dfy | UnixBuild | `_build_unix` |
| cleanup.dfy | Cleanup | `_cleanup_build_artifacts` |
| windowsbuild.dfy | WindowsBuild | `_build_windows`, `_build_windows_php`, `_build_windows_scanner` |
| builder.dfy | Builder | `_build_parser` |
| installer.dfy | Installer | the `TreeSitterSetup` class: state, load/save, clone, install, batch install |

Behaviour of the code that the model keeps, where a reader might expect
otherwise:

- **Loading an absent state file.** It keeps the current set rather than
  resetting it to empty. At construction the current set is empty, so the
  two agree there.
- **When cleanup runs.** Cleanup does not run after every build attempt:
  - the Unix build never cleans up;
  - the php/clang build cleans up only after a successful link;
  - the MSVC build cleans up in its `finally`, but not when locating the
    toolchain fails, since that error is raised before the `try`.
- **Duplicate objects.** Deduplication is of source paths, not of object
  files. Two sources with the same stem (for example `scanner.c` and
  `scanner.cc`) produce the same object path, so the link list can repeat
  an object (`Layout.ScannerObjectsCollide`).
- **Non-empty source sets.** A layout rule can resolve to an empty list.
  `_build_parser` then raises, before any command runs.
- **Letter case in globs.** On Windows, pathlib matches glob patterns without
  regard to case, so `PARSER.C` is a C source and `SCANNER.OBJ` is removed by
  cleanup there. The disk model has a `caseless` flag for this
  (`FileSystems.NameMatches`). The flag is not tied to the platform: every
  property proved about globs holds with either setting.
- **Missing tools.** Only Linux checks for `git`, `gcc` and `g++`. Windows
  only checks that `cl` can be started. Other platforms check nothing.

## Model

| member | source | states |
|---|---|---|
| Languages.ConfigsAgree | treesitter_setup.py:8-28 | the ordered language list and the URL table name the same languages, each once |
| Languages.ExtensionKeysWellFormed | treesitter_setup.py:575-597 | every key of the extension table is a dot followed by at least one character, contains no other dot, and is lower case |
| Languages.DetectLanguage | treesitter_setup.py:573-598 | a detected language is a value of the extension table and a supported grammar |
| Languages.DetectByExtension | treesitter_setup.py:574-598 | a final path component is recognised as `lang` if and only if it is a non-empty base followed by an ending that lower-cases to a table key mapped to `lang` |
| Languages.DetectedHasKnownExtension | treesitter_setup.py:574-598 | a recognised name always splits into a non-empty stem and a known ending |
| Languages.KnownExtensionDetected | treesitter_setup.py:574-598 | a non-empty stem followed by a known ending, in any letter case, is recognised as that ending's language |
| Languages.DetectIgnoresCase | treesitter_setup.py:574 | `src/Main.PY` is detected as python |
| Languages.DetectUsesLastSuffixOnly | treesitter_setup.py:574 | for `archive.tar.gz` only `.gz` is looked up |
| Languages.DetectSkipsDotFiles | treesitter_setup.py:574 | `docs/.bashrc` is not recognised, because a leading dot starts no suffix |
| Languages.ParseLanguage | treesitter_setup.py:561-566 | `parse_file` fails with ValueError exactly when no language is given and detection finds none; a given language is used as is; without one, the language used is exactly the one detected from the path, and it is supported |
| Paths.Suffix | treesitter_setup.py:574 | the suffix is empty, or it starts with a dot, has no other dot and ends the name; it is empty exactly when the name ends with a dot or has no dot after its first character |
| Paths.Stem | treesitter_setup.py:453 | stem followed by suffix gives back the name |
| Paths.FileName | treesitter_setup.py:574 | the final component contains no separator and is never `.`; a string that is already a single component other than `.` is its own name |
| Paths.FileNameOfChild | treesitter_setup.py:574 | the name of `a/b` is `b`, for any `a` and any component `b` other than the empty one and `.`: the component after the last separator is the one looked up |
| Paths.FileNameIgnoresTrailingSlash | treesitter_setup.py:574 | a trailing separator does not change the name: `a/b/` names `b` |
| Paths.NoSuffixExamples | treesitter_setup.py:574 | `.bashrc`, `notes.` and `Makefile` have no suffix |
| Paths.SuffixExamples | treesitter_setup.py:574 | `a.tar.gz` has suffix `.gz` and stem `a.tar`; `parser.c` has `.c` and `parser` |
| Layout.ArtifactPath | treesitter_setup.py:556 | the library `get_parser` loads lies directly in `build/<lang>` and is named `parser.dll` on Windows, `parser.so` elsewhere |
| Layout.ArtifactPathsSeparate | treesitter_setup.py:556 | two artifact paths are equal if and only if the languages are equal and both platforms are Windows or both are not; no artifact lies inside a clone |
| Layout.ObjectPath | treesitter_setup.py:453 | an object file lies directly in the build directory and is named after the source's stem plus the object extension |
| Layout.ObjectPathInjective | treesitter_setup.py:453 | two sources get the same object path if and only if their stems are equal, wherever they lie |
| Layout.ScannerObjectsCollide | treesitter_setup.py:478 | `scanner.c` and `scanner.cc` of one directory are compiled to the same object file |
| Toolchain.Latest | treesitter_setup.py:223-225 | `sorted(xs)[-1]`: None exactly for an empty list; otherwise a member that is greater than or equal to every candidate in string order |
| Toolchain.LexLeReflexive | treesitter_setup.py:223-225 | Python's string order puts every string at or below itself |
| Toolchain.LexLeTotal | treesitter_setup.py:223-225 | any two strings are comparable in Python's string order |
| Toolchain.LexLeTransitive | treesitter_setup.py:223-225 | Python's string order is transitive |
| Toolchain.LexLeAntisymmetric | treesitter_setup.py:223-225 | two strings each at or below the other are equal, so `sorted(...)[-1]` is well defined |
| Toolchain.LatestIgnoresOrder | treesitter_setup.py:223 | the pick does not depend on the order the candidates are listed in |
| Toolchain.TenVersions | treesitter_setup.py:198-200 | keeps exactly the keys that start with `10.` |
| Toolchain.LatestSdkVersion | treesitter_setup.py:189-204 | None exactly when no key starts with `10.`; otherwise such a key that is greater than or equal to every other such key |
| Toolchain.Arch | treesitter_setup.py:219 | `x64` exactly when the machine name ends in `64`, otherwise `x86` |
| Toolchain.ArchExamples | treesitter_setup.py:219 | AMD64, ARM64 and x86_64 select x64; x86 and i686 select x86 |
| Toolchain.SetupMsvc | treesitter_setup.py:208-274 | a missing Visual Studio is reported before anything else, then a missing SDK root or `10.` SDK version; success exactly when Visual Studio, the SDK root, a `10.` SDK version and a non-empty MSVC listing are all found; the toolchain then uses the latest of each and the computed architecture |
| Toolchain.MissingMembers | treesitter_setup.py:86-92 | a package is reported missing exactly when it is required and not on the search path |
| Toolchain.ProbeEach | treesitter_setup.py:90-92 | the `which` loop collects the missing packages in probing order |
| Toolchain.MissingPackages | treesitter_setup.py:86-98 | the Linux probe reports exactly the required packages not found, in order |
| Toolchain.CheckDependencies | treesitter_setup.py:51-106 | the run halts on Linux exactly when a required package is missing, on Windows exactly when `cl` cannot be started, and never elsewhere |
| FileSystems.GlobListsMatches | treesitter_setup.py:295 | a glob lists each matching child of the directory once and nothing else |
| FileSystems.RGlobListsMatches | treesitter_setup.py:318 | an rglob lists each matching entry below the directory once and nothing else |
| FileSystems.LowerCaseNameMatches | treesitter_setup.py:295 | a lower-case name matches a lower-case pattern, with or without regard to case, exactly when it ends with it |
| Sources.GetSourceFiles | treesitter_setup.py:290-319 | the `extend`/`append` sequence builds exactly the rule-by-rule source list; for php with `php/src/scanner.c` present, that file ends the list |
| Sources.SourceFiles | treesitter_setup.py:290-319 | typescript lists only files of its two globs; an existing explicit scanner `scanner.c` ends the php and yaml/markdown lists; under the default rule the list is empty exactly when both `src/*.c` and the recursive glob are |
| Sources.SourceFilesCounted | treesitter_setup.py:290-319 | counted with multiplicity, each rule group yields exactly its matches: typescript both directories when they exist, php and yaml/markdown the glob plus the explicit scanners, the default group `src/*.c` or else every `.c` below the clone |
| Sources.SourcesExistInClone | treesitter_setup.py:290-319 | every listed source exists and lies inside the clone |
| Sources.PhpScannerListedTwice | treesitter_setup.py:299-306 | with `php/src/scanner.c` present, php lists that file twice |
| Sources.DefaultEmptyOnlyWithoutCSources | treesitter_setup.py:315-318 | under the default rule the list is empty exactly when the clone holds no `.c` file at any depth |
| Sources.NoRepeatsOutsideScannerRules | treesitter_setup.py:292-298 | typescript and the default rule never list a source twice |
| Commands.UpToFailure | treesitter_setup.py:112-116 | checked commands run in order and stop at the first failure; every command ran exactly when all but the last succeeded, and all issued commands succeeded exactly when the whole plan did |
| Commands.CompileEach | treesitter_setup.py:452-475 | one loop over `set(sources)`: each source compiled at most once, nothing after the first failure, success exactly when every source was compiled successfully |
| Commands.CompileAllThenLink | treesitter_setup.py:393-414 | one checked compile loop, then the link of the objects in compile order, which runs only after every source compiled |
| Commands.CompileGroupsThenLink | treesitter_setup.py:452-509 | two checked compile loops over disjoint sets, the first set's sources before the second's, then the link, which runs only after every source compiled |
| Commands.LinkedExactlyOnSuccess | treesitter_setup.py:393-414 | when every command before the link is a compile, a compile-then-link build succeeds exactly when every command issued succeeded and the last is a link |
| Commands.LinkAfterPrefix | treesitter_setup.py:528-529 | successful commands without a link, followed by more: the whole succeeds and ends with a link exactly when the rest does |
| UnixBuild.ExtraIncludes | treesitter_setup.py:468-473 | at most one extra include, and none exactly for the languages without a layout rule of their own |
| UnixBuild.SourceSetsDisjoint | treesitter_setup.py:448-449 | no source is both a C and a C++ source; C sources get `cc` and C++ sources `c++` |
| UnixBuild.UnixCompile | treesitter_setup.py:452-500 | the compile record of a source compiles that source, with `cc` exactly for `.c` and `c++` otherwise, into `<stem>.o` in the build directory, with `src` first and one more include exactly for the languages with a layout rule |
| UnixBuild.UnixLink | treesitter_setup.py:502-509 | the link runs `c++` into `parser.so` in the build directory over the objects of the compiled sources, one per source, in compile order |
| UnixBuild.BuildUnix | treesitter_setup.py:447-509 | the commands are compile records for distinct `.c` then `.cc`/`.cpp` sources, stopping at the first failure; the link to `parser.so` of the objects in compile order runs only after every source compiled; success ends with that link succeeding; a failure is the error of the last command |
| UnixBuild.UnixLinkedExactlyOnSuccess | treesitter_setup.py:447-509 | a Unix build succeeds exactly when every command it issued succeeded and the last one is a link |
| UnixBuild.UnixCompileRecords | treesitter_setup.py:452-500 | each compile record compiles a listed `.c`, `.cc` or `.cpp` source, with `cc` exactly for `.c`, into `<stem>.o`, with `src` and the language's extra include; no source twice; no `cc` compile after a `c++` compile |
| UnixBuild.UnixSuccessLinksEverySource | treesitter_setup.py:502-509 | after a successful build every command succeeded, the last one links `parser.so` with `c++`, and every listed C or C++ source's object is among its inputs |
| Cleanup.UnlinkEach | treesitter_setup.py:513-517 | exactly the matches before the first failed unlink are removed, and nothing else; when every unlink succeeds all matches are gone |
| Cleanup.UnlinkedPrefix | treesitter_setup.py:513-517 | the matches it counts all unlink, and the next one, if any, fails |
| Cleanup.CleanupBuildArtifacts | treesitter_setup.py:511-517 | exactly the entries each extension's glob lists before its first failed unlink are removed; these are files of the build directory with one of the six extensions, and when every unlink succeeds all such files are |
| Cleanup.UnlinkedAreArtifacts | treesitter_setup.py:511-517 | the unlinked entries are glob matches, and all of them when no unlink fails |
| Cleanup.ArtifactShape | treesitter_setup.py:512-514 | whatever cleanup may remove exists, lies directly in the build directory, and matches one of the listed extensions under the disk's case rule |
| Cleanup.NotAnArtifactName | treesitter_setup.py:512 | neither library name matches a removed extension, with or without regard to case |
| Cleanup.LibrariesSurvive | treesitter_setup.py:511-517 | `parser.dll` and `parser.so` are never removed, whether or not globs ignore case |
| WindowsBuild.BuildWindowsPhp | treesitter_setup.py:389-415 | clang compiles each distinct source once to `<stem>.obj`, stopping at the first failure; the link to `parser.dll` of the objects in compile order runs only after all of them compiled; a failure is the error of the last command; cleanup runs exactly when the build succeeded |
| WindowsBuild.PhpLinkedExactlyOnSuccess | treesitter_setup.py:389-415 | the clang build succeeds exactly when every command it issued succeeded and the last one is a link |
| WindowsBuild.ClIncludes | treesitter_setup.py:346-353 | `src` comes first, followed by at most one more include directory |
| WindowsBuild.ClForced | treesitter_setup.py:360-363 | a header is forced in only for yaml and markdown, only when `php_only/src/scanner.h` exists, and then it is that existing header |
| WindowsBuild.ScannerCommands | treesitter_setup.py:417-445 | at most two commands: none exactly when `src/scanner.c` is missing, otherwise the scanner compile first, and the link second exactly when that compile succeeds |
| WindowsBuild.BuildWindowsScanner | treesitter_setup.py:417-445 | without `src/scanner.c` it fails without running anything; otherwise it runs the compile and, only if that succeeds, the link; success exactly when both succeed |
| WindowsBuild.BuildWindowsMsvc | treesitter_setup.py:326-387 | a missing toolchain fails before any command and without cleanup; otherwise `cl /LD` runs first and cleanup always runs; a failed `cl` falls back to the scanner build for yaml/markdown, whose commands are then exactly those of the scanner build, and fails otherwise, with `cl` the only command; success exactly when `cl` or the whole fallback succeeded; with the toolchain found, a failure is CompilationFailed outside yaml/markdown, ScannerCompilationFailed without `src/scanner.c`, and otherwise the CalledProcessError of the last command, which failed |
| WindowsBuild.BuildWindows | treesitter_setup.py:321-387 | php goes to clang and has exactly the clang build's outcome (compiles and link, no `cl`), with cleanup exactly on success; every other language has exactly the MSVC build's outcome (`cl /LD` first, success exactly when it or the fallback succeeds, and with the toolchain found the error kind of a failure fixed as for the MSVC build), with cleanup exactly when the toolchain is found; success ends with a command that produced `parser.dll` |
| Builder.BuildParser | treesitter_setup.py:276-288 | no sources means no command and a NoSourceFiles error; off Windows the outcome is exactly the Unix build's over the listed sources, on Windows exactly the clang build's for php and the MSVC build's otherwise, error kinds included; success ends with a successful command producing the platform's artifact; every failure follows a failed command, an empty list or a missing toolchain, and a CalledProcessError names the last command, which failed |
| Builder.UnixBuildOutcome | treesitter_setup.py:276-288 | a Unix build of the listed sources ends as the platform-independent build outcome says and is the run the build issues off Windows |
| Builder.PhpBuildOutcome | treesitter_setup.py:276-288 | the clang build of php ends as the build outcome says and is the run the build issues for php on Windows |
| Builder.MsvcBuildOutcome | treesitter_setup.py:276-288 | the MSVC build ends as the build outcome says and is the run the build issues for the other grammars on Windows |
| Installer.Loaded | treesitter_setup.py:39-45 | an absent file keeps the current set, an unreadable one gives the empty set, and a list gives exactly its names |
| Installer.ListOf | treesitter_setup.py:49 | `list(set)` holds every member exactly once |
| Installer.SucceededMembers | treesitter_setup.py:541-545 | a language is in the succeeded set if and only if its outcome is a success, and only visited languages are in it |
| Installer.SucceededSnoc | treesitter_setup.py:541-545 | one more outcome adds its language exactly when it is a success |
| Installer.NextNotSucceeded | treesitter_setup.py:541 | the language the batch tries next has not yet succeeded in it, since the table names each language once |
| Installer.KeptInstalledSnoc | treesitter_setup.py:523-525 | the batch keeps reporting success for every already-installed language it has visited |
| Installer.NoneUnsupportedSnoc | treesitter_setup.py:520-521 | the batch never meets an unsupported name |
| Installer.NamedLanguageSupported | treesitter_setup.py:541 | every language the batch visits is supported |
| Installer.TreeSitterSetup.constructor | treesitter_setup.py:31-37 | the object starts with exactly what loading the state file into the empty set gives |
| Installer.TreeSitterSetup.LoadInstalled | treesitter_setup.py:39-45 | the installed set becomes what the state file gives; the file is unchanged |
| Installer.TreeSitterSetup.SaveInstalled | treesitter_setup.py:47-49 | the file holds the whole set as a list without repeats, and loading it gives the set back; the set is unchanged |
| Installer.TreeSitterSetup.CloneParser | treesitter_setup.py:108-118 | an existing clone runs nothing; otherwise `git clone` (plus submodule init/update for typescript) runs, stopping at the first failure; success exactly when every command succeeded, returning the clone directory |
| Installer.CloneRun | treesitter_setup.py:108-118 | the clone commands issued contain no link |
| Installer.FreshAfterFailedClone | treesitter_setup.py:527-528 | a failed clone ends a fresh install with its error and no further command |
| Installer.FreshAfterBuild | treesitter_setup.py:527-529 | after a successful clone the install ends as the build of the clone directory ends, and the commands after the clone's are exactly those that build issued: the Unix compile-then-link run, the clang run for php on Windows or the MSVC run |
| Installer.FreshLinkedExactlyOnSuccess | treesitter_setup.py:519-533 | off Windows, and for php on Windows, a fresh install succeeds exactly when the clone yields sources and every command issued succeeded, the last being a link |
| Installer.FreshMsvcSucceeds | treesitter_setup.py:519-533 | for other languages on Windows, a fresh install succeeds exactly when the clone succeeds, it yields sources, and `cl /LD` or the scanner fallback succeeds with the toolchain found |
| Installer.FreshEndings | treesitter_setup.py:519-533 | a fresh install that succeeds ends with the successful command producing the artifact path; one that fails follows a failed command, an empty source list or a missing toolchain, and never refuses the name |
| Installer.TreeSitterSetup.InstallLanguage | treesitter_setup.py:519-533 | an unsupported name is refused with ValueError and runs nothing; an installed one succeeds and runs nothing; otherwise the clone commands come first, a failed clone ends the run with its error, and after a successful clone the rest ends as the build of the clone directory ends and is exactly the run that build issues, with the error kind that build reports (every compile of the listed sources before the link off Windows, the clang run for php on Windows, `cl /LD` and its fallback otherwise); any failure leaves the set and the file unchanged; success adds exactly that language and saves the set |
| Installer.BatchStep | treesitter_setup.py:541-545 | one more `install_language`, changing the set and the file as it promises, keeps the batch bookkeeping: the set is the initial set plus the successes, installed languages keep succeeding, no name is refused, each outcome is that of `install_language` for its language, and the file is saved when the set changed |
| Installer.TreeSitterSetup.InstallNext | treesitter_setup.py:541-545 | one step of the batch keeps its bookkeeping: the set grows by the successes, each outcome is that of `install_language` for its language, the file is saved when the set changed |
| Installer.TreeSitterSetup.InstallAllLanguages | treesitter_setup.py:535-545 | missing tools stop the run before any install; otherwise every language is tried in table order, and each outcome and its commands are exactly those of `install_language` for that language, judged by whether it was installed before the batch, so one failure does not affect the others; the final set is the initial set plus the successes; when the set changed the file holds it, otherwise the file is untouched |

## Left out

- pip, venv and `import tree_sitter` in `_check_dependencies` (lines 52-84): these install and load external packages.
- The Windows registry, `vswhere.exe` and the fallback registry scans in `find_vs_installation`: their answers are inputs (`WindowsHost.vsPath`, `sdkRoot`, `sdkKeys`, `msvcVersions`).
- The `os.environ` PATH/INCLUDE/LIB overrides and the `stdbool.h` write in `_setup_msvc_environment`: these are process-global effects. Only the decisions they are built from are modelled.
- The flag lists of every compiler and linker command, and the `sources.rsp` response file: a command record keeps the tool, sources, object, include directories, forced headers and output.
- The `/TP` branch for php in the `cl` command (line 357): it is unreachable, because php is dispatched to clang at lines 322-324.
- `get_parser`, the file reading in `parse_file`, and `show_installation_info`: these are runtime loading and console output. Only the artifact path and the language check are modelled.
- The `mkdir` calls in `_build_parser` and `install_all_languages`: directory creation is assumed to succeed.
- Console output and `sys.exit(1)`: a halting dependency check is modelled as a non-empty `missing` list, after which nothing is installed.
- Installer.Loaded: JSON payloads other than a list of strings are not modelled. `set()` of a JSON string or object would yield characters or keys; such a file counts as unreadable here.
- Installer.TreeSitterSetup.SaveInstalled: a failing write is not modelled. The file always receives the list.
- Paths.FileName: only `/` separates components; Windows drive and backslash syntax are not modelled.
- Paths.Lower: only ASCII letters are lower-cased. Every key of the extension table is ASCII.
- Case-insensitive existence checks: `Exists` compares paths exactly. On a case-insensitive disk `exists()` would also find, say, `SRC/SCANNER.C`; only glob matching is case-aware here.
- Cleanup.CleanupBuildArtifacts: each glob is evaluated on the disk as it was before cleanup. Since no file matches two of the six extensions, this changes nothing.
- Builder.BuildParser: `cleaned` reports that cleanup ran. Its effect on the disk is `Cleanup.CleanupBuildArtifacts`, which is not composed into the build.
- Installer.TreeSitterSetup.CloneParser: whether the clone directory exists is the `cloned` input, fixed for the whole run; a directory left behind by a failed clone is not tracked.
- The Windows scanner fallback links `parser.obj`, which no modelled command produces. Whether that file exists is left to the link command's oracle.
