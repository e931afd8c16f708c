/** `_build_unix`: compile every distinct C source with `cc`, then every
    distinct C++ source with `c++`, each to `build/<lang>/<stem>.o`, and link
    the objects into `parser.so` with `c++`. Every command is checked: the
    first one that fails ends the build. */
module UnixBuild {
  import opened Wrappers
  import opened Paths
  import opened Seqs
  import opened Layout
  import opened Sources
  import opened Commands

  /** The include directory added after `<clone>/src` for the languages that
      need one. */
  function ExtraIncludes(lang: string, parserDir: Path): (r: seq<Path>)
    ensures |r| <= 1
    ensures r == [] <==> UsesDefaultLayout(lang)
  {
    if lang == "typescript" then [TsDir(parserDir)]
    else if HasScannerBesideSrc(lang) then [parserDir]
    else if lang == "php" then [parserDir + ["php_only", "src"]]
    else []
  }

  /** `cc` for a `.c` suffix, `c++` for the others. */
  function UnixTool(src: Path): Tool
  {
    if Suffix(Name(src)) == ".c" then Cc else Cxx
  }

  /** The compile command issued for one source. */
  function UnixCompile(lang: string, parserDir: Path, buildDir: Path, src: Path): (r: Command)
    ensures r.Compile? && r.source == src
    ensures r.tool == Cc <==> Suffix(Name(src)) == ".c"
    ensures r.tool == Cc || r.tool == Cxx
    ensures IsChild(r.obj, buildDir) && Name(r.obj) == Stem(Name(src)) + ".o"
    ensures r.includes != [] && r.includes[0] == SrcDir(parserDir)
    ensures |r.includes| == 1 <==> UsesDefaultLayout(lang)
  {
    Compile(UnixTool(src), src, ObjectPath(buildDir, src, ".o"),
            [SrcDir(parserDir)] + ExtraIncludes(lang, parserDir))
  }

  /** `set(c_sources)`. */
  function CSources(srcFiles: seq<Path>): set<Path>
  {
    set f | f in srcFiles && Suffix(Name(f)) == ".c"
  }

  /** `set(cpp_sources)`. */
  function CppSources(srcFiles: seq<Path>): set<Path>
  {
    set f | f in srcFiles && (Suffix(Name(f)) == ".cc" || Suffix(Name(f)) == ".cpp")
  }

  /** The object files of the compiled sources, in compile order. */
  function ObjectsOfSources(buildDir: Path, order: seq<Path>): seq<Path>
  {
    seq(|order|, i requires 0 <= i < |order| => ObjectPath(buildDir, order[i], ".o"))
  }

  /** The link command once every source compiled. */
  function UnixLink(buildDir: Path, order: seq<Path>): (r: Command)
    ensures r.Link? && r.tool == Cxx
    ensures IsChild(r.output, buildDir) && Name(r.output) == "parser.so"
    ensures |r.objects| == |order|
    ensures forall i :: 0 <= i < |order| ==> r.objects[i] == ObjectPath(buildDir, order[i], ".o")
  {
    Link(Cxx, buildDir + ["parser.so"], ObjectsOfSources(buildDir, order))
  }

  /** The compile command of each source, as the loops issue them. */
  function UnixCompiler(lang: string, parserDir: Path, buildDir: Path): Path -> Command
  {
    src => UnixCompile(lang, parserDir, buildDir, src)
  }

  function UnixLinker(buildDir: Path): seq<Path> -> Command
  {
    order => UnixLink(buildDir, order)
  }

  /** Every source `_build_unix` compiles. */
  function Compilable(srcFiles: seq<Path>): set<Path>
  {
    CSources(srcFiles) + CppSources(srcFiles)
  }

  /** No source is both a C and a C++ source, and the two sets get different
      compilers. */
  lemma SourceSetsDisjoint(srcFiles: seq<Path>)
    ensures CSources(srcFiles) !! CppSources(srcFiles)
    ensures forall p :: p in CSources(srcFiles) ==> UnixTool(p) == Cc
    ensures forall p :: p in CppSources(srcFiles) ==> UnixTool(p) == Cxx
  {
    assert ".c" != ".cc" && ".c" != ".cpp";
  }

  /** The compile commands of `_build_unix`: each compilable source at most
      once, every C source before every C++ source, each to its `<stem>.o`,
      followed by at most one more command. */
  ghost predicate UnixShape(lang: string, parserDir: Path, buildDir: Path, srcFiles: seq<Path>,
                            order: seq<Path>, cmds: seq<Command>)
  {
    && |order| <= |cmds| <= |order| + 1
    && Issued(UnixCompiler(lang, parserDir, buildDir), order, cmds)
    && Distinct(order)
    && Grouped(order, CSources(srcFiles), CppSources(srcFiles))
  }

  /** How a Unix build of `srcFiles` ends: the compiles have the shape
      above, the link of the objects in compile order runs only once every
      compilable source compiled, a success ends with that link succeeding,
      and a failure is the `CalledProcessError` of the last command. */
  ghost predicate UnixOutcome(lang: string, parserDir: Path, buildDir: Path, srcFiles: seq<Path>,
                              run: Command -> bool, order: seq<Path>, cmds: seq<Command>,
                              r: Result<(), Error>)
  {
    && UnixShape(lang, parserDir, buildDir, srcFiles, order, cmds)
    && CompileThenLink(Compilable(srcFiles), UnixLink(buildDir, order), run, order, cmds, r.Success?)
    && (r.Success? ==> cmds[|cmds| - 1] == UnixLink(buildDir, order) && run(cmds[|cmds| - 1]))
    && (r.Failure? ==> cmds != [] && r.error == CommandFailed(cmds[|cmds| - 1]))
  }

  /** `_build_unix`, given the listed sources. `order` is the order in which
      the sources were compiled (set iteration order is left open), `cmds`
      the commands issued; a failing command raises `CalledProcessError`. */
  method BuildUnix(lang: string, parserDir: Path, buildDir: Path, srcFiles: seq<Path>, run: Command -> bool)
    returns (order: seq<Path>, cmds: seq<Command>, r: Result<(), Error>)
    ensures UnixOutcome(lang, parserDir, buildDir, srcFiles, run, order, cmds, r)
  {
    SourceSetsDisjoint(srcFiles);
    var ok;
    order, cmds, ok := CompileGroupsThenLink(CSources(srcFiles), CppSources(srcFiles),
                                             UnixCompiler(lang, parserDir, buildDir),
                                             UnixLinker(buildDir), run);
    r := if ok then Success(()) else Failure(CommandFailed(cmds[|cmds| - 1]));
  }

  /** A Unix build succeeded exactly when every command it issued succeeded
      and the last one was a link. */
  lemma UnixLinkedExactlyOnSuccess(lang: string, parserDir: Path, buildDir: Path, srcFiles: seq<Path>,
                                   run: Command -> bool, order: seq<Path>, cmds: seq<Command>,
                                   r: Result<(), Error>)
    requires UnixOutcome(lang, parserDir, buildDir, srcFiles, run, order, cmds, r)
    ensures r.Success? <==> cmds != [] && AllSucceed(cmds, run) && cmds[|cmds| - 1].Link?
  {
    LinkedExactlyOnSuccess(Compilable(srcFiles), UnixCompiler(lang, parserDir, buildDir),
                           UnixLink(buildDir, order), run, order, cmds, r.Success?);
  }

  /** The compile records of a Unix build, one by one: each compiles a listed
      `.c`, `.cc` or `.cpp` source, with `cc` exactly for `.c`, to its
      `<stem>.o`, with `src` and the language's extra include; no source is
      compiled twice, and no `cc` compile follows a `c++` compile. */
  lemma {:induction false} UnixCompileRecords(lang: string, parserDir: Path, buildDir: Path,
                                              srcFiles: seq<Path>, order: seq<Path>, cmds: seq<Command>)
    requires UnixShape(lang, parserDir, buildDir, srcFiles, order, cmds)
    ensures forall i :: 0 <= i < |order| ==>
              cmds[i].Compile? && cmds[i].source == order[i] && order[i] in srcFiles &&
              Suffix(Name(order[i])) in [".c", ".cc", ".cpp"]
    ensures forall i :: 0 <= i < |order| ==> (cmds[i].tool == Cc <==> Suffix(Name(order[i])) == ".c")
    ensures forall i :: 0 <= i < |order| ==>
              cmds[i].obj == ObjectPath(buildDir, order[i], ".o") &&
              cmds[i].includes == [SrcDir(parserDir)] + ExtraIncludes(lang, parserDir)
    ensures forall i, j :: 0 <= i < j < |order| ==> cmds[i].source != cmds[j].source
    ensures forall i, j :: 0 <= i < j < |order| && cmds[i].tool == Cxx ==> cmds[j].tool == Cxx
  {
    var cSet, cppSet := CSources(srcFiles), CppSources(srcFiles);
    SourceSetsDisjoint(srcFiles);
    forall i | 0 <= i < |order|
      ensures cmds[i] == UnixCompile(lang, parserDir, buildDir, order[i])
      ensures order[i] in cSet || order[i] in cppSet
    {
      assert order[i] in order;
    }
    forall i, j | 0 <= i < j < |order| && cmds[i].tool == Cxx
      ensures cmds[j].tool == Cxx
    {
      assert order[i] in cppSet;
    }
  }

  /** A build that ends without an error has run every command successfully,
      its last command links `parser.so`, and every listed source with a C or
      C++ suffix contributes its object file to that link. */
  lemma {:induction false} UnixSuccessLinksEverySource(lang: string, parserDir: Path, buildDir: Path,
                                                       srcFiles: seq<Path>, run: Command -> bool,
                                                       order: seq<Path>, cmds: seq<Command>)
    requires UnixShape(lang, parserDir, buildDir, srcFiles, order, cmds)
    requires CompileThenLink(Compilable(srcFiles), UnixLink(buildDir, order), run, order, cmds, true)
    ensures AllSucceed(cmds, run)
    ensures cmds[|cmds| - 1] == Link(Cxx, buildDir + ["parser.so"], cmds[|cmds| - 1].objects)
    ensures forall f :: f in srcFiles && Suffix(Name(f)) in [".c", ".cc", ".cpp"] ==>
              ObjectPath(buildDir, f, ".o") in cmds[|cmds| - 1].objects
  {
    var objs := ObjectsOfSources(buildDir, order);
    forall f | f in srcFiles && Suffix(Name(f)) in [".c", ".cc", ".cpp"]
      ensures ObjectPath(buildDir, f, ".o") in objs
    {
      assert f in Compilable(srcFiles);
      assert f in Elements(order);
      var i :| 0 <= i < |order| && order[i] == f;
      assert objs[i] == ObjectPath(buildDir, f, ".o");
    }
  }
}
