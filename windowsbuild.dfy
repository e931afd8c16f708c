/** `_build_windows` and its two helpers: php is built with `clang`, object
    by object; every other grammar goes through one `cl /LD` invocation after
    the MSVC toolchain has been located, with a separate scanner compile and
    `link` as the fallback for yaml and markdown. Build-directory cleanup
    runs on the paths that reach it, which `cleaned` reports. */
module WindowsBuild {
  import opened Wrappers
  import opened Paths
  import opened Seqs
  import opened Layout
  import opened FileSystems
  import opened Sources
  import opened Toolchain
  import opened Commands

  /** The php-only header directory both toolchains add for php. */
  function PhpOnlyDir(parserDir: Path): Path
  {
    parserDir + ["php_only", "src"]
  }

  function DllPath(buildDir: Path): Path
  {
    buildDir + ["parser.dll"]
  }

  /** `clang -c <src> -o <build>/<stem>.obj` with the php-only include. */
  function PhpCompile(parserDir: Path, buildDir: Path, src: Path): Command
  {
    Compile(Clang, src, ObjectPath(buildDir, src, ".obj"), [PhpOnlyDir(parserDir)])
  }

  /** `clang -shared -o parser.dll` over the objects, in compile order. */
  function PhpLink(buildDir: Path, order: seq<Path>): Command
  {
    Link(Clang, DllPath(buildDir),
         seq(|order|, i requires 0 <= i < |order| => ObjectPath(buildDir, order[i], ".obj")))
  }

  function PhpCompiler(parserDir: Path, buildDir: Path): Path -> Command
  {
    src => PhpCompile(parserDir, buildDir, src)
  }

  function PhpLinker(buildDir: Path): seq<Path> -> Command
  {
    order => PhpLink(buildDir, order)
  }

  /** How the clang build of php ends: each distinct listed file compiled
      once with clang, in `order`; the link of the objects in that order runs
      only once every file compiled; a success ends with that link
      succeeding, and a failure is the `CalledProcessError` of the last
      command. */
  ghost predicate PhpOutcome(parserDir: Path, buildDir: Path, cFiles: seq<Path>, run: Command -> bool,
                             order: seq<Path>, cmds: seq<Command>, r: Result<(), Error>)
  {
    && |order| <= |cmds| <= |order| + 1 && Issued(PhpCompiler(parserDir, buildDir), order, cmds)
    && Distinct(order) && (forall p :: p in order ==> p in cFiles)
    && CompileThenLink(Elements(cFiles), PhpLink(buildDir, order), run, order, cmds, r.Success?)
    && (r.Success? ==> cmds[|cmds| - 1] == PhpLink(buildDir, order) && run(cmds[|cmds| - 1]))
    && (r.Failure? ==> cmds != [] && r.error == CommandFailed(cmds[|cmds| - 1]))
  }

  /** `_build_windows_php`: every distinct listed file compiled once, in an
      order left open, then linked; cleanup runs only after a successful link
      (a failing command raises before it). */
  method BuildWindowsPhp(parserDir: Path, buildDir: Path, cFiles: seq<Path>, run: Command -> bool)
    returns (order: seq<Path>, cmds: seq<Command>, r: Result<(), Error>, cleaned: bool)
    ensures PhpOutcome(parserDir, buildDir, cFiles, run, order, cmds, r)
    ensures cleaned <==> r.Success?
  {
    var ok;
    order, cmds, ok := CompileAllThenLink(Elements(cFiles), PhpCompiler(parserDir, buildDir),
                                          PhpLinker(buildDir), run);
    r := if ok then Success(()) else Failure(CommandFailed(cmds[|cmds| - 1]));
    cleaned := ok;
  }

  /** The clang build of php succeeded exactly when every command it issued
      succeeded and the last one was a link. */
  lemma PhpLinkedExactlyOnSuccess(parserDir: Path, buildDir: Path, cFiles: seq<Path>, run: Command -> bool,
                                  order: seq<Path>, cmds: seq<Command>, r: Result<(), Error>)
    requires PhpOutcome(parserDir, buildDir, cFiles, run, order, cmds, r)
    ensures r.Success? <==> cmds != [] && AllSucceed(cmds, run) && cmds[|cmds| - 1].Link?
  {
    LinkedExactlyOnSuccess(Elements(cFiles), PhpCompiler(parserDir, buildDir), PhpLink(buildDir, order),
                           run, order, cmds, r.Success?);
  }

  /** The `/I` directories of the `cl` command: `src`, then the nested
      typescript grammar or the clone root for yaml and markdown. */
  function ClIncludes(lang: string, parserDir: Path): (r: seq<Path>)
    ensures 1 <= |r| <= 2 && r[0] == SrcDir(parserDir)
  {
    [SrcDir(parserDir)] +
    (if lang == "typescript" then [TsDir(parserDir)]
     else if HasScannerBesideSrc(lang) then [parserDir]
     else [])
  }

  /** The `/FI` header forced in for yaml and markdown when the clone has one. */
  function ClForced(lang: string, parserDir: Path, fs: FileSystem): (r: seq<Path>)
    ensures |r| <= 1
    ensures forall h :: h in r ==> Exists(fs, h) && Name(h) == "scanner.h"
    ensures r != [] <==> HasScannerBesideSrc(lang) && Exists(fs, PhpOnlyDir(parserDir) + ["scanner.h"])
  {
    if HasScannerBesideSrc(lang) && Exists(fs, PhpOnlyDir(parserDir) + ["scanner.h"])
    then [PhpOnlyDir(parserDir) + ["scanner.h"]]
    else []
  }

  function ClDllCommand(lang: string, parserDir: Path, buildDir: Path, cFiles: seq<Path>, fs: FileSystem): Command
  {
    ClDll(DllPath(buildDir), cFiles, ClIncludes(lang, parserDir), ClForced(lang, parserDir, fs))
  }

  function ScannerSource(parserDir: Path): Path
  {
    SrcDir(parserDir) + ["scanner.c"]
  }

  /** `cl /c` of the scanner alone into `scanner.obj`. */
  function ScannerCompile(parserDir: Path, buildDir: Path): Command
  {
    Compile(Cl, ScannerSource(parserDir), buildDir + ["scanner.obj"], [SrcDir(parserDir)])
  }

  /** `link /DLL` of `parser.obj` and `scanner.obj` into `parser.dll`. */
  function ScannerLink(buildDir: Path): Command
  {
    Link(MsLink, DllPath(buildDir), [buildDir + ["parser.obj"], buildDir + ["scanner.obj"]])
  }

  /** The commands `_build_windows_scanner` issues: none without the scanner
      source, otherwise its compile and, when that succeeds, the link. */
  function ScannerCommands(parserDir: Path, buildDir: Path, fs: FileSystem, run: Command -> bool): (r: seq<Command>)
    ensures |r| <= 2
    ensures r != [] <==> Exists(fs, ScannerSource(parserDir))
    ensures r != [] ==> r[0] == ScannerCompile(parserDir, buildDir)
    ensures |r| == 2 <==> Exists(fs, ScannerSource(parserDir)) && run(ScannerCompile(parserDir, buildDir))
    ensures |r| == 2 ==> r[1] == ScannerLink(buildDir)
  {
    if !Exists(fs, ScannerSource(parserDir)) then []
    else if run(ScannerCompile(parserDir, buildDir)) then [ScannerCompile(parserDir, buildDir), ScannerLink(buildDir)]
    else [ScannerCompile(parserDir, buildDir)]
  }

  /** `_build_windows_scanner`: compile the scanner and link, both checked;
      without `src/scanner.c` the scanner build fails outright. */
  method BuildWindowsScanner(lang: string, parserDir: Path, buildDir: Path, fs: FileSystem, run: Command -> bool)
    returns (r: Result<(), Error>, cmds: seq<Command>)
    ensures !Exists(fs, ScannerSource(parserDir)) ==> r == Failure(ScannerCompilationFailed(lang))
    ensures cmds == ScannerCommands(parserDir, buildDir, fs, run)
    ensures r.Success? <==> cmds != [] && AllSucceed(cmds, run) && cmds[|cmds| - 1] == ScannerLink(buildDir)
    ensures cmds != [] ==> r == (if run(cmds[|cmds| - 1]) then Success(()) else Failure(CommandFailed(cmds[|cmds| - 1])))
  {
    if !Exists(fs, ScannerSource(parserDir)) {
      return Failure(ScannerCompilationFailed(lang)), [];
    }
    var compile := ScannerCompile(parserDir, buildDir);
    cmds := [compile];
    if !run(compile) {
      return Failure(CommandFailed(compile)), cmds;
    }
    var link := ScannerLink(buildDir);
    cmds := cmds + [link];
    r := if run(link) then Success(()) else Failure(CommandFailed(link));
  }

  /** When the MSVC build of a grammar other than php succeeds: the toolchain
      is found, and either `cl /LD` succeeds or, for yaml and markdown, the
      scanner source exists and its compile and the `link` both succeed. */
  ghost predicate MsvcBuildSucceeds(lang: string, parserDir: Path, buildDir: Path, cFiles: seq<Path>,
                                    host: WindowsHost, fs: FileSystem, run: Command -> bool)
  {
    && SetupMsvc(host).Success?
    && (|| run(ClDllCommand(lang, parserDir, buildDir, cFiles, fs))
        || (&& HasScannerBesideSrc(lang) && Exists(fs, ScannerSource(parserDir))
            && run(ScannerCompile(parserDir, buildDir)) && run(ScannerLink(buildDir))))
  }

  /** How the MSVC build ends: a missing toolchain issues nothing; otherwise
      `cl /LD` comes first; the build succeeds exactly under
      `MsvcBuildSucceeds`; every other failure follows a command that failed,
      and a `CalledProcessError` names the last command. With the toolchain
      found, a failure is "compilation failed" outside yaml and markdown,
      "scanner compilation failed" without `src/scanner.c`, and otherwise the
      `CalledProcessError` of the fallback command that failed. */
  ghost predicate MsvcOutcome(lang: string, parserDir: Path, buildDir: Path, cFiles: seq<Path>,
                              host: WindowsHost, fs: FileSystem, run: Command -> bool,
                              cmds: seq<Command>, r: Result<(), Error>)
  {
    && (SetupMsvc(host).Failure? ==> r == Failure(ToolchainMissing(SetupMsvc(host).error)) && cmds == [])
    && (SetupMsvc(host).Success? ==> cmds != [] && cmds[0] == ClDllCommand(lang, parserDir, buildDir, cFiles, fs))
    && (SetupMsvc(host).Success? ==>
          cmds[1..] == (if run(cmds[0]) || !HasScannerBesideSrc(lang) then []
                        else ScannerCommands(parserDir, buildDir, fs, run)))
    && (r.Success? <==> MsvcBuildSucceeds(lang, parserDir, buildDir, cFiles, host, fs, run))
    && (r.Failure? ==>
          (r.error.ToolchainMissing? && SetupMsvc(host).Failure?) || (cmds != [] && !run(cmds[|cmds| - 1])))
    && (r.Failure? && r.error.CommandFailed? ==> cmds != [] && r.error.cmd == cmds[|cmds| - 1])
    && (SetupMsvc(host).Success? && r.Failure? ==>
          r == (if !HasScannerBesideSrc(lang) then Failure(CompilationFailed(lang))
                else if !Exists(fs, ScannerSource(parserDir)) then Failure(ScannerCompilationFailed(lang))
                else Failure(CommandFailed(cmds[|cmds| - 1]))))
  }

  /** `_build_windows` for every language but php: locate the toolchain (its
      errors escape before the `try`, so nothing is cleaned), run `cl /LD`
      unchecked, fall back to the scanner build for yaml and markdown or fail,
      and clean up in the `finally` whatever the outcome. */
  method BuildWindowsMsvc(lang: string, parserDir: Path, buildDir: Path, cFiles: seq<Path>,
                          host: WindowsHost, fs: FileSystem, run: Command -> bool)
    returns (r: Result<(), Error>, cmds: seq<Command>, cleaned: bool)
    ensures MsvcOutcome(lang, parserDir, buildDir, cFiles, host, fs, run, cmds, r)
    ensures cleaned <==> SetupMsvc(host).Success?
    ensures SetupMsvc(host).Success? && run(cmds[0]) ==> r == Success(()) && cmds == [cmds[0]]
    ensures SetupMsvc(host).Success? && !run(cmds[0]) && !HasScannerBesideSrc(lang) ==>
              r == Failure(CompilationFailed(lang)) && cmds == [cmds[0]]
    ensures SetupMsvc(host).Success? && !run(cmds[0]) && HasScannerBesideSrc(lang) ==>
              !Exists(fs, ScannerSource(parserDir)) ==> r == Failure(ScannerCompilationFailed(lang))
    ensures r.Success? ==> Output(cmds[|cmds| - 1]) == Some(DllPath(buildDir)) && run(cmds[|cmds| - 1])
    ensures r.Failure? ==>
              r.error.ToolchainMissing? || r.error.CommandFailed? ||
              r.error == CompilationFailed(lang) || r.error == ScannerCompilationFailed(lang)
  {
    var setup := SetupMsvc(host);
    if setup.Failure? {
      return Failure(ToolchainMissing(setup.error)), [], false;
    }
    cleaned := true;
    var dll := ClDllCommand(lang, parserDir, buildDir, cFiles, fs);
    cmds := [dll];
    if run(dll) {
      r := Success(());
    } else if HasScannerBesideSrc(lang) {
      var more;
      r, more := BuildWindowsScanner(lang, parserDir, buildDir, fs, run);
      cmds := cmds + more;
    } else {
      r := Failure(CompilationFailed(lang));
    }
  }

  /** `_build_windows`: php goes to clang, every other grammar to MSVC.
      `order` is the compile order of the clang build. */
  method BuildWindows(lang: string, parserDir: Path, buildDir: Path, cFiles: seq<Path>,
                      host: WindowsHost, fs: FileSystem, run: Command -> bool)
    returns (r: Result<(), Error>, cmds: seq<Command>, cleaned: bool, ghost order: seq<Path>)
    ensures lang == "php" ==> PhpOutcome(parserDir, buildDir, cFiles, run, order, cmds, r)
    ensures lang != "php" ==> MsvcOutcome(lang, parserDir, buildDir, cFiles, host, fs, run, cmds, r)
    ensures r.Success? ==> cmds != [] && run(cmds[|cmds| - 1]) && Output(cmds[|cmds| - 1]) == Some(DllPath(buildDir))
    ensures r.Failure? && r.error.CommandFailed? ==>
              cmds != [] && r.error.cmd == cmds[|cmds| - 1] && !run(r.error.cmd)
    ensures r.Failure? ==>
              r.error.ToolchainMissing? || r.error.CommandFailed? ||
              r.error == CompilationFailed(lang) || r.error == ScannerCompilationFailed(lang)
    ensures lang == "php" ==> (cleaned <==> r.Success?) && (r.Failure? ==> r.error.CommandFailed?)
    ensures lang != "php" ==> (cleaned <==> SetupMsvc(host).Success?)
  {
    if lang == "php" {
      order, cmds, r, cleaned := BuildWindowsPhp(parserDir, buildDir, cFiles, run);
    } else {
      order := [];
      r, cmds, cleaned := BuildWindowsMsvc(lang, parserDir, buildDir, cFiles, host, fs, run);
    }
  }
}
