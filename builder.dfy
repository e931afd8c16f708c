/** `_build_parser`: resolve the sources, refuse an empty list, and dispatch
    on the platform. Everything the build consults from outside is gathered
    in an `Environment`. */
module Builder {
  import opened Wrappers
  import opened Paths
  import opened Seqs
  import opened Layout
  import opened FileSystems
  import opened Sources
  import opened Toolchain
  import opened Commands
  import opened UnixBuild
  import opened WindowsBuild

  /** The outside world of one run: the platform, the disk as the build sees
      it, the exit status of every command, what the Windows registry and
      `vswhere` answer, the tools found on the search path, and the languages
      whose clone directory exists before the run. */
  datatype Environment = Environment(
    platform: Platform,
    fs: FileSystem,
    run: Command -> bool,
    host: WindowsHost,
    onPath: set<string>,
    cloned: set<string>)

  /** How `_build_parser` ends, whatever the platform: an empty source list
      issues nothing and fails; a success ends with a command that produced
      the library; off Windows, and for php on Windows, the build succeeds
      exactly when every command it issued succeeded and the last was a
      link; for the other grammars on Windows exactly when the MSVC build
      succeeds; and every failure follows a command that failed, an empty
      source list or a missing toolchain. */
  ghost predicate BuildOutcome(lang: string, parserDir: Path, buildDir: Path, env: Environment,
                               r: Result<(), Error>, cmds: seq<Command>)
  {
    var files := SourceFiles(lang, parserDir, env.fs);
    && (files == [] ==> r == Failure(NoSourceFiles(lang)) && cmds == [])
    && (r.Success? ==>
          cmds != [] && env.run(cmds[|cmds| - 1]) &&
          Output(cmds[|cmds| - 1]) == Some(buildDir + [ArtifactName(env.platform)]))
    && (env.platform != Windows || lang == "php" ==>
          (r.Success? <==> files != [] && cmds != [] && AllSucceed(cmds, env.run) && cmds[|cmds| - 1].Link?))
    && (env.platform == Windows && lang != "php" ==>
          (r.Success? <==> files != [] && MsvcBuildSucceeds(lang, parserDir, buildDir, files, env.host, env.fs, env.run)))
    && (r.Failure? ==>
          || (cmds != [] && !env.run(cmds[|cmds| - 1]))
          || (r.error == NoSourceFiles(lang) && files == [])
          || (r.error.ToolchainMissing? && env.platform == Windows && SetupMsvc(env.host).Failure?))
    && (r.Failure? && r.error.CommandFailed? ==>
          cmds != [] && r.error.cmd == cmds[|cmds| - 1] && !env.run(r.error.cmd))
    && (r.Failure? ==> !r.error.Unsupported?)
  }

  /** What the build issued, platform by platform, for a non-empty source
      list: off Windows the Unix compile-then-link run over the listed
      sources in the compile order `order`, on Windows the clang run for php
      and the MSVC run for every other grammar. */
  ghost predicate BuildRuns(lang: string, parserDir: Path, buildDir: Path, env: Environment,
                            order: seq<Path>, r: Result<(), Error>, cmds: seq<Command>)
  {
    var files := SourceFiles(lang, parserDir, env.fs);
    files != [] ==>
      && (env.platform != Windows ==> UnixOutcome(lang, parserDir, buildDir, files, env.run, order, cmds, r))
      && (env.platform == Windows && lang == "php" ==> PhpOutcome(parserDir, buildDir, files, env.run, order, cmds, r))
      && (env.platform == Windows && lang != "php" ==>
            MsvcOutcome(lang, parserDir, buildDir, files, env.host, env.fs, env.run, cmds, r))
  }

  /** The build issued what `BuildRuns` says for some compile order. */
  ghost predicate BuildIssued(lang: string, parserDir: Path, buildDir: Path, env: Environment,
                              r: Result<(), Error>, cmds: seq<Command>)
  {
    exists order :: BuildRuns(lang, parserDir, buildDir, env, order, r, cmds)
  }

  /** A Unix build of a non-empty source list ends as `BuildOutcome` says. */
  lemma UnixBuildOutcome(lang: string, parserDir: Path, buildDir: Path, env: Environment,
                         order: seq<Path>, cmds: seq<Command>, r: Result<(), Error>)
    requires env.platform != Windows && SourceFiles(lang, parserDir, env.fs) != []
    requires UnixOutcome(lang, parserDir, buildDir, SourceFiles(lang, parserDir, env.fs), env.run, order, cmds, r)
    ensures BuildOutcome(lang, parserDir, buildDir, env, r, cmds)
    ensures BuildRuns(lang, parserDir, buildDir, env, order, r, cmds)
  {
    UnixLinkedExactlyOnSuccess(lang, parserDir, buildDir, SourceFiles(lang, parserDir, env.fs), env.run, order, cmds, r);
  }

  /** The clang build of php on Windows ends as `BuildOutcome` says. */
  lemma PhpBuildOutcome(parserDir: Path, buildDir: Path, env: Environment,
                        order: seq<Path>, cmds: seq<Command>, r: Result<(), Error>)
    requires env.platform == Windows && SourceFiles("php", parserDir, env.fs) != []
    requires PhpOutcome(parserDir, buildDir, SourceFiles("php", parserDir, env.fs), env.run, order, cmds, r)
    ensures BuildOutcome("php", parserDir, buildDir, env, r, cmds)
    ensures BuildRuns("php", parserDir, buildDir, env, order, r, cmds)
  {
    PhpLinkedExactlyOnSuccess(parserDir, buildDir, SourceFiles("php", parserDir, env.fs), env.run, order, cmds, r);
  }

  /** The MSVC build on Windows ends as `BuildOutcome` says, given that it
      produced the library on success and failed only with its own errors. */
  lemma MsvcBuildOutcome(lang: string, parserDir: Path, buildDir: Path, env: Environment,
                         order: seq<Path>, cmds: seq<Command>, r: Result<(), Error>)
    requires env.platform == Windows && lang != "php" && SourceFiles(lang, parserDir, env.fs) != []
    requires MsvcOutcome(lang, parserDir, buildDir, SourceFiles(lang, parserDir, env.fs), env.host, env.fs,
                         env.run, cmds, r)
    requires r.Success? ==>
               cmds != [] && env.run(cmds[|cmds| - 1]) && Output(cmds[|cmds| - 1]) == Some(DllPath(buildDir))
    requires r.Failure? ==> !r.error.Unsupported?
    ensures BuildOutcome(lang, parserDir, buildDir, env, r, cmds)
    ensures BuildRuns(lang, parserDir, buildDir, env, order, r, cmds)
  {
  }

  /** `_build_parser(language, parser_dir)` with `build_dir` already chosen.
      `cmds` are the commands issued, `cleaned` whether
      `_cleanup_build_artifacts` ran, and `order` the order in which a
      compile-then-link build compiled its sources. */
  method BuildParser(lang: string, parserDir: Path, buildDir: Path, env: Environment)
    returns (r: Result<(), Error>, cmds: seq<Command>, cleaned: bool, ghost order: seq<Path>)
    ensures BuildOutcome(lang, parserDir, buildDir, env, r, cmds)
    ensures r == Failure(NoSourceFiles(lang)) <==> SourceFiles(lang, parserDir, env.fs) == []
    ensures SourceFiles(lang, parserDir, env.fs) == [] ==> !cleaned
    ensures r.Failure? ==>
              r.error.NoSourceFiles? || r.error.CommandFailed? || r.error.ToolchainMissing? ||
              r.error == CompilationFailed(lang) || r.error == ScannerCompilationFailed(lang)
    ensures env.platform != Windows ==> !cleaned
    ensures BuildRuns(lang, parserDir, buildDir, env, order, r, cmds)
    ensures env.platform == Windows && lang == "php" && SourceFiles(lang, parserDir, env.fs) != [] ==>
              (cleaned <==> r.Success?)
    ensures env.platform == Windows && lang != "php" && SourceFiles(lang, parserDir, env.fs) != [] ==>
              (cleaned <==> SetupMsvc(env.host).Success?)
  {
    var files := GetSourceFiles(lang, parserDir, env.fs);
    if files == [] {
      return Failure(NoSourceFiles(lang)), [], false, [];
    }
    if env.platform == Windows {
      r, cmds, cleaned, order := BuildWindows(lang, parserDir, buildDir, files, env.host, env.fs, env.run);
      if lang == "php" {
        PhpBuildOutcome(parserDir, buildDir, env, order, cmds, r);
      } else {
        MsvcBuildOutcome(lang, parserDir, buildDir, env, order, cmds, r);
      }
    } else {
      order, cmds, r := BuildUnix(lang, parserDir, buildDir, files, env.run);
      UnixBuildOutcome(lang, parserDir, buildDir, env, order, cmds, r);
      cleaned := false;
    }
  }
}
