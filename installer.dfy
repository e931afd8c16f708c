/** The `TreeSitterSetup` object: the set of installed languages, the state
    file that persists it, and the install workflow (`install_language`,
    `install_all_languages`) over the clone and build steps. */
module Installer {
  import opened Wrappers
  import opened Paths
  import opened Seqs
  import opened Layout
  import opened Languages
  import opened Toolchain
  import opened FileSystems
  import opened Sources
  import opened WindowsBuild
  import opened Commands
  import opened Builder

  /** What the `.installed` file holds: nothing, something `json.load` or
      `set()` rejects, or a JSON list of language names. */
  datatype StateFile = Absent | Unreadable | Names(names: seq<string>)

  /** `_load_installed_languages`: an absent file keeps the current set, an
      unreadable one resets it to empty, a list replaces it. */
  function Loaded(f: StateFile, current: set<string>): (r: set<string>)
    ensures f.Absent? ==> r == current
    ensures f.Unreadable? ==> r == {}
    ensures f.Names? ==> forall x :: x in r <==> x in f.names
  {
    match f
    case Absent => current
    case Unreadable => {}
    case Names(xs) => Elements(xs)
  }

  /** `list(s)`: the members of a set, each once, in an order left open. */
  method ListOf(s: set<string>) returns (xs: seq<string>)
    ensures Distinct(xs) && Elements(xs) == s
  {
    xs := [];
    var rest := s;
    while rest != {}
      invariant rest <= s
      invariant forall x :: x in s ==> (x in xs <==> x !in rest)
      invariant Distinct(xs) && forall x :: x in xs ==> x in s
      decreases rest
    {
      var x :| x in rest;
      xs := xs + [x];
      rest := rest - {x};
    }
  }

  /** The commands `_clone_parser` runs for a missing clone: `git clone`, and
      for typescript the submodule initialisation. */
  function CloneCommands(lang: string, url: string, dir: Path): seq<Command>
  {
    [GitClone(url, dir)] + (if lang == "typescript" then [SubmoduleInit(dir), SubmoduleUpdate(dir)] else [])
  }

  /** The commands `_clone_parser` issues: none when the clone directory
      exists, otherwise the clone commands up to the first that fails. */
  function CloneRun(installDir: Path, lang: string, url: string, env: Environment): (r: seq<Command>)
    ensures forall c :: c in r ==> !c.Link?
  {
    var plan := CloneCommands(lang, url, CloneDir(installDir, lang));
    if lang in env.cloned then []
    else
      var cmds := UpToFailure(plan, env.run);
      assert forall c :: c in cmds ==> c in plan;
      cmds
  }

  /** How `install_language` ends for a supported language not yet
      installed: the clone commands come first; a failed clone ends the run
      with its `CalledProcessError`, and after a clone that succeeded the
      rest ends as a build of the clone directory does (`BuildOutcome`). */
  ghost predicate FreshEnds(installDir: Path, lang: string, env: Environment,
                            r: Result<(), Error>, cmds: seq<Command>)
    requires IsSupported(lang)
  {
    var cc := CloneRun(installDir, lang, Urls[lang], env);
    && |cc| <= |cmds| && cmds[..|cc|] == cc
    && (!AllSucceed(cc, env.run) ==> cmds == cc && cc != [] && r == Failure(CommandFailed(cc[|cc| - 1])))
    && (AllSucceed(cc, env.run) ==>
          BuildOutcome(lang, CloneDir(installDir, lang), BuildDir(installDir, lang), env, r, cmds[|cc|..]))
  }

  /** `FreshEnds`, and after a clone that succeeded the rest is exactly what
      the build of the clone directory issues (`BuildIssued`): the Unix
      compile-then-link run, the clang run for php on Windows or the MSVC
      run. */
  ghost predicate FreshOutcome(installDir: Path, lang: string, env: Environment,
                               r: Result<(), Error>, cmds: seq<Command>)
    requires IsSupported(lang)
  {
    var cc := CloneRun(installDir, lang, Urls[lang], env);
    && FreshEnds(installDir, lang, env, r, cmds)
    && (|cc| <= |cmds| && AllSucceed(cc, env.run) ==>
          BuildIssued(lang, CloneDir(installDir, lang), BuildDir(installDir, lang), env, r, cmds[|cc|..]))
  }

  /** How `install_language(lang)` ends, given whether `lang` was installed
      before: an unknown name is refused and an installed one skipped, both
      without a command; any other follows `FreshOutcome`. */
  ghost predicate InstallOutcome(installDir: Path, lang: string, env: Environment, wasInstalled: bool,
                                 r: Result<(), Error>, cmds: seq<Command>)
  {
    && (!IsSupported(lang) ==> r == Failure(Unsupported(lang)) && cmds == [])
    && (IsSupported(lang) && wasInstalled ==> r == Success(()) && cmds == [])
    && (IsSupported(lang) && !wasInstalled ==> FreshOutcome(installDir, lang, env, r, cmds))
  }

  /** A clone that failed ends a fresh install with its error. */
  lemma FreshAfterFailedClone(installDir: Path, lang: string, env: Environment, cc: seq<Command>, e: Error)
    requires IsSupported(lang) && cc == CloneRun(installDir, lang, Urls[lang], env)
    requires !AllSucceed(cc, env.run) && cc != [] && e == CommandFailed(cc[|cc| - 1])
    ensures FreshOutcome(installDir, lang, env, Failure(e), cc)
  {
    assert cc[..|cc|] == cc;
  }

  /** A clone that succeeded, then the build: the install ends as the build
      does. */
  lemma FreshAfterBuild(installDir: Path, lang: string, env: Environment,
                        cc: seq<Command>, b: seq<Command>, r: Result<(), Error>, order: seq<Path>)
    requires IsSupported(lang) && cc == CloneRun(installDir, lang, Urls[lang], env)
    requires AllSucceed(cc, env.run)
    requires BuildOutcome(lang, CloneDir(installDir, lang), BuildDir(installDir, lang), env, r, b)
    requires BuildRuns(lang, CloneDir(installDir, lang), BuildDir(installDir, lang), env, order, r, b)
    ensures FreshOutcome(installDir, lang, env, r, cc + b)
  {
    assert (cc + b)[..|cc|] == cc && (cc + b)[|cc|..] == b;
  }

  /** Off Windows, and for php on Windows, a fresh install succeeds exactly
      when the clone yields sources and every command issued succeeded,
      ending with a link. */
  lemma FreshLinkedExactlyOnSuccess(installDir: Path, lang: string, env: Environment,
                                    r: Result<(), Error>, cmds: seq<Command>)
    requires IsSupported(lang) && FreshEnds(installDir, lang, env, r, cmds)
    requires env.platform != Windows || lang == "php"
    ensures r.Success? <==>
              && SourceFiles(lang, CloneDir(installDir, lang), env.fs) != []
              && cmds != [] && AllSucceed(cmds, env.run) && cmds[|cmds| - 1].Link?
  {
    var cc := CloneRun(installDir, lang, Urls[lang], env);
    assert cmds == cc + cmds[|cc|..];
    if AllSucceed(cc, env.run) {
      LinkAfterPrefix(cc, cmds[|cc|..], env.run);
    }
  }

  /** For the other grammars on Windows, a fresh install succeeds exactly
      when the clone succeeds, it yields sources and the MSVC build of them
      succeeds. */
  lemma FreshMsvcSucceeds(installDir: Path, lang: string, env: Environment,
                          r: Result<(), Error>, cmds: seq<Command>)
    requires IsSupported(lang) && FreshEnds(installDir, lang, env, r, cmds)
    requires env.platform == Windows && lang != "php"
    ensures var dir := CloneDir(installDir, lang);
            var files := SourceFiles(lang, dir, env.fs);
            r.Success? <==>
              && AllSucceed(CloneRun(installDir, lang, Urls[lang], env), env.run) && files != []
              && MsvcBuildSucceeds(lang, dir, BuildDir(installDir, lang), files, env.host, env.fs, env.run)
  {
  }

  /** A fresh install that succeeds ends with the command that produced the
      library; one that fails does so after a command that failed, on an
      empty source list or for want of the toolchain, and never as a refusal
      of the name. */
  lemma FreshEndings(installDir: Path, lang: string, env: Environment, r: Result<(), Error>, cmds: seq<Command>)
    requires IsSupported(lang) && FreshEnds(installDir, lang, env, r, cmds)
    ensures r.Success? ==>
              cmds != [] && env.run(cmds[|cmds| - 1]) &&
              Output(cmds[|cmds| - 1]) == Some(ArtifactPath(installDir, lang, env.platform))
    ensures r.Failure? ==>
              || (cmds != [] && !env.run(cmds[|cmds| - 1]))
              || (r.error == NoSourceFiles(lang) && SourceFiles(lang, CloneDir(installDir, lang), env.fs) == [])
              || (r.error.ToolchainMissing? && env.platform == Windows && SetupMsvc(env.host).Failure?)
    ensures r.Failure? ==> !r.error.Unsupported?
  {
    var cc := CloneRun(installDir, lang, Urls[lang], env);
    var b := cmds[|cc|..];
    assert cmds == cc + b;
    if b != [] {
      assert cmds[|cmds| - 1] == b[|b| - 1];
    }
  }

  /** The languages whose outcome in `results` is a success, `results[i]`
      being the outcome for `LanguageNames[i]`. */
  function Succeeded(results: seq<Result<(), Error>>): set<string>
    requires |results| <= |LanguageNames|
  {
    if results == [] then {}
    else
      var n := |results| - 1;
      Succeeded(results[..n]) + (if results[n].Success? then {LanguageNames[n]} else {})
  }

  /** A language is in `Succeeded(results)` exactly when its outcome is a
      success. */
  lemma {:induction false} SucceededMembers(results: seq<Result<(), Error>>)
    requires |results| <= |LanguageNames|
    ensures forall k :: 0 <= k < |results| ==> (LanguageNames[k] in Succeeded(results) <==> results[k].Success?)
    ensures forall x :: x in Succeeded(results) ==> x in LanguageNames[..|results|]
  {
    ConfigsAgree();
    if results != [] {
      var n := |results| - 1;
      SucceededMembers(results[..n]);
      assert LanguageNames[..n] == LanguageNames[..|results|][..n];
      forall k | 0 <= k < n ensures LanguageNames[k] != LanguageNames[n] {
      }
    }
  }

  /** One more outcome adds its language when it is a success. */
  lemma SucceededSnoc(results: seq<Result<(), Error>>, r: Result<(), Error>)
    requires |results| < |LanguageNames|
    ensures Succeeded(results + [r]) ==
              Succeeded(results) + (if r.Success? then {LanguageNames[|results|]} else {})
  {
    assert (results + [r])[..|results|] == results;
  }

  /** Every language already in `before` has a successful outcome. */
  predicate KeptInstalled(results: seq<Result<(), Error>>, before: set<string>)
    requires |results| <= |LanguageNames|
  {
    forall k :: 0 <= k < |results| && LanguageNames[k] in before ==> results[k].Success?
  }

  lemma KeptInstalledSnoc(results: seq<Result<(), Error>>, r: Result<(), Error>, before: set<string>)
    requires |results| < |LanguageNames| && KeptInstalled(results, before)
    requires LanguageNames[|results|] in before ==> r.Success?
    ensures KeptInstalled(results + [r], before)
  {
    assert forall k :: 0 <= k < |results| ==> (results + [r])[k] == results[k];
  }

  /** No outcome is a refusal of an unsupported name. */
  predicate NoneUnsupported(results: seq<Result<(), Error>>)
  {
    forall k :: 0 <= k < |results| ==> !(results[k].Failure? && results[k].error.Unsupported?)
  }

  lemma NoneUnsupportedSnoc(results: seq<Result<(), Error>>, r: Result<(), Error>)
    requires NoneUnsupported(results) && !(r.Failure? && r.error.Unsupported?)
    ensures NoneUnsupported(results + [r])
  {
    assert forall k :: 0 <= k < |results| ==> (results + [r])[k] == results[k];
  }

  /** Whether `r` and `cmds` are how `install_language(LanguageNames[k])`
      ends, judged by whether that language was in `before`. */
  ghost function OutcomeOf(installDir: Path, env: Environment, before: set<string>)
    : (int, Result<(), Error>, seq<Command>) -> bool
  {
    (k, r, cmds) =>
      0 <= k < |LanguageNames| &&
      InstallOutcome(installDir, LanguageNames[k], env, LanguageNames[k] in before, r, cmds)
  }

  /** The language a batch install tries next has not succeeded yet in it. */
  lemma NextNotSucceeded(results: seq<Result<(), Error>>)
    requires |results| < |LanguageNames|
    ensures LanguageNames[|results|] !in Succeeded(results)
  {
    SucceededMembers(results);
    ConfigsAgree();
  }

  lemma NamedLanguageSupported(i: int)
    requires 0 <= i < |LanguageNames|
    ensures IsSupported(LanguageNames[i])
  {
    ConfigsAgree();
  }

  /** What a batch install keeps true once it has the outcomes `results`,
      having started from the set `before` and the state file `beforeFile`
      and now holding `installed` and `stateFile`: the set gained exactly
      the successes, each outcome is that of `install_language` for its
      language, and the state file was saved whenever the set changed. */
  ghost predicate Batch(installDir: Path, installed: set<string>, stateFile: StateFile, env: Environment,
                        before: set<string>, beforeFile: StateFile,
                        results: seq<Result<(), Error>>, logs: seq<seq<Command>>)
  {
    && |results| <= |LanguageNames|
    && installed == before + Succeeded(results)
    && KeptInstalled(results, before)
    && NoneUnsupported(results)
    && EveryPair(OutcomeOf(installDir, env, before), results, logs)
    && (installed != before ==> Loaded(stateFile, {}) == installed)
    && (installed == before ==> stateFile == beforeFile)
  }

  /** One more `install_language` for the next name of the table, moving
      the set and the file from `installed0`/`file0` to `installed1`/`file1`
      as `install_language` promises, keeps `Batch`. */
  lemma BatchStep(installDir: Path, env: Environment, before: set<string>, beforeFile: StateFile,
                  results: seq<Result<(), Error>>, logs: seq<seq<Command>>,
                  installed0: set<string>, file0: StateFile, installed1: set<string>, file1: StateFile,
                  r: Result<(), Error>, cmds: seq<Command>)
    requires |results| < |LanguageNames|
    requires Batch(installDir, installed0, file0, env, before, beforeFile, results, logs)
    requires InstallOutcome(installDir, LanguageNames[|results|], env, LanguageNames[|results|] in installed0, r, cmds)
    requires r.Failure? || LanguageNames[|results|] in installed0 ==> installed1 == installed0 && file1 == file0
    requires r.Success? ==> installed1 == installed0 + {LanguageNames[|results|]}
    requires r.Success? && LanguageNames[|results|] !in installed0 ==> Loaded(file1, {}) == installed1
    ensures Batch(installDir, installed1, file1, env, before, beforeFile, results + [r], logs + [cmds])
  {
    var lang := LanguageNames[|results|];
    NamedLanguageSupported(|results|);
    NextNotSucceeded(results);
    assert lang in installed0 <==> lang in before;
    if lang !in before {
      FreshEndings(installDir, lang, env, r, cmds);
    }
    SucceededSnoc(results, r);
    KeptInstalledSnoc(results, r, before);
    NoneUnsupportedSnoc(results, r);
    EveryPairSnoc(OutcomeOf(installDir, env, before), results, logs, r, cmds);
  }

  class TreeSitterSetup {
    const installDir: Path
    var installed: set<string>
    var stateFile: StateFile

    /** `__init__`: start from the empty set and load the state file. */
    constructor(installDir: Path, stateFile: StateFile)
      ensures this.installDir == installDir && this.stateFile == stateFile
      ensures installed == Loaded(stateFile, {})
    {
      this.installDir := installDir;
      this.stateFile := stateFile;
      installed := {};
      new;
      LoadInstalled();
    }

    /** `_load_installed_languages`. */
    method LoadInstalled()
      modifies this
      ensures installed == Loaded(stateFile, old(installed)) && stateFile == old(stateFile)
    {
      installed := Loaded(stateFile, installed);
    }

    /** `_save_installed_languages`: the file holds the set as a list, and
      loading it gives the set back. */
    method SaveInstalled()
      modifies this
      ensures installed == old(installed)
      ensures stateFile.Names? && Distinct(stateFile.names)
      ensures Loaded(stateFile, {}) == installed
    {
      var xs := ListOf(installed);
      stateFile := Names(xs);
    }

    /** `_clone_parser(language, url)`: clone only when the directory is
      missing; every command is checked. */
    method CloneParser(lang: string, url: string, env: Environment)
      returns (r: Result<Path, Error>, cmds: seq<Command>)
      ensures lang in env.cloned ==> cmds == [] && r == Success(CloneDir(installDir, lang))
      ensures lang !in env.cloned ==> cmds == UpToFailure(CloneCommands(lang, url, CloneDir(installDir, lang)), env.run)
      ensures r.Success? <==> AllSucceed(cmds, env.run)
      ensures r.Success? ==> r.value == CloneDir(installDir, lang)
      ensures r.Failure? ==> cmds != [] && r.error == CommandFailed(cmds[|cmds| - 1]) && !env.run(cmds[|cmds| - 1])
    {
      var dir := CloneDir(installDir, lang);
      if lang in env.cloned {
        return Success(dir), [];
      }
      var clone := GitClone(url, dir);
      cmds := [clone];
      if !env.run(clone) {
        return Failure(CommandFailed(clone)), cmds;
      }
      if lang == "typescript" {
        var init, update := SubmoduleInit(dir), SubmoduleUpdate(dir);
        assert CloneCommands(lang, url, dir)[1..] == [init, update];
        assert [init, update][1..] == [update];
        cmds := cmds + [init];
        if !env.run(init) {
          return Failure(CommandFailed(init)), cmds;
        }
        cmds := cmds + [update];
        if !env.run(update) {
          return Failure(CommandFailed(update)), cmds;
        }
      }
      r := Success(dir);
    }
  
    /** `install_language(language)`: refuse an unknown name, skip an
      installed one, otherwise clone, build, record and save. Any failure
      leaves the object and its state file as they were. */
    method InstallLanguage(lang: string, env: Environment) returns (r: Result<(), Error>, cmds: seq<Command>)
      modifies this
      ensures InstallOutcome(installDir, lang, env, lang in old(installed), r, cmds)
      ensures r.Failure? || lang in old(installed) ==> installed == old(installed) && stateFile == old(stateFile)
      ensures r.Success? ==> installed == old(installed) + {lang}
      ensures r.Success? && lang !in old(installed) ==> Loaded(stateFile, {}) == installed
    {
      if !IsSupported(lang) {
        return Failure(Unsupported(lang)), [];
      }
      if lang in installed {
        return Success(()), [];
      }
      var cloned, cloneCmds := CloneParser(lang, Urls[lang], env);
      if cloned.Failure? {
        FreshAfterFailedClone(installDir, lang, env, cloneCmds, cloned.error);
        return Failure(cloned.error), cloneCmds;
      }
      var built, buildCmds, _, order := BuildParser(lang, cloned.value, BuildDir(installDir, lang), env);
      cmds := cloneCmds + buildCmds;
      FreshAfterBuild(installDir, lang, env, cloneCmds, buildCmds, built, order);
      if built.Failure? {
        return built, cmds;
      }
      installed := installed + {lang};
      SaveInstalled();
      r := built;
    }

    /** `Batch` of the object's own set and state file. */
    ghost predicate BatchState(env: Environment, before: set<string>, beforeFile: StateFile,
                               results: seq<Result<(), Error>>, logs: seq<seq<Command>>)
      reads this
    {
      Batch(installDir, installed, stateFile, env, before, beforeFile, results, logs)
    }

    /** One step of `install_all_languages`: `install_language` for the next
      name of the table. */
    method InstallNext(env: Environment, ghost before: set<string>, ghost beforeFile: StateFile,
                       results: seq<Result<(), Error>>, ghost logs: seq<seq<Command>>)
      returns (r: Result<(), Error>, ghost cmds: seq<Command>)
      requires |results| < |LanguageNames| && BatchState(env, before, beforeFile, results, logs)
      modifies this
      ensures BatchState(env, before, beforeFile, results + [r], logs + [cmds])
    {
      ghost var installed0, file0 := installed, stateFile;
      r, cmds := InstallLanguage(LanguageNames[|results|], env);
      BatchStep(installDir, env, before, beforeFile, results, logs, installed0, file0, installed, stateFile, r, cmds);
    }

    /** `install_all_languages()`: stop when a required tool is missing,
      otherwise try every supported language in table order, a failure of one
      not stopping the others. `results[i]` is the outcome for
      `LanguageNames[i]` and `logs[i]` the commands it issued. */
    method InstallAllLanguages(env: Environment)
      returns (missing: seq<string>, results: seq<Result<(), Error>>, ghost logs: seq<seq<Command>>)
      modifies this
      ensures env.platform == Linux ==> missing == Missing(RequiredPackages, env.onPath)
      ensures env.platform == Windows ==> (missing == [] <==> "cl" in env.onPath)
      ensures env.platform == Other ==> missing == []
      ensures missing != [] ==> results == [] && installed == old(installed) && stateFile == old(stateFile)
      ensures missing == [] ==> |results| == |LanguageNames|
      ensures |results| <= |LanguageNames|
      ensures installed == old(installed) + Succeeded(results)
      ensures KeptInstalled(results, old(installed))
      ensures NoneUnsupported(results)
      ensures EveryPair(OutcomeOf(installDir, env, old(installed)), results, logs)
      ensures installed != old(installed) ==> Loaded(stateFile, {}) == installed
      ensures installed == old(installed) ==> stateFile == old(stateFile)
    {
      missing := CheckDependencies(env.platform, env.onPath);
      results, logs := [], [];
      if missing != [] {
        return;
      }
      for i := 0 to |LanguageNames|
        invariant |results| == i
        invariant BatchState(env, old(installed), old(stateFile), results, logs)
      {
        var r, cmds := InstallNext(env, old(installed), old(stateFile), results, logs);
        results, logs := results + [r], logs + [cmds];
      }
    }
  }
}
