/** The source-set resolver, `_get_source_files`: which translation units a
    grammar's clone contributes, by per-language layout rules. */
module Sources {
  import opened Paths
  import opened Seqs
  import opened FileSystems

  function SrcDir(dir: Path): Path
  {
    dir + ["src"]
  }

  /** typescript: the nested grammar directory, then the shared scanner
      directory. */
  function TsDir(dir: Path): Path
  {
    dir + ["typescript", "src"]
  }

  /** php: the directory that holds both the C sources and the scanner. */
  function PhpDir(dir: Path): Path
  {
    dir + ["php", "src"]
  }

  /** The two grammars whose scanner sits beside the `src` glob. */
  predicate HasScannerBesideSrc(lang: string)
  {
    lang == "yaml" || lang == "markdown"
  }

  /** A language without a layout rule of its own. */
  predicate UsesDefaultLayout(lang: string)
  {
    lang != "typescript" && lang != "php" && !HasScannerBesideSrc(lang)
  }

  /** `scanDir/scanner.cc` then `scanDir/scanner.c`, each when it exists. */
  function Scanners(fs: FileSystem, scanDir: Path): seq<Path>
  {
    (if Exists(fs, scanDir + ["scanner.cc"]) then [scanDir + ["scanner.cc"]] else []) +
    (if Exists(fs, scanDir + ["scanner.c"]) then [scanDir + ["scanner.c"]] else [])
  }

  /** The list `_get_source_files` returns, rule by rule. */
  function SourceFiles(lang: string, dir: Path, fs: FileSystem): (r: seq<Path>)
    ensures lang == "typescript" ==>
              forall p :: p in r ==> p in fs.glob(TsDir(dir), ".c") || p in fs.glob(SrcDir(dir), ".c")
    ensures lang == "php" && Exists(fs, PhpDir(dir) + ["scanner.c"]) ==>
              r != [] && r[|r| - 1] == PhpDir(dir) + ["scanner.c"]
    ensures HasScannerBesideSrc(lang) && Exists(fs, SrcDir(dir) + ["scanner.c"]) ==>
              r != [] && r[|r| - 1] == SrcDir(dir) + ["scanner.c"]
    ensures UsesDefaultLayout(lang) ==>
              (r == [] <==> fs.glob(SrcDir(dir), ".c") == [] && fs.rglob(dir, ".c") == [])
  {
    if lang == "typescript" then
      (if Exists(fs, TsDir(dir)) then fs.glob(TsDir(dir), ".c") else []) +
      (if Exists(fs, SrcDir(dir)) then fs.glob(SrcDir(dir), ".c") else [])
    else if lang == "php" then
      fs.glob(PhpDir(dir), ".c") + Scanners(fs, PhpDir(dir))
    else if HasScannerBesideSrc(lang) then
      fs.glob(SrcDir(dir), ".c") + Scanners(fs, SrcDir(dir))
    else if fs.glob(SrcDir(dir), ".c") != [] then
      fs.glob(SrcDir(dir), ".c")
    else
      fs.rglob(dir, ".c")
  }

  /** `_get_source_files`: builds the list by `extend` and `append`. */
  method GetSourceFiles(lang: string, dir: Path, fs: FileSystem) returns (files: seq<Path>)
    ensures files == SourceFiles(lang, dir, fs)
    ensures lang == "php" && Exists(fs, PhpDir(dir) + ["scanner.c"]) ==>
              files[|files| - 1] == PhpDir(dir) + ["scanner.c"]
  {
    files := [];
    if lang == "typescript" {
      if Exists(fs, TsDir(dir)) {
        files := files + fs.glob(TsDir(dir), ".c");
      }
      if Exists(fs, SrcDir(dir)) {
        files := files + fs.glob(SrcDir(dir), ".c");
      }
    } else if lang == "php" || HasScannerBesideSrc(lang) {
      var scanDir := if lang == "php" then PhpDir(dir) else SrcDir(dir);
      files := files + fs.glob(scanDir, ".c");
      if Exists(fs, scanDir + ["scanner.cc"]) {
        files := files + [scanDir + ["scanner.cc"]];
      }
      if Exists(fs, scanDir + ["scanner.c"]) {
        files := files + [scanDir + ["scanner.c"]];
      }
    } else {
      files := fs.glob(SrcDir(dir), ".c");
      if files == [] {
        files := fs.rglob(dir, ".c");
      }
    }
  }

  /** The explicit scanners of a directory, counted. */
  function ScannerBag(fs: FileSystem, scanDir: Path): multiset<Path>
  {
    multiset(Scanners(fs, scanDir))
  }

  /** What each rule group contributes, counted with multiplicity and
      regardless of the order the globs list their matches in. */
  lemma {:induction false} SourceFilesCounted(lang: string, dir: Path, fs: FileSystem)
    requires Valid(fs)
    ensures lang == "typescript" ==>
              multiset(SourceFiles(lang, dir, fs)) ==
                (if Exists(fs, TsDir(dir)) then multiset(Matching(fs, TsDir(dir), ".c")) else multiset{}) +
                (if Exists(fs, SrcDir(dir)) then multiset(Matching(fs, SrcDir(dir), ".c")) else multiset{})
    ensures lang == "php" ==>
              multiset(SourceFiles(lang, dir, fs)) ==
                multiset(Matching(fs, PhpDir(dir), ".c")) + ScannerBag(fs, PhpDir(dir))
    ensures HasScannerBesideSrc(lang) ==>
              multiset(SourceFiles(lang, dir, fs)) ==
                multiset(Matching(fs, SrcDir(dir), ".c")) + ScannerBag(fs, SrcDir(dir))
    ensures UsesDefaultLayout(lang) ==>
              multiset(SourceFiles(lang, dir, fs)) ==
                if Matching(fs, SrcDir(dir), ".c") != {} then multiset(Matching(fs, SrcDir(dir), ".c"))
                else multiset(MatchingBelow(fs, dir, ".c"))
  {
    var m := Matching(fs, SrcDir(dir), ".c");
    assert multiset(fs.glob(SrcDir(dir), ".c")) == multiset(m);
    assert multiset(fs.glob(TsDir(dir), ".c")) == multiset(Matching(fs, TsDir(dir), ".c"));
    assert multiset(fs.glob(PhpDir(dir), ".c")) == multiset(Matching(fs, PhpDir(dir), ".c"));
    assert multiset(fs.rglob(dir, ".c")) == multiset(MatchingBelow(fs, dir, ".c"));
    if UsesDefaultLayout(lang) {
      assert fs.glob(SrcDir(dir), ".c") == [] <==> m == {} by {
        if fs.glob(SrcDir(dir), ".c") != [] {
          assert fs.glob(SrcDir(dir), ".c")[0] in multiset(m);
        }
      }
    }
  }

  lemma ChildOfInnerIsBelow(p: Path, dir: Path, inner: seq<string>)
    requires IsChild(p, dir + inner)
    ensures IsBelow(p, dir)
  {
    assert p[..|dir|] == p[..|dir + inner|][..|dir|];
  }

  /** Every listed source exists and lies inside the clone. */
  lemma {:induction false} SourcesExistInClone(lang: string, dir: Path, fs: FileSystem)
    requires Valid(fs)
    ensures forall p :: p in SourceFiles(lang, dir, fs) ==> Exists(fs, p) && IsBelow(p, dir)
  {
    var r := SourceFiles(lang, dir, fs);
    forall p | p in r
      ensures Exists(fs, p) && IsBelow(p, dir)
    {
      if lang == "typescript" {
        GlobListsMatches(fs, TsDir(dir), ".c");
        GlobListsMatches(fs, SrcDir(dir), ".c");
        if p in Matching(fs, TsDir(dir), ".c") {
          ChildOfInnerIsBelow(p, dir, ["typescript", "src"]);
        } else {
          ChildOfInnerIsBelow(p, dir, ["src"]);
        }
      } else if lang == "php" || HasScannerBesideSrc(lang) {
        var scanDir := if lang == "php" then PhpDir(dir) else SrcDir(dir);
        GlobListsMatches(fs, scanDir, ".c");
        if p in fs.glob(scanDir, ".c") {
          ChildOfInnerIsBelow(p, dir, scanDir[|dir|..]);
        } else {
          assert p in Scanners(fs, scanDir);
          assert p[..|dir|] == dir;
        }
      } else if fs.glob(SrcDir(dir), ".c") != [] {
        GlobListsMatches(fs, SrcDir(dir), ".c");
        ChildOfInnerIsBelow(p, dir, ["src"]);
      } else {
        RGlobListsMatches(fs, dir, ".c");
      }
    }
  }

  /** A php clone with `php/src/scanner.c` lists that file twice: once from
      the glob and once from the explicit check. */
  lemma {:induction false} PhpScannerListedTwice(dir: Path, fs: FileSystem)
    requires Valid(fs) && Exists(fs, PhpDir(dir) + ["scanner.c"])
    ensures multiset(SourceFiles("php", dir, fs))[PhpDir(dir) + ["scanner.c"]] == 2
  {
    var sc := PhpDir(dir) + ["scanner.c"];
    var cc := PhpDir(dir) + ["scanner.cc"];
    SourceFilesCounted("php", dir, fs);
    assert EndsWith(Name(sc), ".c") by {
      assert "scanner.c"[7..] == ".c";
    }
    LowerCaseNameMatches(fs, Name(sc), ".c");
    assert sc[..|PhpDir(dir)|] == PhpDir(dir);
    assert sc in Matching(fs, PhpDir(dir), ".c");
    assert cc != sc by {
      assert cc[|cc| - 1] == "scanner.cc" && sc[|sc| - 1] == "scanner.c";
      assert |"scanner.cc"| != |"scanner.c"|;
    }
    assert ScannerBag(fs, PhpDir(dir))[sc] == 1;
  }

  /** Under the default rule the list is empty exactly when the clone holds no
      `.c` entry at any depth, which is when `_build_parser` raises. */
  lemma {:induction false} DefaultEmptyOnlyWithoutCSources(lang: string, dir: Path, fs: FileSystem)
    requires Valid(fs) && UsesDefaultLayout(lang)
    ensures SourceFiles(lang, dir, fs) == [] <==> MatchingBelow(fs, dir, ".c") == {}
  {
    SourceFilesCounted(lang, dir, fs);
    var m := Matching(fs, SrcDir(dir), ".c");
    var r := SourceFiles(lang, dir, fs);
    if m != {} {
      var x :| x in m;
      assert x[..|dir|] == x[..|dir| + 1][..|dir|];
      assert x in MatchingBelow(fs, dir, ".c");
      assert x in multiset(r);
    } else if r != [] {
      assert r[0] in multiset(r);
    }
  }

  /** Under the typescript and default rules no source is listed twice. */
  lemma {:induction false} NoRepeatsOutsideScannerRules(lang: string, dir: Path, fs: FileSystem)
    requires Valid(fs) && (lang == "typescript" || UsesDefaultLayout(lang))
    ensures Distinct(SourceFiles(lang, dir, fs))
  {
    var r := SourceFiles(lang, dir, fs);
    SourceFilesCounted(lang, dir, fs);
    var ts, src := Matching(fs, TsDir(dir), ".c"), Matching(fs, SrcDir(dir), ".c");
    SetCountsAtMostOne(ts);
    SetCountsAtMostOne(src);
    SetCountsAtMostOne(MatchingBelow(fs, dir, ".c"));
    if lang == "typescript" {
      assert ts !! src;
      forall x ensures multiset(r)[x] <= 1 {
        if x in ts {
          assert x !in src;
        }
      }
    }
    DistinctWhenCountsAtMostOne(r);
  }
}
