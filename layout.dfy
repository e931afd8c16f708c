/** The directory layout under the install root: clones under `parsers/`,
    build outputs under `build/`, and the deterministic artifact path that the
    parsing runtime loads (`build/<lang>/parser.{dll,so}`). */
module Layout {
  import opened Paths

  /** `platform.system()`, as far as the setup distinguishes it. */
  datatype Platform = Linux | Windows | Other

  function ParsersDir(installDir: Path): Path
  {
    installDir + ["parsers"]
  }

  function BuildRoot(installDir: Path): Path
  {
    installDir + ["build"]
  }

  /** `self.parsers_dir / language`, where the grammar is cloned. */
  function CloneDir(installDir: Path, lang: string): Path
  {
    ParsersDir(installDir) + [lang]
  }

  /** `self.build_dir / language`, where it is built. */
  function BuildDir(installDir: Path, lang: string): Path
  {
    BuildRoot(installDir) + [lang]
  }

  function ArtifactName(platform: Platform): string
  {
    if platform == Windows then "parser.dll" else "parser.so"
  }

  /** The shared library `get_parser` hands to the runtime: one file per
      language, inside that language's build directory. */
  function ArtifactPath(installDir: Path, lang: string, platform: Platform): (r: Path)
    ensures IsChild(r, BuildDir(installDir, lang))
    ensures Name(r) == (if platform == Windows then "parser.dll" else "parser.so")
  {
    BuildDir(installDir, lang) + [ArtifactName(platform)]
  }

  /** Different languages never share an artifact, no artifact lies inside a
      clone, and on one platform the path depends on nothing else. */
  lemma {:induction false} ArtifactPathsSeparate(installDir: Path, l1: string, l2: string, p1: Platform, p2: Platform)
    ensures ArtifactPath(installDir, l1, p1) == ArtifactPath(installDir, l2, p2)
            <==> l1 == l2 && (p1 == Windows <==> p2 == Windows)
    ensures !IsBelow(ArtifactPath(installDir, l1, p1), CloneDir(installDir, l2))
  {
    var a1, a2 := ArtifactPath(installDir, l1, p1), ArtifactPath(installDir, l2, p2);
    var n := |installDir|;
    if a1 == a2 {
      assert a1[n + 1] == l1 && a2[n + 1] == l2;
      assert a1[n + 2] == ArtifactName(p1) && a2[n + 2] == ArtifactName(p2);
      assert "parser.dll" != "parser.so" by {
        assert "parser.dll"[7] != "parser.so"[7];
      }
    }
    var c := CloneDir(installDir, l2);
    assert a1[n] != c[n] by {
      assert a1[n] == "build" && c[n] == "parsers";
      assert "build"[0] != "parsers"[0];
    }
    assert |a1| > |c| ==> a1[..|c|][n] == a1[n];
  }

  /** `build_dir / (src.stem + ext)`: where a translation unit's object file
      goes. Only the stem of the source is kept, not its directory. */
  function ObjectPath(buildDir: Path, src: Path, ext: string): (r: Path)
    ensures IsChild(r, buildDir)
    ensures Name(r) == Stem(Name(src)) + ext
  {
    buildDir + [Stem(Name(src)) + ext]
  }

  /** Two sources share an object file exactly when their stems agree,
      wherever the sources lie. */
  lemma {:induction false} ObjectPathInjective(buildDir: Path, s1: Path, s2: Path, ext: string)
    ensures ObjectPath(buildDir, s1, ext) == ObjectPath(buildDir, s2, ext) <==> Stem(Name(s1)) == Stem(Name(s2))
  {
    var a, b := Stem(Name(s1)), Stem(Name(s2));
    if ObjectPath(buildDir, s1, ext) == ObjectPath(buildDir, s2, ext) {
      assert (a + ext) == ObjectPath(buildDir, s1, ext)[|buildDir|];
      assert |a| == |b|;
      assert a == (a + ext)[..|a|] && b == (b + ext)[..|b|];
    }
  }

  /** A grammar with both `scanner.cc` and `scanner.c` in one directory
      compiles both to the same object file. */
  lemma ScannerObjectsCollide(buildDir: Path, dir: Path, ext: string)
    ensures ObjectPath(buildDir, dir + ["scanner.c"], ext) == ObjectPath(buildDir, dir + ["scanner.cc"], ext)
  {
    assert RFind("scanner.c", '.') == 7 by {
      RFindAt("scanner.c", '.', 7);
    }
    assert RFind("scanner.cc", '.') == 7 by {
      RFindAt("scanner.cc", '.', 7);
    }
    assert "scanner.c"[..7] == "scanner.cc"[..7];
  }
}
