/** `_cleanup_build_artifacts`: delete the intermediate files the Windows
    toolchains leave in a build directory. Each extension is globbed in turn;
    an unlink that fails abandons the rest of that extension's matches, and
    the next extension is tried. Whether an unlink succeeds is an oracle. */
module Cleanup {
  import opened Paths
  import opened Seqs
  import opened FileSystems

  /** The extensions removed, in the order they are tried. */
  const ArtifactExts: seq<string> := [".exp", ".lib", ".obj", ".pdb", ".ilk", ".o"]

  /** The entries of `dir` matched by the globs of `exts`. */
  ghost function Artifacts(fs: FileSystem, dir: Path, exts: seq<string>): set<Path>
  {
    if exts == [] then {}
    else Artifacts(fs, dir, exts[..|exts| - 1]) + Matching(fs, dir, exts[|exts| - 1])
  }

  /** How many of `matches`, from the front, unlink before the first unlink
      that fails (all of them when none fails). */
  function UnlinkedPrefix(matches: seq<Path>, unlinkOk: Path -> bool): (n: nat)
    ensures n <= |matches|
    ensures forall i :: 0 <= i < n ==> unlinkOk(matches[i])
    ensures n < |matches| ==> !unlinkOk(matches[n])
  {
    if matches == [] || !unlinkOk(matches[0]) then 0
    else 1 + UnlinkedPrefix(matches[1..], unlinkOk)
  }

  /** One extension: `for f in build_dir.glob(...): f.unlink()` inside a
      `try` that swallows the first failure. Exactly the matches before the
      first failed unlink are gone. */
  method UnlinkEach(matches: seq<Path>, unlinkOk: Path -> bool, present: set<Path>)
    returns (remaining: set<Path>)
    ensures remaining == present - Elements(matches[..UnlinkedPrefix(matches, unlinkOk)])
    ensures remaining <= present
    ensures forall p :: p in present && p !in remaining ==> p in matches
    ensures (forall q :: q in matches ==> unlinkOk(q)) ==> remaining == present - Elements(matches)
  {
    remaining := present;
    var j := 0;
    while j < |matches|
      invariant 0 <= j <= UnlinkedPrefix(matches, unlinkOk)
      invariant remaining == present - Elements(matches[..j])
    {
      if !unlinkOk(matches[j]) {
        break;
      }
      assert Elements(matches[..j + 1]) == Elements(matches[..j]) + {matches[j]} by {
        assert matches[..j + 1] == matches[..j] + [matches[j]];
      }
      remaining := remaining - {matches[j]};
      j := j + 1;
    }
    assert matches[..|matches|] == matches;
  }

  /** The entries the unlinks of `exts` remove: for each extension, the
      matches its glob lists before the first failed unlink. */
  ghost function Unlinked(fs: FileSystem, dir: Path, exts: seq<string>, unlinkOk: Path -> bool): set<Path>
  {
    if exts == [] then {}
    else
      var g := fs.glob(dir, exts[|exts| - 1]);
      Unlinked(fs, dir, exts[..|exts| - 1], unlinkOk) + Elements(g[..UnlinkedPrefix(g, unlinkOk)])
  }

  /** `_cleanup_build_artifacts(build_dir)` on the disk `fs`, returning the
      entries left. Exactly the entries each glob lists before its first
      failed unlink go; they are all matching entries of the build directory,
      and when every unlink succeeds, every match goes. */
  method CleanupBuildArtifacts(fs: FileSystem, buildDir: Path, unlinkOk: Path -> bool)
    returns (remaining: set<Path>)
    requires Valid(fs)
    ensures remaining == fs.entries - Unlinked(fs, buildDir, ArtifactExts, unlinkOk)
    ensures remaining <= fs.entries
    ensures fs.entries - remaining <= Artifacts(fs, buildDir, ArtifactExts)
    ensures (forall q :: unlinkOk(q)) ==> remaining == fs.entries - Artifacts(fs, buildDir, ArtifactExts)
  {
    remaining := fs.entries;
    for k := 0 to |ArtifactExts|
      invariant remaining == fs.entries - Unlinked(fs, buildDir, ArtifactExts[..k], unlinkOk)
    {
      var matches := fs.glob(buildDir, ArtifactExts[k]);
      assert ArtifactExts[..k + 1][..k] == ArtifactExts[..k];
      remaining := UnlinkEach(matches, unlinkOk, remaining);
    }
    assert ArtifactExts[..|ArtifactExts|] == ArtifactExts;
    UnlinkedAreArtifacts(fs, buildDir, ArtifactExts, unlinkOk);
  }

  /** The unlinked entries are matches, and all of them when no unlink fails. */
  lemma {:induction false} UnlinkedAreArtifacts(fs: FileSystem, dir: Path, exts: seq<string>, unlinkOk: Path -> bool)
    requires Valid(fs)
    ensures Unlinked(fs, dir, exts, unlinkOk) <= Artifacts(fs, dir, exts)
    ensures (forall q :: unlinkOk(q)) ==> Unlinked(fs, dir, exts, unlinkOk) == Artifacts(fs, dir, exts)
  {
    if exts != [] {
      var g := fs.glob(dir, exts[|exts| - 1]);
      UnlinkedAreArtifacts(fs, dir, exts[..|exts| - 1], unlinkOk);
      GlobListsMatches(fs, dir, exts[|exts| - 1]);
      assert Elements(g) == Matching(fs, dir, exts[|exts| - 1]);
      assert Elements(g[..UnlinkedPrefix(g, unlinkOk)]) <= Elements(g);
      if forall q :: unlinkOk(q) {
        assert g[..UnlinkedPrefix(g, unlinkOk)] == g;
      }
    }
  }

  /** What the globs match: children of `dir` named with one of `exts`. */
  lemma {:induction false} ArtifactShape(fs: FileSystem, dir: Path, exts: seq<string>, p: Path)
    requires p in Artifacts(fs, dir, exts)
    ensures p in fs.entries && IsChild(p, dir)
    ensures exists e :: e in exts && NameMatches(fs, Name(p), e)
  {
    var last := exts[|exts| - 1];
    if p in Matching(fs, dir, last) {
      assert last in exts;
    } else {
      ArtifactShape(fs, dir, exts[..|exts| - 1], p);
      var e :| e in exts[..|exts| - 1] && NameMatches(fs, Name(p), e);
      assert e in exts;
    }
  }

  /** No name the build gives a library matches a removed extension, with
      or without regard to case. */
  lemma NotAnArtifactName(fs: FileSystem, name: string)
    requires name == "parser.dll" || name == "parser.so"
    ensures forall e :: e in ArtifactExts ==> !NameMatches(fs, name, e)
  {
    forall e | e in ArtifactExts
      ensures !NameMatches(fs, name, e)
    {
      LowerCaseNameMatches(fs, name, e);
    }
  }

  /** The shared libraries the build produces are never removed. */
  lemma LibrariesSurvive(fs: FileSystem, buildDir: Path)
    ensures buildDir + ["parser.dll"] !in Artifacts(fs, buildDir, ArtifactExts)
    ensures buildDir + ["parser.so"] !in Artifacts(fs, buildDir, ArtifactExts)
  {
    NotAnArtifactName(fs, "parser.dll");
    NotAnArtifactName(fs, "parser.so");
    if buildDir + ["parser.dll"] in Artifacts(fs, buildDir, ArtifactExts) {
      ArtifactShape(fs, buildDir, ArtifactExts, buildDir + ["parser.dll"]);
    }
    if buildDir + ["parser.so"] in Artifacts(fs, buildDir, ArtifactExts) {
      ArtifactShape(fs, buildDir, ArtifactExts, buildDir + ["parser.so"]);
    }
  }
}
