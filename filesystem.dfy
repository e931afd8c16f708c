/** The disk as the build sees it. The model does not fix the order in which
    `Path.glob` and `Path.rglob` list their matches: the enumerations are
    oracles, and all that is known about them is that they list every match
    exactly once. */
module FileSystems {
  import opened Paths
  import opened Seqs

  /** `entries` holds every existing path, files and directories alike;
      `glob(dir, ext)` is what `dir.glob('*' + ext)` yields and
      `rglob(dir, ext)` what `dir.rglob('*' + ext)` yields. `caseless` says
      whether pattern matching ignores letter case, as pathlib's does on
      Windows; on POSIX systems it is false. */
  datatype FileSystem = FileSystem(
    entries: set<Path>,
    caseless: bool,
    glob: (Path, string) -> seq<Path>,
    rglob: (Path, string) -> seq<Path>)

  predicate Exists(fs: FileSystem, p: Path)
  {
    p in fs.entries
  }

  /** Whether the name `name` matches the pattern `'*' + ext`: as written,
      or with both lowered when the disk's globbing ignores case. */
  predicate NameMatches(fs: FileSystem, name: string, ext: string)
  {
    if fs.caseless then EndsWith(Lower(name), Lower(ext)) else EndsWith(name, ext)
  }

  /** A name spelled in lower case matches a lower-case pattern exactly when
      it ends with it, whichever way the disk compares. */
  lemma LowerCaseNameMatches(fs: FileSystem, name: string, ext: string)
    requires IsLowerCase(name) && IsLowerCase(ext)
    ensures NameMatches(fs, name, ext) <==> EndsWith(name, ext)
  {
    LowerOfLowerCase(name);
    LowerOfLowerCase(ext);
  }

  /** The entries directly inside `dir` whose name matches `'*' + ext`. */
  ghost function Matching(fs: FileSystem, dir: Path, ext: string): set<Path>
  {
    set p | p in fs.entries && IsChild(p, dir) && NameMatches(fs, Name(p), ext)
  }

  /** The entries anywhere below `dir` whose name matches `'*' + ext`. */
  ghost function MatchingBelow(fs: FileSystem, dir: Path, ext: string): set<Path>
  {
    set p | p in fs.entries && IsBelow(p, dir) && NameMatches(fs, Name(p), ext)
  }

  /** Each enumeration lists the matches, each once, in some order. */
  ghost predicate Valid(fs: FileSystem)
  {
    && (forall dir, ext :: multiset(fs.glob(dir, ext)) == multiset(Matching(fs, dir, ext)))
    && (forall dir, ext :: multiset(fs.rglob(dir, ext)) == multiset(MatchingBelow(fs, dir, ext)))
  }

  /** What a `glob` result is made of, element by element. */
  lemma GlobListsMatches(fs: FileSystem, dir: Path, ext: string)
    requires Valid(fs)
    ensures Distinct(fs.glob(dir, ext))
    ensures forall p :: p in fs.glob(dir, ext) <==> p in Matching(fs, dir, ext)
  {
    var g := fs.glob(dir, ext);
    assert multiset(g) == multiset(Matching(fs, dir, ext));
    SetCountsAtMostOne(Matching(fs, dir, ext));
    DistinctWhenCountsAtMostOne(g);
    forall p ensures p in g <==> p in Matching(fs, dir, ext) {
      assert p in g <==> p in multiset(g);
    }
  }

  /** What an `rglob` result is made of, element by element. */
  lemma RGlobListsMatches(fs: FileSystem, dir: Path, ext: string)
    requires Valid(fs)
    ensures Distinct(fs.rglob(dir, ext))
    ensures forall p :: p in fs.rglob(dir, ext) <==> p in MatchingBelow(fs, dir, ext)
  {
    var g := fs.rglob(dir, ext);
    assert multiset(g) == multiset(MatchingBelow(fs, dir, ext));
    SetCountsAtMostOne(MatchingBelow(fs, dir, ext));
    DistinctWhenCountsAtMostOne(g);
    forall p ensures p in g <==> p in MatchingBelow(fs, dir, ext) {
      assert p in g <==> p in multiset(g);
    }
  }
}
