/** Paths and the parts of `pathlib` the setup relies on: joining, the final
    component (`.name`), the last dot-extension (`.suffix`), the name without
    it (`.stem`) and `str.lower()`. */
module Paths {

  /** A path as the sequence of its components: `dir / "src" / "x.c"` is
      `dir + ["src", "x.c"]`. */
  type Path = seq<string>

  /** `.name`: the final component, "" for the empty path. */
  function Name(p: Path): string
  {
    if p == [] then "" else p[|p| - 1]
  }

  /** `p` lies directly inside `dir`. */
  predicate IsChild(p: Path, dir: Path)
  {
    |p| == |dir| + 1 && p[..|dir|] == dir
  }

  /** `p` lies somewhere below `dir`, at any depth. */
  predicate IsBelow(p: Path, dir: Path)
  {
    |p| > |dir| && p[..|dir|] == dir
  }

  predicate EndsWith(s: string, tail: string)
  {
    |tail| <= |s| && s[|s| - |tail|..] == tail
  }

  predicate StartsWith(s: string, head: string)
  {
    |head| <= |s| && s[..|head|] == head
  }

  /** `str.rfind`: the last index of `c` in `s`, or -1 when `c` does not occur. */
  function RFind(s: string, c: char): (i: int)
    ensures -1 <= i < |s|
    ensures i >= 0 ==> s[i] == c
    ensures forall j :: i < j < |s| ==> s[j] != c
    decreases |s|
  {
    if s == [] then -1
    else if s[|s| - 1] == c then |s| - 1
    else RFind(s[..|s| - 1], c)
  }

  /** The index `RFind` returns is pinned down by the characters alone. */
  lemma RFindAt(s: string, c: char, i: int)
    requires -1 <= i < |s|
    requires i >= 0 ==> s[i] == c
    requires forall j :: i < j < |s| ==> s[j] != c
    ensures RFind(s, c) == i
  {
  }

  /** `PurePath.suffix` of a final component: from the last dot on, provided
      that dot is neither the first nor the last character. */
  function Suffix(name: string): (r: string)
    ensures r == "" || (2 <= |r| && r[0] == '.' && EndsWith(name, r))
    ensures forall j :: 0 < j < |r| ==> r[j] != '.'
    ensures r == "" <==>
              (|name| > 0 && name[|name| - 1] == '.') ||
              (forall j :: 0 < j < |name| ==> name[j] != '.')
  {
    var i := RFind(name, '.');
    if 0 < i < |name| - 1 then name[i..] else ""
  }

  /** `PurePath.stem`: the final component without its suffix. */
  function Stem(name: string): (r: string)
    ensures r + Suffix(name) == name
  {
    var i := RFind(name, '.');
    if 0 < i < |name| - 1 then name[..i] else name
  }

  /** The final component of a POSIX path string, as `PurePosixPath(s).name`
      gives it: separators are '/', and empty and "." components are dropped. */
  function FileName(s: string): (r: string)
    ensures '/' !in r && r != "."
    ensures '/' !in s && s != "." ==> r == s
    decreases |s|
  {
    var k := RFind(s, '/');
    var last := s[k + 1..];
    if last == "" || last == "." then
      (if k < 0 then "" else FileName(s[..k]))
    else last
  }

  /** The name is the component after the last separator: `a/b` names `b`. */
  lemma FileNameOfChild(a: string, b: string)
    requires '/' !in b && b != "" && b != "."
    ensures FileName(a + "/" + b) == b
  {
    var s := a + "/" + b;
    RFindAt(s, '/', |a|);
    assert s[|a| + 1..] == b;
  }

  /** A trailing separator does not change the name: `a/b/` names `b`. */
  lemma FileNameIgnoresTrailingSlash(s: string)
    ensures FileName(s + "/") == FileName(s)
  {
    var t := s + "/";
    RFindAt(t, '/', |s|);
    assert t[..|s|] == s;
  }

  function LowerChar(c: char): char
  {
    if 'A' <= c <= 'Z' then (c as int + 32) as char else c
  }

  /** `str.lower()` restricted to ASCII letters. */
  function Lower(s: string): string
  {
    seq(|s|, i requires 0 <= i < |s| => LowerChar(s[i]))
  }

  /** No upper-case ASCII letter occurs in `s`. */
  predicate IsLowerCase(s: string)
  {
    forall i :: 0 <= i < |s| ==> !('A' <= s[i] <= 'Z')
  }

  /** Lowering leaves a lower-case string as it is. */
  lemma LowerOfLowerCase(s: string)
    requires IsLowerCase(s)
    ensures Lower(s) == s
  {
  }

  /** `.bashrc`, `notes.` and `Makefile` have no suffix: a leading dot, a
      trailing dot and no dot at all give none. */
  lemma NoSuffixExamples()
    ensures Suffix(".bashrc") == ""
    ensures Suffix("notes.") == "" && Suffix("Makefile") == ""
  {
  }

  /** Only the last dot counts: `a.tar.gz` has `.gz`, `parser.c` has `.c`. */
  lemma SuffixExamples()
    ensures Suffix("a.tar.gz") == ".gz" && Stem("a.tar.gz") == "a.tar"
    ensures Suffix("parser.c") == ".c" && Stem("parser.c") == "parser"
  {
    assert RFind("a.tar.gz", '.') == 5 by {
      assert "a.tar.gz"[..7] == "a.tar.g";
      assert "a.tar.gz"[..7][..6] == "a.tar.";
    }
    assert RFind("parser.c", '.') == 6 by {
      assert "parser.c"[..7] == "parser.";
    }
  }
}
