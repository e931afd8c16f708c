/** The decisions the toolchain locator takes once the registry, `vswhere`
    and the directory listings have answered: which "latest" version it picks,
    which architecture it targets, which missing component it reports, and
    which required tools the dependency probe finds missing. The answers
    themselves are inputs (`WindowsHost`, `onPath`). */
module Toolchain {
  import opened Wrappers
  import opened Paths
  import opened Layout

  /** Python's `a <= b` on `str`: code-point lexicographic order. */
  predicate LexLe(a: string, b: string)
    decreases |a|
  {
    a == [] || (b != [] && (a[0] < b[0] || (a[0] == b[0] && LexLe(a[1..], b[1..]))))
  }

  lemma {:induction false} LexLeReflexive(a: string)
    ensures LexLe(a, a)
    decreases |a|
  {
    if a != [] {
      LexLeReflexive(a[1..]);
    }
  }

  lemma {:induction false} LexLeTotal(a: string, b: string)
    ensures LexLe(a, b) || LexLe(b, a)
    decreases |a|
  {
    if a != [] && b != [] && a[0] == b[0] {
      LexLeTotal(a[1..], b[1..]);
    }
  }

  lemma {:induction false} LexLeTransitive(a: string, b: string, c: string)
    requires LexLe(a, b) && LexLe(b, c)
    ensures LexLe(a, c)
    decreases |a|
  {
    if a != [] && a[0] == b[0] && b[0] == c[0] {
      LexLeTransitive(a[1..], b[1..], c[1..]);
    }
  }

  lemma {:induction false} LexLeAntisymmetric(a: string, b: string)
    requires LexLe(a, b) && LexLe(b, a)
    ensures a == b
    decreases |a|
  {
    if a != [] {
      LexLeAntisymmetric(a[1..], b[1..]);
      assert a == [a[0]] + a[1..] && b == [b[0]] + b[1..];
    }
  }

  /** `sorted(xs)[-1] if xs else None`: the greatest candidate under string
      order. */
  function Latest(xs: seq<string>): (r: Option<string>)
    ensures r.None? <==> xs == []
    ensures r.Some? ==> r.value in xs && forall x :: x in xs ==> LexLe(x, r.value)
  {
    if xs == [] then None
    else
      match Latest(xs[1..])
      case None =>
        LexLeReflexive(xs[0]);
        Some(xs[0])
      case Some(m) =>
        LexLeTotal(xs[0], m);
        LexLeReflexive(xs[0]);
        var top := if LexLe(xs[0], m) then m else xs[0];
        assert forall x :: x in xs[1..] ==> LexLe(x, top) by {
          forall x | x in xs[1..] ensures LexLe(x, top) {
            if top != m { LexLeTransitive(x, m, top); }
          }
        }
        assert xs == [xs[0]] + xs[1..];
        Some(top)
  }

  /** The pick does not depend on the order the candidates were listed in
      (registry enumeration and `os.listdir` order are unspecified). */
  lemma {:induction false} LatestIgnoresOrder(xs: seq<string>, ys: seq<string>)
    requires multiset(xs) == multiset(ys)
    ensures Latest(xs) == Latest(ys)
  {
    var a, b := Latest(xs), Latest(ys);
    if xs == [] {
      assert |ys| == |multiset(ys)| == 0;
    } else {
      assert ys != [] by {
        assert xs[0] in multiset(ys);
      }
      assert a.value in multiset(ys) && b.value in multiset(xs);
      LexLeAntisymmetric(a.value, b.value);
    }
  }

  function TenVersions(keys: seq<string>): (r: seq<string>)
    ensures forall k :: k in r <==> k in keys && StartsWith(k, "10.")
  {
    if keys == [] then []
    else (if StartsWith(keys[0], "10.") then [keys[0]] else []) + TenVersions(keys[1..])
  }

  /** `find_windows_sdk_version` once the subkeys are enumerated: the greatest
      name starting with "10.", None when there is none. */
  function LatestSdkVersion(keys: seq<string>): (r: Option<string>)
    ensures r.None? <==> forall k :: k in keys ==> !StartsWith(k, "10.")
    ensures r.Some? ==> r.value in keys && StartsWith(r.value, "10.")
    ensures r.Some? ==> forall k :: k in keys && StartsWith(k, "10.") ==> LexLe(k, r.value)
  {
    Latest(TenVersions(keys))
  }

  /** `'x64' if platform.machine().endswith('64') else 'x86'`. */
  function Arch(machine: string): (r: string)
    ensures r == "x64" || r == "x86"
    ensures r == "x64" <==> EndsWith(machine, "64")
  {
    if EndsWith(machine, "64") then "x64" else "x86"
  }

  /** Every machine name ending in "64" selects x64, ARM64 included. */
  lemma ArchExamples()
    ensures Arch("AMD64") == "x64" && Arch("ARM64") == "x64" && Arch("x86_64") == "x64"
    ensures Arch("x86") == "x86" && Arch("i686") == "x86"
  {
    assert "AMD64"[3..] == "64" && "ARM64"[3..] == "64" && "x86_64"[4..] == "64";
    assert "x86"[1..] != "64" && "i686"[2..] != "64";
  }

  /** What the registry, `vswhere` and the file system answered on a Windows
      host: the Visual Studio root found by `find_vs_installation`, the
      `KitsRoot10` value, the subkeys of the SDK key (None when the key cannot
      be opened), `platform.machine()`, and the listing of `VC/Tools/MSVC`
      (None when that directory does not exist). */
  datatype WindowsHost = WindowsHost(
    vsPath: Option<string>,
    sdkRoot: Option<string>,
    sdkKeys: Option<seq<string>>,
    machine: string,
    msvcVersions: Option<seq<string>>)

  /** The fatal errors of `_setup_msvc_environment`, one per missing
      component. */
  datatype MsvcError = NoVisualStudio | MissingComponents | NoMsvcVersions | NoMsvcToolsDir

  /** What the environment overrides are assembled from. */
  datatype MsvcToolchain = MsvcToolchain(
    vsPath: string,
    toolsVersion: string,
    sdkRoot: string,
    sdkVersion: string,
    arch: string)

  /** `Some(s)` with a non-empty `s`: Python's truth test on the answer. */
  predicate Truthy(o: Option<string>)
  {
    o.Some? && o.value != ""
  }

  function SdkVersion(host: WindowsHost): Option<string>
  {
    if host.sdkKeys.None? then None else LatestSdkVersion(host.sdkKeys.value)
  }

  /** `_setup_msvc_environment` without the environment mutation: the
      toolchain it settles on, or the first missing component in the order
      the source checks them. */
  function SetupMsvc(host: WindowsHost): (r: Result<MsvcToolchain, MsvcError>)
    ensures !Truthy(host.vsPath) ==> r == Failure(NoVisualStudio)
    ensures Truthy(host.vsPath) && (!Truthy(host.sdkRoot) || SdkVersion(host).None?)
            ==> r == Failure(MissingComponents)
    ensures r.Success? <==>
              Truthy(host.vsPath) && Truthy(host.sdkRoot) && SdkVersion(host).Some? &&
              host.msvcVersions.Some? && host.msvcVersions.value != []
    ensures r.Success? ==>
              var t := r.value;
              && t.vsPath == host.vsPath.value && t.sdkRoot == host.sdkRoot.value
              && t.arch == Arch(host.machine)
              && StartsWith(t.sdkVersion, "10.") && t.sdkVersion in host.sdkKeys.value
              && (forall k :: k in host.sdkKeys.value && StartsWith(k, "10.") ==> LexLe(k, t.sdkVersion))
              && t.toolsVersion in host.msvcVersions.value
              && (forall v :: v in host.msvcVersions.value ==> LexLe(v, t.toolsVersion))
  {
    if !Truthy(host.vsPath) then Failure(NoVisualStudio)
    else if !Truthy(host.sdkRoot) || SdkVersion(host).None? then Failure(MissingComponents)
    else if host.msvcVersions.None? then Failure(NoMsvcToolsDir)
    else
      match Latest(host.msvcVersions.value)
      case None => Failure(NoMsvcVersions)
      case Some(tools) =>
        Success(MsvcToolchain(host.vsPath.value, tools, host.sdkRoot.value,
                              SdkVersion(host).value, Arch(host.machine)))
  }

  /** The packages the Linux probe requires on the search path. */
  const RequiredPackages: seq<string> := ["git", "gcc", "g++"]

  /** The members of `req` that are not in `onPath`, in order. */
  function Missing(req: seq<string>, onPath: set<string>): seq<string>
  {
    if req == [] then []
    else (if req[0] in onPath then [] else [req[0]]) + Missing(req[1..], onPath)
  }

  /** A tool is reported missing exactly when it is required and not found. */
  lemma {:induction false} MissingMembers(req: seq<string>, onPath: set<string>)
    ensures forall p :: p in Missing(req, onPath) <==> p in req && p !in onPath
  {
    if req != [] {
      MissingMembers(req[1..], onPath);
      assert req == [req[0]] + req[1..];
    }
  }

  /** The `which` loop of `_check_dependencies` on Linux: every required
      package whose probe fails, in the order probed. */
  method MissingPackages(onPath: set<string>) returns (missing: seq<string>)
    ensures missing == Missing(RequiredPackages, onPath)
    ensures forall p :: p in missing <==> p in RequiredPackages && p !in onPath
  {
    missing := ProbeEach(RequiredPackages, onPath);
    MissingMembers(RequiredPackages, onPath);
  }

  method ProbeEach(req: seq<string>, onPath: set<string>) returns (missing: seq<string>)
    ensures missing == Missing(req, onPath)
  {
    missing := [];
    for i := 0 to |req|
      invariant missing + Missing(req[i..], onPath) == Missing(req, onPath)
    {
      assert req[i..][1..] == req[i + 1..];
      if req[i] !in onPath {
        missing := missing + [req[i]];
      }
    }
  }

  /** The halting part of `_check_dependencies`: the tools whose absence
      stops the whole run (the probe for `cl` on Windows, the `which` loop on
      Linux, nothing elsewhere). */
  method CheckDependencies(platform: Platform, onPath: set<string>) returns (missing: seq<string>)
    ensures platform == Other ==> missing == []
    ensures platform == Windows ==> (missing == [] <==> "cl" in onPath)
    ensures platform == Linux ==> missing == Missing(RequiredPackages, onPath)
    ensures missing == [] <==>
              match platform
              case Linux => forall p :: p in RequiredPackages ==> p in onPath
              case Windows => "cl" in onPath
              case Other => true
  {
    match platform
    case Linux =>
      missing := MissingPackages(onPath);
      if missing != [] {
        assert missing[0] in missing;
      }
    case Windows =>
      missing := if "cl" in onPath then [] else ["cl"];
    case Other =>
      missing := [];
  }
}
