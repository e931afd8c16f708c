/** The external commands the setup runs, as records, and the errors an
    install can end in. Whether a command succeeds is an oracle
    (`run: Command -> bool`, its exit status being zero); nothing is executed. */
module Commands {
  import opened Wrappers
  import opened Paths
  import opened Seqs
  import opened Toolchain

  datatype Tool = Cc | Cxx | Clang | Cl | MsLink

  datatype Command =
    /** Compile one translation unit to one object file. */
    | Compile(tool: Tool, source: Path, obj: Path, includes: seq<Path>)
    /** Link object files into a shared library. */
    | Link(tool: Tool, output: Path, objects: seq<Path>)
    /** `cl /LD ... /Fe:<output> @sources.rsp`: compile and link in one go,
        with the `/I` directories and the `/FI` headers given. */
    | ClDll(output: Path, sources: seq<Path>, includes: seq<Path>, forced: seq<Path>)
    /** `git clone <url> <dest>`. */
    | GitClone(url: string, dest: Path)
    /** `git submodule init` and `git submodule update`, run inside `dir`. */
    | SubmoduleInit(dir: Path)
    | SubmoduleUpdate(dir: Path)

  /** The file a command is run to produce, if it produces one. */
  function Output(c: Command): Option<Path>
  {
    match c
    case Compile(_, _, obj, _) => Some(obj)
    case Link(_, out, _) => Some(out)
    case ClDll(out, _, _, _) => Some(out)
    case _ => None
  }

  /** How an install attempt fails: `ValueError` for an unsupported name,
      `CalledProcessError` for a checked command that exited non-zero, and
      the `RuntimeError`s of the build. */
  datatype Error =
    | Unsupported(lang: string)
    | CommandFailed(cmd: Command)
    | NoSourceFiles(lang: string)
    | CompilationFailed(lang: string)
    | ScannerCompilationFailed(lang: string)
    | ToolchainMissing(missing: MsvcError)

  predicate AllSucceed(cmds: seq<Command>, run: Command -> bool)
  {
    forall i :: 0 <= i < |cmds| ==> run(cmds[i])
  }

  /** The commands before the last one all succeeded: a checked sequence
      stops at its first failure. */
  predicate StopsAtFirstFailure(cmds: seq<Command>, run: Command -> bool)
  {
    forall i :: 0 <= i < |cmds| - 1 ==> run(cmds[i])
  }

  /** `cmds` begins with the command `mk` makes for each element of `order`,
      in that order. */
  predicate Issued(mk: Path -> Command, order: seq<Path>, cmds: seq<Command>)
  {
    |order| <= |cmds| && forall i :: 0 <= i < |order| ==> cmds[i] == mk(order[i])
  }

  /** The commands of two consecutive loops, side by side. */
  lemma {:induction false} JoinIssued(mk: Path -> Command, o1: seq<Path>, c1: seq<Command>,
                                      o2: seq<Path>, c2: seq<Command>)
    requires |c1| == |o1| && Issued(mk, o1, c1) && Issued(mk, o2, c2)
    ensures Issued(mk, o1 + o2, c1 + c2)
  {
    var o, c := o1 + o2, c1 + c2;
    forall i | 0 <= i < |o| ensures c[i] == mk(o[i]) {
      if i < |o1| {
        assert c[i] == c1[i] && o[i] == o1[i];
      } else {
        assert c[i] == c2[i - |o1|] && o[i] == o2[i - |o1|];
      }
    }
  }

  /** A run of successes followed by a checked run. */
  lemma {:induction false} JoinRuns(c1: seq<Command>, c2: seq<Command>, run: Command -> bool)
    requires AllSucceed(c1, run) && StopsAtFirstFailure(c2, run)
    ensures StopsAtFirstFailure(c1 + c2, run)
    ensures AllSucceed(c2, run) ==> AllSucceed(c1 + c2, run)
    ensures c2 != [] ==> (c1 + c2)[|c1 + c2| - 1] == c2[|c2| - 1]
  {
    var c := c1 + c2;
    forall i | 0 <= i < |c| - 1 ensures run(c[i]) {
      if i >= |c1| {
        assert c[i] == c2[i - |c1|];
      }
    }
    if AllSucceed(c2, run) {
      forall i | 0 <= i < |c| ensures run(c[i]) {
        if i >= |c1| {
          assert c[i] == c2[i - |c1|];
        }
      }
    }
  }

  /** `for src in set(sources): subprocess.run(mk(src), check=True)`: visit the
      distinct sources once each, in an order the model leaves open, and stop
      at the first command that fails. Returns the sources in the order
      visited and the commands issued for them. */
  method CompileEach(pending: set<Path>, mk: Path -> Command, run: Command -> bool)
    returns (order: seq<Path>, cmds: seq<Command>, ok: bool)
    ensures |cmds| == |order| && Issued(mk, order, cmds)
    ensures Distinct(order) && forall p :: p in order ==> p in pending
    ensures StopsAtFirstFailure(cmds, run)
    ensures ok <==> Elements(order) == pending && AllSucceed(cmds, run)
    ensures !ok ==> cmds != [] && !run(cmds[|cmds| - 1])
  {
    order, cmds, ok := [], [], true;
    var rest := pending;
    while rest != {}
      invariant rest <= pending
      invariant forall p :: p in pending ==> (p in order <==> p !in rest)
      invariant Distinct(order) && forall p :: p in order ==> p in pending
      invariant |cmds| == |order| && Issued(mk, order, cmds)
      invariant AllSucceed(cmds, run)
      decreases rest
    {
      var src :| src in rest;
      var c := mk(src);
      order, cmds := order + [src], cmds + [c];
      if !run(c) {
        ok := false;
        assert src !in Elements(order[..|order| - 1]);
        return;
      }
      rest := rest - {src};
    }
    assert Elements(order) == pending;
  }

  /** How a compile-then-link build ends: the link runs only once every
      pending source compiled, and nothing runs after the first command that
      fails. `ok` says whether the build ended without an error. */
  ghost predicate CompileThenLink(pending: set<Path>, link: Command, run: Command -> bool,
                                  order: seq<Path>, cmds: seq<Command>, ok: bool)
    requires |order| <= |cmds|
  {
    && StopsAtFirstFailure(cmds, run)
    && (|cmds| == |order| + 1 <==> Elements(order) == pending && AllSucceed(cmds[..|order|], run))
    && (|cmds| == |order| + 1 ==> cmds[|order|] == link)
    && (ok <==> |cmds| == |order| + 1 && AllSucceed(cmds, run))
    && (!ok ==> cmds != [] && !run(cmds[|cmds| - 1]))
  }

  /** A compile pass that failed ends the build there. */
  lemma {:induction false} StoppedBeforeLink(pending: set<Path>, link: Command, run: Command -> bool,
                                             order: seq<Path>, cmds: seq<Command>)
    requires |cmds| == |order| && StopsAtFirstFailure(cmds, run)
    requires !(Elements(order) == pending && AllSucceed(cmds, run))
    requires cmds != [] && !run(cmds[|cmds| - 1])
    ensures CompileThenLink(pending, link, run, order, cmds, false)
  {
    assert cmds[..|order|] == cmds;
  }

  /** A compile pass that covered every source is followed by the link. */
  lemma {:induction false} LinkAfterPass(pending: set<Path>, link: Command, run: Command -> bool,
                                         order: seq<Path>, cmds: seq<Command>)
    requires |cmds| == |order| && Elements(order) == pending && AllSucceed(cmds, run)
    ensures CompileThenLink(pending, link, run, order, cmds + [link], run(link))
  {
    var all := cmds + [link];
    assert all[..|order|] == cmds;
    assert forall i :: 0 <= i < |cmds| ==> all[i] == cmds[i];
  }

  /** When every command a compile-then-link build issues before the link is
      a compile, the build succeeded exactly when all it issued succeeded
      and the last command was a link. */
  lemma {:induction false} LinkedExactlyOnSuccess(pending: set<Path>, mk: Path -> Command, link: Command,
                                                  run: Command -> bool, order: seq<Path>,
                                                  cmds: seq<Command>, ok: bool)
    requires |order| <= |cmds| <= |order| + 1 && Issued(mk, order, cmds)
    requires CompileThenLink(pending, link, run, order, cmds, ok)
    requires link.Link? && forall i :: 0 <= i < |order| ==> mk(order[i]).Compile?
    ensures ok <==> cmds != [] && AllSucceed(cmds, run) && cmds[|cmds| - 1].Link?
  {
    if |cmds| == |order| && cmds != [] {
      assert cmds[|cmds| - 1] == mk(order[|order| - 1]);
    }
  }

  /** Commands that all succeeded and include no link, followed by `b`: the
      whole ends with a link and succeeded exactly when `b` does. */
  lemma LinkAfterPrefix(a: seq<Command>, b: seq<Command>, run: Command -> bool)
    requires AllSucceed(a, run) && forall c :: c in a ==> !c.Link?
    ensures (a + b != [] && AllSucceed(a + b, run) && (a + b)[|a + b| - 1].Link?) <==>
            (b != [] && AllSucceed(b, run) && b[|b| - 1].Link?)
  {
    var c := a + b;
    if b != [] {
      assert c[|c| - 1] == b[|b| - 1];
      assert AllSucceed(b, run) ==> AllSucceed(c, run) by {
        if AllSucceed(b, run) {
          forall i | 0 <= i < |c| ensures run(c[i]) {
            if i >= |a| {
              assert c[i] == b[i - |a|];
            }
          }
        }
      }
      assert AllSucceed(c, run) ==> AllSucceed(b, run) by {
        if AllSucceed(c, run) {
          forall i | 0 <= i < |b| ensures run(b[i]) {
            assert b[i] == c[|a| + i];
          }
        }
      }
    } else {
      assert c == a;
      if a != [] {
        assert a[|a| - 1] in a;
      }
    }
  }

  /** One compile loop, then the link of every object in the order compiled;
      every command is checked, so the first failure ends the build. */
  method CompileAllThenLink(pending: set<Path>, mk: Path -> Command, link: seq<Path> -> Command,
                            run: Command -> bool)
    returns (order: seq<Path>, cmds: seq<Command>, ok: bool)
    ensures |order| <= |cmds| <= |order| + 1 && Issued(mk, order, cmds)
    ensures Distinct(order) && forall p :: p in order ==> p in pending
    ensures CompileThenLink(pending, link(order), run, order, cmds, ok)
    ensures ok ==> cmds[|cmds| - 1] == link(order) && run(cmds[|cmds| - 1])
  {
    order, cmds, ok := CompileEach(pending, mk, run);
    if !ok {
      StoppedBeforeLink(pending, link(order), run, order, cmds);
      return;
    }
    var l := link(order);
    LinkAfterPass(pending, l, run, order, cmds);
    assert Issued(mk, order, cmds + [l]) by {
      assert forall i :: 0 <= i < |order| ==> (cmds + [l])[i] == cmds[i];
    }
    cmds, ok := cmds + [l], run(l);
  }

  /** Two compile loops over disjoint source sets, then the link of every
      object in the order compiled; every command is checked, so the first
      failure ends the build. `ok` says whether it ended without an error. */
  method CompileGroupsThenLink(first: set<Path>, second: set<Path>, mk: Path -> Command,
                               link: seq<Path> -> Command, run: Command -> bool)
    returns (order: seq<Path>, cmds: seq<Command>, ok: bool)
    requires first !! second
    ensures |order| <= |cmds| <= |order| + 1 && Issued(mk, order, cmds)
    ensures Distinct(order) && Grouped(order, first, second)
    ensures CompileThenLink(first + second, link(order), run, order, cmds, ok)
    ensures ok ==> cmds[|cmds| - 1] == link(order) && run(cmds[|cmds| - 1])
  {
    var o1, c1, ok1 := CompileEach(first, mk, run);
    if !ok1 {
      JoinGrouped(o1, [], first, second);
      assert o1 + [] == o1;
      StoppedBeforeLink(first + second, link(o1), run, o1, c1);
      return o1, c1, false;
    }
    var o2, c2, ok2 := CompileEach(second, mk, run);
    JoinGrouped(o1, o2, first, second);
    JoinIssued(mk, o1, c1, o2, c2);
    JoinRuns(c1, c2, run);
    order, cmds := o1 + o2, c1 + c2;
    if !ok2 {
      StoppedBeforeLink(first + second, link(order), run, order, cmds);
      return order, cmds, false;
    }
    var l := link(order);
    LinkAfterPass(first + second, l, run, order, cmds);
    assert Issued(mk, order, cmds + [l]) by {
      assert forall i :: 0 <= i < |order| ==> (cmds + [l])[i] == cmds[i];
    }
    cmds, ok := cmds + [l], run(l);
  }

  /** `subprocess.run(c, check=True)` for each command of `plan` in turn:
      the commands issued, up to and including the first that fails. */
  function UpToFailure(plan: seq<Command>, run: Command -> bool): (r: seq<Command>)
    ensures |r| <= |plan| && r == plan[..|r|]
    ensures StopsAtFirstFailure(r, run)
    ensures r == plan <==> plan == [] || AllSucceed(plan[..|plan| - 1], run)
    ensures r != plan ==> r != [] && !run(r[|r| - 1])
    ensures AllSucceed(r, run) <==> AllSucceed(plan, run)
  {
    if plan == [] then []
    else if !run(plan[0]) then [plan[0]]
    else
      var rest := UpToFailure(plan[1..], run);
      assert plan == [plan[0]] + plan[1..];
      [plan[0]] + rest
  }
}
