/** pkg/git: the clone-or-fetch operation over an abstract host.

    The host is a set of existing paths and the trace of git commands run
    so far. What the operating system and git do is not visible to the
    core and comes from a `World` of oracles: whether `os.MkdirAll` fails
    for a path, whether `os.Stat` fails for a path with an error other
    than "does not exist", and how a git command ends, given the commands
    run before it. A successful `git clone --mirror <url> <dir>` creates
    `<dir>` under its working directory; no other command changes the set
    of paths, and a failed command changes none. */
module Git {
  import opened Wrappers
  import opened Errors
  import opened Strings

  // ---------------------------------------------------------------------
  // Paths (git.go: getRepoDirectory, getRepoPath)

  /** `path.Join(dir, elem)`: empty elements are dropped and the rest
      joined with a slash. Go's lexical cleaning of the result is not
      modelled. */
  function Join(dir: string, elem: string): (p: string)
    ensures p == "" <==> dir == "" && elem == ""
    ensures dir == "" || elem == "" ==> p == dir + elem
    ensures dir != "" && elem != "" ==>
              |p| == |dir| + 1 + |elem| && p[..|dir|] == dir && p[|dir|] == '/' && p[|dir| + 1..] == elem
  {
    if dir == "" then elem else if elem == "" then dir else dir + "/" + elem
  }

  /** `getRepoDirectory`: the bare mirror's directory name. */
  function RepoDirectory(name: string): (d: string)
    ensures |d| == |name| + 4
    ensures d[..|name|] == name && d[|name|..] == ".git"
  {
    name + ".git"
  }

  /** The repository name a mirror directory belongs to. */
  function RepoNameOf(dir: string): string
    requires |dir| >= 4
  {
    dir[..|dir| - 4]
  }

  /** The repository name can be read back from its mirror directory. */
  lemma RepoDirectoryRoundTrip(name: string)
    ensures RepoNameOf(RepoDirectory(name)) == name
  {
  }

  /** `getRepoPath`: where the bare mirror of `name` lives under `root`. */
  function RepoPath(root: string, name: string): (p: string)
    ensures |p| == (if root == "" then 0 else |root| + 1) + |name| + 4
  {
    Join(root, RepoDirectory(name))
  }

  /** The mirror path lies directly under the root and ends with the
      repository's `.git` directory. */
  lemma RepoPathUnderRoot(root: string, name: string)
    ensures var p := RepoPath(root, name);
            && p[|p| - |name| - 4..] == RepoDirectory(name)
            && (root != "" ==> p[..|root|] == root && p[|root|] == '/')
  {
  }

  /** Two repositories mirrored under the same root never share a local
      path, and the path is never the root itself. */
  lemma RepoPathInjective(root: string, a: string, b: string)
    ensures RepoPath(root, a) == RepoPath(root, b) ==> a == b
    ensures RepoPath(root, a) != root
  {
    if root != "" && RepoPath(root, a) == RepoPath(root, b) {
      var n := |root| + 1;
      assert (root + "/" + RepoDirectory(a))[n..] == RepoDirectory(a);
      assert (root + "/" + RepoDirectory(b))[n..] == RepoDirectory(b);
    }
  }

  // ---------------------------------------------------------------------
  // The host and its oracles

  /** `git <args>` run with working directory `dir`. */
  datatype Cmd = Cmd(dir: string, args: seq<string>)

  /** How a command ended: exit status zero, or a failure with the
      combined stdout/stderr and the error `CombinedOutput` returned. */
  datatype RunResult = Ran | Failed(output: string, err: Error)

  datatype World = World(
    mkdirAll: string -> Option<Error>,
    statFault: string -> Option<Error>,
    git: (seq<Cmd>, Cmd) -> RunResult)

  datatype HostState = HostState(fs: set<string>, trace: seq<Cmd>)

  /** The state after a step and the error it returned. */
  datatype Effect = Effect(after: HostState, err: Option<Error>)

  /** The state after `Mirror`, the path it returned and its error. */
  datatype MirrorResult = MirrorResult(after: HostState, path: string, err: Option<Error>)

  predicate IsClone(c: Cmd)
  {
    |c.args| >= 1 && c.args[0] == "clone"
  }

  /** The paths a successful command creates. */
  function Creates(c: Cmd): set<string>
  {
    if |c.args| == 4 && c.args[0] == "clone" && c.args[1] == "--mirror" then {Join(c.dir, c.args[3])} else {}
  }

  // ---------------------------------------------------------------------
  // shell.go: the git commands

  function CloneArgs(url: string, repoDir: string): seq<string>
  {
    ["clone", "--mirror", url, repoDir]
  }

  const FetchAllArgs: seq<string> := ["fetch", "--all"]
  const LfsInstallArgs: seq<string> := ["lfs", "install"]

  /** The three commands `Mirror` may issue for a repository. */
  function CloneCmd(root: string, name: string, url: string): Cmd
  {
    Cmd(root, CloneArgs(url, RepoDirectory(name)))
  }

  function FetchAllCmd(root: string, name: string): Cmd
  {
    Cmd(RepoPath(root, name), FetchAllArgs)
  }

  function LfsInstallCmd(root: string, name: string): Cmd
  {
    Cmd(RepoPath(root, name), LfsInstallArgs)
  }

  /** The error `runGit` returns for a failed command. */
  function RunGitError(args: seq<string>, output: string, cause: Error): Error
  {
    Wrapped("running " + ("git " + FormatList(args)) + "\noutput:" + output + ": ", cause)
  }

  /** A failed command's error names the command line, and with it every
      argument (so a failed clone names its URL), carries the command's
      output, and still wraps the underlying error. */
  lemma RunGitErrorMentions(args: seq<string>, output: string, cause: Error)
    ensures Contains(Message(RunGitError(args, output, cause)), "git " + FormatList(args))
    ensures forall k :: 0 <= k < |args| ==> Contains(Message(RunGitError(args, output, cause)), args[k])
    ensures Contains(Message(RunGitError(args, output, cause)), output)
    ensures RunGitError(args, output, cause).cause == cause
  {
    var line := "git " + FormatList(args);
    var m := Message(RunGitError(args, output, cause));
    assert m == "running " + line + ("\noutput:" + output + ": " + Message(cause));
    ContainsInfix("running ", line, "\noutput:" + output + ": " + Message(cause));
    assert m == ("running " + line + "\noutput:") + output + (": " + Message(cause));
    ContainsInfix("running " + line + "\noutput:", output, ": " + Message(cause));
    forall k | 0 <= k < |args|
      ensures Contains(m, args[k])
    {
      CommandLineNamesArg(args, k);
      ContainsTransitive(m, line, args[k]);
    }
  }

  /** Each argument is visible in the `git %v` command line. */
  lemma CommandLineNamesArg(args: seq<string>, k: nat)
    requires k < |args|
    ensures Contains("git " + FormatList(args), args[k])
  {
    assert "git " + FormatList(args) == "git [" + Spaced(args) + "]";
    ContainsInfix("git [", Spaced(args), "]");
    SpacedContainsEach(args, k);
    ContainsTransitive("git " + FormatList(args), Spaced(args), args[k]);
  }

  /** The last command of a trace failed, run after the ones before it. */
  predicate LastFailed(w: World, t: seq<Cmd>)
  {
    |t| > 0 && w.git(t[..|t| - 1], t[|t| - 1]).Failed?
  }

  /** The error the last command of such a trace ended with. */
  function LastError(w: World, t: seq<Cmd>): Error
    requires LastFailed(w, t)
  {
    w.git(t[..|t| - 1], t[|t| - 1]).err
  }

  /** `runGit`: record the command, ask the world how it ends. */
  function RunGitEffect(w: World, s: HostState, dir: string, args: seq<string>): (r: Effect)
    ensures r.after.trace == s.trace + [Cmd(dir, args)]
    ensures r.err.None? <==> w.git(s.trace, Cmd(dir, args)).Ran?
    ensures r.after.fs == if r.err.None? then s.fs + Creates(Cmd(dir, args)) else s.fs
    ensures r.err.Some? ==> LastFailed(w, r.after.trace) && SameKind(r.err.value, LastError(w, r.after.trace))
  {
    var c := Cmd(dir, args);
    assert (s.trace + [c])[..|s.trace|] == s.trace;
    match w.git(s.trace, c)
    case Ran => Effect(HostState(s.fs + Creates(c), s.trace + [c]), None)
    case Failed(out, e) =>
      Effect(HostState(s.fs, s.trace + [c]), Some(RunGitError(args, out, e)))
  }

  /** `fetch`: `fetch --all`, then `lfs install`, both in the mirror
      directory; the first failure ends it. */
  function FetchEffect(w: World, s: HostState, workingDir: string, repoDir: string): (r: Effect)
    ensures r.after.fs == s.fs
    ensures |s.trace| < |r.after.trace| <= |s.trace| + 2 && r.after.trace[..|s.trace|] == s.trace
    ensures forall i :: |s.trace| <= i < |r.after.trace| ==>
              r.after.trace[i].dir == Join(workingDir, repoDir) && !IsClone(r.after.trace[i])
    ensures r.err.Some? ==> LastFailed(w, r.after.trace) && SameKind(r.err.value, LastError(w, r.after.trace))
    ensures r.err.None? ==> !LastFailed(w, r.after.trace)
  {
    var dir := Join(workingDir, repoDir);
    var f := RunGitEffect(w, s, dir, FetchAllArgs);
    if f.err.Some? then Effect(f.after, Some(Wrapped("fetching: ", f.err.value)))
    else
      var l := RunGitEffect(w, f.after, dir, LfsInstallArgs);
      if l.err.Some? then Effect(l.after, Some(Wrapped("running lfs install: ", l.err.value)))
      else Effect(l.after, None)
  }

  /** The three ways `fetch` ends, with the commands it issued. */
  lemma FetchSteps(w: World, s: HostState, root: string, name: string)
    ensures var r := FetchEffect(w, s, root, RepoDirectory(name));
            var fa := FetchAllCmd(root, name);
            var li := LfsInstallCmd(root, name);
            var afterFetch := s.trace + [fa];
            && r.after.fs == s.fs
            && (w.git(s.trace, fa).Failed? ==>
                  r.after.trace == afterFetch &&
                  r.err == Some(Wrapped("fetching: ", RunGitError(FetchAllArgs, w.git(s.trace, fa).output, w.git(s.trace, fa).err))))
            && (w.git(s.trace, fa).Ran? && w.git(afterFetch, li).Failed? ==>
                  r.after.trace == afterFetch + [li] &&
                  r.err == Some(Wrapped("running lfs install: ",
                                        RunGitError(LfsInstallArgs, w.git(afterFetch, li).output, w.git(afterFetch, li).err))))
            && (w.git(s.trace, fa).Ran? && w.git(afterFetch, li).Ran? ==>
                  r.after.trace == afterFetch + [li] && r.err.None?)
  {
  }

  /** `git.Mirror`: ensure the root exists, check for the mirror directory,
      clone it if absent, then fetch. */
  function MirrorStep(w: World, s: HostState, root: string, name: string, url: string): (r: MirrorResult)
    ensures s.fs <= r.after.fs
    ensures |s.trace| <= |r.after.trace| && r.after.trace[..|s.trace|] == s.trace
    ensures r.err.None? ==> r.path == RepoPath(root, name) && RepoPath(root, name) in r.after.fs
    ensures r.err.Some? ==> r.path == ""
  {
    match w.mkdirAll(root)
    case Some(e) => MirrorResult(s, "", Some(Wrapped("creating git archive directory: ", e)))
    case None =>
      var s1 := s.(fs := s.fs + {root});
      var rp := RepoPath(root, name);
      match w.statFault(rp)
      case Some(e) =>
        MirrorResult(s1, "", Some(Wrapped("checking if repo '" + root + "/" + name + "' existed: ", e)))
      case None =>
        var c := if rp in s1.fs then Effect(s1, None)
                 else RunGitEffect(w, s1, root, CloneArgs(url, RepoDirectory(name)));
        if c.err.Some? then MirrorResult(c.after, "", Some(Wrapped("cloning repo '" + url + "': ", c.err.value)))
        else
          var f := FetchEffect(w, c.after, root, RepoDirectory(name));
          if f.err.Some? then MirrorResult(f.after, "", Some(Wrapped("fetching git repo '" + url + "': ", f.err.value)))
          else MirrorResult(f.after, rp, None)
  }

  // ---------------------------------------------------------------------
  // Properties of Mirror

  /** Where a failed `Mirror` got its error from, as `errors.Is` sees it:
      when it ran git, from the last command it ran, which failed; when it
      ran none, from `os.MkdirAll` on the root or `os.Stat` on the mirror
      directory. */
  lemma MirrorErrorClassified(w: World, s: HostState, root: string, name: string, url: string)
    requires MirrorStep(w, s, root, name, url).err.Some?
    ensures var r := MirrorStep(w, s, root, name, url);
            && (|r.after.trace| > |s.trace| ==>
                  LastFailed(w, r.after.trace) && SameKind(r.err.value, LastError(w, r.after.trace)))
            && (|r.after.trace| == |s.trace| ==>
                  || (w.mkdirAll(root).Some? && SameKind(r.err.value, w.mkdirAll(root).value))
                  || (w.statFault(RepoPath(root, name)).Some? &&
                      SameKind(r.err.value, w.statFault(RepoPath(root, name)).value)))
  {
    var rp := RepoPath(root, name);
    if w.mkdirAll(root).None? && w.statFault(rp).None? {
      var s1 := s.(fs := s.fs + {root});
      if rp in s1.fs {
        var f := FetchEffect(w, s1, root, RepoDirectory(name));
        assert MirrorStep(w, s, root, name, url).after == f.after;
      } else {
        var c := RunGitEffect(w, s1, root, CloneArgs(url, RepoDirectory(name)));
        if c.err.None? {
          var f := FetchEffect(w, c.after, root, RepoDirectory(name));
          assert MirrorStep(w, s, root, name, url).after == f.after;
        }
      }
    }
  }

  /** A successful `Mirror` ran git, and the last command it ran
      succeeded. */
  lemma MirrorSucceedsWithLastCommandRun(w: World, s: HostState, root: string, name: string, url: string)
    ensures var r := MirrorStep(w, s, root, name, url);
            r.err.None? ==> |r.after.trace| > |s.trace| && !LastFailed(w, r.after.trace)
  {
    var rp := RepoPath(root, name);
    if w.mkdirAll(root).None? && w.statFault(rp).None? {
      var s1 := s.(fs := s.fs + {root});
      if rp in s1.fs {
        var f := FetchEffect(w, s1, root, RepoDirectory(name));
        assert MirrorStep(w, s, root, name, url).after == f.after;
      } else {
        var c := RunGitEffect(w, s1, root, CloneArgs(url, RepoDirectory(name)));
        if c.err.None? {
          var f := FetchEffect(w, c.after, root, RepoDirectory(name));
          assert MirrorStep(w, s, root, name, url).after == f.after;
        }
      }
    }
  }

  /** If the root cannot be created, nothing else happens. */
  lemma MirrorStopsWhenRootFails(w: World, s: HostState, root: string, name: string, url: string)
    requires w.mkdirAll(root).Some?
    ensures MirrorStep(w, s, root, name, url)
            == MirrorResult(s, "", Some(Wrapped("creating git archive directory: ", w.mkdirAll(root).value)))
  {
  }

  /** A stat error other than "does not exist" ends the operation before
      any git command. */
  lemma MirrorStopsWhenStatFails(w: World, s: HostState, root: string, name: string, url: string)
    requires w.mkdirAll(root).None? && w.statFault(RepoPath(root, name)).Some?
    ensures var r := MirrorStep(w, s, root, name, url);
            && r.after.trace == s.trace
            && r.path == ""
            && r.err == Some(Wrapped("checking if repo '" + root + "/" + name + "' existed: ",
                                     w.statFault(RepoPath(root, name)).value))
  {
  }

  /** An absent mirror directory is cloned exactly once, into the root,
      from exactly the given URL. A failed clone ends the operation; after
      a successful one the fetch step runs against the new directory. */
  lemma MirrorClonesWhenAbsent(w: World, s: HostState, root: string, name: string, url: string)
    requires w.mkdirAll(root).None? && w.statFault(RepoPath(root, name)).None?
    requires RepoPath(root, name) !in s.fs
    ensures var r := MirrorStep(w, s, root, name, url);
            var cl := CloneCmd(root, name, url);
            var f := FetchEffect(w, HostState(s.fs + {root, RepoPath(root, name)}, s.trace + [cl]), root, RepoDirectory(name));
            && (w.git(s.trace, cl).Failed? ==>
                  r.after.trace == s.trace + [cl] && r.path == "" &&
                  r.err == Some(Wrapped("cloning repo '" + url + "': ",
                                        RunGitError(cl.args, w.git(s.trace, cl).output, w.git(s.trace, cl).err))))
            && (w.git(s.trace, cl).Ran? ==>
                  r.after == f.after &&
                  r.err == (if f.err.None? then None else Some(Wrapped("fetching git repo '" + url + "': ", f.err.value))))
  {
    var rp := RepoPath(root, name);
    var cl := CloneCmd(root, name, url);
    var s1 := s.(fs := s.fs + {root});
    var c := RunGitEffect(w, s1, root, CloneArgs(url, RepoDirectory(name)));
    assert Creates(cl) == {rp};
    if w.git(s.trace, cl).Ran? {
      assert c.after == HostState(s.fs + {root, rp}, s.trace + [cl]);
    }
  }

  /** An existing mirror directory is never cloned again: only the fetch
      step runs. */
  lemma MirrorFetchesWhenPresent(w: World, s: HostState, root: string, name: string, url: string)
    requires w.mkdirAll(root).None? && w.statFault(RepoPath(root, name)).None?
    requires RepoPath(root, name) in s.fs
    ensures var r := MirrorStep(w, s, root, name, url);
            var f := FetchEffect(w, HostState(s.fs + {root}, s.trace), root, RepoDirectory(name));
            && r.after == f.after
            && r.err == (if f.err.None? then None else Some(Wrapped("fetching git repo '" + url + "': ", f.err.value)))
  {
  }

  /** A first mirror of a new repository, when every step succeeds: one
      clone, one `fetch --all`, one `lfs install`, in that order, and the
      root and the mirror directory now exist. */
  lemma FirstMirrorCommands(w: World, s: HostState, root: string, name: string, url: string)
    requires w.mkdirAll(root).None? && w.statFault(RepoPath(root, name)).None?
    requires RepoPath(root, name) !in s.fs
    requires var cl := CloneCmd(root, name, url);
             var fa := FetchAllCmd(root, name);
             && w.git(s.trace, cl).Ran?
             && w.git(s.trace + [cl], fa).Ran?
             && w.git(s.trace + [cl, fa], LfsInstallCmd(root, name)).Ran?
    ensures var r := MirrorStep(w, s, root, name, url);
            && r.after.trace == s.trace + [CloneCmd(root, name, url), FetchAllCmd(root, name), LfsInstallCmd(root, name)]
            && r.after.fs == s.fs + {root, RepoPath(root, name)}
            && r == MirrorResult(r.after, RepoPath(root, name), None)
  {
    var cl := CloneCmd(root, name, url);
    var fa := FetchAllCmd(root, name);
    assert s.trace + [cl] + [fa] == s.trace + [cl, fa];
    assert s.trace + [cl, fa] + [LfsInstallCmd(root, name)]
        == s.trace + [cl, fa, LfsInstallCmd(root, name)];
  }

  /** `Mirror` issues at most three commands, each one of the three it
      has for this repository: the clone into the root from `url`, and the
      two fetch-step commands in the mirror directory. */
  lemma MirrorIssuesOnlyItsCommands(w: World, s: HostState, root: string, name: string, url: string)
    ensures var r := MirrorStep(w, s, root, name, url);
            && |s.trace| <= |r.after.trace| <= |s.trace| + 3
            && forall k :: |s.trace| <= k < |r.after.trace| ==>
                 r.after.trace[k] == CloneCmd(root, name, url) ||
                 r.after.trace[k] == FetchAllCmd(root, name) ||
                 r.after.trace[k] == LfsInstallCmd(root, name)
  {
  }

  /** Idempotence: once a mirror has succeeded, mirroring the same
      repository again never issues a clone, whatever the URL. */
  lemma SecondMirrorNeverClones(w: World, s: HostState, root: string, name: string, url: string, url': string)
    requires MirrorStep(w, s, root, name, url).err.None?
    ensures var s1 := MirrorStep(w, s, root, name, url).after;
            var r := MirrorStep(w, s1, root, name, url');
            && |s1.trace| <= |r.after.trace|
            && forall k :: |s1.trace| <= k < |r.after.trace| ==> !IsClone(r.after.trace[k])
  {
    var s1 := MirrorStep(w, s, root, name, url).after;
    assert RepoPath(root, name) in s1.fs;
  }

  // ---------------------------------------------------------------------
  // shell.go: IsInstalled, IsLfsInstalled

  /** What `exec.LookPath("git")` returned. */
  datatype LookPathResult = Found(path: string) | LookPathFailed(err: Error)

  /** `IsInstalled`: git is installed exactly when it was found; a lookup
      that failed because git is not on the PATH is not an error. */
  function IsInstalled(lookPath: LookPathResult): (r: (bool, Option<Error>))
    ensures r.0 <==> lookPath.Found?
    ensures r.1.None? <==> lookPath.Found? || Is(lookPath.err, ExecNotFound)
    ensures r.1.Some? ==> r.1.value == lookPath.err
  {
    match lookPath
    case Found(_) => (true, None)
    case LookPathFailed(e) => if Is(e, ExecNotFound) then (false, None) else (false, Some(e))
  }

  /** The error `exec.LookPath` returns when git is not on the PATH. */
  lemma GitNotOnPath()
    ensures IsInstalled(LookPathFailed(Wrapped("exec: \"git\": ", Sentinel(ExecNotFound)))) == (false, None)
  {
  }

  /** The combined output and error of running `git lfs`. */
  datatype CommandOutput = CommandOutput(output: string, err: Option<Error>)

  /** `IsLfsInstalled`: LFS is installed exactly when `git lfs` succeeded;
      a failure whose output says "not a git command" means it is missing;
      any other failure is an error carrying the output. */
  function IsLfsInstalled(probe: CommandOutput): (r: (bool, Option<Error>))
    ensures r.0 <==> probe.err.None?
    ensures r.1.None? <==> probe.err.None? || exists i :: OccursAt(probe.output, "not a git command", i)
    ensures r.1.Some? ==>
              r.1.value == Wrapped("checking if lfs is installed: output: " + probe.output + "\nerror: ", probe.err.value)
  {
    match probe.err
    case None => (true, None)
    case Some(e) =>
      if Contains(probe.output, "not a git command") then (false, None)
      else (false, Some(Wrapped("checking if lfs is installed: output: " + probe.output + "\nerror: ", e)))
  }

  /** Whatever surrounds it in git's output (git prints
      "git: 'lfs' is not a git command. See 'git --help'."), the phrase
      "not a git command" makes a failed probe mean "not installed", not an
      error. */
  lemma LfsMissingIsNotAnError(before: string, after: string, e: Error)
    ensures IsLfsInstalled(CommandOutput(before + "not a git command" + after, Some(e))) == (false, None)
  {
    ContainsInfix(before, "not a git command", after);
  }

  // ---------------------------------------------------------------------
  // The host as an object

  class Host {
    var fs: set<string>
    var trace: seq<Cmd>
    const world: World

    constructor (world: World, fs: set<string>)
      ensures this.world == world && this.fs == fs && trace == []
    {
      this.world := world;
      this.fs := fs;
      trace := [];
    }

    function State(): HostState
      reads this
    {
      HostState(fs, trace)
    }

    /** `ensurePathExists`: `os.MkdirAll(path, 0755)`. */
    method EnsurePathExists(path: string) returns (err: Option<Error>)
      modifies this`fs
      ensures err == world.mkdirAll(path)
      ensures fs == if err.None? then old(fs) + {path} else old(fs)
    {
      err := world.mkdirAll(path);
      if err.None? {
        fs := fs + {path};
      }
    }

    /** `repoExists`: `os.Stat` on the mirror directory; "does not exist"
        is an answer, any other error is returned. */
    method RepoExists(root: string, name: string) returns (present: bool, err: Option<Error>)
      ensures err == world.statFault(RepoPath(root, name))
      ensures present <==> err.None? && RepoPath(root, name) in fs
    {
      err := world.statFault(RepoPath(root, name));
      if err.Some? {
        return false, err;
      }
      present := RepoPath(root, name) in fs;
    }

    /** `runGit`. */
    method RunGit(workingDir: string, args: seq<string>) returns (err: Option<Error>)
      modifies this`fs, this`trace
      ensures Effect(State(), err) == RunGitEffect(world, old(State()), workingDir, args)
    {
      var cmd := Cmd(workingDir, args);
      var outcome := world.git(trace, cmd);
      trace := trace + [cmd];
      match outcome
      case Ran =>
        fs := fs + Creates(cmd);
        err := None;
      case Failed(out, e) =>
        err := Some(RunGitError(args, out, e));
    }

    /** `mirrorClone`: one `git clone --mirror <url> <dir>` in the root. */
    method MirrorClone(workingDir: string, repoDir: string, url: string) returns (err: Option<Error>)
      modifies this`fs, this`trace
      ensures Effect(State(), err) == RunGitEffect(world, old(State()), workingDir, CloneArgs(url, repoDir))
    {
      err := RunGit(workingDir, ["clone", "--mirror", url, repoDir]);
    }

    /** `fetch`. */
    method Fetch(workingDir: string, repoDir: string) returns (err: Option<Error>)
      modifies this`fs, this`trace
      ensures Effect(State(), err) == FetchEffect(world, old(State()), workingDir, repoDir)
    {
      var dir := Join(workingDir, repoDir);
      err := RunGit(dir, ["fetch", "--all"]);
      if err.Some? {
        return Some(Wrapped("fetching: ", err.value));
      }
      err := RunGit(dir, ["lfs", "install"]);
      if err.Some? {
        return Some(Wrapped("running lfs install: ", err.value));
      }
      return None;
    }

    /** `Mirror`. */
    method Mirror(root: string, name: string, url: string) returns (path: string, err: Option<Error>)
      modifies this`fs, this`trace
      ensures MirrorResult(State(), path, err) == MirrorStep(world, old(State()), root, name, url)
    {
      err := EnsurePathExists(root);
      if err.Some? {
        return "", Some(Wrapped("creating git archive directory: ", err.value));
      }
      var present;
      present, err := RepoExists(root, name);
      if err.Some? {
        return "", Some(Wrapped("checking if repo '" + root + "/" + name + "' existed: ", err.value));
      }
      if !present {
        err := MirrorClone(root, RepoDirectory(name), url);
        if err.Some? {
          return "", Some(Wrapped("cloning repo '" + url + "': ", err.value));
        }
      }
      err := Fetch(root, RepoDirectory(name));
      if err.Some? {
        return "", Some(Wrapped("fetching git repo '" + url + "': ", err.value));
      }
      return RepoPath(root, name), None;
    }
  }
}
