/** pkg/app: building the application from its options, and the rules
    that decide what a run reports and logs.

    The goroutines, wait groups, channels and semaphore that run mirrors
    and repositories concurrently are not modelled. What the run loops do
    with the results they receive is: the results are an input sequence
    in arrival order, any order at all. */
module Orchestrator {
  import opened Wrappers
  import opened Errors
  import opened Strings
  import opened Config
  import opened Git

  // ---------------------------------------------------------------------
  // config.go: options

  /** The options `New` accepts; pkg/app/config.go defines one. */
  datatype AppOption = WithConcurrency(concurrency: int)

  /** The fields of an `App` that options and `New` set. The logger is
      not part of the model. */
  datatype Settings = Settings(conf: Config, concurrency: int)

  /** Calling the closure an option stands for on an `App`. */
  function ApplyOption(s: Settings, opt: AppOption): (r: Settings)
    ensures r.conf == s.conf
  {
    match opt
    case WithConcurrency(n) => s.(concurrency := n)
  }

  /** `configure`: the options applied in the order given. */
  function Configured(s: Settings, opts: seq<AppOption>): (r: Settings)
    ensures r.conf == s.conf
    decreases |opts|
  {
    if |opts| == 0 then s else Configured(ApplyOption(s, opts[0]), opts[1..])
  }

  /** Configuring with two lists of options in turn is configuring with
      their concatenation: the options form an ordered fold. */
  lemma {:induction false} ConfiguredAppend(s: Settings, a: seq<AppOption>, b: seq<AppOption>)
    ensures Configured(s, a + b) == Configured(Configured(s, a), b)
    decreases |a|
  {
    if |a| == 0 {
      assert a + b == b;
    } else {
      assert (a + b)[0] == a[0];
      assert (a + b)[1..] == a[1..] + b;
      ConfiguredAppend(ApplyOption(s, a[0]), a[1..], b);
    }
  }

  /** No option leaves the configuration alone, and no option touches
      anything but the concurrency; with no options nothing changes, and
      otherwise the last `WithConcurrency` decides. */
  lemma {:induction false} LastConcurrencyWins(s: Settings, opts: seq<AppOption>)
    ensures Configured(s, opts).conf == s.conf
    ensures |opts| == 0 ==> Configured(s, opts) == s
    ensures |opts| > 0 ==> Configured(s, opts).concurrency == opts[|opts| - 1].concurrency
    decreases |opts|
  {
    if |opts| > 0 {
      LastConcurrencyWins(ApplyOption(s, opts[0]), opts[1..]);
      if |opts| > 1 {
        assert opts[1..][|opts[1..]| - 1] == opts[|opts| - 1];
      }
    }
  }

  /** The concurrency `New` settles on: the configured value if it is
      positive, the number of CPUs otherwise. */
  function EffectiveConcurrency(configured: int, numCPU: int): (c: int)
    requires numCPU >= 1
    ensures c >= 1
    ensures configured > 0 ==> c == configured
    ensures configured <= 0 ==> c == numCPU
  {
    if configured <= 0 then numCPU else configured
  }

  // ---------------------------------------------------------------------
  // app.go: processRepo

  /** The behaviour of the repository sources: what `ListRepos` and
      `GetRepo` return to the task of mirror `idx` for a source. Each mirror
      task makes its own calls, so two mirrors with the same account may
      see different answers. */
  datatype Forge = Forge(
    listRepos: (nat, RepoSource) -> Result<seq<string>, Error>,
    getRepo: (nat, RepoSource, string) -> Result<string, Error>)

  /** `processRepo`: look the repository up, then mirror it into the
      root; either failure is returned tagged with the repository name. */
  function ProcessRepoStep(w: World, s: HostState, root: string, name: string, lookup: Result<string, Error>): (r: Effect)
    ensures |s.trace| <= |r.after.trace| && r.after.trace[..|s.trace|] == s.trace && s.fs <= r.after.fs
    ensures r.err.Some? ==> r.err.value.Wrapped? && r.err.value.prefix == "repo '" + name + "': "
  {
    match lookup
    case Failure(e) => Effect(s, Some(Wrapped("repo '" + name + "': ", e)))
    case Success(url) =>
      var m := MirrorStep(w, s, root, name, url);
      Effect(m.after, if m.err.Some? then Some(Wrapped("repo '" + name + "': ", m.err.value)) else None)
  }

  /** The task `processMirror` starts for repository `name` of mirror
      `idx`: `processRepo` with the mirror's `cloneTo` as the root and the
      mirror's source for the lookup. */
  function RepoTask(w: World, s: HostState, idx: nat, m: Mirror, forge: Forge, name: string): (r: Effect)
    requires GetSource(m).Some?
    ensures var lookup := forge.getRepo(idx, GetSource(m).value, name);
            && |s.trace| <= |r.after.trace| && r.after.trace[..|s.trace|] == s.trace
            && (lookup.Failure? ==> r.after == s)
            && (lookup.Success? ==>
                  forall k :: |s.trace| <= k < |r.after.trace| ==>
                    || r.after.trace[k] == CloneCmd(m.cloneTo, name, lookup.value)
                    || r.after.trace[k] == FetchAllCmd(m.cloneTo, name)
                    || r.after.trace[k] == LfsInstallCmd(m.cloneTo, name))
  {
    var lookup := forge.getRepo(idx, GetSource(m).value, name);
    if lookup.Success? then
      MirrorIssuesOnlyItsCommands(w, s, m.cloneTo, name, lookup.value);
      ProcessRepoStep(w, s, m.cloneTo, name, lookup)
    else ProcessRepoStep(w, s, m.cloneTo, name, lookup)
  }

  /** A failed lookup touches nothing and issues no command; a successful
      one mirrors exactly the URL it returned into the mirror's root, and
      the outcome is Mirror's, tagged with the repository name. */
  lemma ProcessRepoContract(w: World, s: HostState, root: string, name: string, lookup: Result<string, Error>)
    ensures var r := ProcessRepoStep(w, s, root, name, lookup);
            && (lookup.Failure? ==> r.after == s && r.err == Some(Wrapped("repo '" + name + "': ", lookup.error)))
            && (lookup.Success? ==>
                  var m := MirrorStep(w, s, root, name, lookup.value);
                  && r.after == m.after
                  && (r.err.None? <==> m.err.None?)
                  && (r.err.Some? ==> r.err.value == Wrapped("repo '" + name + "': ", m.err.value))
                  && forall k :: |s.trace| <= k < |r.after.trace| && IsClone(r.after.trace[k]) ==>
                       r.after.trace[k] == CloneCmd(root, name, lookup.value))
  {
    if lookup.Success? {
      MirrorIssuesOnlyItsCommands(w, s, root, name, lookup.value);
    }
  }

  /** A repository whose `fetch --all` fails reports `git`'s error under
      three layers of context (repository, Mirror, fetch): `errors.Is`
      classifies it like the command's own error, and its text ends with
      the text of the failed command's error. */
  lemma FetchFailureReported(w: World, s: HostState, root: string, name: string, url: string)
    requires w.mkdirAll(root).None? && w.statFault(RepoPath(root, name)).None?
    requires RepoPath(root, name) in s.fs
    requires w.git(s.trace, FetchAllCmd(root, name)).Failed?
    ensures var g := w.git(s.trace, FetchAllCmd(root, name));
            var cause := RunGitError(FetchAllArgs, g.output, g.err);
            var r := ProcessRepoStep(w, s, root, name, Success(url));
            var msg := Message(r.err.value);
            && r.err == Some(WrapAll(["repo '" + name + "': ", "fetching git repo '" + url + "': ", "fetching: "], cause))
            && SameKind(r.err.value, g.err)
            && |msg| >= |Message(cause)| && msg[|msg| - |Message(cause)|..] == Message(cause)
  {
    var g := w.git(s.trace, FetchAllCmd(root, name));
    var cause := RunGitError(FetchAllArgs, g.output, g.err);
    var p0, p1, p2 := "repo '" + name + "': ", "fetching git repo '" + url + "': ", "fetching: ";
    var prefixes := [p0, p1, p2];
    MirrorFetchesWhenPresent(w, s, root, name, url);
    FetchSteps(w, HostState(s.fs + {root}, s.trace), root, name);
    assert WrapAll([p2], cause) == Wrapped(p2, cause) by { assert [p2][1..] == []; }
    assert WrapAll([p1, p2], cause) == Wrapped(p1, Wrapped(p2, cause)) by { assert [p1, p2][1..] == [p2]; }
    assert WrapAll(prefixes, cause) == Wrapped(p0, Wrapped(p1, Wrapped(p2, cause))) by {
      assert prefixes[1..] == [p1, p2];
    }
    IsSeesThroughWrapping(prefixes, cause);
    WrappedMessageEndsWithCause(prefixes, cause);
  }

  /** A repository task that ends because its last git command failed with
      `context.Canceled` under it (the run's context was cancelled) returns
      an error that `errors.Is` recognises as the cancellation, so the
      mirror task does not log it. */
  lemma CanceledRepoIsNotLogged(w: World, s: HostState, idx: nat, m: Mirror, forge: Forge, name: string)
    requires GetSource(m).Some?
    requires var r := RepoTask(w, s, idx, m, forge, name);
             && |r.after.trace| > |s.trace|
             && LastFailed(w, r.after.trace) && Is(LastError(w, r.after.trace), ContextCanceled)
    ensures var r := RepoTask(w, s, idx, m, forge, name);
            && r.err.Some? && Is(r.err.value, ContextCanceled)
            && LoggedRepoErrors([r.err]) == []
  {
    var lookup := forge.getRepo(idx, GetSource(m).value, name);
    var r := RepoTask(w, s, idx, m, forge, name);
    var ms := MirrorStep(w, s, m.cloneTo, name, lookup.value);
    MirrorSucceedsWithLastCommandRun(w, s, m.cloneTo, name, lookup.value);
    MirrorErrorClassified(w, s, m.cloneTo, name, lookup.value);
    LoggedRepoErrorsOne(r.err);
  }

  // ---------------------------------------------------------------------
  // app.go: processMirror and runOnce, as outcome rules

  /** What one mirror task produces: the error it sends on the mirror
      channel, if any, and the repository errors it logs at error level
      (each printed as "mirroring repo: <error>"). */
  datatype MirrorOutcome = MirrorOutcome(report: Option<Error>, errorLog: seq<Error>)

  /** The mirror resolves to a source and its repositories can be listed. */
  predicate Lists(idx: nat, m: Mirror, forge: Forge)
  {
    GetSource(m).Some? && forge.listRepos(idx, GetSource(m).value).Success?
  }

  /** The repository errors the mirror task logs, given the repository
      results in the order they arrived: every non-nil one except those
      that are `context.Canceled`. */
  function LoggedRepoErrors(results: seq<Option<Error>>): (logged: seq<Error>)
    ensures |logged| <= |results|
    ensures forall j :: 0 <= j < |logged| ==> !Is(logged[j], ContextCanceled) && Some(logged[j]) in results
    ensures forall i :: 0 <= i < |results| && results[i].Some? && !Is(results[i].value, ContextCanceled) ==>
              results[i].value in logged
    decreases |results|
  {
    if |results| == 0 then []
    else
      var rest := LoggedRepoErrors(results[1..]);
      assert forall i :: 1 <= i < |results| ==> results[i] == results[1..][i - 1];
      match results[0]
      case Some(e) => if Is(e, ContextCanceled) then rest else [e] + rest
      case None => rest
  }

  /** Logging is a filter applied to each result in turn: the errors logged
      for two batches of results, one arriving after the other, are those
      of the first batch followed by those of the second. */
  lemma {:induction false} LoggedRepoErrorsAppend(a: seq<Option<Error>>, b: seq<Option<Error>>)
    ensures LoggedRepoErrors(a + b) == LoggedRepoErrors(a) + LoggedRepoErrors(b)
    decreases |a|
  {
    if |a| == 0 {
      assert a + b == b;
    } else {
      assert (a + b)[0] == a[0];
      assert (a + b)[1..] == a[1..] + b;
      LoggedRepoErrorsAppend(a[1..], b);
    }
  }

  /** One result on its own: nil, or a cancellation, logs nothing; any other
      error is logged as it is. */
  lemma LoggedRepoErrorsOne(result: Option<Error>)
    ensures LoggedRepoErrors([result]) ==
              if result.Some? && !Is(result.value, ContextCanceled) then [result.value] else []
  {
    assert [result][1..] == [];
  }

  /** `processMirror`: a mirror without a source, or whose listing fails,
      reports one error tagged with its index and mirrors nothing; any
      other mirror reports nothing, whatever happens to its repositories,
      and only logs their errors. */
  function ProcessMirrorOutcome(idx: nat, m: Mirror, forge: Forge, results: seq<Option<Error>>): (r: MirrorOutcome)
    ensures r.report.Some? <==> !Lists(idx, m, forge)
    ensures GetSource(m).None? ==>
              r == MirrorOutcome(Some(Leaf("unable to get mirror " + Decimal(idx) + " source")), [])
    ensures GetSource(m).Some? && forge.listRepos(idx, GetSource(m).value).Failure? ==>
              r == MirrorOutcome(Some(Wrapped("mirror " + Decimal(idx) + ": ", forge.listRepos(idx, GetSource(m).value).error)), [])
    ensures Lists(idx, m, forge) ==> r.errorLog == LoggedRepoErrors(results)
  {
    match GetSource(m)
    case None => MirrorOutcome(Some(Leaf("unable to get mirror " + Decimal(idx) + " source")), [])
    case Some(src) =>
      match forge.listRepos(idx, src)
      case Failure(e) => MirrorOutcome(Some(Wrapped("mirror " + Decimal(idx) + ": ", e)), [])
      case Success(_) => MirrorOutcome(None, LoggedRepoErrors(results))
  }

  /** `runOnce`: the first non-nil mirror report to arrive, wrapped, or
      nil when every mirror reported nothing. */
  function RunOnce(reports: seq<Option<Error>>): (r: Option<Error>)
    ensures r.None? <==> forall i :: 0 <= i < |reports| ==> reports[i].None?
    ensures r.Some? ==> exists k :: 0 <= k < |reports| && reports[k].Some? &&
                                   (forall j :: 0 <= j < k ==> reports[j].None?) &&
                                   r == Some(Wrapped("error processing mirror: ", reports[k].value))
  {
    match FirstNonNil(reports)
    case None => None
    case Some(e) => Some(Wrapped("error processing mirror: ", e))
  }

  /** What `Run` returns and what it logs at error level. */
  datatype RunOutcome = RunOutcome(err: Option<Error>, errorLog: seq<Error>)

  /** `Run`: `runOnce`'s result, logged when it is an error. */
  function Run(reports: seq<Option<Error>>): (r: RunOutcome)
    ensures r.err.None? <==> forall i :: 0 <= i < |reports| ==> reports[i].None?
    ensures r.err.Some? ==> r.err == RunOnce(reports) && r.errorLog == [r.err.value]
    ensures r.err.None? ==> r.errorLog == []
  {
    var e := RunOnce(reports);
    RunOutcome(e, if e.Some? then [e.value] else [])
  }

  /** The mirror reports of a configuration in a given arrival order:
      `order[k]` is the index of the k-th mirror to finish, and
      `repoResults[i]` the repository results mirror `i` received. */
  function ArrivedReports(ms: seq<Mirror>, forge: Forge, repoResults: seq<seq<Option<Error>>>, order: seq<nat>): (r: seq<Option<Error>>)
    requires |repoResults| == |ms|
    requires forall k :: 0 <= k < |order| ==> order[k] < |ms|
    ensures |r| == |order|
    ensures forall k :: 0 <= k < |order| ==> (r[k].None? <==> Lists(order[k], ms[order[k]], forge))
  {
    seq(|order|, k requires 0 <= k < |order| =>
      ProcessMirrorOutcome(order[k], ms[order[k]], forge, repoResults[order[k]]).report)
  }

  /** Failure isolation for a whole run: whatever order the mirrors finish
      in and whatever happens to any repository, the run succeeds exactly
      when every mirror has a source whose repositories can be listed, and
      a failing run returns the report of a mirror that could not list. */
  lemma {:induction false} RunOutcomeIsolation(ms: seq<Mirror>, forge: Forge, repoResults: seq<seq<Option<Error>>>, order: seq<nat>)
    requires |repoResults| == |ms|
    requires forall k :: 0 <= k < |order| ==> order[k] < |ms|
    requires forall i :: 0 <= i < |ms| ==> i in order
    ensures var r := RunOnce(ArrivedReports(ms, forge, repoResults, order));
            && (r.None? <==> forall i :: 0 <= i < |ms| ==> Lists(i, ms[i], forge))
            && (r.Some? ==>
                  exists i :: 0 <= i < |ms| && !Lists(i, ms[i], forge) &&
                    r == Some(Wrapped("error processing mirror: ",
                                      ProcessMirrorOutcome(i, ms[i], forge, repoResults[i]).report.value)))
  {
    var reports := ArrivedReports(ms, forge, repoResults, order);
    var r := RunOnce(reports);
    if r.None? {
      forall i | 0 <= i < |ms|
        ensures Lists(i, ms[i], forge)
      {
        assert i in order;
        var k :| 0 <= k < |order| && order[k] == i;
        assert reports[k].None?;
      }
    } else {
      var k :| 0 <= k < |reports| && reports[k].Some? &&
               r == Some(Wrapped("error processing mirror: ", reports[k].value));
      var i := order[k];
      assert !Lists(i, ms[i], forge);
    }
  }

  /** The error-isolation law at the level of one mirror: two runs of a
      mirror that differ only in what happened to its repositories report
      the same thing. */
  lemma MirrorReportIgnoresRepos(idx: nat, m: Mirror, forge: Forge, results: seq<Option<Error>>, results': seq<Option<Error>>)
    ensures ProcessMirrorOutcome(idx, m, forge, results).report == ProcessMirrorOutcome(idx, m, forge, results').report
  {
  }

  /** Two different mirrors never send the same report: each report names
      the index of the mirror it came from. */
  lemma MirrorReportNamesIndex(i: nat, j: nat, mi: Mirror, mj: Mirror, forge: Forge,
                               ri: seq<Option<Error>>, rj: seq<Option<Error>>)
    requires i != j
    requires ProcessMirrorOutcome(i, mi, forge, ri).report.Some?
    ensures ProcessMirrorOutcome(i, mi, forge, ri).report != ProcessMirrorOutcome(j, mj, forge, rj).report
  {
    var a := ProcessMirrorOutcome(i, mi, forge, ri).report;
    var b := ProcessMirrorOutcome(j, mj, forge, rj).report;
    if a == b {
      if GetSource(mi).None? {
        assert GetSource(mj).None?;
        DecimalTagInjective("unable to get mirror ", " source", i, j);
      } else {
        assert GetSource(mj).Some?;
        DecimalTagInjective("mirror ", ": ", i, j);
      }
    }
  }

  /** Whatever the arrival order, a run's verdict is the same: a
      reordering of the reports cannot turn a failing run into a
      successful one or back. */
  lemma RunOnceOrderInsensitive(a: seq<Option<Error>>, b: seq<Option<Error>>)
    requires multiset(a) == multiset(b)
    ensures RunOnce(a).None? <==> RunOnce(b).None?
  {
    if RunOnce(a).Some? {
      var k :| 0 <= k < |a| && a[k].Some?;
      assert a[k] in multiset(b);
      var j :| 0 <= j < |b| && b[j] == a[k];
    }
    if RunOnce(b).Some? {
      var k :| 0 <= k < |b| && b[k].Some?;
      assert b[k] in multiset(a);
      var j :| 0 <= j < |a| && a[j] == b[k];
    }
  }

  // ---------------------------------------------------------------------
  // app.go: App and New

  class App {
    var conf: Config
    var concurrency: int

    /** `App{conf: ..., log: ...}`: the concurrency starts at Go's zero value. */
    constructor (conf: Config)
      ensures this.conf == conf && concurrency == 0
    {
      this.conf := conf;
      concurrency := 0;
    }

    function View(): Settings
      reads this
    {
      Settings(conf, concurrency)
    }

    /** `opt(app)`. */
    method Apply(opt: AppOption)
      modifies this
      ensures View() == ApplyOption(old(View()), opt)
    {
      match opt
      case WithConcurrency(n) =>
        concurrency := n;
    }

    /** `configure`. */
    method Configure(opts: seq<AppOption>)
      modifies this
      ensures View() == Configured(old(View()), opts)
    {
      for i := 0 to |opts|
        invariant View() == Configured(old(View()), opts[..i])
      {
        ConfiguredAppend(old(View()), opts[..i], [opts[i]]);
        assert opts[..i + 1] == opts[..i] + [opts[i]];
        Apply(opts[i]);
      }
      assert opts[..|opts|] == opts;
    }

    /** `processRepo`. */
    method ProcessRepo(host: Host, idx: nat, src: RepoSource, forge: Forge, root: string, name: string) returns (err: Option<Error>)
      modifies host
      ensures Effect(host.State(), err) == ProcessRepoStep(host.world, old(host.State()), root, name, forge.getRepo(idx, src, name))
    {
      var lookup := forge.getRepo(idx, src, name);
      if lookup.Failure? {
        return Some(Wrapped("repo '" + name + "': ", lookup.error));
      }
      var _, mirrorErr := host.Mirror(root, name, lookup.value);
      if mirrorErr.Some? {
        return Some(Wrapped("repo '" + name + "': ", mirrorErr.value));
      }
      return None;
    }
  }

  /** The checks `New` makes, in the order it makes them. */
  datatype Check = LoadConfig | CheckGit | CheckLfs

  /** `New`: load the configuration, then check that git is installed,
      then that git LFS is; the first failure returns no App and skips the
      remaining checks (`checks` records those made). The decoder's
      outcome, what `exec.LookPath("git")` returned, the output of `git lfs`
      and `runtime.NumCPU()` are inputs. */
  method New(decoded: Result<Config, Error>, lookPath: LookPathResult, lfsProbe: CommandOutput, numCPU: int, opts: seq<AppOption>)
    returns (app: App?, err: Option<Error>, ghost checks: seq<Check>)
    requires numCPU >= 1
    ensures app == null <==> err.Some?
    ensures var loadErr := if decoded.Failure? then Some(decoded.error) else ConfigValidation(decoded.value);
            var git := IsInstalled(lookPath);
            var lfs := IsLfsInstalled(lfsProbe);
            && (loadErr.Some? ==>
                  err == Some(Wrapped("reading config: ", loadErr.value)) && checks == [LoadConfig])
            && (loadErr.None? && git.1.Some? ==>
                  err == Some(Wrapped("checking if git was installed: ", git.1.value)) && checks == [LoadConfig, CheckGit])
            && (loadErr.None? && git.1.None? && !git.0 ==>
                  err == Some(Leaf("git must be installed and on your PATH")) && checks == [LoadConfig, CheckGit])
            && (loadErr.None? && git.0 && lfs.1.Some? ==>
                  err == Some(Wrapped("checking if git lfs was installed: ", lfs.1.value)) && checks == [LoadConfig, CheckGit, CheckLfs])
            && (loadErr.None? && git.0 && lfs.1.None? && !lfs.0 ==>
                  err == Some(Leaf("git lfs must be installed")) && checks == [LoadConfig, CheckGit, CheckLfs])
            && (loadErr.None? && git.0 && lfs.0 ==>
                  && app != null && fresh(app)
                  && app.conf == decoded.value
                  && app.concurrency == EffectiveConcurrency(Configured(Settings(decoded.value, 0), opts).concurrency, numCPU)
                  && app.concurrency >= 1
                  && checks == [LoadConfig, CheckGit, CheckLfs])
  {
    checks := [LoadConfig];
    var conf, loadErr := Load(decoded);
    if loadErr.Some? {
      return null, Some(Wrapped("reading config: ", loadErr.value)), checks;
    }

    checks := checks + [CheckGit];
    var ok, checkErr := IsInstalled(lookPath).0, IsInstalled(lookPath).1;
    if checkErr.Some? {
      return null, Some(Wrapped("checking if git was installed: ", checkErr.value)), checks;
    }
    if !ok {
      return null, Some(Leaf("git must be installed and on your PATH")), checks;
    }

    checks := checks + [CheckLfs];
    ok, checkErr := IsLfsInstalled(lfsProbe).0, IsLfsInstalled(lfsProbe).1;
    if checkErr.Some? {
      return null, Some(Wrapped("checking if git lfs was installed: ", checkErr.value)), checks;
    }
    if !ok {
      return null, Some(Leaf("git lfs must be installed")), checks;
    }

    app := new App(conf.value);
    app.Configure(opts);
    LastConcurrencyWins(Settings(conf.value, 0), opts);
    if app.concurrency <= 0 {
      app.concurrency := numCPU;
    }
    return app, None, checks;
  }
}
