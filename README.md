# gitupgitout: a Dafny model of the mirroring core

gitupgitout (`gugo`) mirrors every repository of one or more GitHub or
GitLab accounts into bare `git clone --mirror` copies under a destination
directory, and brings them up to date on each run. This project models the
sequential decision rules underneath its concurrent orchestrator. It proves
properties of that model.

- **Configuration** (`internal/config`). Each mirror has two optional
  account pointers and a destination root. The model covers `firstNonNil`,
  the GitHub-before-GitLab choice of `GetSource`, per-mirror and
  whole-configuration validation, and `Load` ("decode, then validate").
  Decoding is an input.
- **Clone-or-fetch** (`pkg/git`). A class `Host` has a set of existing
  paths `fs` and the trace of git commands issued so far. A `World` of
  oracles says how `os.MkdirAll`, `os.Stat` and each git command end. A git
  command's outcome may depend on everything run before it.
  `EnsurePathExists` and `RepoExists` are specified directly against the
  `os.MkdirAll` and `os.Stat` oracles; a successful `MkdirAll` adds the
  root to `fs`. `RunGit`, `MirrorClone`, `Fetch` and `Mirror` are each
  proved equal to a state-transition function, and the properties of
  `Mirror` are lemmas about that function. The properties covered are:
  which commands are issued and in what order, where the operation stops,
  what path it returns, which failure an error comes from, and idempotence.
  The model assumes that a successful `clone --mirror <url> <dir>` creates
  `<dir>` under its working directory, and that no git command removes
  paths.
- **Application** (`pkg/app`). A class `App` holds the options fold
  (`configure`, `WithConcurrency`). The model covers `New` with its check
  order and the `NumCPU` default, and `processRepo`. `processMirror`,
  `runOnce` and `Run` become outcome rules over arbitrary arrival-order
  sequences of results: what a mirror reports (only a missing source or a
  listing failure), which repository errors are logged (every non-nil one
  except `context.Canceled`), and what a run returns (the first report to
  arrive). `RunOutcomeIsolation` shows that a run succeeds exactly when
  every mirror can list its repositories. This holds whatever the arrival
  order and whatever happened to any repository.

Go errors are a datatype: a leaf, a `%w` wrapping with its formatted
prefix, or a sentinel (`context.Canceled`, `exec.ErrNotFound`). `Message`
gives the error text and `Is` models `errors.Is`. The error texts are the
source's own.

`Mirror.validate`'s "no source" error shows that a mirror without an
account is meant to be rejected at load time. As written it never is (see
Findings). The model uses the corrected validation and keeps the
as-written one beside it. A mirror with both accounts is accepted, and
GitHub is preferred.

Files:
- `wrappers.dfy`: `Option` and `Result`.
- `errors.dfy`: Go error values.
- `strings.dfy`: `strings.Contains`, plus `%d` and `%v` formatting.
- `config.dfy`: internal/config.
- `git.dfy`: pkg/git.
- `app.dfy`: pkg/app.

## Model

| member | source | states |
|---|---|---|
| Errors.IsSeesThroughWrapping | pkg/app/app.go:160 | `errors.Is` cannot tell an error wrapped any number of times with `%w` from the original: it finds every sentinel, such as `context.Canceled`, that the original holds, and no other |
| Errors.WrappedMessageEndsWithCause | pkg/git/shell.go:67 | the text of an error wrapped any number of times ends with the text of the original error |
| Strings.Contains | pkg/git/shell.go:28 | `strings.Contains(s, sub)` holds exactly when `sub` occurs in `s` at some index |
| Strings.Decimal | internal/config/config.go:53 | `%d` of an index is a non-empty string of digits with no leading zero |
| Strings.DecimalRoundTrip | internal/config/config.go:53 | reading back the `%d` numeral of an index gives the index |
| Strings.DecimalInjective | pkg/app/app.go:115 | different mirror indices give different `mirror %d` tags |
| Strings.DecimalTagInjective | pkg/app/app.go:108 | a message that embeds an index with `%d` between fixed text determines the index |
| Strings.FormatList | pkg/git/shell.go:66 | `%v` of an argument list is bracketed |
| Strings.SpacedContainsEach | pkg/git/shell.go:66 | every argument is visible in the `%v` rendering of the argument list |
| Config.FirstNonNil | internal/config/util.go:3-10 | the result is nil exactly when every argument is nil (including no arguments); a non-nil result is an argument and every argument before it is nil |
| Config.FirstNonNilAt | internal/config/util.go:4-8 | the first non-nil argument is returned, whatever non-nil arguments follow it |
| Config.FirstNonNilTestCases | internal/config/util_test.go:20-22 | the three test cases: `nil,&b,&c` gives `&b`; `&a,&b,&c` gives `&a`; `nil,nil,nil` gives nil |
| Config.GetSource | internal/config/config.go:22-29 | GitHub is returned whenever it is set, even if GitLab is set too; GitLab when only it is set; nil exactly when neither is set |
| Config.GetSourceIsFirstNonNil | internal/config/config.go:22-29 | `GetSource` is the first non-nil of the two accounts in the order GitHub, GitLab |
| Config.ValidateMirror | internal/config/config.go:31-40 | corrected `Mirror.validate`: fails with "no source" exactly when `GetSource` is nil |
| Config.ValidateIgnoresCloneTo | internal/config/config.go:31-40 | validation does not depend on `CloneTo`, so an empty destination passes |
| Config.ValidateMirrorAsWritten | internal/config/config.go:31-40 | as written, `Mirror.validate` accepts every mirror, because both boxed pointers are non-nil interfaces |
| Config.AsWrittenAcceptsMirrorWithoutSource | internal/config/config.go:32-35 | as written, a mirror with neither account passes `Mirror.validate`, although `GetSource` is nil for it and the corrected validation rejects it |
| Config.TaggedMirrorErrors | internal/config/config.go:51-55 | position `i` is nil exactly when mirror `i` has a source, and otherwise is "no source" tagged `mirror <i>: ` |
| Config.ConfigValidation | internal/config/config.go:46-58 | an empty mirror list is rejected; otherwise success exactly when every mirror has a source; failure is the lowest-indexed sourceless mirror's "no source", tagged with its index |
| Config.Validate | internal/config/config.go:46-58 | the early-return loop computes exactly `ConfigValidation` |
| Config.ConfigValidationAsWritten | internal/config/config.go:46-58 | as written, `Config.validate` fails only on an empty mirror list, with "mirrors must have at least one entry"; every non-empty list passes |
| Config.Load | internal/config/config.go:60-73 | a decode error is returned unchanged; otherwise the error is the validation result, and the config is returned exactly when there is no error |
| Git.Join | pkg/git/shell.go:48 | `path.Join` without cleaning: an empty element drops out; otherwise the result is `dir`, one slash and `elem`, and both can be read back |
| Git.RepoDirectory | pkg/git/git.go:62-64 | the mirror directory is the repository name followed by `.git` |
| Git.RepoDirectoryRoundTrip | pkg/git/git.go:62-64 | the repository name can be read back from its mirror directory |
| Git.RepoPath | pkg/git/git.go:66-68 | the mirror path is the root, a slash and `<name>.git`, or only `<name>.git` for an empty root, by length |
| Git.RepoPathUnderRoot | pkg/git/git.go:66-68 | the mirror path starts with the root and a slash and ends with `<name>.git` |
| Git.RepoPathInjective | pkg/git/git.go:66-68 | for the uncleaned join, distinct repository names under one root give distinct mirror paths, and no mirror path is the root itself |
| Git.RunGitErrorMentions | pkg/git/shell.go:61-69 | a failed command's error text contains `git [<args>]`, hence every argument (a failed clone names its URL), and the combined output; the error wraps the underlying error |
| Git.RunGitEffect | pkg/git/shell.go:61-69 | the command is appended to the trace; the result is nil exactly when git succeeded; only a success creates paths; a failure is classified by `errors.Is` like the command's own error |
| Git.FetchEffect | pkg/git/shell.go:47-59 | the fetch step creates no path and appends one or two commands, none a clone, all in `join(workingDir, repoDir)`; on failure the last command failed and the error is classified like its error; on success the last command succeeded |
| Git.FetchSteps | pkg/git/shell.go:47-59 | `fetch --all` then `lfs install`, both in `join(root, name.git)`; a `fetch --all` failure stops before `lfs install` and is prefixed "fetching: "; an `lfs install` failure is prefixed "running lfs install: "; nil when both succeed |
| Git.MirrorStep | pkg/git/git.go:12-50 | paths are never removed and the trace only grows; on success the mirror path is returned and exists; every error returns "" |
| Git.MirrorErrorClassified | pkg/git/git.go:15-47 | a failure that ran git has the error of the last command run, which failed, as `errors.Is` sees it; a failure that ran none has the error of `MkdirAll` on the root or of `Stat` on the mirror directory |
| Git.MirrorSucceedsWithLastCommandRun | pkg/git/git.go:42-49 | a successful `Mirror` ran git, and the last command it ran succeeded |
| Git.MirrorStopsWhenRootFails | pkg/git/git.go:15-17 | if the root cannot be created, the error is returned before any stat or git command and nothing changes |
| Git.MirrorStopsWhenStatFails | pkg/git/git.go:24-29 | a stat error other than "does not exist" aborts with no clone and no fetch |
| Git.MirrorClonesWhenAbsent | pkg/git/git.go:31-47 | an absent mirror directory gets exactly one `clone --mirror <url> <name>.git` in the root; if it fails, nothing else runs; otherwise the fetch step runs on the new directory |
| Git.MirrorFetchesWhenPresent | pkg/git/git.go:31-47 | an existing mirror directory is not cloned; only the fetch step runs |
| Git.FirstMirrorCommands | pkg/git/git.go:31-49 | when every step succeeds on a new repository, the commands are exactly clone, `fetch --all`, `lfs install`, in that order, and the root and mirror directory then exist |
| Git.MirrorIssuesOnlyItsCommands | pkg/git/shell.go:39-58 | `Mirror` issues at most three commands, each being this repository's clone, `fetch --all` or `lfs install` |
| Git.SecondMirrorNeverClones | pkg/git/git.go:24-40 | after a successful `Mirror`, mirroring the same repository again issues no clone |
| Git.IsInstalled | pkg/git/shell.go:12-21 | `(true, nil)` when git is found; `(false, nil)` when the lookup error is `exec.ErrNotFound`; `(false, err)` for any other lookup error |
| Git.GitNotOnPath | pkg/git/shell.go:13-16 | the "executable file not found" error of `exec.LookPath` gives `(false, nil)` |
| Git.IsLfsInstalled | pkg/git/shell.go:23-37 | `(true, nil)` on success; `(false, nil)` when a failure's output contains "not a git command"; any other failure gives `(false, error)` carrying the output |
| Git.LfsMissingIsNotAnError | pkg/git/shell.go:26-30 | git's "not a git command" message, wherever it appears in the output, means "not installed", not an error |
| Git.Host.EnsurePathExists | pkg/git/git.go:74-76 | `MkdirAll` either fails and changes nothing, or adds the root |
| Git.Host.RepoExists | pkg/git/git.go:52-60 | a stat error other than "does not exist" is returned with `false`; otherwise the mirror directory's presence is reported |
| Git.Host.RunGit | pkg/git/shell.go:61-69 | records `git <args>` with its working directory; on failure the error carries the command line and output |
| Git.Host.MirrorClone | pkg/git/shell.go:39-45 | exactly one command, `clone --mirror <url> <dir>`, run in the root |
| Git.Host.Fetch | pkg/git/shell.go:47-59 | the new host state and error are those of the fetch step |
| Git.Host.Mirror | pkg/git/git.go:12-50 | the new host state, returned path and error are those of the clone-or-fetch transition |
| Orchestrator.ApplyOption | pkg/app/config.go:11-15 | an option never changes the configuration |
| Orchestrator.Configured | pkg/app/config.go:5-9 | applying any list of options never changes the configuration |
| Orchestrator.ConfiguredAppend | pkg/app/config.go:5-9 | options are applied in order, so configuring with `a` then `b` equals configuring with `a + b` |
| Orchestrator.LastConcurrencyWins | pkg/app/config.go:11-15 | no options leave the App unchanged; options never change the configuration; the last `WithConcurrency` sets the concurrency |
| Orchestrator.EffectiveConcurrency | pkg/app/app.go:54-56 | the concurrency after `New` is at least 1: the configured value, or `NumCPU` when that value is not positive |
| Orchestrator.ProcessRepoStep | pkg/app/app.go:166-185 | the host only grows, and every error is tagged `repo '<name>': ` |
| Orchestrator.ProcessRepoContract | pkg/app/app.go:166-185 | a failed `GetRepo` issues no command and returns an error naming the repository; otherwise `Mirror` runs on the root it is given with exactly the URL returned, and its error is tagged with the repository name |
| Orchestrator.RepoTask | pkg/app/app.go:145-181 | the task for one listed repository mirrors into the mirror's `cloneTo`: a failed lookup changes nothing, and every command issued is the clone from the looked-up URL into `cloneTo`, or `fetch --all` or `lfs install` in that repository's mirror directory under `cloneTo` |
| Orchestrator.FetchFailureReported | pkg/git/shell.go:49-52 | a repository whose `fetch --all` fails returns git's error under the repository, Mirror and fetch prefixes; `errors.Is` classifies it like git's error and its text ends with the failed command's error text |
| Orchestrator.CanceledRepoIsNotLogged | pkg/app/app.go:160 | a repository task ended by a git command failing with `context.Canceled` returns an error that `errors.Is` sees as cancellation, and the mirror task does not log it |
| Orchestrator.LoggedRepoErrors | pkg/app/app.go:159-163 | the logged repository errors are exactly the non-nil results that are not `context.Canceled` |
| Orchestrator.LoggedRepoErrorsAppend | pkg/app/app.go:159-163 | logging filters the results one by one in arrival order: two batches log the first batch's errors, then the second's |
| Orchestrator.LoggedRepoErrorsOne | pkg/app/app.go:160-162 | a single nil or `context.Canceled` result logs nothing; any other error is logged once, unchanged |
| Orchestrator.ProcessMirrorOutcome | pkg/app/app.go:98-164 | a mirror reports an error exactly when it has no source or its listing fails, each tagged with the mirror index; repository errors are never reported, only logged |
| Orchestrator.MirrorReportIgnoresRepos | pkg/app/app.go:106-117 | what a mirror reports does not depend on any repository outcome |
| Orchestrator.MirrorReportNamesIndex | pkg/app/app.go:106-117 | two different mirrors never send the same report: each names its mirror index |
| Orchestrator.RunOnce | pkg/app/app.go:89-95 | nil exactly when no report is non-nil; otherwise the first non-nil report to arrive, wrapped "error processing mirror: " |
| Orchestrator.RunOnceOrderInsensitive | pkg/app/app.go:89-95 | reordering the reports does not change whether the run fails |
| Orchestrator.RunOutcomeIsolation | pkg/app/app.go:70-96 | in any arrival order and with any repository results, a run succeeds exactly when every mirror has a source that lists; a failing run returns a failing mirror's report |
| Orchestrator.Run | pkg/app/app.go:61-68 | `Run` returns `runOnce`'s result and logs it exactly when it is an error |
| Orchestrator.App.constructor | pkg/app/app.go:48-51 | a new App holds the loaded configuration and concurrency 0 |
| Orchestrator.App.Apply | pkg/app/config.go:12-14 | applying `WithConcurrency(n)` sets the concurrency to `n` and nothing else |
| Orchestrator.App.Configure | pkg/app/config.go:5-9 | the loop leaves the App as the ordered fold of the options |
| Orchestrator.App.ProcessRepo | pkg/app/app.go:166-185 | the new host state and error are those of the `processRepo` transition |
| Orchestrator.New | pkg/app/app.go:24-59 | checks run in the order config load, git installed, git LFS installed; the first failure returns no App with its own error and skips later checks; on success the App holds the loaded config and the effective concurrency, at least 1 |

## Left out

- Goroutines, wait groups, channels and the semaphore in `runOnce` and `processMirror` (pkg/app/app.go:76-87, 119-157) are not modelled. This includes the bound of `concurrency` simultaneous repository tasks, the cancellation of siblings after the first mirror error, and senders left blocked. Results are an arbitrary arrival-order input instead.
- Real filesystem and subprocess effects (`os.MkdirAll`, `os.Stat`, `exec.CommandContext`, `CombinedOutput`, `exec.LookPath`) are oracles. The context passed to commands is not modelled. A cancelled command is a failure whose error the oracle chooses, which may be `context.Canceled`.
- `Git.Host.EnsurePathExists`: records only the root as created, not its missing parent directories. The mode 0755 is not modelled.
- `Git.Join`: Go's `path.Join` also cleans the result (`.`, `..`, repeated slashes). The model only drops empty elements and joins with "/".
- `Git.RepoPathInjective`: holds only for the uncleaned join. With Go's cleaning, names such as `a/../b` and `b` can reach the same path.
- `Git.Host.RunGit`: a successful clone is assumed to create its target directory and a failed one to leave nothing behind. A partial clone left by a crash is not modelled.
- The GitHub and GitLab adapters (listing, pagination, lazy client creation, token lookup) are not part of this model. `ListRepos` and `GetRepo` are the oracles of a `Forge`, indexed by the mirror task that calls them.
- YAML decoding in `Load` is an input: the decoder's result.
- `runtime.NumCPU()` is a parameter of `New`, required to be at least 1.
- Verbose and print-level logging is a no-op. Only error-level log entries are modelled, as the errors logged.
- cmd/gugo/main.go (flags, signals, cron) and internal/ctxcron/cron.go are not part of this model. Neither is pkg/logging/logger.go; its output formatting is left out.

## Findings

| source | as written | input that shows it | evidently intended | confidence | as-written member | corrected member |
|---|---|---|---|---|---|---|
| internal/config/config.go:32-35 | `Mirror.validate` passes the two typed account pointers to `firstNonNil(...interface{})`. A nil `*github.Account` boxed in an `interface{}` is not equal to nil, so `firstNonNil` always returns its first argument and validation never fails. | a mirror with neither `githubAccount` nor `gitlabAccount` set: `Load` accepts it, and the failure only shows at run time as "unable to get mirror 0 source" | "no source" exactly when both accounts are absent, so a configuration is rejected at load time | high; not executed | Config.AsWrittenAcceptsMirrorWithoutSource | Config.ValidateMirror |
