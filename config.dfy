/** internal/config: the mirror configuration, the choice of a mirror's
    repository source, and the validation run when a configuration is
    loaded. */
module Config {
  import opened Wrappers
  import opened Errors
  import opened Strings

  /** A code-forge account (github.Account and gitlab.Account have the same
      shape): an optional API base URL and the account name. The lazily
      created API client is not part of the model. */
  datatype Account = Account(url: Option<string>, name: string)

  datatype Platform = GitHub | GitLab

  /** The `source.RepoSource` capability a mirror resolves to. */
  datatype RepoSource = RepoSource(platform: Platform, account: Account)

  /** One mirror definition: two optional account pointers and a
      destination root. */
  datatype Mirror = Mirror(gitHubAccount: Option<Account>, gitLabAccount: Option<Account>, cloneTo: string)

  datatype Config = Config(mirrors: seq<Mirror>)

  // ---------------------------------------------------------------------
  // util.go

  /** `firstNonNil`: the first element of the argument list that is not
      nil, or nil when there is none. */
  function FirstNonNil<T>(maybeNil: seq<Option<T>>): (r: Option<T>)
    ensures r.None? <==> forall i :: 0 <= i < |maybeNil| ==> maybeNil[i].None?
    ensures r.Some? ==> exists k :: 0 <= k < |maybeNil| && maybeNil[k] == r &&
                                   forall j :: 0 <= j < k ==> maybeNil[j].None?
    decreases |maybeNil|
  {
    if |maybeNil| == 0 then None
    else if maybeNil[0].Some? then maybeNil[0]
    else
      var r := FirstNonNil(maybeNil[1..]);
      assert forall i :: 1 <= i < |maybeNil| ==> maybeNil[i] == maybeNil[1..][i - 1];
      r
  }

  /** The result is determined by the first non-nil position: whatever
      follows it is never looked at. */
  lemma {:induction false} FirstNonNilAt<T>(maybeNil: seq<Option<T>>, k: nat)
    requires k < |maybeNil| && maybeNil[k].Some?
    requires forall j :: 0 <= j < k ==> maybeNil[j].None?
    ensures FirstNonNil(maybeNil) == maybeNil[k]
    decreases k
  {
    if k > 0 {
      FirstNonNilAt(maybeNil[1..], k - 1);
    }
  }

  /** The three cases of util_test.go: `nil, &b, &c` gives `&b`; `&a, &b, &c`
      gives `&a`; `nil, nil, nil` gives nil. */
  lemma FirstNonNilTestCases()
    ensures FirstNonNil([None, Some(2), Some(3)]) == Some(2)
    ensures FirstNonNil([Some(1), Some(2), Some(3)]) == Some(1)
    ensures FirstNonNil<int>([None, None, None]) == None
  {
  }

  // ---------------------------------------------------------------------
  // config.go

  /** `Mirror.GetSource`: the GitHub account if it is set, otherwise the
      GitLab account if that is set, otherwise nil. */
  function GetSource(m: Mirror): (r: Option<RepoSource>)
    ensures m.gitHubAccount.Some? ==> r == Some(RepoSource(GitHub, m.gitHubAccount.value))
    ensures m.gitHubAccount.None? && m.gitLabAccount.Some? ==> r == Some(RepoSource(GitLab, m.gitLabAccount.value))
    ensures r.None? <==> m.gitHubAccount.None? && m.gitLabAccount.None?
  {
    if m.gitHubAccount.Some? then Some(RepoSource(GitHub, m.gitHubAccount.value))
    else if m.gitLabAccount.Some? then Some(RepoSource(GitLab, m.gitLabAccount.value))
    else None
  }

  /** The two account pointers as candidate sources, in preference order. */
  function Candidates(m: Mirror): seq<Option<RepoSource>>
  {
    [ if m.gitHubAccount.Some? then Some(RepoSource(GitHub, m.gitHubAccount.value)) else None,
      if m.gitLabAccount.Some? then Some(RepoSource(GitLab, m.gitLabAccount.value)) else None ]
  }

  /** `GetSource` is the first non-nil account in the order GitHub, GitLab. */
  lemma GetSourceIsFirstNonNil(m: Mirror)
    ensures GetSource(m) == FirstNonNil(Candidates(m))
  {
    var c := Candidates(m);
    if c[0].Some? {
      FirstNonNilAt(c, 0);
    } else if c[1].Some? {
      FirstNonNilAt(c, 1);
    }
  }

  /** `Mirror.validate`, as its authors evidently intended it: "no source"
      exactly when neither account is set. */
  function ValidateMirror(m: Mirror): (r: Option<Error>)
    ensures r.None? <==> GetSource(m).Some?
    ensures r.Some? ==> r == Some(Leaf("no source"))
  {
    var accounts := [m.gitHubAccount, m.gitLabAccount];
    if FirstNonNil(accounts).None? then
      assert accounts[0].None? && accounts[1].None?;
      Some(Leaf("no source"))
    else
      None
  }

  /** Validation does not look at the destination: an empty `cloneTo`
      passes as well as any other. */
  lemma ValidateIgnoresCloneTo(m: Mirror, cloneTo: string)
    ensures ValidateMirror(m.(cloneTo := cloneTo)) == ValidateMirror(m)
  {
  }

  /** A Go `interface{}` value that is not nil: the dynamic type of the
      value stored in it, and that value, here a pointer that may itself be
      nil. */
  datatype Boxed = Boxed(dynamicType: string, pointer: Option<Account>)

  /** Passing a pointer where `...interface{}` is expected: the result is a
      non-nil interface even when the pointer is nil. */
  function Box(dynamicType: string, pointer: Option<Account>): Option<Boxed>
  {
    Some(Boxed(dynamicType, pointer))
  }

  /** `Mirror.validate` as written: the account pointers reach
      `firstNonNil` boxed in `interface{}` values, and the comparison with
      nil is made on the boxes. Both boxes are non-nil whatever pointers
      they hold, so no mirror is ever rejected. */
  function ValidateMirrorAsWritten(m: Mirror): (r: Option<Error>)
    ensures r.None?
  {
    var boxes := [Box("*github.Account", m.gitHubAccount), Box("*gitlab.Account", m.gitLabAccount)];
    FirstNonNilAt(boxes, 0);
    if FirstNonNil(boxes).None? then Some(Leaf("no source")) else None
  }

  /** The discrepancy on a concrete input: a mirror with no account at all
      is accepted as written, `GetSource` then resolves it to nil, and the
      intended validation rejects it. */
  lemma AsWrittenAcceptsMirrorWithoutSource()
    ensures var m := Mirror(None, None, "/srv/mirrors");
            GetSource(m).None? && ValidateMirrorAsWritten(m).None? && ValidateMirror(m).Some?
  {
  }

  /** Each mirror's error tagged with the mirror's index: `mirror <i>: <err>`. */
  function TagByIndex(errs: seq<Option<Error>>): (r: seq<Option<Error>>)
    ensures |r| == |errs|
    ensures forall i :: 0 <= i < |errs| ==> (r[i].None? <==> errs[i].None?)
  {
    seq(|errs|, i requires 0 <= i < |errs| =>
      if errs[i].None? then None else Some(Wrapped("mirror " + Decimal(i) + ": ", errs[i].value)))
  }

  /** The tagged error of each mirror, in list order. */
  function TaggedMirrorErrors(ms: seq<Mirror>): (r: seq<Option<Error>>)
    ensures |r| == |ms|
    ensures forall i :: 0 <= i < |ms| ==> (r[i].None? <==> GetSource(ms[i]).Some?)
    ensures forall i :: 0 <= i < |ms| && r[i].Some? ==>
              r[i].value == Wrapped("mirror " + Decimal(i) + ": ", Leaf("no source"))
  {
    TagByIndex(seq(|ms|, i requires 0 <= i < |ms| => ValidateMirror(ms[i])))
  }

  /** `Config.validate` as written, with `Mirror.validate` as written: it
      rejects only the empty mirror list, and any non-empty list passes
      whatever its mirrors hold. */
  function ConfigValidationAsWritten(c: Config): (r: Option<Error>)
    ensures r.None? <==> |c.mirrors| > 0
    ensures r.Some? ==> r == Some(Leaf("mirrors must have at least one entry"))
  {
    if |c.mirrors| == 0 then Some(Leaf("mirrors must have at least one entry"))
    else FirstNonNil(TagByIndex(seq(|c.mirrors|, i requires 0 <= i < |c.mirrors| => ValidateMirrorAsWritten(c.mirrors[i]))))
  }

  /** `Config.validate`: an empty mirror list is rejected; otherwise the
      error of the lowest-indexed mirror without a source, tagged with its
      index; otherwise success. */
  function ConfigValidation(c: Config): (r: Option<Error>)
    ensures |c.mirrors| == 0 ==> r == Some(Leaf("mirrors must have at least one entry"))
    ensures r.None? <==> |c.mirrors| > 0 && forall i :: 0 <= i < |c.mirrors| ==> GetSource(c.mirrors[i]).Some?
    ensures r.Some? && |c.mirrors| > 0 ==>
              exists i :: 0 <= i < |c.mirrors| && GetSource(c.mirrors[i]).None? &&
                (forall j :: 0 <= j < i ==> GetSource(c.mirrors[j]).Some?) &&
                r == Some(Wrapped("mirror " + Decimal(i) + ": ", Leaf("no source")))
  {
    if |c.mirrors| == 0 then Some(Leaf("mirrors must have at least one entry"))
    else FirstNonNil(TaggedMirrorErrors(c.mirrors))
  }

  /** `Config.validate`, by its loop over the mirrors with an early return. */
  method Validate(c: Config) returns (err: Option<Error>)
    ensures err == ConfigValidation(c)
  {
    if |c.mirrors| == 0 {
      return Some(Leaf("mirrors must have at least one entry"));
    }
    var i := 0;
    while i < |c.mirrors|
      invariant 0 <= i <= |c.mirrors|
      invariant forall j :: 0 <= j < i ==> ValidateMirror(c.mirrors[j]).None?
    {
      var e := ValidateMirror(c.mirrors[i]);
      if e.Some? {
        FirstNonNilAt(TaggedMirrorErrors(c.mirrors), i);
        return Some(Wrapped("mirror " + Decimal(i) + ": ", e.value));
      }
      i := i + 1;
    }
    return None;
  }

  /** `Load`: the decoder's outcome is an input. A decoding error is
      returned unchanged without validating; otherwise the configuration
      is returned only when it validates, and the validation error
      otherwise. */
  method Load(decoded: Result<Config, Error>) returns (conf: Option<Config>, err: Option<Error>)
    ensures conf.Some? <==> err.None?
    ensures decoded.Failure? ==> err == Some(decoded.error)
    ensures decoded.Success? ==> err == ConfigValidation(decoded.value)
    ensures conf.Some? ==> decoded.Success? && conf.value == decoded.value
  {
    if decoded.Failure? {
      return None, Some(decoded.error);
    }
    var c := decoded.value;
    err := Validate(c);
    if err.Some? {
      return None, err;
    }
    return Some(c), None;
  }
}
