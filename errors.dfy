/** Go error values as the core builds and inspects them.

    Every error of the core is made by `errors.New`/`fmt.Errorf` without a
    `%w` verb (a `Leaf`), by `fmt.Errorf("<prefix>%w", cause)` (a `Wrapped`
    error; in this code base `%w` is always the last verb, so the text is
    the formatted prefix followed by the cause's text), or is one of the
    standard library's sentinel values that callers test with `errors.Is`. */
module Errors {

  /** The sentinels the core compares against. */
  datatype SentinelKind =
    | ContextCanceled   // context.Canceled
    | ExecNotFound      // exec.ErrNotFound

  datatype Error =
    | Leaf(msg: string)
    | Wrapped(prefix: string, cause: Error)
    | Sentinel(kind: SentinelKind)

  /** The text `err.Error()` returns. */
  function Message(e: Error): string
  {
    match e
    case Leaf(m) => m
    case Wrapped(p, c) => p + Message(c)
    case Sentinel(ContextCanceled) => "context canceled"
    case Sentinel(ExecNotFound) => "executable file not found in $PATH"
  }

  /** `errors.Is(e, target)` for a sentinel target: the target occurs
      somewhere on the chain of wrapped causes. */
  predicate Is(e: Error, target: SentinelKind)
  {
    match e
    case Sentinel(k) => k == target
    case Wrapped(_, c) => Is(c, target)
    case Leaf(_) => false
  }

  /** Two errors that `errors.Is` cannot tell apart. */
  ghost predicate SameKind(e: Error, f: Error)
  {
    forall k :: Is(e, k) <==> Is(f, k)
  }

  /** Wrapping an error `n` times with `fmt.Errorf("...%w", ...)`. */
  function WrapAll(prefixes: seq<string>, e: Error): Error
  {
    if |prefixes| == 0 then e else Wrapped(prefixes[0], WrapAll(prefixes[1..], e))
  }

  /** However many layers of context are added around an error, `errors.Is`
      still finds the sentinel inside it, and finds no sentinel that was not
      there. */
  lemma {:induction false} IsSeesThroughWrapping(prefixes: seq<string>, e: Error)
    ensures SameKind(WrapAll(prefixes, e), e)
    decreases |prefixes|
  {
    if |prefixes| > 0 {
      IsSeesThroughWrapping(prefixes[1..], e);
    }
  }

  /** The text of a wrapped error ends with the text of its cause, so no
      diagnostic information is lost by wrapping. */
  lemma {:induction false} WrappedMessageEndsWithCause(prefixes: seq<string>, e: Error)
    ensures |Message(WrapAll(prefixes, e))| >= |Message(e)|
    ensures var m := Message(WrapAll(prefixes, e));
            m[|m| - |Message(e)|..] == Message(e)
    decreases |prefixes|
  {
    if |prefixes| > 0 {
      WrappedMessageEndsWithCause(prefixes[1..], e);
      var inner := Message(WrapAll(prefixes[1..], e));
      assert Message(WrapAll(prefixes, e)) == prefixes[0] + inner;
    }
  }
}
