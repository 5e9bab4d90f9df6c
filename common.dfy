/** Shared vocabulary: identifiers, instants, Go-style error values and the
    optional/fallible results that the gateway's operations return. */
module Common {

  /** A UUID, abstracted to a number: only equality matters to the core. */
  type Uuid = nat

  /** A wall-clock instant (time.Time), abstracted to an integer count of ticks. */
  type Time = int

  datatype Option<T> = None | Some(value: T)

  /** A value or an error, as Go's `(T, error)` pair when exactly one is set. */
  datatype Result<T> = Ok(value: T) | Err(error: Error)

  /** A bare Go `error` return: nil (Pass) or an error value. */
  datatype Outcome = Pass | Fail(error: Error)

  /** The package-level sentinel errors (`var ErrX = errors.New(...)`). */
  datatype Sentinel = NotFound | NotImplemented | ContainerNotAvailable | InvalidCredentials

  /** An error value: a sentinel, any other error with its text, or a
      `fmt.Errorf("context: %w", cause)` wrapping. */
  datatype Error =
    | Sentinel(kind: Sentinel)
    | Failure(text: string)
    | Wrapped(context: string, cause: Error)

  /** The database's answer to an insert whose primary key is taken. */
  const DuplicateKey: Error := Failure("duplicate key value violates unique constraint")

  /** `errors.Is(e, target)` for a sentinel target: follows the wrap chain. */
  predicate Is(e: Error, target: Sentinel)
  {
    match e
    case Sentinel(k) => k == target
    case Failure(_) => false
    case Wrapped(_, cause) => Is(cause, target)
  }

  function SentinelText(s: Sentinel): string
  {
    match s
    case NotFound => "not found"
    case NotImplemented => "not implemented"
    case ContainerNotAvailable => "container runtime not available"
    case InvalidCredentials => "invalid credentials"
  }

  /** `err.Error()`: a wrapping prefixes its context and ": ". */
  function Message(e: Error): string
  {
    match e
    case Sentinel(k) => SentinelText(k)
    case Failure(t) => t
    case Wrapped(c, cause) => c + ": " + Message(cause)
  }

  /** Wrapping never hides a sentinel, so errors.Is sees through any number of
      `%w` layers; and the message of a wrapped error starts with its context. */
  lemma {:induction false} WrapKeepsIdentity(context: string, e: Error, target: Sentinel)
    ensures Is(Wrapped(context, e), target) <==> Is(e, target)
    ensures Message(Wrapped(context, e))[..|context|] == context
  {
  }

  /** An error chain ends in at most one sentinel, so at most one sentinel
      target is matched by errors.Is. */
  lemma {:induction false} SentinelUnique(e: Error, a: Sentinel, b: Sentinel)
    requires Is(e, a) && Is(e, b)
    ensures a == b
  {
    if e.Wrapped? {
      SentinelUnique(e.cause, a, b);
    }
  }

  /** `e` wrapped once per context, innermost first. */
  function WrapAll(contexts: seq<string>, e: Error): Error
  {
    if contexts == [] then e else Wrapped(contexts[|contexts| - 1], WrapAll(contexts[..|contexts| - 1], e))
  }

  /** errors.Is sees through any number of wrappings. */
  lemma {:induction false} WrapAllKeepsIdentity(contexts: seq<string>, e: Error, target: Sentinel)
    ensures Is(WrapAll(contexts, e), target) <==> Is(e, target)
    decreases |contexts|
  {
    if contexts != [] {
      WrapAllKeepsIdentity(contexts[..|contexts| - 1], e, target);
    }
  }

  function DigitChar(d: nat): char
    requires d < 10
  {
    "0123456789"[d]
  }

  /** Decimal text of a natural number, as strconv/`%v` print it. */
  function NatText(n: nat): (s: string)
    ensures |s| >= 1
    ensures forall i :: 0 <= i < |s| ==> '0' <= s[i] <= '9'
    decreases n
  {
    if n < 10 then [DigitChar(n)] else NatText(n / 10) + [DigitChar(n % 10)]
  }

  /** Decimal text of an integer, with a leading '-' when negative. */
  function IntText(i: int): string
  {
    if i < 0 then "-" + NatText(-i) else NatText(i)
  }

  /** Reading the digits back gives the number: decimal text is unambiguous. */
  function DigitsValue(s: string): (n: nat)
    requires forall i :: 0 <= i < |s| ==> '0' <= s[i] <= '9'
  {
    if s == [] then 0 else DigitsValue(s[..|s| - 1]) * 10 + (s[|s| - 1] as int - '0' as int)
  }

  lemma {:induction false} NatTextRoundTrip(n: nat)
    ensures DigitsValue(NatText(n)) == n
    decreases n
  {
    if n >= 10 {
      NatTextRoundTrip(n / 10);
      var s := NatText(n);
      assert s[..|s| - 1] == NatText(n / 10);
    }
  }
}
