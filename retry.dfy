/**
 * The bounded retry primitive (internal/utils/retry_config.go).
 *
 * Durations are integer nanoseconds. The operation is given as its outcome
 * per call (`None` is Go's nil error, `Some(msg)` an error with that text),
 * and the governing context as an oracle that says, for each wait, whether
 * the context is done before the timer fires.
 */
module Retry {
  import opened Wrappers

  const Millisecond: int := 1_000_000
  const Second: int := 1_000 * Millisecond

  /** `backoff` is the optional strategy closure; `None` is Go's nil func. */
  datatype RetryConfig = RetryConfig(maxAttempts: int, delay: int, backoff: Option<int -> int>)

  /** The three option setters; each overwrites one field of the configuration. */
  datatype RetryOption =
    | WithMaxAttempts(attempts: int)
    | WithDelay(duration: int)
    | WithBackoff(strategy: Option<int -> int>)
  {
    /** Whether two options write the same field. */
    predicate SameKind(other: RetryOption)
    {
      (WithMaxAttempts? && other.WithMaxAttempts?)
      || (WithDelay? && other.WithDelay?)
      || (WithBackoff? && other.WithBackoff?)
    }
  }

  /** The configuration `Retry` starts from before any option is applied. */
  const Defaults: RetryConfig := RetryConfig(3, Second, None)

  /** The effect of one option closure on the configuration: it writes its own field and keeps the other two. */
  function Apply(opt: RetryOption, cfg: RetryConfig): (r: RetryConfig)
    ensures Holds(r, opt)
    ensures !opt.WithMaxAttempts? ==> r.maxAttempts == cfg.maxAttempts
    ensures !opt.WithDelay? ==> r.delay == cfg.delay
    ensures !opt.WithBackoff? ==> r.backoff == cfg.backoff
  {
    match opt
    case WithMaxAttempts(n) => cfg.(maxAttempts := n)
    case WithDelay(d) => cfg.(delay := d)
    case WithBackoff(b) => cfg.(backoff := b)
  }

  /**
   * Applies the options to `cfg` from first to last, as the option loop does:
   * the last option holds afterwards, and a field no option writes keeps its
   * value from `cfg`.
   */
  ghost function ApplyAll(cfg: RetryConfig, options: seq<RetryOption>): (r: RetryConfig)
    ensures options != [] ==> Holds(r, options[|options| - 1])
    ensures (forall i :: 0 <= i < |options| ==> !options[i].WithMaxAttempts?) ==> r.maxAttempts == cfg.maxAttempts
    ensures (forall i :: 0 <= i < |options| ==> !options[i].WithDelay?) ==> r.delay == cfg.delay
    ensures (forall i :: 0 <= i < |options| ==> !options[i].WithBackoff?) ==> r.backoff == cfg.backoff
    decreases |options|
  {
    if options == [] then cfg else ApplyAll(Apply(options[0], cfg), options[1..])
  }

  /** The configuration `Retry` runs with for the given options. */
  ghost function Configure(options: seq<RetryOption>): RetryConfig
  {
    ApplyAll(Defaults, options)
  }

  /** Whether `cfg` holds the value that option `opt` writes. */
  ghost predicate Holds(cfg: RetryConfig, opt: RetryOption)
  {
    match opt
    case WithMaxAttempts(n) => cfg.maxAttempts == n
    case WithDelay(d) => cfg.delay == d
    case WithBackoff(b) => cfg.backoff == b
  }

  /** The wait after a failed attempt: the backoff strategy when set, the fixed delay otherwise. */
  function GetDelay(cfg: RetryConfig, attempt: int): int
  {
    match cfg.backoff
    case Some(strategy) => strategy(attempt)
    case None => cfg.delay
  }

  /**
   * When a backoff strategy is set it alone decides every wait and the
   * `Delay` field is ignored; without one every attempt waits the same
   * fixed delay.
   */
  lemma DelayChoice(cfg: RetryConfig, a: int, b: int, d: int)
    ensures cfg.backoff.Some? ==> GetDelay(cfg.(delay := d), a) == GetDelay(cfg, a)
    ensures cfg.backoff.Some? ==> GetDelay(cfg, a) == cfg.backoff.value(a)
    ensures cfg.backoff.None? ==> GetDelay(cfg, a) == GetDelay(cfg, b) == cfg.delay
  {
  }

  /** How a call to `Retry` ends. */
  datatype RetryResult =
    | Succeeded
      /** the context was done during a wait; carries the context's error */
    | Cancelled(contextError: string)
      /** every attempt failed; carries the returned error text */
    | Exhausted(message: string)
      /** MaxAttempts <= 0: no attempt runs and the nil error is dereferenced */
    | NilErrorPanic

  const ExhaustedPrefix: string := "operation failed after retries: "

  lemma {:induction false} ApplyAllSplit(cfg: RetryConfig, a: seq<RetryOption>, b: seq<RetryOption>)
    ensures ApplyAll(cfg, a + b) == ApplyAll(ApplyAll(cfg, a), b)
    decreases |a|
  {
    if a != [] {
      assert (a + b)[1..] == a[1..] + b;
      ApplyAllSplit(Apply(a[0], cfg), a[1..], b);
    } else {
      assert a + b == b;
    }
  }

  lemma {:induction false} OtherKindsKeep(cfg: RetryConfig, opt: RetryOption, rest: seq<RetryOption>)
    requires Holds(cfg, opt)
    requires forall i :: 0 <= i < |rest| ==> !rest[i].SameKind(opt)
    ensures Holds(ApplyAll(cfg, rest), opt)
    decreases |rest|
  {
    if rest != [] {
      OtherKindsKeep(Apply(rest[0], cfg), opt, rest[1..]);
    }
  }

  /**
   * Options are applied in order: the last option of a kind decides that
   * field, whatever options of the same kind came before it.
   */
  lemma LastOptionWins(earlier: seq<RetryOption>, opt: RetryOption, later: seq<RetryOption>)
    requires forall i :: 0 <= i < |later| ==> !later[i].SameKind(opt)
    ensures Holds(Configure(earlier + [opt] + later), opt)
  {
    ApplyAllSplit(Defaults, earlier + [opt], later);
    ApplyAllSplit(Defaults, earlier, [opt]);
    var mid := ApplyAll(Defaults, earlier);
    assert ApplyAll(mid, [opt]) == ApplyAll(Apply(opt, mid), []);
    OtherKindsKeep(ApplyAll(Defaults, earlier + [opt]), opt, later);
  }

  /** Without options `Retry` makes up to 3 attempts, waits 1s between them, and has no backoff. */
  lemma DefaultsWithoutOptions()
    ensures Configure([]).maxAttempts == 3 && Configure([]).delay == Second
    ensures Configure([]).backoff == None
    ensures forall attempt :: GetDelay(Configure([]), attempt) == 1_000_000_000
  {
  }

  /**
   * Runs `operation` up to MaxAttempts times. `operation(k)` is the outcome of
   * the k-th call (from 1); `contextDone(k)` says whether the context is done
   * during the wait that follows a failed k-th call. `calls` counts the calls
   * and `waits` lists the waits that ran to completion.
   */
  method Retry(options: seq<RetryOption>, operation: int -> Option<string>,
               contextDone: int -> bool, contextError: string)
    returns (r: RetryResult, calls: nat, waits: seq<int>)
    ensures var cfg := Configure(options);
      && (cfg.maxAttempts <= 0 <==> r == NilErrorPanic)
      && (r == NilErrorPanic ==> calls == 0 && waits == [])
      && (r != NilErrorPanic ==> 1 <= calls <= cfg.maxAttempts)
      // every call before the last one failed and its wait completed
      && (forall k :: 1 <= k < calls ==> operation(k).Some? && !contextDone(k))
      && (r == Succeeded <==> calls >= 1 && operation(calls) == None)
      && (r.Cancelled? <==> calls >= 1 && operation(calls).Some? && contextDone(calls))
      && (r.Cancelled? ==> r.contextError == contextError)
      && (r.Exhausted? <==> calls >= 1 && calls == cfg.maxAttempts
                            && operation(calls).Some? && !contextDone(calls))
      && (r.Exhausted? ==> r.message == ExhaustedPrefix + operation(calls).value)
      && |waits| == (if r.Exhausted? || r == NilErrorPanic then calls else calls - 1)
      && (forall k :: 0 <= k < |waits| ==> waits[k] == GetDelay(cfg, k + 1))
  {
    var cfg := Defaults;
    for i := 0 to |options|
      invariant ApplyAll(cfg, options[i..]) == Configure(options)
    {
      assert options[i..][1..] == options[i + 1..];
      cfg := Apply(options[i], cfg);
    }
    assert options[|options|..] == [];
    assert cfg == Configure(options);

    var err: Option<string> := None;
    calls, waits := 0, [];
    var attempt := 1;
    while attempt <= cfg.maxAttempts
      invariant 1 <= attempt && calls == attempt - 1
      invariant attempt == 1 || attempt <= cfg.maxAttempts + 1
      invariant forall k :: 1 <= k < attempt ==> operation(k).Some? && !contextDone(k)
      invariant err == (if attempt == 1 then None else operation(attempt - 1))
      invariant |waits| == calls
      invariant forall k :: 0 <= k < |waits| ==> waits[k] == GetDelay(cfg, k + 1)
      decreases cfg.maxAttempts - attempt
    {
      err := operation(attempt);
      calls := calls + 1;
      if err == None {
        return Succeeded, calls, waits;
      }
      if contextDone(attempt) {
        return Cancelled(contextError), calls, waits;
      }
      waits := waits + [GetDelay(cfg, attempt)];
      attempt := attempt + 1;
    }
    if cfg.maxAttempts >= 1 {
      assert 1 <= attempt - 1 < attempt;
      assert err == operation(attempt - 1) && err.Some?;
    }
    match err
    case None =>
      r := NilErrorPanic;
    case Some(msg) =>
      r := Exhausted(ExhaustedPrefix + msg);
  }
}
