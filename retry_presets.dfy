/**
 * Named retry configurations (internal/utils/utils.go). Both presets install
 * a backoff strategy that grows linearly with the attempt number.
 */
module RetryPresets {
  import opened Wrappers
  import opened Retry

  /** Builds a configuration from its three fields, unchanged. */
  function DefaultRetryConfig(maxAttempts: int, delay: int, backoff: Option<int -> int>): (cfg: RetryConfig)
    ensures cfg.maxAttempts == maxAttempts && cfg.delay == delay && cfg.backoff == backoff
  {
    RetryConfig(maxAttempts, delay, backoff)
  }

  /** Database preset: 3 attempts, 2s delay, wait attempt x 2s. */
  function DatabaseRetryConfig(): (cfg: RetryConfig)
    ensures cfg.maxAttempts == 3 && cfg.delay == 2_000_000_000
    ensures forall attempt :: GetDelay(cfg, attempt) == attempt * 2_000_000_000
  {
    DefaultRetryConfig(3, 2 * Second, Some((attempt: int) => attempt * 2 * Second))
  }

  /** Websocket preset: 10 attempts, 1s delay, wait attempt x 500ms. */
  function WebSocketRetryConfig(): (cfg: RetryConfig)
    ensures cfg.maxAttempts == 10 && cfg.delay == 1_000_000_000
    ensures forall attempt :: GetDelay(cfg, attempt) == attempt * 500_000_000
  {
    DefaultRetryConfig(10, 1 * Second, Some((attempt: int) => attempt * 500 * Millisecond))
  }

  /**
   * The database preset's wait is linear in the attempt number (2s, 4s, 6s,
   * ...), strictly increasing and positive from the first attempt on; the
   * 2s `Delay` field never decides a wait because the backoff is set.
   */
  lemma DatabasePresetSchedule(a: int, b: int)
    ensures DatabaseRetryConfig().maxAttempts == 3
    ensures DatabaseRetryConfig().backoff.Some?
    ensures GetDelay(DatabaseRetryConfig(), a) == a * 2_000_000_000
    ensures a < b ==> GetDelay(DatabaseRetryConfig(), a) < GetDelay(DatabaseRetryConfig(), b)
    ensures a >= 1 ==> GetDelay(DatabaseRetryConfig(), a) > 0
    ensures forall d :: GetDelay(DatabaseRetryConfig().(delay := d), a) == GetDelay(DatabaseRetryConfig(), a)
  {
  }

  /**
   * The websocket preset's wait is 500ms x attempt, strictly increasing and
   * positive from the first attempt on; its 1s `Delay` field is never used.
   */
  lemma WebSocketPresetSchedule(a: int, b: int)
    ensures WebSocketRetryConfig().maxAttempts == 10
    ensures WebSocketRetryConfig().backoff.Some?
    ensures GetDelay(WebSocketRetryConfig(), a) == a * 500_000_000
    ensures a < b ==> GetDelay(WebSocketRetryConfig(), a) < GetDelay(WebSocketRetryConfig(), b)
    ensures a >= 1 ==> GetDelay(WebSocketRetryConfig(), a) > 0
    ensures forall d :: GetDelay(WebSocketRetryConfig().(delay := d), a) == GetDelay(WebSocketRetryConfig(), a)
  {
  }

  /** The three options that make `Retry` run with exactly the fields of a preset. */
  function AsOptions(cfg: RetryConfig): seq<RetryOption>
  {
    [WithMaxAttempts(cfg.maxAttempts), WithDelay(cfg.delay), WithBackoff(cfg.backoff)]
  }

  /** Passing a preset's fields as options reproduces the preset inside `Retry`. */
  lemma PresetAsOptions(cfg: RetryConfig)
    ensures Configure(AsOptions(cfg)) == cfg
  {
    var opts := AsOptions(cfg);
    calc {
      Configure(opts);
      ApplyAll(Defaults, opts);
      ApplyAll(Defaults.(maxAttempts := cfg.maxAttempts), opts[1..]);
      ApplyAll(Defaults.(maxAttempts := cfg.maxAttempts).(delay := cfg.delay), opts[2..]);
      ApplyAll(cfg, opts[3..]);
    }
    assert opts[3..] == [];
  }
}
