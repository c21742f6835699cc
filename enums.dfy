/**
 * Subscription actions of the live-stream protocol (internal/enums/enums.go).
 * In Go a `SubscriptionAction` is a plain string type, so any string is a
 * possible action; the four named constants are the known ones.
 */
module Enums {

  type SubscriptionAction = string

  const LogsSubscribe: SubscriptionAction := "logsSubscribe"
  const LogsUnsubscribe: SubscriptionAction := "logsUnsubscribe"
  const ProgramSubscribe: SubscriptionAction := "programSubscribe"
  const ProgramUnsubscribe: SubscriptionAction := "programUnsubscribe"

  /** The four known actions. */
  const KnownActions: set<SubscriptionAction> :=
    {LogsSubscribe, LogsUnsubscribe, ProgramSubscribe, ProgramUnsubscribe}

  /** True for the two subscribe actions; never true of an unsubscribe action. */
  predicate IsSubscribe(action: SubscriptionAction)
    ensures IsSubscribe(action) ==> action in KnownActions && !IsUnsubscribe(action)
  {
    action == LogsSubscribe || action == ProgramSubscribe
  }

  /** True for the two unsubscribe actions. */
  predicate IsUnsubscribe(action: SubscriptionAction)
    ensures IsUnsubscribe(action) ==> action in KnownActions
  {
    action == LogsUnsubscribe || action == ProgramUnsubscribe
  }

  /** The four constants are pairwise distinct, so KnownActions has four elements. */
  lemma ActionsDistinct()
    ensures |KnownActions| == 4
  {
    assert LogsSubscribe[0] == 'l' && ProgramSubscribe[0] == 'p';
    assert LogsSubscribe[4] == 'S' && LogsUnsubscribe[4] == 'U';
    assert ProgramSubscribe[7] == 'S' && ProgramUnsubscribe[7] == 'U';
    assert LogsUnsubscribe[0] != ProgramUnsubscribe[0];
    assert LogsSubscribe != ProgramUnsubscribe;
    assert ProgramSubscribe != LogsUnsubscribe;
  }

  /**
   * Every known action is classified by exactly one of the two predicates,
   * and a string outside the four constants satisfies neither.
   */
  lemma Classification(action: SubscriptionAction)
    ensures action in KnownActions ==> IsSubscribe(action) != IsUnsubscribe(action)
    ensures action !in KnownActions ==> !IsSubscribe(action) && !IsUnsubscribe(action)
  {
  }
}
