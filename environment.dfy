/**
 * Deployment environments (internal/utils/environment.go). `Environment` is a
 * string type in Go; each `Is*` predicate is a single comparison with one
 * constant. `IsStagingCanary` compares with `Canary`, not with
 * `StagingCanary`, and the model keeps that.
 */
module Environment {

  type Env = string

  const Testing: Env := "testing"
  const Production: Env := "production"
  const Canary: Env := "canary"
  const Staging: Env := "staging"
  const StagingCanary: Env := "staging-canary"
  const Local: Env := "local"

  /** Each predicate holds of its own constant and of no other environment name. */
  predicate IsTesting(e: Env)
    ensures IsTesting(e) ==> e != Production && e != Canary && e != Staging && e != StagingCanary && e != Local
  {
    e == Testing
  }

  predicate IsProduction(e: Env)
    ensures IsProduction(e) ==> e != Testing && e != Canary && e != Staging && e != StagingCanary && e != Local
  {
    e == Production
  }

  predicate IsStaging(e: Env)
    ensures IsStaging(e) ==> e != Testing && e != Production && e != Canary && e != StagingCanary && e != Local
  {
    e == Staging
  }

  predicate IsLocal(e: Env)
    ensures IsLocal(e) ==> e != Testing && e != Production && e != Canary && e != Staging && e != StagingCanary
  {
    e == Local
  }

  predicate IsCanary(e: Env)
    ensures IsCanary(e) ==> e != Testing && e != Production && e != Staging && e != StagingCanary && e != Local
  {
    e == Canary
  }

  /** Agrees with IsCanary everywhere: the staging-canary name itself is rejected. */
  predicate IsStagingCanary(e: Env)
    ensures IsStagingCanary(e) <==> IsCanary(e)
  {
    e == Canary
  }

  /** Number of the five distinguishing predicates that hold of `e`. */
  function Matches(e: Env): nat
  {
    (if IsTesting(e) then 1 else 0) + (if IsProduction(e) then 1 else 0)
    + (if IsStaging(e) then 1 else 0) + (if IsLocal(e) then 1 else 0)
    + (if IsCanary(e) then 1 else 0)
  }

  /**
   * The five predicates are pairwise exclusive: at most one holds of any
   * environment, and exactly one holds of each of the five constants.
   */
  lemma PredicatesExclusive(e: Env)
    ensures Matches(e) <= 1
    ensures e in {Testing, Production, Staging, Local, Canary} ==> Matches(e) == 1
  {
    assert Testing[0] == 't' && Production[0] == 'p' && Staging[0] == 's'
      && Local[0] == 'l' && Canary[0] == 'c';
  }

  /** The quirk in concrete form: "canary" passes IsStagingCanary, "staging-canary" does not. */
  lemma StagingCanaryQuirk()
    ensures IsStagingCanary("canary") && !IsStagingCanary("staging-canary")
    ensures StagingCanary != Canary
  {
  }
}
