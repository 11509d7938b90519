/** What every reconcile has in common: how its calls and the run as a whole may end, and how late its reads may be. */
module Calls {
  import opened Wrappers

  /** How a call ends: served, failed without effect, or served with the reply lost. */
  datatype Answer = Success | Refused(text: string) | Unanswered(text: string)

  /** How a run ends: done, done for now, or failed and to be retried. */
  datatype Outcome = Finished | RetryAfter(seconds: nat) | Errored

  /** The present is the last of all versions. */
  function Last<T>(versions: seq<T>): T
    requires versions != []
  {
    versions[|versions| - 1]
  }

  /** The version a read served `lag` versions late sees; before the first there was nothing. */
  function Seen<T>(versions: seq<Option<T>>, lag: nat): Option<T> {
    if lag < |versions| then versions[|versions| - 1 - lag] else None
  }

  /** The same where there has always been something. */
  function Clamped<T>(versions: seq<T>, lag: nat): T
    requires versions != []
  {
    versions[if lag < |versions| then |versions| - 1 - lag else 0]
  }

  /** One field of a merge patch: what changed, and what that makes of a former value. */
  function Changed<T(==)>(before: T, after: T): Option<T> {
    if before == after then None else Some(after)
  }

  function Patched<T>(was: T, patch: Option<T>): T {
    if patch.Some? then patch.value else was
  }

  // ---------- Plans ----------

  /** A plan has a choice for each call; this is what it has for the calls after the next. */
  function Tail<T>(plan: seq<T>): seq<T> {
    if plan == [] then [] else plan[1..]
  }

  /** What is left of a plan after `n` calls. */
  function Rest<T>(plan: seq<T>, n: nat): seq<T> {
    if n <= |plan| then plan[n..] else []
  }

  /** The choice for the next call; past the end of the plan the controller is dead. */
  function Next<T>(plan: seq<T>, dead: T): T {
    if plan == [] then dead else plan[0]
  }

  /** At most `k` choices of the plan have been used up. */
  ghost predicate Spent<T>(was: seq<T>, plan: seq<T>, k: nat) {
    |plan| + k >= |was| && forall c | c in plan :: c in was
  }
}
