/**
 * Keeps large definitions closed. A definition `forall k :: SomeGuard(k) ==> body` means its body, as the guards
 * are always true, but it is only opened where a proof writes its guard down; proofs that merely pass the fact
 * along never see what is in it.
 */
module Guards {

  /** The guard of Backoff.Backed, and the key that opens it. */
  predicate BackoffGuard(k: int) {
    true
  }

  predicate BackoffKey(k: int) {
    true
  }

  /** The guard of Drift.Tracks. */
  predicate TracksGuard(k: int) {
    true
  }

  /** The guard of the plans and secrets of Specs and Plans. */
  predicate PlanGuard(k: int) {
    true
  }

  /** The guard of Acme.EdgeHost.Valid. */
  predicate EdgeGuard(k: int) {
    true
  }

  /** The guard of Events.EventLog.Valid. */
  predicate EventsGuard(k: int) {
    true
  }

  /** The guard of History.Ledger.Valid. */
  predicate LogGuard(k: int) {
    true
  }

  /** The guard of the predicates of Passes. */
  predicate PassGuard(k: int) {
    true
  }

  /** The guard of the relations between two moments of a pass in Agent. */
  predicate StaysGuard(k: int) {
    true
  }

  /** The guard of Agent.Agent.Inv. */
  predicate InvGuard(k: int) {
    true
  }
}
