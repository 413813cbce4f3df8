/** Exponential backoff (enterBackoff and sleepBackoff in internal/agent/agent.go). Times are in seconds. */
module Backoff {
  import opened Guards

  const BackoffBase: nat := 30
  const BackoffCap: nat := 1800
  const ReconnectBase: nat := 2
  const ReconnectCap: nat := 60
  const ResyncInterval: nat := 300

  function Min(a: nat, b: nat): nat {
    if a < b then a else b
  }

  /** The window after so many failures in a row: nothing, the base, then doubled and capped. */
  function Window(base: nat, cap: nat, failures: nat): nat {
    if failures == 0 then 0
    else if failures == 1 then base
    else Min(2 * Window(base, cap, failures - 1), cap)
  }

  /** The agent's window after so many failures, to be opened with `OpenBacked` only. */
  ghost predicate Backed(backoff: nat, failures: nat) {
    forall k {:trigger BackoffKey(k)} :: BackoffGuard(k) ==> backoff == Window(BackoffBase, BackoffCap, failures)
  }

  lemma OpenBacked(backoff: nat, failures: nat)
    requires Backed(backoff, failures)
    ensures backoff == Window(BackoffBase, BackoffCap, failures)
  {
    assert BackoffKey(0);
  }

  lemma NotBacked()
    ensures Backed(0, 0)
  {
    assert Window(BackoffBase, BackoffCap, 0) == 0;
  }

  function Pow2(n: nat): nat {
    if n == 0 then 1 else 2 * Pow2(n - 1)
  }

  /** Doubling and capping at every step comes to capping the doubled base once. */
  lemma {:induction false} WindowClosedForm(base: nat, cap: nat, failures: nat)
    requires 0 < base <= cap
    ensures Window(base, cap, failures) == if failures == 0 then 0 else Min(base * Pow2(failures - 1), cap)
    ensures failures > 0 ==> 0 < Window(base, cap, failures) <= cap
  {
    if failures > 1 {
      WindowClosedForm(base, cap, failures - 1);
      assert base * Pow2(failures - 1) == 2 * (base * Pow2(failures - 2));
    }
  }

  /** Grows a backoff in place, as both loops do. */
  method Grow(d: nat, base: nat, cap: nat, ghost failures: nat) returns (d': nat)
    requires 0 < base <= cap && d == Window(base, cap, failures)
    ensures d' == Window(base, cap, failures + 1) && d' > 0
  {
    WindowClosedForm(base, cap, failures);
    if d == 0 {
      d' := base;
    } else {
      d' := d * 2;
      if d' > cap {
        d' := cap;
      }
    }
  }

  method GrowBackoff(d: nat, ghost failures: nat) returns (d': nat)
    requires Backed(d, failures)
    ensures Backed(d', failures + 1) && d' > 0
  {
    OpenBacked(d, failures);
    d' := Grow(d, BackoffBase, BackoffCap, failures);
  }

  /** The windows never shrink while failures go on, and never exceed the cap. */
  lemma {:induction false} WindowGrows(base: nat, cap: nat, m: nat, n: nat)
    requires 0 < base <= cap && m <= n
    ensures Window(base, cap, m) <= Window(base, cap, n) <= cap
    decreases n - m
  {
    if m < n {
      WindowGrows(base, cap, m, n - 1);
      WindowClosedForm(base, cap, n - 1);
    }
  }
}
