/**
 * Readings of an input that is polled once per loop iteration, as an oracle indexed by the
 * iteration number, and the iteration at which a guarded loop stops.
 */
module Scan {

  /**
   * The first index below `cap` whose reading says stop, or `cap` when none does:
   * the number of iterations a loop of at most `cap` rounds runs when it checks `stop(i)`
   * before doing round `i` and leaves at the first reading that holds.
   */
  function FirstTrue(stop: nat -> bool, cap: nat): (r: nat)
    ensures r <= cap
    ensures forall j :: 0 <= j < r ==> !stop(j)
    ensures r < cap ==> stop(r)
  {
    FirstTrueFrom(stop, 0, cap)
  }

  function FirstTrueFrom(stop: nat -> bool, i: nat, cap: nat): (r: nat)
    requires i <= cap
    ensures i <= r <= cap
    ensures forall j :: i <= j < r ==> !stop(j)
    ensures r < cap ==> stop(r)
    decreases cap - i
  {
    if i == cap then cap
    else if stop(i) then i
    else FirstTrueFrom(stop, i + 1, cap)
  }

  /** The three properties of FirstTrue determine it: a loop that stops as described ran FirstTrue rounds. */
  lemma FirstTrueIs(stop: nat -> bool, cap: nat, n: nat)
    requires n <= cap
    requires forall j :: 0 <= j < n ==> !stop(j)
    requires n < cap ==> stop(n)
    ensures FirstTrue(stop, cap) == n
  {
  }

  /** Two oracles that agree on the first `cap` readings stop a loop at the same round. */
  lemma FirstTrueAgree(p: nat -> bool, q: nat -> bool, cap: nat)
    requires forall i :: 0 <= i < cap ==> p(i) == q(i)
    ensures FirstTrue(p, cap) == FirstTrue(q, cap)
  {
    var n := FirstTrue(p, cap);
    FirstTrueIs(q, cap, n);
  }

  /**
   * The first index whose reading says stop, for an oracle that eventually does: the number of
   * rounds an unbounded `while True` loop with that exit test runs.
   */
  ghost function FirstEver(stop: nat -> bool): (r: nat)
    requires exists i :: stop(i)
    ensures stop(r)
    ensures forall j :: 0 <= j < r ==> !stop(j)
  {
    var w :| stop(w);
    FirstTrue(stop, w)
  }

  /** FirstEver is the least stopping index, whatever witness it was built from. */
  lemma FirstEverIs(stop: nat -> bool, n: nat)
    requires stop(n)
    requires forall j :: 0 <= j < n ==> !stop(j)
    ensures FirstEver(stop) == n
  {
  }
}
