/**
 * Pure specifications of the two accumulations the company reports perform
 * over a sequence of per-employee amounts: a running sum, and a left-to-right
 * arg-max that starts from a baseline of 0 and only replaces its current leader
 * on a strictly greater amount.
 */
module Ranking {
  import opened Optional

  /** The amounts added up left to right, starting from 0. */
  function Sum(xs: seq<real>): real
  {
    if xs == [] then 0.0 else Sum(xs[..|xs| - 1]) + xs[|xs| - 1]
  }

  /**
   * The index the scan ends on: the last entry replaces the leader found in
   * the prefix exactly when it is strictly greater than that leader's amount
   * (or than the baseline 0 when there is no leader yet).
   */
  function Leader(xs: seq<real>): (r: Option<nat>)
    ensures r.Some? ==> r.value < |xs| && xs[r.value] > 0.0
  {
    if xs == [] then None
    else
      var prefix := xs[..|xs| - 1];
      var lead := Leader(prefix);
      var level := if lead.None? then 0.0 else prefix[lead.value];
      if xs[|xs| - 1] > level then Some(|xs| - 1) else lead
  }

  /** The amount a new entry has to beat after the scan over xs. */
  function Level(xs: seq<real>): (r: real)
    ensures r >= 0.0
  {
    match Leader(xs)
    case None => 0.0
    case Some(k) => xs[k]
  }

  /** k is the first position holding the maximum of xs, and that maximum is positive. */
  ghost predicate IsFirstMax(xs: seq<real>, k: int)
  {
    && 0 <= k < |xs|
    && xs[k] > 0.0
    && (forall i :: 0 <= i < |xs| ==> xs[i] <= xs[k])
    && (forall i :: 0 <= i < k ==> xs[i] < xs[k])
  }

  /** The scan adds the amounts one at a time: appending x adds x to the sum. */
  lemma SumAppend(xs: seq<real>, x: real)
    ensures Sum(xs + [x]) == Sum(xs) + x
  {
    assert (xs + [x])[..|xs|] == xs;
  }

  /** Appending x makes it the leader exactly when it beats the current level. */
  lemma LeaderAppend(xs: seq<real>, x: real)
    ensures Leader(xs + [x]) == if x > Level(xs) then Some(|xs|) else Leader(xs)
  {
    assert (xs + [x])[..|xs|] == xs;
  }

  /**
   * The scan finds nothing exactly when no amount is positive; otherwise it
   * ends on the first position of the maximum.
   */
  lemma {:induction false} LeaderIsFirstMax(xs: seq<real>)
    ensures Leader(xs).None? <==> forall i :: 0 <= i < |xs| ==> xs[i] <= 0.0
    ensures Leader(xs).Some? ==> IsFirstMax(xs, Leader(xs).value)
  {
    if xs != [] {
      var prefix, x := xs[..|xs| - 1], xs[|xs| - 1];
      assert xs == prefix + [x];
      LeaderIsFirstMax(prefix);
      LeaderAppend(prefix, x);
    }
  }

  /** The first position of a positive maximum is the only answer the scan can give. */
  lemma FirstMaxIsLeader(xs: seq<real>, k: int)
    requires IsFirstMax(xs, k)
    ensures Leader(xs) == Some(k)
  {
    LeaderIsFirstMax(xs);
    var j := Leader(xs).value;
    assert !(j < k) && !(k < j);
  }

  /** The level is the largest amount of xs, or 0 when none is positive. */
  lemma LevelIsMaxWithBaseline(xs: seq<real>)
    ensures forall i :: 0 <= i < |xs| ==> xs[i] <= Level(xs)
    ensures Level(xs) == 0.0 || exists i :: 0 <= i < |xs| && xs[i] == Level(xs)
  {
    LeaderIsFirstMax(xs);
  }
}
