/** What one timed attempt of a probe comes to, and the bookkeeping every trial
    loop does with it: append the duration of a success to the measurements list,
    add one to failed_attempts otherwise. */
module Trials {

  /** The result of one blocking socket call (connect, send or recv). */
  datatype SocketStep = Done | StepTimeout | StepError

  /** How one attempt ended, as the loop's except clauses tell them apart. */
  datatype Outcome =
    | Measured(ms: real)   // no exception: the duration in milliseconds
    | TimedOut             // except socket.timeout
    | Failed               // any other exception

  /** The measurements list after the attempts: the durations of the successes,
      in attempt order. */
  function Successes(outs: seq<Outcome>): (r: seq<real>)
    ensures |r| <= |outs|
  {
    if outs == [] then []
    else
      var last := outs[|outs| - 1];
      Successes(outs[..|outs| - 1]) + (if last.Measured? then [last.ms] else [])
  }

  /** failed_attempts after the attempts. */
  function Failures(outs: seq<Outcome>): nat {
    if outs == [] then 0
    else Failures(outs[..|outs| - 1]) + (if outs[|outs| - 1].Measured? then 0 else 1)
  }

  /** The number of attempts that ended in socket.timeout. */
  function Timeouts(outs: seq<Outcome>): nat {
    if outs == [] then 0
    else Timeouts(outs[..|outs| - 1]) + (if outs[|outs| - 1].TimedOut? then 1 else 0)
  }

  /** Each attempt adds exactly one measurement or one failure. */
  lemma {:induction false} Accounting(outs: seq<Outcome>)
    ensures |Successes(outs)| + Failures(outs) == |outs|
  {
    if outs != [] {
      Accounting(outs[..|outs| - 1]);
    }
  }

  /** Timeouts are among the failures. */
  lemma {:induction false} TimeoutsAreFailures(outs: seq<Outcome>)
    ensures Timeouts(outs) <= Failures(outs)
  {
    if outs != [] {
      TimeoutsAreFailures(outs[..|outs| - 1]);
    }
  }

  /** The measurements list stays empty exactly when no attempt succeeded. */
  lemma {:induction false} NoSuccesses(outs: seq<Outcome>)
    ensures Successes(outs) == [] <==> forall i :: 0 <= i < |outs| ==> !outs[i].Measured?
  {
    if outs != [] {
      var init := outs[..|outs| - 1];
      NoSuccesses(init);
      assert forall i :: 0 <= i < |init| ==> init[i] == outs[i];
    }
  }

  /** When every attempt succeeds, the k-th measurement is the k-th attempt's duration. */
  lemma {:induction false} AllSucceeded(outs: seq<Outcome>)
    requires forall i :: 0 <= i < |outs| ==> outs[i].Measured?
    ensures |Successes(outs)| == |outs|
    ensures forall k :: 0 <= k < |outs| ==> Successes(outs)[k] == outs[k].ms
  {
    if outs != [] {
      var init := outs[..|outs| - 1];
      assert forall i :: 0 <= i < |init| ==> init[i] == outs[i];
      AllSucceeded(init);
    }
  }

  /** The tallies after one more attempt. */
  lemma TallySnoc(outs: seq<Outcome>, i: nat)
    requires i < |outs|
    ensures Successes(outs[..i + 1]) == Successes(outs[..i]) + (if outs[i].Measured? then [outs[i].ms] else [])
    ensures Failures(outs[..i + 1]) == Failures(outs[..i]) + (if outs[i].Measured? then 0 else 1)
    ensures Timeouts(outs[..i + 1]) == Timeouts(outs[..i]) + (if outs[i].TimedOut? then 1 else 0)
  {
    assert outs[..i + 1][..i] == outs[..i];
  }

  /** The number of leading elements that satisfy ok: the index of the first one
      that does not, or the length when all do. A loop that stops at its first
      failure runs exactly Leading(xs, ok) + 1 iterations if it stops, |xs| if not. */
  function Leading<T>(xs: seq<T>, ok: T -> bool): (k: nat)
    ensures k <= |xs|
    ensures forall i :: 0 <= i < k ==> ok(xs[i])
    ensures k < |xs| ==> !ok(xs[k])
  {
    if xs == [] then 0
    else
      var k := Leading(xs[..|xs| - 1], ok);
      if k < |xs| - 1 then k
      else if ok(xs[|xs| - 1]) then |xs|
      else |xs| - 1
  }

  /** Leading is determined by where the first failure is. */
  lemma LeadingIs<T>(xs: seq<T>, ok: T -> bool, k: nat)
    requires k <= |xs|
    requires forall i :: 0 <= i < k ==> ok(xs[i])
    requires k < |xs| ==> !ok(xs[k])
    ensures Leading(xs, ok) == k
  {
  }

  /** One more element: the count of leading successes stays where an earlier
      failure left it, and otherwise reaches at least the old length. */
  lemma LeadingSnoc<T>(xs: seq<T>, ok: T -> bool)
    requires xs != []
    ensures var n := |xs| - 1;
      var j := Leading(xs[..n], ok);
      && (j < n ==> Leading(xs, ok) == j)
      && (j == n ==> Leading(xs, ok) >= n)
  {
  }

  lemma PrefixOfPrefix<T>(xs: seq<T>, n: nat, m: nat)
    requires m <= n <= |xs|
    ensures xs[..n][..m] == xs[..m]
  {
  }
}
