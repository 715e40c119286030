/** The service lifecycle's only arithmetic: the pause before each attempt to
    bind the listening socket. */
module Lifecycle {

  /** Milliseconds slept before the bind attempt that follows `ct` failed
      ones: none before the first, 100 ms for the next 49, then 2 s. */
  function BindDelay(ct: nat): nat {
    if ct >= 50 then 2000 else if ct > 0 then 100 else 0
  }

  /** Total sleep before and during the first `n` attempts. */
  function Slept(n: nat): nat {
    if n == 0 then 0 else Slept(n - 1) + BindDelay(n - 1)
  }

  /** Closed form of the total sleep over `n` attempts. */
  lemma {:induction false} SleptClosedForm(n: nat)
    ensures Slept(n) == if n <= 1 then 0 else if n <= 50 then 100 * (n - 1) else 4900 + 2000 * (n - 50)
  {
    if n > 0 {
      SleptClosedForm(n - 1);
    }
  }

  /** The bind loop over the outcomes of successive bind attempts: returns
      how many attempts were made until the first success (or all of them)
      and how long was slept in total. */
  method BindRetry(outcomes: seq<bool>) returns (bound: bool, attempts: nat, slept: nat)
    ensures attempts <= |outcomes|
    ensures bound <==> true in outcomes
    ensures bound ==> 0 < attempts && outcomes[attempts - 1] && forall k :: 0 <= k < attempts - 1 ==> !outcomes[k]
    ensures !bound ==> attempts == |outcomes|
    ensures slept == Slept(attempts)
    ensures slept == if attempts <= 1 then 0 else if attempts <= 50 then 100 * (attempts - 1)
                     else 4900 + 2000 * (attempts - 50)
  {
    var bindCt: nat := 0;
    slept := 0;
    bound := false;
    while bindCt < |outcomes| && !bound
      invariant bindCt <= |outcomes|
      invariant slept == Slept(bindCt)
      invariant !bound ==> forall k :: 0 <= k < bindCt ==> !outcomes[k]
      invariant bound ==> 0 < bindCt && outcomes[bindCt - 1] && forall k :: 0 <= k < bindCt - 1 ==> !outcomes[k]
      decreases |outcomes| - bindCt
    {
      slept := slept + BindDelay(bindCt);
      bindCt := bindCt + 1;
      bound := outcomes[bindCt - 1];
    }
    attempts := bindCt;
    SleptClosedForm(attempts);
  }
}
