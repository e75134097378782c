/** The waits between the attempts of a reconnect (internal/session/reconnect.go), in seconds. */
module Backoff {
  import opened Arith

  const FIRST := 1
  const CAP := 10

  function Pow2(n: nat): (p: nat)
    ensures p > 0
  {
    if n == 0 then 1 else 2 * Pow2(n - 1)
  }

  /** The wait after attempt n: it doubles from one second and stays at the cap. */
  function Wait(n: int): (d: nat)
    ensures FIRST <= d <= CAP
  {
    if n <= 1 then FIRST else Min(Pow2(n - 1), CAP)
  }

  lemma {:induction false} Pow2Grows(m: nat, n: nat)
    requires m <= n
    ensures Pow2(m) <= Pow2(n)
  {
    if m < n {
      Pow2Grows(m, n - 1);
    }
  }

  method BackoffAfter(attempt: int) returns (d: nat)
    ensures d == Wait(attempt)
  {
    d := FIRST;
    var i := 1;
    while i < attempt
      invariant 1 <= i && (i <= attempt || i == 1)
      invariant d == Pow2(i - 1) < CAP
    {
      d := d * 2;
      i := i + 1;
      if d >= CAP {
        Pow2Grows(i - 1, attempt - 1);
        return CAP;
      }
    }
  }

  /** The least time from the loss to attempt n + 1. */
  function WaitSum(n: nat): nat {
    if n == 0 then 0 else WaitSum(n - 1) + Wait(n)
  }

  lemma {:induction false} WaitSumIs(n: nat)
    ensures WaitSum(n) == if n <= 4 then Pow2(n) - 1 else 15 + CAP * (n - 4)
  {
    if n > 0 {
      WaitSumIs(n - 1);
      if n >= 5 {
        Pow2Grows(4, n - 1);
        assert Pow2(4) == 2 * Pow2(3) == 4 * Pow2(2) == 8 * Pow2(1) == 16;
      } else {
        assert Pow2(1) == 2 && Pow2(2) == 4 && Pow2(3) == 8;
      }
    }
  }

  /** An attempt whose waits fit in the window is one of the first window / 10 + 4. */
  lemma AttemptsAreBounded(attempt: nat, window: nat)
    requires attempt >= 1 && WaitSum(attempt - 1) < window
    ensures attempt <= window / CAP + 4
  {
    WaitSumIs(attempt - 1);
  }
}
