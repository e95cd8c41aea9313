/**
 * The reporting cadence of `StatsListener.iterationDone`: which values of `iterCount`
 * take the early-return branch, and what that means over a whole run of calls.
 */
module Cadence {

  /** The early-return test of `iterationDone`, evaluated on the pre-increment `iterCount`. */
  predicate SkipsReport(freq: int, iterCount: nat)
  {
    freq > 1 && (iterCount == 0 || iterCount % freq != 0)
  }

  /** Number of update reports emitted by completed calls with `iterCount` = 0, 1, ..., n-1. */
  function ReportsAmong(freq: int, n: nat): nat
  {
    if n == 0 then 0
    else ReportsAmong(freq, n - 1) + (if SkipsReport(freq, n - 1) then 0 else 1)
  }

  /** The pre-increment `iterCount` of the latest report among 0 .. n-1, or -1 when there is none. */
  function LastReportBefore(freq: int, n: nat): (last: int)
    ensures -1 <= last < n
  {
    if n == 0 then -1
    else if !SkipsReport(freq, n - 1) then n - 1
    else LastReportBefore(freq, n - 1)
  }

  /** A report is due exactly when the frequency is at most 1, or iterCount is a positive multiple of it. */
  lemma ReportDueIff(freq: int, iterCount: nat)
    ensures !SkipsReport(freq, iterCount) <==> freq <= 1 || (iterCount > 0 && iterCount % freq == 0)
  {
  }

  lemma DivStep(n: nat, d: int)
    requires d > 1 && n >= 1
    ensures n / d == (n - 1) / d + (if n % d == 0 then 1 else 0)
  {
    var q, r := n / d, n % d;
    assert n == d * q + r && 0 <= r < d;
    if r == 0 {
      assert n - 1 == d * (q - 1) + (d - 1);
      DivUnique(n - 1, d, q - 1, d - 1);
    } else {
      assert n - 1 == d * q + (r - 1);
      DivUnique(n - 1, d, q, r - 1);
    }
  }

  lemma DivUnique(x: int, d: int, q: int, r: int)
    requires d > 0 && 0 <= r < d && x == d * q + r
    ensures x / d == q
  {
    var q', r' := x / d, x % d;
    assert x == d * q' + r';
    Distribute(d, q, q');
    if q > q' {
      MulAtLeast(d, q - q');
    } else if q < q' {
      MulAtLeast(d, q' - q);
      Distribute(d, q', q);
    }
  }

  lemma Distribute(d: int, a: int, b: int)
    ensures d * a - d * b == d * (a - b)
  {
  }

  lemma {:induction false} MulAtLeast(d: int, k: int)
    requires d > 0 && k >= 1
    ensures d * k >= d
  {
    if k > 1 {
      MulAtLeast(d, k - 1);
      Distribute(d, k, k - 1);
    }
  }

  /**
   * Over n completed calls: with frequency at most 1 every call reports; otherwise the
   * calls at iterCount = freq, 2*freq, ... report, so (n-1)/freq of them (call 0 never does).
   */
  lemma {:induction false} ReportsAmongClosedForm(freq: int, n: nat)
    ensures ReportsAmong(freq, n) == if freq <= 1 then n else if n == 0 then 0 else (n - 1) / freq
  {
    if n > 0 {
      ReportsAmongClosedForm(freq, n - 1);
      if freq > 1 && n >= 2 {
        DivStep(n - 1, freq);
      }
    }
  }

  /** LastReportBefore is the latest reporting iteration before n; none lies between it and n. */
  lemma {:induction false} LastReportBeforeIsLatest(freq: int, n: nat)
    ensures LastReportBefore(freq, n) == -1 || !SkipsReport(freq, LastReportBefore(freq, n))
    ensures forall k :: LastReportBefore(freq, n) < k < n ==> SkipsReport(freq, k)
    ensures LastReportBefore(freq, n) == -1 <==> ReportsAmong(freq, n) == 0
  {
    if n > 0 {
      LastReportBeforeIsLatest(freq, n - 1);
    }
  }

  /** With freq > 1 the first report comes from the call at iterCount == freq. */
  lemma {:induction false} FirstReportAtFrequency(freq: int, n: nat)
    requires freq > 1
    ensures ReportsAmong(freq, n) == 0 <==> n <= freq
  {
    ReportsAmongClosedForm(freq, n);
    if n > freq {
      DivUnique(freq, freq, 1, 0);
      DivMonotone(freq, n - 1, freq);
    } else if n > 0 {
      DivUnique(n - 1, freq, 0, n - 1);
    }
  }

  lemma DivMonotone(a: int, b: int, d: int)
    requires 0 <= a <= b && d > 0
    ensures a / d <= b / d
  {
    var qa, qb := a / d, b / d;
    var ra, rb := a % d, b % d;
    assert a == d * qa + ra && b == d * qb + rb;
    if qa > qb {
      MulAtLeast(d, qa - qb);
      Distribute(d, qa, qb);
    }
  }

  /** Twelve completed calls with frequency 5 emit two updates, at iterCount 5 and 10. */
  lemma TwelveCallsFrequencyFive()
    ensures ReportsAmong(5, 12) == 2
    ensures LastReportBefore(5, 12) == 10
    ensures LastReportBefore(5, 10) == 5
  {
    ReportsAmongClosedForm(5, 12);
  }
}
