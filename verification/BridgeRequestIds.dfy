/** Ids made from counters never collide (src/bridge/mod.rs, src/bridge/services.rs). */
module BridgeRequestIds {
  import opened Basics
  import opened BridgeState

  lemma {:induction false} DecimalInjective(m: nat, n: nat)
    requires Decimal(m) == Decimal(n)
    ensures m == n
  {
    var a, b := Decimal(m), Decimal(n);
    assert a[|a| - 1] == Digit(m % 10) && b[|b| - 1] == Digit(n % 10);
    assert Digit(m % 10) == Digit(n % 10);
    DigitInjective(m % 10, n % 10);
    if m < 10 {
      assert |b| == 1;
      DecimalNonempty(n / 10);
    } else {
      DecimalNonempty(m / 10);
      assert |a| > 1;
      assert a[..|a| - 1] == Decimal(m / 10) && b[..|b| - 1] == Decimal(n / 10);
      DecimalInjective(m / 10, n / 10);
    }
  }

  lemma DigitInjective(m: nat, n: nat)
    requires m < 10 && n < 10 && Digit(m) == Digit(n)
    ensures m == n
  {
  }

  lemma DecimalNonempty(n: nat)
    ensures |Decimal(n)| > 0
  {
  }

  lemma {:induction false} DecimalIsDigits(n: nat)
    ensures forall i :: 0 <= i < |Decimal(n)| ==> Decimal(n)[i] != ':'
  {
    if n >= 10 {
      DecimalIsDigits(n / 10);
    }
  }

  /** Two texts split at their last colon are equal only part by part. */
  lemma SplitAtLastColon(a: string, x: string, b: string, y: string)
    requires a + ":" + x == b + ":" + y
    requires (forall i :: 0 <= i < |x| ==> x[i] != ':') && forall i :: 0 <= i < |y| ==> y[i] != ':'
    ensures a == b && x == y
  {
    var whole, again := a + ":" + x, b + ":" + y;
    assert whole[|a|] == ':' && again[|b|] == ':';
    assert forall i :: |a| < i < |whole| ==> whole[i] == x[i - |a| - 1];
    assert forall i :: |b| < i < |again| ==> again[i] == y[i - |b| - 1];
    assert |a| == |b|;
    assert a == whole[..|a|] && b == again[..|b|];
    assert x == whole[|a| + 1..] && y == again[|b| + 1..];
  }

  /** Equal ids come from the same service and the same count, whatever the names are. */
  lemma RequestIdInjective(a: string, m: nat, b: string, n: nat)
    requires RequestId(a, m) == RequestId(b, n)
    ensures a == b && m == n
  {
    var prefix := "service_request:";
    assert RequestId(a, m) == prefix + (a + ":" + Decimal(m));
    assert RequestId(b, n) == prefix + (b + ":" + Decimal(n));
    assert a + ":" + Decimal(m) == RequestId(a, m)[|prefix|..];
    assert b + ":" + Decimal(n) == RequestId(b, n)[|prefix|..];
    DecimalIsDigits(m);
    DecimalIsDigits(n);
    SplitAtLastColon(a, Decimal(m), b, Decimal(n));
    DecimalInjective(m, n);
  }

  /** ... and the unique names behind goal ids are unique. */
  lemma UniqueNameInjective(m: nat, n: nat)
    requires UniqueName(m) == UniqueName(n)
    ensures m == n
  {
    var prefix := "rosbridge:";
    assert Decimal(m) == UniqueName(m)[|prefix|..] && Decimal(n) == UniqueName(n)[|prefix|..];
    DecimalInjective(m, n);
  }
}
