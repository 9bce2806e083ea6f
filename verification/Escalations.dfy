/**
 The escalation metric (packages/policy/src/escalation-metric.ts), with exact rates.
 */
module Escalations {
  import opened PolicyEngine

  datatype EscalationSample = EscalationSample(index: nat, totalActions: nat, escalations: nat, rate: real)

  /** How many of the decisions ask the operator. */
  function Asks(ds: seq<Decision>): (n: nat)
    ensures n <= |ds|
  {
    if ds == [] then 0 else Asks(ds[..|ds| - 1]) + (if ds[|ds| - 1].verdict == Ask then 1 else 0)
  }

  function Rate(asks: nat, total: nat): real
    requires total > 0
  {
    asks as real / total as real
  }

  /** The sample after decision `i`. */
  function SampleAt(ds: seq<Decision>, i: nat): EscalationSample
    requires i < |ds|
  {
    EscalationSample(i, i + 1, Asks(ds[..i + 1]), Rate(Asks(ds[..i + 1]), i + 1))
  }

  ghost predicate IsSeries(samples: seq<EscalationSample>, ds: seq<Decision>) {
    |samples| == |ds| && forall i | 0 <= i < |ds| :: samples[i] == SampleAt(ds, i)
  }

  method EscalationSeries(ds: seq<Decision>) returns (samples: seq<EscalationSample>)
    ensures IsSeries(samples, ds)
  {
    var asks := 0;
    samples := [];
    for index := 0 to |ds|
      invariant asks == Asks(ds[..index]) && |samples| == index
      invariant forall i | 0 <= i < index :: samples[i] == SampleAt(ds, i)
    {
      assert ds[..index + 1][..index] == ds[..index];
      if ds[index].verdict == Ask { asks := asks + 1; }
      var total := index + 1;
      samples := samples + [EscalationSample(index, total, asks, Rate(asks, total))];
    }
  }

  method FinalEscalationRate(ds: seq<Decision>) returns (rate: real)
    ensures rate == if ds == [] then 0.0 else Rate(Asks(ds), |ds|)
    ensures 0.0 <= rate <= 1.0
  {
    if |ds| == 0 { return 0.0; }
    var series := EscalationSeries(ds);
    assert ds[..|ds|] == ds;
    rate := series[|series| - 1].rate;
    RateBounds(Asks(ds), |ds|);
  }

  lemma RateBounds(asks: nat, total: nat)
    requires asks <= total && total > 0
    ensures 0.0 <= Rate(asks, total) <= 1.0
  {
    RateOrder(0, total, asks, total);
    RateOrder(asks, total, total, total);
  }

  ghost predicate NonIncreasing(samples: seq<EscalationSample>) {
    forall i, j | 0 <= i < j < |samples| :: samples[j].rate <= samples[i].rate
  }

  /** Comparing neighbours decides every pair. */
  method IsMonotonicNonIncreasing(samples: seq<EscalationSample>) returns (r: bool)
    ensures r <==> NonIncreasing(samples)
  {
    var i := 1;
    while i < |samples|
      invariant 1 <= i && forall k, j | 0 <= k < j < i && j < |samples| :: samples[j].rate <= samples[k].rate
    {
      if samples[i].rate > samples[i - 1].rate { return false; }
      assert forall k | 0 <= k < i :: samples[i - 1].rate <= samples[k].rate;
      i := i + 1;
    }
    r := true;
  }

  /** Once one decision is not an ask, none after it is. */
  ghost predicate AsksFormPrefix(ds: seq<Decision>) {
    forall i, j | 0 <= i < j < |ds| && ds[j].verdict == Ask :: ds[i].verdict == Ask
  }

  lemma RateOrder(a: nat, m: nat, b: nat, n: nat)
    requires m > 0 && n > 0
    ensures Rate(a, m) <= Rate(b, n) <==> a * n <= b * m
  {
    var x, y, p, q := Rate(a, m), Rate(b, n), m as real, n as real;
    assert x * p == a as real && y * q == b as real;
    assert (a * n) as real == a as real * q && (b * m) as real == b as real * p;
    assert x * (p * q) == a as real * q && y * (p * q) == b as real * p;
    ScaleOrder(x, y, p * q);
  }

  lemma ScaleOrder(x: real, y: real, k: real)
    requires k > 0.0
    ensures x <= y <==> x * k <= y * k
  {
    if x > y { assert (x - y) * k > 0.0; } else { assert (y - x) * k >= 0.0; }
  }

  lemma {:induction false} AllAsks(ds: seq<Decision>)
    ensures Asks(ds) == |ds| <==> forall i | 0 <= i < |ds| :: ds[i].verdict == Ask
  {
    if ds != [] {
      var n := |ds| - 1;
      AllAsks(ds[..n]);
      assert forall i | 0 <= i < n :: ds[..n][i] == ds[i];
      if Asks(ds) < |ds| && ds[n].verdict == Ask {
        var i :| 0 <= i < n && ds[..n][i].verdict != Ask;
        assert ds[i].verdict != Ask;
      }
    }
  }

  /** From one sample to the next the rate rises exactly when an ask follows a decision that was none. */
  lemma RateStep(ds: seq<Decision>, i: nat)
    requires 0 < i < |ds|
    ensures SampleAt(ds, i).rate <= SampleAt(ds, i - 1).rate
            <==> (ds[i].verdict == Ask ==> forall k | 0 <= k < i :: ds[k].verdict == Ask)
  {
    var a, b := Asks(ds[..i]), Asks(ds[..i + 1]);
    assert ds[..i + 1][..i] == ds[..i];
    assert b == a + (if ds[i].verdict == Ask then 1 else 0);
    hide Rate, Asks;
    RateOrder(b, i + 1, a, i);
    OneMoreAsk(a, i);
    AllAsks(ds[..i]);
    assert forall k | 0 <= k < i :: ds[..i][k] == ds[k];
  }

  lemma OneMoreAsk(a: nat, i: nat)
    ensures a * i <= a * (i + 1)
    ensures (a + 1) * i <= a * (i + 1) <==> i <= a
  {
    assert (a + 1) * i == a * i + i && a * (i + 1) == a * i + a;
  }

  /** The escalation rate never rises exactly when the asks form a prefix of the decisions. */
  lemma MonotoneIffAsksFormPrefix(ds: seq<Decision>, samples: seq<EscalationSample>)
    requires IsSeries(samples, ds)
    ensures NonIncreasing(samples) <==> AsksFormPrefix(ds)
  {
    hide Rate, Asks;
    if NonIncreasing(samples) {
      forall i, j | 0 <= i < j < |ds| && ds[j].verdict == Ask ensures ds[i].verdict == Ask {
        RateStep(ds, j);
        assert samples[j].rate <= samples[j - 1].rate;
      }
    }
    if AsksFormPrefix(ds) {
      forall j: nat | j < |samples| ensures forall i | 0 <= i < j :: samples[j].rate <= samples[i].rate {
        Falls(ds, samples, j);
      }
    }
  }

  lemma {:induction false} Falls(ds: seq<Decision>, samples: seq<EscalationSample>, j: nat)
    requires IsSeries(samples, ds) && AsksFormPrefix(ds) && j < |samples|
    ensures forall i | 0 <= i < j :: samples[j].rate <= samples[i].rate
  {
    hide Rate, Asks;
    if j > 0 {
      Falls(ds, samples, j - 1);
      RateStep(ds, j);
    }
  }

  /** Positions where a denial was expected and the decision allows. */
  ghost function Regressions(ds: seq<Decision>, expected: seq<Verdict>): set<int> {
    set i | 0 <= i < |ds| && i < |expected| && expected[i] == Deny && ds[i].verdict == Allow
  }

  method CountSafetyRegressions(ds: seq<Decision>, expected: seq<Verdict>) returns (regressions: nat)
    ensures regressions == |Regressions(ds, expected)|
  {
    regressions := 0;
    var len := if |ds| <= |expected| then |ds| else |expected|;
    assert Regressions(ds[..0], expected) == {};
    for i := 0 to len
      invariant regressions == |Regressions(ds[..i], expected)|
    {
      var before, after := Regressions(ds[..i], expected), Regressions(ds[..i + 1], expected);
      if expected[i] == Deny && ds[i].verdict == Allow {
        assert after == before + {i};
        regressions := regressions + 1;
      } else {
        assert after == before;
      }
    }
    assert Regressions(ds[..len], expected) == Regressions(ds, expected);
  }

  /** The positions at which the decision asks. */
  ghost function AskPlaces(ds: seq<Decision>): set<int> { set i | 0 <= i < |ds| && ds[i].verdict == Ask }

  lemma OneMorePlace(ds: seq<Decision>)
    requires ds != []
    ensures var n := |ds| - 1; AskPlaces(ds) == AskPlaces(ds[..n]) + if ds[n].verdict == Ask then {n} else {}
  {
    assert forall i | 0 <= i < |ds| - 1 :: ds[..|ds| - 1][i] == ds[i];
  }

  /** The asks are counted by position. */
  lemma {:induction false} AsksCount(ds: seq<Decision>)
    ensures Asks(ds) == |AskPlaces(ds)|
  {
    if ds != [] {
      var n := |ds| - 1;
      OneMorePlace(ds);
      AsksCount(ds[..n]);
      assert n !in AskPlaces(ds[..n]);
      hide AskPlaces;
    }
  }
}
