/**
 * The payoff helper of utils.py: the value at expiry of a long or short
 * European call or put, evaluated over a range of expiry prices.
 *
 * Option type and position are the strings the dashboard passes in.
 * Only the exact string "call" selects the call payoff and only the exact
 * string "long" the long position; every other string silently selects the
 * put payoff, respectively the short position. There is no error path.
 */
module Utils {

  /** Python's two-argument `max`: the first argument unless the second is larger. */
  function Max(a: real, b: real): (m: real)
    ensures m >= a && m >= b
    ensures m == a || m == b
  {
    if b > a then b else a
  }

  /** Intrinsic value at expiry price s for strike k: a call pays s - k, a put k - s, neither below zero. */
  function Intrinsic(s: real, k: real, optionType: string): (v: real)
    ensures v >= 0.0
    ensures optionType == "call" ==> v >= s - k && (v == s - k || v == 0.0)
    ensures optionType != "call" ==> v >= k - s && (v == k - s || v == 0.0)
  {
    if optionType == "call" then Max(s - k, 0.0) else Max(k - s, 0.0)
  }

  /** One element of the diagram: the intrinsic value held long, its negation otherwise. */
  function PayoffAt(s: real, k: real, optionType: string, position: string): (p: real)
    ensures p == Intrinsic(s, k, optionType) || p == -Intrinsic(s, k, optionType)
    ensures position == "long" ==> p >= 0.0
    ensures position != "long" ==> p <= 0.0
  {
    var v := Intrinsic(s, k, optionType);
    if position == "long" then v else -v
  }

  /**
   * The list that payoff_diagram returns, defined the way the loop builds it:
   * the diagram of all prices but the last, with the last price's payoff appended.
   */
  function Diagram(sRange: seq<real>, k: real, optionType: string, position: string): (r: seq<real>)
    ensures |r| == |sRange|
    decreases |sRange|
  {
    if sRange == [] then []
    else
      var n := |sRange| - 1;
      Diagram(sRange[..n], k, optionType, position) + [PayoffAt(sRange[n], k, optionType, position)]
  }

  /** payoff_diagram: start from an empty list and append one payoff per price, in order. */
  method PayoffDiagram(sRange: seq<real>, k: real, optionType: string := "call", position: string := "long")
    returns (payoff: seq<real>)
    ensures payoff == Diagram(sRange, k, optionType, position)
    ensures |payoff| == |sRange|
    ensures forall i :: 0 <= i < |sRange| ==> payoff[i] == PayoffAt(sRange[i], k, optionType, position)
  {
    payoff := [];
    for i := 0 to |sRange|
      invariant payoff == Diagram(sRange[..i], k, optionType, position)
    {
      var s := sRange[i];
      var val;
      if optionType == "call" {
        val := Max(s - k, 0.0);
      } else {
        val := Max(k - s, 0.0);
      }
      payoff := payoff + [if position == "long" then val else -val];
      assert sRange[..i + 1][..i] == sRange[..i];
    }
    assert sRange[..|sRange|] == sRange;
    forall i | 0 <= i < |sRange|
      ensures payoff[i] == PayoffAt(sRange[i], k, optionType, position)
    {
      DiagramAt(sRange, k, optionType, position, i);
    }
  }

  /** Element i of the diagram is the payoff at the i-th price: one element per price, same order. */
  lemma {:induction false} DiagramAt(sRange: seq<real>, k: real, optionType: string, position: string, i: nat)
    requires i < |sRange|
    ensures Diagram(sRange, k, optionType, position)[i] == PayoffAt(sRange[i], k, optionType, position)
    decreases |sRange|
  {
    var n := |sRange| - 1;
    if i < n {
      DiagramAt(sRange[..n], k, optionType, position, i);
    }
  }

  /** The diagram of two price ranges laid end to end is the two diagrams laid end to end. */
  lemma {:induction false} DiagramOfConcatenation(a: seq<real>, b: seq<real>, k: real, optionType: string, position: string)
    ensures Diagram(a + b, k, optionType, position)
         == Diagram(a, k, optionType, position) + Diagram(b, k, optionType, position)
    decreases |b|
  {
    if b != [] {
      var n := |b| - 1;
      assert (a + b)[..|a + b| - 1] == a + b[..n];
      DiagramOfConcatenation(a, b[..n], k, optionType, position);
    } else {
      assert a + b == a;
    }
  }

  /** A long call pays max(s - k, 0) at every price of the range. */
  lemma {:induction false} LongCallPayoff(sRange: seq<real>, k: real)
    ensures forall i :: 0 <= i < |sRange| ==>
      Diagram(sRange, k, "call", "long")[i] == (if sRange[i] > k then sRange[i] - k else 0.0)
  {
    forall i | 0 <= i < |sRange|
      ensures Diagram(sRange, k, "call", "long")[i] == (if sRange[i] > k then sRange[i] - k else 0.0)
    {
      DiagramAt(sRange, k, "call", "long", i);
    }
  }

  /** Every option type string other than "call" yields exactly the put diagram; none is rejected. */
  lemma {:induction false} OtherTypesArePuts(sRange: seq<real>, k: real, optionType: string, position: string)
    requires optionType != "call"
    ensures Diagram(sRange, k, optionType, position) == Diagram(sRange, k, "put", position)
    ensures forall i :: 0 <= i < |sRange| ==>
      Diagram(sRange, k, optionType, "long")[i] == (if k > sRange[i] then k - sRange[i] else 0.0)
    decreases |sRange|
  {
    if sRange != [] {
      OtherTypesArePuts(sRange[..|sRange| - 1], k, optionType, position);
    }
    forall i | 0 <= i < |sRange|
      ensures Diagram(sRange, k, optionType, "long")[i] == (if k > sRange[i] then k - sRange[i] else 0.0)
    {
      DiagramAt(sRange, k, optionType, "long", i);
    }
  }

  /** Every position string other than "long" is the exact element-wise negation of the long diagram. */
  lemma {:induction false} ShortNegatesLong(sRange: seq<real>, k: real, optionType: string, position: string)
    requires position != "long"
    ensures forall i :: 0 <= i < |sRange| ==>
      Diagram(sRange, k, optionType, position)[i] == -Diagram(sRange, k, optionType, "long")[i]
  {
    forall i | 0 <= i < |sRange|
      ensures Diagram(sRange, k, optionType, position)[i] == -Diagram(sRange, k, optionType, "long")[i]
    {
      DiagramAt(sRange, k, optionType, position, i);
      DiagramAt(sRange, k, optionType, "long", i);
    }
  }

  /** Long payoffs are never negative, short payoffs never positive. */
  lemma {:induction false} PayoffSigns(sRange: seq<real>, k: real, optionType: string, position: string)
    ensures position == "long" ==> forall i :: 0 <= i < |sRange| ==> Diagram(sRange, k, optionType, position)[i] >= 0.0
    ensures position != "long" ==> forall i :: 0 <= i < |sRange| ==> Diagram(sRange, k, optionType, position)[i] <= 0.0
  {
    forall i | 0 <= i < |sRange|
      ensures position == "long" ==> Diagram(sRange, k, optionType, position)[i] >= 0.0
      ensures position != "long" ==> Diagram(sRange, k, optionType, position)[i] <= 0.0
    {
      DiagramAt(sRange, k, optionType, position, i);
    }
  }

  /** Long call minus long put at the same price is s - k, price by price. */
  lemma {:induction false} CallMinusPut(sRange: seq<real>, k: real)
    ensures forall i :: 0 <= i < |sRange| ==>
      Diagram(sRange, k, "call", "long")[i] - Diagram(sRange, k, "put", "long")[i] == sRange[i] - k
  {
    forall i | 0 <= i < |sRange|
      ensures Diagram(sRange, k, "call", "long")[i] - Diagram(sRange, k, "put", "long")[i] == sRange[i] - k
    {
      DiagramAt(sRange, k, "call", "long", i);
      DiagramAt(sRange, k, "put", "long", i);
    }
  }

  predicate NonDecreasing(xs: seq<real>)
  {
    forall i, j :: 0 <= i < j < |xs| ==> xs[i] <= xs[j]
  }

  predicate NonIncreasing(xs: seq<real>)
  {
    forall i, j :: 0 <= i < j < |xs| ==> xs[i] >= xs[j]
  }

  /** Over an ascending price range the long call diagram rises and the long put diagram falls. */
  lemma {:induction false} LongPayoffMonotone(sRange: seq<real>, k: real)
    requires NonDecreasing(sRange)
    ensures NonDecreasing(Diagram(sRange, k, "call", "long"))
    ensures NonIncreasing(Diagram(sRange, k, "put", "long"))
  {
    var calls := Diagram(sRange, k, "call", "long");
    var puts := Diagram(sRange, k, "put", "long");
    forall i, j | 0 <= i < j < |sRange|
      ensures calls[i] <= calls[j] && puts[i] >= puts[j]
    {
      DiagramAt(sRange, k, "call", "long", i);
      DiagramAt(sRange, k, "call", "long", j);
      DiagramAt(sRange, k, "put", "long", i);
      DiagramAt(sRange, k, "put", "long", j);
    }
  }

  /** Strike 100: a long call pays 20 at 120 and 0 at 80; the short call negates both. */
  lemma StrikeHundredScenario()
    ensures Diagram([120.0, 80.0], 100.0, "call", "long") == [20.0, 0.0]
    ensures Diagram([120.0, 80.0], 100.0, "call", "short") == [-20.0, 0.0]
  {
  }
}
