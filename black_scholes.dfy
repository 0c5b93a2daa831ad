/**
 * black_scholes.py: the option-type dispatch of the pricing function and of
 * the Greeks, the Newton-Raphson implied-volatility solver, and the verbatim
 * copy of the payoff helper.
 *
 * The closed-form Black-Scholes arithmetic (d1, d2, the price and Greek
 * formulas over log, exp, sqrt and the normal CDF/PDF) is not modelled: a
 * `Formulas` value carries each formula as an uninterpreted total function
 * of the option kind, the market inputs and the volatility. What is modelled
 * exactly is which formula is chosen for which option type string, when an
 * error is raised, and the control flow of the solver.
 */
module BlackScholes {
  import Utils

  /** The two kinds of European option the formulas distinguish. */
  datatype OptionKind = Call | Put

  /** The ValueError that black_scholes_price raises for an unknown option type, with its fixed message. */
  datatype PriceError = InvalidOptionType(message: string)

  /** The message of that ValueError; it does not name the offending string. */
  const InvalidTypeMessage: string := "option_type must be 'call' or 'put'"

  datatype Result<T> = Ok(value: T) | Err(error: PriceError)

  /** The market inputs other than volatility: spot S, strike K, maturity T in years, risk-free rate r. */
  datatype MarketInputs = MarketInputs(spot: real, strike: real, maturity: real, rate: real)

  /**
   * The closed-form formulas, one total function each. `price`, `delta`,
   * `theta` and `rho` take the option kind whose branch is evaluated; `vega`
   * (like gamma) is the same for calls and puts.
   */
  datatype Formulas = Formulas(
    price: (OptionKind, MarketInputs, real) -> real,
    delta: (OptionKind, MarketInputs, real) -> real,
    theta: (OptionKind, MarketInputs, real) -> real,
    rho: (OptionKind, MarketInputs, real) -> real,
    vega: (MarketInputs, real) -> real)

  /** The string the dashboard uses for each kind. */
  function Name(kind: OptionKind): string
  {
    match kind
    case Call => "call"
    case Put => "put"
  }

  /** The validation black_scholes_price performs: "call" and "put" are accepted, anything else raises. */
  function ParseOptionType(optionType: string): (r: Result<OptionKind>)
    ensures r.Ok? <==> optionType == "call" || optionType == "put"
    ensures r.Ok? ==> Name(r.value) == optionType
    ensures r.Err? ==> r.error == InvalidOptionType(InvalidTypeMessage)
  {
    if optionType == "call" then Ok(Call)
    else if optionType == "put" then Ok(Put)
    else Err(InvalidOptionType(InvalidTypeMessage))
  }

  /** Parsing the name of a kind gives that kind back. */
  lemma ParseName(kind: OptionKind)
    ensures ParseOptionType(Name(kind)) == Ok(kind)
  {
  }

  /** black_scholes_price: the price formula of the parsed kind, or the error for any other string. */
  function BlackScholesPrice(f: Formulas, x: MarketInputs, sigma: real, optionType: string := "call"): (r: Result<real>)
    ensures r.Ok? <==> optionType == "call" || optionType == "put"
    ensures optionType == "call" ==> r == Ok(f.price(Call, x, sigma))
    ensures optionType == "put" ==> r == Ok(f.price(Put, x, sigma))
    ensures r.Err? ==> r.error == InvalidOptionType(InvalidTypeMessage)
  {
    match ParseOptionType(optionType)
    case Ok(kind) => Ok(f.price(kind, x, sigma))
    case Err(e) => Err(e)
  }

  /** delta: the call branch for "call", the put branch for every other string. */
  function Delta(f: Formulas, x: MarketInputs, sigma: real, optionType: string := "call"): (r: real)
    ensures ParseOptionType(optionType).Ok? ==> r == f.delta(ParseOptionType(optionType).value, x, sigma)
    ensures ParseOptionType(optionType).Err? ==> r == f.delta(Put, x, sigma)
  {
    if optionType == "call" then f.delta(Call, x, sigma) else f.delta(Put, x, sigma)
  }

  /** vega: one formula for both kinds; it is the derivative the solver divides by. */
  function Vega(f: Formulas, x: MarketInputs, sigma: real): (r: real)
    ensures VegaNonNegative(f, x) ==> r >= 0.0
  {
    f.vega(x, sigma)
  }

  /** theta: the call branch for "call", the put branch for every other string. */
  function Theta(f: Formulas, x: MarketInputs, sigma: real, optionType: string := "call"): (r: real)
    ensures ParseOptionType(optionType).Ok? ==> r == f.theta(ParseOptionType(optionType).value, x, sigma)
    ensures ParseOptionType(optionType).Err? ==> r == f.theta(Put, x, sigma)
  {
    if optionType == "call" then f.theta(Call, x, sigma) else f.theta(Put, x, sigma)
  }

  /** rho: the call branch for "call", the put branch for every other string. */
  function Rho(f: Formulas, x: MarketInputs, sigma: real, optionType: string := "call"): (r: real)
    ensures ParseOptionType(optionType).Ok? ==> r == f.rho(ParseOptionType(optionType).value, x, sigma)
    ensures ParseOptionType(optionType).Err? ==> r == f.rho(Put, x, sigma)
  {
    if optionType == "call" then f.rho(Call, x, sigma) else f.rho(Put, x, sigma)
  }

  /** The Greeks never fail because of the option type: every string other than "call" is treated as a put. */
  lemma GreeksTreatOtherTypesAsPut(f: Formulas, x: MarketInputs, sigma: real, optionType: string)
    ensures optionType == "call" ==>
      Delta(f, x, sigma, optionType) == f.delta(Call, x, sigma) &&
      Theta(f, x, sigma, optionType) == f.theta(Call, x, sigma) &&
      Rho(f, x, sigma, optionType) == f.rho(Call, x, sigma)
    ensures optionType != "call" ==>
      Delta(f, x, sigma, optionType) == f.delta(Put, x, sigma) &&
      Theta(f, x, sigma, optionType) == f.theta(Put, x, sigma) &&
      Rho(f, x, sigma, optionType) == f.rho(Put, x, sigma)
  {
  }

  /**
   * Where the price succeeds, the Greeks evaluate the branch of the same kind;
   * where it raises, the Greeks still return the put branch.
   */
  lemma GreeksAgreeWithPrice(f: Formulas, x: MarketInputs, sigma: real, optionType: string)
    ensures BlackScholesPrice(f, x, sigma, optionType).Ok? ==>
      var kind := ParseOptionType(optionType).value;
      BlackScholesPrice(f, x, sigma, optionType).value == f.price(kind, x, sigma) &&
      Delta(f, x, sigma, optionType) == f.delta(kind, x, sigma) &&
      Theta(f, x, sigma, optionType) == f.theta(kind, x, sigma) &&
      Rho(f, x, sigma, optionType) == f.rho(kind, x, sigma)
    ensures BlackScholesPrice(f, x, sigma, optionType).Err? ==>
      Delta(f, x, sigma, optionType) == f.delta(Put, x, sigma) &&
      Theta(f, x, sigma, optionType) == f.theta(Put, x, sigma) &&
      Rho(f, x, sigma, optionType) == f.rho(Put, x, sigma)
  {
  }

  // ---------------------------------------------------------------------
  // Implied volatility by Newton-Raphson
  // ---------------------------------------------------------------------

  /** The fixed starting guess. */
  const InitialSigma: real := 0.2
  /** Added to vega before dividing, so the step is defined when vega is zero. */
  const VegaStabilizer: real := 0.00000001
  /** The defaults of the tol and max_iter parameters. */
  const DefaultTolerance: real := 0.000001
  const DefaultMaxIter: int := 100

  /** The solver's answer; NaN in the source, `NotConverged` here. `Raised` is the price's ValueError escaping the loop. */
  datatype Outcome = Converged(sigma: real) | NotConverged | Raised(error: PriceError)

  /** Python's abs on a float. */
  function Abs(a: real): (m: real)
    ensures m >= 0.0
    ensures m == a || m == -a
  {
    if a < 0.0 then -a else a
  }

  /** Vega is never negative for these market inputs, which holds whenever the spot is positive. */
  ghost predicate VegaNonNegative(f: Formulas, x: MarketInputs)
  {
    forall sigma: real :: f.vega(x, sigma) >= 0.0
  }

  /** One Newton update: sigma - (price(sigma) - target) / (vega(sigma) + 1e-8). */
  function NewtonStep(f: Formulas, x: MarketInputs, kind: OptionKind, target: real, sigma: real): (r: real)
    requires VegaNonNegative(f, x)
    ensures (sigma - r) * (f.vega(x, sigma) + VegaStabilizer) == f.price(kind, x, sigma) - target
  {
    assert f.vega(x, sigma) >= 0.0;
    sigma - (f.price(kind, x, sigma) - target) / (f.vega(x, sigma) + VegaStabilizer)
  }

  /** The estimate after n updates from the starting guess; nothing keeps it positive. */
  function Iterate(f: Formulas, x: MarketInputs, kind: OptionKind, target: real, n: nat): (r: real)
    requires VegaNonNegative(f, x)
    ensures n == 0 ==> r == InitialSigma
  {
    if n == 0 then InitialSigma else NewtonStep(f, x, kind, target, Iterate(f, x, kind, target, n - 1))
  }

  /** The test of line 24: the price at sigma is strictly within tol of the target. */
  function WithinTolerance(f: Formulas, x: MarketInputs, kind: OptionKind, target: real, tol: real, sigma: real): (b: bool)
    ensures b <==> target - tol < f.price(kind, x, sigma) < target + tol
  {
    Abs(f.price(kind, x, sigma) - target) < tol
  }

  /**
   * Rounds n, n+1, ... of the loop, up to maxIter: the first round whose
   * estimate is within tolerance returns the estimate AFTER that round's update.
   */
  function Search(f: Formulas, x: MarketInputs, kind: OptionKind, target: real, tol: real, n: nat, maxIter: int): (r: Outcome)
    requires VegaNonNegative(f, x)
    ensures !r.Raised?
    ensures r.Converged? ==> n < maxIter
    decreases maxIter - n
  {
    if n >= maxIter then NotConverged
    else
      var sigma := Iterate(f, x, kind, target, n);
      if WithinTolerance(f, x, kind, target, tol, sigma) then Converged(NewtonStep(f, x, kind, target, sigma))
      else Search(f, x, kind, target, tol, n + 1, maxIter)
  }

  /**
   * What implied_volatility returns: with no rounds, the sentinel; otherwise the
   * first round's price raises for an unknown option type, or the search decides.
   */
  function Solve(f: Formulas, x: MarketInputs, optionType: string, target: real, tol: real, maxIter: int): (r: Outcome)
    requires VegaNonNegative(f, x)
    ensures maxIter <= 0 ==> r == NotConverged
    ensures r.Raised? <==> maxIter >= 1 && optionType != "call" && optionType != "put"
    ensures r.Raised? ==> r.error == InvalidOptionType(InvalidTypeMessage)
  {
    if maxIter <= 0 then NotConverged
    else
      match ParseOptionType(optionType)
      case Err(e) => Raised(e)
      case Ok(kind) => Search(f, x, kind, target, tol, 0, maxIter)
  }

  /** implied_volatility: the loop of lines 19-26, re-pricing and updating sigma in place. */
  method ImpliedVolatility(f: Formulas, x: MarketInputs, target: real, optionType: string := "call",
                           tol: real := DefaultTolerance, maxIter: int := DefaultMaxIter)
    returns (r: Outcome, ghost rounds: nat)
    requires VegaNonNegative(f, x)
    ensures r == Solve(f, x, optionType, target, tol, maxIter)
    ensures maxIter <= 0 ==> rounds == 0
    ensures maxIter > 0 ==> 1 <= rounds <= maxIter
    ensures r.NotConverged? && maxIter > 0 ==> rounds == maxIter
    ensures r.Raised? ==> rounds == 1
    ensures r.Converged? ==>
      var kind := ParseOptionType(optionType).value;
      ParseOptionType(optionType).Ok? &&
      WithinTolerance(f, x, kind, target, tol, Iterate(f, x, kind, target, rounds - 1)) &&
      r.sigma == Iterate(f, x, kind, target, rounds)
  {
    var sigma := InitialSigma;
    var n := 0;
    while n < maxIter
      invariant maxIter <= 0 ==> n == 0
      invariant maxIter > 0 ==> n <= maxIter
      invariant n > 0 ==> ParseOptionType(optionType).Ok?
      invariant ParseOptionType(optionType).Ok? ==>
        sigma == Iterate(f, x, ParseOptionType(optionType).value, target, n)
      invariant n > 0 ==>
        var kind := ParseOptionType(optionType).value;
        Search(f, x, kind, target, tol, 0, maxIter) == Search(f, x, kind, target, tol, n, maxIter)
      decreases maxIter - n
    {
      var priced := BlackScholesPrice(f, x, sigma, optionType);
      if priced.Err? {
        r, rounds := Raised(priced.error), n + 1;
        return;
      }
      var price := priced.value;
      var v := Vega(f, x, sigma);
      assert v >= 0.0;
      ghost var before := sigma;
      sigma := sigma - (price - target) / (v + VegaStabilizer);
      n := n + 1;
      if Abs(price - target) < tol {
        assert WithinTolerance(f, x, ParseOptionType(optionType).value, target, tol, before);
        r, rounds := Converged(sigma), n;
        return;
      }
    }
    rounds := n;
    r := NotConverged;
  }

  /** The first round within tolerance wins, and its post-update estimate is returned. */
  lemma {:induction false} SearchFirstWithinWins(f: Formulas, x: MarketInputs, kind: OptionKind, target: real, tol: real, n: nat, j: nat, maxIter: int)
    requires VegaNonNegative(f, x)
    requires n <= j < maxIter
    requires WithinTolerance(f, x, kind, target, tol, Iterate(f, x, kind, target, j))
    requires forall i :: n <= i < j ==> !WithinTolerance(f, x, kind, target, tol, Iterate(f, x, kind, target, i))
    ensures Search(f, x, kind, target, tol, n, maxIter) == Converged(NewtonStep(f, x, kind, target, Iterate(f, x, kind, target, j)))
    decreases j - n
  {
    if n < j {
      SearchFirstWithinWins(f, x, kind, target, tol, n + 1, j, maxIter);
    }
  }

  /** Conversely, a converged search names its round j: the first within tolerance, whose update is returned. */
  lemma {:induction false} SearchConvergedRound(f: Formulas, x: MarketInputs, kind: OptionKind, target: real, tol: real, n: nat, maxIter: int, s: real)
    returns (j: nat)
    requires VegaNonNegative(f, x)
    requires Search(f, x, kind, target, tol, n, maxIter) == Converged(s)
    ensures n <= j < maxIter
    ensures WithinTolerance(f, x, kind, target, tol, Iterate(f, x, kind, target, j))
    ensures forall i :: n <= i < j ==> !WithinTolerance(f, x, kind, target, tol, Iterate(f, x, kind, target, i))
    ensures s == NewtonStep(f, x, kind, target, Iterate(f, x, kind, target, j))
    decreases maxIter - n
  {
    if WithinTolerance(f, x, kind, target, tol, Iterate(f, x, kind, target, n)) {
      j := n;
    } else {
      j := SearchConvergedRound(f, x, kind, target, tol, n + 1, maxIter, s);
    }
  }

  /** The search fails exactly when no round from n up to maxIter is within tolerance; the last estimate is never returned. */
  lemma {:induction false} SearchNotConvergedIff(f: Formulas, x: MarketInputs, kind: OptionKind, target: real, tol: real, n: nat, maxIter: int)
    requires VegaNonNegative(f, x)
    ensures Search(f, x, kind, target, tol, n, maxIter) == NotConverged ==>
      forall j :: n <= j < maxIter ==> !WithinTolerance(f, x, kind, target, tol, Iterate(f, x, kind, target, j))
    ensures (forall j :: n <= j < maxIter ==> !WithinTolerance(f, x, kind, target, tol, Iterate(f, x, kind, target, j))) ==>
      Search(f, x, kind, target, tol, n, maxIter) == NotConverged
    decreases maxIter - n
  {
    if n < maxIter {
      SearchNotConvergedIff(f, x, kind, target, tol, n + 1, maxIter);
      if WithinTolerance(f, x, kind, target, tol, Iterate(f, x, kind, target, n)) {
        assert Search(f, x, kind, target, tol, n, maxIter).Converged?;
      }
    }
  }

  /** implied_volatility for a valid option type: converged at the first in-tolerance round k, returning sigma after round k's update. */
  lemma SolveFirstWithinWins(f: Formulas, x: MarketInputs, optionType: string, target: real, tol: real, maxIter: int, k: nat)
    requires VegaNonNegative(f, x)
    requires optionType == "call" || optionType == "put"
    requires k < maxIter
    requires var kind := ParseOptionType(optionType).value;
      WithinTolerance(f, x, kind, target, tol, Iterate(f, x, kind, target, k)) &&
      forall i :: 0 <= i < k ==> !WithinTolerance(f, x, kind, target, tol, Iterate(f, x, kind, target, i))
    ensures var kind := ParseOptionType(optionType).value;
      Solve(f, x, optionType, target, tol, maxIter) == Converged(Iterate(f, x, kind, target, k + 1))
  {
    SearchFirstWithinWins(f, x, ParseOptionType(optionType).value, target, tol, 0, k, maxIter);
  }

  /** A converged answer comes from a valid option type and names round k: the first within tolerance, whose post-update estimate is returned. */
  lemma SolveConvergedRound(f: Formulas, x: MarketInputs, optionType: string, target: real, tol: real, maxIter: int, s: real)
    returns (k: nat)
    requires VegaNonNegative(f, x)
    requires Solve(f, x, optionType, target, tol, maxIter) == Converged(s)
    ensures optionType == "call" || optionType == "put"
    ensures k < maxIter
    ensures var kind := ParseOptionType(optionType).value;
      WithinTolerance(f, x, kind, target, tol, Iterate(f, x, kind, target, k)) &&
      (forall i :: 0 <= i < k ==> !WithinTolerance(f, x, kind, target, tol, Iterate(f, x, kind, target, i))) &&
      s == Iterate(f, x, kind, target, k + 1)
  {
    k := SearchConvergedRound(f, x, ParseOptionType(optionType).value, target, tol, 0, maxIter, s);
  }

  /** implied_volatility for a valid option type: the sentinel exactly when none of the max_iter rounds is within tolerance. */
  lemma SolveNotConvergedIff(f: Formulas, x: MarketInputs, optionType: string, target: real, tol: real, maxIter: int)
    requires VegaNonNegative(f, x)
    requires optionType == "call" || optionType == "put"
    ensures var kind := ParseOptionType(optionType).value;
      Solve(f, x, optionType, target, tol, maxIter) == NotConverged ==>
        forall j :: 0 <= j < maxIter ==> !WithinTolerance(f, x, kind, target, tol, Iterate(f, x, kind, target, j))
    ensures var kind := ParseOptionType(optionType).value;
      (forall j :: 0 <= j < maxIter ==> !WithinTolerance(f, x, kind, target, tol, Iterate(f, x, kind, target, j))) ==>
        Solve(f, x, optionType, target, tol, maxIter) == NotConverged
  {
    SearchNotConvergedIff(f, x, ParseOptionType(optionType).value, target, tol, 0, maxIter);
  }

  /** A target the price never comes within tol of (below intrinsic value, say) yields the sentinel. */
  lemma UnreachableTargetNotConverged(f: Formulas, x: MarketInputs, optionType: string, target: real, tol: real, maxIter: int)
    requires VegaNonNegative(f, x)
    requires ParseOptionType(optionType).Ok? ==>
      forall sigma: real :: Abs(f.price(ParseOptionType(optionType).value, x, sigma) - target) >= tol
    ensures Solve(f, x, optionType, target, tol, maxIter) == NotConverged || Solve(f, x, optionType, target, tol, maxIter).Raised?
  {
    if maxIter >= 1 && ParseOptionType(optionType).Ok? {
      SearchNotConvergedIff(f, x, ParseOptionType(optionType).value, target, tol, 0, maxIter);
    }
  }

  /**
   * The returned estimate is one update past the one that passed the test:
   * the two coincide only when that price hit the target exactly.
   */
  lemma StepKeepsSigmaIffExact(f: Formulas, x: MarketInputs, kind: OptionKind, target: real, sigma: real)
    requires VegaNonNegative(f, x)
    ensures NewtonStep(f, x, kind, target, sigma) == sigma <==> f.price(kind, x, sigma) == target
  {
  }

  /**
   * Estimates are not clamped. The formulas here are arbitrary stand-ins,
   * not Black-Scholes values: a constant price one half tolerance above the
   * target and a vega of zero. With them the first round is within
   * tolerance and the loop returns the negative update
   * 0.2 - 0.5e-6 / 1e-8 = -49.8 as its answer. The fact is about the loop
   * alone: nothing in it keeps sigma positive.
   */
  lemma NegativeSigmaIsReturned()
    ensures
      var f := Formulas(
        (kind: OptionKind, x: MarketInputs, sigma: real) => 10.0000005,
        (kind: OptionKind, x: MarketInputs, sigma: real) => 0.0,
        (kind: OptionKind, x: MarketInputs, sigma: real) => 0.0,
        (kind: OptionKind, x: MarketInputs, sigma: real) => 0.0,
        (x: MarketInputs, sigma: real) => 0.0);
      var x := MarketInputs(1.0, 2.0, 0.5, 0.0);
      VegaNonNegative(f, x) &&
      Solve(f, x, "call", 10.0, DefaultTolerance, DefaultMaxIter) == Converged(-49.8)
  {
  }

  /** black_scholes.py:62-70 repeats utils.py's payoff_diagram line for line, and computes the same list. */
  method PayoffDiagram(sRange: seq<real>, k: real, optionType: string := "call", position: string := "long")
    returns (payoff: seq<real>)
    ensures payoff == Utils.Diagram(sRange, k, optionType, position)
  {
    payoff := [];
    for i := 0 to |sRange|
      invariant payoff == Utils.Diagram(sRange[..i], k, optionType, position)
    {
      var s := sRange[i];
      var val;
      if optionType == "call" {
        val := Utils.Max(s - k, 0.0);
      } else {
        val := Utils.Max(k - s, 0.0);
      }
      payoff := payoff + [if position == "long" then val else -val];
      assert sRange[..i + 1][..i] == sRange[..i];
    }
    assert sRange[..|sRange|] == sRange;
  }
}
