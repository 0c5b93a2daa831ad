# Black-Scholes explorer: payoff diagram, option-type dispatch and implied-volatility solver

This project models the exactly-statable core of a small Black-Scholes option
library written in Python and proves properties of that model in Dafny.

- `utils.dfy` (module `Utils`) models `payoff_diagram` of `utils.py`: the
  expiry payoff of a long or short call or put at every price of a range.
  The function `Diagram` specifies the list; the method `PayoffDiagram`
  builds it with the source's append loop and is proved equal to it. Lemmas
  state that the list has one element per price, in the same order. They
  also state the call and put payoffs, the put fallback for every other
  option type string, and the negation for every position other than
  `"long"`. Further lemmas give the signs, "long call minus long put is
  S - K", and monotonicity in the price.
- `black_scholes.dfy` (module `BlackScholes`) models three things in
  `black_scholes.py`:
  - the option-type dispatch of `black_scholes_price` (only `"call"` and
    `"put"` are accepted; anything else is the `ValueError`, modelled as
    `Err(InvalidOptionType(..))` carrying its fixed message);
  - the dispatch of `delta`, `theta` and `rho`, which treat every string
    other than `"call"` as a put and never fail because of the option type;
  - the Newton-Raphson loop of `implied_volatility`, and the verbatim copy
    of `payoff_diagram`.

The closed-form formulas are uninterpreted. A `Formulas` value holds the
price, delta, theta, rho and vega formulas as total functions of the option
kind, the market inputs (S, K, T, r) and the volatility. The solver is
proved against the specification function `Solve`:

- it starts at 0.2;
- each round applies `sigma - (price(sigma) - target) / (vega(sigma) + 1e-8)`;
- it runs at most `max_iter` rounds, and none when `max_iter <= 0`;
- the first round whose price is within `tol` of the target ends the loop;
- the value returned is the estimate AFTER that round's update;
- if no round is within tolerance, the result is the sentinel `NotConverged`
  (NaN in the source), never the last estimate.

An unknown option type makes the first round's price raise. The model
returns this as `Raised(..)`.

Two points of the solver's behaviour are easy to misread. The model states
what the code does:
- One might expect the solver to return the estimate whose price passed the
  tolerance test. The code updates `sigma` (`black_scholes.py:23`) before
  testing (line 24), and returns the updated value (line 25).
  `SolveFirstWithinWins` and `SolveConvergedRound` state what the code
  does. `StepKeepsSigmaIffExact` shows the two values differ unless the
  price hit the target exactly.
- One might expect a converged volatility never to be negative. Nothing in
  the loop (`black_scholes.py:20-25`) bounds `sigma`. `NegativeSigmaIsReturned`
  uses stand-in formula values to show the loop returning -49.8.

The source's default arguments are kept as Dafny default parameter values:
`option_type='call'` for the price and the Greeks, `option_type='call'`,
`tol=1e-6` and `max_iter=100` for the solver, and `option_type='call'`,
`position='long'` for the payoff diagram.

Positions are not just long or short: the code negates for every position
string other than `"long"` (`utils.py:11`), and so does the model.

## Model

| member | source | states |
|---|---|---|
| `Utils.Max` | utils.py:8 | Python's `max(a, b)` is at least both arguments and equals one of them |
| `Utils.Intrinsic` | utils.py:7-10 | the value at expiry is never negative; for `"call"` it is at least S - K and equals S - K or 0, for every other string at least K - S and equals K - S or 0 |
| `Utils.PayoffAt` | utils.py:11 | one element is the intrinsic value or its negation: non-negative held `"long"`, non-positive for every other position |
| `Utils.Diagram` | utils.py:4-12 | the payoff list has exactly one element per price of the range |
| `Utils.PayoffDiagram` | utils.py:4-12 | the append loop returns exactly `Diagram(S_range, ...)`: same length, and element i is the payoff at `S_range[i]` |
| `Utils.DiagramAt` | utils.py:6-11 | element i of the diagram is the payoff (intrinsic value, negated unless long) at the i-th price |
| `Utils.DiagramOfConcatenation` | utils.py:5-12 | the diagram of two ranges laid end to end is the two diagrams laid end to end (order is kept) |
| `Utils.LongCallPayoff` | utils.py:7-8 | a long call pays `max(S - K, 0)` at every price |
| `Utils.OtherTypesArePuts` | utils.py:9-10 | every option type other than `"call"` gives exactly the put diagram, whose long element is `max(K - S, 0)`; there is no error |
| `Utils.ShortNegatesLong` | utils.py:11 | every position other than `"long"` is the element-wise negation of the long diagram |
| `Utils.PayoffSigns` | utils.py:8-11 | long payoffs are >= 0, all other positions' payoffs are <= 0 |
| `Utils.CallMinusPut` | utils.py:7-10 | long call minus long put equals `S - K` at every price |
| `Utils.LongPayoffMonotone` | utils.py:8-10 | over an ascending price range the long call diagram is non-decreasing and the long put diagram non-increasing |
| `Utils.StrikeHundredScenario` | utils.py:4-12 | strike 100, call: prices 120 and 80 give 20 and 0 long, -20 and 0 short |
| `BlackScholes.ParseOptionType` | black_scholes.py:11-16 | accepted exactly for `"call"` and `"put"`, naming the kind spelt by the string; rejected otherwise with the fixed message `option_type must be 'call' or 'put'` |
| `BlackScholes.ParseName` | black_scholes.py:11-13 | the name of each kind parses back to that kind |
| `BlackScholes.BlackScholesPrice` | black_scholes.py:9-16 | as far as the option type decides: a value for `"call"` and `"put"` (the call, respectively put, formula), the `ValueError` for every other string |
| `BlackScholes.Delta` | black_scholes.py:31-33 | for `"call"`/`"put"` the formula of the kind the price would parse; for every other string the put formula, never an error (summarised with theta and rho in `GreeksTreatOtherTypesAsPut`) |
| `BlackScholes.Vega` | black_scholes.py:39-41 | one formula for both kinds, non-negative whenever the market inputs make vega non-negative |
| `BlackScholes.Theta` | black_scholes.py:43-49 | for `"call"`/`"put"` the formula of the parsed kind; for every other string the put formula, never an error |
| `BlackScholes.Rho` | black_scholes.py:51-56 | for `"call"`/`"put"` the formula of the parsed kind; for every other string the put formula, never an error |
| `BlackScholes.GreeksTreatOtherTypesAsPut` | black_scholes.py:31-56 | delta, theta and rho use the call formula for `"call"` and the put formula for every other string; they never fail because of the option type |
| `BlackScholes.GreeksAgreeWithPrice` | black_scholes.py:9-56 | where the price succeeds, delta, theta and rho use the same kind's formula; where it raises, they still give the put formula |
| `BlackScholes.Abs` | black_scholes.py:24 | `abs` is non-negative and equals the argument or its negation |
| `BlackScholes.NewtonStep` | black_scholes.py:22-23 | the updated sigma solves the Newton equation `(sigma - sigma') * (vega(sigma) + 1e-8) = price(sigma) - target` |
| `BlackScholes.Iterate` | black_scholes.py:19 | the estimate before any update is the starting guess 0.2 (each later one is a `NewtonStep` of the previous) |
| `BlackScholes.WithinTolerance` | black_scholes.py:24 | the test passes exactly when the price lies strictly between target - tol and target + tol |
| `BlackScholes.Search` | black_scholes.py:20-26 | for a parsed kind the rounds never raise, and a converged answer comes from a round below `max_iter` |
| `BlackScholes.Solve` | black_scholes.py:18-26 | with `max_iter <= 0` the sentinel, whatever the option type; the solver raises exactly when a round runs and the type is neither `"call"` nor `"put"`, and then with the price's fixed message |
| `BlackScholes.ImpliedVolatility` | black_scholes.py:18-26 | the loop's answer is `Solve(...)`; it runs no round when `max_iter <= 0` and at most `max_iter` rounds otherwise, all of them when not converged, one when raising; a converged answer is the estimate after the in-tolerance round |
| `BlackScholes.SearchFirstWithinWins` | black_scholes.py:20-25 | if round j is the first in tolerance from round n on, the loop returns `NewtonStep` of the j-th estimate |
| `BlackScholes.SearchConvergedRound` | black_scholes.py:20-25 | a converged loop names a round j below `max_iter` that is the first in tolerance and whose updated estimate is returned |
| `BlackScholes.SearchNotConvergedIff` | black_scholes.py:24-26 | the loop gives the sentinel exactly when no remaining round is within tolerance |
| `BlackScholes.SolveFirstWithinWins` | black_scholes.py:19-25 | from sigma = 0.2, if round k is the first within `tol`, the result is the sigma after k + 1 updates |
| `BlackScholes.SolveConvergedRound` | black_scholes.py:19-25 | a converged result comes from `"call"`/`"put"` and a first in-tolerance round k < `max_iter`, and equals the (k + 1)-th iterate |
| `BlackScholes.SolveNotConvergedIff` | black_scholes.py:24-26 | for a valid option type the result is the sentinel exactly when none of the `max_iter` rounds is within tolerance |
| `BlackScholes.UnreachableTargetNotConverged` | black_scholes.py:24-26 | a target the parsed kind's price never comes within `tol` of yields the sentinel (or, for an unknown type, the error), never a volatility |
| `BlackScholes.StepKeepsSigmaIffExact` | black_scholes.py:23-25 | the Newton update leaves sigma unchanged exactly when the price equals the target, so the returned sigma is not the tested one in general |
| `BlackScholes.NegativeSigmaIsReturned` | black_scholes.py:23 | estimates are never clamped: with arbitrary stand-in formula values (constant price, zero vega), the default tolerance and 100 rounds, the loop returns -49.8; a fact about the loop, not about Black-Scholes prices |
| `BlackScholes.PayoffDiagram` | black_scholes.py:62-70 | the copy of `payoff_diagram` returns the same list as the one in `utils.py`, for all inputs |

## Left out

- The closed-form formulas (`d1_d2`, the price formulas, `gamma`, and the
  numeric content of `delta`, `vega`, `theta`, `rho`;
  `black_scholes.py:4-14, 31-56`): floating-point transcendental arithmetic
  over `np.log`, `np.exp`, `np.sqrt` and SciPy's `norm.cdf`/`norm.pdf`. They
  are uninterpreted functions in `Formulas`. Reference values, put-call
  parity of prices and NaN/Inf propagation at T = 0 or sigma = 0 are facts
  about those formulas and are not modelled.
- `BlackScholesPrice`, `GreeksTreatOtherTypesAsPut`, `GreeksAgreeWithPrice`,
  `ImpliedVolatility`: the formulas are modelled as total functions.
  `d1_d2`'s own exceptions are therefore not modelled. On Python floats it
  raises ZeroDivisionError when the strike is `0.0` (`S / K`,
  `black_scholes.py:5`), and OverflowError for a very large sigma
  (`sigma**2`). Nor is it modelled that `d1_d2` runs before any option-type
  test (lines 10, 21, 32, 44, 52). So such an exception takes precedence over
  the `ValueError`, and the Greeks can raise.
- Floating point: all quantities are exact reals, so rounding, NaN and
  infinities are not modelled. Nor are Python's number types in the payoff
  list. Out of the money, `max(S - K, 0)` and `max(K - S, 0)`
  (`utils.py:8, 10`) return the int `0`, and its negation is the int `0`.
  Only at the strike is the element the float `0.0`, which a short position
  turns into `-0.0`. So the list mixes ints and floats. The model's reals
  capture neither the mix nor the sign of zero.
- `BlackScholes.ImpliedVolatility`: requires vega >= 0 for the given market
  inputs, which holds for a positive spot because vega = S * pdf * sqrt(T).
  With a negative spot `v + 1e-8` could be zero. numpy would then produce an
  infinite or NaN step; the model does not cover that case.
- Vectorised (array) evaluation of the formulas is not modelled; the model
  works on scalars and, for the payoff diagram, on a sequence of prices.
- `format_float` (`utils.py:1-2` and `black_scholes.py:59-60`): Python's
  `round` on binary floats, a foreign numeric primitive.
- `geeks.py` duplicates the Greek formulas and cannot run as written (it uses
  `norm` and `np` without importing them); it is not part of this model.
- `streamlit_app.py` is user interface, plotting and a network fetch of
  market data with a fallback spot price of 100.0; it is not part of this
  model. Its only relevance is that it passes `'call'`/`'put'` and
  `'long'`/`'short'` into the core.
