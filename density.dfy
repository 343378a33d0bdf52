/**
 * The density model of the generator and the normalisation of a generation
 * request: how the query parameters of a generation request become the two
 * population sizes and the two densities, and how a density becomes the
 * probability that a new entity shares an attribute value.
 */
module Density {
  import opened Wrappers

  function Min(x: real, y: real): (r: real) { if x <= y then x else y }
  function Max(x: real, y: real): (r: real) { if x >= y then x else y }
  function IntMin(x: int, y: int): (r: int) { if x <= y then x else y }
  function IntMax(x: int, y: int): (r: int) { if x >= y then x else y }

  /** `clamp(value, min, max)`, which is `Math.min(max, Math.max(min, value))`. */
  function Clamp(value: real, lo: real, hi: real): (r: real)
    ensures lo <= hi ==> lo <= r <= hi
    ensures lo <= value <= hi ==> r == value
    ensures value < lo && lo <= hi ==> r == lo
    ensures hi < value ==> r == hi
  {
    Min(hi, Max(lo, value))
  }

  /**
   * A query-string parameter as `Number(...)` sees it: missing (`undefined`,
   * so NaN), the empty string (which `Number` reads as 0, but which some
   * callers test for first), text that is not a number, an infinity, or a
   * finite number.
   */
  datatype Param<N> = Absent | Blank | NotANumber | Infinite(negative: bool) | Finite(value: N)

  /**
   * `parseDensity`: nothing (`undefined`) for a missing, empty or non-finite
   * parameter, otherwise the number clamped to [0, 1].
   */
  function ParseDensity(p: Param<real>): (r: Option<real>)
    ensures r.Some? <==> p.Finite?
    ensures r.Some? ==> 0.0 <= r.value <= 1.0
    ensures p.Finite? && 0.0 <= p.value <= 1.0 ==> r == Some(p.value)
    ensures p.Finite? && p.value < 0.0 ==> r == Some(0.0)
    ensures p.Finite? && 1.0 < p.value ==> r == Some(1.0)
  {
    match p
    case Finite(v) => Some(Clamp(v, 0.0, 1.0))
    case _ => None
  }

  /**
   * `computeSparseProbability`: zero for an empty population or a density
   * that clamps to zero; otherwise the smaller of the density-driven cap
   * `clamp(density, 0, 1) * densityScale` and the volume-driven cap
   * `countScale / count`.
   */
  function SparseProbability(density: real, count: nat, countScale: real, densityScale: real): (p: real)
    ensures count == 0 || density <= 0.0 ==> p == 0.0
    ensures count > 0 && density > 0.0 ==>
      var byDensity := Clamp(density, 0.0, 1.0) * densityScale;
      var byCount := countScale / count as real;
      p <= byDensity && p <= byCount && (p == byDensity || p == byCount)
    ensures 0.0 <= densityScale <= 1.0 && 0.0 <= countScale ==> 0.0 <= p <= 1.0
  {
    if count == 0 then 0.0
    else
      var base := Clamp(density, 0.0, 1.0);
      if base == 0.0 then 0.0
      else
        ProductOfFractions(base, densityScale);
        QuotientNonNegative(countScale, count as real);
        Min(base * densityScale, countScale / count as real)
  }

  lemma ProductOfFractions(a: real, b: real)
    ensures 0.0 <= a <= 1.0 && 0.0 <= b <= 1.0 ==> 0.0 <= a * b <= 1.0
  {
    if 0.0 <= a <= 1.0 && 0.0 <= b <= 1.0 {
      assert a * b <= 1.0 * b;
    }
  }

  lemma QuotientNonNegative(x: real, n: real)
    requires n > 0.0
    ensures 0.0 <= x ==> 0.0 <= x / n
  {
  }

  /** Dividing by a larger positive number gives a smaller quotient. */
  lemma QuotientAntitone(x: real, m: real, n: real)
    requires 0.0 <= x && 0.0 < m <= n
    ensures x / n <= x / m
  {
    var a, b := x / n, x / m;
    assert a * n == x && b * m == x;
    QuotientNonNegative(x, m);
    if a > b {
      assert a * n > b * n;
      assert b * n >= b * m;
    }
  }

  /**
   * The volume cap at work: the expected number of sharing events over the
   * whole population, `count * p`, never exceeds `countScale`, however large
   * the population.
   */
  lemma ExpectedSharingBounded(density: real, count: nat, countScale: real, densityScale: real)
    requires 0.0 <= countScale
    ensures count as real * SparseProbability(density, count, countScale, densityScale) <= countScale
  {
    var p := SparseProbability(density, count, countScale, densityScale);
    if count > 0 && density > 0.0 {
      var n := count as real;
      assert p <= countScale / n;
      assert n * p <= n * (countScale / n);
      assert n * (countScale / n) == countScale;
    }
  }

  /** A larger population never gets a larger probability. */
  lemma ProbabilityAntitone(density: real, m: nat, n: nat, countScale: real, densityScale: real)
    requires 0 < m <= n && 0.0 <= countScale
    ensures SparseProbability(density, n, countScale, densityScale)
         <= SparseProbability(density, m, countScale, densityScale)
  {
    if density > 0.0 {
      QuotientAntitone(countScale, m as real, n as real);
    }
  }

  /** The bounds a generation request is clamped to. */
  const MinUsers: nat := 10
  const MaxUsers: nat := 20000
  const MinTransactions: nat := 100000
  const MaxTransactions: nat := 2000000
  const DefaultUserDensity: real := 0.001
  const DefaultTransactionDensity: real := 0.05

  /**
   * The users count: a positive finite request clamped to [10, 20000],
   * anything else 20000.
   */
  function UsersCount(p: Param<int>): (n: nat)
    ensures MinUsers <= n <= MaxUsers
    ensures !(p.Finite? && p.value > 0) ==> n == MaxUsers
    ensures p.Finite? && MinUsers <= p.value <= MaxUsers ==> n == p.value
    ensures p.Finite? && 0 < p.value < MinUsers ==> n == MinUsers
    ensures p.Finite? && MaxUsers < p.value ==> n == MaxUsers
  {
    var requested := if p.Finite? && p.value > 0 then p.value else MaxUsers;
    IntMax(MinUsers, IntMin(MaxUsers, requested))
  }

  /**
   * The transactions count: `Number(q) || 100000` clamped to
   * [100000, 2000000]. A missing, empty, zero or non-numeric request gives
   * the minimum; positive infinity gives the maximum.
   */
  function TransactionsCount(p: Param<int>): (n: nat)
    ensures MinTransactions <= n <= MaxTransactions
    ensures p == Infinite(false) ==> n == MaxTransactions
    ensures p.Absent? || p.Blank? || p.NotANumber? || p == Infinite(true) || p == Finite(0) ==> n == MinTransactions
    ensures p.Finite? && MinTransactions <= p.value <= MaxTransactions ==> n == p.value
    ensures p.Finite? && p.value < MinTransactions ==> n == MinTransactions
    ensures p.Finite? && MaxTransactions < p.value ==> n == MaxTransactions
  {
    match p
    case Infinite(negative) => if negative then MinTransactions else MaxTransactions
    case Finite(v) =>
      var requested := if v == 0 then MinTransactions else v;
      IntMax(MinTransactions, IntMin(MaxTransactions, requested))
    case _ => MinTransactions
  }

  /**
   * `parseDensity(specific) ?? parseDensity(fallback) ?? default`: the
   * specific parameter when it is usable, else the shared fallback, else the
   * built-in default.
   */
  function RequestedDensity(specific: Param<real>, fallback: Param<real>, default: real): (d: real)
    ensures specific.Finite? ==> Some(d) == ParseDensity(specific)
    ensures !specific.Finite? && fallback.Finite? ==> Some(d) == ParseDensity(fallback)
    ensures !specific.Finite? && !fallback.Finite? ==> d == default
    ensures 0.0 <= default <= 1.0 ==> 0.0 <= d <= 1.0
  {
    ParseDensity(specific).OrElse(ParseDensity(fallback).OrElse(default))
  }

  /** The query parameters of a generation request. */
  datatype GenerateRequest = GenerateRequest(
    users: Param<int>,
    transactions: Param<int>,
    density: Param<real>,
    userDensity: Param<real>,
    transactionDensity: Param<real>)

  /** What the generator is run with. */
  datatype GenerationParams = GenerationParams(
    usersCount: nat,
    transactionsCount: nat,
    userDensity: real,
    transactionDensity: real)

  /** The normalised request: every count and density within its bounds. */
  function NormalizeRequest(req: GenerateRequest): (g: GenerationParams)
    ensures MinUsers <= g.usersCount <= MaxUsers
    ensures MinTransactions <= g.transactionsCount <= MaxTransactions
    ensures 0.0 <= g.userDensity <= 1.0 && 0.0 <= g.transactionDensity <= 1.0
    ensures g.usersCount == UsersCount(req.users)
    ensures g.transactionsCount == TransactionsCount(req.transactions)
    ensures g.userDensity == RequestedDensity(req.userDensity, req.density, DefaultUserDensity)
    ensures g.transactionDensity == RequestedDensity(req.transactionDensity, req.density, DefaultTransactionDensity)
  {
    GenerationParams(
      UsersCount(req.users),
      TransactionsCount(req.transactions),
      RequestedDensity(req.userDensity, req.density, DefaultUserDensity),
      RequestedDensity(req.transactionDensity, req.density, DefaultTransactionDensity))
  }

  /** With no density parameters at all, the built-in defaults are used. */
  lemma NoDensityParameters(req: GenerateRequest)
    requires !req.density.Finite? && !req.userDensity.Finite? && !req.transactionDensity.Finite?
    ensures NormalizeRequest(req).userDensity == 0.001
    ensures NormalizeRequest(req).transactionDensity == 0.05
  {
  }
}
