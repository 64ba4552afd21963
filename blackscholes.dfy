/** The option pricer of app.py: the Black-Scholes call (call_black_scholes) and the put by
    put-call parity (put_black_scholes). The natural logarithm, the exponential, the square
    root and the standard normal distribution function are parameters. */
module BlackScholes {
  import opened Series

  /** The transcendental functions the pricer calls (np.log, np.exp, np.sqrt, norm().cdf). */
  datatype Numerics = Numerics(ln: real -> real, exp: real -> real, sqrt: real -> real, cdf: real -> real)

  /** The two standardized distances of the formula, d_up (d1) and d_down (d2). */
  datatype Distances = Distances(up: real, down: real)

  /** The discount factor e^(-rate * delta_t) applied to the strike. */
  function Discount(rate: real, deltaT: real, num: Numerics): (r: real)
  {
    num.exp(-rate * deltaT)
  }

  /** d_up = (ln(S_0 / K) + delta_t (rate + vol^2 / 2)) / (vol sqrt(delta_t)) and
      d_down = d_up - vol sqrt(delta_t). A zero strike or a zero vol sqrt(delta_t), which numpy
      turns into inf or NaN, is reported as an error. */
  function Distance(s0: real, k: real, vol: real, rate: real, deltaT: real, num: Numerics)
    : (r: Result<Distances>)
    ensures r.Ok? <==> k != 0.0 && vol * num.sqrt(deltaT) != 0.0
    ensures r.Err? ==> r.failure == DegenerateDenominator
  {
    var width := vol * num.sqrt(deltaT);
    if width == 0.0 || k == 0.0 then Err(DegenerateDenominator)
    else
      var scale := 1.0 / width;
      var up := scale * (num.ln(s0 / k) + deltaT * (rate + 0.5 * (vol * vol)));
      Ok(Distances(up, up - vol * num.sqrt(deltaT)))
  }

  /** The two distances differ by vol sqrt(delta_t), and, for a square root that squares back,
      d_up^2 - d_down^2 = 2 (ln(S_0 / K) + rate delta_t), the identity behind the closed form. */
  lemma DistanceIdentities(s0: real, k: real, vol: real, rate: real, deltaT: real, num: Numerics)
    requires Distance(s0, k, vol, rate, deltaT, num).Ok?
    ensures var d := Distance(s0, k, vol, rate, deltaT, num).value;
      d.up - d.down == vol * num.sqrt(deltaT)
    ensures num.sqrt(deltaT) * num.sqrt(deltaT) == deltaT ==>
      var d := Distance(s0, k, vol, rate, deltaT, num).value;
      d.up * d.up - d.down * d.down == 2.0 * (num.ln(s0 / k) + rate * deltaT)
  {
    var d := Distance(s0, k, vol, rate, deltaT, num).value;
    var root := num.sqrt(deltaT);
    var width := vol * root;
    var a := num.ln(s0 / k) + deltaT * (rate + 0.5 * (vol * vol));
    assert d.up == (1.0 / width) * a && d.down == d.up - width;
    assert d.up * d.up - d.down * d.down == 2.0 * d.up * width - width * width;
    assert d.up * width == a;
    if root * root == deltaT {
      assert width * width == vol * vol * (root * root);
    }
  }

  /** The call price S_0 Φ(d_up) - K e^(-rate delta_t) Φ(d_down), defined exactly when the
      distances are. */
  function Call(s0: real, k: real, vol: real, rate: real, deltaT: real, num: Numerics)
    : (r: Result<real>)
    ensures r.Ok? <==> k != 0.0 && vol * num.sqrt(deltaT) != 0.0
    ensures r.Err? ==> r.failure == DegenerateDenominator
  {
    match Distance(s0, k, vol, rate, deltaT, num)
    case Err(e) => Err(e)
    case Ok(d) => Ok(s0 * num.cdf(d.up) - k * Discount(rate, deltaT, num) * num.cdf(d.down))
  }

  /** The put by put-call parity: put - call = K e^(-rate delta_t) - S_0, with the call's own
      discount factor, and defined exactly when the call is. */
  function Put(s0: real, k: real, vol: real, rate: real, deltaT: real, num: Numerics)
    : (r: Result<real>)
    ensures r.Ok? <==> Call(s0, k, vol, rate, deltaT, num).Ok?
    ensures r.Err? ==> r.failure == DegenerateDenominator
    ensures r.Ok? ==>
      r.value - Call(s0, k, vol, rate, deltaT, num).value == k * Discount(rate, deltaT, num) - s0
  {
    match Call(s0, k, vol, rate, deltaT, num)
    case Err(e) => Err(e)
    case Ok(c) => Ok(c - s0 + k * num.exp(-rate * deltaT))
  }

  /** For a distribution function symmetric about zero (Φ(-x) = 1 - Φ(x)), the put given by
      parity is the closed-form Black-Scholes put K e^(-rate delta_t) Φ(-d_down) - S_0 Φ(-d_up). */
  lemma PutClosedForm(s0: real, k: real, vol: real, rate: real, deltaT: real, num: Numerics)
    requires forall x :: num.cdf(-x) == 1.0 - num.cdf(x)
    requires Call(s0, k, vol, rate, deltaT, num).Ok?
    ensures var d := Distance(s0, k, vol, rate, deltaT, num).value;
      Put(s0, k, vol, rate, deltaT, num).value
        == k * Discount(rate, deltaT, num) * num.cdf(-d.down) - s0 * num.cdf(-d.up)
  {
    var d := Distance(s0, k, vol, rate, deltaT, num).value;
    var strike := k * Discount(rate, deltaT, num);
    var up, down := num.cdf(d.up), num.cdf(d.down);
    assert num.cdf(-d.up) == 1.0 - up && num.cdf(-d.down) == 1.0 - down;
    assert Call(s0, k, vol, rate, deltaT, num).value == s0 * up - strike * down;
    assert strike * (1.0 - down) == strike - strike * down;
    assert s0 * (1.0 - up) == s0 - s0 * up;
  }

  /** With a distribution function valued in [0, 1], a non-negative spot, strike and discount
      factor: the call is worth at most the spot and the put at most the discounted strike,
      and neither falls below minus the other's bound. */
  lemma OptionPriceBounds(s0: real, k: real, vol: real, rate: real, deltaT: real, num: Numerics)
    requires forall x :: 0.0 <= num.cdf(x) <= 1.0
    requires s0 >= 0.0 && k >= 0.0 && Discount(rate, deltaT, num) >= 0.0
    requires Call(s0, k, vol, rate, deltaT, num).Ok?
    ensures var call := Call(s0, k, vol, rate, deltaT, num).value;
      -(k * Discount(rate, deltaT, num)) <= call <= s0
    ensures var put := Put(s0, k, vol, rate, deltaT, num).value;
      -s0 <= put <= k * Discount(rate, deltaT, num)
  {
    var d := Distance(s0, k, vol, rate, deltaT, num).value;
    var strike := k * Discount(rate, deltaT, num);
    Between(s0, num.cdf(d.up));
    Between(strike, num.cdf(d.down));
  }

  /** A non-negative amount scaled by a fraction in [0, 1] stays within [0, amount]. */
  lemma Between(amount: real, f: real)
    requires amount >= 0.0 && 0.0 <= f <= 1.0
    ensures 0.0 <= amount * f <= amount
  {
    assert amount * (1.0 - f) >= 0.0;
  }
}
