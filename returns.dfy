/** The return transform of app.py: the log return of a price frame (get_log_returns) and the
    trailing rolling sum of those returns with its undefined leading rows dropped
    (`rolling(w).sum().dropna()`). The natural logarithm of the price ratio is a parameter:
    `logRatio(later, earlier)` stands for ln(later / earlier). */
module Returns {
  import opened Series
  import opened Statistics

  /** pandas' `shift(1)`: position i holds the value of position i - 1; position 0 is NaN. */
  function Shift(xs: seq<real>): (r: seq<Option<real>>)
    ensures |r| == |xs|
  {
    seq(|xs|, i requires 0 <= i < |xs| => if i == 0 then None else Some(xs[i - 1]))
  }

  /** Element-wise ln(current / previous); a NaN operand gives NaN. */
  function LogRatios(current: seq<real>, previous: seq<Option<real>>, logRatio: (real, real) -> real)
    : (r: seq<Option<real>>)
    requires |current| == |previous|
    ensures |r| == |current|
  {
    seq(|current|, i requires 0 <= i < |current| =>
      match previous[i]
      case None => None
      case Some(b) => Some(logRatio(current[i], b)))
  }

  /** get_log_returns: the ratio of each price to the one before it, with the leading NaN
      removed (`[1:]`) and the frame re-indexed by all timestamps but the last (`index[:-1]`). */
  function LogReturns(prices: seq<Obs>, logRatio: (real, real) -> real): (r: seq<Obs>)
    ensures |r| == if |prices| == 0 then 0 else |prices| - 1
    ensures forall j :: 0 <= j < |r| ==>
      r[j] == Obs(prices[j].stamp, logRatio(prices[j + 1].value, prices[j].value))
  {
    var values := Values(prices);
    var cells := LogRatios(values, Shift(values), logRatio);
    if |prices| == 0 then []
    else
      var kept := cells[1..];
      var index := Stamps(prices)[..|prices| - 1];
      assert forall j :: 0 <= j < |prices| - 1 ==>
        kept[j] == Some(logRatio(prices[j + 1].value, prices[j].value)) by {
        forall j | 0 <= j < |prices| - 1
          ensures kept[j] == Some(logRatio(prices[j + 1].value, prices[j].value))
        {
          assert Shift(values)[j + 1] == Some(values[j]);
        }
      }
      seq(|prices| - 1, j requires 0 <= j < |prices| - 1 => Obs(index[j], kept[j].value))
  }

  /** The sum of the log returns of the first k steps. */
  function CumulativeReturn(prices: seq<Obs>, logRatio: (real, real) -> real, k: nat): (r: real)
    requires k < |prices|
  {
    Sum(Values(LogReturns(prices, logRatio))[..k])
  }

  /** The law a logarithm of ratios obeys on positive numbers: ln(a / c) = ln(a / b) + ln(b / c). */
  ghost predicate RatiosCompose(logRatio: (real, real) -> real)
  {
    forall a, b, c {:trigger logRatio(a, b), logRatio(b, c)} ::
      a > 0.0 && b > 0.0 && c > 0.0 ==> logRatio(a, c) == logRatio(a, b) + logRatio(b, c)
  }

  /** For a logarithm of ratios, the first k log returns add up to the log ratio of the k-th
      price to the first: the returns telescope. */
  lemma {:induction false} CumulativeReturnIsLogRatio(prices: seq<Obs>, logRatio: (real, real) -> real, k: nat)
    requires 0 < k < |prices|
    requires forall j :: 0 <= j < |prices| ==> prices[j].value > 0.0
    requires RatiosCompose(logRatio)
    ensures CumulativeReturn(prices, logRatio, k) == logRatio(prices[k].value, prices[0].value)
  {
    var r := Values(LogReturns(prices, logRatio));
    if k == 1 {
      assert r[..1] == [r[0]];
      assert Sum([r[0]]) == r[0];
      assert r[0] == logRatio(prices[1].value, prices[0].value);
    } else {
      CumulativeReturnIsLogRatio(prices, logRatio, k - 1);
      assert r[..k] == r[..k - 1] + [r[k - 1]];
      SumConcat(r[..k - 1], [r[k - 1]]);
      assert Sum([r[k - 1]]) == r[k - 1];
      var p0, pm, pk := prices[0].value, prices[k - 1].value, prices[k].value;
      assert r[k - 1] == logRatio(pk, pm);
      assert logRatio(pk, p0) == logRatio(pk, pm) + logRatio(pm, p0);
    }
  }

  /** The round trip of the return transform: exponentiating the cumulative log return
      recovers the price ratio, for an exp that inverts the logarithm of ratios. */
  lemma ReturnsReconstructPriceRatios(
    prices: seq<Obs>, logRatio: (real, real) -> real, exp: real -> real, k: nat)
    requires k < |prices|
    requires forall j :: 0 <= j < |prices| ==> prices[j].value > 0.0
    requires RatiosCompose(logRatio)
    requires forall a, b :: a > 0.0 && b > 0.0 ==> exp(logRatio(a, b)) == a / b
    ensures exp(CumulativeReturn(prices, logRatio, k)) == prices[k].value / prices[0].value
  {
    var p0 := prices[0].value;
    if k == 0 {
      assert logRatio(p0, p0) == logRatio(p0, p0) + logRatio(p0, p0);
      assert Values(LogReturns(prices, logRatio))[..0] == [];
      assert exp(logRatio(p0, p0)) == p0 / p0;
    } else {
      CumulativeReturnIsLogRatio(prices, logRatio, k);
    }
  }

  /** pandas' `rolling(w).sum()`: the sum of the window of w values ending at each position,
      NaN while fewer than w values are available. */
  function Rolling(xs: seq<real>, w: nat): (r: seq<Option<real>>)
    requires w >= 1
    ensures |r| == |xs|
  {
    seq(|xs|, i requires 0 <= i < |xs| => if i + 1 < w then None else Some(Sum(xs[i + 1 - w..i + 1])))
  }

  /** pandas' `dropna()` on a single-column frame: the rows whose cell is present, in order. */
  function DropNa(index: seq<Timestamp>, cells: seq<Option<real>>): (r: seq<Obs>)
    requires |index| == |cells|
    ensures |r| <= |cells|
  {
    if cells == [] then []
    else
      match cells[0]
      case None => DropNa(index[1..], cells[1..])
      case Some(v) => [Obs(index[0], v)] + DropNa(index[1..], cells[1..])
  }

  /** Dropping missing cells from a frame whose first m cells are missing and whose other
      cells are present keeps exactly the rows from position m on. */
  lemma {:induction false} DropNaLeading(index: seq<Timestamp>, cells: seq<Option<real>>, m: nat)
    requires |index| == |cells| && m <= |cells|
    requires forall i :: 0 <= i < m ==> cells[i].None?
    requires forall i :: m <= i < |cells| ==> cells[i].Some?
    ensures |DropNa(index, cells)| == |cells| - m
    ensures forall j :: 0 <= j < |cells| - m ==>
      DropNa(index, cells)[j] == Obs(index[m + j], cells[m + j].value)
  {
    if cells != [] {
      if m > 0 {
        DropNaLeading(index[1..], cells[1..], m - 1);
      } else {
        DropNaLeading(index[1..], cells[1..], 0);
      }
    }
  }

  /** The trailing w-step rolling sum of a return frame, undefined rows dropped: one row per
      complete window, labelled with the window's last timestamp. */
  function RollingSum(r: seq<Obs>, w: nat): (s: seq<Obs>)
    requires w >= 1
    ensures |s| == if |r| < w then 0 else |r| - w + 1
    ensures forall j :: 0 <= j < |s| ==>
      s[j] == Obs(r[j + w - 1].stamp, Sum(Values(r)[j..j + w]))
  {
    var cells := Rolling(Values(r), w);
    var m := if |r| < w then |r| else w - 1;
    DropNaLeading(Stamps(r), cells, m);
    DropNa(Stamps(r), cells)
  }
}
