/**
 * The quote state of the exchange-rate page and its simulated update step.
 *
 * Three instruments are quoted, each with a buy price and a sell price:
 * the US dollar and the Brazilian real (whole units of the local currency),
 * and the real-to-dollar cross rate (a fraction with four decimals).
 * One update shifts the four primary prices by small integer deltas,
 * recomputes the cross rate from the shifted primaries, rounds it to four
 * decimals (half up), and finally repairs every quote whose buy price is not
 * below its sell price by raising the sell price by a fixed spread.
 */
module Cotizaciones {

  /** A primary quote: buy (compra) and sell (venta) in whole units. */
  datatype Quote = Quote(buy: int, sell: int)

  /** The cross-rate quote, exact rationals. */
  datatype Rate = Rate(buy: real, sell: real)

  /** The full quote state: dollar, Brazilian real, and the real-dollar cross rate. */
  datatype Quotes = Quotes(dollar: Quote, brl: Quote, realDollar: Rate)

  /** The four random deltas of one update, in the order they are drawn. */
  datatype Deltas = Deltas(dollarBuy: int, dollarSell: int, brlBuy: int, brlSell: int)

  /** Spreads used when a quote's buy price is not below its sell price. */
  const DollarSpread: int := 20
  const BrlSpread: int := 10
  const RateSpread: real := 0.05

  /** Dollar deltas are whole numbers in [-10, 10], real deltas in [-5, 5]. */
  predicate InRange(d: Deltas)
  {
    && -10 <= d.dollarBuy <= 10 && -10 <= d.dollarSell <= 10
    && -5 <= d.brlBuy <= 5 && -5 <= d.brlSell <= 5
  }

  /** Buy below sell, for every instrument. */
  predicate Ordered(c: Quotes)
  {
    && c.dollar.buy < c.dollar.sell
    && c.brl.buy < c.brl.sell
    && c.realDollar.buy < c.realDollar.sell
  }

  /** The value has at most four decimals. */
  predicate OnGrid(v: real)
  {
    (v * 10000.0).Floor as real == v * 10000.0
  }

  /** The quotes the application starts with. */
  function Initial(): (c: Quotes)
    ensures Ordered(c)
    ensures OnGrid(c.realDollar.buy) && OnGrid(c.realDollar.sell)
  {
    Quotes(Quote(6480, 6680), Quote(1175, 1230), Rate(5.42, 5.50))
  }

  // ---------------------------------------------------------------------
  // Rounding to four decimals, half up (Math.round(x * 10000) / 10000)
  // ---------------------------------------------------------------------

  /** The four-decimal value nearest to x; a tie goes to the larger one. */
  function RoundTo4(x: real): (r: real)
    ensures OnGrid(r)
    ensures r - 0.00005 <= x < r + 0.00005
  {
    (x * 10000.0 + 0.5).Floor as real / 10000.0
  }

  /** Conversely, any four-decimal value in that half-open window is the rounding of x. */
  lemma RoundTo4Unique(x: real, v: real)
    requires OnGrid(v)
    requires v - 0.00005 <= x < v + 0.00005
    ensures RoundTo4(x) == v
  {
    var k := (v * 10000.0).Floor;
    assert k as real <= x * 10000.0 + 0.5 < k as real + 1.0;
    assert (x * 10000.0 + 0.5).Floor == k;
  }

  /** Rounding a value that already has four decimals leaves it as it is. */
  lemma RoundTo4Idempotent(x: real)
    ensures RoundTo4(RoundTo4(x)) == RoundTo4(x)
  {
    var r := RoundTo4(x);
    RoundTo4Unique(r, r);
  }

  /** Rounding never reverses the order of two values. */
  lemma RoundTo4Monotonic(x: real, y: real)
    requires x <= y
    ensures RoundTo4(x) <= RoundTo4(y)
  {
    var kx := (x * 10000.0 + 0.5).Floor;
    var ky := (y * 10000.0 + 0.5).Floor;
    assert kx as real < ky as real + 1.0;
    assert kx <= ky;
  }

  // ---------------------------------------------------------------------
  // The three stages of one update
  // ---------------------------------------------------------------------

  /** Stage 2: add the deltas to the four primary prices; the cross rate is untouched. */
  function Shift(c: Quotes, d: Deltas): (r: Quotes)
    requires InRange(d)
    ensures r.realDollar == c.realDollar
    ensures -10 <= r.dollar.buy - c.dollar.buy <= 10 && -10 <= r.dollar.sell - c.dollar.sell <= 10
    ensures -5 <= r.brl.buy - c.brl.buy <= 5 && -5 <= r.brl.sell - c.brl.sell <= 5
  {
    Quotes(Quote(c.dollar.buy + d.dollarBuy, c.dollar.sell + d.dollarSell),
           Quote(c.brl.buy + d.brlBuy, c.brl.sell + d.brlSell),
           c.realDollar)
  }

  /** Stage 3: the cross rate is dollar over real, side by side, rounded to four decimals. */
  function Recompute(c: Quotes): (r: Quotes)
    requires c.brl.buy != 0 && c.brl.sell != 0
    ensures r.dollar == c.dollar && r.brl == c.brl
    ensures OnGrid(r.realDollar.buy) && OnGrid(r.realDollar.sell)
    ensures var q := c.dollar.buy as real / c.brl.buy as real;
            r.realDollar.buy - 0.00005 <= q < r.realDollar.buy + 0.00005
    ensures var q := c.dollar.sell as real / c.brl.sell as real;
            r.realDollar.sell - 0.00005 <= q < r.realDollar.sell + 0.00005
  {
    c.(realDollar := Rate(RoundTo4(c.dollar.buy as real / c.brl.buy as real),
                          RoundTo4(c.dollar.sell as real / c.brl.sell as real)))
  }

  /** Raise the sell price of a primary quote to buy + spread when buy is not below sell. */
  function RepairQuote(q: Quote, spread: int): (r: Quote)
    requires spread > 0
    ensures r.buy == q.buy && r.buy < r.sell
    ensures q.buy < q.sell ==> r == q
    ensures q.buy >= q.sell ==> r.sell == q.buy + spread
  {
    if q.buy >= q.sell then q.(sell := q.buy + spread) else q
  }

  /** Four-decimal values are closed under addition. */
  lemma OnGridAdd(u: real, v: real)
    requires OnGrid(u) && OnGrid(v)
    ensures OnGrid(u + v)
  {
    var ku := (u * 10000.0).Floor;
    var kv := (v * 10000.0).Floor;
    assert (u + v) * 10000.0 == (ku + kv) as real;
  }

  /** The same repair for the cross rate. */
  function RepairRate(q: Rate, spread: real): (r: Rate)
    requires spread > 0.0
    ensures r.buy == q.buy && r.buy < r.sell
    ensures q.buy < q.sell ==> r == q
    ensures q.buy >= q.sell ==> r.sell == q.buy + spread
  {
    if q.buy >= q.sell then q.(sell := q.buy + spread) else q
  }

  /** With a four-decimal spread, the repaired cross rate keeps four decimals. */
  lemma RepairRateOnGrid(q: Rate, spread: real)
    requires spread > 0.0 && OnGrid(spread)
    requires OnGrid(q.buy) && OnGrid(q.sell)
    ensures OnGrid(RepairRate(q, spread).sell)
  {
    if q.buy >= q.sell {
      OnGridAdd(q.buy, spread);
    }
  }

  /** Stage 4: repair every instrument with its own spread; only sell prices ever change. */
  function RepairAll(c: Quotes): (r: Quotes)
    ensures Ordered(r)
    ensures r.dollar.buy == c.dollar.buy && r.brl.buy == c.brl.buy && r.realDollar.buy == c.realDollar.buy
    ensures r.dollar.sell >= c.dollar.sell && r.brl.sell >= c.brl.sell && r.realDollar.sell >= c.realDollar.sell
    ensures c.dollar.buy < c.dollar.sell ==> r.dollar == c.dollar
    ensures c.brl.buy < c.brl.sell ==> r.brl == c.brl
    ensures c.realDollar.buy < c.realDollar.sell ==> r.realDollar == c.realDollar
    ensures Ordered(c) ==> r == c
  {
    Quotes(RepairQuote(c.dollar, DollarSpread),
           RepairQuote(c.brl, BrlSpread),
           RepairRate(c.realDollar, RateSpread))
  }

  /** The shifted real prices are not zero, so the cross rate can be divided out. */
  predicate CanStep(c: Quotes, d: Deltas)
  {
    c.brl.buy + d.brlBuy != 0 && c.brl.sell + d.brlSell != 0
  }

  /** One whole update: shift, recompute the cross rate, then repair. */
  function Step(c: Quotes, d: Deltas): (r: Quotes)
    requires InRange(d) && CanStep(c, d)
    ensures Ordered(r)
    ensures OnGrid(r.realDollar.buy) && OnGrid(r.realDollar.sell)
    // buy prices are the shifted ones; the repair never touches them
    ensures r.dollar.buy == c.dollar.buy + d.dollarBuy
    ensures r.brl.buy == c.brl.buy + d.brlBuy
    ensures r.realDollar.buy == RoundTo4(r.dollar.buy as real / r.brl.buy as real)
    // sell prices are the shifted ones unless that shifted quote was inverted
    ensures var s := c.dollar.sell + d.dollarSell;
            r.dollar.sell == if r.dollar.buy < s then s else r.dollar.buy + DollarSpread
    ensures var s := c.brl.sell + d.brlSell;
            r.brl.sell == if r.brl.buy < s then s else r.brl.buy + BrlSpread
    // the cross sell uses the shifted sells as they were before their repair
    ensures var s := RoundTo4((c.dollar.sell + d.dollarSell) as real / (c.brl.sell + d.brlSell) as real);
            r.realDollar.sell == if r.realDollar.buy < s then s else r.realDollar.buy + RateSpread
  {
    RepairRateOnGrid(Recompute(Shift(c, d)).realDollar, RateSpread);
    RepairAll(Recompute(Shift(c, d)))
  }

  // ---------------------------------------------------------------------
  // Repeated updates (the periodic timer and the update button)
  // ---------------------------------------------------------------------

  /** Every update of the sequence draws deltas in range and never divides by zero. */
  predicate Feasible(c: Quotes, ds: seq<Deltas>)
    decreases |ds|
  {
    |ds| == 0 || (InRange(ds[0]) && CanStep(c, ds[0]) && Feasible(Step(c, ds[0]), ds[1..]))
  }

  /**
   * The quotes after the updates ds, applied in order. The repair
   * re-establishes buy < sell at every update, so after at least one update
   * the quotes are ordered whatever they were before.
   */
  function Updates(c: Quotes, ds: seq<Deltas>): (r: Quotes)
    requires Feasible(c, ds)
    ensures |ds| > 0 ==> Ordered(r)
    decreases |ds|
  {
    if |ds| == 0 then c else Updates(Step(c, ds[0]), ds[1..])
  }

  /** Buy prices are never repaired, so they drift by at most 10 (dollar) and 5 (real) per update. */
  lemma {:induction false} UpdatesBuyDrift(c: Quotes, ds: seq<Deltas>)
    requires Feasible(c, ds)
    ensures var r := Updates(c, ds);
            && c.dollar.buy - 10 * |ds| <= r.dollar.buy <= c.dollar.buy + 10 * |ds|
            && c.brl.buy - 5 * |ds| <= r.brl.buy <= c.brl.buy + 5 * |ds|
    decreases |ds|
  {
    if |ds| > 0 {
      UpdatesBuyDrift(Step(c, ds[0]), ds[1..]);
    }
  }

  /** The initial quotes are ordered and every update re-orders, so every reachable state is ordered. */
  lemma AlwaysOrdered(ds: seq<Deltas>)
    requires Feasible(Initial(), ds)
    ensures Ordered(Updates(Initial(), ds))
  {
  }

  // ---------------------------------------------------------------------
  // Worked cases
  // ---------------------------------------------------------------------

  /**
   * The first update with all deltas zero: 6480/1175 and 6680/1230 round to
   * 5.5149 and 5.4309; the cross quote comes out inverted and its sell price
   * is repaired to 5.5149 + 0.05.
   */
  lemma FirstUpdateWithoutDrift()
    ensures var r := Step(Initial(), Deltas(0, 0, 0, 0));
            r == Quotes(Quote(6480, 6680), Quote(1175, 1230), Rate(5.5149, 5.5649))
  {
    RoundTo4Unique(6480.0 / 1175.0, 5.5149);
    RoundTo4Unique(6680.0 / 1230.0, 5.4309);
  }

  /**
   * The cross rate is computed before the dollar is repaired: with dollar
   * 100/90 and real 10/11 the dollar sell becomes 120, yet the cross sell is
   * derived from 90/11 (8.1818), found inverted and set to 10 + 0.05. Had the
   * repair come first, 120/11 would round to 10.9091, an ordered cross quote.
   */
  lemma CrossRateUsesUnrepairedSell()
    ensures var r := Step(Quotes(Quote(100, 90), Quote(10, 11), Rate(0.0, 0.0)), Deltas(0, 0, 0, 0));
            && r.dollar == Quote(100, 120) && r.brl == Quote(10, 11)
            && r.realDollar == Rate(10.0, 10.05)
            && RoundTo4(r.dollar.sell as real / r.brl.sell as real) == 10.9091
  {
    RoundTo4Unique(10.0, 10.0);
    RoundTo4Unique(90.0 / 11.0, 8.1818);
    RoundTo4Unique(120.0 / 11.0, 10.9091);
  }

  // ---------------------------------------------------------------------
  // The application object, updated in place
  // ---------------------------------------------------------------------

  class QuotesApp {
    var dollarBuy: int
    var dollarSell: int
    var brlBuy: int
    var brlSell: int
    var rateBuy: real
    var rateSell: real

    /** The current quotes as a value. */
    function Current(): Quotes
      reads this
    {
      Quotes(Quote(dollarBuy, dollarSell), Quote(brlBuy, brlSell), Rate(rateBuy, rateSell))
    }

    ghost predicate Valid()
      reads this
    {
      Ordered(Current())
    }

    constructor ()
      ensures Current() == Initial() && Valid()
    {
      dollarBuy, dollarSell := 6480, 6680;
      brlBuy, brlSell := 1175, 1230;
      rateBuy, rateSell := 5.42, 5.50;
    }

    /**
     * One simulated update, in place. The deltas stand for the random draws;
     * hayCambios stands for the comparison that decides whether the display
     * is refreshed, and is given the snapshot taken before any change.
     */
    method SimulateUpdate(d: Deltas, hayCambios: (Quotes, Quotes) -> bool)
      returns (oldValues: Quotes, displayed: bool)
      requires InRange(d) && CanStep(Current(), d)
      modifies this
      ensures Current() == Step(old(Current()), d)
      ensures Valid()
      ensures oldValues == old(Current())
      ensures displayed == hayCambios(oldValues, Current())
    {
      oldValues := Current();

      dollarBuy := dollarBuy + d.dollarBuy;
      dollarSell := dollarSell + d.dollarSell;
      brlBuy := brlBuy + d.brlBuy;
      brlSell := brlSell + d.brlSell;
      assert Current() == Shift(oldValues, d);

      rateBuy := dollarBuy as real / brlBuy as real;
      rateSell := dollarSell as real / brlSell as real;
      rateBuy := RoundTo4(rateBuy);
      rateSell := RoundTo4(rateSell);
      assert Current() == Recompute(Shift(oldValues, d));

      if dollarBuy >= dollarSell {
        dollarSell := dollarBuy + DollarSpread;
      }
      if brlBuy >= brlSell {
        brlSell := brlBuy + BrlSpread;
      }
      if rateBuy >= rateSell {
        rateSell := rateBuy + RateSpread;
      }
      assert Current() == RepairAll(Recompute(Shift(oldValues, d)));

      displayed := hayCambios(oldValues, Current());
    }
  }

  /** Two updates in a row, seen only through the contracts above. */
  method Client(hayCambios: (Quotes, Quotes) -> bool)
  {
    var app := new QuotesApp();
    var before, shown := app.SimulateUpdate(Deltas(10, -10, 5, -5), hayCambios);
    assert before == Initial() && app.Valid();
    before, shown := app.SimulateUpdate(Deltas(-10, 10, -5, 5), hayCambios);
    assert app.Valid();
  }
}
