# Exchange-rate quotes: the simulated update step

This project models the quote state of the `CotizacionesApp` page
(`app.js`) and its update step `simularActualizacion`, and proves what
that step promises about the quotes.

The page quotes three instruments, each with a buy price (*compra*) and a
sell price (*venta*):

- the dollar (`dolar`), an integer pair, starting at 6480 / 6680;
- the Brazilian real (`real`), an integer pair, starting at 1175 / 1230;
- the real-dollar cross rate (`realDolar`), a fractional pair, starting at 5.42 / 5.50.

One update does four things, in order. It takes a deep copy of the quotes
(`oldValues`). It adds a random whole number in [-10, 10] to each dollar
price and one in [-5, 5] to each real price. It recomputes the cross rate
as dollar over real, buy with buy and sell with sell, rounded to four
decimals with `Math.round`. Finally, for each instrument whose buy price is
not below its sell price, it sets the sell price to the buy price plus a
spread: 20 for the dollar, 10 for the real, 0.05 for the cross rate. The
display is refreshed only when `hayCambios(oldValues)` says so.

In the Dafny model (`cotizaciones.dfy`, module `Cotizaciones`):

- `Quote`, `Rate` and `Quotes` are the quote state as values. `buy` stands
  for *compra*, `sell` for *venta*, and `dollar`, `brl`, `realDollar` stand
  for `dolar`, `real` and `realDolar`. (`real` is a reserved word in Dafny.)
- `Deltas` holds the four random draws. They are parameters, and `InRange`
  states their ranges.
- `Shift`, `Recompute`, `RepairAll` and `Step` specify the update as
  functions on values.
- `QuotesApp` is the application object. Its six price fields are updated
  in place by `SimulateUpdate`, in the source's order. That method is proved
  to produce exactly `Step` of the old state.
- `hayCambios` is not defined in `app.js`. It is a function parameter of
  `SimulateUpdate`. It is given the snapshot taken before any change and the
  new quotes, and `displayed` is its answer.
- `Updates` applies a sequence of updates, as the 30-second timer and the
  update button do. The repair re-establishes buy < sell at every update,
  whatever the quotes were before it, so every state after an update is
  ordered; with the ordered initial quotes, `AlwaysOrdered` covers every
  reachable state.

Prices are unbounded integers and exact rationals. `Math.round(x * 10000) / 10000`
is `RoundTo4(x) = Floor(x * 10000 + 1/2) / 10000`, which rounds a tie up,
toward positive infinity, as `Math.round` does.

Where the code and the documented design of the system disagree, the model
follows the code:

- The description speaks of extracting quotes from page text, normalising
  numbers and detecting changes field by field. `app.js` contains none of
  this. It only simulates updates with random deltas.
- The description rounds half away from zero. `Math.round` rounds half up,
  and so does `RoundTo4`. The two differ only on negative ties, which
  positive prices never produce.
- The description guards the cross-rate division by "both buy prices
  positive". The code has no guard. The model's `CanStep` precondition asks
  only that the two shifted real prices are not zero, because that is all
  the division needs.

## Model

| member | source | states |
|---|---|---|
| `Cotizaciones.Initial` | app.js:7-11 | the initial quotes 6480/6680, 1175/1230 and 5.42/5.50 have buy < sell for every instrument, and the cross rate has four decimals |
| `Cotizaciones.QuotesApp.constructor` | app.js:7-11 | a new application holds exactly the initial quotes and satisfies buy < sell |
| `Cotizaciones.RoundTo4` | app.js:72-73 | `Math.round(x*10000)/10000` gives a value with four decimals, and x lies in the half-open window [r - 0.00005, r + 0.00005), so ties go up |
| `Cotizaciones.RoundTo4Unique` | app.js:72-73 | the converse: any four-decimal value whose window holds x is the rounding of x, so the window characterises the rounding |
| `Cotizaciones.RoundTo4Idempotent` | app.js:72-73 | rounding an already rounded cross rate leaves it unchanged |
| `Cotizaciones.RoundTo4Monotonic` | app.js:72-73 | rounding preserves the non-strict order of two values: a pair of quotients with buy <= sell still has buy <= sell after rounding |
| `Cotizaciones.Shift` | app.js:63-67 | with in-range deltas, each dollar price moves by at most 10, each real price by at most 5, and the cross rate is untouched |
| `Cotizaciones.Recompute` | app.js:69-73 | the primaries are unchanged; the new cross buy and sell have four decimals and lie within 0.00005 of dollar/real buy and dollar/real sell |
| `Cotizaciones.RepairQuote` | app.js:75-81 | buy is never changed and buy < sell afterwards; an ordered quote is left as it is; an inverted one gets sell = buy + spread |
| `Cotizaciones.OnGridAdd` | app.js:83 | the sum of two four-decimal values has four decimals, so adding 0.05 keeps the cross rate on the four-decimal grid |
| `Cotizaciones.RepairRate` | app.js:82-84 | the same repair for the cross rate: buy is never changed and buy < sell afterwards; an ordered quote is left as it is; an inverted one gets sell = buy + spread |
| `Cotizaciones.RepairRateOnGrid` | app.js:82-84 | with a four-decimal spread such as 0.05, a repaired four-decimal cross quote still has four decimals |
| `Cotizaciones.RepairAll` | app.js:75-84 | after the repair every instrument has buy < sell; no buy price changes; no sell price decreases; each instrument that was already ordered is left exactly as it was |
| `Cotizaciones.Step` | app.js:60-84 | after one update: buy < sell for all three instruments; the buy prices are the shifted ones; the cross buy is the rounded quotient of the shifted buys; each sell is the shifted sell unless that quote was inverted, in which case it is buy + 20, buy + 10 or buy + 0.05; the cross sell is computed from the shifted sells before their repair; both cross prices have four decimals |
| `Cotizaciones.Updates` | app.js:25 | repeated updates from the timer: after at least one update buy < sell holds for every instrument whatever the starting quotes, because each update ends with the repair |
| `Cotizaciones.UpdatesBuyDrift` | app.js:64-67 | over n updates the dollar buy price moves by at most 10n and the real buy price by at most 5n, since the repair never touches buy prices |
| `Cotizaciones.AlwaysOrdered` | app.js:7-11 | starting from the constructor's quotes, every state reached by updates has buy < sell |
| `Cotizaciones.FirstUpdateWithoutDrift` | app.js:69-84 | from the initial quotes with zero deltas the cross rate is 5.5149 / 5.4309, found inverted, and repaired to 5.5149 / 5.5649 |
| `Cotizaciones.CrossRateUsesUnrepairedSell` | app.js:69-84 | with dollar 100/90 and real 10/11 the dollar sell is repaired to 120, but the cross sell is derived from 90/11, found inverted and set to 10.05; the repaired 120/11 would have given the ordered 10.9091 |
| `Cotizaciones.QuotesApp.SimulateUpdate` | app.js:60-89 | the in-place update leaves exactly `Step` of the old quotes and keeps buy < sell. The returned snapshot equals the quotes before the call. The display decision is `hayCambios` applied to that snapshot and the new quotes |

## Left out

- The DOM and event wiring (app.js:28-35, 100-102): it has no logic to verify.
- Timers and the asynchronous `manualUpdate` (app.js:22-26, 37-58): the `setInterval` schedule, the `setTimeout` delays and the `isUpdating` re-entrance flag belong to the event loop. Repeated updates are modelled only as a sequence (`Updates`).
- `Math.random` (app.js:64-67) is a foreign, non-deterministic call. The four draws are the `Deltas` parameter, with their ranges as a precondition.
- IEEE-754 doubles (app.js:70-73, 83): the division, the rounding and the `+ 0.05` are exact rational arithmetic. The double rounding error of JavaScript is not modelled. For example, the double `5.5149 + 0.05` need not be exactly 5.5649.
- Division by zero (app.js:70-71): JavaScript would store `Infinity` or `NaN`. `SimulateUpdate` and `Step` instead require the shifted real prices to be non-zero, and `Feasible` requires it of every update in a sequence. In the program the invariant then fails: a zero real buy makes the cross buy `Infinity`, the repair sets the sell to `Infinity + 0.05`, which is `Infinity`, and `Infinity < Infinity` is false; `0/0` gives `NaN`, which skips the repair. From 1175 this takes at least 235 updates of -5 (`UpdatesBuyDrift` bounds the drift), so `AlwaysOrdered` covers only the sequences that avoid it.
- `hayCambios`, `updateDisplay` and the `show*State` helpers (app.js:86-87, 91-96) are called but not defined in `app.js`. `hayCambios` is a parameter, and the model does not say what the display does.
- `previousValues` and `firstUpdate` (app.js:4, 13-17) are initialised but never read or written by the update, so they are not fields of `QuotesApp`.
- The deep copy by `JSON.parse(JSON.stringify(...))` (app.js:61) is a value copy of the `Quotes` datatype. Aliasing between the snapshot and the live object cannot arise in the model.
