# CryptoPredictor trading session, modelled in Dafny

CryptoPredictor runs many independent simulated trading sessions. Each session loops forever:
it fetches a batch of one-minute ETH/BTC candles, appends them to its training data, fits a
binary up/down classifier, predicts the direction of the next move, sizes a bet from the
classifier's probability, waits, reads the live price, decides whether the prediction was
right, updates a 20x-leveraged simulated balance, logs the outcome, and refits once more when
the prediction was wrong. `Main` starts the sessions one after another, ten seconds apart.

This project models the decision-and-accounting core of that loop as pure functions over
`real`, with the outside world's answers (the candle batch, the classifier's prediction and
the live price) passed in as inputs:

- `wrappers.dfy` — `Option`, used for a price fetch that can fail.
- `candles.dfy` — the stored candle row and its derived label (closed above its open), and the
  loop that turns a parsed kline batch into candles.
- `betting.dfy` — bet sizing, prediction correctness, the balance update and the percentage
  change with its failure fallback, with their bounds, sign and monotonicity properties.
- `session.dfy` — the session state (training data, reference price, balance, opaque model,
  fit count), one loop iteration `Step` over an observed move, `Observe` (the move measured
  from the newest close, zero when the price fetch failed), finite runs of iterations `Run`,
  and their invariants.
- `launch.dfy` — the staggered launch of sessions 1 .. N.

A failed price fetch gives a zero move (Program.cs:191-195), and the strict comparisons at
Program.cs:97 make a zero move a miss in both directions, so such an iteration also triggers the
second fit; `Betting.PriceFailureIsNeutralLoss` and `Session.PriceFailureForcesRetrain` state this.

## Model

| member | source | states |
|---|---|---|
| `Candles.FromKline` | CryptoPredictor/Program.cs:127-142 | the built candle is labelled up exactly when it closed strictly above its open, and dropping the label gives back the kline row it came from |
| `Candles.FromKlineInverse` | CryptoPredictor/Program.cs:127-142 | a correctly labelled candle is recovered from its columns alone, so the label carries no information beyond close > open |
| `Candles.ToCandles` | CryptoPredictor/Program.cs:123-147 | one candle per parsed row, in row order, each correctly labelled, and an empty answer gives an empty batch |
| `Betting.BetPercentage` | CryptoPredictor/Program.cs:88-89 | the bet fraction always lies in [0.03, 0.10]; for probabilities in [0, 1] it is the linear interpolation (the clamp is inactive); below 0 it is 0.03 and above 1 it is 0.10 |
| `Betting.BetPercentageMonotone` | CryptoPredictor/Program.cs:88-89 | a higher probability never gives a smaller bet |
| `Betting.BetPercentageInverse` | CryptoPredictor/Program.cs:88-89 | on [0, 1] the probability can be read back from the bet fraction, so distinct confidences give distinct bets |
| `Betting.BetPercentageEndpoints` | CryptoPredictor/Program.cs:88-89 | probability 0 bets 3% and probability 1 bets 10% |
| `Betting.PredictionCorrect` | CryptoPredictor/Program.cs:97 | a prediction is right iff the sign of the move equals the predicted direction; a zero move is wrong both ways |
| `Betting.UpdateBalance` | CryptoPredictor/Program.cs:198-207 | the new balance is the old one scaled by 1 + 20 · bet · move · direction; a zero move leaves it unchanged |
| `Betting.UpdateBalanceSymmetric` | CryptoPredictor/Program.cs:202 | betting down on a move pays the same as betting up on the opposite move |
| `Betting.BalanceRisesIffCorrect` | CryptoPredictor/Program.cs:97-99 | with positive balance and stake the balance rises iff the prediction was right, stays iff the price did not move, and falls iff it was wrong on a real move |
| `Betting.BalanceChangeBounded` | CryptoPredictor/Program.cs:198-207 | for a stake inside the band and any balance, negative ones included, the balance moves by at most abs(balance) · 0.10 · 20 · abs(move) |
| `Betting.BalanceStaysPositive` | CryptoPredictor/Program.cs:198-207 | a positive balance stays positive for any move smaller than 50% either way |
| `Betting.BalanceCanGoNegative` | CryptoPredictor/Program.cs:204 | the balance is not floored: a 60% move against a 10% stake turns 1000 negative |
| `Betting.PercentageChange` | CryptoPredictor/Program.cs:176-195 | a failed price fetch gives a zero move; otherwise the move reproduces the new price from the old one, previous · (1 + move) = current |
| `Betting.PercentageChangeSign` | CryptoPredictor/Program.cs:187 | from a positive reference price the move is positive iff the price rose and negative iff it fell |
| `Betting.PriceFailureIsNeutralLoss` | CryptoPredictor/Program.cs:191-195 | after a failed price fetch the prediction is wrong in either direction and the balance is unchanged |
| `Betting.ExampleWin` | CryptoPredictor/Program.cs:88-99 | balance 1000, probability 0.8, up, +1%: bet 8.6%, a hit, new balance 1017.2 |
| `Betting.ExampleLoss` | CryptoPredictor/Program.cs:88-99 | the same bet on a 2% fall: a miss, new balance 965.6 |
| `Session.Initial` | CryptoPredictor/Program.cs:60-68 | a fresh session holds no data, no model and no fits, has reference price 0.0, and starts at the given balance |
| `Session.Step` | CryptoPredictor/Program.cs:70-109 | an empty batch changes no part of the state and logs nothing; otherwise one row is logged whose bet is the one sized from the prediction's probability and whose correctness is the sign match of the observed move, the new balance is the leveraged update of the old one with that bet and move and is the logged one, the old data stays a prefix, and the fit count grows by 1 on a hit and 2 on a miss |
| `Session.Observe` | CryptoPredictor/Program.cs:95 | the observed move is measured from the newest close: it reproduces the fetched price from that close, and is zero when the price fetch failed |
| `Session.StepAppends` | CryptoPredictor/Program.cs:80-91 | a received batch is appended to the data, its last close becomes the reference price, the model is fitted on the whole data, and the logged bet lies in the band with the predicted action |
| `Session.StepData` | CryptoPredictor/Program.cs:72-80 | every iteration leaves the data as the old data followed by its batch, which is empty when the fetch failed |
| `Session.PriceFailureForcesRetrain` | CryptoPredictor/Program.cs:95-108 | when the price fetch fails the iteration still appends the batch, but keeps the balance, logs a miss and fits twice |
| `Session.StepCorrectIffPriceMoved` | CryptoPredictor/Program.cs:95-97 | when the price fetch succeeds, an iteration logs a correct prediction iff the live price moved strictly past the newest close in the predicted direction |
| `Session.StepBalanceRisesIffCorrect` | CryptoPredictor/Program.cs:95-99 | with a positive balance an iteration raises the balance iff it logs a correct prediction, and keeps it iff the observed move is zero |
| `Session.InitialConsistent` | CryptoPredictor/Program.cs:60-68 | a fresh session satisfies the session invariant |
| `Session.StepConsistent` | CryptoPredictor/Program.cs:80-108 | an iteration with a correctly labelled batch keeps the invariant: every held candle is correctly labelled; the model, if any, is fitted on exactly the data held; model, fits and data appear together; the reference price is the newest close |
| `Session.Run` | CryptoPredictor/Program.cs:70-110 | a finite run logs at most one row per iteration, each carrying the session's number and start time |
| `Session.RunConsistent` | CryptoPredictor/Program.cs:70-110 | the invariant holds after any finite number of iterations whose batches are correctly labelled |
| `Session.RunAppendsData` | CryptoPredictor/Program.cs:72-80 | after any run the data is the old data followed by every received candle in arrival order |
| `Session.DataMonotone` | CryptoPredictor/Program.cs:80 | the data length never decreases and the old data stays a prefix |
| `Session.RunFits` | CryptoPredictor/Program.cs:84-108 | a run logs one row per iteration that received data, and fits once per such iteration plus once per logged miss |
| `Session.FitsBounded` | CryptoPredictor/Program.cs:84-108 | the fit count grows by between one and two per iteration that received data |
| `Session.RunBalanceLogged` | CryptoPredictor/Program.cs:99-103 | the balance after a run is the one in the last logged row, or the starting balance when nothing was logged |
| `Launch.Schedule` | CryptoPredictor/Program.cs:46-53 | N starts in launch order, session k at offset (k − 1) · M, each in a fresh state with the initial balance; the launcher has waited N · M seconds before it awaits the sessions |
| `Launch.ScheduleOrdered` | CryptoPredictor/Program.cs:46-53 | every session 1 .. N is started exactly once, in increasing order, and a later session never starts earlier |
| `Launch.DefaultFirstIterationWins` | CryptoPredictor/Program.cs:60-108 | a fresh session with the built-in balance of 1000 that bets up at probability 0.8 on a 1% rise stakes 8.6%, logs a hit, ends at 1017.2 and has fitted once |
| `Launch.DefaultFirstIterationLoses` | CryptoPredictor/Program.cs:60-108 | the same first bet on a 2% fall logs a miss, ends at 965.6 and has fitted twice, the model still on the received batch |
| `Launch.DefaultLastStart` | CryptoPredictor/Program.cs:19-20 | with 300 sessions ten seconds apart the last one starts 2990 seconds after launch |

## Left out

- HTTP requests and JSON parsing of klines and of the ticker (Program.cs:113-121, 148-154, 180-185): network I/O and a foreign JSON library. A parsed kline is the `Kline` input; a fetch failure is an empty batch or a `None` price.
- The ML.NET pipeline, training and prediction engine (Program.cs:156-174): a foreign library. The model is opaque (`Fitted(snapshot)` records only what it was trained on) and the prediction is an input pair (direction, probability).
- MySQL table creation, inserts and the connection string (Program.cs:24-42, 209-229): persistence. The inserted row is modelled as the emitted `LogRecord`.
- Console output and the window title (Program.cs:21, 75, 91, 101): side effects only.
- `Task.Run`, `Task.Delay` and `Task.WhenAll` (Program.cs:49, 52, 55, 76, 93): concurrency and wall-clock waits. Only the launch order and the start offsets are modelled; the two-minute retry and resolution waits are not.
- The unbounded `while (true)` loop (Program.cs:70-110): modelled as one `Step` and finite runs of steps.
- Faults that end a session (Program.cs:84, 86, 103, 107): an exception from fitting (for instance training data with a single label), from prediction, or from the database insert is not caught in the session loop and ends that session's task. `Step` and `Run` model only iterations in which none of these fails; a session that stopped is not modelled.
- The session start time `DateTime.UtcNow` (Program.cs:63): a clock, passed in as `startTime`.
- float32 and double rounding, NaN and infinities: every quantity is a `real`, so `BetPercentage` is exact (in float32 the interpolation already stays inside the band for probabilities in [0, 1], so the clamp only matters outside that range, as in the model) and a NaN probability, which passes through the clamp unchanged, is not modelled.
- Betting.PercentageChange: requires a non-zero previous price; the source divides by it and, in IEEE doubles, a zero would give an infinite or NaN move without raising an error. `Session.Observe`, which turns the live price into the observed move, carries this as "a received batch does not end on a zero close"; `Session.Step` itself takes the observed move as an input.
