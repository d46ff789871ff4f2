/** One trading session: its state and the decision-and-accounting step of one loop iteration. */
module Session {
  import opened Wrappers
  import opened Candles
  import opened Betting

  /** The fitted classifier, kept opaque: only the training snapshot it was fitted on is recorded. */
  datatype Model = Untrained | Fitted(snapshot: seq<Candle>)

  /** The classifier's answer for the newest candle. */
  datatype Prediction = Prediction(predictedUp: bool, probability: real)

  /** Everything a session carries from one iteration to the next. `fits` counts model fits. */
  datatype SessionState = SessionState(
    data: seq<Candle>,
    previousPrice: real,
    balance: real,
    model: Model,
    fits: nat)

  /** The row written to the result store for each resolved bet. */
  datatype LogRecord = LogRecord(
    sessionNumber: int,
    startTime: int,
    action: string,
    betPercentage: real,
    balance: real,
    predictionCorrect: bool)

  /** What the outside world answered during one iteration: the candle batch (empty when the fetch
      failed), the classifier's prediction for its newest candle, and the relative price move
      observed after the wait. The prediction and the move are only consulted when the batch is
      non-empty. */
  datatype Observation = Observation(batch: seq<Candle>, prediction: Prediction, change: real)

  /** The state after an iteration and the log row it emitted, if it got that far. */
  datatype StepResult = StepResult(next: SessionState, record: Option<LogRecord>)

  /** A session before its first iteration. */
  function Initial(initialBalance: real): (s: SessionState)
    ensures s.data == [] && s.model == Untrained && s.fits == 0
    ensures s.balance == initialBalance && s.previousPrice == 0.0
  {
    SessionState([], 0.0, initialBalance, Untrained, 0)
  }

  function Last(batch: seq<Candle>): Candle
    requires batch != []
  {
    batch[|batch| - 1]
  }

  /** The observation of an iteration whose live price fetch answered `currentPrice`: the move is
      measured from the close of the batch's newest candle, and is zero when the fetch failed. */
  function Observe(batch: seq<Candle>, prediction: Prediction, currentPrice: Option<real>): (obs: Observation)
    requires batch != [] ==> Last(batch).close != 0.0
    ensures obs.batch == batch && obs.prediction == prediction
    ensures currentPrice.None? ==> obs.change == 0.0
    ensures batch != [] && currentPrice.Some? ==> Last(batch).close * (1.0 + obs.change) == currentPrice.value
  {
    Observation(batch, prediction, if batch == [] then 0.0 else PercentageChange(Last(batch).close, currentPrice))
  }

  function Action(predictedUp: bool): string {
    if predictedUp then "Up" else "Down"
  }

  /** One iteration of the session loop. An empty batch changes nothing and logs nothing. Otherwise
      the batch is appended, its last close becomes the reference price, the model is refitted,
      the bet is sized and resolved, the balance updated, a row logged, and the model refitted once
      more (on the same data) when the prediction was wrong. */
  function Step(s: SessionState, sessionNumber: int, startTime: int, obs: Observation): (r: StepResult)
    ensures obs.batch == [] ==> r.next == s && r.record == None
    ensures obs.batch != [] ==> r.record.Some? && r.next.balance == r.record.value.balance
    ensures obs.batch != [] ==>
      && r.record.value.betPercentage == BetPercentage(obs.prediction.probability)
      && r.record.value.predictionCorrect == PredictionCorrect(obs.prediction.predictedUp, obs.change)
      && r.next.balance == UpdateBalance(s.balance, r.record.value.betPercentage, obs.prediction.predictedUp, obs.change)
    ensures |r.next.data| >= |s.data| && r.next.data[..|s.data|] == s.data
    ensures r.next.fits - s.fits == (if r.record.None? then 0 else if r.record.value.predictionCorrect then 1 else 2)
  {
    if obs.batch == [] then
      StepResult(s, None)
    else
      var data := s.data + obs.batch;
      var previousPrice := Last(obs.batch).close;
      var p := obs.prediction;
      var betPercentage := BetPercentage(p.probability);
      var change := obs.change;
      var correct := PredictionCorrect(p.predictedUp, change);
      var balance := UpdateBalance(s.balance, betPercentage, p.predictedUp, change);
      var record := LogRecord(sessionNumber, startTime, Action(p.predictedUp), betPercentage, balance, correct);
      var retrains := if correct then 0 else 1;
      StepResult(SessionState(data, previousPrice, balance, Fitted(data), s.fits + 1 + retrains), Some(record))
  }

  /** A successful fetch appends the batch, makes its last close the reference price and leaves the
      model fitted on the full data, with a logged bet size inside the band. */
  lemma StepAppends(s: SessionState, sessionNumber: int, startTime: int, obs: Observation)
    requires obs.batch != []
    ensures var r := Step(s, sessionNumber, startTime, obs);
      && r.next.data == s.data + obs.batch
      && r.next.previousPrice == Last(obs.batch).close
      && r.next.model == Fitted(r.next.data)
      && MinBet <= r.record.value.betPercentage <= MaxBet
      && r.record.value.action == Action(obs.prediction.predictedUp)
      && r.record.value.sessionNumber == sessionNumber
  {
  }

  /** When the live price cannot be fetched the bet is a miss that leaves the balance unchanged and
      costs a second fit. */
  lemma PriceFailureForcesRetrain(s: SessionState, sessionNumber: int, startTime: int,
                                  batch: seq<Candle>, prediction: Prediction)
    requires batch != [] && Last(batch).close != 0.0
    ensures var r := Step(s, sessionNumber, startTime, Observe(batch, prediction, None));
      && r.next.balance == s.balance
      && !r.record.value.predictionCorrect
      && r.next.fits == s.fits + 2
      && r.next.data == s.data + batch
  {
    PriceFailureIsNeutralLoss(Last(batch).close, s.balance,
      BetPercentage(prediction.probability), prediction.predictedUp);
    StepAppends(s, sessionNumber, startTime, Observe(batch, prediction, None));
  }

  /** From a positive reference close, an iteration whose price fetch succeeded logs a correct
      prediction exactly when the live price moved strictly in the predicted direction. */
  lemma StepCorrectIffPriceMoved(s: SessionState, sessionNumber: int, startTime: int,
                                 batch: seq<Candle>, prediction: Prediction, price: real)
    requires batch != [] && Last(batch).close > 0.0
    ensures var r := Step(s, sessionNumber, startTime, Observe(batch, prediction, Some(price)));
      r.record.value.predictionCorrect <==>
        ((prediction.predictedUp && price > Last(batch).close) ||
         (!prediction.predictedUp && price < Last(batch).close))
  {
    PercentageChangeSign(Last(batch).close, price);
  }

  /** With a positive balance, an iteration that got a batch raises the balance exactly when it
      logged a correct prediction, and keeps it exactly when the price did not move. */
  lemma StepBalanceRisesIffCorrect(s: SessionState, sessionNumber: int, startTime: int, obs: Observation)
    requires obs.batch != [] && s.balance > 0.0
    ensures var r := Step(s, sessionNumber, startTime, obs);
      && (r.next.balance > s.balance <==> r.record.value.predictionCorrect)
      && (r.next.balance == s.balance <==> obs.change == 0.0)
  {
    BalanceRisesIffCorrect(s.balance, BetPercentage(obs.prediction.probability),
      obs.prediction.predictedUp, obs.change);
  }

  /** Every candle of the batch carries the label derived from its own open and close. */
  predicate LabelledBatch(batch: seq<Candle>) {
    forall i :: 0 <= i < |batch| ==> WellLabelled(batch[i])
  }

  /** The session invariant: every held candle is correctly labelled; the model, when there is one, was fitted on exactly the data held;
      there is a model iff at least one fit happened iff some data was received; and the reference
      price is the close of the newest candle. */
  predicate Consistent(s: SessionState) {
    && LabelledBatch(s.data)
    && (s.data == [] <==> s.model == Untrained)
    && (s.model == Untrained <==> s.fits == 0)
    && (s.model.Fitted? ==> s.model.snapshot == s.data)
    && (s.data != [] ==> s.previousPrice == Last(s.data).close)
  }

  lemma InitialConsistent(initialBalance: real)
    ensures Consistent(Initial(initialBalance))
  {
  }

  lemma StepConsistent(s: SessionState, sessionNumber: int, startTime: int, obs: Observation)
    requires Consistent(s) && LabelledBatch(obs.batch)
    ensures Consistent(Step(s, sessionNumber, startTime, obs).next)
  {
    if obs.batch != [] {
      var d := s.data + obs.batch;
      assert Last(d) == Last(obs.batch);
      forall i | 0 <= i < |d|
        ensures WellLabelled(d[i])
      {
        if i >= |s.data| {
          assert d[i] == obs.batch[i - |s.data|];
        }
      }
    }
  }

  /** What a run of iterations produced: the final state and the rows logged, in order. */
  datatype Trace = Trace(final: SessionState, records: seq<LogRecord>)

  /** Runs the loop over a finite sequence of observations. */
  function Run(s: SessionState, sessionNumber: int, startTime: int, obs: seq<Observation>): (t: Trace)
    ensures |t.records| <= |obs|
    ensures forall i :: 0 <= i < |t.records| ==>
      t.records[i].sessionNumber == sessionNumber && t.records[i].startTime == startTime
    decreases |obs|
  {
    if obs == [] then
      Trace(s, [])
    else
      var r := Step(s, sessionNumber, startTime, obs[0]);
      var rest := Run(r.next, sessionNumber, startTime, obs[1..]);
      match r.record
      case None => rest
      case Some(rec) => Trace(rest.final, [rec] + rest.records)
  }

  /** All fetched candles, in the order they arrived. */
  function Received(obs: seq<Observation>): seq<Candle> {
    if obs == [] then [] else obs[0].batch + Received(obs[1..])
  }

  /** The number of iterations whose fetch returned data. */
  function Fetched(obs: seq<Observation>): nat {
    if obs == [] then 0 else (if obs[0].batch == [] then 0 else 1) + Fetched(obs[1..])
  }

  /** The number of logged rows that record a wrong prediction. */
  function Misses(records: seq<LogRecord>): nat {
    if records == [] then 0 else (if records[0].predictionCorrect then 0 else 1) + Misses(records[1..])
  }

  /** The training data only grows: after a run it is the old data followed by every received
      candle in arrival order. */
  lemma {:induction false} RunAppendsData(s: SessionState, sessionNumber: int, startTime: int, obs: seq<Observation>)
    ensures Run(s, sessionNumber, startTime, obs).final.data == s.data + Received(obs)
    decreases |obs|
  {
    if obs == [] {
      assert s.data + Received(obs) == s.data;
    } else {
      var next := Step(s, sessionNumber, startTime, obs[0]).next;
      StepData(s, sessionNumber, startTime, obs[0]);
      RunUnfold(s, sessionNumber, startTime, obs);
      RunAppendsData(next, sessionNumber, startTime, obs[1..]);
      AppendAssoc(s.data, obs[0].batch, Received(obs[1..]));
    }
  }

  lemma AppendAssoc<T>(a: seq<T>, b: seq<T>, c: seq<T>)
    ensures (a + b) + c == a + (b + c)
  {
  }

  /** Every iteration appends its batch, which is empty when the fetch failed. */
  lemma StepData(s: SessionState, sessionNumber: int, startTime: int, obs: Observation)
    ensures Step(s, sessionNumber, startTime, obs).next.data == s.data + obs.batch
  {
    if obs.batch == [] {
      assert s.data + obs.batch == s.data;
    }
  }

  /** The final state of a non-empty run is that of the rest of the run after the first step. */
  lemma RunUnfold(s: SessionState, sessionNumber: int, startTime: int, obs: seq<Observation>)
    requires obs != []
    ensures Run(s, sessionNumber, startTime, obs).final
         == Run(Step(s, sessionNumber, startTime, obs[0]).next, sessionNumber, startTime, obs[1..]).final
  {
  }

  /** Hence the data length never decreases and the old data stays a prefix. */
  lemma DataMonotone(s: SessionState, sessionNumber: int, startTime: int, obs: seq<Observation>)
    ensures var d := Run(s, sessionNumber, startTime, obs).final.data;
      |d| >= |s.data| && d[..|s.data|] == s.data
  {
    RunAppendsData(s, sessionNumber, startTime, obs);
  }

  /** One row is logged per iteration that received data, and the model is fitted once per such
      iteration plus once more per logged miss. */
  lemma {:induction false} RunFits(s: SessionState, sessionNumber: int, startTime: int, obs: seq<Observation>)
    ensures var t := Run(s, sessionNumber, startTime, obs);
      && |t.records| == Fetched(obs)
      && t.final.fits == s.fits + Fetched(obs) + Misses(t.records)
    decreases |obs|
  {
    if obs != [] {
      var r := Step(s, sessionNumber, startTime, obs[0]);
      RunFits(r.next, sessionNumber, startTime, obs[1..]);
      var rest := Run(r.next, sessionNumber, startTime, obs[1..]);
      if r.record.Some? {
        assert ([r.record.value] + rest.records)[1..] == rest.records;
      }
    }
  }

  /** So the fit count lies between one and two fits per iteration that received data. */
  lemma FitsBounded(s: SessionState, sessionNumber: int, startTime: int, obs: seq<Observation>)
    ensures var f := Run(s, sessionNumber, startTime, obs).final.fits;
      s.fits + Fetched(obs) <= f <= s.fits + 2 * Fetched(obs)
  {
    var t := Run(s, sessionNumber, startTime, obs);
    RunFits(s, sessionNumber, startTime, obs);
    MissesBounded(t.records);
  }

  lemma {:induction false} MissesBounded(records: seq<LogRecord>)
    ensures Misses(records) <= |records|
  {
    if records != [] {
      MissesBounded(records[1..]);
    }
  }

  /** The session invariant holds after any run from a consistent state. */
  lemma {:induction false} RunConsistent(s: SessionState, sessionNumber: int, startTime: int, obs: seq<Observation>)
    requires Consistent(s) && forall i :: 0 <= i < |obs| ==> LabelledBatch(obs[i].batch)
    ensures Consistent(Run(s, sessionNumber, startTime, obs).final)
    decreases |obs|
  {
    if obs != [] {
      var r := Step(s, sessionNumber, startTime, obs[0]);
      assert LabelledBatch(obs[0].batch);
      StepConsistent(s, sessionNumber, startTime, obs[0]);
      assert forall i :: 0 <= i < |obs[1..]| ==> LabelledBatch(obs[1..][i].batch) by {
        forall i | 0 <= i < |obs[1..]|
          ensures LabelledBatch(obs[1..][i].batch)
        {
          assert obs[1..][i] == obs[i + 1];
        }
      }
      RunConsistent(r.next, sessionNumber, startTime, obs[1..]);
    }
  }

  /** The balance at the end of a run is the one written in its last logged row. */
  lemma {:induction false} RunBalanceLogged(s: SessionState, sessionNumber: int, startTime: int, obs: seq<Observation>)
    ensures var t := Run(s, sessionNumber, startTime, obs);
      t.records != [] ==> t.final.balance == t.records[|t.records| - 1].balance
    ensures var t := Run(s, sessionNumber, startTime, obs);
      t.records == [] ==> t.final.balance == s.balance
    decreases |obs|
  {
    if obs != [] {
      var r := Step(s, sessionNumber, startTime, obs[0]);
      RunBalanceLogged(r.next, sessionNumber, startTime, obs[1..]);
    }
  }
}
