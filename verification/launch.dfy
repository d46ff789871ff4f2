/** The staggered start of all sessions. */
module Launch {
  import Session
  import Candles

  /** Seconds between two session starts. */
  const StaggerSeconds: nat := 10

  /** How many sessions are started. */
  const NumberOfSessions: nat := 300

  /** The balance every session starts with. */
  const InitialBalance: real := 1000.0

  /** Session `sessionNumber` starts `offset` seconds after launch, in state `state`. */
  datatype Start = Start(sessionNumber: nat, offset: nat, state: Session.SessionState)

  /** The start offset of 1-based session `sessionNumber`. */
  function Offset(sessionNumber: nat, stagger: nat): nat
    requires sessionNumber >= 1
  {
    (sessionNumber - 1) * stagger
  }

  /** Starts sessions 1 .. count one after another, waiting `stagger` seconds after each start.
      Returns the starts in launch order and the seconds elapsed before the launcher begins to
      wait for the sessions. */
  method Schedule(count: nat, stagger: nat, initialBalance: real) returns (starts: seq<Start>, elapsed: nat)
    ensures |starts| == count
    ensures forall k :: 0 <= k < |starts| ==> starts[k].sessionNumber == k + 1
    ensures forall k :: 0 <= k < |starts| ==> starts[k].offset == Offset(starts[k].sessionNumber, stagger)
    ensures forall k :: 0 <= k < |starts| ==> starts[k].state == Session.Initial(initialBalance)
    ensures elapsed == count * stagger
  {
    starts := [];
    var clock: nat := 0;
    var i := 1;
    while i <= count
      invariant 1 <= i <= count + 1
      invariant |starts| == i - 1
      invariant clock == (i - 1) * stagger
      invariant forall k :: 0 <= k < |starts| ==> starts[k].sessionNumber == k + 1
      invariant forall k :: 0 <= k < |starts| ==> starts[k].offset == Offset(starts[k].sessionNumber, stagger)
      invariant forall k :: 0 <= k < |starts| ==> starts[k].state == Session.Initial(initialBalance)
    {
      starts := starts + [Start(i, clock, Session.Initial(initialBalance))];
      clock := clock + stagger;
      i := i + 1;
    }
    elapsed := clock;
  }

  /** Session `sessionNumber` appears among the starts. */
  predicate Started(starts: seq<Start>, sessionNumber: nat) {
    exists k :: 0 <= k < |starts| && starts[k].sessionNumber == sessionNumber
  }

  /** Every session 1 .. count is started exactly once, and a later session never starts earlier. */
  lemma ScheduleOrdered(starts: seq<Start>, count: nat, stagger: nat)
    requires |starts| == count
    requires forall k :: 0 <= k < |starts| ==> starts[k].sessionNumber == k + 1
    requires forall k :: 0 <= k < |starts| ==> starts[k].offset == Offset(starts[k].sessionNumber, stagger)
    ensures forall j :: 1 <= j <= count ==> Started(starts, j)
    ensures forall k, l :: 0 <= k < |starts| && 0 <= l < |starts| && starts[k].sessionNumber == starts[l].sessionNumber ==> k == l
    ensures forall k, l :: 0 <= k < l < |starts| ==> starts[k].sessionNumber < starts[l].sessionNumber
    ensures forall k, l :: 0 <= k < l < |starts| ==> starts[k].offset <= starts[l].offset
  {
    forall j | 1 <= j <= count
      ensures Started(starts, j)
    {
      assert starts[j - 1].sessionNumber == j;
    }
    forall k, l | 0 <= k < l < |starts|
      ensures starts[k].offset <= starts[l].offset
    {
      assert starts[k].offset == k * stagger && starts[l].offset == l * stagger;
      MulMonotone(k, l, stagger);
    }
  }

  lemma MulMonotone(a: nat, b: nat, c: nat)
    requires a <= b
    ensures a * c <= b * c
  {
  }

  /** With the built-in settings the last session starts 2990 seconds after launch. */
  lemma DefaultLastStart()
    ensures Offset(NumberOfSessions, StaggerSeconds) == 2990
  {
  }

  /** A freshly launched session whose first prediction is "up" at probability 0.8 stakes 8.6% of
      the initial balance; a 1% rise is a hit that takes the balance to 1017.2 after one fit. */
  lemma DefaultFirstIterationWins(batch: seq<Candles.Candle>, sessionNumber: int, startTime: int)
    requires batch != []
    ensures var obs := Session.Observation(batch, Session.Prediction(true, 0.8), 0.01);
      var r := Session.Step(Session.Initial(InitialBalance), sessionNumber, startTime, obs);
      && r.record.value.betPercentage == 0.086
      && r.record.value.predictionCorrect
      && r.next.balance == 1017.2
      && r.next.fits == 1
  {
  }

  /** The same first bet on a 2% fall is a miss that takes the balance to 965.6 and costs a second
      fit on the same data. */
  lemma DefaultFirstIterationLoses(batch: seq<Candles.Candle>, sessionNumber: int, startTime: int)
    requires batch != []
    ensures var obs := Session.Observation(batch, Session.Prediction(true, 0.8), -0.02);
      var r := Session.Step(Session.Initial(InitialBalance), sessionNumber, startTime, obs);
      && !r.record.value.predictionCorrect
      && r.next.balance == 965.6
      && r.next.fits == 2
      && r.next.model == Session.Fitted(batch)
  {
  }
}
