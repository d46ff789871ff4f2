/** Candles as the session stores them, and the labelling rule applied to each fetched kline. */
module Candles {

  /** One kline row of the exchange's answer, with every column already parsed to a number. */
  datatype Kline = Kline(
    openTime: int,
    open: real,
    high: real,
    low: real,
    close: real,
    volume: real,
    closeTime: int,
    quoteAssetVolume: real,
    numberOfTrades: real,
    takerBuyBaseAssetVolume: real,
    takerBuyQuoteAssetVolume: real,
    ignore: real)

  /** A stored training row: the kline's columns plus the derived `upLabel` (did the candle close up?). */
  datatype Candle = Candle(
    openTime: int,
    open: real,
    high: real,
    low: real,
    close: real,
    volume: real,
    closeTime: int,
    quoteAssetVolume: real,
    numberOfTrades: real,
    takerBuyBaseAssetVolume: real,
    takerBuyQuoteAssetVolume: real,
    ignore: real,
    upLabel: bool)

  /** A candle is labelled "up" exactly when it closed strictly above its open. */
  predicate WellLabelled(c: Candle) {
    c.upLabel <==> c.close > c.open
  }

  /** Forgets the derived label, giving back the row the candle was built from. */
  function ToKline(c: Candle): Kline {
    Kline(c.openTime, c.open, c.high, c.low, c.close, c.volume, c.closeTime,
          c.quoteAssetVolume, c.numberOfTrades, c.takerBuyBaseAssetVolume,
          c.takerBuyQuoteAssetVolume, c.ignore)
  }

  /** Builds the candle for one kline row, deriving its label. */
  function FromKline(k: Kline): (c: Candle)
    ensures WellLabelled(c)
    ensures ToKline(c) == k
  {
    Candle(k.openTime, k.open, k.high, k.low, k.close, k.volume, k.closeTime,
           k.quoteAssetVolume, k.numberOfTrades, k.takerBuyBaseAssetVolume,
           k.takerBuyQuoteAssetVolume, k.ignore, k.close > k.open)
  }

  /** A well-labelled candle is determined by its columns: rebuilding it from them gives it back. */
  lemma FromKlineInverse(c: Candle)
    requires WellLabelled(c)
    ensures FromKline(ToKline(c)) == c
  {
  }

  /** Turns a parsed kline batch into the candle batch, one candle per row and in the same order. */
  method ToCandles(rows: seq<Kline>) returns (batch: seq<Candle>)
    ensures |batch| == |rows|
    ensures batch == [] <==> rows == []
    ensures forall i :: 0 <= i < |rows| ==> ToKline(batch[i]) == rows[i]
    ensures forall i :: 0 <= i < |batch| ==> WellLabelled(batch[i])
  {
    batch := [];
    var i := 0;
    while i < |rows|
      invariant 0 <= i <= |rows|
      invariant |batch| == i
      invariant forall j :: 0 <= j < i ==> ToKline(batch[j]) == rows[j]
      invariant forall j :: 0 <= j < i ==> WellLabelled(batch[j])
    {
      batch := batch + [FromKline(rows[i])];
      i := i + 1;
    }
  }
}
