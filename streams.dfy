/** The two streaming feeds: live prices and trades, merged into id-keyed maps. */
module Streams {

  const PriceFeedUrl := "wss://ws.coincap.io/prices?assets=bitcoin,ethereum,cardano"
  const TradeFeedUrl := "wss://ws.coincap.io/trades/binance"

  /**
   * A decoded price message is a map from asset id to its price, kept as received
   * (the feed's JSON value, carried here as its text).
   */
  type PriceMessage = map<string, string>

  /** `{ ...livePrices, ...data }`: the message's keys take the message's values. */
  function MergePrices(live: map<string, string>, msg: PriceMessage): (r: map<string, string>)
    ensures r.Keys == live.Keys + msg.Keys
    ensures forall k :: k in msg ==> r[k] == msg[k]
    ensures forall k :: k in live && k !in msg ==> r[k] == live[k]
  {
    live + msg
  }

  /** A decoded trade message; the store reads only the fields below. */
  datatype TradeMessage = TradeMessage(
    exchange: string, base: string, quote: string, direction: string,
    price: real, priceUsd: real, volume: real, timestamp: int)

  /** The last trade kept for an asset. */
  datatype TradeRecord = TradeRecord(price: real, volume: real, direction: string, timestamp: int)

  /**
   * `tradeData[trade.base] = {price: priceUsd, volume, direction, timestamp}`:
   * only the message's base asset changes, and its record comes from this message alone.
   */
  function ApplyTrade(trades: map<string, TradeRecord>, msg: TradeMessage): (r: map<string, TradeRecord>)
    ensures r.Keys == trades.Keys + {msg.base}
    ensures r[msg.base] == TradeRecord(msg.priceUsd, msg.volume, msg.direction, msg.timestamp)
    ensures forall k :: k in trades && k != msg.base ==> r[k] == trades[k]
  {
    trades[msg.base := TradeRecord(msg.priceUsd, msg.volume, msg.direction, msg.timestamp)]
  }

  /** A trade message overwrites: the newer of two messages for one asset decides its record. */
  lemma LaterTradeWins(trades: map<string, TradeRecord>, first: TradeMessage, second: TradeMessage)
    requires first.base == second.base
    ensures ApplyTrade(ApplyTrade(trades, first), second) == ApplyTrade(trades, second)
  {
  }
}
