/** Market snapshots and the id-keyed map the crypto fetch builds from them. */
module Crypto {

  /** The coin ids the market request asks for. */
  const RequestedIds: seq<string> := ["bitcoin", "ethereum", "cardano", "dogecoin"]

  /**
   * One market snapshot as the provider sends it. The store reads only `id`; the
   * rest is kept as received.
   */
  datatype Coin = Coin(
    id: string, symbol: string, name: string, image: string,
    currentPrice: real, marketCap: real, marketCapRank: int, totalVolume: real,
    high24h: real, low24h: real, priceChangePercentage24h: real,
    circulatingSupply: real, totalSupply: real, maxSupply: real,
    ath: real, athChangePercentage: real, athDate: string,
    atl: real, atlChangePercentage: real, atlDate: string)

  /** The ids that occur in a response. */
  function Ids(coins: seq<Coin>): set<string>
  {
    set c | c in coins :: c.id
  }

  /**
   * The map that `reduce` builds: each coin stored under its id, in response order,
   * so that a later coin with the same id replaces an earlier one.
   */
  function ById(coins: seq<Coin>): (m: map<string, Coin>)
    ensures m.Keys == Ids(coins)
    ensures forall k :: k in m ==> m[k].id == k && m[k] in coins
  {
    if coins == [] then map[]
    else
      var init := coins[..|coins| - 1];
      var last := coins[|coins| - 1];
      assert coins == init + [last];
      ById(init)[last.id := last]
  }

  /** The record kept for an id is the LAST coin in the response with that id. */
  lemma {:induction false} ByIdLaterWins(coins: seq<Coin>, i: nat)
    requires i < |coins|
    requires forall j :: i < j < |coins| ==> coins[j].id != coins[i].id
    ensures coins[i].id in ById(coins) && ById(coins)[coins[i].id] == coins[i]
  {
    var n := |coins| - 1;
    if i < n {
      var init := coins[..n];
      ByIdLaterWins(init, i);
    }
  }

  /** The accumulation `acc[coin.id] = coin` over the response, one coin at a time. */
  method IndexById(coins: seq<Coin>) returns (acc: map<string, Coin>)
    ensures acc == ById(coins)
    ensures acc.Keys == Ids(coins)
  {
    acc := map[];
    var i := 0;
    while i < |coins|
      invariant 0 <= i <= |coins|
      invariant acc == ById(coins[..i])
    {
      assert coins[..i + 1][..i] == coins[..i];
      acc := acc[coins[i].id := coins[i]];
      i := i + 1;
    }
    assert coins[..|coins|] == coins;
  }
}
