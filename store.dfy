/**
 * The dashboard's single state store. Each HTTP response or socket message arrives
 * as a parameter: the request itself, the socket connection and JSON decoding happen
 * outside the model.
 */
module Store {
  import opened Wrappers
  import opened WeatherUrl
  import opened Weather
  import opened Crypto
  import opened News
  import opened Streams
  import opened Preferences

  /** An open socket connection; `Close` ends it. */
  class SocketHandle {
    const url: string
    var closed: bool

    constructor Open(url: string)
      ensures this.url == url && !closed
    {
      this.url := url;
      closed := false;
    }

    method Close()
      modifies this
      ensures closed
    {
      closed := true;
    }
  }

  /** The browser's key/value storage, shared by every store instance in the page. */
  class KeyValueStorage {
    var items: map<string, Favorites>

    constructor (items: map<string, Favorites>)
      ensures this.items == items
    {
      this.items := items;
    }
  }

  class AppStore {
    /** The API key put into weather request URLs. */
    const weatherKey: string
    /** Whether a browser window exists; outside one, nothing is read from or written to storage. */
    const inBrowser: bool
    const storage: KeyValueStorage

    var weatherData: map<string, WeatherRecord>
    var cryptoData: map<string, Coin>
    var newsData: seq<Article>
    var livePrices: map<string, string>
    var tradeData: map<string, TradeRecord>
    var priceSocket: SocketHandle?
    var tradeSocket: SocketHandle?
    var favorites: Favorites

    /** The initial state: every collection empty, no sockets, favourites loaded from storage. */
    constructor (weatherKey: string, inBrowser: bool, storage: KeyValueStorage)
      ensures this.weatherKey == weatherKey && this.inBrowser == inBrowser && this.storage == storage
      ensures weatherData == map[] && cryptoData == map[] && newsData == []
      ensures livePrices == map[] && tradeData == map[]
      ensures priceSocket == null && tradeSocket == null
      ensures favorites == LoadFavorites(inBrowser, storage.items)
    {
      this.weatherKey := weatherKey;
      this.inBrowser := inBrowser;
      this.storage := storage;
      weatherData := map[];
      cryptoData := map[];
      newsData := [];
      livePrices := map[];
      tradeData := map[];
      priceSocket := null;
      tradeSocket := null;
      favorites := LoadFavorites(inBrowser, storage.items);
    }

    /**
     * `fetchWeather(city, days, dt, hour)`: returns the URL requested; `response` is what
     * that request gave. On success only `city`'s record is replaced; on failure nothing changes.
     */
    method FetchWeather(city: string, days: int, dt: Option<string>, hour: Option<int>,
                        response: Outcome<ForecastResponse>) returns (url: string)
      modifies this`weatherData
      ensures url == ForecastUrl(weatherKey, city, days, dt, hour)
      ensures response.Ok? ==> weatherData == old(weatherData)[city := RecordOf(response.value)]
      ensures response.Failed? ==> weatherData == old(weatherData)
      ensures weatherData.Keys == old(weatherData).Keys + (if response.Ok? then {city} else {})
      ensures forall c :: c in old(weatherData) && c != city ==> weatherData[c] == old(weatherData)[c]
    {
      url := ForecastUrl(weatherKey, city, days, dt, hour);
      match response
      case Ok(res) =>
        weatherData := weatherData[city := RecordOf(res)];
      case Failed(_) =>
    }

    /**
     * `fetchCrypto()`: on success the whole map is replaced by the response indexed by id,
     * so an id absent from the response is gone; on failure nothing changes.
     */
    method FetchCrypto(response: Outcome<seq<Coin>>)
      modifies this`cryptoData
      ensures response.Ok? ==> cryptoData == ById(response.value)
      ensures response.Ok? ==> cryptoData.Keys == Ids(response.value)
      ensures response.Failed? ==> cryptoData == old(cryptoData)
    {
      match response
      case Ok(coins) =>
        cryptoData := IndexById(coins);
      case Failed(_) =>
    }

    /** `fetchNews()`: on success the list becomes the first five results; on failure nothing changes. */
    method FetchNews(response: Outcome<seq<Article>>)
      modifies this`newsData
      ensures response.Ok? ==> newsData == Headlines(response.value)
      ensures response.Ok? ==> |newsData| <= Cap && newsData <= response.value
      ensures response.Failed? ==> newsData == old(newsData)
    {
      match response
      case Ok(results) =>
        newsData := Headlines(results);
      case Failed(_) =>
    }

    /**
     * `startCryptoWebSocket()`: opens the price and trade feeds and keeps their handles.
     * Handles kept from an earlier call are replaced without being closed.
     */
    method StartCryptoWebSocket()
      modifies this`priceSocket, this`tradeSocket
      ensures priceSocket != null && fresh(priceSocket) && priceSocket.url == PriceFeedUrl && !priceSocket.closed
      ensures tradeSocket != null && fresh(tradeSocket) && tradeSocket.url == TradeFeedUrl && !tradeSocket.closed
    {
      priceSocket := new SocketHandle.Open(PriceFeedUrl);
      tradeSocket := new SocketHandle.Open(TradeFeedUrl);
    }

    /** The price feed's message handler: a partial merge into `livePrices`. */
    method OnPriceMessage(msg: PriceMessage)
      modifies this`livePrices
      ensures livePrices == MergePrices(old(livePrices), msg)
      ensures old(livePrices).Keys <= livePrices.Keys
    {
      livePrices := MergePrices(livePrices, msg);
    }

    /** The trade feed's message handler: overwrites the record of the trade's base asset. */
    method OnTradeMessage(msg: TradeMessage)
      modifies this`tradeData
      ensures tradeData == ApplyTrade(old(tradeData), msg)
    {
      tradeData := ApplyTrade(tradeData, msg);
    }

    /** The sockets currently held. */
    function Handles(): set<SocketHandle>
      reads this
    {
      (if priceSocket == null then {} else {priceSocket})
      + (if tradeSocket == null then {} else {tradeSocket})
    }

    /**
     * `closeCryptoWebSocket()`: closes whichever handles are held and clears both.
     * With no handles held it only clears them, so it is safe to call at any time.
     */
    method CloseCryptoWebSocket()
      modifies this`priceSocket, this`tradeSocket, Handles()
      ensures priceSocket == null && tradeSocket == null
      ensures old(priceSocket) != null ==> old(priceSocket).closed
      ensures old(tradeSocket) != null ==> old(tradeSocket).closed
    {
      if priceSocket != null {
        priceSocket.Close();
      }
      if tradeSocket != null {
        tradeSocket.Close();
      }
      priceSocket := null;
      tradeSocket := null;
    }

    /**
     * `addFavorite(kind, item)`: the list becomes its distinct elements followed by `item`
     * (if new); the other list is kept; in a browser the result is written to storage.
     */
    method AddFavorite(kind: Kind, item: string)
      modifies this`favorites, storage`items
      ensures favorites == old(favorites).Put(kind, Added(old(favorites).Get(kind), item))
      ensures forall other :: other != kind ==> favorites.Get(other) == old(favorites).Get(other)
      ensures inBrowser ==> storage.items == old(storage.items)[StorageKey := favorites]
      ensures !inBrowser ==> storage.items == old(storage.items)
      ensures inBrowser ==> LoadFavorites(inBrowser, storage.items) == favorites
    {
      favorites := favorites.Put(kind, Added(favorites.Get(kind), item));
      if inBrowser {
        storage.items := storage.items[StorageKey := favorites];
        SaveThenLoad(old(storage.items), favorites);
      }
    }

    /**
     * `removeFavorite(kind, item)`: every occurrence of `item` leaves the list, the rest
     * keep their order; the other list is kept; in a browser the result is written to storage.
     */
    method RemoveFavorite(kind: Kind, item: string)
      modifies this`favorites, storage`items
      ensures favorites == old(favorites).Put(kind, Without(old(favorites).Get(kind), item))
      ensures item !in favorites.Get(kind)
      ensures forall other :: other != kind ==> favorites.Get(other) == old(favorites).Get(other)
      ensures inBrowser ==> storage.items == old(storage.items)[StorageKey := favorites]
      ensures !inBrowser ==> storage.items == old(storage.items)
      ensures inBrowser ==> LoadFavorites(inBrowser, storage.items) == favorites
    {
      favorites := favorites.Put(kind, Without(favorites.Get(kind), item));
      if inBrowser {
        storage.items := storage.items[StorageKey := favorites];
        SaveThenLoad(old(storage.items), favorites);
      }
    }
  }
}
