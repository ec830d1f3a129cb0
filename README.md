# Crypto-weather dashboard store, modelled in Dafny

This project models the client-side state store of a dashboard that shows weather
forecasts, cryptocurrency market data and news, with live price and trade feeds and a
persisted favourites list. The store (`app/store/store.js`) owns six pieces of state:
`weatherData` (per-city forecast records), `cryptoData` (market snapshots by coin id),
`newsData` (at most five articles), `livePrices` (streamed prices by asset id),
`tradeData` (the last trade per base asset) and `favorites` (a list of cities and a list
of coins). It also holds two socket handles. Every change to that state goes through one
of the store's operations. The model has one Dafny method per operation, on the class
`Store.AppStore`.

The store's I/O becomes parameters:

- each HTTP request's result is an `Outcome`: the decoded body, or a failure. A failure
  covers a network error and a body whose shape makes the code throw, since the code
  catches both the same way;
- each socket message arrives as an already-decoded value;
- the browser's `localStorage` is a `KeyValueStorage` object whose `items` map a key to a
  favourites value. It is shared between store instances, so a second store built on the
  same storage sees what the first one saved.

Pure steps are functions with contracts and lemmas:

- `Decimal`: the decimal text of numbers in the URL;
- `WeatherUrl`: building the forecast URL;
- `Weather`: the `map` normalisation of forecast days and hours;
- `Crypto`: the `reduce` into an id-keyed map. It is specified by a function, and the
  method that accumulates key by key is proved equal to it;
- `News`: the five-article cap;
- `Streams`: the two stream merges;
- `Preferences`: the `Set`-based deduplication, the `filter` removal and `loadFavorites`.

Files: `wrappers.dfy`, `decimal.dfy`, `weather_url.dfy`, `weather.dfy`, `crypto.dfy`,
`news.dfy`, `streams.dfy`, `favorites.dfy`, `store.dfy`.

Where a written description of the dashboard and the code disagree, the model follows the code:

- A stored favourites value that is not valid JSON makes `loadFavorites` throw; the code
  has no fallback to empty lists (store.js:15).
- Favourites are ordered lists, not sets. Adding an item also drops any duplicates already
  in the loaded list. Removing an item does not.
- `cryptoData` holds whatever ids the response contains. The requested id list
  (`Crypto.RequestedIds`) is not enforced.
- Calling `startCryptoWebSocket` again replaces the stored handles without closing the old sockets.

## Model

| member | source | states |
|---|---|---|
| Decimal.ParseNatToString | app/store/store.js:28 | the decimal text of a number written into the URL reads back as the same number |
| WeatherUrl.ForecastUrl | app/store/store.js:28-35 | the URL always starts with the endpoint, key, `q=<city>`, `days=<n>` and `aqi=yes`, in that order |
| WeatherUrl.ForecastUrlIsQuery | app/store/store.js:28-35 | the concatenated URL equals the endpoint followed by `?` and the weather parameter list joined with `&` |
| WeatherUrl.ForecastParamsCarry | app/store/store.js:28-35 | the request carries `q`, `days` and `aqi=yes`; it carries `dt` exactly when the date is truthy and `hour` exactly when the hour is truthy, each with its value |
| WeatherUrl.HourZeroOmitted | app/store/store.js:33-35 | hour 0 is falsy, so asking for it gives the same URL as giving no hour |
| WeatherUrl.EmptyDateOmitted | app/store/store.js:30-32 | an empty date string is falsy and is omitted like a missing date |
| Weather.HourlySeries | app/store/store.js:67-74 | one hourly point per provider hour entry, each the normalised form of the entry at the same position |
| Weather.ForecastOf | app/store/store.js:59-75 | one forecast entry per provider `forecastday`, each the normalised form of the day at the same position |
| Weather.RecordOf | app/store/store.js:40-84 | the city record has exactly one current-conditions summary (the provider's text and icon) and one forecast entry per day, in order, with its date; each entry has one hourly point per provider hour, in order, with its time |
| Crypto.ById | app/store/store.js:100-103 | the keys of the built map are exactly the ids in the response, and each key holds a coin of the response with that id |
| Crypto.ByIdLaterWins | app/store/store.js:100-103 | for an id repeated in the response, the map keeps the last coin with that id |
| Crypto.IndexById | app/store/store.js:100-103 | the key-by-key accumulation over the response yields exactly the map specified by `ById` |
| News.Headlines | app/store/store.js:117 | the kept list is a prefix of the results, of length min(5, number of results) |
| Streams.MergePrices | app/store/store.js:133 | after a price message, its keys hold the message's values, every other key keeps its old value, and no key is lost |
| Streams.ApplyTrade | app/store/store.js:140-150 | a trade message sets only its base asset's record to `{priceUsd, volume, direction, timestamp}` and leaves every other asset unchanged |
| Streams.LaterTradeWins | app/store/store.js:140-150 | trade records are overwritten, not accumulated: after two messages for one asset, the record is that of the second |
| Preferences.Favorites.Put | app/store/store.js:173-176 | replacing one kind's list leaves the other kind's list unchanged |
| Preferences.Distinct | app/store/store.js:175 | deduplication through a `Set` yields a list without duplicates that has exactly the elements of the input |
| Preferences.DistinctFirstOccurrenceOrder | app/store/store.js:175 | the deduplicated list is ordered by first occurrence in the input |
| Preferences.DistinctOfNoDuplicates | app/store/store.js:175 | a list without duplicates comes back from deduplication unchanged |
| Preferences.Added | app/store/store.js:175 | the list after adding is the distinct elements of the old list, followed by the item when it was absent, with no duplicates |
| Preferences.AddedOnce | app/store/store.js:175 | the added item occurs exactly once |
| Preferences.AddedIdempotent | app/store/store.js:171-183 | adding the same item twice gives the same list as adding it once |
| Preferences.Without | app/store/store.js:188 | the removed item no longer occurs, and every other element keeps its number of occurrences |
| Preferences.WithoutConcat | app/store/store.js:188 | removal distributes over concatenation, so the remaining elements keep their relative order |
| Preferences.WithoutAbsent | app/store/store.js:188 | removing an item that is not in the list leaves the list unchanged |
| Preferences.AddThenRemove | app/store/store.js:171-196 | adding an absent item to a duplicate-free list and then removing it restores the original list |
| Preferences.LoadFavorites | app/store/store.js:12-18 | loading returns the stored value when the key is present in a browser, and two empty lists otherwise |
| Preferences.SaveThenLoad | app/store/store.js:14-15 | what is saved under `favorites` is what the next load returns |
| Store.AppStore.constructor | app/store/store.js:20-170 | the store starts with every collection empty, no socket handles, and favourites loaded from storage |
| Store.AppStore.FetchWeather | app/store/store.js:26-89 | returns the request URL; on success only `weatherData[city]` is replaced by the normalised record, other cities are untouched and no key is removed; on failure nothing changes |
| Store.AppStore.FetchCrypto | app/store/store.js:95-108 | on success `cryptoData` is replaced wholesale by the response indexed by id, so an id missing from the response is gone; on failure nothing changes |
| Store.AppStore.FetchNews | app/store/store.js:114-121 | on success `newsData` becomes the first min(5, n) results in provider order; on failure nothing changes |
| Store.AppStore.StartCryptoWebSocket | app/store/store.js:128-157 | both handles become newly opened sockets on the price and trade feed URLs |
| Store.AppStore.OnPriceMessage | app/store/store.js:131-134 | `livePrices` becomes the partial merge of the message into it; no key is removed |
| Store.AppStore.OnTradeMessage | app/store/store.js:138-151 | `tradeData` changes only at the trade's base asset |
| Store.AppStore.CloseCryptoWebSocket | app/store/store.js:158-165 | every held socket is closed and both handles end null; with no handles held it only clears them |
| Store.AppStore.AddFavorite | app/store/store.js:171-183 | the addressed list becomes `Added(old list, item)`, the other list is kept; in a browser exactly the new favourites are stored under `favorites`, so reloading returns them |
| Store.AppStore.RemoveFavorite | app/store/store.js:184-196 | the addressed list loses every occurrence of the item, the other list is kept; in a browser exactly the new favourites are stored under `favorites`, so reloading returns them |

## Left out

- HTTP requests (`axios.get`) are not modelled. Each operation receives the request's
  outcome as a parameter. The crypto and news request URLs are fixed apart from the news
  API key, and only the weather URL is built in the model.
- Socket connections: opening one is a fresh `SocketHandle`, and `close()` sets its
  `closed` flag. Delivery of messages, and whether messages still arrive after a close,
  are not modelled.
- JSON decoding is not modelled. Handlers receive decoded messages. A message that is not
  valid JSON makes the handler throw before any state change. Stored favourites are kept
  decoded, and serialising them is taken as exact.
- A corrupt stored favourites value makes `loadFavorites` throw. Storage here holds only
  well-formed values, so that path is not modelled.
- A response that decodes but lacks a plain number or string field does not fail in the
  code: the record stores `undefined` there. The model treats every response as either
  fully decoded or failed.
- Fields of a market snapshot beyond those in `Crypto.Coin` are passed through by the code
  and are not modelled.
- Asynchrony is not modelled: overlapping fetches, whose last response wins, and the
  periodic refresh timer and teardown in app/page.js. Each operation applies one response
  atomically.
- Numbers are modelled as `real`, or as `int` where the provider sends whole numbers.
  Streamed prices are kept as the text the feed sends. `days` and `hour` are whole numbers,
  so JavaScript's formatting of non-integral numbers and the falsiness of `NaN` are not modelled.
- The price-change flash, the random and threshold alerts in the components, rendering,
  toasts and logging do not touch the store's state and are not modelled.
