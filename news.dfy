/** News articles and the cap the news fetch applies. */
module News {

  /** How many articles the store keeps from a response. */
  const Cap := 5

  /** One entry of the provider's `results` list. */
  datatype Article = Article(title: string, description: string, link: string, pubDate: string)

  /** `results.slice(0, 5)`: the first five articles, or all of them when there are fewer. */
  function Headlines(results: seq<Article>): (r: seq<Article>)
    ensures |r| == if |results| < Cap then |results| else Cap
    ensures r <= results
  {
    if |results| <= Cap then results else results[..Cap]
  }
}
