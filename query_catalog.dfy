/**
 * The query catalog of the SQL runner page: an immutable two-level map from a
 * topic to a query label to the SQL text to run, and its lookup
 * `query_map[cat][selected_q]`, which fails when either key is absent.
 *
 * The SQL text is opaque: the model only stores and returns it.
 */
module QueryCatalog {
  import opened Wrappers

  /** Why a lookup failed: the topic is unknown, or the topic is known but
      has no query with that label. */
  datatype CatalogError =
    | UnknownCategory(category: string)
    | UnknownQuery(category: string, query: string)

  /** The topics offered by the first selector, in display order. */
  const Topics: seq<string> :=
    ["1. Crypto Attributes", "2. Daily Trends", "3. Oil Analysis", "4. Stock Indices", "5. Join Queries"]

  const CryptoAttributes: map<string, string> := map[
    "Q1: Top 3 by Market Cap" := "SELECT name, symbol, market_cap AS Market_Cap_INR FROM cryptocurrencies ORDER BY market_cap DESC LIMIT 3",
    "Q2: Supply > 90%" := "SELECT name, symbol FROM cryptocurrencies WHERE (circulating_supply / total_supply) > 0.9",
    "Q3: Within 10% of ATH" := "SELECT name, current_price AS Price_INR FROM cryptocurrencies WHERE current_price >= (ath * 0.9)",
    "Q4: Avg Rank (Vol > $1B)" := "SELECT AVG(market_cap_rank) AS Avg_Rank FROM cryptocurrencies WHERE total_volume > 1000000000",
    "Q5: High Value Assets" := "SELECT name, current_price AS Price_INR FROM cryptocurrencies WHERE current_price > 1000",
    "Q6: Most Recent Entry" := "SELECT name, symbol FROM cryptocurrencies ORDER BY id DESC LIMIT 1"
  ]

  const DailyTrends: map<string, string> := map[
    "Q7: Highest BTC (INR)" := "SELECT MAX(price_usd) AS Peak_Price_INR FROM crypto_prices WHERE coin_id='bitcoin'",
    "Q8: ETH Average (INR)" := "SELECT AVG(price_usd) AS Avg_Price_INR FROM crypto_prices WHERE coin_id='ethereum'",
    "Q9: BTC Jan 2025 Trend" := "SELECT date, price_usd AS Price_INR FROM crypto_prices WHERE coin_id='bitcoin' AND date LIKE '2025-01%'",
    "Q10: BTC % Price Change" := "SELECT (MAX(price_usd)-MIN(price_usd))/MIN(price_usd)*100 AS Pct_Change FROM crypto_prices WHERE coin_id='bitcoin'",
    "Q11: Price Extremes (INR)" := "SELECT coin_id, MIN(price_usd) AS Min_Price_INR, MAX(price_usd) AS Max_Price_INR FROM crypto_prices GROUP BY coin_id",
    "Q12: Lowest Historical BTC" := "SELECT MIN(price_usd) AS Hist_Low_INR FROM crypto_prices WHERE coin_id='bitcoin'"
  ]

  const OilAnalysis: map<string, string> := map[
    "Q13: Highest Oil Peak" := "SELECT MAX(price_usd) AS Peak_Oil_INR FROM oil_prices",
    "Q14: Avg Oil Yearly" := "SELECT YEAR(date) AS Year, AVG(price_usd) AS Avg_Oil_INR FROM oil_prices GROUP BY Year",
    "Q15: 2020 Crash Trend" := "SELECT date, price_usd AS Price_INR FROM oil_prices WHERE date BETWEEN '2020-03-01' AND '2020-04-30'",
    "Q16: Yearly Price Range" := "SELECT YEAR(date) AS Year, (MAX(price_usd)-MIN(price_usd)) AS Range_INR FROM oil_prices GROUP BY Year",
    "Q17: Days Above $80" := "SELECT COUNT(*) AS High_Price_Days FROM oil_prices WHERE price_usd > 80",
    "Q18: Q1 2025 Average" := "SELECT AVG(price_usd) AS Q1_Avg_INR FROM oil_prices WHERE date BETWEEN '2025-01-01' AND '2025-03-31'"
  ]

  const StockIndices: map<string, string> := map[
    "Q19: NASDAQ Peak (INR)" := "SELECT MAX(close) AS Peak_INR FROM stock_prices WHERE ticker='^IXIC'",
    "Q20: Top 5 Volatility (S&P)" := "SELECT date, (high-low) AS Swing_INR FROM stock_prices WHERE ticker='^GSPC' ORDER BY Swing_INR DESC LIMIT 5",
    "Q21: Nifty Avg Vol 2024" := "SELECT AVG(volume) AS Avg_Vol FROM stock_prices WHERE ticker='^NSEI' AND YEAR(date)=2024",
    "Q22: Monthly Index Price" := "SELECT ticker, MONTH(date) as Month, AVG(close) AS Avg_Close_INR FROM stock_prices GROUP BY ticker, Month",
    "Q23: S&P Row Count" := "SELECT COUNT(*) FROM stock_prices WHERE ticker='^GSPC'",
    "Q24: Index Historical Lows" := "SELECT ticker, MIN(low) AS Low_Price_INR FROM stock_prices GROUP BY ticker"
  ]

  const JoinQueries: map<string, string> := map[
    "Q25: BTC vs Oil (2025)" := "SELECT AVG(c.price_usd) AS BTC_INR, AVG(o.price_usd) AS Oil_INR FROM crypto_prices c JOIN oil_prices o ON c.date=o.date WHERE YEAR(c.date)=2025",
    "Q26: BTC vs Nifty (Synced)" := "SELECT c.date, c.price_usd AS BTC_INR, s.close AS Nifty_INR FROM crypto_prices c JOIN stock_prices s ON c.date=s.date WHERE c.coin_id='bitcoin' AND s.ticker='^NSEI' ORDER BY c.date DESC LIMIT 10",
    "Q27: Multi-Join Snapshot" := "SELECT c.date AS Entry_Date, c.price_usd AS BTC_Price_INR, o.price_usd AS Oil_Price_INR, s.close AS Stock_Price_INR FROM crypto_prices c JOIN oil_prices o ON c.date=o.date JOIN stock_prices s ON s.date=c.date LIMIT 10",
    "Q28: Oil Influence on Nifty" := "SELECT o.date, o.price_usd AS Oil_Price_INR, s.close AS Nifty_Price_INR FROM oil_prices o JOIN stock_prices s ON o.date=s.date WHERE o.price_usd > 90 LIMIT 5",
    "Q29: BTC vs NASDAQ Correlation" := "SELECT c.date, c.price_usd AS BTC_Price_INR, s.close AS NASDAQ_Price_INR FROM crypto_prices c JOIN stock_prices s ON c.date=s.date WHERE s.ticker='^IXIC' LIMIT 5",
    "Q30: Global Market Extremes" := "SELECT MIN(c.price_usd) AS Min_BTC_INR, MAX(s.close) AS Max_Stock_INR FROM crypto_prices c JOIN stock_prices s ON c.date=s.date"
  ]

  /** `query_map`: topic to query label to SQL text. */
  const QueryMap: map<string, map<string, string>> := map[
    "1. Crypto Attributes" := CryptoAttributes,
    "2. Daily Trends" := DailyTrends,
    "3. Oil Analysis" := OilAnalysis,
    "4. Stock Indices" := StockIndices,
    "5. Join Queries" := JoinQueries
  ]

  /** `query_map[cat][selected_q]`, with each `KeyError` made an explicit
      error. Succeeds exactly when both keys are present, and then returns the
      catalog's text; otherwise says which key was missing. */
  function Resolve(cat: string, query: string): (r: Result<string, CatalogError>)
    ensures r.Ok? <==> cat in QueryMap && query in QueryMap[cat]
    ensures r.Ok? ==> r.value == QueryMap[cat][query]
    ensures r == Err(UnknownCategory(cat)) <==> cat !in QueryMap
    ensures r == Err(UnknownQuery(cat, query)) <==> cat in QueryMap && query !in QueryMap[cat]
  {
    if cat !in QueryMap then Err(UnknownCategory(cat))
    else if query !in QueryMap[cat] then Err(UnknownQuery(cat, query))
    else Ok(QueryMap[cat][query])
  }

  // ---------------------------------------------------------------------------
  // Properties of the catalog
  // ---------------------------------------------------------------------------

  /** The topic selector offers exactly the catalog's five topics, each once. */
  lemma TopicsMatchCatalog()
    ensures |Topics| == 5
    ensures forall a, b :: 0 <= a < b < |Topics| ==> Topics[a] != Topics[b]
    ensures forall cat :: cat in Topics <==> cat in QueryMap
  {
  }

  /** A topic as the catalog writes it: six queries, none with empty text. */
  predicate WellFormedTopic(m: map<string, string>) {
    |m| == 6 && forall q :: q in m ==> |m[q]| > 0
  }

  lemma CryptoAttributesWellFormed() ensures WellFormedTopic(CryptoAttributes) {}
  lemma DailyTrendsWellFormed() ensures WellFormedTopic(DailyTrends) {}
  lemma OilAnalysisWellFormed() ensures WellFormedTopic(OilAnalysis) {}
  lemma StockIndicesWellFormed() ensures WellFormedTopic(StockIndices) {}
  lemma JoinQueriesWellFormed() ensures WellFormedTopic(JoinQueries) {}

  /** The catalog's keys are the five topic names. */
  lemma TopicKeys()
    ensures QueryMap.Keys == {"1. Crypto Attributes", "2. Daily Trends", "3. Oil Analysis", "4. Stock Indices", "5. Join Queries"}
  {
  }

  lemma TopicCount()
    ensures |QueryMap| == 5
  {
    TopicKeys();
    assert |{"1. Crypto Attributes", "2. Daily Trends", "3. Oil Analysis", "4. Stock Indices", "5. Join Queries"}| == 5;
    assert |QueryMap| == |QueryMap.Keys|;
  }

  /** Each topic of the catalog is one of the five topic maps. */
  lemma CatalogTopics(cat: string)
    requires cat in QueryMap
    ensures QueryMap[cat] in [CryptoAttributes, DailyTrends, OilAnalysis, StockIndices, JoinQueries]
  {
  }

  /** Every topic of the catalog holds six queries with non-empty text. */
  lemma TopicsWellFormed()
    ensures forall cat :: cat in QueryMap ==> WellFormedTopic(QueryMap[cat])
  {
    CryptoAttributesWellFormed();
    DailyTrendsWellFormed();
    OilAnalysisWellFormed();
    StockIndicesWellFormed();
    JoinQueriesWellFormed();
    forall cat | cat in QueryMap
      ensures WellFormedTopic(QueryMap[cat])
    {
      CatalogTopics(cat);
    }
  }

  /** The catalog has five topics of six queries each, and no query text is
      empty. */
  lemma CatalogShape()
    ensures |QueryMap| == 5
    ensures forall cat :: cat in QueryMap ==> |QueryMap[cat]| == 6
    ensures forall cat, query :: cat in QueryMap && query in QueryMap[cat] ==> |QueryMap[cat][query]| > 0
  {
    TopicCount();
    TopicsWellFormed();
  }

  /** Every choice the two selectors can make resolves, to a non-empty text:
      the lookup on the page never raises. */
  lemma MenuSelectionsResolve(cat: string, query: string)
    requires cat in Topics && query in QueryMap[cat]
    ensures Resolve(cat, query).Ok? && |Resolve(cat, query).value| > 0
  {
    CatalogShape();
  }

  /** A resolved query is never the empty string. */
  lemma ResolvedTextNonEmpty(cat: string, query: string)
    requires Resolve(cat, query).Ok?
    ensures |Resolve(cat, query).value| > 0
  {
    CatalogShape();
  }

  /** Resolving topic 3, query 13 gives the oil-peak aggregate. */
  lemma ExampleOilPeak()
    ensures Resolve("3. Oil Analysis", "Q13: Highest Oil Peak") == Ok("SELECT MAX(price_usd) AS Peak_Oil_INR FROM oil_prices")
  {
  }

  /** An unknown topic fails as such, whatever the query. */
  lemma ExampleBogusCategory()
    ensures Resolve("bogus", "Q13: Highest Oil Peak") == Err(UnknownCategory("bogus"))
  {
  }

  /** A query of another topic is unknown in this one. */
  lemma ExampleLabelOfOtherTopic()
    ensures Resolve("1. Crypto Attributes", "Q13: Highest Oil Peak") == Err(UnknownQuery("1. Crypto Attributes", "Q13: Highest Oil Peak"))
  {
  }
}
