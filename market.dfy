/** The fixed list of markets a search can be restricted to. */
module Markets {
  import opened Text

  datatype Market = Market(country: string, code: string) {

    /** `Identifiable` conformance: a market is identified by its code. */
    function Id(): (r: string)
      ensures r == code
    {
      code
    }
  }

  /** `Market.knownMarkets`, a `static let`: no operation can change it. */
  const KnownMarkets: seq<Market> := [
    Market("United States", "US"),
    Market("Canada", "CA"),
    Market("United Kingdom", "GB"),
    Market("Australia", "AU"),
    Market("Spain", "ES"),
    Market("Germany", "DE"),
    Market("France", "FR")
  ]

  /** The market both search screens start with. */
  const DefaultMarket: string := "US"

  /** An ISO 3166-1 alpha-2 code: two capital letters. */
  predicate IsAlpha2(code: string) {
    |code| == 2 && IsUpper(code[0]) && IsUpper(code[1])
  }

  lemma KnownMarketsFacts()
    ensures |KnownMarkets| == 7
    ensures forall i :: 0 <= i < |KnownMarkets| ==> IsAlpha2(KnownMarkets[i].code)
    ensures forall i, j :: 0 <= i < |KnownMarkets| && 0 <= j < |KnownMarkets| && KnownMarkets[i].Id() == KnownMarkets[j].Id() ==> i == j
    ensures KnownMarkets[0].Id() == DefaultMarket
  {
  }
}
