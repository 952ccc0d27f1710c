/** `utils/helper.ts`: display helpers for coin names and order sides. */
module Helper {

  /**
    `resolveCoinName`: the display name configured for an API coin name, when
    one is configured and non-empty (an empty name is falsy), else the API name
    itself. src/config/constants.ts defines no `COIN_NAME_MAP`, so the name
    table is a parameter.
   */
  function ResolveCoinName(coinNames: map<string, string>, apiCoinName: string): (r: string)
    ensures apiCoinName in coinNames && coinNames[apiCoinName] != "" ==> r == coinNames[apiCoinName]
    ensures apiCoinName !in coinNames || coinNames[apiCoinName] == "" ==> r == apiCoinName
  {
    if apiCoinName in coinNames && coinNames[apiCoinName] != "" then coinNames[apiCoinName] else apiCoinName
  }

  /** The name shown is empty only when the API name is empty and no non-empty name is configured for it. */
  lemma ResolvedNameEmpty(coinNames: map<string, string>, apiCoinName: string)
    ensures ResolveCoinName(coinNames, apiCoinName) == "" <==> apiCoinName == "" && (apiCoinName !in coinNames || coinNames[apiCoinName] == "")
  {
  }

  /** `sortDirection`: the API side codes "A" and "B" read as "Buy" and "Sell"; anything else is shown as is. */
  function SortDirection(direction: string): (r: string)
    ensures direction == "A" ==> r == "Buy"
    ensures direction == "B" ==> r == "Sell"
    ensures direction != "A" && direction != "B" ==> r == direction
  {
    if direction == "A" then "Buy" else if direction == "B" then "Sell" else direction
  }

  /** A shown side is never a raw side code, so showing it again changes nothing. */
  lemma SortDirectionIdempotent(direction: string)
    ensures SortDirection(direction) != "A" && SortDirection(direction) != "B"
    ensures SortDirection(SortDirection(direction)) == SortDirection(direction)
  {
  }
}
