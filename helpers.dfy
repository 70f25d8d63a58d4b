/** The page's record of contract data and the two display helpers that turn
    possibly-missing fields into text (app/page.tsx, section 1), with the
    entry fee from app/lib/contract.ts. */
module Helpers {
  import opened JsValues

  /** `ENTRY_FEE`: 0.01 ether in wei. */
  const ENTRY_FEE: int := 10_000_000_000_000_000

  /** `ContractData`: the six values one refresh reads from the contract. */
  datatype ContractData = ContractData(
    currentRound: int,
    playersCount: int,
    owner: string,
    lotteryState: int,
    recentWinner: string,
    hasEntered: bool)

  /** The placeholder shown for a missing number. */
  const DASH: string := "\U{2014}"

  const OPEN_TEXT: string := "\U{2705} OPEN"
  const CLOSED_TEXT: string := "\U{26D4} CLOSED"
  const LOADING_STATE_TEXT: string := "\U{2014} Loading State \U{2014}"

  /** `displayBigInt`: the decimal text of a present value, the dash for a missing one. */
  function DisplayBigInt(value: Option<int>): (r: string)
    ensures r == DASH <==> value.None?
    ensures value.Some? ==> ParseDecimal(r) == Some(value.value)
  {
    match value
    case None => DASH
    case Some(v) =>
      IntToDecimalRoundTrip(v);
      var text := IntToDecimal(v);
      assert text[0] != DASH[0];
      text
  }

  /** `getLotteryStateString`: 0 reads as open, 1 as closed, anything else (or nothing yet) as loading. */
  function GetLotteryStateString(state: Option<int>): (r: string)
    ensures r == OPEN_TEXT <==> state == Some(0)
    ensures r == CLOSED_TEXT <==> state == Some(1)
    ensures r == LOADING_STATE_TEXT <==> state != Some(0) && state != Some(1)
  {
    if state == Some(0) then OPEN_TEXT
    else if state == Some(1) then CLOSED_TEXT
    else LOADING_STATE_TEXT
  }
}
