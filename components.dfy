/** The decisions the page's three button components make from their props
    (app/page.tsx, section 2): which text a button shows, whether it is
    disabled, and what a click does. Colours and layout are not modelled. */
module Components {
  import opened JsValues

  // ---------------------------------------------------------------------
  // ConnectButton
  // ---------------------------------------------------------------------

  datatype ConnectIntent = Connect | Disconnect

  datatype ConnectButtonView = ConnectButtonView(onClick: ConnectIntent, disabled: bool, text: string)

  const PENDING_TX: string := "Pending Tx..."
  const CONNECT_WALLET: string := "Connect Wallet"

  /** `${address?.slice(0, 6)}`: at most the first six characters, or the text "undefined" without an address. */
  function AddressPrefix(address: Option<string>): (r: string)
    ensures address.None? ==> r == "undefined"
    ensures address.Some? ==> r <= address.value && |r| == (if |address.value| < 6 then |address.value| else 6)
  {
    match address
    case None => "undefined"
    case Some(a) => if |a| <= 6 then a else a[..6]
  }

  /** `ConnectButton`: a click disconnects a connected wallet and connects otherwise;
      the button is disabled, and says so, exactly while a transaction is pending. */
  function ConnectButton(isConnected: bool, address: Option<string>, isLoadingTx: bool): (v: ConnectButtonView)
    ensures v.onClick == Disconnect <==> isConnected
    ensures v.disabled <==> isLoadingTx
    ensures v.text == PENDING_TX <==> isLoadingTx
    ensures v.text == CONNECT_WALLET <==> !isLoadingTx && !isConnected
    ensures !isLoadingTx && isConnected ==> v.text == "Wallet: " + AddressPrefix(address) + "..."
  {
    var text :=
      if isLoadingTx then PENDING_TX
      else if isConnected then "Wallet: " + AddressPrefix(address) + "..."
      else CONNECT_WALLET;
    assert !isLoadingTx && isConnected ==> text[0] == 'W';
    ConnectButtonView(if isConnected then Disconnect else Connect, isLoadingTx, text)
  }

  // ---------------------------------------------------------------------
  // LotteryActionCard
  // ---------------------------------------------------------------------

  const CONNECT_TO_ENTER: string := "Connect Wallet to Enter"
  const TICKET_PURCHASED: string := "Ticket Purchased (Max 1 Per Round)"
  const ENTER_LOTTERY: string := "Enter Lottery (0.01 ETH)"
  const LOTTERY_CLOSED: string := "Lottery is CLOSED"
  const LOADING: string := "Loading..."
  const JOIN_THE_DRAW: string := "Join the Draw"
  const WAITING_FOR_NEXT_ROUND: string := "Waiting for Next Round"

  /** What the entry card renders: its heading, the branch's button text, the text
      actually shown on the button, and whether the button is disabled. */
  datatype EnterCardView = EnterCardView(heading: string, text: string, shown: string, disabled: bool)

  /** `hasEntered` is `boolean | undefined`; only `true` is truthy. */
  predicate Entered(hasEntered: Option<bool>) {
    hasEntered == Some(true)
  }

  /** `LotteryActionCard` as written. The disabled value first computed from both
      loading flags is overwritten in every branch of the if/else chain, so the
      branch alone decides it: the button is disabled exactly when a connected
      wallet has already entered or the round is not open. The text follows the
      precedence not connected, already entered, open, closed; the button shows
      the loading text instead whenever either loading flag is set. */
  function LotteryActionCard(isLotteryOpen: bool, isConnected: bool, hasEntered: Option<bool>,
                             isLoadingTx: bool, isLoadingData: bool): (v: EnterCardView)
    ensures v.disabled <==> isConnected && (Entered(hasEntered) || !isLotteryOpen)
    ensures v.text == CONNECT_TO_ENTER <==> !isConnected
    ensures v.text == TICKET_PURCHASED <==> isConnected && Entered(hasEntered)
    ensures v.text == ENTER_LOTTERY <==> isConnected && !Entered(hasEntered) && isLotteryOpen
    ensures v.text == LOTTERY_CLOSED <==> isConnected && !Entered(hasEntered) && !isLotteryOpen
    ensures v.shown == LOADING <==> isLoadingTx || isLoadingData
    ensures !(isLoadingTx || isLoadingData) ==> v.shown == v.text
    ensures v.heading == JOIN_THE_DRAW <==> isLotteryOpen
  {
    var (text, disabled) :=
      if !isConnected then (CONNECT_TO_ENTER, false)
      else if Entered(hasEntered) then (TICKET_PURCHASED, true)
      else if isLotteryOpen then (ENTER_LOTTERY, false)
      else (LOTTERY_CLOSED, true);
    EnterCardView(
      if isLotteryOpen then JOIN_THE_DRAW else WAITING_FOR_NEXT_ROUND,
      text,
      if isLoadingTx || isLoadingData then LOADING else text,
      disabled)
  }

  /** The entry button stays clickable while a transaction is pending: a connected
      wallet that has not entered an open round can press "Loading..." again. */
  lemma EnterClickableWhileTxPending()
    ensures var v := LotteryActionCard(true, true, Some(false), true, false);
            v.shown == LOADING && !v.disabled && v.text == ENTER_LOTTERY
  {
  }

  /** The card with the loading flags honoured, as the initial value of `isDisabled`
      intends: never clickable while it shows the loading text, otherwise the same
      card as written. An entry can then be submitted exactly when a connected wallet
      that has not entered sees an open round and nothing is loading. */
  function GuardedLotteryActionCard(isLotteryOpen: bool, isConnected: bool, hasEntered: Option<bool>,
                                    isLoadingTx: bool, isLoadingData: bool): (v: EnterCardView)
    ensures v.shown == LOADING ==> v.disabled
    ensures !(isLoadingTx || isLoadingData) ==>
              v == LotteryActionCard(isLotteryOpen, isConnected, hasEntered, isLoadingTx, isLoadingData)
    ensures !v.disabled && v.text == ENTER_LOTTERY <==>
              isConnected && isLotteryOpen && !Entered(hasEntered) && !isLoadingTx && !isLoadingData
  {
    var v := LotteryActionCard(isLotteryOpen, isConnected, hasEntered, isLoadingTx, isLoadingData);
    v.(disabled := v.disabled || isLoadingTx || isLoadingData)
  }

  // ---------------------------------------------------------------------
  // OwnerControlsCard
  // ---------------------------------------------------------------------

  const START_NEW_LOTTERY: string := "Start New Lottery"
  const LOTTERY_IS_OPEN: string := "Lottery is OPEN"
  const END_AND_PICK_WINNER: string := "End Lottery & Pick Winner"

  datatype OwnerControlsView = OwnerControlsView(startLabel: string, startDisabled: bool,
                                                 endLabel: string, endDisabled: bool)

  /** `OwnerControlsCard`: "start" is usable only for a closed round and "end" only for
      an open one, and neither while a transaction is pending. */
  function OwnerControlsCard(isLoadingTx: bool, isLotteryOpen: bool, isLotteryClosed: bool): (v: OwnerControlsView)
    ensures !v.startDisabled <==> !isLoadingTx && isLotteryClosed
    ensures !v.endDisabled <==> !isLoadingTx && isLotteryOpen
    ensures v.startLabel == START_NEW_LOTTERY <==> isLotteryClosed
    ensures v.endLabel == END_AND_PICK_WINNER <==> isLotteryOpen
  {
    OwnerControlsView(
      if isLotteryClosed then START_NEW_LOTTERY else LOTTERY_IS_OPEN, isLoadingTx || !isLotteryClosed,
      if isLotteryOpen then END_AND_PICK_WINNER else LOTTERY_CLOSED, isLoadingTx || !isLotteryOpen)
  }

  /** When the round is not both open and closed, at most one owner control is usable,
      and none while a transaction is pending. */
  lemma OwnerControlsExclusive(isLoadingTx: bool, isLotteryOpen: bool, isLotteryClosed: bool)
    requires !(isLotteryOpen && isLotteryClosed)
    ensures var v := OwnerControlsCard(isLoadingTx, isLotteryOpen, isLotteryClosed);
            (v.startDisabled || v.endDisabled) && (isLoadingTx ==> v.startDisabled && v.endDisabled)
  {
  }
}
