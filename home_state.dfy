/** The state the `Home` page keeps (app/page.tsx, section 3) as a value: the
    seven `useState` fields, the values derived from them on every render, the
    read and write handles, and one pure transition per handler. The class in
    module HomePage updates the same fields in place and is specified by these
    transitions. */
module HomeState {
  import opened JsValues
  import opened Helpers
  import opened Components

  /** The `useState` fields of `Home`. The provider and signer objects are
      modelled by whether they are present; `contractState` is either the initial
      empty record or one whole `ContractData`. */
  datatype PageState = PageState(
    provider: bool,
    signer: bool,
    address: Option<string>,
    isConnected: bool,
    isLoadingTx: bool,
    isLoadingData: bool,
    contractState: Option<ContractData>)

  /** The state of the first render: no wallet, data loading, no contract data.
      Nobody is the owner, nothing can be written or polled, and the entry button
      offers to connect a wallet while showing the loading text. */
  function Initial(): (r: PageState)
    ensures Coherent(r) && !HasWriteHandle(r) && !PollingActive(r) && !IsOwner(r)
    ensures ReadHandle(r) == StaticRpc(STATIC_RPC_URL)
    ensures !IsLotteryOpen(r) && !IsLotteryClosed(r)
    ensures EnterCard(r).text == CONNECT_TO_ENTER && EnterCard(r).shown == LOADING && !EnterCard(r).disabled
  {
    PageState(false, false, None, false, false, true, None)
  }

  /** The session fields move together: a provider, a signer, an address and the
      connected flag are all present or all absent. */
  predicate Coherent(s: PageState) {
    s.signer == s.provider && s.isConnected == s.provider && s.address.Some? == s.provider
  }

  // ---------------------------------------------------------------------
  // Derived values
  // ---------------------------------------------------------------------

  /** `isOwner`: a connected wallet whose address equals the non-empty owner field after lower-casing. */
  predicate IsOwner(s: PageState)
    ensures IsOwner(s) ==> s.isConnected && s.address.Some? && s.contractState.Some?
    ensures s.contractState.Some? && s.contractState.value.owner == "" ==> !IsOwner(s)
  {
    s.isConnected && s.contractState.Some? && s.contractState.value.owner != ""
    && s.address.Some? && Lower(s.address.value) == Lower(s.contractState.value.owner)
  }

  /** `contractState.lotteryState`, which is `undefined` until the first refresh. */
  function LotteryState(s: PageState): Option<int> {
    if s.contractState.Some? then Some(s.contractState.value.lotteryState) else None
  }

  /** `isLotteryOpen`: the contract reports state 0. */
  function IsLotteryOpen(s: PageState): (r: bool)
    ensures r ==> s.contractState.Some?
    ensures r <==> GetLotteryStateString(LotteryState(s)) == OPEN_TEXT
  {
    LotteryState(s) == Some(0)
  }

  /** `isLotteryClosed`: the contract reports state 1; never together with open. */
  function IsLotteryClosed(s: PageState): (r: bool)
    ensures r ==> s.contractState.Some? && !IsLotteryOpen(s)
    ensures r <==> GetLotteryStateString(LotteryState(s)) == CLOSED_TEXT
  {
    LotteryState(s) == Some(1)
  }

  /** Whether `isOwner` holds does not depend on the letter case of the wallet
      address or of the owner field: any re-casing of either, mixed case included,
      gives the same answer. */
  lemma IsOwnerIgnoresCase(s: PageState, t: string)
    ensures s.address.Some? && SameIgnoringCase(s.address.value, t) ==>
              IsOwner(s) == IsOwner(s.(address := Some(t)))
    ensures s.contractState.Some? && SameIgnoringCase(s.contractState.value.owner, t) ==>
              IsOwner(s) == IsOwner(s.(contractState := Some(s.contractState.value.(owner := t))))
  {
    if s.address.Some? && SameIgnoringCase(s.address.value, t) {
      LowerOfCaseVariant(s.address.value, t);
    }
    if s.contractState.Some? && SameIgnoringCase(s.contractState.value.owner, t) {
      LowerOfCaseVariant(s.contractState.value.owner, t);
    }
  }

  /** Without a connected wallet, or before any contract data, nobody is the owner
      and the owner controls are not shown. */
  lemma NoOwnerWithoutSessionOrData(s: PageState)
    requires !s.isConnected || s.contractState.None?
    ensures !IsOwner(s) && OwnerControls(s).None?
  {
  }

  /** The owner controls, rendered only for the owner (app/page.tsx:424-435). */
  function OwnerControls(s: PageState): (r: Option<OwnerControlsView>)
    ensures r.Some? <==> IsOwner(s)
    ensures r.Some? ==> (r.value.startDisabled || r.value.endDisabled)
    ensures r.Some? && s.isLoadingTx ==> r.value.startDisabled && r.value.endDisabled
  {
    if IsOwner(s) then
      OwnerControlsExclusive(s.isLoadingTx, IsLotteryOpen(s), IsLotteryClosed(s));
      Some(OwnerControlsCard(s.isLoadingTx, IsLotteryOpen(s), IsLotteryClosed(s)))
    else None
  }

  /** `contractState.hasEntered`, which is `undefined` until the first refresh. */
  function EnteredFlag(s: PageState): Option<bool> {
    if s.contractState.Some? then Some(s.contractState.value.hasEntered) else None
  }

  /** The entry card as the page renders it (app/page.tsx:413-420). A connected
      wallet sees "Lottery is CLOSED" on a disabled button until the first refresh
      arrives, and can submit an entry exactly when the data shows an open round it
      has not entered; the loading flags do not disable the button. */
  function EnterCard(s: PageState): (v: EnterCardView)
    ensures s.isConnected && s.contractState.None? ==> v.text == LOTTERY_CLOSED && v.disabled
    ensures !s.isConnected ==> v.text == CONNECT_TO_ENTER && !v.disabled
    ensures !v.disabled && v.text == ENTER_LOTTERY <==>
              s.isConnected && IsLotteryOpen(s) && !s.contractState.value.hasEntered
    ensures v.shown == LOADING <==> s.isLoadingTx || s.isLoadingData
  {
    LotteryActionCard(IsLotteryOpen(s), s.isConnected, EnteredFlag(s), s.isLoadingTx, s.isLoadingData)
  }

  // ---------------------------------------------------------------------
  // Contract handles and polling
  // ---------------------------------------------------------------------

  datatype ReadEndpoint = WalletProvider | StaticRpc(url: string)

  const STATIC_RPC_URL: string := "YOUR_STATIC_RPC_URL"

  /** `lotteryContractRead`: bound to the wallet's provider when there is one, else to the fixed public endpoint; never absent. */
  function ReadHandle(s: PageState): (e: ReadEndpoint)
    ensures e == WalletProvider <==> s.provider
    ensures e != WalletProvider ==> e == StaticRpc(STATIC_RPC_URL)
  {
    if s.provider then WalletProvider else StaticRpc(STATIC_RPC_URL)
  }

  /** `lotteryContractWrite` is present exactly when there is a signer, which in a
      coherent state is exactly when a wallet is connected. */
  predicate HasWriteHandle(s: PageState)
    ensures Coherent(s) ==> (HasWriteHandle(s) <==> s.isConnected && s.address.Some?)
  {
    s.signer
  }

  /** The polling effect refreshes (and keeps a timer) only while `address` is
      truthy: never without an address, nor with an empty one. */
  predicate PollingActive(s: PageState)
    ensures PollingActive(s) ==> s.address.Some? && s.address.value != ""
    ensures s.address.Some? && s.address.value != "" ==> PollingActive(s)
  {
    Truthy(s.address)
  }

  /** In a coherent state polling implies a connected wallet with a write handle. */
  lemma PollingNeedsSession(s: PageState)
    requires Coherent(s) && PollingActive(s)
    ensures s.isConnected && HasWriteHandle(s) && ReadHandle(s) == WalletProvider
  {
  }

  // ---------------------------------------------------------------------
  // Transactions
  // ---------------------------------------------------------------------

  /** The three `functionName`s the page dispatches. */
  datatype Action = Enter | StartLottery | EndLottery

  /** A call handed to the write handle: the function and the value it carries, if any. */
  datatype WriteCall = WriteCall(action: Action, attached: Option<int>)

  /** The call `executeWrite(functionName, value)` submits: `enter` carries `value || 0n`, the others carry nothing. */
  function Request(action: Action, value: Option<int>): (c: WriteCall)
    ensures c.action == action
    ensures c.attached.Some? <==> action == Enter
    ensures action == Enter && value.Some? ==> c.attached == value
    ensures action == Enter && value.None? ==> c.attached == Some(0)
  {
    WriteCall(action, if action == Enter then Some(if value.Some? && value.value != 0 then value.value else 0) else None)
  }

  /** The value argument the page's `enterLottery`, `startLottery` and `endLottery`
      pass: the entry fee for `enter`, nothing for the owner actions. */
  function DispatchValue(action: Action): (v: Option<int>)
    ensures v.Some? <==> action == Enter
    ensures v.Some? ==> v.value == ENTRY_FEE
  {
    if action == Enter then Some(ENTRY_FEE) else None
  }

  /** The page's `enter` button pays exactly the entry fee; the owner actions pay nothing. */
  lemma EnterCarriesEntryFee(action: Action)
    ensures Request(action, DispatchValue(action)).attached == (if action == Enter then Some(ENTRY_FEE) else None)
  {
  }

  /** The fields of a caught error the page reads: `reason`, `data?.message` and `message`. */
  datatype TxError = TxError(reason: Option<string>, dataMessage: Option<string>, message: Option<string>)

  /** How a submitted transaction ends: mined, or an error thrown while sending or waiting. */
  datatype TxOutcome = Mined | Failed(error: TxError)

  /** `error.reason || error.data?.message || error.message`: the first truthy field,
      and `message` as it is (possibly empty or `undefined`) when none is truthy. */
  function FailureReason(e: TxError): (r: Option<string>)
    ensures Truthy(e.reason) ==> r == e.reason
    ensures !Truthy(e.reason) && Truthy(e.dataMessage) ==> r == e.dataMessage
    ensures !Truthy(e.reason) && !Truthy(e.dataMessage) ==> r == e.message
    ensures Truthy(r) <==> Truthy(e.reason) || Truthy(e.dataMessage) || Truthy(e.message)
  {
    if Truthy(e.reason) then e.reason
    else if Truthy(e.dataMessage) then e.dataMessage
    else e.message
  }

  /** Which alert a dispatch ends with. */
  datatype WriteReport = NoWallet | Succeeded | Reverted(reason: Option<string>)

  function Report(outcome: TxOutcome): (r: WriteReport)
    ensures r.Succeeded? <==> outcome.Mined?
    ensures outcome.Failed? ==> r == Reverted(FailureReason(outcome.error))
  {
    match outcome
    case Mined => Succeeded
    case Failed(e) => Reverted(FailureReason(e))
  }

  // ---------------------------------------------------------------------
  // Transitions
  // ---------------------------------------------------------------------

  /** `disconnectWallet`: clears the session fields and nothing else. Afterwards there
      is no write handle, reads go to the fixed endpoint, polling stops and nobody is
      the owner. */
  function Disconnected(s: PageState): (r: PageState)
    ensures !r.provider && !r.signer && r.address.None? && !r.isConnected && Coherent(r)
    ensures r.isLoadingTx == s.isLoadingTx && r.isLoadingData == s.isLoadingData
    ensures r.contractState == s.contractState
    ensures !HasWriteHandle(r) && ReadHandle(r) == StaticRpc(STATIC_RPC_URL) && !PollingActive(r) && !IsOwner(r)
  {
    s.(provider := false, signer := false, address := None, isConnected := false)
  }

  /** Disconnecting twice is disconnecting once. */
  lemma DisconnectIdempotent(s: PageState)
    ensures Disconnected(Disconnected(s)) == Disconnected(s)
  {
  }

  /** `connectWallet`: without an injected wallet, or when getting the signer or its
      address throws, nothing changes; otherwise the session fields are set to the
      wallet's. The contract data is left as it was, including `hasEntered`, which
      was read for the previous address. */
  function Connected(s: PageState, walletInstalled: bool, account: Option<string>): (r: PageState)
    ensures !walletInstalled || account.None? ==> r == s
    ensures walletInstalled && account.Some? ==>
              r.address == account && r.isConnected && HasWriteHandle(r)
              && ReadHandle(r) == WalletProvider && Coherent(r)
    ensures r.contractState == s.contractState
    ensures r.isLoadingTx == s.isLoadingTx && r.isLoadingData == s.isLoadingData
  {
    if !walletInstalled || account.None? then s
    else s.(provider := true, signer := true, address := account, isConnected := true)
  }

  /** `fetchContractData`: with a falsy address nothing changes. Otherwise the six
      values either replace the contract data as a whole or, when a read fails,
      the previous data stays; either way loading is over. */
  function Fetched(s: PageState, result: Option<ContractData>): (r: PageState)
    ensures !Truthy(s.address) ==> r == s
    ensures Truthy(s.address) ==> !r.isLoadingData
    ensures r.contractState == (if Truthy(s.address) && result.Some? then result else s.contractState)
    ensures r.(isLoadingData := s.isLoadingData, contractState := s.contractState) == s
  {
    if !Truthy(s.address) then s
    else s.(isLoadingData := false, contractState := if result.Some? then result else s.contractState)
  }

  /** The part of `executeWrite` before its first `await`: without a write handle
      nothing happens; otherwise the transaction flag is raised and the call is
      submitted, whether or not another transaction is already pending. */
  function Dispatched(s: PageState): (r: PageState)
    ensures !HasWriteHandle(s) ==> r == s
    ensures HasWriteHandle(s) ==> r == s.(isLoadingTx := true)
  {
    if !HasWriteHandle(s) then s else s.(isLoadingTx := true)
  }

  /** The call a dispatch hands to the write handle, if it hands one over. */
  function Submission(s: PageState, action: Action, value: Option<int>): (c: Option<WriteCall>)
    ensures c.Some? <==> HasWriteHandle(s)
    ensures c.Some? ==> c.value == Request(action, value)
  {
    if HasWriteHandle(s) then Some(Request(action, value)) else None
  }

  /** The rest of `executeWrite`: a mined transaction triggers a refresh, a failed one
      does not; the `finally` clears the transaction flag in both cases. */
  function Settled(s: PageState, outcome: TxOutcome, refresh: Option<ContractData>): (r: PageState)
    ensures !r.isLoadingTx
    ensures outcome.Failed? ==> r == s.(isLoadingTx := false)
    ensures outcome.Mined? ==> r == Fetched(s, refresh).(isLoadingTx := false)
  {
    (if outcome.Mined? then Fetched(s, refresh) else s).(isLoadingTx := false)
  }

  /** `executeWrite` run to completion. Without a write handle the state, including
      the transaction flag, is unchanged. Otherwise the flag is clear afterwards
      whatever the outcome, and the contract data changes only after a mined
      transaction whose follow-up refresh succeeds. */
  function Executed(s: PageState, outcome: TxOutcome, refresh: Option<ContractData>): (r: PageState)
    ensures !HasWriteHandle(s) ==> r == s
    ensures HasWriteHandle(s) ==> !r.isLoadingTx
    ensures r.contractState != s.contractState ==> outcome.Mined? && refresh.Some? && r.contractState == refresh
    ensures outcome.Failed? ==> r.contractState == s.contractState && r.isLoadingData == s.isLoadingData
    ensures Coherent(s) ==> Coherent(r)
  {
    if !HasWriteHandle(s) then s else Settled(Dispatched(s), outcome, refresh)
  }

  /** The `accountsChanged` handler: an empty account list disconnects, any other list connects again. */
  function AccountsChanged(s: PageState, accounts: seq<string>, account: Option<string>): (r: PageState)
    ensures |accounts| == 0 ==> r == Disconnected(s) && !HasWriteHandle(r)
    ensures |accounts| > 0 ==> r == Connected(s, true, account)
    ensures r.isLoadingTx == s.isLoadingTx && r.contractState == s.contractState
  {
    if |accounts| == 0 then Disconnected(s) else Connected(s, true, account)
  }

  /** The wallet runs every `accountsChanged` handler registered so far, `n` of them,
      one after another with the same account list. */
  function AccountsChangedFanOut(s: PageState, n: nat, accounts: seq<string>, account: Option<string>): PageState
    decreases n
  {
    if n == 0 then s else AccountsChanged(AccountsChangedFanOut(s, n - 1, accounts, account), accounts, account)
  }

  /** However many handlers are registered, the page ends in the state one handler
      run gives: disconnecting and reconnecting to the same account are idempotent. */
  lemma {:induction false} FanOutIsOneRun(s: PageState, n: nat, accounts: seq<string>, account: Option<string>)
    requires n >= 1
    ensures AccountsChangedFanOut(s, n, accounts, account) == AccountsChanged(s, accounts, account)
    decreases n
  {
    if n > 1 {
      FanOutIsOneRun(s, n - 1, accounts, account);
      if |accounts| == 0 {
        DisconnectIdempotent(s);
      }
    }
  }

  /** The mount effect: connect silently only when the wallet already lists an authorised account. */
  function AutoConnected(s: PageState, walletInstalled: bool, accounts: seq<string>, account: Option<string>): (r: PageState)
    ensures !walletInstalled || |accounts| == 0 ==> r == s
    ensures walletInstalled && |accounts| > 0 ==> r == Connected(s, true, account)
  {
    if walletInstalled && |accounts| > 0 then Connected(s, true, account) else s
  }

  /** A second dispatch while the first is pending is not refused: it is submitted
      again, and the first settlement clears the flag although the second call is
      still outstanding. */
  lemma SecondDispatchNotGuarded(s: PageState, action: Action, value: Option<int>,
                                 outcome: TxOutcome, refresh: Option<ContractData>)
    requires HasWriteHandle(s) && !s.isLoadingTx
    ensures var first := Dispatched(s);
            first.isLoadingTx && Submission(first, action, value).Some?
            && !Settled(Dispatched(first), outcome, refresh).isLoadingTx
  {
  }

  // ---------------------------------------------------------------------
  // Sequences of handler runs
  // ---------------------------------------------------------------------

  /** One run of a handler, with the outcome of everything it awaits. */
  datatype Event =
    | Connect(walletInstalled: bool, account: Option<string>)
    | Disconnect
    | Refresh(result: Option<ContractData>)
    | Dispatch
    | Settle(outcome: TxOutcome, refresh: Option<ContractData>)
    | AccountsChange(accounts: seq<string>, account: Option<string>)

  function Step(s: PageState, e: Event): PageState {
    match e
    case Connect(installed, account) => Connected(s, installed, account)
    case Disconnect => Disconnected(s)
    case Refresh(result) => Fetched(s, result)
    case Dispatch => Dispatched(s)
    case Settle(outcome, refresh) => Settled(s, outcome, refresh)
    case AccountsChange(accounts, account) => AccountsChanged(s, accounts, account)
  }

  function Run(s: PageState, events: seq<Event>): PageState
    decreases |events|
  {
    if events == [] then s else Run(Step(s, events[0]), events[1..])
  }

  /** The contract data an event brings back from the node, if it brings any. */
  function Delivered(e: Event): Option<ContractData> {
    match e
    case Refresh(result) => result
    case Settle(_, refresh) => refresh
    case _ => None
  }

  /** Every step keeps the session fields together. */
  lemma StepKeepsCoherent(s: PageState, e: Event)
    requires Coherent(s)
    ensures Coherent(Step(s, e))
  {
  }

  /** However the handlers interleave, the session fields stay together. */
  lemma {:induction false} RunKeepsCoherent(s: PageState, events: seq<Event>)
    requires Coherent(s)
    ensures Coherent(Run(s, events))
    decreases |events|
  {
    if events != [] {
      StepKeepsCoherent(s, events[0]);
      RunKeepsCoherent(Step(s, events[0]), events[1..]);
    }
  }

  /** The contract data after any sequence of handler runs is the data it started
      with or the complete result of one single read: never a mix of two. From the
      first render, it is empty or one delivered result. */
  lemma {:induction false} PublishedDataIsOneDelivery(s: PageState, events: seq<Event>)
    ensures var c := Run(s, events).contractState;
            c == s.contractState || exists i :: 0 <= i < |events| && Delivered(events[i]) == c && c.Some?
    decreases |events|
  {
    if events != [] {
      var t := Step(s, events[0]);
      assert t.contractState == s.contractState || (Delivered(events[0]) == t.contractState && t.contractState.Some?);
      PublishedDataIsOneDelivery(t, events[1..]);
      var c := Run(s, events).contractState;
      if c != t.contractState {
        var i :| 0 <= i < |events[1..]| && Delivered(events[1..][i]) == c && c.Some?;
        assert Delivered(events[i + 1]) == c;
      }
    }
  }

  /** No sequence of handler runs without a dispatch ever raises the transaction flag. */
  lemma {:induction false} FlagNeedsDispatch(s: PageState, events: seq<Event>)
    requires !s.isLoadingTx
    requires forall i :: 0 <= i < |events| ==> !events[i].Dispatch?
    ensures !Run(s, events).isLoadingTx
    decreases |events|
  {
    if events != [] {
      FlagNeedsDispatch(Step(s, events[0]), events[1..]);
    }
  }
}
