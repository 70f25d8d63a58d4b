/** The `Home` page component (app/page.tsx, section 3) as an object whose
    handlers update its `useState` fields step by step, as the setters do.
    Each awaited call is a parameter giving its outcome. Every handler is
    specified by the pure transition of module HomeState that it carries out. */
module HomePage {
  import opened JsValues
  import opened Helpers
  import opened HomeState

  class Home {
    var provider: bool
    var signer: bool
    var address: Option<string>
    var isConnected: bool
    var isLoadingTx: bool
    var isLoadingData: bool
    var contractState: Option<ContractData>

    // The page's surroundings, recorded for the specification:
    /** Every call handed to the write handle, oldest first. */
    ghost var sent: seq<WriteCall>
    /** Every `ContractData` a refresh committed, oldest first. */
    ghost var committed: seq<ContractData>
    /** Transactions submitted whose `await`s have not yet come back. */
    ghost var pending: nat
    /** Pairs of `accountsChanged`/`chainChanged` handlers registered on the wallet. */
    ghost var listeners: nat

    function State(): PageState
      reads this
    {
      PageState(provider, signer, address, isConnected, isLoadingTx, isLoadingData, contractState)
    }

    /** The session fields move together, the contract data is the last committed
        refresh (or empty before the first), and the transaction flag is only up
        while some submitted transaction is outstanding. */
    ghost predicate Valid()
      reads this
    {
      Coherent(State())
      && contractState == (if committed == [] then None else Some(committed[|committed| - 1]))
      && (isLoadingTx ==> pending > 0)
    }

    constructor ()
      ensures Valid() && State() == Initial()
      ensures sent == [] && committed == [] && pending == 0 && listeners == 0
    {
      provider, signer, address, isConnected := false, false, None, false;
      isLoadingTx, isLoadingData, contractState := false, true, None;
      sent, committed, pending, listeners := [], [], 0, 0;
    }

    /** `disconnectWallet`. */
    method DisconnectWallet()
      requires Valid()
      modifies this
      ensures Valid() && State() == Disconnected(old(State()))
      ensures sent == old(sent) && committed == old(committed)
      ensures pending == old(pending) && listeners == old(listeners)
    {
      provider := false;
      signer := false;
      address := None;
      isConnected := false;
    }

    /** `connectWallet`: `walletInstalled` says whether `window.ethereum` exists and
        `account` is the signer's address, or `None` when getting either throws. A
        successful connection registers one more pair of wallet handlers, on top
        of those registered before. */
    method ConnectWallet(walletInstalled: bool, account: Option<string>)
      requires Valid()
      modifies this
      ensures Valid() && State() == Connected(old(State()), walletInstalled, account)
      ensures sent == old(sent) && committed == old(committed) && pending == old(pending)
      ensures listeners == old(listeners) + (if walletInstalled && account.Some? then 1 else 0)
    {
      if !walletInstalled {
        return;
      }
      if account.None? {
        return;
      }
      provider := true;
      signer := true;
      address := account;
      isConnected := true;
      listeners := listeners + 1;
    }

    /** `fetchContractData`: `result` holds the six values, or `None` when one of the reads fails. */
    method FetchContractData(result: Option<ContractData>)
      requires Valid()
      modifies this
      ensures Valid() && State() == Fetched(old(State()), result)
      ensures committed == old(committed) + (if Truthy(old(address)) && result.Some? then [result.value] else [])
      ensures sent == old(sent) && pending == old(pending) && listeners == old(listeners)
    {
      if !Truthy(address) {
        return;
      }
      isLoadingData := true;
      if result.Some? {
        contractState := result;
        committed := committed + [result.value];
      }
      isLoadingData := false;
    }

    /** `executeWrite` up to its first `await`: no check of the transaction flag. */
    method BeginWrite(action: Action, value: Option<int>) returns (submitted: bool)
      requires Valid()
      modifies this
      ensures Valid() && State() == Dispatched(old(State()))
      ensures submitted == HasWriteHandle(old(State()))
      ensures sent == old(sent) + (if submitted then [Request(action, value)] else [])
      ensures pending == old(pending) + (if submitted then 1 else 0)
      ensures committed == old(committed) && listeners == old(listeners)
    {
      if !signer {
        submitted := false;
        return;
      }
      isLoadingTx := true;
      sent := sent + [Request(action, value)];
      pending := pending + 1;
      submitted := true;
    }

    /** `executeWrite` after its `await`s: `outcome` is how the transaction ended and
        `refresh` what the follow-up `fetchContractData` reads. */
    method FinishWrite(outcome: TxOutcome, refresh: Option<ContractData>) returns (report: WriteReport)
      requires Valid() && pending > 0
      modifies this
      ensures Valid() && State() == Settled(old(State()), outcome, refresh)
      ensures report == Report(outcome)
      ensures pending == old(pending) - 1
      ensures committed == old(committed) + (if outcome.Mined? && Truthy(old(address)) && refresh.Some? then [refresh.value] else [])
      ensures sent == old(sent) && listeners == old(listeners)
    {
      match outcome {
        case Mined =>
          FetchContractData(refresh);
          report := Succeeded;
        case Failed(e) =>
          report := Reverted(FailureReason(e));
      }
      isLoadingTx := false;
      pending := pending - 1;
    }

    /** `executeWrite` run to completion. */
    method ExecuteWrite(action: Action, value: Option<int>, outcome: TxOutcome, refresh: Option<ContractData>)
      returns (report: WriteReport)
      requires Valid()
      modifies this
      ensures Valid() && State() == Executed(old(State()), outcome, refresh)
      ensures report == (if old(signer) then Report(outcome) else NoWallet)
      ensures sent == old(sent) + (if old(signer) then [Request(action, value)] else [])
      ensures pending == old(pending) && listeners == old(listeners)
    {
      var submitted := BeginWrite(action, value);
      if !submitted {
        report := NoWallet;
        return;
      }
      report := FinishWrite(outcome, refresh);
    }

    /** `enterLottery`, `startLottery` and `endLottery`: dispatch with the page's value argument. */
    method Act(action: Action, outcome: TxOutcome, refresh: Option<ContractData>) returns (report: WriteReport)
      requires Valid()
      modifies this
      ensures Valid() && State() == Executed(old(State()), outcome, refresh)
      ensures sent == old(sent) + (if old(signer) then [WriteCall(action, DispatchValue(action))] else [])
      ensures pending == old(pending) && listeners == old(listeners)
    {
      EnterCarriesEntryFee(action);
      report := ExecuteWrite(action, DispatchValue(action), outcome, refresh);
    }

    /** The `accountsChanged` handler registered by `connectWallet`. A non-empty
        account list reconnects, which registers yet another pair of handlers. */
    method AccountsChanged(accounts: seq<string>, account: Option<string>)
      requires Valid()
      modifies this
      ensures Valid() && State() == HomeState.AccountsChanged(old(State()), accounts, account)
      ensures sent == old(sent) && committed == old(committed) && pending == old(pending)
      ensures listeners == old(listeners) + (if |accounts| > 0 && account.Some? then 1 else 0)
    {
      if |accounts| == 0 {
        DisconnectWallet();
      } else {
        ConnectWallet(true, account);
      }
    }

    /** The mount effect's `autoConnect`: `accounts` is what `eth_accounts` lists. */
    method AutoConnect(walletInstalled: bool, accounts: seq<string>, account: Option<string>)
      requires Valid()
      modifies this
      ensures Valid() && State() == AutoConnected(old(State()), walletInstalled, accounts, account)
      ensures sent == old(sent) && committed == old(committed) && pending == old(pending)
      ensures listeners == old(listeners) + (if walletInstalled && |accounts| > 0 && account.Some? then 1 else 0)
    {
      if walletInstalled && |accounts| > 0 {
        ConnectWallet(true, account);
      }
    }
  }

  /** A connected wallet sees an open round it has not entered and presses enter;
      while the first transaction is pending the entry button is still enabled, a
      second press submits a second entry, and the first settlement clears the
      transaction flag although the second entry is still outstanding. */
  method OverlappingEntries(account: string, open: ContractData)
    returns (buttonEnabledWhilePending: bool, ghost entries: nat, flagAfterFirstSettle: bool, ghost stillPending: nat)
    requires account != "" && open.lotteryState == 0 && !open.hasEntered
    ensures buttonEnabledWhilePending && entries == 2 && !flagAfterFirstSettle && stillPending == 1
  {
    var home := new Home();
    home.ConnectWallet(true, Some(account));
    home.FetchContractData(Some(open));
    var first := home.BeginWrite(Enter, Some(ENTRY_FEE));
    var card := EnterCard(home.State());
    buttonEnabledWhilePending := !card.disabled;
    var second := home.BeginWrite(Enter, Some(ENTRY_FEE));
    entries := |home.sent|;
    var report := home.FinishWrite(Mined, Some(open));
    flagAfterFirstSettle := home.isLoadingTx;
    stillPending := home.pending;
  }

  /** After the account list empties while a transaction is pending, the session is
      gone and no new transaction can be submitted, but the pending one is not
      reported as settled: the transaction flag stays up. */
  method AccountsEmptiedWhilePending(account: string, outcome: TxOutcome)
    returns (flagStillUp: bool, canSubmit: bool)
    requires account != ""
    ensures flagStillUp && !canSubmit
  {
    var home := new Home();
    home.ConnectWallet(true, Some(account));
    var first := home.BeginWrite(StartLottery, None);
    home.AccountsChanged([], None);
    flagStillUp := home.isLoadingTx;
    canSubmit := HasWriteHandle(home.State());
  }
}
