# Lottery page state, modelled in Dafny

This project models the logic of the lottery DApp's single page, `app/page.tsx`.
That page connects a browser wallet and reads six values from the lottery
contract (round, player count, owner, round state, recent winner, whether the
caller has entered). It submits `enter`, `startLottery` and `endLottery`
transactions and decides what each button says and whether it can be pressed.

The model has five modules:

- `JsValues` (`js_values.dfy`): the JavaScript semantics the page relies on.
  It covers `undefined`, the truthiness of strings, `toLowerCase()` on
  addresses, and `BigInt.prototype.toString()` with an inverse parser that
  states what the text means.
- `Helpers` (`helpers.dfy`): the `ContractData` record, `displayBigInt`,
  `getLotteryStateString` and the `ENTRY_FEE` constant of `app/lib/contract.ts`.
- `Components` (`components.dfy`): the decisions of `ConnectButton`,
  `LotteryActionCard` and `OwnerControlsCard`. Each component's if/else chain
  is a pure function of its props.
- `HomeState` (`home_state.dfy`): the seven `useState` fields of `Home` as a
  `PageState` value. It holds the derived `isOwner`, `isLotteryOpen` and
  `isLotteryClosed`, the read and write handles and the polling condition. It
  gives one pure transition per handler. Runs of handlers are folded into
  sequences of events so that properties over every interleaving can be stated.
- `HomePage` (`home.dfy`): class `Home`. Its handlers update the fields step by
  step, as the setters do. Each method is specified by the `HomeState`
  transition it carries out. Its invariant `Valid()` keeps the session fields
  together. It also keeps the contract data equal to the last committed
  refresh, so the data is always empty or one whole read.

Every awaited call is a parameter that gives its outcome. A refresh yields
`Some(data)` or `None` when any of the six reads fails. A transaction is
`Mined` or `Failed` with the error's `reason`, `data.message` and `message`.
Connecting yields the signer's address, or `None` when the wallet throws. The
provider and signer objects are modelled as present or absent. `contractState`
is `Option<ContractData>`: the initial `{}` is `None`, and afterwards the
field is only ever replaced whole.

In four places the page behaves differently from what a reader of its
handlers might expect. The model follows the code in each:

- One would expect a second dispatch to be refused while a transaction is in
  flight. `executeWrite` has no such guard. `HomeState.SecondDispatchNotGuarded`
  and `HomePage.OverlappingEntries` show that a second entry is submitted, and
  that the first settlement clears the flag while the second entry is still
  outstanding.
- One would expect the data to be refreshed after a failed transaction too.
  The code refreshes only after a mined one (`HomeState.Settled`).
- One would expect entry to be impossible while a transaction is pending. The
  enter button as written ignores both loading flags (see Findings).
- One would expect polling to follow the wallet session. The code polls while
  `address` is truthy (`HomeState.PollingActive`). Every reachable state is
  coherent, and in a coherent state that implies a session
  (`HomeState.PollingNeedsSession`).

## Model

| member | source | states |
|---|---|---|
| `JsValues.Lower` | app/page.tsx:309 | lower-casing keeps the length of the address |
| `JsValues.LowerAt` | app/page.tsx:309 | each character is lower-cased on its own; no upper-case ASCII letter remains |
| `JsValues.LowerIdempotent` | app/page.tsx:309 | lower-casing an already lower-cased address changes nothing |
| `JsValues.LowerIgnoresUpper` | app/page.tsx:309 | an address and its upper-cased form have the same lower-case form |
| `JsValues.NatToDecimal` | app/page.tsx:26 | the decimal text of a non-negative BigInt is a non-empty run of digits with a leading zero only for 0 |
| `JsValues.IntToDecimal` | app/page.tsx:26 | the text of a BigInt is digits after an optional '-', and starts with '-' exactly for negative values |
| `JsValues.NatToDecimalValue` | app/page.tsx:26 | the digits written for n denote n |
| `JsValues.IntToDecimalRoundTrip` | app/page.tsx:26 | parsing the text of any BigInt gives that BigInt back |
| `JsValues.IntToDecimalInjective` | app/page.tsx:26 | two different BigInts never display the same text |
| `Helpers.DisplayBigInt` | app/page.tsx:25-27 | the dash is shown exactly for a missing value; a present value's text reads back as the value |
| `Helpers.GetLotteryStateString` | app/page.tsx:29-33 | 0 gives the OPEN text, 1 the CLOSED text, and anything else or nothing the loading text, each in both directions |
| `Components.AddressPrefix` | app/page.tsx:72 | the wallet label shows a prefix of the address of at most six characters, exactly six for long addresses, and "undefined" without an address |
| `Components.ConnectButton` | app/page.tsx:54-74 | a click disconnects exactly when connected; disabled exactly while a transaction is pending, and showing "Pending Tx..." exactly then; otherwise "Connect Wallet" exactly when not connected, else the wallet label |
| `Components.LotteryActionCard` | app/page.tsx:87-126 | text precedence: not connected, then already entered, then open, then closed, each in both directions; disabled exactly when connected and (entered or not open); "Loading..." shown exactly when either loading flag is set |
| `Components.EnterClickableWhileTxPending` | app/page.tsx:88-105 | as written, the entry button shows "Loading..." and is still enabled while a transaction is pending |
| `Components.GuardedLotteryActionCard` | app/page.tsx:88 | the corrected card is disabled whenever it shows "Loading...", is the written card when nothing loads, and allows entry exactly for a connected, not-entered wallet in an open round with nothing loading |
| `Components.OwnerControlsCard` | app/page.tsx:145-169 | "start" enabled exactly when no transaction is pending and the round is closed; "end" exactly when none is pending and it is open; labels follow closed and open |
| `Components.OwnerControlsExclusive` | app/page.tsx:147-160 | at most one owner control is enabled, and neither while a transaction is pending |
| `HomeState.IsOwner` | app/page.tsx:306-309 | the owner is a connected wallet with an address and contract data; an empty owner field makes nobody the owner |
| `JsValues.LowerOfCaseVariant` | app/page.tsx:309 | two texts that differ only in the case of their letters, in any mix, have the same lower-case form |
| `HomeState.IsOwnerIgnoresCase` | app/page.tsx:306-309 | replacing the wallet address or the owner field by any re-casing of it (mixed case included) never changes `isOwner` |
| `HomeState.NoOwnerWithoutSessionOrData` | app/page.tsx:306-309 | without a connection or before any contract data, nobody is the owner and no owner controls are rendered |
| `HomeState.IsLotteryOpen` | app/page.tsx:311 | open only with contract data, and exactly when the state text reads OPEN |
| `HomeState.IsLotteryClosed` | app/page.tsx:312 | closed only with contract data, never together with open, and exactly when the state text reads CLOSED |
| `HomeState.OwnerControls` | app/page.tsx:424-435 | the owner controls are rendered exactly for the owner, with at most one control enabled and none while a transaction is pending |
| `HomeState.Initial` | app/page.tsx:182-189 | the first render is coherent, with no write handle, no polling, no owner and reads through the fixed endpoint; the round is neither open nor closed and the entry button offers to connect while showing "Loading..." |
| `HomeState.EnterCard` | app/page.tsx:413-420 | a connected wallet sees a disabled "Lottery is CLOSED" until the first refresh arrives; an entry can be submitted exactly when the data shows an open round the wallet has not entered, whatever the loading flags; "Loading..." is shown exactly while either flag is set |
| `HomeState.ReadHandle` | app/page.tsx:285-289 | reads go through the wallet's provider exactly when there is one, else through the fixed RPC endpoint; there is always a read handle |
| `HomeState.HasWriteHandle` | app/page.tsx:291-295 | in a coherent state there is a write handle exactly when a wallet is connected with an address |
| `HomeState.PollingActive` | app/page.tsx:297-303 | the refresh timer runs exactly when the address is present and non-empty |
| `HomeState.PollingNeedsSession` | app/page.tsx:297-303 | while polling is active a coherent state has a connected wallet, a write handle and a wallet-backed read handle |
| `HomeState.Request` | app/page.tsx:325-329 | `enter` carries `value` or 0 when none is given; the other actions carry no value |
| `HomeState.DispatchValue` | app/page.tsx:346-348 | only `enter` passes a value, and that value is `ENTRY_FEE` |
| `HomeState.EnterCarriesEntryFee` | app/page.tsx:346-348 | the enter button pays exactly `ENTRY_FEE`; start and end pay nothing |
| `HomeState.FailureReason` | app/page.tsx:338 | the reason is `reason` if truthy, else `data.message` if truthy, else `message` as it is; it is truthy exactly when one of the three is |
| `HomeState.Report` | app/page.tsx:331-339 | success is reported exactly for a mined transaction; a failure reports its failure reason |
| `HomeState.Disconnected` | app/page.tsx:192-197 | clears provider, signer, address and the connected flag and nothing else; afterwards no write handle, reads fall back to the fixed endpoint, no polling, nobody is owner |
| `HomeState.DisconnectIdempotent` | app/page.tsx:192-197 | disconnecting twice is disconnecting once |
| `HomeState.Connected` | app/page.tsx:231-261 | no wallet or a thrown error changes nothing; otherwise the session is set to the wallet's address with a write handle and a provider-backed read handle; contract data and loading flags are untouched |
| `HomeState.Fetched` | app/page.tsx:199-228 | a falsy address changes nothing; otherwise loading ends, the data is replaced whole by a successful read and kept on failure, and no other field changes |
| `HomeState.Dispatched` | app/page.tsx:317-322 | without a write handle nothing changes; otherwise the flag is raised even if it is already up |
| `HomeState.Submission` | app/page.tsx:317-329 | a call is handed over exactly when there is a write handle, and it is the requested call |
| `HomeState.Settled` | app/page.tsx:323-342 | the flag is down afterwards; a failure changes nothing else; a mined transaction triggers one refresh |
| `HomeState.Executed` | app/page.tsx:315-343 | without a write handle nothing changes; otherwise the flag is down afterwards whatever the outcome; the data changes only through the refresh after a mined transaction; session coherence is kept |
| `HomeState.AccountsChanged` | app/page.tsx:247-254 | an empty account list disconnects and leaves no write handle; any other list connects again; the flag and data are untouched |
| `HomeState.FanOutIsOneRun` | app/page.tsx:247-254 | running any number (at least one) of registered `accountsChanged` handlers leaves the page in the state a single run gives |
| `HomeState.AutoConnected` | app/page.tsx:263-272 | connects silently only when a wallet exists and already lists an account, else changes nothing |
| `HomeState.SecondDispatchNotGuarded` | app/page.tsx:315-343 | a dispatch while one is pending is still submitted, and the first settlement clears the flag |
| `HomeState.StepKeepsCoherent` | app/page.tsx:182-189 | every handler keeps provider, signer, address and the connected flag together |
| `HomeState.RunKeepsCoherent` | app/page.tsx:182-189 | every sequence of handler runs keeps the session fields together |
| `HomeState.PublishedDataIsOneDelivery` | app/page.tsx:216-223 | after any sequence of handler runs the contract data is the initial value or the complete result of one single read |
| `HomeState.FlagNeedsDispatch` | app/page.tsx:322 | no sequence of handler runs without a dispatch raises the transaction flag |
| `HomePage.Home.constructor` | app/page.tsx:182-189 | the first render has no session, data loading, no contract data and nothing submitted |
| `HomePage.Home.DisconnectWallet` | app/page.tsx:192-197 | performs `Disconnected`; submits and commits nothing |
| `HomePage.Home.ConnectWallet` | app/page.tsx:231-261 | performs `Connected`; each successful connection registers one more pair of wallet handlers |
| `HomePage.Home.FetchContractData` | app/page.tsx:199-228 | performs `Fetched`; commits the read exactly when the address is truthy and the read succeeded |
| `HomePage.Home.BeginWrite` | app/page.tsx:315-331 | performs `Dispatched`; submits the requested call exactly when there is a signer, with no check of the flag |
| `HomePage.Home.FinishWrite` | app/page.tsx:332-342 | performs `Settled`, reports the outcome, and commits the follow-up read only after a mined transaction |
| `HomePage.Home.ExecuteWrite` | app/page.tsx:315-343 | performs `Executed`; without a signer it reports the missing wallet and submits nothing; otherwise it submits exactly one call and reports the outcome |
| `HomePage.Home.Act` | app/page.tsx:346-348 | the page's three buttons dispatch their action with `ENTRY_FEE` for `enter` and no value otherwise |
| `HomePage.Home.AccountsChanged` | app/page.tsx:247-254 | performs `AccountsChanged` on the object; a non-empty list whose reconnection succeeds registers one more pair of handlers |
| `HomePage.Home.AutoConnect` | app/page.tsx:263-272 | performs `AutoConnected` on the object; a successful silent connection registers one more pair of handlers |
| `HomePage.OverlappingEntries` | app/page.tsx:315-343 | while the first entry is pending the entry button is enabled, a second entry is submitted, and the first settlement lowers the flag with one entry still pending |
| `HomePage.AccountsEmptiedWhilePending` | app/page.tsx:247-250 | emptying the account list during a transaction removes the write handle but leaves the transaction flag up |

## Findings

| source | as written | input that shows it | evidently intended | confidence | as-written member | corrected member |
|---|---|---|---|---|---|---|
| app/page.tsx:88-105 | `isDisabled` is first computed from `isLoadingTx` and `isLoadingData`, then overwritten in every branch of the if/else chain | connected wallet, open round, not entered, `isLoadingTx` true: the button shows "Loading..." and is enabled, so a second entry can be sent | the entry button is disabled while it shows "Loading..." | medium, not executed | `Components.EnterClickableWhileTxPending` | `Components.GuardedLotteryActionCard` |

`HomePage.OverlappingEntries` uses the card as written, to show where the
missing guard leads. The corrected card allows an entry only for a connected
wallet that has not entered an open round while nothing is pending.

## Left out

- JSX markup, Tailwind classes, `alert` and `console.error`. They are presentation and logging. The alert a dispatch ends with is kept only as `WriteReport`.
- `LotteryStatusCard`, the recent-winner and debugging texts, and `formatEther(ENTRY_FEE)`. They are display-only and decide nothing.
- ethers `Contract`, `BrowserProvider`, `JsonRpcProvider`, `getSigner`, `getAddress`, `tx.wait`. These are foreign library calls; their outcomes are method parameters, and handles are present or absent.
- The `Promise.all` fan-out. The six reads are one call that yields all six values or fails.
- What `hasEntered({ from: address })` returns. The call passes an overrides object where the contract's ABI (app/lib/contract.ts) declares an address argument, so the result is an opaque boolean in `ContractData`.
- The 5-second `setInterval` and `clearInterval`. Timing is not modelled; only the condition `PollingActive` (address truthy) is kept, and any refresh is an event.
- `chainChanged` reloading the page. A reload is a fresh `Home` (the constructor).
- Fan-out of `accountsChanged` on the object (app/page.tsx:247). The wallet runs every handler registered so far, one per successful connection, while `Home.AccountsChanged` models one run. On page states the fan-out is modelled (`HomeState.AccountsChangedFanOut`) and ends where one run does (`HomeState.FanOutIsOneRun`); the handler count after the fan-out is not, since each reconnecting run registers another pair.
- Listener cleanup (app/page.tsx:274-279). It passes function references other than those registered, so nothing is removed. `Home.listeners` only grows.
- React closure capture. `FinishWrite`'s follow-up refresh reads the object's current address. The code calls the `fetchContractData` captured when `executeWrite` was last created.
- Interleaving inside one refresh. `FetchContractData` runs its `await` as one step, so a refresh that overlaps another refresh or a dispatch is modelled as two whole steps in some order ("last commit wins").
- The not-awaited `fetchContractData()` after a mined transaction. It is run to completion before the flag is cleared. The two touch different fields, so the final state is the same.
- `JsValues.Lower`: models `toLowerCase()` on ASCII letters only, because addresses are hexadecimal text. Unicode case mapping is not modelled.
- `HomeState.Request`: models only the three function names the page passes, not an arbitrary `functionName` string.
- Integer widths. `currentRound` and `playersCount` are unbounded integers for `bigint`, and `lotteryState` is an integer for `Number(uint8)`.
