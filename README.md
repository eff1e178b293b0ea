# Wallet session manager: a Dafny model

This project models the session-lifecycle manager of the Mango Markets UI: the
`useWallet` hook in `hooks/useWallet.tsx`. The hook:

- keeps a fixed registry of wallet providers (Sollet.io, Sollet Extension,
  Phantom) and picks one by the provider URL saved in local storage;
- saves the store's selected provider URL, but only when that URL is non-empty;
- builds the provider's adapter at once if the page has loaded, and otherwise
  from a one-shot `load` listener;
- registers `connect` and `disconnect` handlers on each adapter it builds;
- tears the previous adapter down when the wallet changes or the hook unmounts;
- runs two refresh timers, of 20 s and 180 s. Each one fires only while the
  wallet is connected and a margin account is selected.

Layout, one module per concern:

- `wrappers.dfy` (`Wrappers`): `Option`, standing for `undefined`/`null`.
- `providers.dfy` (`WalletProviders`): the registry, `DEFAULT_PROVIDER`, the
  first-match lookup by URL (`Array.prototype.find`), and the adapter class
  each entry is built with.
- `redaction.dfy` (`Redaction`): JavaScript's `substr` and the "Connected to
  wallet ..." description. It includes an inverse (`ParseDescription`) showing
  the description carries the key's two ends and nothing else.
- `refresh.dfy` (`Refresh`): the store actions, the two refresh tasks, their
  periods and their tick guard.
- `trace.dfy` (`Trace`): the output log and the `Ordered` invariant. The
  invariant says a connect run calls `fetchTradeHistory` after its own
  `fetchMarginAccounts`, once at most, and only after that call completed. The
  lemmas show each kind of log append preserves it.
- `session.dfy` (`Session`): class `WalletManager`. Its fields are:
  - the store slice (`Store`);
  - the saved URL;
  - the pending `load` listener;
  - the adapter the wallet effect last ran for;
  - the list of adapters that carry handlers;
  - the connect runs suspended at `await fetchMarginAccounts()`;
  - the log.

  Each effect, handler and tick of the hook is one method. `Valid()` ties the
  adapter ids, the handler list and the log invariant together.
- `scenarios.dfy` (`Scenarios`): client code that drives a manager through
  these scenarios, proved from the method contracts:
  - deferred and immediate construction;
  - an unknown provider;
  - unmounting before `load`;
  - the persist rule;
  - connect, then margin accounts complete, then trade history;
  - ticks;
  - disconnect;
  - teardown while connected;
  - a retired adapter's event.

Outside collaborators enter as parameters. These are the document's
`readyState`, the adapter's own `connected` flag at teardown and the public key
on `connect`. Adapters are opaque values with a fresh id. Notifications, action
calls and `disconnect()` calls are appended to the log.

Three facts about the code are worth stating plainly:

- Handlers are never unsubscribed and do not check which adapter sent the
  event. `OnConnect`/`OnDisconnect` act for every adapter in `handlers`,
  including retired ones, and `handlers` only ever grows. So a retired
  adapter's `connect` still sets `connected = true`
  (`Scenarios.RetiredAdapterStillPublishes`).
- The saved URL is written whenever the store's selected URL changes to a
  non-empty value.
- The key `Ab1Cd2Ef3Gh4Ij5` is shown as `Ab1Cd...h4Ij5`
  (`Redaction.ExampleDescription`).

Effects are methods that the environment calls when the effect's dependencies
change:

- `AdapterEffect` after the saved URL or the endpoint changes;
- `WalletEffect` after `state.wallet.current` changes. It does nothing when the
  wallet is the one it last ran for.

## Model

| member | source | states |
|---|---|---|
| WalletProviders.FindUrl | hooks/useWallet.tsx:54 | the result is the index of the first entry whose url equals the given url; none exactly when no entry has it |
| WalletProviders.ProviderFor | hooks/useWallet.tsx:53-56 | the chosen provider is a registry entry with the saved url; none exactly when no entry carries that url |
| WalletProviders.RegistryUrlsDistinct | hooks/useWallet.tsx:17-35 | no two registry entries share a url |
| WalletProviders.FindUrlOfEntry | hooks/useWallet.tsx:54 | with distinct urls, looking up an entry's own url finds that entry's index |
| WalletProviders.ProviderForEachEntry | hooks/useWallet.tsx:17-35 | every registered provider is selected by its own url |
| WalletProviders.DefaultSelection | hooks/useWallet.tsx:17-22 | the default url is Sollet.io's; it selects the first entry, which is built with the default `Wallet` adapter |
| WalletProviders.RegistryConstructors | hooks/useWallet.tsx:23-34 | Sollet Extension and Phantom are built with their own adapter classes |
| WalletProviders.ConstructorOf | hooks/useWallet.tsx:70 | the source's literal adapter choice at that line: a provider's own adapter class is used if present, else the default `Wallet` |
| Redaction.Substr | hooks/useWallet.tsx:105-107 | JavaScript `substr` never returns more characters than the string has |
| Redaction.SubstrHead | hooks/useWallet.tsx:105 | `substr(0, 5)` is the first min(5, length) characters |
| Redaction.SubstrTail | hooks/useWallet.tsx:107 | `substr(-5)` is the last min(5, length) characters |
| Redaction.ConnectedDescription | hooks/useWallet.tsx:103-107 | the description is the header, the key's first min(5,len) characters, "..." and its last min(5,len) characters; its length follows |
| Redaction.ParseDescription | hooks/useWallet.tsx:103-107 | a parsed description splits into two equal-length fragments that rebuild it with the header and ellipsis |
| Redaction.ParseConnectedDescription | hooks/useWallet.tsx:103-107 | parsing the description of any key gives back exactly the key's head and tail |
| Redaction.DescriptionDependsOnlyOnEnds | hooks/useWallet.tsx:103-107 | keys that agree on their first and last five characters get the same description; ten key characters are shown |
| Redaction.ExampleDescription | hooks/useWallet.tsx:103-107 | the key Ab1Cd2Ef3Gh4Ij5 is shown as Ab1Cd...h4Ij5 |
| Redaction.ShortKeyDescription | hooks/useWallet.tsx:103-107 | a three-character key appears in full on both sides of the ellipsis |
| Refresh.TickActions | hooks/useWallet.tsx:142-153 | a tick invokes its task's actions exactly when connected with a margin account selected, and nothing otherwise; only the 180 s task fetches trade history |
| Trace.ConnectCalls | hooks/useWallet.tsx:109-113 | a connect run makes four calls, ending with `fetchMarginAccounts`, and no trade-history call |
| Trace.TickCalls | hooks/useWallet.tsx:142-153 | a tick's log entries are its actions in order, tagged with the tick |
| Trace.EmptyOrdered | hooks/useWallet.tsx:109-114 | the empty log keeps the ordering invariant |
| Trace.AppendForeign | hooks/useWallet.tsx:125-153 | notifications, disconnect calls and tick calls keep the ordering invariant |
| Trace.AppendConnectRun | hooks/useWallet.tsx:101-113 | a new connect run keeps the invariant and starts awaiting its margin accounts |
| Trace.CompleteRun | hooks/useWallet.tsx:113-114 | after run k's margin-account fetch completes, its single trade-history call keeps the invariant |
| Session.ConnectNote | hooks/useWallet.tsx:101-108 | the source's literal payload: the connect notification has message "Wallet connected", no type and the redacted description |
| Session.DisconnectNote | hooks/useWallet.tsx:125-128 | the source's literal payload: the disconnect notification has type "info", message "Disconnected from wallet" and no description |
| Session.NewAdapter | hooks/useWallet.tsx:70-73 | the source's literal constructor call: a built adapter has the provider's adapter class and is bound to the saved url and the endpoint |
| Session.WalletManager.constructor | hooks/useWallet.tsx:39-52 | on mount the saved url is the stored one, or the default provider's when nothing is stored; no adapter, listener or handler exists |
| Session.WalletManager.SelectProviderUrl | hooks/useWallet.tsx:58-63 | the saved url becomes the selected url if it is present and non-empty, and is unchanged otherwise |
| Session.WalletManager.SetEndpoint | hooks/useWallet.tsx:46 | only the store's endpoint changes |
| Session.WalletManager.PublishAccountData | hooks/useWallet.tsx:47 | only the margin-account and trade-history fields of the store change |
| Session.WalletManager.Build | hooks/useWallet.tsx:67-77 | a new adapter replaces `state.wallet.current`; no other store field changes |
| Session.WalletManager.AdapterEffect | hooks/useWallet.tsx:65-91 | no provider means no build and no listener; a loaded document means an immediate build and no listener; otherwise a listener is registered and nothing is built |
| Session.WalletManager.FireLoad | hooks/useWallet.tsx:81-85 | a pending listener builds the adapter it captured once and is removed; without one nothing happens |
| Session.WalletManager.Teardown | hooks/useWallet.tsx:130-139 | `disconnect()` is called once exactly when the adapter reports connected; `connected` becomes false in every case |
| Session.WalletManager.WalletEffect | hooks/useWallet.tsx:93-140 | on a wallet change the previous adapter is torn down and handlers are added for the new one; no handler is removed |
| Session.WalletManager.OnConnect | hooks/useWallet.tsx:95-113 | for any adapter with handlers, `connected` becomes true, one notification with the redacted key is logged, then the four fetch calls, and the run awaits its margin accounts |
| Session.WalletManager.CompleteMarginAccounts | hooks/useWallet.tsx:113-114 | when an awaiting run's margin-account fetch completes, exactly one trade-history call is logged for it |
| Session.WalletManager.OnDisconnect | hooks/useWallet.tsx:116-129 | for any adapter with handlers, one update clears connected, margin accounts, the selected margin account and trade history, and one info notification follows; no other store field changes |
| Session.WalletManager.AccountsTick | hooks/useWallet.tsx:142-147 | the 20 s tick logs `fetchMarginAccounts` and `fetchWalletBalances` exactly when connected with a margin account selected; otherwise nothing |
| Session.WalletManager.HistoryTick | hooks/useWallet.tsx:149-153 | the 180 s tick logs `fetchTradeHistory` exactly when connected with a margin account selected; otherwise nothing |
| Session.WalletManager.Unmount | hooks/useWallet.tsx:86 | unmounting removes a pending listener and tears the adapter down; with no adapter the store is unchanged |
| Session.WalletManager.Status | hooks/useWallet.tsx:155 | the hook returns the published `connected` flag and the current adapter |

## Left out

- components/Modal.tsx: a presentational dialog with no state or behaviour.
- React mechanics: re-rendering, `useMemo` and dependency tracking. Each effect is a method the environment calls when the effect's dependencies change.
- Timers: each `useInterval` tick is a method call, and the periods are kept only as constants. Clearing a timer on unmount appears only as the `mounted` precondition of the ticks.
- Async code: only the `await` of `fetchMarginAccounts` is modelled, as a completion event. A rejected promise is not modelled: the run then stays awaiting and never fetches trade history.
- Adapters: the adapter classes, their `connect()` handshake, `publicKey.toString()` and a constructor that throws are treated as foreign. An adapter is an opaque value, and its `connected` flag and key are method parameters.
- Effects of the store actions: what each fetch action does is not modelled. A call is a log entry, and data the actions publish enters through `PublishAccountData`.
- Storage and logging: the durability and JSON encoding of `useLocalStorageState` are not modelled, nor are the zustand store's internals or `console.log`.
- Guarantees the code does not give: removing handlers at teardown and ignoring events from retired adapters. The code does neither, so the model states the opposite behaviour.
- Strings: `string` counts Unicode scalar values, not UTF-16 code units; they agree for the ASCII (base58) public keys the hook redacts.
- Redaction.Substr: the general contract states only the length bound. Its meaning for the two calls the source makes is proved in `SubstrHead` and `SubstrTail`.
