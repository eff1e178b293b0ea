/**
 * The session-lifecycle manager behind the `useWallet` hook
 * (hooks/useWallet.tsx, lines 39-156): each effect, handler and tick of the
 * hook is a method of `WalletManager`, run when the corresponding change or
 * event happens. Adapters, the host document and timers are outside: their
 * state reaches the methods as parameters.
 */
module Session {
  import opened Wrappers
  import opened WalletProviders
  import opened Redaction
  import opened Refresh
  import opened Trace

  /** An adapter instance, known by a fresh id and by what it was built from. */
  datatype Adapter = Adapter(id: nat, kind: AdapterKind, providerUrl: string, endpoint: string)

  /** What the `load` listener captured: the provider, the saved URL and the endpoint of its effect run. */
  datatype BuildRequest = BuildRequest(provider: Provider, url: string, endpoint: string)

  /**
   * The slice of the application store the hook reads and writes. Margin
   * accounts and trades are opaque ids; `selectedMarginAccount` is
   * `state.selectedMarginAccount.current`.
   */
  datatype Store = Store(
    current: Option<Adapter>,
    connected: bool,
    providerUrl: Option<string>,
    endpoint: string,
    marginAccounts: seq<nat>,
    selectedMarginAccount: Option<nat>,
    tradeHistory: seq<nat>)

  /** The JavaScript truthiness of the selected provider URL: present and non-empty. */
  predicate IsSelected(url: Option<string>) {
    url.Some? && url.value != ""
  }

  const CONNECTED_MESSAGE: string := "Wallet connected"
  const DISCONNECTED_MESSAGE: string := "Disconnected from wallet"

  function ConnectNote(publicKey: string): (n: Notification)
    ensures n.kind.None? && n.message == CONNECTED_MESSAGE
    ensures n.description == Some(ConnectedDescription(publicKey))
  {
    Notification(None, CONNECTED_MESSAGE, Some(ConnectedDescription(publicKey)))
  }

  function DisconnectNote(): (n: Notification)
    ensures n.kind == Some("info") && n.message == DISCONNECTED_MESSAGE && n.description.None?
  {
    Notification(Some("info"), DISCONNECTED_MESSAGE, None)
  }

  /** The adapter `new (provider.adapter || Wallet)(savedProviderUrl, endpoint)` yields, with id `id`. */
  function NewAdapter(req: BuildRequest, id: nat): (a: Adapter)
    ensures a.id == id && a.kind == ConstructorOf(req.provider)
    ensures a.providerUrl == req.url && a.endpoint == req.endpoint
  {
    Adapter(id, ConstructorOf(req.provider), req.url, req.endpoint)
  }

  class WalletManager {
    /** The store slice (zustand state). */
    var store: Store
    /** The `walletProvider` slot of local storage. */
    var savedUrl: string
    /** The `load` listener registered on the window, if any. */
    var loadListener: Option<BuildRequest>
    /** The adapter the wallet effect last ran for; its cleanup is the teardown of that adapter. */
    var effectWallet: Option<Adapter>
    /** Every adapter on which `connect`/`disconnect` handlers were registered, oldest first; none is ever removed. */
    var handlers: seq<Adapter>
    /** Connect runs suspended at `await actions.fetchMarginAccounts()`. */
    var awaiting: set<nat>
    /** Number of connect-handler runs so far. */
    var runs: nat
    /** Id the next constructed adapter gets. */
    var nextAdapterId: nat
    /** Everything sent to the outside world, in order. */
    var log: seq<Entry>
    /** False once the hook is unmounted: effects no longer run and timers no longer fire. */
    var mounted: bool

    ghost predicate Valid()
      reads this
    {
      (forall i :: 0 <= i < |handlers| ==> handlers[i].id < nextAdapterId) &&
      (forall i, j :: 0 <= i < j < |handlers| ==> handlers[i].id < handlers[j].id) &&
      (effectWallet.None? <==> handlers == []) &&
      (effectWallet.Some? ==> handlers[|handlers| - 1] == effectWallet.value) &&
      (effectWallet.Some? ==> store.current.Some?) &&
      (store.current.Some? ==> store.current.value.id < nextAdapterId) &&
      (store.current.Some? && store.current != effectWallet ==>
        forall i :: 0 <= i < |handlers| ==> handlers[i].id < store.current.value.id) &&
      Ordered(log, awaiting, runs)
    }

    /**
     * Mounting the hook: the saved URL is the stored one, or the default
     * provider's when nothing is stored; no adapter exists yet.
     */
    constructor (stored: Option<string>, providerUrl: Option<string>, endpoint: string)
      ensures Valid() && mounted
      ensures savedUrl == if stored.Some? then stored.value else DEFAULT_PROVIDER.url
      ensures store == Store(None, false, providerUrl, endpoint, [], None, [])
      ensures loadListener.None? && effectWallet.None? && handlers == []
      ensures log == [] && awaiting == {} && runs == 0 && nextAdapterId == 0
    {
      store := Store(None, false, providerUrl, endpoint, [], None, []);
      savedUrl := stored.GetOr(DEFAULT_PROVIDER.url);
      loadListener := None;
      effectWallet := None;
      handlers := [];
      awaiting := {};
      runs := 0;
      nextAdapterId := 0;
      log := [];
      mounted := true;
      EmptyOrdered();
    }

    /**
     * The store's selected provider URL changes, and the persist effect runs:
     * the saved URL is overwritten only by a present, non-empty URL.
     */
    method SelectProviderUrl(url: Option<string>)
      requires Valid() && mounted
      modifies this`store, this`savedUrl
      ensures Valid()
      ensures store == old(store).(providerUrl := url)
      ensures IsSelected(url) ==> savedUrl == url.value
      ensures !IsSelected(url) ==> savedUrl == old(savedUrl)
    {
      store := store.(providerUrl := url);
      if IsSelected(url) {
        savedUrl := url.value;
      }
    }

    /** The store's connection endpoint changes (the adapter effect then runs again). */
    method SetEndpoint(endpoint: string)
      requires Valid() && mounted
      modifies this`store
      ensures Valid()
      ensures store == old(store).(endpoint := endpoint)
    {
      store := store.(endpoint := endpoint);
    }

    /** The store actions publish fetched data; the manager does not decide it. */
    method PublishAccountData(marginAccounts: seq<nat>, selected: Option<nat>, tradeHistory: seq<nat>)
      requires Valid()
      modifies this`store
      ensures Valid()
      ensures store == old(store).(marginAccounts := marginAccounts, selectedMarginAccount := selected,
                                   tradeHistory := tradeHistory)
    {
      store := store.(marginAccounts := marginAccounts, selectedMarginAccount := selected,
                      tradeHistory := tradeHistory);
    }

    /** `updateWallet`: a new adapter becomes `state.wallet.current`, replacing any previous one. */
    method Build(req: BuildRequest)
      requires Valid()
      modifies this`store, this`nextAdapterId
      ensures Valid()
      ensures store == old(store).(current := Some(NewAdapter(req, old(nextAdapterId))))
      ensures nextAdapterId == old(nextAdapterId) + 1
    {
      store := store.(current := Some(NewAdapter(req, nextAdapterId)));
      nextAdapterId := nextAdapterId + 1;
    }

    /**
     * The adapter-construction effect, run when the selected provider, the
     * saved URL or the endpoint changed. It first removes the listener of its
     * previous run. With no registry entry for the saved URL nothing is
     * built; with the document loaded the adapter is built at once; otherwise
     * one `load` listener is registered and nothing is built yet.
     */
    method AdapterEffect(documentComplete: bool)
      requires Valid() && mounted
      modifies this`store, this`nextAdapterId, this`loadListener
      ensures Valid()
      ensures ProviderFor(savedUrl).None? ==>
        loadListener.None? && store == old(store) && nextAdapterId == old(nextAdapterId)
      ensures ProviderFor(savedUrl).Some? && documentComplete ==>
        loadListener.None? && nextAdapterId == old(nextAdapterId) + 1 &&
        store == old(store).(current := Some(Adapter(old(nextAdapterId),
          ConstructorOf(ProviderFor(savedUrl).value), savedUrl, store.endpoint)))
      ensures ProviderFor(savedUrl).Some? && !documentComplete ==>
        loadListener == Some(BuildRequest(ProviderFor(savedUrl).value, savedUrl, store.endpoint)) &&
        store == old(store) && nextAdapterId == old(nextAdapterId)
    {
      loadListener := None;
      var provider := ProviderFor(savedUrl);
      if provider.Some? {
        var req := BuildRequest(provider.value, savedUrl, store.endpoint);
        if !documentComplete {
          loadListener := Some(req);
        } else {
          Build(req);
        }
      }
    }

    /** The window's `load` event: a registered listener builds the adapter once and removes itself. */
    method FireLoad()
      requires Valid()
      modifies this`store, this`nextAdapterId, this`loadListener
      ensures Valid()
      ensures loadListener.None?
      ensures old(loadListener).Some? ==>
        nextAdapterId == old(nextAdapterId) + 1 &&
        store == old(store).(current := Some(NewAdapter(old(loadListener).value, old(nextAdapterId))))
      ensures old(loadListener).None? ==> store == old(store) && nextAdapterId == old(nextAdapterId)
    {
      if loadListener.Some? {
        Build(loadListener.value);
        loadListener := None;
      }
    }

    /**
     * The teardown of the adapter the wallet effect last ran for: `disconnect()`
     * is called exactly when the adapter reports itself connected, and
     * `connected` is published as false in every case. Handlers stay registered.
     */
    method Teardown(adapterConnected: bool)
      requires Valid() && effectWallet.Some?
      modifies this`store, this`log
      ensures Valid()
      ensures store == old(store).(connected := false)
      ensures adapterConnected ==> log == old(log) + [DisconnectCalled(effectWallet.value.id)]
      ensures !adapterConnected ==> log == old(log)
    {
      if adapterConnected {
        AppendForeign(log, awaiting, runs, [DisconnectCalled(effectWallet.value.id)]);
        log := log + [DisconnectCalled(effectWallet.value.id)];
      }
      store := store.(connected := false);
    }

    /**
     * The wallet effect, run when `state.wallet.current` changed: the
     * previous run's cleanup tears down the adapter it ran for, then handlers
     * are registered on the new adapter. Earlier handlers are not removed.
     * `previousConnected` is the previous adapter's own `connected` flag.
     */
    method WalletEffect(previousConnected: bool)
      requires Valid() && mounted
      modifies this`store, this`log, this`handlers, this`effectWallet
      ensures Valid()
      ensures old(store.current) == old(effectWallet) ==>
        store == old(store) && log == old(log) && handlers == old(handlers) && effectWallet == old(effectWallet)
      ensures old(store.current) != old(effectWallet) ==>
        effectWallet == old(store.current) &&
        store == old(store).(connected := if old(effectWallet).Some? then false else old(store.connected)) &&
        (old(effectWallet).Some? && previousConnected ==>
          log == old(log) + [DisconnectCalled(old(effectWallet).value.id)]) &&
        (old(effectWallet).None? || !previousConnected ==> log == old(log)) &&
        handlers == old(handlers) + [old(store.current).value]
    {
      if store.current == effectWallet {
        return;
      }
      if effectWallet.Some? {
        Teardown(previousConnected);
      }
      handlers := handlers + [store.current.value];
      effectWallet := store.current;
    }

    /**
     * A `connect` event of `adapter` with public key `publicKey`. The handler
     * registered on that adapter runs whether or not it is still the current
     * one: it publishes `connected`, notifies with the redacted key, calls
     * three fetches and `fetchMarginAccounts`, and then awaits the latter.
     */
    method OnConnect(adapter: Adapter, publicKey: string)
      requires Valid()
      modifies this`store, this`log, this`awaiting, this`runs
      ensures Valid()
      ensures adapter !in old(handlers) ==>
        store == old(store) && log == old(log) && awaiting == old(awaiting) && runs == old(runs)
      ensures adapter in old(handlers) ==>
        store == old(store).(connected := true) &&
        log == old(log) + [Notified(ConnectNote(publicKey))] + ConnectCalls(old(runs)) &&
        awaiting == old(awaiting) + {old(runs)} && runs == old(runs) + 1
    {
      if adapter in handlers {
        store := store.(connected := true);
        AppendConnectRun(log, awaiting, runs, ConnectNote(publicKey));
        log := log + [Notified(ConnectNote(publicKey))] + ConnectCalls(runs);
        awaiting := awaiting + {runs};
        runs := runs + 1;
      }
    }

    /**
     * The `fetchMarginAccounts` promise of connect run `run` resolves: that
     * run resumes and calls `fetchTradeHistory`. Completions of other calls
     * resume nothing.
     */
    method CompleteMarginAccounts(run: nat)
      requires Valid()
      modifies this`log, this`awaiting
      ensures Valid()
      ensures run in old(awaiting) ==>
        log == old(log) + [Called(FetchTradeHistory, ConnectRun(run))] && awaiting == old(awaiting) - {run}
      ensures run !in old(awaiting) ==> log == old(log) && awaiting == old(awaiting)
    {
      if run in awaiting {
        CompleteRun(log, awaiting, runs, run);
        log := log + [Called(FetchTradeHistory, ConnectRun(run))];
        awaiting := awaiting - {run};
      }
    }

    /**
     * A `disconnect` event of `adapter`. The handler registered on it runs
     * whether or not it is still the current one: one store update clears the
     * session data, then an `info` notification follows.
     */
    method OnDisconnect(adapter: Adapter)
      requires Valid()
      modifies this`store, this`log
      ensures Valid()
      ensures adapter !in old(handlers) ==> store == old(store) && log == old(log)
      ensures adapter in old(handlers) ==>
        store == old(store).(connected := false, marginAccounts := [], selectedMarginAccount := None,
                             tradeHistory := []) &&
        log == old(log) + [Notified(DisconnectNote())]
    {
      if adapter in handlers {
        store := store.(connected := false, marginAccounts := [], selectedMarginAccount := None,
                        tradeHistory := []);
        AppendForeign(log, awaiting, runs, [Notified(DisconnectNote())]);
        log := log + [Notified(DisconnectNote())];
      }
    }

    /** The 20-second tick: margin accounts and balances, only while connected with a margin account selected. */
    method AccountsTick()
      requires Valid() && mounted
      modifies this`log
      ensures Valid()
      ensures log == old(log) + TickCalls(TickActions(AccountsRefresh, store.connected, store.selectedMarginAccount), AccountsTimer)
      ensures ShouldRefresh(store.connected, store.selectedMarginAccount) ==>
        log == old(log) + [Called(FetchMarginAccounts, AccountsTimer), Called(FetchWalletBalances, AccountsTimer)]
      ensures !ShouldRefresh(store.connected, store.selectedMarginAccount) ==> log == old(log)
    {
      var calls := TickCalls(TickActions(AccountsRefresh, store.connected, store.selectedMarginAccount), AccountsTimer);
      AppendForeign(log, awaiting, runs, calls);
      log := log + calls;
    }

    /** The 180-second tick: trade history, only while connected with a margin account selected. */
    method HistoryTick()
      requires Valid() && mounted
      modifies this`log
      ensures Valid()
      ensures log == old(log) + TickCalls(TickActions(HistoryRefresh, store.connected, store.selectedMarginAccount), HistoryTimer)
      ensures ShouldRefresh(store.connected, store.selectedMarginAccount) ==>
        log == old(log) + [Called(FetchTradeHistory, HistoryTimer)]
      ensures !ShouldRefresh(store.connected, store.selectedMarginAccount) ==> log == old(log)
    {
      var calls := TickCalls(TickActions(HistoryRefresh, store.connected, store.selectedMarginAccount), HistoryTimer);
      AppendForeign(log, awaiting, runs, calls);
      log := log + calls;
    }

    /**
     * Unmounting: the adapter effect's cleanup removes a pending `load`
     * listener, the wallet effect's cleanup tears down its adapter, timers stop.
     */
    method Unmount(adapterConnected: bool)
      requires Valid() && mounted
      modifies this`store, this`log, this`loadListener, this`mounted
      ensures Valid() && !mounted && loadListener.None?
      ensures old(effectWallet).Some? ==> store == old(store).(connected := false)
      ensures old(effectWallet).Some? && adapterConnected ==>
        log == old(log) + [DisconnectCalled(old(effectWallet).value.id)]
      ensures old(effectWallet).None? || !adapterConnected ==> log == old(log)
      ensures old(effectWallet).None? ==> store == old(store)
    {
      loadListener := None;
      if effectWallet.Some? {
        Teardown(adapterConnected);
      }
      mounted := false;
    }

    /** What the hook returns: `{ connected, wallet }`. */
    method Status() returns (connected: bool, wallet: Option<Adapter>)
      requires Valid()
      ensures connected == store.connected && wallet == store.current
      ensures wallet.Some? ==> wallet.value.id < nextAdapterId
    {
      connected, wallet := store.connected, store.current;
    }
  }
}
