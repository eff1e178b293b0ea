/**
 * Client code that drives a `WalletManager` through the hook's scenarios and
 * checks, from the method contracts alone, what the outside world observes.
 */
module Scenarios {
  import opened Wrappers
  import opened WalletProviders
  import opened Refresh
  import opened Trace
  import opened Session

  const ENDPOINT: string := "https://api.mainnet-beta.solana.com"
  const KEY: string := "Ab1Cd2Ef3Gh4Ij5"

  /** The document is still loading: construction waits for `load`, happens once, and the listener is gone. */
  method DeferredConstruction() {
    DefaultSelection();
    var m := new WalletManager(None, None, ENDPOINT);
    m.AdapterEffect(false);
    assert m.loadListener.Some? && m.store.current.None?;
    m.FireLoad();
    assert m.store.current == Some(Adapter(0, SolWalletAdapter, "https://www.sollet.io", ENDPOINT));
    assert m.loadListener.None?;
    m.FireLoad();
    assert m.store.current == Some(Adapter(0, SolWalletAdapter, "https://www.sollet.io", ENDPOINT));
    assert m.nextAdapterId == 1;
  }

  /** The document is loaded: the adapter is built at once and no listener is left. */
  method ImmediateConstruction() {
    ProviderForEachEntry(2);
    var m := new WalletManager(Some("https://www.phantom.app"), None, ENDPOINT);
    m.AdapterEffect(true);
    assert m.loadListener.None?;
    assert m.store.current == Some(Adapter(0, PhantomWalletAdapter, "https://www.phantom.app", ENDPOINT));
  }

  /** A saved URL that no provider carries: nothing is built, loaded document or not. */
  method UnknownProvider() {
    var m := new WalletManager(Some("https://example.org"), None, ENDPOINT);
    assert WALLET_PROVIDERS[0].url != "https://example.org";
    m.AdapterEffect(true);
    m.AdapterEffect(false);
    assert m.store.current.None? && m.loadListener.None?;
  }

  /** Unmounting before `load` removes the listener, so the event builds nothing. */
  method UnmountBeforeLoad() {
    DefaultSelection();
    var m := new WalletManager(None, None, ENDPOINT);
    m.AdapterEffect(false);
    m.Unmount(false);
    m.FireLoad();
    assert m.store.current.None? && m.log == [];
  }

  /** An empty selection leaves the saved URL alone; a non-empty one replaces it. */
  method PersistRule() {
    var m := new WalletManager(None, None, ENDPOINT);
    m.SelectProviderUrl(Some(""));
    assert m.savedUrl == DEFAULT_PROVIDER.url;
    m.SelectProviderUrl(None);
    assert m.savedUrl == DEFAULT_PROVIDER.url;
    m.SelectProviderUrl(Some("https://www.phantom.app"));
    assert m.savedUrl == "https://www.phantom.app";
  }

  /** A connected manager with one adapter, as the next scenarios start. */
  method Connected() returns (m: WalletManager, a: Adapter)
    ensures fresh(m) && m.Valid() && m.mounted
    ensures m.store.connected && m.store.current == Some(a) && m.handlers == [a] && m.effectWallet == Some(a)
    ensures m.log == [Notified(ConnectNote(KEY))] + ConnectCalls(0)
    ensures m.awaiting == {0} && m.runs == 1 && m.store.selectedMarginAccount.None?
  {
    DefaultSelection();
    m := new WalletManager(None, None, ENDPOINT);
    m.AdapterEffect(true);
    a := m.store.current.value;
    m.WalletEffect(false);
    m.OnConnect(a, KEY);
  }

  /** Trade history is fetched only after the connect run's margin-account fetch completes, and once. */
  method HistoryAfterMarginAccounts() {
    var m, a := Connected();
    assert Called(FetchTradeHistory, ConnectRun(0)) !in ConnectCalls(0);
    assert m.log[4] == Called(FetchMarginAccounts, ConnectRun(0));
    m.CompleteMarginAccounts(0);
    assert m.log[5] == Called(FetchTradeHistory, ConnectRun(0));
    m.CompleteMarginAccounts(0);
    assert |m.log| == 6;
  }

  /** Ticks refresh only while connected with a margin account selected. */
  method TicksFollowGuard() {
    var m, a := Connected();
    m.HistoryTick();
    assert |m.log| == 5;
    m.PublishAccountData([7], Some(7), [1, 2]);
    m.HistoryTick();
    assert m.log[5] == Called(FetchTradeHistory, HistoryTimer);
    m.OnDisconnect(a);
    assert !m.store.connected && m.store.marginAccounts == [] && m.store.selectedMarginAccount.None?;
    assert m.store.tradeHistory == [];
    assert m.log[6] == Notified(DisconnectNote());
    m.AccountsTick();
    assert |m.log| == 7;
  }

  /** Teardown while the adapter reports connected calls `disconnect()` once and publishes `connected = false`. */
  method TeardownWhileConnected() {
    DefaultSelection();
    var m := new WalletManager(None, None, ENDPOINT);
    m.AdapterEffect(true);
    var a := m.store.current.value;
    m.WalletEffect(false);
    m.OnConnect(a, KEY);
    m.Unmount(true);
    assert !m.store.connected;
    assert m.log[|m.log| - 1] == DisconnectCalled(a.id);
  }

  /** A manager that switched from Sollet.io to Phantom: two adapters carry handlers. */
  method SwitchedProvider() returns (m: WalletManager, retired: Adapter, replacement: Adapter)
    ensures fresh(m) && m.Valid() && m.mounted
    ensures m.handlers == [retired, replacement] && retired != replacement
    ensures m.store.current == Some(replacement) && !m.store.connected
    ensures replacement.kind == PhantomWalletAdapter
  {
    DefaultSelection();
    ProviderForEachEntry(2);
    m := new WalletManager(None, None, ENDPOINT);
    m.AdapterEffect(true);
    retired := m.store.current.value;
    m.WalletEffect(false);
    m.SelectProviderUrl(Some("https://www.phantom.app"));
    m.AdapterEffect(true);
    replacement := m.store.current.value;
    m.WalletEffect(false);
  }

  /**
   * Switching provider keeps the old adapter's handlers: a later `connect`
   * event from the retired adapter still publishes `connected = true`.
   */
  method RetiredAdapterStillPublishes() {
    var m, retired, replacement := SwitchedProvider();
    m.OnConnect(retired, KEY);
    assert m.store.connected && m.store.current == Some(replacement);
  }
}
