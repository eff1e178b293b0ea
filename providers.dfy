/**
 * The fixed, ordered registry of wallet providers and the lookup of the
 * provider chosen by the persisted URL (hooks/useWallet.tsx, lines 17-56).
 */
module WalletProviders {
  import opened Wrappers

  /** The adapter classes a provider can be built with; each is foreign code. */
  datatype AdapterKind =
    | SolWalletAdapter        // the default `Wallet` of @project-serum/sol-wallet-adapter
    | SolletExtensionAdapter
    | PhantomWalletAdapter

  /** A registry entry; `adapter` is absent when the default adapter is used. */
  datatype Provider = Provider(name: string, url: string, icon: string, adapter: Option<AdapterKind>)

  const ASSET_URL: string := "https://cdn.jsdelivr.net/gh/solana-labs/oyster@main/assets/wallets"

  const WALLET_PROVIDERS: seq<Provider> := [
    Provider("Sollet.io", "https://www.sollet.io", ASSET_URL + "/sollet.svg", None),
    Provider("Sollet Extension", "https://www.sollet.io/extension", ASSET_URL + "/sollet.svg",
             Some(SolletExtensionAdapter)),
    Provider("Phantom", "https://www.phantom.app", "https://www.phantom.app/img/logo.png",
             Some(PhantomWalletAdapter))
  ]

  const DEFAULT_PROVIDER: Provider := WALLET_PROVIDERS[0]

  /** Index of the first entry of `ps` whose url is `url` (JavaScript's `Array.prototype.find`). */
  function FindUrl(ps: seq<Provider>, url: string): (r: Option<nat>)
    ensures r.Some? ==> r.value < |ps| && ps[r.value].url == url
    ensures r.Some? ==> forall j :: 0 <= j < r.value ==> ps[j].url != url
    ensures r.None? ==> forall j :: 0 <= j < |ps| ==> ps[j].url != url
  {
    if ps == [] then None
    else if ps[0].url == url then Some(0)
    else
      match FindUrl(ps[1..], url)
      case None => None
      case Some(i) => Some(i + 1)
  }

  /** The provider the saved URL selects, if any registry entry carries that URL. */
  function ProviderFor(savedUrl: string): (r: Option<Provider>)
    ensures r.Some? ==> r.value.url == savedUrl
    ensures r.Some? ==> exists i :: 0 <= i < |WALLET_PROVIDERS| && WALLET_PROVIDERS[i] == r.value
    ensures r.None? <==> forall i :: 0 <= i < |WALLET_PROVIDERS| ==> WALLET_PROVIDERS[i].url != savedUrl
  {
    match FindUrl(WALLET_PROVIDERS, savedUrl)
    case None => None
    case Some(i) => Some(WALLET_PROVIDERS[i])
  }

  /** The adapter class `new (provider.adapter || Wallet)(...)` instantiates. */
  function ConstructorOf(p: Provider): (k: AdapterKind)
    ensures p.adapter.Some? ==> k == p.adapter.value
    ensures p.adapter.None? ==> k == SolWalletAdapter
  {
    p.adapter.GetOr(SolWalletAdapter)
  }

  /** No two registry entries share a URL, so the URL is a key. */
  predicate DistinctUrls(ps: seq<Provider>) {
    forall i, j :: 0 <= i < j < |ps| ==> ps[i].url != ps[j].url
  }

  lemma RegistryUrlsDistinct()
    ensures DistinctUrls(WALLET_PROVIDERS)
  {
  }

  /** With distinct URLs, looking up an entry's own URL finds exactly that entry. */
  lemma {:induction false} FindUrlOfEntry(ps: seq<Provider>, i: nat)
    requires DistinctUrls(ps)
    requires i < |ps|
    ensures FindUrl(ps, ps[i].url) == Some(i)
  {
  }

  /** Every registered provider is selected by its own URL. */
  lemma ProviderForEachEntry(i: nat)
    requires i < |WALLET_PROVIDERS|
    ensures ProviderFor(WALLET_PROVIDERS[i].url) == Some(WALLET_PROVIDERS[i])
  {
    RegistryUrlsDistinct();
    FindUrlOfEntry(WALLET_PROVIDERS, i);
  }

  /** With nothing stored, the saved URL is the default's, and that selects Sollet.io, built with the default adapter. */
  lemma DefaultSelection()
    ensures DEFAULT_PROVIDER.url == "https://www.sollet.io"
    ensures ProviderFor(DEFAULT_PROVIDER.url) == Some(WALLET_PROVIDERS[0])
    ensures WALLET_PROVIDERS[0].name == "Sollet.io"
    ensures ConstructorOf(WALLET_PROVIDERS[0]) == SolWalletAdapter
  {
    ProviderForEachEntry(0);
  }

  /** The registry's adapter classes: Sollet Extension and Phantom bring their own. */
  lemma RegistryConstructors()
    ensures ConstructorOf(WALLET_PROVIDERS[1]) == SolletExtensionAdapter
    ensures ConstructorOf(WALLET_PROVIDERS[2]) == PhantomWalletAdapter
  {
  }
}
