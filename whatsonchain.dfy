/**
 * The minimal backend (src/whatsonchain-provider.ts): four operations against
 * a public explorer, no authentication; every other operation keeps the base
 * provider's default.
 */
module WhatsOnChain {
  import opened Wrappers
  import opened Text
  import opened Lists
  import opened Entities
  import opened Provider

  const MainnetPrefix := "https://api.whatsonchain.com/v1/bsv/main"
  const TestnetPrefix := "https://api.whatsonchain.com/v1/bsv/test"

  /** The provider: its network and API prefix; its name is fixed. */
  datatype WhatsOnChainProvider = WhatsOnChainProvider(network: Network, apiPrefix: string) {
    const base: BaseProvider := BaseProvider(network, Whatsonchain)
  }

  /** Construction never fails; each network has its own prefix. */
  function NewWhatsOnChain(network: Network): (p: WhatsOnChainProvider)
    ensures p.base == BaseProvider(network, Whatsonchain)
    ensures network == Mainnet ==> p.apiPrefix == "https://api.whatsonchain.com/v1/bsv/main"
    ensures network == Testnet ==> p.apiPrefix == "https://api.whatsonchain.com/v1/bsv/test"
  {
    WhatsOnChainProvider(network, if network == Mainnet then MainnetPrefix else TestnetPrefix)
  }

  lemma StartsWithPrefix(prefix: string, rest: string)
    ensures StartsWith(prefix + rest, prefix)
  {
  }

  /**
   * The request an operation sends: a header-less GET below the prefix, or
   * for broadcast a POST of `{txhex}`; the default error for the rest.
   */
  function WocRequest(p: WhatsOnChainProvider, call: Call): (r: Result<HttpRequest, ProviderError>)
    ensures r.Failure? <==> !Overrides(Whatsonchain, OpOf(call))
    ensures r.Failure? ==> r.error == p.base.DefaultError(call) && r.error == Unsupported(Whatsonchain, OpOf(call))
    ensures r.Success? ==>
      StartsWith(r.value.url, p.apiPrefix + "/") && r.value.headers == map[] &&
      (r.value.HttpPost? <==> call.BroadcastCall?)
  {
    match call
    case UtxosCall(address, _) =>
      StartsWithPrefix(p.apiPrefix + "/", "address/" + address + "/unspent");
      Success(HttpGet(p.apiPrefix + "/" + ("address/" + address + "/unspent"), map[], map[]))
    case RawTxCall(txid) =>
      StartsWithPrefix(p.apiPrefix + "/", "tx/" + txid + "/hex");
      Success(HttpGet(p.apiPrefix + "/" + ("tx/" + txid + "/hex"), map[], map[]))
    case BroadcastCall(rawtx) =>
      StartsWithPrefix(p.apiPrefix + "/", "tx/raw");
      Success(HttpPost(p.apiPrefix + "/" + "tx/raw", map["txhex" := rawtx], map[]))
    case BalanceCall(address) =>
      StartsWithPrefix(p.apiPrefix + "/", "address/" + address + "/balance");
      Success(HttpGet(p.apiPrefix + "/" + ("address/" + address + "/balance"), map[], map[]))
    case _ => Failure(p.base.DefaultError(call))
  }

  /** getUtxos asks for `/address/{address}/unspent` whatever the paging argument. */
  lemma UtxosRequest(p: WhatsOnChainProvider, address: string, page: Option<Page>)
    ensures WocRequest(p, UtxosCall(address, page)) ==
      Success(HttpGet(p.apiPrefix + "/address/" + address + "/unspent", map[], map[]))
  {
    assert p.apiPrefix + "/" + ("address/" + address + "/unspent") == p.apiPrefix + "/address/" + address + "/unspent";
  }

  /** getRawTx asks for `/tx/{txid}/hex`. */
  lemma RawTxRequest(p: WhatsOnChainProvider, txid: string)
    ensures WocRequest(p, RawTxCall(txid)) == Success(HttpGet(p.apiPrefix + "/tx/" + txid + "/hex", map[], map[]))
  {
    assert p.apiPrefix + "/" + ("tx/" + txid + "/hex") == p.apiPrefix + "/tx/" + txid + "/hex";
  }

  /** broadcast posts `{txhex: rawtx}` to `/tx/raw`. */
  lemma BroadcastRequest(p: WhatsOnChainProvider, rawtx: string)
    ensures WocRequest(p, BroadcastCall(rawtx)) == Success(HttpPost(p.apiPrefix + "/tx/raw", map["txhex" := rawtx], map[]))
  {
    assert p.apiPrefix + "/" + "tx/raw" == p.apiPrefix + "/tx/raw";
  }

  /** getBalance asks for `/address/{address}/balance`. */
  lemma BalanceRequest(p: WhatsOnChainProvider, address: string)
    ensures WocRequest(p, BalanceCall(address)) ==
      Success(HttpGet(p.apiPrefix + "/address/" + address + "/balance", map[], map[]))
  {
    assert p.apiPrefix + "/" + ("address/" + address + "/balance") == p.apiPrefix + "/address/" + address + "/balance";
  }

  /** No request depends on the paging argument. */
  lemma WocRequestIgnoresPage(p: WhatsOnChainProvider, call: Call)
    ensures WocRequest(p, WithoutPage(call)) == WocRequest(p, call)
  {
  }

  // ----- Response normalisers ----------------------------------------------

  datatype UtxoWire = UtxoWire(tx_hash: string, tx_pos: int, value: int)

  datatype BalanceWire = BalanceWire(confirmed: int, unconfirmed: int, utxoCount: int)

  function UtxoWireOf(u: Utxo): UtxoWire {
    UtxoWire(u.txId, u.outputIndex, u.satoshis)
  }

  /** getUtxos: `tx_hash`/`tx_pos`/`value` become `txId`/`outputIndex`/`satoshis`; the address is the argument's. */
  function UtxosOf(res: seq<UtxoWire>, address: string): (us: seq<Utxo>)
    ensures |us| == |res|
    ensures forall i :: 0 <= i < |us| ==> us[i].address == address && UtxoWireOf(us[i]) == res[i]
  {
    Map((w: UtxoWire) => Utxo(w.tx_hash, w.tx_pos, w.value, address), res)
  }

  lemma UtxosOfInverse(res: seq<UtxoWire>, us: seq<Utxo>, address: string)
    ensures Map(UtxoWireOf, UtxosOf(res, address)) == res
    ensures (forall i :: 0 <= i < |us| ==> us[i].address == address) ==>
      UtxosOf(Map(UtxoWireOf, us), address) == us
  {
  }

  /** Normalising two pages one at a time gives the normalised concatenation. */
  lemma UtxosOfConcat(xs: seq<UtxoWire>, ys: seq<UtxoWire>, address: string)
    ensures UtxosOf(xs + ys, address) == UtxosOf(xs, address) + UtxosOf(ys, address)
  {
  }

  /** One upstream output `{aa, 0, 1000}` for address "1Abc". */
  lemma UtxosExample()
    ensures UtxosOf([UtxoWire("aa", 0, 1000)], "1Abc") == [Utxo("aa", 0, 1000, "1Abc")]
  {
  }

  /** getBalance: `confirmed`/`unconfirmed`/`utxoCount` become `balance`/`pendingBalance`/`utxoCount`. */
  function BalanceOf(w: BalanceWire): (b: Balance)
    ensures BalanceWire(b.balance, b.pendingBalance, b.utxoCount) == w
  {
    Balance(w.confirmed, w.unconfirmed, w.utxoCount)
  }
}
