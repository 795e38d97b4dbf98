/**
 * The primary backend (src/sensiblequery-provider.ts): every operation is
 * delegated to the query-service client library, whose endpoints are not part
 * of this model; what remains is the prefix choice, the argument passing, and
 * the reshaping of the library's answers into the canonical entities.
 */
module Sensiblequery {
  import opened Wrappers
  import opened Text
  import opened Lists
  import opened Entities
  import opened Provider

  const MainnetPrefix := "https://api.sensiblequery.com"
  const TestnetPrefix := "https://api.sensiblequery.com/test"

  /** The provider: its network and the prefix its library client was built with; its name is fixed. */
  datatype SensiblequeryProvider = SensiblequeryProvider(network: Network, apiPrefix: string) {
    const base: BaseProvider := BaseProvider(network, Sensiblequery)
  }

  /** An explicit, non-empty prefix wins; otherwise the network picks one. */
  function NewSensiblequery(network: Network, apiPrefix: Option<string>): (p: SensiblequeryProvider)
    ensures p.base == BaseProvider(network, Sensiblequery)
    ensures Given(apiPrefix) ==> p.apiPrefix == apiPrefix.value
    ensures !Given(apiPrefix) && network == Mainnet ==> p.apiPrefix == "https://api.sensiblequery.com"
    ensures !Given(apiPrefix) && network == Testnet ==> p.apiPrefix == "https://api.sensiblequery.com/test"
  {
    var prefix := if Given(apiPrefix) then apiPrefix.value
      else if network == Mainnet then MainnetPrefix else TestnetPrefix;
    SensiblequeryProvider(network, prefix)
  }

  /** The client-library methods the provider calls, with the arguments it passes. */
  datatype LibCall =
    | ApiGetUtxos(address: string, page: Option<Page>)
    | ApiGetBalance(address: string)
    | ApiGetRawTx(txid: string)
    | ApiBroadcast(rawtx: string)
    | ApiGetTokenUtxos(codehash: string, genesis: string, address: string, page: Option<Page>)
    | ApiGetTokenBalance(codehash: string, genesis: string, address: string)
    | ApiGetTokenList(address: string, page: Option<Page>)
    | ApiGetNftUtxoDatas(codehash: string, genesis: string, address: string, page: Option<Page>)
    | ApiGetNftUtxoDetail(codehash: string, genesis: string, tokenIndex: string)
    | ApiGetNftSummary(address: string, page: Option<Page>)
    | ApiGetTxOutSpent(txId: string, outputIndex: int)
    | ApiGetNftAuctionUtxoDetails(codehash: string, nftid: string, flag: bool)

  /** Which contract call a library call answers, if any. */
  function CallOf(lc: LibCall): Option<Call> {
    match lc
    case ApiGetUtxos(address, page) => Some(UtxosCall(address, page))
    case ApiGetBalance(address) => Some(BalanceCall(address))
    case ApiGetRawTx(txid) => Some(RawTxCall(txid))
    case ApiBroadcast(rawtx) => Some(BroadcastCall(rawtx))
    case ApiGetTokenUtxos(codehash, genesis, address, page) => Some(TokenUtxosCall(codehash, genesis, address, page))
    case ApiGetTokenBalance(codehash, genesis, address) => Some(TokenBalanceCall(codehash, genesis, address))
    case ApiGetTokenList(address, page) => Some(TokenListCall(address, page))
    case ApiGetNftUtxoDatas(codehash, genesis, address, page) => Some(NftUtxosCall(codehash, genesis, address, page))
    case ApiGetNftUtxoDetail(codehash, genesis, tokenIndex) => Some(NftUtxoCall(codehash, genesis, tokenIndex))
    case ApiGetNftSummary(address, page) => Some(NftCollectionListCall(address, page))
    case ApiGetTxOutSpent(txId, outputIndex) => Some(IsUtxoSpentCall(txId, outputIndex))
    case ApiGetNftAuctionUtxoDetails(_, _, _) => None
  }

  /**
   * Every operation is overridden and handed to the library with its
   * arguments unchanged, paging included: the call can be read back whole.
   */
  function LibraryCall(call: Call): (lc: LibCall)
    ensures CallOf(lc) == Some(call)
    ensures Overrides(Sensiblequery, OpOf(call))
  {
    match call
    case UtxosCall(address, page) => ApiGetUtxos(address, page)
    case BalanceCall(address) => ApiGetBalance(address)
    case RawTxCall(txid) => ApiGetRawTx(txid)
    case BroadcastCall(rawtx) => ApiBroadcast(rawtx)
    case TokenUtxosCall(codehash, genesis, address, page) => ApiGetTokenUtxos(codehash, genesis, address, page)
    case TokenBalanceCall(codehash, genesis, address) => ApiGetTokenBalance(codehash, genesis, address)
    case TokenListCall(address, page) => ApiGetTokenList(address, page)
    case NftUtxosCall(codehash, genesis, address, page) => ApiGetNftUtxoDatas(codehash, genesis, address, page)
    case NftUtxoCall(codehash, genesis, tokenIndex) => ApiGetNftUtxoDetail(codehash, genesis, tokenIndex)
    case NftCollectionListCall(address, page) => ApiGetNftSummary(address, page)
    case IsUtxoSpentCall(txId, outputIndex) => ApiGetTxOutSpent(txId, outputIndex)
  }

  /** Different calls reach the library as different calls. */
  lemma LibraryCallInjective(c1: Call, c2: Call)
    ensures LibraryCall(c1) == LibraryCall(c2) <==> c1 == c2
  {
  }

  /**
   * getNftAuctionUtxo asks for the auction details of one NFT, with the flag
   * false; it is not one of the contract's operations.
   */
  function AuctionQuery(codehash: string, nftid: string): (lc: LibCall)
    ensures CallOf(lc) == None
    ensures forall call :: LibraryCall(call) != lc
    ensures lc.ApiGetNftAuctionUtxoDetails? && lc.codehash == codehash && lc.nftid == nftid && !lc.flag
  {
    ApiGetNftAuctionUtxoDetails(codehash, nftid, false)
  }

  // ----- Token list --------------------------------------------------------

  datatype TokenWire = TokenWire(
    codehash: string, genesis: string, sensibleId: string, name: string, symbol: string,
    decimal: int, balance: string, pendingBalance: string)

  /** The library's answer: the tokens sit under a `list` envelope. */
  datatype TokenListReply = TokenListReply(list: seq<TokenWire>)

  function TokenWireOf(t: Token): TokenWire {
    TokenWire(t.codehash, t.genesis, t.sensibleId, t.name, t.symbol, t.decimal, t.balance, t.pendingBalance)
  }

  function TokenOf(w: TokenWire): Token {
    Token(w.codehash, w.genesis, w.sensibleId, w.name, w.symbol, w.decimal, w.balance, w.pendingBalance)
  }

  /** getTokenList: the envelope's list, each of the eight fields copied by name. */
  function TokenListOf(res: TokenListReply): (ts: seq<Token>)
    ensures |ts| == |res.list|
    ensures forall i :: 0 <= i < |ts| ==> TokenWireOf(ts[i]) == res.list[i]
  {
    Map(TokenOf, res.list)
  }

  /** The copy is exact in both directions. */
  lemma TokenListOfInverse(res: TokenListReply, ts: seq<Token>)
    ensures Map(TokenWireOf, TokenListOf(res)) == res.list
    ensures TokenListOf(TokenListReply(Map(TokenWireOf, ts))) == ts
  {
  }

  // ----- NFT outputs -------------------------------------------------------

  datatype NftUtxoWire = NftUtxoWire(
    txid: string, vout: int, tokenIndex: string, address: string, metaTxId: string, metaOutputIndex: int)

  /** The library's answer to getNftUtxoDatas: the outputs sit under `utxo`. */
  datatype NftUtxoDataReply = NftUtxoDataReply(utxo: seq<NftUtxoWire>)

  function NftUtxoWireOf(u: NftUtxo): NftUtxoWire {
    NftUtxoWire(u.txId, u.outputIndex, u.tokenIndex, u.tokenAddress, u.metaTxId, u.metaOutputIndex)
  }

  /** getNftUtxo: `txid`/`vout`/`address` become `txId`/`outputIndex`/`tokenAddress`, the rest is copied. */
  function NftUtxoOf(w: NftUtxoWire): (u: NftUtxo)
    ensures NftUtxoWireOf(u) == w
  {
    NftUtxo(w.txid, w.vout, w.tokenIndex, w.address, w.metaTxId, w.metaOutputIndex)
  }

  /** getNftUtxos: the record remapping of getNftUtxo applied to each output, in order. */
  function NftUtxosOf(res: NftUtxoDataReply): (us: seq<NftUtxo>)
    ensures |us| == |res.utxo|
    ensures forall i :: 0 <= i < |us| ==> us[i] == NftUtxoOf(res.utxo[i]) && NftUtxoWireOf(us[i]) == res.utxo[i]
  {
    Map(NftUtxoOf, res.utxo)
  }

  lemma NftUtxosOfInverse(res: NftUtxoDataReply, us: seq<NftUtxo>)
    ensures Map(NftUtxoWireOf, NftUtxosOf(res)) == res.utxo
    ensures NftUtxosOf(NftUtxoDataReply(Map(NftUtxoWireOf, us))) == us
  {
  }

  // ----- NFT collections ---------------------------------------------------

  datatype NftSummaryWire = NftSummaryWire(
    codehash: string, genesis: string, sensibleId: string, count: nat, pendingCount: nat)

  /** One collection: `count` is the decimal text of confirmed plus pending. */
  function NftCollectionOf(w: NftSummaryWire): (c: NftCollection)
    ensures c.codehash == w.codehash && c.genesis == w.genesis && c.sensibleId == w.sensibleId
    ensures c.count == DecimalString(w.count + w.pendingCount)
    ensures ParseDecimal(c.count) == Some(w.count + w.pendingCount)
  {
    ParseDecimalString(w.count + w.pendingCount);
    NftCollection(w.codehash, w.genesis, w.sensibleId, DecimalString(w.count + w.pendingCount))
  }

  /** getNftCollectionList */
  function NftCollectionsOf(res: seq<NftSummaryWire>): (cs: seq<NftCollection>)
    ensures |cs| == |res|
    ensures forall i :: 0 <= i < |cs| ==>
      cs[i] == NftCollectionOf(res[i]) && cs[i].count == DecimalString(res[i].count + res[i].pendingCount)
  {
    Map(NftCollectionOf, res)
  }

  /** Three confirmed and one pending are reported as "4". */
  lemma NftCollectionsExample()
    ensures NftCollectionsOf([NftSummaryWire("c1", "g1", "s1", 3, 1)]) == [NftCollection("c1", "g1", "s1", "4")]
  {
  }

  // ----- Spend check and auction -------------------------------------------

  /** A JavaScript value as the library may return it (numbers restricted to integers). */
  datatype JsValue = Undefined | Null | Bool(b: bool) | Number(n: int) | Str(s: string) | Record

  predicate Truthy(v: JsValue) {
    match v
    case Undefined => false
    case Null => false
    case Bool(b) => b
    case Number(n) => n != 0
    case Str(s) => s != ""
    case Record => true
  }

  /** getIsUtxoSpent: true exactly when the library's answer is not one of the falsy values. */
  function SpentOf(res: JsValue): (spent: bool)
    ensures spent <==> res !in {Undefined, Null, Bool(false), Number(0), Str("")}
  {
    if Truthy(res) then true else false
  }

  datatype AuctionDetailWire = AuctionDetailWire(txid: string, vout: int)

  /** The auction outpoint of one NFT: the query made and the answer's first detail. */
  function NftAuctionUtxo(codehash: string, nftid: string, answer: LibCall -> seq<AuctionDetailWire>): (r: Option<Outpoint>)
    ensures r.Some? <==> |answer(AuctionQuery(codehash, nftid))| > 0
    ensures r.Some? ==>
      r.value == Outpoint(answer(AuctionQuery(codehash, nftid))[0].txid, answer(AuctionQuery(codehash, nftid))[0].vout)
  {
    AuctionUtxoOf(answer(AuctionQuery(codehash, nftid)))
  }

  /** getNftAuctionUtxo: the outpoint of the first detail, or nothing for an empty answer. */
  function AuctionUtxoOf(details: seq<AuctionDetailWire>): (r: Option<Outpoint>)
    ensures r.Some? <==> |details| > 0
    ensures r.Some? ==> r.value == Outpoint(details[0].txid, details[0].vout)
  {
    if |details| > 0 then Some(Outpoint(details[0].txid, details[0].vout)) else None
  }
}
