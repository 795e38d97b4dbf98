/**
 * The capability contract shared by all backends (src/base-provider.ts): the
 * networks and backend names, the eleven query operations, the errors they
 * raise, and the default behaviour of an operation a backend does not
 * override: it fails with "<name> do not support <operation>".
 */
module Provider {
  import opened Wrappers
  import opened Text

  datatype Network = Mainnet | Testnet

  function NetworkText(network: Network): string {
    match network
    case Mainnet => "mainnet"
    case Testnet => "testnet"
  }

  datatype ProviderName = Sensiblequery | Metasv | Whatsonchain

  function NameText(name: ProviderName): string {
    match name
    case Sensiblequery => "sensiblequery"
    case Metasv => "metasv"
    case Whatsonchain => "whatsonchain"
  }

  /** The query operations of the contract, one per method of the base provider. */
  datatype Operation =
    | GetRawTx | Broadcast | GetIsUtxoSpent | GetUtxos | GetBalance | GetTokenUtxos
    | GetTokenBalance | GetTokenList | GetNftUtxos | GetNftUtxo | GetNftCollectionList

  /** The method name as it appears in error messages. */
  function OpName(op: Operation): string {
    match op
    case GetRawTx => "getRawTx"
    case Broadcast => "broadcast"
    case GetIsUtxoSpent => "getIsUtxoSpent"
    case GetUtxos => "getUtxos"
    case GetBalance => "getBalance"
    case GetTokenUtxos => "getTokenUtxos"
    case GetTokenBalance => "getTokenBalance"
    case GetTokenList => "getTokenList"
    case GetNftUtxos => "getNftUtxos"
    case GetNftUtxo => "getNftUtxo"
    case GetNftCollectionList => "getNftCollectionList"
  }

  /** The optional `{cursor, size}` paging argument. */
  datatype Page = Page(cursor: int, size: int)

  /** One invocation of a contract operation, with its arguments. */
  datatype Call =
    | RawTxCall(txid: string)
    | BroadcastCall(rawtx: string)
    | IsUtxoSpentCall(txId: string, outputIndex: int)
    | UtxosCall(address: string, page: Option<Page>)
    | BalanceCall(address: string)
    | TokenUtxosCall(codehash: string, genesis: string, address: string, page: Option<Page>)
    | TokenBalanceCall(codehash: string, genesis: string, address: string)
    | TokenListCall(address: string, page: Option<Page>)
    | NftUtxosCall(codehash: string, genesis: string, address: string, page: Option<Page>)
    | NftUtxoCall(codehash: string, genesis: string, tokenIndex: string)
    | NftCollectionListCall(address: string, page: Option<Page>)

  function OpOf(call: Call): Operation {
    match call
    case RawTxCall(_) => GetRawTx
    case BroadcastCall(_) => Broadcast
    case IsUtxoSpentCall(_, _) => GetIsUtxoSpent
    case UtxosCall(_, _) => GetUtxos
    case BalanceCall(_) => GetBalance
    case TokenUtxosCall(_, _, _, _) => GetTokenUtxos
    case TokenBalanceCall(_, _, _) => GetTokenBalance
    case TokenListCall(_, _) => GetTokenList
    case NftUtxosCall(_, _, _, _) => GetNftUtxos
    case NftUtxoCall(_, _, _) => GetNftUtxo
    case NftCollectionListCall(_, _) => GetNftCollectionList
  }

  /** The same call with its paging argument dropped. */
  function WithoutPage(call: Call): Call {
    match call
    case UtxosCall(address, _) => UtxosCall(address, None)
    case TokenUtxosCall(codehash, genesis, address, _) => TokenUtxosCall(codehash, genesis, address, None)
    case TokenListCall(address, _) => TokenListCall(address, None)
    case NftUtxosCall(codehash, genesis, address, _) => NftUtxosCall(codehash, genesis, address, None)
    case NftCollectionListCall(address, _) => NftCollectionListCall(address, None)
    case _ => call
  }

  /** The errors the adaptation layer itself raises (transport errors pass through unchanged). */
  datatype ProviderError =
    | Unsupported(provider: ProviderName, op: Operation)
    | UnsupportedNetwork(provider: ProviderName, network: Network)
    | NotAuthorized

  const Refusal := " do not support "
  const NotAuthorizedText := "MetaSV should be authorized to access api."

  /** The `message` of the thrown `Error`: a refusal names its backend first. */
  function Message(e: ProviderError): (m: string)
    ensures m == NotAuthorizedText <==> e.NotAuthorized?
    ensures !e.NotAuthorized? ==> StartsWith(m, NameText(e.provider) + Refusal)
  {
    match e
    case Unsupported(name, op) =>
      RefusalPrefix(name, OpName(op));
      NameText(name) + Refusal + OpName(op)
    case UnsupportedNetwork(name, network) =>
      RefusalPrefix(name, NetworkText(network));
      NameText(name) + Refusal + NetworkText(network)
    case NotAuthorized => NotAuthorizedText
  }

  function OpNamed(s: string): Option<Operation> {
    if s == "getRawTx" then Some(GetRawTx)
    else if s == "broadcast" then Some(Broadcast)
    else if s == "getIsUtxoSpent" then Some(GetIsUtxoSpent)
    else if s == "getUtxos" then Some(GetUtxos)
    else if s == "getBalance" then Some(GetBalance)
    else if s == "getTokenUtxos" then Some(GetTokenUtxos)
    else if s == "getTokenBalance" then Some(GetTokenBalance)
    else if s == "getTokenList" then Some(GetTokenList)
    else if s == "getNftUtxos" then Some(GetNftUtxos)
    else if s == "getNftUtxo" then Some(GetNftUtxo)
    else if s == "getNftCollectionList" then Some(GetNftCollectionList)
    else None
  }

  function NetworkNamed(s: string): Option<Network> {
    if s == "mainnet" then Some(Mainnet) else if s == "testnet" then Some(Testnet) else None
  }

  /** What follows "<name> do not support ": an operation or a network. */
  function SubjectNamed(name: ProviderName, subject: string): Option<ProviderError> {
    match OpNamed(subject)
    case Some(op) => Some(Unsupported(name, op))
    case None =>
      match NetworkNamed(subject)
      case Some(network) => Some(UnsupportedNetwork(name, network))
      case None => None
  }

  /** Reads an error back from its message: the reference the messages are checked against. */
  function ParseMessage(msg: string): Option<ProviderError> {
    if msg == NotAuthorizedText then Some(NotAuthorized)
    else if StartsWith(msg, NameText(Sensiblequery) + Refusal) then
      SubjectNamed(Sensiblequery, msg[|NameText(Sensiblequery) + Refusal|..])
    else if StartsWith(msg, NameText(Metasv) + Refusal) then
      SubjectNamed(Metasv, msg[|NameText(Metasv) + Refusal|..])
    else if StartsWith(msg, NameText(Whatsonchain) + Refusal) then
      SubjectNamed(Whatsonchain, msg[|NameText(Whatsonchain) + Refusal|..])
    else None
  }

  lemma OpNamedOpName(op: Operation)
    ensures OpNamed(OpName(op)) == Some(op)
    ensures NetworkNamed(OpName(op)) == None
  {
  }

  lemma NetworkNamedNetworkText(network: Network)
    ensures OpNamed(NetworkText(network)) == None
    ensures NetworkNamed(NetworkText(network)) == Some(network)
  {
  }

  /** A message starting with one backend's name starts with no other backend's refusal. */
  lemma {:induction false} RefusalPrefix(name: ProviderName, subject: string)
    ensures StartsWith(NameText(name) + Refusal + subject, NameText(name) + Refusal)
    ensures (NameText(name) + Refusal + subject)[|NameText(name) + Refusal|..] == subject
    ensures forall other :: other != name ==>
      !StartsWith(NameText(name) + Refusal + subject, NameText(other) + Refusal)
    ensures NameText(name) + Refusal + subject != NotAuthorizedText
  {
    var msg := NameText(name) + Refusal + subject;
    assert msg[..|NameText(name) + Refusal|] == NameText(name) + Refusal;
    assert msg[0] == NameText(name)[0];
    forall other | other != name
      ensures !StartsWith(msg, NameText(other) + Refusal)
    {
      assert (NameText(other) + Refusal)[0] == NameText(other)[0] != NameText(name)[0];
    }
    assert NotAuthorizedText[0] == 'M';
  }

  /** Every message names its backend and its operation (or network) unambiguously. */
  lemma {:induction false} ParseMessageInverse(e: ProviderError)
    ensures ParseMessage(Message(e)) == Some(e)
  {
    match e
    case Unsupported(name, op) =>
      RefusalPrefix(name, OpName(op));
      OpNamedOpName(op);
    case UnsupportedNetwork(name, network) =>
      RefusalPrefix(name, NetworkText(network));
      NetworkNamedNetworkText(network);
    case NotAuthorized =>
  }

  /** Two errors have the same message exactly when they are the same error. */
  lemma MessageInjective(e1: ProviderError, e2: ProviderError)
    ensures Message(e1) == Message(e2) <==> e1 == e2
  {
    ParseMessageInverse(e1);
    ParseMessageInverse(e2);
  }

  /**
   * Which operations each backend overrides; every other operation falls back
   * to the base provider's default.
   */
  function Overrides(name: ProviderName, op: Operation): (r: bool)
    ensures name == Sensiblequery ==> r
    ensures name == Metasv ==> (r <==> !(op in {GetNftUtxos, GetNftUtxo, GetNftCollectionList}))
    ensures name == Whatsonchain ==> (r <==> op in {GetUtxos, GetRawTx, Broadcast, GetBalance})
  {
    match name
    case Sensiblequery => true
    case Metasv => op !in {GetNftUtxos, GetNftUtxo, GetNftCollectionList}
    case Whatsonchain => op in {GetUtxos, GetRawTx, Broadcast, GetBalance}
  }

  /** The base provider: the network and backend name fixed at construction. */
  datatype BaseProvider = BaseProvider(network: Network, name: ProviderName) {

    /** Every default operation throws; it never produces a value. */
    function DefaultError(call: Call): (e: ProviderError)
      ensures Message(e) == NameText(name) + " do not support " + OpName(OpOf(call))
    {
      Unsupported(name, OpOf(call))
    }
  }

  /** The operation named in a default error is the operation invoked. */
  lemma DefaultErrorNamesOperation(p: BaseProvider, call: Call)
    ensures ParseMessage(Message(p.DefaultError(call))) == Some(Unsupported(p.name, OpOf(call)))
  {
    ParseMessageInverse(p.DefaultError(call));
  }

  /** The default error depends on the backend name and the operation only. */
  lemma DefaultErrorDependsOnNameAndOperation(p: BaseProvider, q: BaseProvider, c1: Call, c2: Call)
    ensures p.DefaultError(c1) == q.DefaultError(c2) <==> p.name == q.name && OpOf(c1) == OpOf(c2)
  {
  }
}
