/**
 * The canonical value objects every backend returns, whatever its wire format,
 * and the request descriptor a backend hands to the HTTP transport.
 */
module Entities {

  datatype Utxo = Utxo(txId: string, outputIndex: int, satoshis: int, address: string)

  datatype Balance = Balance(balance: int, pendingBalance: int, utxoCount: int)

  /** `tokenAmount` is a decimal string: token supplies exceed the safe integer range. */
  datatype TokenUtxo = TokenUtxo(txId: string, outputIndex: int, tokenAddress: string, tokenAmount: string)

  datatype TokenBalance = TokenBalance(balance: string, pendingBalance: string, utxoCount: int, decimal: int)

  datatype Token = Token(
    codehash: string, genesis: string, sensibleId: string, name: string, symbol: string,
    decimal: int, balance: string, pendingBalance: string)

  datatype NftUtxo = NftUtxo(
    txId: string, outputIndex: int, tokenIndex: string, tokenAddress: string,
    metaTxId: string, metaOutputIndex: int)

  /** `count` is the decimal string of confirmed plus pending holdings. */
  datatype NftCollection = NftCollection(codehash: string, genesis: string, sensibleId: string, count: string)

  /** The identifying pair of any output. */
  datatype Outpoint = Outpoint(txId: string, outputIndex: int)

  /**
   * What a backend asks the transport to do. Query parameters, JSON bodies and
   * headers are string-valued records; the transport's own default headers are
   * not part of the descriptor.
   */
  datatype HttpRequest =
    | HttpGet(url: string, query: map<string, string>, headers: map<string, string>)
    | HttpPost(url: string, body: map<string, string>, headers: map<string, string>)
}
