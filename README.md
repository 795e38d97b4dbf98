# Provider adaptation layer of the sensible-contract providers, in Dafny

This project models the layer that puts several blockchain-indexing HTTP APIs
behind one `Provider` contract. The contract has eleven query operations: raw
transaction, broadcast, spend check, UTXOs, balance, token UTXOs, token balance,
token list, NFT UTXOs, one NFT UTXO and NFT collections. The layer has four
parts:

- **Base provider** (module `Provider`). It holds the network (`mainnet` or
  `testnet`) and the backend name (`sensiblequery`, `metasv` or
  `whatsonchain`). Its default for every operation fails with
  `"<name> do not support <operation>"`. The operations are an enum, each
  invocation is a `Call` value, and `Overrides` is the table of which backend
  replaces which default.
- **MetaSV** (module `MetaSV`). This backend refuses testnet. It
  authenticates each request either with a bearer token or with four signature
  headers. The signature covers `path + "_" + timestamp + "_" + nonce`. The
  provider object is a class, because `authorize` updates its fields. Header
  selection is an imperative method checked against the function `Headers`.
  The normalisers turn the MetaSV wire records into the canonical entities.
- **Sensiblequery** (module `Sensiblequery`). This backend chooses its API
  prefix from an explicit override or from the network. It passes every
  operation to a client library with the arguments unchanged. It reshapes the
  library's token lists, NFT outputs, NFT collections, spend checks and auction
  details.
- **WhatsOnChain** (module `WhatsOnChain`). This backend builds four
  header-less requests and renames the explorer's UTXO and balance fields.

The clock and the random fraction in the signature scheme are parameters:
`timestamp: nat`, and `randomText` for the decimal text of `Math.random()`.
So is the key `bsv.PrivateKey` generates when no private key text is given.
The foreign cryptographic calls are not modelled. They are the fields of a
`Bsv.Library` record of total functions: private-key parsing, public-key
derivation and hex encoding, SHA-256, ECDSA signing with little-endian byte
order, and base64. Every statement about signing holds whatever those
functions compute.

The comments on `AuthorizationOption` (src/metasv-provider.ts:32-39) say that
the credentials "should be provided", yet `authorize` (src/metasv-provider.ts:62-76)
never checks that either is. An absent authorization makes it build a key from
whatever private key is given; with none, `bsv.PrivateKey` generates a random
key, which the model takes as the parameter `randomKey`. The model follows the code. As a result, `_getHeaders`'s
"MetaSV should be authorized to access api." error cannot occur on a
constructed provider: `MetaSVProvider.GetHeaders` proves it succeeds whenever
`Valid()` holds. The error stays reachable in the pure `Headers` function,
which takes credential states the class never holds.

The bearer check tests for the prefix `Bearer` without a space, as the code
does. So `"Bearerxyz"` is kept unchanged.

## Model

| member | source | states |
|---|---|---|
| `Provider.BaseProvider.DefaultError` | src/base-provider.ts:21-87 | every default operation only fails, with message `name + " do not support " + opName` naming the invoked operation |
| `Provider.Message` | src/base-provider.ts:21-87 | only the not-authorized error (src/metasv-provider.ts:97) has the not-authorized text; every refusal, the defaults here and the testnet refusal of src/metasv-provider.ts:57, starts with its backend's name and " do not support " |
| `Provider.Overrides` | src/whatsonchain-provider.ts:25-72 | which defaults each backend replaces: WhatsOnChain exactly getUtxos, getRawTx, broadcast and getBalance (this file); MetaSV all but the three NFT queries (src/metasv-provider.ts:102-263); Sensiblequery all eleven (src/sensiblequery-provider.ts:28-152) |
| `Provider.ParseMessageInverse` | src/base-provider.ts:21-87 | each error message reads back to exactly the backend and operation (or network) it was raised for |
| `Provider.MessageInjective` | src/base-provider.ts:21-87 | two errors have the same message iff they are the same error |
| `Provider.DefaultErrorNamesOperation` | src/base-provider.ts:21-87 | the message of a default error reads back to exactly the backend and the operation invoked |
| `Provider.DefaultErrorDependsOnNameAndOperation` | src/base-provider.ts:29-59 | the default error depends only on the backend name and the operation, not on arguments or network |
| `Text.DecimalString` | src/metasv-provider.ts:85 | the rendering of a number is a non-empty digit string without leading zeros |
| `Text.ParseDecimalString` | src/sensiblequery-provider.ts:141 | the decimal rendering of a number reads back to that number |
| `Text.DecimalStringInjective` | src/metasv-provider.ts:85 | different numbers render differently |
| `Text.IntString` | src/metasv-provider.ts:168 | the output index in the outpoint path carries a minus sign exactly when it is negative, and its digits, without leading zeros, read back to its absolute value |
| `Text.IntStringInjective` | src/metasv-provider.ts:168 | different output indexes give different path segments |
| `Text.Substr` | src/metasv-provider.ts:84 | `substr(start, length)` is empty from the end on, otherwise exactly `min(length, |s| - start)` characters, those of the string from `start` on |
| `MetaSV.BearerToken` | src/metasv-provider.ts:65-70 | the stored token starts with "Bearer"; it equals the input iff the input already starts with "Bearer", and is otherwise "Bearer " (with a space) followed by the input |
| `MetaSV.BearerTokenIdempotent` | src/metasv-provider.ts:65-70 | normalising a normalised token changes nothing |
| `MetaSV.Nonce` | src/metasv-provider.ts:84 | the nonce is the up to ten characters of the random text from index 2 on, empty when the text is at most two characters long |
| `MetaSV.NonceOfFraction` | src/metasv-provider.ts:84 | for the text "0.<digits>" the nonce is the first ten digits of the fraction |
| `MetaSV.NonceOfOtherForms` | src/metasv-provider.ts:84 | the text "0" gives an empty nonce, and the exponent form "1.2e-7" gives "2e-7" |
| `MetaSV.NonceWithoutSeparator` | src/metasv-provider.ts:84 | a nonce cut from a text without "_" contains no "_" |
| `MetaSV.SignedMessage` | src/metasv-provider.ts:85 | the message is the relative path, "_", the canonical decimal text of the timestamp, "_" and the nonce; with a nonce free of "_" it splits back into the three parts |
| `MetaSV.SplitSignedMessageInverse` | src/metasv-provider.ts:85 | `path + "_" + timestamp + "_" + nonce` splits back into the relative path, the timestamp and the nonce, even when the path holds "_" |
| `MetaSV.SignedMessageInjective` | src/metasv-provider.ts:83-85 | different paths, timestamps or nonces give different signed messages |
| `MetaSV.Headers` | src/metasv-provider.ts:78-100 | a held authorization yields exactly `{authorization}`; otherwise a key pair yields exactly the four signature headers: the timestamp header is the canonical decimal text of the timestamp, and the signature is base64 of the little-endian ECDSA signature of the SHA-256 of `path + "_" + timestamp header + "_" + nonce header`, the message a verifier rebuilds from the headers; otherwise the not-authorized error |
| `MetaSV.MetaSVRoute` | src/metasv-provider.ts:102-263 | an endpoint exists exactly for the eight overridden operations; paths are relative ("/..."); only broadcast has a body, `{hex: rawtx}`; only the token UTXO and token balance queries carry `codeHash` and `genesis` |
| `MetaSV.MetaSVEndpoints` | src/metasv-provider.ts:102-263 | the path, query and body of each of the eight operations, e.g. `/address/{a}/utxo` and `/outpoint/{txId}/{outputIndex}` |
| `MetaSV.TokenBalanceAndListShareEndpoint` | src/metasv-provider.ts:208-250 | getTokenBalance and getTokenList read the same path; only getTokenBalance filters by `{codeHash, genesis}` |
| `MetaSV.MetaSVRouteIgnoresPage` | src/metasv-provider.ts:180-206 | the paging argument never changes the endpoint |
| `MetaSV.MetaSVRequest` | src/metasv-provider.ts:102-263 | a non-overridden operation gets the default error; otherwise the URL is prefix + path, a GET carries the route's query and a POST its body, while the headers are computed for the relative path; a header error is propagated |
| `MetaSV.MetaSVProvider.New` | src/metasv-provider.ts:49-76 | testnet fails with "metasv do not support testnet"; mainnet yields a valid provider with prefix `https://apiv2.metasv.com` and exactly one authentication mode: the bearer token with no keys, or the key pair derived from the given (or random) key with no authorization |
| `MetaSV.MetaSVProvider.Init` | src/metasv-provider.ts:53-59 | construction fixes network, name and prefix and then authorizes |
| `MetaSV.MetaSVProvider.Authorize` | src/metasv-provider.ts:62-76 | a truthy authorization is stored as its bearer form with the keys kept; otherwise the key pair is derived and the authorization kept; one mode is always available afterwards |
| `MetaSV.MetaSVProvider.GetHeaders` | src/metasv-provider.ts:78-100 | computes `Headers` of the provider's credentials and never fails on a constructed provider |
| `MetaSV.MetaSVProvider.Request` | src/metasv-provider.ts:102-148 | builds `MetaSVRequest` of the current credentials; on a constructed provider it succeeds exactly for the overridden operations |
| `MetaSV.UtxosOf` | src/metasv-provider.ts:115-120 | same length and order; each UTXO carries the argument address and maps back to its wire record |
| `MetaSV.UtxosOfInverse` | src/metasv-provider.ts:115-120 | the remapping loses nothing, and every UTXO list of the address is the image of its wire list |
| `MetaSV.BalanceOf` | src/metasv-provider.ts:160-164 | `confirmed`/`unconfirmed`/`utxoCount` are carried into `balance`/`pendingBalance`/`utxoCount` |
| `MetaSV.TokenUtxosOf` | src/metasv-provider.ts:199-204 | same length and order; `txid`/`txIndex`/`valueString` are carried over and the token address is the argument |
| `MetaSV.TokenListOf` | src/metasv-provider.ts:252-261 | same length and order; the eight token fields are taken from `codeHash`, ..., `confirmedString`, `unconfirmedString` |
| `MetaSV.TokenListOfConcat` | src/metasv-provider.ts:252-261 | the token list of two concatenated answers is the concatenation of their token lists |
| `MetaSV.TokenBalanceOf` | src/metasv-provider.ts:222-235 | an empty answer gives `{"0", "0", 0, 0}`; otherwise the fields of element 0 only, agreeing with the first entry of the token list |
| `Sensiblequery.NewSensiblequery` | src/sensiblequery-provider.ts:16-26 | a non-empty explicit prefix is used unchanged; otherwise mainnet and testnet get their fixed prefixes |
| `Sensiblequery.LibraryCall` | src/sensiblequery-provider.ts:28-67 | every operation is overridden and handed to the library with its arguments unchanged (the call reads back whole) |
| `Sensiblequery.LibraryCallInjective` | src/sensiblequery-provider.ts:28-67 | different calls reach the library as different calls |
| `Sensiblequery.AuctionQuery` | src/sensiblequery-provider.ts:156-160 | the auction lookup passes the codehash, the NFT id and `false`, and is none of the eleven contract calls |
| `Sensiblequery.TokenListOf` | src/sensiblequery-provider.ts:77-86 | the `list` envelope's entries, in order, each field copied by name |
| `Sensiblequery.TokenListOfInverse` | src/sensiblequery-provider.ts:77-86 | the copy is exact in both directions |
| `Sensiblequery.NftUtxoOf` | src/sensiblequery-provider.ts:122-129 | `txid`/`vout`/`address` become `txId`/`outputIndex`/`tokenAddress`, other fields copied, nothing lost |
| `Sensiblequery.NftUtxosOf` | src/sensiblequery-provider.ts:101-108 | the entries of `utxo` in order, each remapped exactly as getNftUtxo remaps its record |
| `Sensiblequery.NftUtxosOfInverse` | src/sensiblequery-provider.ts:101-108 | the remapping is exact in both directions |
| `Sensiblequery.NftCollectionOf` | src/sensiblequery-provider.ts:141 | identifiers copied; `count` is the canonical decimal text of `count + pendingCount` and reads back as that sum |
| `Sensiblequery.NftCollectionsOf` | src/sensiblequery-provider.ts:137-142 | same length and order, each collection as `NftCollectionOf` states, its count in canonical decimal form |
| `Sensiblequery.NftCollectionsExample` | src/sensiblequery-provider.ts:137-142 | counts 3 and 1 are reported as "4" |
| `Sensiblequery.SpentOf` | src/sensiblequery-provider.ts:146-151 | true exactly when the answer is not one of undefined, null, false, 0, "" |
| `Sensiblequery.AuctionUtxoOf` | src/sensiblequery-provider.ts:161-167 | the outpoint of the first detail when there is one, nothing otherwise |
| `Sensiblequery.NftAuctionUtxo` | src/sensiblequery-provider.ts:155-168 | the outpoint exists exactly when the auction query answers with at least one detail, and it is `{txId: txid, outputIndex: vout}` of that first detail |
| `WhatsOnChain.NewWhatsOnChain` | src/whatsonchain-provider.ts:27-34 | never fails; mainnet and testnet get their fixed prefixes |
| `WhatsOnChain.WocRequest` | src/whatsonchain-provider.ts:36-72 | fails exactly for the non-overridden operations, with the default error `Unsupported(whatsonchain, op)`; otherwise a header-less request below the prefix, a POST only for broadcast |
| `WhatsOnChain.UtxosRequest` | src/whatsonchain-provider.ts:40-43 | getUtxos requests `prefix/address/{address}/unspent` whatever the paging argument |
| `WhatsOnChain.RawTxRequest` | src/whatsonchain-provider.ts:52-55 | getRawTx requests `prefix/tx/{txid}/hex` without headers |
| `WhatsOnChain.BroadcastRequest` | src/whatsonchain-provider.ts:57-60 | broadcast posts `{txhex: rawtx}` to `prefix/tx/raw` without headers |
| `WhatsOnChain.BalanceRequest` | src/whatsonchain-provider.ts:62-66 | getBalance requests `prefix/address/{address}/balance` without headers |
| `WhatsOnChain.WocRequestIgnoresPage` | src/whatsonchain-provider.ts:36-43 | no request depends on the paging argument |
| `WhatsOnChain.UtxosOf` | src/whatsonchain-provider.ts:44-49 | same length and order; `tx_hash`/`tx_pos`/`value` carried into `txId`/`outputIndex`/`satoshis`, address from the argument |
| `WhatsOnChain.UtxosOfInverse` | src/whatsonchain-provider.ts:44-49 | the remapping loses nothing, and every UTXO list of the address is reachable |
| `WhatsOnChain.UtxosOfConcat` | src/whatsonchain-provider.ts:44-49 | normalising two pages separately equals normalising their concatenation |
| `WhatsOnChain.UtxosExample` | src/whatsonchain-provider.ts:44-49 | `[{aa, 0, 1000}]` for "1Abc" gives `[{txId: aa, outputIndex: 0, satoshis: 1000, address: 1Abc}]` |
| `WhatsOnChain.BalanceOf` | src/whatsonchain-provider.ts:67-71 | `confirmed`/`unconfirmed`/`utxoCount` are carried into `balance`/`pendingBalance`/`utxoCount` |

## Left out

- The HTTP transport (src/httpRequest.ts) is not modelled. This covers the axios singleton, its interceptors, cancellation, the query-string serializer and gzip. A request is described by an `HttpRequest` value and is never executed. The transport's default `Accept` and `Content-Type` headers are not part of the descriptor.
- The default-provider factory in src/index.ts is not modelled. It is wiring without logic.
- The bsv library calls are not modelled: key parsing, public-key derivation, hex, SHA-256, ECDSA and base64. They are opaque functions in `Bsv.Library`. A private-key string that `bsv.PrivateKey` would reject is not modelled, because `privateKeyFrom` is total.
- Promises, `async` sequencing and `JSON.stringify` of bodies are not modelled. A body is a string-valued record.
- The paging argument and JavaScript's default parameter values (`network = "mainnet"`) are not modelled beyond what the calls carry.
- JavaScript numbers are modelled as unbounded integers. The NFT counts `count` and `pendingCount` of the Sensiblequery summary are natural numbers, so a negative count is not modelled. NaN, fractions, the loss of precision above 2^53, and the exponent form `toString` uses from 10^21 on are not represented.
- Upstream replies are typed wire records holding only the fields the code reads. A missing field, which the code would pass on as `undefined`, is not modelled. Nor is a non-array reply, on which `.map` would throw.
- MetaSV getRawTx, broadcast and getIsUtxoSpent return one field of the reply (`hex`, `txid`, `spent`). The model covers their requests (`MetaSVRoute`, `MetaSVRequest`) and not that field access.
- WhatsOnChain getRawTx and broadcast return the reply body unchanged. The model covers their requests (`WocRequest`) only.
- The Sensiblequery delegations (src/sensiblequery-provider.ts:28-67) return the library's result unchanged. The library's endpoints and reply shapes are not visible, so the model covers only which library call is made and with which arguments (`LibraryCall`, `AuctionQuery`).
- The code has no construction-time refusal of a MetaSV provider given neither credential, although the comments on `AuthorizationOption` say they should be provided. So the model has none either.
- The random key `bsv.PrivateKey` generates when no private key is given is not modelled as randomness. It is the parameter `randomKey` of `MetaSVProvider.New`, `Init` and `Authorize`, like the clock and the random fraction.
