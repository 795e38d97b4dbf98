/**
 * The authenticated backend (src/metasv-provider.ts): mainnet only, bearer or
 * signature authentication on every request, and the normalisers from its wire
 * records to the canonical entities. The clock (`Date.now()`) and the random
 * fraction (`Math.random()`, given as its decimal text) are parameters.
 */
module MetaSV {
  import opened Wrappers
  import opened Text
  import opened Lists
  import opened Entities
  import opened Provider
  import Bsv

  const MetaSVPrefix := "https://apiv2.metasv.com"

  const AuthorizationHeader := "authorization"
  const TimestampHeader := "MetaSV-Timestamp"
  const PubkeyHeader := "MetaSV-Client-Pubkey"
  const NonceHeader := "MetaSV-Nonce"
  const SignatureHeader := "MetaSV-Signature"

  datatype AuthorizationOption = AuthorizationOption(authorization: Option<string>, privateKey: Option<string>)

  // ----- Bearer mode -------------------------------------------------------

  /** The stored authorization: "Bearer " is put in front unless the value already starts with "Bearer". */
  function BearerToken(authorization: string): (token: string)
    ensures StartsWith(token, "Bearer")
    ensures token == authorization <==> StartsWith(authorization, "Bearer")
    ensures !StartsWith(authorization, "Bearer") ==> token == "Bearer " + authorization
    ensures |token| >= |authorization| && token[|token| - |authorization|..] == authorization
  {
    if StartsWith(authorization, "Bearer") then authorization else "Bearer " + authorization
  }

  lemma BearerTokenIdempotent(authorization: string)
    ensures BearerToken(BearerToken(authorization)) == BearerToken(authorization)
  {
  }

  // ----- Signature mode ----------------------------------------------------

  /**
   * `Math.random().toString().substr(2, 10)`: the up to ten characters from
   * index 2 on, whatever form the text of the fraction takes.
   */
  function Nonce(randomText: string): (nonce: string)
    ensures |nonce| == if |randomText| <= 2 then 0 else Min(10, |randomText| - 2)
    ensures forall i :: 0 <= i < |nonce| ==> nonce[i] == randomText[2 + i]
  {
    Substr(randomText, 2, 10)
  }

  /** The texts `Math.random()` gives for zero and for fractions below 1e-6. */
  lemma NonceOfOtherForms()
    ensures Nonce("0") == ""
    ensures Nonce("1.2e-7") == "2e-7"
  {
    assert Nonce("1.2e-7") == "1.2e-7"[2..];
  }

  /** For the usual "0.<digits>" text of a random fraction, the nonce is its first ten digits. */
  lemma NonceOfFraction(digits: string)
    ensures Nonce("0." + digits) == digits[..Min(10, |digits|)]
  {
  }

  lemma NonceWithoutSeparator(randomText: string)
    requires '_' !in randomText
    ensures '_' !in Nonce(randomText)
  {
  }

  /**
   * The signed message: the RELATIVE path, the timestamp and the nonce joined
   * by "_"; a nonce without "_" lets all three be read back.
   */
  function SignedMessage(path: string, timestamp: nat, nonce: string): (m: string)
    ensures m == path + "_" + DecimalString(timestamp) + "_" + nonce
    ensures StartsWith(m, path + "_")
    ensures '_' !in nonce ==> SplitSignedMessage(m) == Some((path, timestamp, nonce))
  {
    SplitSignedMessageInverse(path, timestamp, nonce);
    path + "_" + DecimalString(timestamp) + "_" + nonce
  }

  /** Splits a message at its last two "_" (the path itself may contain "_"). */
  function SplitSignedMessage(m: string): Option<(string, nat, string)> {
    match LastIndexOf(m, '_')
    case None => None
    case Some(j) =>
      match LastIndexOf(m[..j], '_')
      case None => None
      case Some(i) =>
        match ParseDecimal(m[i + 1..j])
        case None => None
        case Some(timestamp) => Some((m[..i], timestamp, m[j + 1..]))
  }

  /** Splitting `path + "_" + timestamp + "_" + nonce` recovers the three parts. */
  lemma SplitSignedMessageInverse(path: string, timestamp: nat, nonce: string)
    ensures StartsWith(path + "_" + DecimalString(timestamp) + "_" + nonce, path + "_")
    ensures '_' !in nonce ==>
      SplitSignedMessage(path + "_" + DecimalString(timestamp) + "_" + nonce) == Some((path, timestamp, nonce))
  {
    var digits := DecimalString(timestamp);
    var head := path + "_" + digits;
    var m := path + "_" + DecimalString(timestamp) + "_" + nonce;
    assert m[..|path + "_"|] == path + "_";
    if '_' in nonce {
      return;
    }
    assert m == head + ['_'] + nonce;
    LastIndexOfSeparator(head, '_', nonce);
    assert m[..|head|] == head;
    assert head == path + ['_'] + digits;
    forall k | 0 <= k < |digits| ensures digits[k] != '_' {
      assert IsDigit(digits[k]);
    }
    LastIndexOfSeparator(path, '_', digits);
    assert head[|path| + 1..|head|] == digits;
    assert m[|path| + 1..|head|] == digits;
    ParseDecimalString(timestamp);
    assert m[..|path|] == path;
    assert m[|head| + 1..] == nonce;
  }

  /** Requests signed at different instants or with different nonces sign different messages. */
  lemma SignedMessageInjective(p1: string, t1: nat, n1: string, p2: string, t2: nat, n2: string)
    requires '_' !in n1 && '_' !in n2
    ensures SignedMessage(p1, t1, n1) == SignedMessage(p2, t2, n2) <==> p1 == p2 && t1 == t2 && n1 == n2
  {
    var m1 := SignedMessage(p1, t1, n1);
    var m2 := SignedMessage(p2, t2, n2);
    assert SplitSignedMessage(m1) == Some((p1, t1, n1));
    assert SplitSignedMessage(m2) == Some((p2, t2, n2));
  }

  // ----- Header selection --------------------------------------------------

  /**
   * `new bsv.PrivateKey(privateKey)`: a given key text is parsed; without one
   * the library generates a random key, supplied here as `randomKey`.
   */
  function PrivateKeyOf(lib: Bsv.Library, privateKey: Option<string>, randomKey: Bsv.PrivateKey): Bsv.PrivateKey {
    if privateKey.Some? then lib.privateKeyFrom(privateKey.value) else randomKey
  }

  datatype KeyPair = KeyPair(privateKey: Bsv.PrivateKey, publicKey: Bsv.PublicKey)

  /** The authentication state a provider holds. */
  datatype Credentials = Credentials(authorization: Option<string>, keys: Option<KeyPair>)

  /**
   * The headers of one request to `path`: the bearer header when an
   * authorization is held, else the four signature headers, else an error.
   * The signature is base64 of the little-endian ECDSA signature of the
   * SHA-256 digest of the signed message.
   */
  function Headers(creds: Credentials, lib: Bsv.Library, path: string, timestamp: nat, randomText: string)
    : (r: Result<map<string, string>, ProviderError>)
    ensures Given(creds.authorization) ==>
      r == Success(map[AuthorizationHeader := creds.authorization.value])
    ensures !Given(creds.authorization) && creds.keys.Some? ==>
      r.Success? &&
      r.value.Keys == {TimestampHeader, PubkeyHeader, NonceHeader, SignatureHeader} &&
      r.value[TimestampHeader] == DecimalString(timestamp) &&
      ParseDecimal(r.value[TimestampHeader]) == Some(timestamp) &&
      r.value[NonceHeader] == Nonce(randomText) &&
      r.value[PubkeyHeader] == lib.publicKeyHex(creds.keys.value.publicKey) &&
      r.value[SignatureHeader] ==
        lib.base64(lib.signLittle(
          lib.sha256(path + "_" + r.value[TimestampHeader] + "_" + r.value[NonceHeader]), creds.keys.value.privateKey))
    ensures !Given(creds.authorization) && creds.keys.None? ==> r == Failure(NotAuthorized)
  {
    if Given(creds.authorization) then
      Success(map[AuthorizationHeader := creds.authorization.value])
    else if creds.keys.Some? then
      var nonce := Nonce(randomText);
      var message := SignedMessage(path, timestamp, nonce);
      ParseDecimalString(timestamp);
      Success(map[
        TimestampHeader := DecimalString(timestamp),
        PubkeyHeader := lib.publicKeyHex(creds.keys.value.publicKey),
        NonceHeader := nonce,
        SignatureHeader := lib.base64(lib.signLittle(lib.sha256(message), creds.keys.value.privateKey))])
    else
      Failure(NotAuthorized)
  }

  // ----- Requests ----------------------------------------------------------

  /** Path (relative to the API prefix), query parameters and, for a POST, the JSON body. */
  datatype Route = Route(path: string, query: map<string, string>, body: Option<map<string, string>>)

  /** The endpoint of each overridden operation; None for those left to the default. */
  function MetaSVRoute(call: Call): (r: Option<Route>)
    ensures r.Some? <==> Overrides(Metasv, OpOf(call))
    ensures r.Some? ==> StartsWith(r.value.path, "/")
    ensures r.Some? ==> (r.value.body.Some? <==> call.BroadcastCall?)
    ensures r.Some? && call.BroadcastCall? ==> r.value.body == Some(map["hex" := call.rawtx])
    ensures r.Some? ==>
      r.value.query.Keys == if call.TokenUtxosCall? || call.TokenBalanceCall? then {"codeHash", "genesis"} else {}
  {
    match call
    case UtxosCall(address, _) => Some(Route("/address/" + address + "/utxo", map[], None))
    case RawTxCall(txid) => Some(Route("/tx/" + txid + "/raw", map[], None))
    case BroadcastCall(rawtx) => Some(Route("/tx/broadcast", map[], Some(map["hex" := rawtx])))
    case BalanceCall(address) => Some(Route("/address/" + address + "/balance", map[], None))
    case IsUtxoSpentCall(txId, outputIndex) =>
      Some(Route("/outpoint/" + txId + "/" + IntString(outputIndex), map[], None))
    case TokenUtxosCall(codehash, genesis, address, _) =>
      Some(Route("/sensible/ft/address/" + address + "/utxo", map["codeHash" := codehash, "genesis" := genesis], None))
    case TokenBalanceCall(codehash, genesis, address) =>
      Some(Route("/sensible/ft/address/" + address + "/balance", map["codeHash" := codehash, "genesis" := genesis], None))
    case TokenListCall(address, _) => Some(Route("/sensible/ft/address/" + address + "/balance", map[], None))
    case _ => None
  }

  /** The endpoint of every overridden operation, below the API prefix. */
  lemma MetaSVEndpoints(
    address: string, txid: string, rawtx: string, outputIndex: int,
    codehash: string, genesis: string, page: Option<Page>)
    ensures MetaSVRoute(UtxosCall(address, page)) == Some(Route("/address/" + address + "/utxo", map[], None))
    ensures MetaSVRoute(RawTxCall(txid)) == Some(Route("/tx/" + txid + "/raw", map[], None))
    ensures MetaSVRoute(BroadcastCall(rawtx)) == Some(Route("/tx/broadcast", map[], Some(map["hex" := rawtx])))
    ensures MetaSVRoute(BalanceCall(address)) == Some(Route("/address/" + address + "/balance", map[], None))
    ensures MetaSVRoute(IsUtxoSpentCall(txid, outputIndex)) ==
      Some(Route("/outpoint/" + txid + "/" + IntString(outputIndex), map[], None))
    ensures MetaSVRoute(TokenUtxosCall(codehash, genesis, address, page)) ==
      Some(Route("/sensible/ft/address/" + address + "/utxo", map["codeHash" := codehash, "genesis" := genesis], None))
    ensures MetaSVRoute(TokenBalanceCall(codehash, genesis, address)) ==
      Some(Route("/sensible/ft/address/" + address + "/balance", map["codeHash" := codehash, "genesis" := genesis], None))
    ensures MetaSVRoute(TokenListCall(address, page)) ==
      Some(Route("/sensible/ft/address/" + address + "/balance", map[], None))
  {
  }

  /** getTokenBalance and getTokenList read the same endpoint; only the token filter differs. */
  lemma TokenBalanceAndListShareEndpoint(codehash: string, genesis: string, address: string, page: Option<Page>)
    ensures MetaSVRoute(TokenBalanceCall(codehash, genesis, address)).value.path ==
      MetaSVRoute(TokenListCall(address, page)).value.path
    ensures MetaSVRoute(TokenBalanceCall(codehash, genesis, address)).value.query ==
      map["codeHash" := codehash, "genesis" := genesis]
    ensures MetaSVRoute(TokenListCall(address, page)).value.query == map[]
  {
    MetaSVEndpoints(address, "", "", 0, codehash, genesis, page);
  }

  /** The paging argument never reaches the request. */
  lemma MetaSVRouteIgnoresPage(call: Call)
    ensures MetaSVRoute(WithoutPage(call)) == MetaSVRoute(call)
  {
  }

  /**
   * The request an operation sends: the URL is the prefix followed by the
   * route's path, while the headers are computed for the path alone.
   */
  function MetaSVRequest(apiPrefix: string, creds: Credentials, lib: Bsv.Library, call: Call, timestamp: nat, randomText: string)
    : (r: Result<HttpRequest, ProviderError>)
    ensures MetaSVRoute(call).None? ==> r == Failure(BaseProvider(Mainnet, Metasv).DefaultError(call))
    ensures MetaSVRoute(call).Some? && Headers(creds, lib, MetaSVRoute(call).value.path, timestamp, randomText).Failure? ==>
      r == Failure(NotAuthorized)
    ensures MetaSVRoute(call).Some? && Headers(creds, lib, MetaSVRoute(call).value.path, timestamp, randomText).Success? ==>
      r.Success? &&
      r.value.url == apiPrefix + MetaSVRoute(call).value.path &&
      r.value.headers == Headers(creds, lib, MetaSVRoute(call).value.path, timestamp, randomText).value &&
      (r.value.HttpPost? <==> call.BroadcastCall?) &&
      (r.value.HttpGet? ==> r.value.query == MetaSVRoute(call).value.query) &&
      (r.value.HttpPost? ==> r.value.body == MetaSVRoute(call).value.body.value)
  {
    match MetaSVRoute(call)
    case None => Failure(Unsupported(Metasv, OpOf(call)))
    case Some(route) =>
      match Headers(creds, lib, route.path, timestamp, randomText)
      case Failure(e) => Failure(e)
      case Success(headers) =>
        match route.body
        case Some(body) => Success(HttpPost(apiPrefix + route.path, body, headers))
        case None => Success(HttpGet(apiPrefix + route.path, route.query, headers))
  }

  // ----- The provider object -----------------------------------------------

  class MetaSVProvider {
    const base: BaseProvider
    const apiPrefix: string
    var authorization: Option<string>
    var privateKey: Option<Bsv.PrivateKey>
    var publicKey: Option<Bsv.PublicKey>

    /** The configuration is fixed, a held authorization is a bearer token, keys come in pairs. */
    ghost predicate Consistent()
      reads this
    {
      base == BaseProvider(Mainnet, Metasv) && apiPrefix == MetaSVPrefix &&
      (authorization.Some? ==> StartsWith(authorization.value, "Bearer")) &&
      (privateKey.Some? <==> publicKey.Some?)
    }

    /** After construction one of the two authentication modes is always available. */
    ghost predicate Valid()
      reads this
    {
      Consistent() && (authorization.Some? || privateKey.Some?)
    }

    function CurrentCredentials(): Credentials
      reads this
      requires Consistent()
    {
      Credentials(authorization, if privateKey.Some? then Some(KeyPair(privateKey.value, publicKey.value)) else None)
    }

    constructor Init(options: AuthorizationOption, lib: Bsv.Library, randomKey: Bsv.PrivateKey)
      ensures Valid()
      ensures Given(options.authorization) ==>
        authorization == Some(BearerToken(options.authorization.value)) && privateKey.None? && publicKey.None?
      ensures !Given(options.authorization) ==>
        authorization.None? && privateKey == Some(PrivateKeyOf(lib, options.privateKey, randomKey)) &&
        publicKey == Some(lib.publicKeyOf(privateKey.value))
    {
      base := BaseProvider(Mainnet, Metasv);
      apiPrefix := MetaSVPrefix;
      authorization := None;
      privateKey := None;
      publicKey := None;
      new;
      Authorize(options, lib, randomKey);
    }

    /** `new MetaSVProvider(network, options)`: testnet is refused before anything else. */
    static method New(network: Network, options: AuthorizationOption, lib: Bsv.Library, randomKey: Bsv.PrivateKey)
      returns (r: Result<MetaSVProvider, ProviderError>)
      ensures network == Testnet ==> r == Failure(UnsupportedNetwork(Metasv, Testnet))
      ensures network == Mainnet ==>
        r.Success? && fresh(r.value) && r.value.Valid() &&
        r.value.base == BaseProvider(Mainnet, Metasv) && r.value.apiPrefix == MetaSVPrefix
      ensures network == Mainnet && Given(options.authorization) ==>
        r.Success? && r.value.authorization == Some(BearerToken(options.authorization.value)) &&
        r.value.privateKey.None? && r.value.publicKey.None?
      ensures network == Mainnet && !Given(options.authorization) ==>
        r.Success? && r.value.authorization.None? &&
        r.value.privateKey == Some(PrivateKeyOf(lib, options.privateKey, randomKey)) &&
        r.value.publicKey == Some(lib.publicKeyOf(r.value.privateKey.value))
    {
      if network == Testnet {
        return Failure(UnsupportedNetwork(Metasv, Testnet));
      }
      var p := new MetaSVProvider.Init(options, lib, randomKey);
      return Success(p);
    }

    /**
     * Stores a bearer token when an authorization is given, otherwise derives
     * the key pair from the private key; the other mode's fields are kept.
     */
    method Authorize(options: AuthorizationOption, lib: Bsv.Library, randomKey: Bsv.PrivateKey)
      requires Consistent()
      modifies this
      ensures Valid()
      ensures Given(options.authorization) ==>
        authorization == Some(BearerToken(options.authorization.value)) &&
        privateKey == old(privateKey) && publicKey == old(publicKey)
      ensures !Given(options.authorization) ==>
        authorization == old(authorization) &&
        privateKey == Some(PrivateKeyOf(lib, options.privateKey, randomKey)) &&
        publicKey == Some(lib.publicKeyOf(privateKey.value))
    {
      if Given(options.authorization) {
        var a := options.authorization.value;
        if !StartsWith(a, "Bearer") {
          authorization := Some("Bearer " + a);
        } else {
          authorization := Some(a);
        }
      } else {
        var key := if options.privateKey.Some? then lib.privateKeyFrom(options.privateKey.value) else randomKey;
        privateKey := Some(key);
        publicKey := Some(lib.publicKeyOf(key));
      }
    }

    /** `_getHeaders(path)`; on a constructed provider it never fails. */
    method GetHeaders(path: string, timestamp: nat, randomText: string, lib: Bsv.Library)
      returns (r: Result<map<string, string>, ProviderError>)
      requires Consistent()
      ensures r == Headers(CurrentCredentials(), lib, path, timestamp, randomText)
      ensures Valid() ==> r.Success?
    {
      var headers: map<string, string> := map[];
      if authorization.Some? && authorization.value != "" {
        headers := map[AuthorizationHeader := authorization.value];
      } else if privateKey.Some? {
        var nonce := Nonce(randomText);
        var message := path + "_" + DecimalString(timestamp) + "_" + nonce;
        var signature := lib.base64(lib.signLittle(lib.sha256(message), privateKey.value));
        headers := map[
          TimestampHeader := DecimalString(timestamp),
          PubkeyHeader := lib.publicKeyHex(publicKey.value),
          NonceHeader := nonce,
          SignatureHeader := signature];
      } else {
        return Failure(NotAuthorized);
      }
      return Success(headers);
    }

    /** The request an operation of this provider sends, built as the source's methods build it. */
    method Request(call: Call, timestamp: nat, randomText: string, lib: Bsv.Library)
      returns (r: Result<HttpRequest, ProviderError>)
      requires Consistent()
      ensures r == MetaSVRequest(apiPrefix, CurrentCredentials(), lib, call, timestamp, randomText)
      ensures Valid() ==> (r.Success? <==> Overrides(Metasv, OpOf(call)))
    {
      var route := MetaSVRoute(call);
      if route.None? {
        return Failure(base.DefaultError(call));
      }
      var url := apiPrefix + route.value.path;
      var headers := GetHeaders(route.value.path, timestamp, randomText, lib);
      if headers.Failure? {
        return Failure(headers.error);
      }
      if route.value.body.Some? {
        r := Success(HttpPost(url, route.value.body.value, headers.value));
      } else {
        r := Success(HttpGet(url, route.value.query, headers.value));
      }
    }
  }

  // ----- Response normalisers ----------------------------------------------

  datatype UtxoWire = UtxoWire(txid: string, outIndex: int, value: int)

  datatype BalanceWire = BalanceWire(confirmed: int, unconfirmed: int, utxoCount: int)

  datatype FtUtxoWire = FtUtxoWire(txid: string, txIndex: int, valueString: string)

  /** One entry of `/sensible/ft/address/{address}/balance`, read by getTokenBalance and getTokenList. */
  datatype FtBalanceWire = FtBalanceWire(
    codeHash: string, genesis: string, sensibleId: string, name: string, symbol: string,
    decimal: int, confirmedString: string, unconfirmedString: string, utxoCount: int)

  function UtxoWireOf(u: Utxo): UtxoWire {
    UtxoWire(u.txId, u.outputIndex, u.satoshis)
  }

  /** getUtxos: `txid`/`outIndex`/`value` become `txId`/`outputIndex`/`satoshis`; the address is the argument's. */
  function UtxosOf(res: seq<UtxoWire>, address: string): (us: seq<Utxo>)
    ensures |us| == |res|
    ensures forall i :: 0 <= i < |us| ==> us[i].address == address && UtxoWireOf(us[i]) == res[i]
  {
    Map((w: UtxoWire) => Utxo(w.txid, w.outIndex, w.value, address), res)
  }

  /** Nothing of the upstream list is lost, and every list of the address's outputs is reachable. */
  lemma UtxosOfInverse(res: seq<UtxoWire>, us: seq<Utxo>, address: string)
    ensures Map(UtxoWireOf, UtxosOf(res, address)) == res
    ensures (forall i :: 0 <= i < |us| ==> us[i].address == address) ==>
      UtxosOf(Map(UtxoWireOf, us), address) == us
  {
  }

  /** getBalance: `confirmed`/`unconfirmed`/`utxoCount` become `balance`/`pendingBalance`/`utxoCount`. */
  function BalanceOf(w: BalanceWire): (b: Balance)
    ensures BalanceWire(b.balance, b.pendingBalance, b.utxoCount) == w
  {
    Balance(w.confirmed, w.unconfirmed, w.utxoCount)
  }

  /** getTokenUtxos: `txid`/`txIndex`/`valueString` become `txId`/`outputIndex`/`tokenAmount`; the address is the argument's. */
  function TokenUtxosOf(res: seq<FtUtxoWire>, address: string): (us: seq<TokenUtxo>)
    ensures |us| == |res|
    ensures forall i :: 0 <= i < |us| ==>
      us[i].tokenAddress == address && FtUtxoWire(us[i].txId, us[i].outputIndex, us[i].tokenAmount) == res[i]
  {
    Map((w: FtUtxoWire) => TokenUtxo(w.txid, w.txIndex, address, w.valueString), res)
  }

  function TokenOf(w: FtBalanceWire): Token {
    Token(w.codeHash, w.genesis, w.sensibleId, w.name, w.symbol, w.decimal, w.confirmedString, w.unconfirmedString)
  }

  /** getTokenList: one token per entry, `codeHash` and the confirmed/unconfirmed strings renamed. */
  function TokenListOf(res: seq<FtBalanceWire>): (ts: seq<Token>)
    ensures |ts| == |res|
    ensures forall i :: 0 <= i < |ts| ==>
      ts[i].codehash == res[i].codeHash && ts[i].genesis == res[i].genesis &&
      ts[i].sensibleId == res[i].sensibleId && ts[i].name == res[i].name &&
      ts[i].symbol == res[i].symbol && ts[i].decimal == res[i].decimal &&
      ts[i].balance == res[i].confirmedString && ts[i].pendingBalance == res[i].unconfirmedString
  {
    Map(TokenOf, res)
  }

  /** Token lists of two pages concatenate to the token list of both. */
  lemma TokenListOfConcat(xs: seq<FtBalanceWire>, ys: seq<FtBalanceWire>)
    ensures TokenListOf(xs + ys) == TokenListOf(xs) + TokenListOf(ys)
  {
  }

  const ZeroTokenBalance := TokenBalance("0", "0", 0, 0)

  /**
   * getTokenBalance: all zeros for an empty answer, otherwise the first entry
   * only, which agrees with the first token getTokenList reports for it.
   */
  method TokenBalanceOf(res: seq<FtBalanceWire>) returns (ret: TokenBalance)
    ensures |res| == 0 ==> ret == ZeroTokenBalance
    ensures |res| > 0 ==>
      ret == TokenBalance(res[0].confirmedString, res[0].unconfirmedString, res[0].utxoCount, res[0].decimal)
    ensures |res| > 0 ==>
      ret.balance == TokenListOf(res)[0].balance && ret.pendingBalance == TokenListOf(res)[0].pendingBalance &&
      ret.decimal == TokenListOf(res)[0].decimal
  {
    ret := ZeroTokenBalance;
    if |res| > 0 {
      ret := TokenBalance(res[0].confirmedString, res[0].unconfirmedString, res[0].utxoCount, res[0].decimal);
    }
  }
}
