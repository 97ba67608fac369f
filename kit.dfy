/**
 * The boundary with @solana/kit and @solana-program/token-2022 that the token
 * helpers call: addresses, account objects, the ledger behind `rpc`, and the
 * foreign codecs and address derivation, which are left uninterpreted.
 */
module Kit {
  import opened Wrappers
  import opened JsValues

  type Address = string

  /** An account as the ledger stores it: its owning program and its raw bytes. */
  datatype RawAccount = RawAccount(programAddress: Address, bytes: seq<bv8>)

  /** The decoded fields of a token-2022 `Mint`. */
  datatype Mint = Mint(
    mintAuthority: Option<Address>, supply: nat, decimals: nat,
    isInitialized: bool, freezeAuthority: Option<Address>)

  /** The decoded fields of a token-2022 `Token` account; `amount` is a `bigint`. */
  datatype Token = Token(mint: Address, owner: Address, amount: nat)

  /**
   * The `data` property of an account object. A decoded mint has a
   * `mintAuthority` property, a decoded token account does not, any other
   * object carries just the property names it happens to have, and `NotAnObject`
   * is `null`, `undefined` or a primitive, on which the `in` operator throws.
   */
  datatype AccountData =
    | MintFields(mint: Mint)
    | TokenFields(token: Token)
    | OtherFields(propertyNames: set<string>)
    | NotAnObject

  /** An account object as a caller may pass it: the `data` property may be missing. */
  datatype AccountObject = AccountObject(address: Address, programAddress: Address, data: Option<AccountData>)

  /** `Account<Token>`: what decoding a token account produces. */
  datatype TokenAccount = TokenAccount(address: Address, programAddress: Address, data: Token)

  /** One entry of the `value` list that `getTokenAccountsByOwner` returns. */
  datatype KeyedAccount = KeyedAccount(pubkey: Address, account: RawAccount)

  /** The `address` context of a SolanaError: an address, or (as written in assertIsMint) the object cast to one. */
  datatype ErrorContext = AtAddress(address: Address) | AtObject(account: AccountObject)

  datatype TokenError =
    | AccountNotFound(address: Address)
    | FailedToDecodeAccount(context: ErrorContext)
    // `"data" in value` throws a TypeError when `value` is a string.
    | InOperatorOnString(value: string)
    // `"mintAuthority" in data` throws a TypeError when `data` is not an object.
    | InOperatorOnNonObject

  /** The foreign pure functions: `isAddress`, the two decoders and `findAssociatedTokenPda`. */
  datatype Codecs = Codecs(
    isAddress: string -> bool,
    decodeMint: seq<bv8> -> Option<Mint>,
    decodeToken: seq<bv8> -> Option<Token>,
    findAssociatedTokenPda: (Address, Address, Address) -> Address)

  /**
   * The ledger behind `rpc`: the accounts by address, and the provider's answer
   * to "token accounts of this owner for this mint", in the provider's order.
   */
  datatype Rpc = Rpc(accounts: map<Address, RawAccount>, tokenAccountsByOwner: (Address, Address) -> seq<KeyedAccount>)

  /** The `{ mint }` filter of `getTokenAccountsByOwner`. */
  datatype MintFilter = MintFilter(mint: Address)

  /** The calls the token helpers make through `rpc`, recorded in order. */
  datatype Call =
    | FetchMintCall(address: Address)
    | FetchTokenCall(address: Address, config: Option<Config>)
    | GetTokenAccountsByOwnerCall(owner: Address, filter: MintFilter, rpcConfig: Config, abortSignal: Option<JsValue>)

  /** A result together with the calls that produced it. */
  datatype Traced<T> = Traced(result: Result<T, TokenError>, calls: seq<Call>)

  /** `fetchMint(rpc, address)`: the account must exist and decode as a mint. */
  function FetchMint(rpc: Rpc, codecs: Codecs, address: Address): Result<AccountObject, TokenError>
  {
    if address !in rpc.accounts then Failure(AccountNotFound(address))
    else
      var raw := rpc.accounts[address];
      match codecs.decodeMint(raw.bytes)
      case None => Failure(FailedToDecodeAccount(AtAddress(address)))
      case Some(m) => Success(AccountObject(address, raw.programAddress, Some(MintFields(m))))
  }

  /** `decodeToken` applied to the raw account at `address`. */
  function DecodeToken(codecs: Codecs, address: Address, raw: RawAccount): Result<TokenAccount, TokenError>
  {
    match codecs.decodeToken(raw.bytes)
    case None => Failure(FailedToDecodeAccount(AtAddress(address)))
    case Some(t) => Success(TokenAccount(address, raw.programAddress, t))
  }

  /** `fetchToken(rpc, address, config)`: the account must exist and decode as a token account. */
  function FetchToken(rpc: Rpc, codecs: Codecs, address: Address): Result<TokenAccount, TokenError>
  {
    if address !in rpc.accounts then Failure(AccountNotFound(address))
    else DecodeToken(codecs, address, rpc.accounts[address])
  }

  /** `decodeToken(parseBase64RpcAccount(pubkey, account))` for one entry of a query's `value`. */
  function DecodeKeyedAccount(codecs: Codecs, entry: KeyedAccount): Result<TokenAccount, TokenError>
  {
    DecodeToken(codecs, entry.pubkey, entry.account)
  }
}
