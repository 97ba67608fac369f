/**
 * packages/gill/src/programs/token/fetch-token-accounts.ts: `assertIsMint`,
 * mint resolution, and `fetchTokenAccounts`, which lists every token account
 * of an owner for one mint and sums their balances.
 */
module TokenAccounts {
  import opened Wrappers
  import opened JsValues
  import opened Kit

  /** The `mint` argument: an address string or an account object the caller already holds. */
  datatype MintArg = MintString(text: string) | MintObject(account: AccountObject)

  /** `"mintAuthority" in data`: decoded mints have the property, decoded token accounts do not. */
  predicate HasMintAuthority(data: AccountData)
  {
    data.MintFields? || (data.OtherFields? && "mintAuthority" in data.propertyNames)
  }

  /** The object has a `data` property whose value is not an object, so `in` on it throws. */
  predicate HasNonObjectData(account: AccountObject)
  {
    account.data.Some? && account.data.value.NotAnObject?
  }

  /** The object has a `data` property, and that has a `mintAuthority` property. */
  predicate HasMintShape(account: AccountObject)
  {
    account.data.Some? && HasMintAuthority(account.data.value)
  }

  /**
   * `assertIsMint`: an address is rejected as not found, an object lacking
   * `data` or `data.mintAuthority` as undecodable (with the object itself as
   * the error's `address`), and anything else passes unchanged. A `data` that
   * is not an object makes the `in` test itself throw.
   */
  function AssertIsMint(codecs: Codecs, value: MintArg): (r: Result<AccountObject, TokenError>)
    ensures r.Success? <==> value.MintObject? && HasMintShape(value.account)
    ensures r.Success? ==> r.value == value.account
    ensures value.MintString? && codecs.isAddress(value.text) ==> r == Failure(AccountNotFound(value.text))
    ensures value.MintString? && !codecs.isAddress(value.text) ==> r == Failure(InOperatorOnString(value.text))
    ensures value.MintObject? && HasNonObjectData(value.account) ==> r == Failure(InOperatorOnNonObject)
    ensures value.MintObject? && !HasMintShape(value.account) && !HasNonObjectData(value.account) ==>
      r == Failure(FailedToDecodeAccount(AtObject(value.account)))
  {
    match value
    case MintString(s) =>
      if codecs.isAddress(s) then Failure(AccountNotFound(s))
      else Failure(InOperatorOnString(s))
    case MintObject(account) =>
      if account.data.None? then Failure(FailedToDecodeAccount(AtObject(account)))
      else if account.data.value.NotAnObject? then Failure(InOperatorOnNonObject)
      else if !HasMintAuthority(account.data.value) then Failure(FailedToDecodeAccount(AtObject(account)))
      else Success(account)
  }

  /** `isAddress(mint)`: true only for a string that is a valid address; objects are never addresses. */
  predicate IsAddressArg(codecs: Codecs, value: MintArg)
  {
    value.MintString? && codecs.isAddress(value.text)
  }

  /**
   * The first two lines of both helpers: fetch the mint when `mint` is an
   * address, then `assertIsMint` on whatever `mint` now holds.
   */
  function ResolveMint(rpc: Rpc, codecs: Codecs, mint: MintArg): (o: Traced<AccountObject>)
    ensures o.calls == if IsAddressArg(codecs, mint) then [FetchMintCall(mint.text)] else []
  {
    if IsAddressArg(codecs, mint) then
      match FetchMint(rpc, codecs, mint.text)
      case Failure(e) => Traced(Failure(e), [FetchMintCall(mint.text)])
      case Success(fetched) => Traced(AssertIsMint(codecs, MintObject(fetched)), [FetchMintCall(mint.text)])
    else Traced(AssertIsMint(codecs, mint), [])
  }

  /** A pre-fetched object is never fetched again and reaches `assertIsMint` as it is. */
  lemma PrefetchedMintUsedAsIs(rpc: Rpc, codecs: Codecs, account: AccountObject)
    ensures ResolveMint(rpc, codecs, MintObject(account)) == Traced(AssertIsMint(codecs, MintObject(account)), [])
  {
  }

  /**
   * Mint resolution outcomes: an address is fetched and a genuine mint at it is
   * accepted unchanged; a string that is not an address reaches the `in`
   * operator and throws; whatever is accepted has the mint shape.
   */
  lemma ResolveMintOutcomes(rpc: Rpc, codecs: Codecs, mint: MintArg)
    ensures IsAddressArg(codecs, mint) && FetchMint(rpc, codecs, mint.text).Success? ==>
      ResolveMint(rpc, codecs, mint).result == FetchMint(rpc, codecs, mint.text)
    ensures IsAddressArg(codecs, mint) && FetchMint(rpc, codecs, mint.text).Failure? ==>
      ResolveMint(rpc, codecs, mint).result == FetchMint(rpc, codecs, mint.text)
    ensures mint.MintString? && !codecs.isAddress(mint.text) ==>
      ResolveMint(rpc, codecs, mint).result == Failure(InOperatorOnString(mint.text))
    ensures ResolveMint(rpc, codecs, mint).result.Success? ==> HasMintShape(ResolveMint(rpc, codecs, mint).result.value)
  {
  }

  /**
   * In these callers, ACCOUNT_NOT_FOUND only ever comes from fetching an
   * address that holds no account: `assertIsMint`'s own address branch is never
   * reached, because an address has already been replaced by the fetched mint.
   */
  lemma AccountNotFoundOnlyFromFetch(rpc: Rpc, codecs: Codecs, mint: MintArg, a: Address)
    requires ResolveMint(rpc, codecs, mint).result == Failure(AccountNotFound(a))
    ensures mint == MintString(a) && codecs.isAddress(a) && a !in rpc.accounts
  {
    if IsAddressArg(codecs, mint) && FetchMint(rpc, codecs, mint.text).Success? {
      assert HasMintShape(FetchMint(rpc, codecs, mint.text).value);
    }
  }

  /** Everything `fetchTokenAccounts` returns. */
  datatype TokenAccountsResult = TokenAccountsResult(mint: AccountObject, totalBalance: nat, accounts: seq<TokenAccount>)

  /** The exact sum of the `amount` of every account in `accounts`. */
  function TotalAmount(accounts: seq<TokenAccount>): nat
  {
    if accounts == [] then 0 else accounts[0].data.amount + TotalAmount(accounts[1..])
  }

  /** The running total of the loop: adding one account at the end adds its amount. */
  lemma {:induction false} TotalAmountSnoc(accounts: seq<TokenAccount>, last: TokenAccount)
    ensures TotalAmount(accounts + [last]) == TotalAmount(accounts) + last.data.amount
  {
    if accounts != [] {
      assert (accounts + [last])[1..] == accounts[1..] + [last];
      TotalAmountSnoc(accounts[1..], last);
    }
  }

  /** The total of a concatenation is the sum of the totals, so no account is counted twice or lost. */
  lemma {:induction false} TotalAmountAppend(xs: seq<TokenAccount>, ys: seq<TokenAccount>)
    ensures TotalAmount(xs + ys) == TotalAmount(xs) + TotalAmount(ys)
  {
    if xs != [] {
      assert (xs + ys)[1..] == xs[1..] + ys;
      TotalAmountAppend(xs[1..], ys);
    } else {
      assert xs + ys == ys;
    }
  }

  /** Each account's amount is part of the total. */
  lemma {:induction false} TotalAmountBoundsEach(accounts: seq<TokenAccount>, i: nat)
    requires i < |accounts|
    ensures accounts[i].data.amount <= TotalAmount(accounts)
  {
    if i > 0 {
      TotalAmountBoundsEach(accounts[1..], i - 1);
    }
  }

  /** The RPC config: the caller's options without `abortSignal`, with `encoding` forced to "base64". */
  function QueryConfig(config: Config): Config
  {
    (config - {"abortSignal"})["encoding" := JsString("base64")]
  }

  /** `abortSignal` split out of the caller's options; it goes to `send`, not into the RPC config. */
  function AbortSignalOf(config: Config): Option<JsValue>
  {
    if "abortSignal" in config then Some(config["abortSignal"]) else None
  }

  /** The `getTokenAccountsByOwner(owner, { mint: mint.address }, …).send({ abortSignal })` call. */
  function TokenAccountsQuery(owner: Address, mint: AccountObject, config: Config): Call
  {
    GetTokenAccountsByOwnerCall(owner, MintFilter(mint.address), QueryConfig(config), AbortSignalOf(config))
  }

  /** The query's config: encoding is "base64" whatever the caller said, `abortSignal` is gone, the rest is kept. */
  lemma QueryConfigShape(config: Config)
    ensures "encoding" in QueryConfig(config) && QueryConfig(config)["encoding"] == JsString("base64")
    ensures "abortSignal" !in QueryConfig(config)
    ensures forall k :: k in config && k != "encoding" && k != "abortSignal" ==>
      k in QueryConfig(config) && QueryConfig(config)[k] == config[k]
    ensures QueryConfig(config).Keys == (config.Keys - {"abortSignal"}) + {"encoding"}
  {
  }

  /**
   * `fetchTokenAccounts`: resolve and check the mint, query the owner's token
   * accounts for that mint, decode each entry in order while adding its
   * `amount` to a running total. The first entry that does not decode aborts
   * the whole call.
   */
  method FetchTokenAccounts(rpc: Rpc, codecs: Codecs, mint: MintArg, owner: Address, config: Config)
    returns (r: Result<TokenAccountsResult, TokenError>, calls: seq<Call>)
    ensures var resolved := ResolveMint(rpc, codecs, mint);
      resolved.result.Failure? ==> r == Failure(resolved.result.error) && calls == resolved.calls
    ensures var resolved := ResolveMint(rpc, codecs, mint);
      resolved.result.Success? ==>
        calls == resolved.calls + [TokenAccountsQuery(owner, resolved.result.value, config)]
    ensures var resolved := ResolveMint(rpc, codecs, mint);
      resolved.result.Success? ==>
        var value := rpc.tokenAccountsByOwner(owner, resolved.result.value.address);
        r.Success? <==> forall i :: 0 <= i < |value| ==> DecodeKeyedAccount(codecs, value[i]).Success?
    ensures r.Success? ==>
      var m := ResolveMint(rpc, codecs, mint).result;
      m.Success? &&
      var value := rpc.tokenAccountsByOwner(owner, m.value.address);
      && r.value.mint == m.value
      && |r.value.accounts| == |value|
      && (forall i :: 0 <= i < |value| ==> r.value.accounts[i] == DecodeKeyedAccount(codecs, value[i]).value)
      && r.value.totalBalance == TotalAmount(r.value.accounts)
    ensures var resolved := ResolveMint(rpc, codecs, mint);
      resolved.result.Success? && r.Failure? ==>
        var value := rpc.tokenAccountsByOwner(owner, resolved.result.value.address);
        exists k :: 0 <= k < |value| && DecodeKeyedAccount(codecs, value[k]).Failure?
          && (forall j :: 0 <= j < k ==> DecodeKeyedAccount(codecs, value[j]).Success?)
          && r.error == DecodeKeyedAccount(codecs, value[k]).error
  {
    var resolved := ResolveMint(rpc, codecs, mint);
    calls := resolved.calls;
    if resolved.result.Failure? {
      r := Failure(resolved.result.error);
      return;
    }
    var mintAccount := resolved.result.value;
    calls := calls + [TokenAccountsQuery(owner, mintAccount, config)];
    var value := rpc.tokenAccountsByOwner(owner, mintAccount.address);

    var totalBalance: nat := 0;
    var accounts: seq<TokenAccount> := [];
    var i := 0;
    while i < |value|
      invariant 0 <= i <= |value|
      invariant |accounts| == i
      invariant forall j :: 0 <= j < i ==>
        DecodeKeyedAccount(codecs, value[j]).Success? && accounts[j] == DecodeKeyedAccount(codecs, value[j]).value
      invariant totalBalance == TotalAmount(accounts)
    {
      var decoded := DecodeKeyedAccount(codecs, value[i]);
      if decoded.Failure? {
        r := Failure(decoded.error);
        return;
      }
      TotalAmountSnoc(accounts, decoded.value);
      totalBalance := totalBalance + decoded.value.data.amount;
      accounts := accounts + [decoded.value];
      i := i + 1;
    }
    r := Success(TokenAccountsResult(mintAccount, totalBalance, accounts));
  }

  /** An owner with no token accounts for the mint gets a total of 0 and an empty list, not an error. */
  method NoAccountsTotalZero(rpc: Rpc, codecs: Codecs, mint: AccountObject, owner: Address, config: Config)
    returns (total: nat, count: nat)
    requires HasMintShape(mint)
    requires rpc.tokenAccountsByOwner(owner, mint.address) == []
    ensures total == 0 && count == 0
  {
    var r, calls := FetchTokenAccounts(rpc, codecs, MintObject(mint), owner, config);
    total, count := r.value.totalBalance, |r.value.accounts|;
  }

  /** Two accounts holding 100 and 250 of the mint give two decoded accounts and a total of 350. */
  method TwoAccountsTotal(
    rpc: Rpc, codecs: Codecs, mint: AccountObject, owner: Address, config: Config,
    first: KeyedAccount, second: KeyedAccount) returns (total: nat, count: nat)
    requires HasMintShape(mint)
    requires rpc.tokenAccountsByOwner(owner, mint.address) == [first, second]
    requires codecs.decodeToken(first.account.bytes) == Some(Token(mint.address, owner, 100))
    requires codecs.decodeToken(second.account.bytes) == Some(Token(mint.address, owner, 250))
    ensures total == 350 && count == 2
  {
    var r, calls := FetchTokenAccounts(rpc, codecs, MintObject(mint), owner, config);
    var value := rpc.tokenAccountsByOwner(owner, mint.address);
    assert DecodeKeyedAccount(codecs, value[0]).Success? && DecodeKeyedAccount(codecs, value[1]).Success?;
    var accounts := r.value.accounts;
    assert accounts[0].data.amount == 100 && accounts[1].data.amount == 250;
    assert accounts[1..][1..] == [];
    assert TotalAmount(accounts[1..]) == 250;
    total, count := r.value.totalBalance, |accounts|;
  }
}
