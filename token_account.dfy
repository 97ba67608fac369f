/**
 * packages/gill/src/programs/token/fetch-token-account.ts: `fetchTokenAccount`
 * resolves the mint, derives the associated token account (ATA) address from
 * the mint's address, the owner and the mint's owning program, and fetches the
 * token account there. Its `assertIsMint` is the same as the one in
 * fetch-token-accounts.ts and is modelled once, in module TokenAccounts.
 */
module TokenAccount {
  import opened Wrappers
  import opened JsValues
  import opened Kit
  import opened TokenAccounts

  /** What `fetchTokenAccount` returns. */
  datatype TokenAndMint = TokenAndMint(token: TokenAccount, mint: AccountObject)

  /** `findAssociatedTokenPda({ mint: mint.address, owner, tokenProgram: mint.programAddress })`. */
  function AssociatedTokenAddress(codecs: Codecs, mint: AccountObject, owner: Address): Address
  {
    codecs.findAssociatedTokenPda(mint.address, owner, mint.programAddress)
  }

  /** `fetchTokenAccount(rpc, mint, owner, config)`. */
  function FetchTokenAccount(rpc: Rpc, codecs: Codecs, mint: MintArg, owner: Address, config: Option<Config>)
    : Traced<TokenAndMint>
  {
    var resolved := ResolveMint(rpc, codecs, mint);
    match resolved.result
    case Failure(e) => Traced(Failure(e), resolved.calls)
    case Success(m) =>
      var ata := AssociatedTokenAddress(codecs, m, owner);
      var calls := resolved.calls + [FetchTokenCall(ata, config)];
      match FetchToken(rpc, codecs, ata)
      case Failure(e) => Traced(Failure(e), calls)
      case Success(token) => Traced(Success(TokenAndMint(token, m)), calls)
  }

  /**
   * The same validation as `assertIsMint`: a pre-fetched object without `data`
   * or `data.mintAuthority` fails with FAILED_TO_DECODE_ACCOUNT and nothing is
   * fetched (a `data` that is not an object throws a TypeError instead);
   * ACCOUNT_NOT_FOUND arises only for an address with no account.
   */
  lemma ValidatesLikeAssertIsMint(rpc: Rpc, codecs: Codecs, mint: MintArg, owner: Address, config: Option<Config>)
    ensures mint.MintObject? && !HasMintShape(mint.account) && !HasNonObjectData(mint.account) ==>
      FetchTokenAccount(rpc, codecs, mint, owner, config) ==
        Traced(Failure(FailedToDecodeAccount(AtObject(mint.account))), [])
    ensures mint.MintObject? && HasNonObjectData(mint.account) ==>
      FetchTokenAccount(rpc, codecs, mint, owner, config) == Traced(Failure(InOperatorOnNonObject), [])
    ensures IsAddressArg(codecs, mint) && mint.text !in rpc.accounts ==>
      FetchTokenAccount(rpc, codecs, mint, owner, config) ==
        Traced(Failure(AccountNotFound(mint.text)), [FetchMintCall(mint.text)])
    ensures FetchTokenAccount(rpc, codecs, mint, owner, config).result.Success? ==>
      HasMintShape(FetchTokenAccount(rpc, codecs, mint, owner, config).result.value.mint)
  {
  }

  /**
   * The mint is fetched only when an address is passed, and then first; a
   * pre-fetched account is used as supplied. The token fetch, when reached,
   * is the last call and passes `config` on unchanged.
   */
  lemma CallOrder(rpc: Rpc, codecs: Codecs, mint: MintArg, owner: Address, config: Option<Config>)
    ensures var o := FetchTokenAccount(rpc, codecs, mint, owner, config);
      var resolved := ResolveMint(rpc, codecs, mint);
      && (IsAddressArg(codecs, mint) ==> |o.calls| >= 1 && o.calls[0] == FetchMintCall(mint.text))
      && (!IsAddressArg(codecs, mint) ==> forall i :: 0 <= i < |o.calls| ==> !o.calls[i].FetchMintCall?)
      && (resolved.result.Success? ==>
            o.calls == resolved.calls + [FetchTokenCall(AssociatedTokenAddress(codecs, resolved.result.value, owner), config)])
      && (resolved.result.Failure? ==> o.calls == resolved.calls && o.result == Failure(resolved.result.error))
  {
  }

  /**
   * On success the token is the account at the ATA derived from the resolved
   * mint's own address and owning program (not a fixed token program), and the
   * returned `mint` is the resolved mint.
   */
  lemma ResultParts(rpc: Rpc, codecs: Codecs, mint: MintArg, owner: Address, config: Option<Config>)
    requires FetchTokenAccount(rpc, codecs, mint, owner, config).result.Success?
    ensures var v := FetchTokenAccount(rpc, codecs, mint, owner, config).result.value;
      var m := ResolveMint(rpc, codecs, mint).result;
      && m.Success?
      && v.mint == m.value
      && FetchToken(rpc, codecs, codecs.findAssociatedTokenPda(m.value.address, owner, m.value.programAddress)) == Success(v.token)
      && v.token.address == codecs.findAssociatedTokenPda(v.mint.address, owner, v.mint.programAddress)
  {
  }

  /** A pre-fetched mint comes back as the very object that was passed in. */
  lemma PrefetchedMintReturnedUnchanged(rpc: Rpc, codecs: Codecs, account: AccountObject, owner: Address, config: Option<Config>)
    requires FetchTokenAccount(rpc, codecs, MintObject(account), owner, config).result.Success?
    ensures FetchTokenAccount(rpc, codecs, MintObject(account), owner, config).result.value.mint == account
    ensures |FetchTokenAccount(rpc, codecs, MintObject(account), owner, config).calls| == 1
  {
  }

  /**
   * The ATA depends on exactly the mint's address, the owner and the mint's
   * owning program: two mints that agree on those are looked up at the same
   * token address, whatever else differs between them.
   */
  lemma SameInputsSameTokenAddress(codecs: Codecs, m1: AccountObject, m2: AccountObject, owner: Address)
    requires m1.address == m2.address && m1.programAddress == m2.programAddress
    ensures AssociatedTokenAddress(codecs, m1, owner) == AssociatedTokenAddress(codecs, m2, owner)
  {
  }

  /**
   * Fetching a mint by its address or passing the fetched mint in gives the
   * same token and mint; only the recorded calls differ by the mint fetch.
   */
  lemma AddressOrPrefetchedAgree(rpc: Rpc, codecs: Codecs, a: Address, owner: Address, config: Option<Config>)
    requires codecs.isAddress(a) && FetchMint(rpc, codecs, a).Success?
    ensures var byAddress := FetchTokenAccount(rpc, codecs, MintString(a), owner, config);
      var byObject := FetchTokenAccount(rpc, codecs, MintObject(FetchMint(rpc, codecs, a).value), owner, config);
      && byAddress.result == byObject.result
      && byAddress.calls == [FetchMintCall(a)] + byObject.calls
  {
    var fetched := FetchMint(rpc, codecs, a).value;
    assert HasMintShape(fetched);
  }
}
