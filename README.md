# gill: endpoint resolution and token-account lookup, modelled in Dafny

This project models two pieces of the `gill` Solana client library and proves
what they promise.

1. `createSolanaClient` turns a `URL` object, a URL string or a cluster moniker
   into one `URL` object. It checks the protocol. It then derives the RPC URL
   and the subscriptions (websocket) URL by changing that one object in place:
   first the RPC port, then the protocol (`http` to `ws`), then the
   subscriptions port. The RPC URL is a snapshot taken between the two rounds of
   changes. The model is a method, `SolanaClient.CreateSolanaClient`, over a
   mutable `Urls.Url` object. The method is proved equal to the value-level
   function `SolanaClient.CreateClient`. When the caller passes its own `URL`
   object, the method also states that object's final value: the model keeps
   the source's aliasing.
2. `assertIsMint`, `fetchTokenAccounts` and `fetchTokenAccount` resolve a mint,
   either by fetching it at an address or by taking an account object the
   caller already holds, and validate it. `fetchTokenAccounts` then lists the
   owner's token accounts for that mint and sums their `amount`. It is modelled
   as a method whose loop keeps the running total. `fetchTokenAccount` derives
   the associated token account (ATA) address and fetches the account there. It
   is modelled as functions. The ledger is a map from address to raw account.
   The decoders, `isAddress` and the ATA derivation are uninterpreted functions.
   Every call made through `rpc` is recorded in order.

Files: `wrappers.dfy` (Option, Result), `rpc_types.dfy` (monikers and the
`Cluster` enum), `js_strings.dfy` (`startsWith`, first-occurrence `replace`,
`/^https?/i`, decimal `toString`), `urls.dfy` (the URL record and the mutable
`URL` object), `solana_client.dfy` and `solana_client_properties.dfy`
(`createSolanaClient`), `kit.dfy` (the library boundary: accounts, ledger,
codecs, the call trace), `js_values.dfy` (the option objects passed along
unread), `token_accounts.dfy` and `token_account.dfy`.

Where the code's own text and its behaviour part ways, the model follows the
behaviour:

- The error at create-solana-client.ts:59 says "Only HTTP and HTTPS are
  supported", which promises an exact scheme. The test `/^https?/i` at :58 has
  no end anchor, so any protocol that begins with `http` in any case passes
  (`ProtocolTestIsPrefixOnly`).
- The code changes one `URL` object in place. A port set for the RPC URL at
  :63 is therefore still on the object when the subscriptions URL is read at
  :77. It stays there unless a subscriptions port is given or the host is
  loopback (`RpcPortCarriesIntoSubscriptions`).

Behaviour the model keeps as written:

- `assertIsMint` reports FAILED_TO_DECODE_ACCOUNT with the account object
  itself in the error's `address` field (`AtObject`). When `data` is present
  but is not an object, `"mintAuthority" in data` throws a TypeError
  (`InOperatorOnNonObject`).
- A string that is not a valid address is not fetched. It then reaches
  `"data" in value`, which throws a TypeError (`InOperatorOnString`).
- In both callers, `assertIsMint`'s ACCOUNT_NOT_FOUND branch is never reached.
  An address has already been replaced by the fetched mint
  (`AccountNotFoundOnlyFromFetch`).

## Model

| member | source | states |
|---|---|---|
| `SolanaClient.ResolveUrl` | packages/gill/src/core/create-solana-client.ts:45-56 | the object the call goes on with is the caller's own `URL` object when one was passed and a fresh one otherwise, holding exactly the URL that `ResolveEndpoint` resolves; each failure is the error `ResolveEndpoint` gives |
| `SolanaClient.ApplyRpcPort` | packages/gill/src/core/create-solana-client.ts:62-64 | after the step the object holds `RpcUrl` of what it held before |
| `SolanaClient.ApplySubscriptionsRules` | packages/gill/src/core/create-solana-client.ts:68-74 | after the protocol rewrite and the port rule the object holds `SubscriptionsUrl` of what it held before |
| `SolanaClient.ResolveEndpoint` | packages/gill/src/core/create-solana-client.ts:45-56 | no contract of its own; its properties are `EmptyInputRejectedBeforeParsing`, `ResolutionOrder`, `ParsedStringIgnoresMonikerTable`, `MonikerResolvesThroughTable` and `UnknownNameRejected` |
| `SolanaClient.RpcUrl` | packages/gill/src/core/create-solana-client.ts:62-64 | no contract of its own; its properties are `RpcPortRule` and `ExplicitPortsWin` |
| `SolanaClient.IsLoopbackHost` | packages/gill/src/core/create-solana-client.ts:72 | no contract of its own; its properties are `LoopbackIsAPrefixTest` and `SubscriptionsPortRule` |
| `SolanaClient.SubscriptionsUrl` | packages/gill/src/core/create-solana-client.ts:68-74 | no contract of its own; its properties are `SubscriptionsProtocolRule`, `SubscriptionsPortRule`, `RpcPortCarriesIntoSubscriptions` and `ReplaceIsCaseSensitive` |
| `SolanaClient.Compose` | packages/gill/src/core/create-solana-client.ts:66-93 | no contract of its own; its properties are `ClientWiring` and `ClusterPassthrough` |
| `SolanaClient.CreateClient` | packages/gill/src/core/create-solana-client.ts:39-94 | no contract of its own; its properties are `ProtocolGate`, `ClientWiring`, `ClusterPassthrough` and the three worked examples, and `CreateSolanaClient` is proved equal to it |
| `SolanaClient.CreateSolanaClient` | packages/gill/src/core/create-solana-client.ts:39-94 | the in-place run over one `URL` object returns exactly `CreateClient` of the argument's value; a caller's `URL` object ends as the subscriptions URL on success and is untouched on failure |
| `SolanaClientProperties.EmptyInputRejectedBeforeParsing` | packages/gill/src/core/create-solana-client.ts:45 | an undefined or empty argument fails with "Cluster url or moniker is required" whatever the parser and table would say |
| `SolanaClientProperties.ResolutionOrder` | packages/gill/src/core/create-solana-client.ts:46-56 | a URL object is used as is; a string is parsed first, then looked up as a moniker; "Invalid URL or cluster moniker" exactly when both fail |
| `SolanaClientProperties.ParsedStringIgnoresMonikerTable` | packages/gill/src/core/create-solana-client.ts:47-48 | a string that parses as a URL resolves the same under any moniker table |
| `SolanaClientProperties.MonikerResolvesThroughTable` | packages/gill/src/core/create-solana-client.ts:50-51 | a moniker that is not a URL resolves to the parsed table URL for it |
| `SolanaClientProperties.UnknownNameRejected` | packages/gill/src/core/create-solana-client.ts:52-53 | a non-URL string that is not one of the four monikers is rejected with "Invalid URL or cluster moniker" |
| `SolanaClientProperties.ProtocolGate` | packages/gill/src/core/create-solana-client.ts:58-60 | a client is built iff resolution succeeds and the protocol matches `/^https?/i`; otherwise "Unsupported protocol", or the resolution error |
| `SolanaClientProperties.ProtocolTestIsPrefixOnly` | packages/gill/src/core/create-solana-client.ts:58 | `HTTPS:` and `httpx:` pass, `ws:`, `ftp:` and `htt:` fail: a case-insensitive prefix test |
| `SolanaClientProperties.ClientWiring` | packages/gill/src/core/create-solana-client.ts:66-92 | the RPC client gets the URL after the RPC port step and `rpcConfig`; the subscriptions client gets the later snapshot and its config; send-and-confirm gets both transports, simulate only the RPC one |
| `SolanaClientProperties.RpcPortRule` | packages/gill/src/core/create-solana-client.ts:62-64 | the RPC URL differs from the resolved URL only in the port, which becomes the decimal port exactly when `rpcConfig.port` is truthy; port 0 or none leaves it |
| `SolanaClientProperties.SubscriptionsProtocolRule` | packages/gill/src/core/create-solana-client.ts:68 | the first `http` of the protocol becomes `ws` (`http:` to `ws:`, `https:` to `wss:`); hostname and the rest are unchanged |
| `SolanaClientProperties.ReplaceIsCaseSensitive` | packages/gill/src/core/create-solana-client.ts:58-68 | on strings alone: `HTTP:` passes the case-insensitive test of :58, while the case-sensitive `replace("http", "ws")` of :68 returns it unchanged. The program itself then stores `http:`, because the `protocol` setter lower-cases (not modelled); the parser never yields `HTTP:` anyway |
| `SolanaClientProperties.SubscriptionsPortRule` | packages/gill/src/core/create-solana-client.ts:70-74 | a truthy subscriptions port wins; else a loopback host gets "8900"; else the port left by the RPC step stays |
| `SolanaClientProperties.RpcPortCarriesIntoSubscriptions` | packages/gill/src/core/create-solana-client.ts:62-74 | with an RPC port, no subscriptions port and a non-loopback host, the subscriptions URL carries the RPC port |
| `SolanaClientProperties.LoopbackIsAPrefixTest` | packages/gill/src/core/create-solana-client.ts:72 | `localhost` and every hostname beginning with `127` are loopback; `example.com` and `[::1]` are not |
| `SolanaClientProperties.ClusterPassthrough` | packages/gill/src/core/create-solana-client.ts:81-84 | the returned `cluster` is the argument and nothing else in the result depends on it |
| `SolanaClientProperties.LocalhostDefaultsTo8900` | packages/gill/src/core/create-solana-client.ts:66-77 | `http://localhost/` with no overrides gives RPC `http://localhost/` and subscriptions `ws://localhost:8900/` |
| `SolanaClientProperties.RemoteHostKeepsItsPort` | packages/gill/src/core/create-solana-client.ts:68-77 | `https://example.com/` with no overrides gives subscriptions `wss://example.com/`, no forced port |
| `SolanaClientProperties.ExplicitPortsWin` | packages/gill/src/core/create-solana-client.ts:62-77 | ports 8899 and 8901 on a loopback host give the RPC URL `http://127.0.0.1:8899/` and the subscriptions URL `ws://127.0.0.1:8901/` |
| `JsStrings.MatchesHttpScheme` | packages/gill/src/core/create-solana-client.ts:58 | no contract of its own; its property is `MatchesHttpSchemeIsRegex` |
| `JsStrings.ReplaceFirst` | packages/gill/src/core/create-solana-client.ts:68 | no contract of its own; its properties are `ReplaceFirstAtStart` and `ReplaceFirstAbsent`, on top of `IndexOf`'s contract |
| `JsStrings.MatchesHttpSchemeIsRegex` | packages/gill/src/core/create-solana-client.ts:58 | the four-character test is equivalent, both ways, to "some prefix equals http or https ignoring case" |
| `JsStrings.IndexOf` | packages/gill/src/core/create-solana-client.ts:68 | the result is an occurrence of the pattern with none before it, or there is no occurrence at all |
| `JsStrings.ReplaceFirstAtStart` | packages/gill/src/core/create-solana-client.ts:68 | when the string starts with the pattern, the replacement is at the start |
| `JsStrings.ReplaceFirstAbsent` | packages/gill/src/core/create-solana-client.ts:68 | without an occurrence the string is unchanged |
| `JsStrings.DecimalString` | packages/gill/src/core/create-solana-client.ts:63 | `port.toString()` is a non-empty digit string without a leading zero |
| `JsStrings.DecimalRoundTrip` | packages/gill/src/core/create-solana-client.ts:63 | reading the digits back gives the port number |
| `JsStrings.DecimalStringInjective` | packages/gill/src/core/create-solana-client.ts:71 | distinct ports give distinct port strings |
| `RpcTypes.ParseMoniker` | packages/gill/src/types/rpc.ts:17 | a recognised moniker string is exactly that moniker's name |
| `RpcTypes.MonikerRoundTrip` | packages/gill/src/types/rpc.ts:17 | each moniker name parses back to that moniker |
| `RpcTypes.ClusterNamesAreMonikers` | packages/gill/src/types/rpc.ts:27-32 | every `Cluster` enum value is one of the moniker names |
| `TokenAccounts.AssertIsMint` | packages/gill/src/programs/token/fetch-token-accounts.ts:12-22 | passes iff the value is an object with `data.mintAuthority`, returning it unchanged; an address fails with ACCOUNT_NOT_FOUND for it; a string that is not an address, or a `data` that is not an object, throws a TypeError at the `in` test; any other shapeless object fails with FAILED_TO_DECODE_ACCOUNT |
| `TokenAccounts.ResolveMint` | packages/gill/src/programs/token/fetch-token-accounts.ts:50-51 | the mint is fetched (one call) exactly when the argument is an address, and no call is made otherwise |
| `TokenAccounts.PrefetchedMintUsedAsIs` | packages/gill/src/programs/token/fetch-token-accounts.ts:50-51 | a pre-fetched object goes straight to `assertIsMint` with no fetch |
| `TokenAccounts.ResolveMintOutcomes` | packages/gill/src/programs/token/fetch-token-accounts.ts:50-51 | a fetched mint or fetch error is the result; a non-address string throws a TypeError; an accepted mint has the mint shape |
| `TokenAccounts.AccountNotFoundOnlyFromFetch` | packages/gill/src/programs/token/fetch-token-accounts.ts:15-17 | ACCOUNT_NOT_FOUND from resolution means an address holding no account |
| `TokenAccounts.QueryConfig` | packages/gill/src/programs/token/fetch-token-accounts.ts:52-54 | no contract of its own; its property is `QueryConfigShape` |
| `TokenAccounts.QueryConfigShape` | packages/gill/src/programs/token/fetch-token-accounts.ts:52-55 | the RPC config has `encoding: "base64"` whatever the caller set, no `abortSignal`, and every other caller option unchanged |
| `TokenAccounts.TotalAmount` | packages/gill/src/programs/token/fetch-token-accounts.ts:56-61 | no contract of its own; its properties are `TotalAmountSnoc`, `TotalAmountAppend` and `TotalAmountBoundsEach`, and the loop of `FetchTokenAccounts` is proved to compute it |
| `TokenAccounts.TotalAmountSnoc` | packages/gill/src/programs/token/fetch-token-accounts.ts:56-60 | adding one decoded account to the running total adds exactly its amount |
| `TokenAccounts.TotalAmountAppend` | packages/gill/src/programs/token/fetch-token-accounts.ts:56-61 | the total of a concatenation is the sum of the totals |
| `TokenAccounts.TotalAmountBoundsEach` | packages/gill/src/programs/token/fetch-token-accounts.ts:56-61 | each account's amount is at most the total |
| `TokenAccounts.FetchTokenAccounts` | packages/gill/src/programs/token/fetch-token-accounts.ts:44-67 | calls are the mint resolution then one owner query filtered to the mint; success iff every entry decodes; accounts match `value` one for one in order; `totalBalance` is their exact sum; `mint` is the resolved mint; otherwise the first failing entry's decode error |
| `TokenAccounts.NoAccountsTotalZero` | packages/gill/src/programs/token/fetch-token-accounts.ts:56-61 | an owner with no accounts for the mint gets total 0 and an empty list |
| `TokenAccounts.TwoAccountsTotal` | packages/gill/src/programs/token/fetch-token-accounts.ts:56-61 | accounts holding 100 and 250 give two accounts and total 350 |
| `TokenAccount.FetchTokenAccount` | packages/gill/src/programs/token/fetch-token-account.ts:36-54 | no contract of its own; its properties are `ValidatesLikeAssertIsMint`, `CallOrder`, `ResultParts`, `PrefetchedMintReturnedUnchanged` and `AddressOrPrefetchedAgree` |
| `TokenAccount.ValidatesLikeAssertIsMint` | packages/gill/src/programs/token/fetch-token-account.ts:11-21 | a shapeless pre-fetched object fails with FAILED_TO_DECODE_ACCOUNT and no call (a TypeError when its `data` is not an object); an address without an account fails with ACCOUNT_NOT_FOUND after one mint fetch; an accepted mint has the mint shape |
| `TokenAccount.CallOrder` | packages/gill/src/programs/token/fetch-token-account.ts:42-49 | the mint fetch happens only for an address and comes first; the token fetch is at the derived ATA with `config` unchanged |
| `TokenAccount.ResultParts` | packages/gill/src/programs/token/fetch-token-account.ts:44-53 | the token is the account at the ATA of (mint address, owner, mint's program); the returned mint is the resolved mint |
| `TokenAccount.PrefetchedMintReturnedUnchanged` | packages/gill/src/programs/token/fetch-token-account.ts:42-43 | a pre-fetched mint is returned as passed and only the token is fetched |
| `TokenAccount.SameInputsSameTokenAddress` | packages/gill/src/programs/token/fetch-token-account.ts:44-48 | mints that agree on address and owning program give the same token address for an owner |
| `TokenAccount.AddressOrPrefetchedAgree` | packages/gill/src/programs/token/fetch-token-account.ts:42-53 | passing an address or the mint fetched from it gives the same result; only the mint fetch call differs |

## Left out

- URL parsing: the WHATWG URL parser is the `parse` parameter of `UrlEnv`. The URL is reduced to protocol, hostname, port and the rest. The setters' normalisation is not modelled: lower-casing, dropping a port equal to the scheme's default, rejecting invalid ports, and credentials.
- `getPublicSolanaRpcUrl` is not part of this model. It is the partial table `UrlEnv.publicRpcUrls` from the four monikers to URL strings.
- `createSolanaRpc`, `createSolanaRpcSubscriptions` and the send-and-confirm and simulate factories are foreign constructors. They are records of the URL string and config they receive.
- Port numbers are `nat`. A JavaScript `NaN`, a negative or a fractional port is not modelled.
- The overload signatures (create-solana-client.ts:12-38) are types only.
- The token-2022 decoders, `isAddress` and the SHA-256 PDA computation are uninterpreted fields of `Kit.Codecs`. So "different token programs give different ATAs" cannot be proved: it is a hash collision property.
- `parseBase64RpcAccount` is not modelled as a step of its own. A ledger account is held as its already-decoded bytes (`RawAccount.bytes`), which go straight to `decodeToken` (`Kit.DecodeKeyedAccount`). So the base64 text and a malformed encoding are not represented.
- The ledger ignores the request config. Commitment, `minContextSlot` and `dataSlice` do not change what `Rpc` returns. Configs are recorded in the call trace only.
- The owner query's answer is an uninterpreted function of owner and mint. Which accounts the provider returns, and their order, is the provider's.
- Calls are recorded at the level of `fetchMint` and `fetchToken`. The inner `getAccountInfo` requests of those helpers are not modelled.
- `async`, `AbortSignal` cancellation and network errors are left out. Calls are sequential, and failures are `Result` values.
- React hooks, the wallet provider and the transaction signing hooks are not part of this model. They are UI state and calls into libraries that are not visible here.
