# iTani wallet: native-chain balances and the wallet store

This project is a Dafny model of two parts of the iTani Kobs wallet.

**The iTani native chain client** (`src/chains/itani.ts`) is module `Itani` in `itani.dfy`. It covers:

- the two network configurations and `getItaniConfig`;
- the fixed, ordered registry `ITANI_TOKENS` of four native tokens;
- `isNativeToken` and `getAvailableTokens`;
- `getBalance`, including its "absent or empty becomes `"0"`" rule;
- `getAllBalances`. It walks the registry in order and fetches each token's balance. Each fetch sits in its own `try`/`catch`, so a failing token is recorded as `"0"` and the batch always completes.

**The wallet store** (`src/stores/wallet.ts`) is module `Wallet` in `wallet.dfy`. It is a class holding:

- an ordered list of accounts;
- the current chain name, initially `"itani"`;
- a fixed registry of six chain clients.

Its operations are `currentAccount`, `addAccount`, `switchChain` and `refreshBalance`.

`outcomes.dfy` holds two shared wrappers:

- `Option`, for a value that may be `undefined`;
- `Settled`, for a promise that is either fulfilled with a value or rejected.

How the environment is modelled:

- **The JSON-RPC node.** The endpoint that `getBalance` posts to is the class `Itani.RpcNode`. Its `log` lists every request posted, in order. Its `respond(n, q)` gives how reading the reply to the `n`-th post settles. It is rejected when the post throws, or when the reply has no `data` object to read `result` from (a JSON `null` body). Otherwise it is fulfilled with the one reply field `getBalance` reads. That field is `result.balance` for a token query and `result` for the native query, and it is either absent or a string. Because the reply may depend on the post's position, one token can fail while the others succeed. The order of requests shows up as a postcondition on `log`.
- **The store's chain clients.** Their `getBalance(address)` is one function parameter, `getBalance: (ChainAdapter, string) -> Settled<string>`. This is how each client's call settles, given the client the store picked and the address.
- **Async, `ref` and `computed`.** Each `await` is one atomic step. `computed` becomes a function that reads the store's fields.

Behaviours the model states:

- In `getBalance`, a symbol that is missing or empty is falsy in JavaScript, so the call takes the native `eth_getBalance` path. `BalanceCall` states this.
- `refreshBalance` looks the client up with `chains[currentChain]`. For a name outside the registry, that lookup gives either nothing or an inherited object member that has no `getBalance`. Calling it throws, so the refresh rejects and nothing changes.
- `getAllBalances` sets `balances[token.symbol]` one token at a time. Its result is therefore specified by `Collect`, a fold over the first `n` tokens in registry order.

## Model

| member | source | states |
|---|---|---|
| `Itani.GetItaniConfig` | src/chains/itani.ts:11-25 | `true` selects the main-network config (chain id `itani-mainnet`), `false` the test-network config (`itani-testnet`); no other config is returned |
| `Itani.TokenRegistryShape` | src/chains/itani.ts:38-75 | the registry has exactly four tokens with symbols ITANI, HIS, LOOT, ART_RINGS in that order; the symbols are pairwise distinct; every token has 18 decimals and is native |
| `Itani.GetAvailableTokens` | src/chains/itani.ts:197-199 | returns the registry unchanged (four tokens) |
| `Itani.AnyNative` | src/chains/itani.ts:203 | `some` over a token list: true iff some token has the given symbol and is native |
| `Itani.IsNativeToken` | src/chains/itani.ts:202-204 | true iff a registry token with that symbol is native, which is exactly for ITANI, HIS, LOOT and ART_RINGS |
| `Itani.RpcNode.Post` | src/chains/itani.ts:84-89 | one post: appended to the node's log, answered with the reply for its position |
| `Itani.BalanceCall` | src/chains/itani.ts:82-98 | a non-empty token symbol selects `get_token_balance` for that symbol, and a missing or empty one selects `eth_getBalance`; both carry the given address |
| `Itani.OrZero` | src/chains/itani.ts:90-99 | the default to "0": a present, non-empty field is returned as it is; an absent or empty field gives "0"; the result is never empty |
| `Itani.BalanceFromReply` | src/chains/itani.ts:84-99 | `getBalance` rejects exactly when reading its reply rejects (the post threw, or the reply had no `data`); otherwise it yields the field, or "0" when the field is absent or empty |
| `Itani.ItaniChain.constructor` | src/chains/itani.ts:77-78 | the client keeps the configuration it is given |
| `Itani.ItaniChain.GetBalance` | src/chains/itani.ts:81-101 | posts exactly one request, to the configured RPC URL, for the call `BalanceCall` selects; settles as `BalanceFromReply` of the node's reply |
| `Itani.Requested` | src/chains/itani.ts:107-109 | after `n` tokens the batch has posted `n` requests, the k-th one for the k-th token's symbol |
| `Itani.RegistryRequestsInOrder` | src/chains/itani.ts:107-109 | over the registry, the requests are the token-balance queries for ITANI, HIS, LOOT, ART_RINGS in that order |
| `Itani.OutcomesFollowLog` | src/chains/itani.ts:107-109 | after a batch posted behind earlier requests, the log's entry at the batch's k-th position is the k-th token's balance query, and the k-th token's fetch settles as the node's reply to exactly that entry |
| `Itani.Settle` | src/chains/itani.ts:108-112 | the per-token `try`/`catch`: a fetched value is kept, a rejection becomes "0" |
| `Itani.CollectHas` | src/chains/itani.ts:103-116 | after `n` tokens the dictionary has a key exactly for the symbols of those tokens |
| `Itani.CollectAt` | src/chains/itani.ts:107-113 | with distinct symbols, each token's entry is its own settled balance, whatever the other tokens' fetches did |
| `Itani.CollectSize` | src/chains/itani.ts:103-116 | with distinct symbols, the dictionary has exactly one entry per token |
| `Itani.OneFailureIsolated` | src/chains/itani.ts:107-113 | with exactly one failing fetch among N distinct tokens: N entries, the failing one "0", each other one its fetched value |
| `Itani.AllBalancesKeys` | src/chains/itani.ts:103-116 | over the registry, the key set is exactly {ITANI, HIS, LOOT, ART_RINGS} and has size 4, whatever the fetches did |
| `Itani.FailureIsolation` | src/chains/itani.ts:107-113 | over the registry, each token maps to "0" if its own fetch rejected and to its fetched value otherwise |
| `Itani.ItaniChain.GetAllBalances` | src/chains/itani.ts:103-116 | the loop posts one token-balance request per registry token, in registry order, and returns the dictionary `Collect` builds from those fetches' outcomes, the k-th outcome being the node's reply to the batch's k-th post; it never rejects |
| `Wallet.ChainRegistryKeys` | src/stores/wallet.ts:22-29 | the chain registry has exactly the keys itani, ethereum, solana, bitcoin, cosmos, avalanche |
| `Wallet.FirstMatch` | src/stores/wallet.ts:32 | `find` by chain: the position of the first account on the chain, every earlier account being on another chain; none iff no account is on the chain |
| `Wallet.FirstMatchAppend` | src/stores/wallet.ts:32-37 | appending keeps an existing first match; without one, the new account becomes the match iff it is on the chain |
| `Wallet.FirstMatchByChains` | src/stores/wallet.ts:32 | the first match depends only on the accounts' chains |
| `Wallet.BalanceUpdateFrame` | src/stores/wallet.ts:46 | setting one account's balance keeps its address, private key and chain, keeps every other account, and keeps the first match on every chain |
| `Wallet.WalletStore.constructor` | src/stores/wallet.ts:19-20 | a new store has no accounts, is on chain "itani", and so has no current account |
| `Wallet.WalletStore.CurrentAccount` | src/stores/wallet.ts:31-33 | the first account in list order on the current chain, or none iff no account is on it |
| `Wallet.WalletStore.AddAccount` | src/stores/wallet.ts:35-37 | appends with no uniqueness check; the chain is unchanged; an existing current account stays current |
| `Wallet.WalletStore.SwitchChain` | src/stores/wallet.ts:39-41 | sets the current chain to any name without validation; the accounts are unchanged |
| `Wallet.WalletStore.RefreshBalance` | src/stores/wallet.ts:43-48 | with no current account it resolves and changes nothing. With a chain name outside the registry, or a client call that rejects, it rejects and changes nothing. Otherwise only the current account's balance becomes the client's result, and that account stays current. A resolving refresh with a current account implies the chain is a registry key |

## Left out

- HTTP and JSON-RPC plumbing are left out: `axios`, the request envelope fields (`jsonrpc`, `id`, `Date.now()`) and the response wrapper. A request is modelled only as its endpoint and its call.
- `sendTransaction`, `deployContract`, `mintTokens`, `forceTransfer`, `createCustomToken` and `callContract` are left out. Each is a single network post that returns the node's opaque `result`, and no state or logic depends on it.
- Itani.BalanceFromReply: a post that succeeds but whose reply has a `null` body makes `getBalance` throw in the source. The model has no separate case for it: `respond` must give `Rejected` for that post, so a fulfilled post is not told apart from a rejected one there.
- Itani.ItaniTokens, Itani.GetAvailableTokens and Itani.ItaniChain.GetAllBalances: the registry is modelled as an immutable sequence. In the source, `ITANI_TOKENS` is an exported mutable array, and `getAvailableTokens` returns that same array. A caller could push to it, splice it or edit its entries, and `getAllBalances` would then walk the edited array. `AllBalancesKeys` and `RegistryRequestsInOrder` therefore hold here without a condition the source does not guarantee. No code in the modelled files changes the registry.
- Itani.ItaniChain.GetAllBalances: the key order of the returned object (registry order, by insertion) is not modelled, because a `map` has no order. Only the order of the requests is stated.
- Itani.OrZero: reply fields that are JSON values other than strings are not modelled. This covers numbers, `false`, `null`, and a `result` object returned on the native path. The model treats each reply field as an absent-or-string value.
- Wallet.WalletStore.RefreshBalance: aliasing is not modelled. Accounts are values, so the same object pushed twice counts as two accounts, and refreshing one does not update the other as it would in the source.
- Wallet.WalletStore.RefreshBalance: interleaving is not modelled. The `await` is one atomic step, so a concurrent `switchChain` or `addAccount` during the fetch is not represented.
- The chain clients (`ethereum.ts`, `solana.ts`, `cosmos.ts`, `avalanche.ts`, `bitcoin.ts`) are not part of this model. Their `getBalance` is the abstract `getBalance` parameter of `RefreshBalance`, and their unit conversions are floating point or library formatting.
- The store imports `itaniConfig`, but `src/chains/itani.ts` exports only `itaniTestnetConfig`, `itaniMainnetConfig` and `getItaniConfig`. The iTani entry of the registry is therefore modelled as an opaque client (`ItaniAdapter`), and the config it would carry is not modelled.
- Vue/Pinia reactivity (`ref`, `computed`) is not modelled, and neither are the router (`src/router/index.ts`) or the packaging configuration (`capacitor.config.ts`).
- The code has no user registration or login, password digests, key encryption, snapshot persistence or migration, or balance formatting, so the model has none either. In the code, `switchChain` only assigns the chain name: it starts no token refresh, and accounts are not filtered by owner.
