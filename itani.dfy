/** The iTani native chain: network configurations, the fixed registry of
    native tokens, the balance queries and the per-token balance batch. */
module Itani {
  import opened Outcomes

  // ---------------------------------------------------------------------
  // Network configuration
  // ---------------------------------------------------------------------

  datatype ItaniConfig = ItaniConfig(rpcUrl: string, apiUrl: string, chainId: string)

  const TestnetConfig := ItaniConfig("http://localhost:8545", "http://localhost:3000", "itani-testnet")
  const MainnetConfig := ItaniConfig("https://rpc.itani.network", "https://api.itani.network", "itani-mainnet")

  /** Selects the main network or the test network. */
  function GetItaniConfig(isMainnet: bool): (config: ItaniConfig)
    ensures config.chainId == (if isMainnet then "itani-mainnet" else "itani-testnet")
    ensures config == MainnetConfig || config == TestnetConfig
  {
    if isMainnet then MainnetConfig else TestnetConfig
  }

  // ---------------------------------------------------------------------
  // The native token registry
  // ---------------------------------------------------------------------

  datatype ItaniToken = ItaniToken(
    name: string,
    symbol: string,
    decimals: nat,
    totalSupply: string,
    address: string,
    description: string,
    isNative: bool)

  const ItaniEntry := ItaniToken("iTani Token", "ITANI", 18, "1000000000000000000000000000",
    "iTaTOKENITANI0000000000000000000000", "Token principal de la iTani Network Chain", true)
  const HisEntry := ItaniToken("HIS Token", "HIS", 18, "500000000000000000000000000",
    "iTaTOKENHIS000000000000000000000000", "Stablecoin 1:1 EUR (50% HTG + 50% DOP)", true)
  const LootEntry := ItaniToken("LOOT Token", "LOOT", 18, "100000000000000000000000000",
    "iTaTOKENLOOT0000000000000000000000", "Token de récompense - staking, mining", true)
  const ArtRingsEntry := ItaniToken("Art Rings Token", "ART_RINGS", 18, "10000000000000000000000000",
    "iTaTOKENARTRINGS00000000000000000", "Token NFT - création et échange d'art", true)

  /** `ITANI_TOKENS`, in its fixed order. */
  const ItaniTokens: seq<ItaniToken> := [ItaniEntry, HisEntry, LootEntry, ArtRingsEntry]

  /** The symbols of `tokens`, in registry order. */
  function Symbols(tokens: seq<ItaniToken>): seq<string>
  {
    seq(|tokens|, k requires 0 <= k < |tokens| => tokens[k].symbol)
  }

  /** No symbol occurs twice. */
  predicate Distinct(symbols: seq<string>)
  {
    forall i, j :: 0 <= i < j < |symbols| ==> symbols[i] != symbols[j]
  }

  /** The registry holds four native 18-decimal tokens with distinct symbols,
      in the order ITANI, HIS, LOOT, ART_RINGS. */
  lemma TokenRegistryShape()
    ensures |ItaniTokens| == 4
    ensures Symbols(ItaniTokens) == ["ITANI", "HIS", "LOOT", "ART_RINGS"]
    ensures Distinct(Symbols(ItaniTokens))
    ensures forall k :: 0 <= k < |ItaniTokens| ==> ItaniTokens[k].decimals == 18 && ItaniTokens[k].isNative
  {
  }

  /** `getAvailableTokens`: the registry itself, unchanged. (In the source it
      is an instance method of the chain client that reads no instance state.) */
  function GetAvailableTokens(): (tokens: seq<ItaniToken>)
    ensures tokens == ItaniTokens
    ensures |tokens| == 4
  {
    ItaniTokens
  }

  /** `tokens.some(t => t.symbol === symbol && t.isNative)`. */
  function AnyNative(tokens: seq<ItaniToken>, symbol: string): (found: bool)
    ensures found <==> exists k :: 0 <= k < |tokens| && tokens[k].symbol == symbol && tokens[k].isNative
  {
    if |tokens| == 0 then false
    else if tokens[0].symbol == symbol && tokens[0].isNative then true
    else
      var rest := AnyNative(tokens[1..], symbol);
      assert rest ==> exists k :: 0 <= k < |tokens| && tokens[k].symbol == symbol && tokens[k].isNative by {
        if rest {
          var k :| 0 <= k < |tokens[1..]| && tokens[1..][k].symbol == symbol && tokens[1..][k].isNative;
          assert tokens[k + 1] == tokens[1..][k];
        }
      }
      assert !rest ==> forall k :: 1 <= k < |tokens| ==> !(tokens[k].symbol == symbol && tokens[k].isNative) by {
        if !rest {
          forall k | 1 <= k < |tokens|
            ensures !(tokens[k].symbol == symbol && tokens[k].isNative)
          {
            assert tokens[k] == tokens[1..][k - 1];
          }
        }
      }
      rest
  }

  /** `isNativeToken`: holds for exactly the four registry symbols. (An
      instance method in the source that reads no instance state.) */
  function IsNativeToken(symbol: string): (native: bool)
    ensures native <==> exists k :: 0 <= k < |ItaniTokens| && ItaniTokens[k].symbol == symbol && ItaniTokens[k].isNative
    ensures native <==> symbol in ["ITANI", "HIS", "LOOT", "ART_RINGS"]
  {
    TokenRegistryShape();
    var symbols := Symbols(ItaniTokens);
    assert symbol in symbols <==> exists k :: 0 <= k < |symbols| && symbols[k] == symbol;
    AnyNative(ItaniTokens, symbol)
  }

  // ---------------------------------------------------------------------
  // The JSON-RPC node
  // ---------------------------------------------------------------------

  /** The balance calls the client makes: `get_token_balance` with an address
      and a token symbol, or `eth_getBalance` with an address (at "latest"). */
  datatype Call = GetTokenBalance(address: string, token: string) | EthGetBalance(address: string)

  /** One request envelope, posted to an RPC endpoint. */
  datatype Request = Request(rpcUrl: string, call: Call)

  /** The node behind the RPC endpoint. `respond(n, q)` is how reading the
      reply to the `n`-th post made to it settles: rejected (the post threw,
      or its reply has no `data` object to read `result` from) or fulfilled
      with the field the balance query reads from the reply (`result.balance`
      for a token query, `result` for the native one), absent or a string.
      `log` records every posted request in order. */
  class RpcNode {
    const respond: (nat, Request) -> Settled<Option<string>>
    var log: seq<Request>

    constructor (respond: (nat, Request) -> Settled<Option<string>>)
      ensures this.respond == respond
      ensures log == []
    {
      this.respond := respond;
      log := [];
    }

    /** Posts `q`; the reply is the one `respond` gives for this position. */
    method Post(q: Request) returns (reply: Settled<Option<string>>)
      modifies this
      ensures log == old(log) + [q]
      ensures reply == respond(|old(log)|, q)
    {
      reply := respond(|log|, q);
      log := log + [q];
    }
  }

  // ---------------------------------------------------------------------
  // Balance queries
  // ---------------------------------------------------------------------

  /** The call `getBalance(address, tokenSymbol)` makes. A missing or empty
      symbol is falsy, so both select the native balance. */
  function BalanceCall(address: string, tokenSymbol: Option<string>): (call: Call)
    ensures call.address == address
    ensures call.GetTokenBalance? <==> tokenSymbol.Some? && tokenSymbol.value != ""
    ensures call.GetTokenBalance? ==> call.token == tokenSymbol.value
  {
    if tokenSymbol.Some? && tokenSymbol.value != "" then GetTokenBalance(address, tokenSymbol.value)
    else EthGetBalance(address)
  }

  /** The `|| "0"` default: an absent or empty field reads as "0". */
  function OrZero(field: Option<string>): (balance: string)
    ensures balance != ""
    ensures field.Some? && field.value != "" ==> balance == field.value
    ensures field.None? || field.value == "" ==> balance == "0"
  {
    if field.Some? && field.value != "" then field.value else "0"
  }

  /** How `getBalance` settles for a given reply: a rejected post rejects,
      a fulfilled one yields the defaulted field. */
  function BalanceFromReply(reply: Settled<Option<string>>): (balance: Settled<string>)
    ensures balance.Rejected? <==> reply.Rejected?
    ensures balance.Resolved? ==> balance.value != ""
    ensures balance.Resolved? && reply.value.Some? && reply.value.value != "" ==> balance.value == reply.value.value
    ensures balance.Resolved? && (reply.value.None? || reply.value.value == "") ==> balance.value == "0"
  {
    match reply
    case Rejected => Rejected
    case Resolved(field) => Resolved(OrZero(field))
  }

  /** The request `getBalance` posts for one registry token. */
  function TokenRequest(rpcUrl: string, address: string, symbol: string): Request
  {
    Request(rpcUrl, BalanceCall(address, Some(symbol)))
  }

  /** The requests the batch has posted after its first `n` tokens: one per
      token, in registry order. */
  function Requested(rpcUrl: string, address: string, tokens: seq<ItaniToken>, n: nat): (requests: seq<Request>)
    requires n <= |tokens|
    ensures |requests| == n
    ensures forall k :: 0 <= k < n ==> requests[k] == TokenRequest(rpcUrl, address, tokens[k].symbol)
  {
    if n == 0 then []
    else Requested(rpcUrl, address, tokens, n - 1) + [TokenRequest(rpcUrl, address, tokens[n - 1].symbol)]
  }

  /** Over the registry the batch asks for the token balances of ITANI, HIS,
      LOOT and ART_RINGS, in that order, all at the same address and endpoint. */
  lemma RegistryRequestsInOrder(rpcUrl: string, address: string)
    ensures Requested(rpcUrl, address, ItaniTokens, |ItaniTokens|) == [
      Request(rpcUrl, GetTokenBalance(address, "ITANI")),
      Request(rpcUrl, GetTokenBalance(address, "HIS")),
      Request(rpcUrl, GetTokenBalance(address, "LOOT")),
      Request(rpcUrl, GetTokenBalance(address, "ART_RINGS"))]
  {
  }

  /** How each per-token `getBalance` of a batch settles, when the batch's
      first post is the node's `start`-th. */
  function TokenOutcomes(respond: (nat, Request) -> Settled<Option<string>>, start: nat,
                         rpcUrl: string, address: string, tokens: seq<ItaniToken>): seq<Settled<string>>
  {
    seq(|tokens|, k requires 0 <= k < |tokens| =>
      BalanceFromReply(respond(start + k, TokenRequest(rpcUrl, address, tokens[k].symbol))))
  }

  /** The batch's outcomes are read off the node's log: after a batch that
      starts behind the requests `before`, the k-th token's fetch settles as
      the node's reply to the request at the batch's k-th position in the
      log, which is the balance query for that token. */
  lemma OutcomesFollowLog(respond: (nat, Request) -> Settled<Option<string>>, before: seq<Request>,
                          rpcUrl: string, address: string, tokens: seq<ItaniToken>)
    ensures var log := before + Requested(rpcUrl, address, tokens, |tokens|);
      var outcomes := TokenOutcomes(respond, |before|, rpcUrl, address, tokens);
      && |log| == |before| + |tokens|
      && |outcomes| == |tokens|
      && forall k :: 0 <= k < |tokens| ==>
           && log[|before| + k] == TokenRequest(rpcUrl, address, tokens[k].symbol)
           && outcomes[k] == BalanceFromReply(respond(|before| + k, log[|before| + k]))
  {
  }

  // ---------------------------------------------------------------------
  // The balance batch
  // ---------------------------------------------------------------------

  /** The `try`/`catch` around one token's fetch: a rejection becomes "0". */
  function Settle(outcome: Settled<string>): (balance: string)
    ensures outcome.Resolved? ==> balance == outcome.value
    ensures outcome.Rejected? ==> balance == "0"
  {
    if outcome.Resolved? then outcome.value else "0"
  }

  /** The dictionary the batch has built after its first `n` tokens: token
      by token, in order, each symbol set to its settled balance. */
  function Collect(symbols: seq<string>, outcomes: seq<Settled<string>>, n: nat): map<string, string>
    requires |symbols| == |outcomes| && n <= |symbols|
  {
    if n == 0 then map[]
    else Collect(symbols, outcomes, n - 1)[symbols[n - 1] := Settle(outcomes[n - 1])]
  }

  /** After `n` tokens the batch has an entry for a symbol exactly when one
      of those tokens carries it. */
  lemma {:induction false} CollectHas(symbols: seq<string>, outcomes: seq<Settled<string>>, n: nat, s: string)
    requires |symbols| == |outcomes| && n <= |symbols|
    ensures s in Collect(symbols, outcomes, n) <==> exists k :: 0 <= k < n && symbols[k] == s
  {
    if n > 0 {
      CollectHas(symbols, outcomes, n - 1, s);
    }
  }

  /** With distinct symbols, each token's entry is its own settled balance:
      no other token's outcome can touch it. */
  lemma {:induction false} CollectAt(symbols: seq<string>, outcomes: seq<Settled<string>>, n: nat, k: nat)
    requires |symbols| == |outcomes| && n <= |symbols| && Distinct(symbols)
    requires k < n
    ensures symbols[k] in Collect(symbols, outcomes, n)
    ensures Collect(symbols, outcomes, n)[symbols[k]] == Settle(outcomes[k])
  {
    if k < n - 1 {
      CollectAt(symbols, outcomes, n - 1, k);
    }
  }

  /** With distinct symbols, the batch has exactly one entry per token. */
  lemma {:induction false} CollectSize(symbols: seq<string>, outcomes: seq<Settled<string>>, n: nat)
    requires |symbols| == |outcomes| && n <= |symbols| && Distinct(symbols)
    ensures |Collect(symbols, outcomes, n)| == n
  {
    if n > 0 {
      CollectSize(symbols, outcomes, n - 1);
      CollectHas(symbols, outcomes, n - 1, symbols[n - 1]);
    }
  }

  /** Exactly one failing fetch among distinct tokens: every token has its
      entry, the failing one reads "0" and each other one reads its fetched
      value. */
  lemma OneFailureIsolated(symbols: seq<string>, outcomes: seq<Settled<string>>, failed: nat)
    requires |symbols| == |outcomes| && Distinct(symbols)
    requires failed < |outcomes| && outcomes[failed].Rejected?
    requires forall k :: 0 <= k < |outcomes| && k != failed ==> outcomes[k].Resolved?
    ensures |Collect(symbols, outcomes, |symbols|)| == |symbols|
    ensures forall k :: 0 <= k < |symbols| ==> symbols[k] in Collect(symbols, outcomes, |symbols|)
    ensures Collect(symbols, outcomes, |symbols|)[symbols[failed]] == "0"
    ensures forall k :: 0 <= k < |symbols| && k != failed ==>
      Collect(symbols, outcomes, |symbols|)[symbols[k]] == outcomes[k].value
  {
    CollectSize(symbols, outcomes, |symbols|);
    forall k | 0 <= k < |symbols|
      ensures symbols[k] in Collect(symbols, outcomes, |symbols|)
      ensures Collect(symbols, outcomes, |symbols|)[symbols[k]] == Settle(outcomes[k])
    {
      CollectAt(symbols, outcomes, |symbols|, k);
    }
  }

  /** The batch over the registry has exactly one entry per registry symbol. */
  lemma AllBalancesKeys(outcomes: seq<Settled<string>>)
    requires |outcomes| == |ItaniTokens|
    ensures Collect(Symbols(ItaniTokens), outcomes, |ItaniTokens|).Keys == {"ITANI", "HIS", "LOOT", "ART_RINGS"}
    ensures |Collect(Symbols(ItaniTokens), outcomes, |ItaniTokens|)| == 4
  {
    TokenRegistryShape();
    var symbols := Symbols(ItaniTokens);
    var balances := Collect(symbols, outcomes, |symbols|);
    forall s
      ensures s in balances <==> s in ["ITANI", "HIS", "LOOT", "ART_RINGS"]
    {
      CollectHas(symbols, outcomes, |symbols|, s);
    }
    RegistryKeySet(balances);
  }

  /** A dictionary keyed by exactly the registry symbols has four entries. */
  lemma RegistryKeySet(balances: map<string, string>)
    requires forall s :: s in balances <==> s in ["ITANI", "HIS", "LOOT", "ART_RINGS"]
    ensures balances.Keys == {"ITANI", "HIS", "LOOT", "ART_RINGS"}
    ensures |balances| == 4
  {
  }

  /** Failure isolation over the registry: every token maps to its fetched
      balance, or to "0" when its own fetch failed, whatever the others did. */
  lemma FailureIsolation(outcomes: seq<Settled<string>>)
    requires |outcomes| == |ItaniTokens|
    ensures forall k :: 0 <= k < |ItaniTokens| ==>
      && Symbols(ItaniTokens)[k] in Collect(Symbols(ItaniTokens), outcomes, |ItaniTokens|)
      && Collect(Symbols(ItaniTokens), outcomes, |ItaniTokens|)[Symbols(ItaniTokens)[k]] ==
           (if outcomes[k].Rejected? then "0" else outcomes[k].value)
  {
    TokenRegistryShape();
    forall k | 0 <= k < |ItaniTokens|
      ensures Symbols(ItaniTokens)[k] in Collect(Symbols(ItaniTokens), outcomes, |ItaniTokens|)
      ensures Collect(Symbols(ItaniTokens), outcomes, |ItaniTokens|)[Symbols(ItaniTokens)[k]] ==
        (if outcomes[k].Rejected? then "0" else outcomes[k].value)
    {
      CollectAt(Symbols(ItaniTokens), outcomes, |ItaniTokens|, k);
    }
  }

  // ---------------------------------------------------------------------
  // The chain client
  // ---------------------------------------------------------------------

  class ItaniChain {
    const config: ItaniConfig

    constructor (config: ItaniConfig)
      ensures this.config == config
    {
      this.config := config;
    }

    /** `getBalance`: one post to the configured endpoint, then the field it
        reads, defaulted to "0"; a failed post rejects. */
    method GetBalance(address: string, tokenSymbol: Option<string>, node: RpcNode) returns (balance: Settled<string>)
      modifies node
      ensures node.log == old(node.log) + [Request(config.rpcUrl, BalanceCall(address, tokenSymbol))]
      ensures balance == BalanceFromReply(node.respond(|old(node.log)|, Request(config.rpcUrl, BalanceCall(address, tokenSymbol))))
    {
      var reply := node.Post(Request(config.rpcUrl, BalanceCall(address, tokenSymbol)));
      balance := BalanceFromReply(reply);
    }

    /** `getAllBalances`: fetches each registry token in turn, catching each
        failure on its own, and always completes with the whole dictionary. */
    method GetAllBalances(address: string, node: RpcNode) returns (balances: map<string, string>)
      modifies node
      ensures node.log == old(node.log) + Requested(config.rpcUrl, address, ItaniTokens, |ItaniTokens|)
      ensures balances == Collect(Symbols(ItaniTokens),
                                  TokenOutcomes(node.respond, |old(node.log)|, config.rpcUrl, address, ItaniTokens),
                                  |ItaniTokens|)
    {
      ghost var symbols := Symbols(ItaniTokens);
      ghost var outcomes := TokenOutcomes(node.respond, |node.log|, config.rpcUrl, address, ItaniTokens);
      balances := map[];
      var i := 0;
      while i < |ItaniTokens|
        invariant 0 <= i <= |ItaniTokens|
        invariant node.log == old(node.log) + Requested(config.rpcUrl, address, ItaniTokens, i)
        invariant balances == Collect(symbols, outcomes, i)
      {
        var token := ItaniTokens[i];
        var fetched := GetBalance(address, Some(token.symbol), node);
        balances := balances[token.symbol := Settle(fetched)];
        i := i + 1;
      }
    }
  }
}
