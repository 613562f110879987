/** The wallet store: an ordered list of accounts, the chain currently
    selected, and the registry of chain clients the store dispatches to. */
module Wallet {
  import opened Outcomes

  datatype WalletAccount = WalletAccount(address: string, privateKey: string, chain: string, balance: string)

  /** The six chain clients of the registry. Each answers `getBalance(address)`
      with a settled promise; what it asks its network is not modelled. */
  datatype ChainAdapter = ItaniAdapter | EthereumAdapter | SolanaAdapter | BitcoinAdapter | CosmosAdapter | AvalancheAdapter

  /** The `chains` registry, keyed by chain name. */
  const Chains: map<string, ChainAdapter> := map[
    "itani" := ItaniAdapter,
    "ethereum" := EthereumAdapter,
    "solana" := SolanaAdapter,
    "bitcoin" := BitcoinAdapter,
    "cosmos" := CosmosAdapter,
    "avalanche" := AvalancheAdapter
  ]

  /** The registry knows exactly six chain names, each with its own client. */
  lemma ChainRegistryKeys()
    ensures Chains.Keys == {"itani", "ethereum", "solana", "bitcoin", "cosmos", "avalanche"}
    ensures |Chains| == 6
  {
  }

  /** `accounts.find(acc => acc.chain === chain)`, as a position: the first
      account in list order on `chain`, or none. */
  function FirstMatch(accounts: seq<WalletAccount>, chain: string): (found: Option<nat>)
    ensures found.Some? ==> found.value < |accounts| && accounts[found.value].chain == chain
    ensures found.Some? ==> forall j :: 0 <= j < found.value ==> accounts[j].chain != chain
    ensures found.None? <==> forall j :: 0 <= j < |accounts| ==> accounts[j].chain != chain
  {
    if |accounts| == 0 then None
    else if accounts[0].chain == chain then Some(0)
    else
      match FirstMatch(accounts[1..], chain)
      case None => None
      case Some(k) => Some(k + 1)
  }

  /** Appending never displaces an earlier match: the first match of the
      longer list is the old one if there was one, else the new account if
      it is on the chain. */
  lemma {:induction false} FirstMatchAppend(accounts: seq<WalletAccount>, chain: string, account: WalletAccount)
    ensures FirstMatch(accounts + [account], chain) ==
      if FirstMatch(accounts, chain).Some? then FirstMatch(accounts, chain)
      else if account.chain == chain then Some(|accounts|)
      else None
  {
    if |accounts| > 0 && accounts[0].chain != chain {
      assert (accounts + [account])[1..] == accounts[1..] + [account];
      FirstMatchAppend(accounts[1..], chain, account);
    }
  }

  /** The first match depends on the accounts' chains only: lists that agree
      on every account's chain have the same first match. */
  lemma FirstMatchByChains(xs: seq<WalletAccount>, ys: seq<WalletAccount>, chain: string)
    requires |xs| == |ys|
    requires forall k :: 0 <= k < |xs| ==> xs[k].chain == ys[k].chain
    ensures FirstMatch(xs, chain) == FirstMatch(ys, chain)
  {
  }

  /** Setting the balance of the account at `i`: its address, key and chain
      stay, every other account stays, and the first match on any chain is
      where it was. */
  lemma BalanceUpdateFrame(accounts: seq<WalletAccount>, i: nat, balance: string, chain: string)
    requires i < |accounts|
    ensures var updated := accounts[i := accounts[i].(balance := balance)];
      && |updated| == |accounts|
      && updated[i].address == accounts[i].address
      && updated[i].privateKey == accounts[i].privateKey
      && updated[i].chain == accounts[i].chain
      && updated[i].balance == balance
      && (forall k :: 0 <= k < |accounts| && k != i ==> updated[k] == accounts[k])
      && FirstMatch(updated, chain) == FirstMatch(accounts, chain)
  {
  }

  /** The store. */
  class WalletStore {
    var accounts: seq<WalletAccount>
    var currentChain: string

    /** A fresh store: no accounts, on the iTani chain. */
    constructor ()
      ensures accounts == []
      ensures currentChain == "itani"
      ensures CurrentAccount().None?
    {
      accounts := [];
      currentChain := "itani";
    }

    /** `currentAccount`: the first account on the current chain, if any. */
    function CurrentAccount(): (current: Option<WalletAccount>)
      reads this
      ensures current.Some? ==> current.value in accounts && current.value.chain == currentChain
      ensures current.Some? ==> current == Some(accounts[FirstMatch(accounts, currentChain).value])
      ensures current.None? <==> forall a :: a in accounts ==> a.chain != currentChain
    {
      match FirstMatch(accounts, currentChain)
      case None => None
      case Some(k) => Some(accounts[k])
    }

    /** `addAccount`: appends, with no uniqueness check. An existing current
        account stays current; otherwise the new account becomes current
        when it is on the current chain. */
    method AddAccount(account: WalletAccount)
      modifies this
      ensures accounts == old(accounts) + [account]
      ensures currentChain == old(currentChain)
      ensures old(CurrentAccount()).Some? ==> CurrentAccount() == old(CurrentAccount())
      ensures old(CurrentAccount()).None? ==>
        CurrentAccount() == if account.chain == currentChain then Some(account) else None
    {
      FirstMatchAppend(accounts, currentChain, account);
      accounts := accounts + [account];
    }

    /** `switchChain`: takes any name, known to the registry or not. */
    method SwitchChain(chain: string)
      modifies this
      ensures currentChain == chain
      ensures accounts == old(accounts)
    {
      currentChain := chain;
    }

    /** `refreshBalance`, given how each chain client's `getBalance` settles.
        Without a current account nothing happens. Otherwise the client is
        looked up under the current chain name: a name outside the registry
        rejects (the lookup yields no client to call), and so does a client
        whose call rejects; in both cases nothing changes. A fulfilled call
        overwrites the balance of the current account and nothing else. */
    method RefreshBalance(getBalance: (ChainAdapter, string) -> Settled<string>) returns (done: Settled<()>)
      modifies this
      ensures currentChain == old(currentChain)
      ensures old(CurrentAccount()).None? ==> done.Resolved? && accounts == old(accounts)
      ensures old(CurrentAccount()).Some? && currentChain !in Chains ==> done.Rejected? && accounts == old(accounts)
      ensures old(CurrentAccount()).Some? && currentChain in Chains ==>
        var fetched := getBalance(Chains[currentChain], old(CurrentAccount()).value.address);
        && (fetched.Rejected? ==> done.Rejected? && accounts == old(accounts))
        && (fetched.Resolved? ==>
              && done.Resolved?
              && accounts == old(accounts)[old(FirstMatch(accounts, currentChain)).value :=
                                           old(CurrentAccount()).value.(balance := fetched.value)]
              && CurrentAccount() == Some(old(CurrentAccount()).value.(balance := fetched.value)))
      ensures done.Resolved? && old(CurrentAccount()).Some? ==> currentChain in Chains
    {
      var found := FirstMatch(accounts, currentChain);
      if found.None? {
        return Resolved(());
      }
      var i := found.value;
      if currentChain !in Chains {
        return Rejected;
      }
      var fetched := getBalance(Chains[currentChain], accounts[i].address);
      if fetched.Rejected? {
        return Rejected;
      }
      BalanceUpdateFrame(accounts, i, fetched.value, currentChain);
      accounts := accounts[i := accounts[i].(balance := fetched.value)];
      done := Resolved(());
    }
  }
}
