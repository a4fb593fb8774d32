/**
 * The wallet provider the balance action talks to. Its RPC internals live in
 * a module that is not part of this model, so the provider is described by
 * what the action can observe: the table of configured chains, the active
 * chain, and two oracles fixed when the provider is created, one saying
 * whether `switchChain` throws and one giving what `getWalletBalance`
 * resolves or rejects with.
 */
module Wallet {
  import opened Wrappers

  /** Connection parameters of one configured chain. */
  datatype ChainInfo = ChainInfo(id: nat, rpcUrl: string)

  /**
   * The provider's `chains` object: the entries by chain name, and the order
   * in which `Object.keys` lists them.
   */
  datatype ChainTable = ChainTable(keys: seq<string>, entries: map<string, ChainInfo>)
  {
    /** The key order lists every configured name exactly once. */
    ghost predicate Valid()
    {
      && (forall i, j :: 0 <= i < j < |keys| ==> keys[i] != keys[j])
      && (forall n :: n in entries <==> n in keys)
    }
  }

  /** One call the balance action makes on the provider, as recorded in its ghost trace. */
  datatype WalletCall =
    | SwitchCall(chain: string)
    | FetchCall(activeChain: string, address: string)

  class WalletProvider {
    /** The configured chains (`wp.chains`); the action only reads them. */
    const chains: ChainTable
    /** The chain subsequent balance queries go to. */
    var activeChain: string
    /** The message `switchChain(name)` throws with, or None when it switches. */
    const switchOutcome: string -> Option<string>
    /** What `getWalletBalance(address)` yields on the given active chain. */
    const balanceOracle: (string, string) -> Result<string>
    /** Every call made on this provider, oldest first. */
    ghost var trace: seq<WalletCall>

    constructor (chains: ChainTable, activeChain: string,
                 switchOutcome: string -> Option<string>,
                 balanceOracle: (string, string) -> Result<string>)
      requires chains.Valid()
      ensures this.chains == chains && this.activeChain == activeChain
      ensures this.switchOutcome == switchOutcome && this.balanceOracle == balanceOracle
      ensures trace == []
    {
      this.chains := chains;
      this.activeChain := activeChain;
      this.switchOutcome := switchOutcome;
      this.balanceOracle := balanceOracle;
      trace := [];
    }

    /** Makes `name` the active chain, or throws with the oracle's message and leaves it as it was. */
    method SwitchChain(name: string) returns (thrown: Option<string>)
      modifies this`activeChain, this`trace
      ensures thrown == switchOutcome(name)
      ensures activeChain == if thrown.None? then name else old(activeChain)
      ensures trace == old(trace) + [SwitchCall(name)]
    {
      thrown := switchOutcome(name);
      if thrown.None? {
        activeChain := name;
      }
      trace := trace + [SwitchCall(name)];
    }

    /** Fetches the native balance of `address` on the active chain; the active chain is not changed. */
    method GetWalletBalance(address: string) returns (r: Result<string>)
      modifies this`trace
      ensures r == balanceOracle(activeChain, address)
      ensures trace == old(trace) + [FetchCall(activeChain, address)]
    {
      r := balanceOracle(activeChain, address);
      trace := trace + [FetchCall(activeChain, address)];
    }
  }

  /** A provider that accepts a switch to every configured chain (its chain table and its client agree). */
  predicate AcceptsConfigured(chains: ChainTable, switchOutcome: string -> Option<string>)
  {
    forall n :: n in chains.entries ==> switchOutcome(n).None?
  }
}
