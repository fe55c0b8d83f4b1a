/**
 * The env file as a map from keys to values, and the updates the
 * bootstrap makes to it before writing it back: one HD key per Bitcoin
 * account, one private key per Ethereum account, and the token
 * contract's address.
 */
module EnvFile {
  import opened Outcome
  import opened Text
  import opened Accounts
  import opened Collaborators

  type Store = map<string, string>

  const BitcoinKeyPrefix := "BITCOIN_HD_KEY_"
  const EthereumKeyPrefix := "ETHEREUM_KEY_"
  const ContractKey := "ERC20_CONTRACT_ADDRESS"

  /** `format!("{}{}", prefix, i)`. */
  function IndexedKey(prefix: string, i: nat): string {
    prefix + Decimal(i)
  }

  function BitcoinKeyName(i: nat): string {
    IndexedKey(BitcoinKeyPrefix, i)
  }

  function EthereumKeyName(i: nat): string {
    IndexedKey(EthereumKeyPrefix, i)
  }

  /** The keys the env file holds for two accounts of each chain, spelled out. */
  lemma KeyNames()
    ensures BitcoinKeyName(0) == "BITCOIN_HD_KEY_0" && BitcoinKeyName(1) == "BITCOIN_HD_KEY_1"
    ensures EthereumKeyName(0) == "ETHEREUM_KEY_0" && EthereumKeyName(1) == "ETHEREUM_KEY_1"
  {
  }

  /** `format!("0x{:x}", address)`. */
  function ContractValue(contract: Contract): (s: string)
    ensures |s| == 42 && s[..2] == "0x"
    ensures forall k :: 2 <= k < |s| ==> IsLowerHexDigit(s[k])
    ensures ParseHex(s[2..]) == Some(contract)
  {
    ParseLowerHex(contract);
    var s := "0x" + LowerHex(contract);
    assert s[2..] == LowerHex(contract);
    s
  }

  /** The keys `prefix` followed by an index below `count`. */
  function IndexedKeys(prefix: string, count: nat): set<string> {
    set i | 0 <= i < count :: IndexedKey(prefix, i)
  }

  /** The keys that the updates for `bitcoin` and `ethereum` accounts write. */
  function WrittenKeys(bitcoin: nat, ethereum: nat): set<string> {
    IndexedKeys(BitcoinKeyPrefix, bitcoin) + IndexedKeys(EthereumKeyPrefix, ethereum) + {ContractKey}
  }

  /** The three key families start differently, so no update overwrites another family's key. */
  lemma FamiliesDisjoint(bitcoin: nat, ethereum: nat)
    ensures IndexedKeys(BitcoinKeyPrefix, bitcoin) !! IndexedKeys(EthereumKeyPrefix, ethereum)
    ensures ContractKey !in IndexedKeys(BitcoinKeyPrefix, bitcoin)
    ensures ContractKey !in IndexedKeys(EthereumKeyPrefix, ethereum)
  {
    forall key | key in IndexedKeys(BitcoinKeyPrefix, bitcoin)
      ensures key[0] == 'B'
    {
      var i :| 0 <= i < bitcoin && key == IndexedKey(BitcoinKeyPrefix, i);
      assert key[0] == BitcoinKeyPrefix[0];
    }
    forall key | key in IndexedKeys(EthereumKeyPrefix, ethereum)
      ensures key[0] == 'E' && key[1] == 'T'
    {
      var j :| 0 <= j < ethereum && key == IndexedKey(EthereumKeyPrefix, j);
      assert key[0] == EthereumKeyPrefix[0] && key[1] == EthereumKeyPrefix[1];
    }
  }

  /**
   * What the store holds after the updates: the keys of the accounts at
   * their list positions, the contract address, and every other key as before.
   */
  ghost predicate Assembled(
    before: Store, bitcoin: seq<BitcoinAccount>, ethereum: seq<EthereumAccount>, contract: Contract, after: Store)
  {
    (forall i :: 0 <= i < |bitcoin| ==>
       BitcoinKeyName(i) in after && after[BitcoinKeyName(i)] == bitcoin[i].masterKey)
    && (forall i :: 0 <= i < |ethereum| ==>
       EthereumKeyName(i) in after && after[EthereumKeyName(i)] == ethereum[i].privateKey)
    && ContractKey in after && after[ContractKey] == ContractValue(contract)
    && after.Keys == before.Keys + WrittenKeys(|bitcoin|, |ethereum|)
    && (forall key :: key in before && key !in WrittenKeys(|bitcoin|, |ethereum|) ==> after[key] == before[key])
  }

  /** `update(prefix + i, values[i])` for every position `i` of `values`, in order. */
  method UpdateEnumerated(store: Store, prefix: string, values: seq<string>) returns (updated: Store)
    ensures forall i :: 0 <= i < |values| ==>
      IndexedKey(prefix, i) in updated && updated[IndexedKey(prefix, i)] == values[i]
    ensures updated.Keys == store.Keys + IndexedKeys(prefix, |values|)
    ensures forall key :: key in store && key !in IndexedKeys(prefix, |values|) ==> updated[key] == store[key]
  {
    updated := store;
    var k := 0;
    while k < |values|
      invariant 0 <= k <= |values|
      invariant forall i :: 0 <= i < k ==> IndexedKey(prefix, i) in updated && updated[IndexedKey(prefix, i)] == values[i]
      invariant updated.Keys == store.Keys + IndexedKeys(prefix, k)
      invariant forall key :: key in store && key !in IndexedKeys(prefix, k) ==> updated[key] == store[key]
    {
      var name := IndexedKey(prefix, k);
      forall i | 0 <= i < k
        ensures IndexedKey(prefix, i) != name
      {
        if IndexedKey(prefix, i) == name {
          PrefixedDecimalInjective(prefix, i, k);
        }
      }
      assert IndexedKeys(prefix, k + 1) == IndexedKeys(prefix, k) + {name};
      updated := updated[name := values[k]];
      k := k + 1;
    }
  }

  /** The Bitcoin loop, the Ethereum loop, and the contract address, in that order. */
  method Assemble(store: Store, bitcoin: seq<BitcoinAccount>, ethereum: seq<EthereumAccount>, contract: Contract)
    returns (updated: Store)
    ensures Assembled(store, bitcoin, ethereum, contract, updated)
  {
    var withBitcoin := UpdateEnumerated(store, BitcoinKeyPrefix, MasterKeys(bitcoin));
    var withEthereum := UpdateEnumerated(withBitcoin, EthereumKeyPrefix, SecretKeys(ethereum));
    updated := withEthereum[ContractKey := ContractValue(contract)];
    ghost var bitcoinKeys := IndexedKeys(BitcoinKeyPrefix, |bitcoin|);
    ghost var ethereumKeys := IndexedKeys(EthereumKeyPrefix, |ethereum|);
    FamiliesDisjoint(|bitcoin|, |ethereum|);
    forall i | 0 <= i < |bitcoin|
      ensures BitcoinKeyName(i) in updated && updated[BitcoinKeyName(i)] == bitcoin[i].masterKey
    {
      assert BitcoinKeyName(i) in bitcoinKeys;
    }
    forall key | key in store && key !in WrittenKeys(|bitcoin|, |ethereum|)
      ensures updated[key] == store[key]
    {
      assert key !in bitcoinKeys && key !in ethereumKeys && key != ContractKey;
    }
  }
}
