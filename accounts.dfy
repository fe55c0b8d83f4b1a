/**
 * Test accounts. Key material is opaque: a key is the text its `Display`
 * prints, which is also what reaches the env file. Random draws and the
 * BIP-32 / secp256k1 computations are supplied by the caller.
 */
module Accounts {
  import opened Outcome
  import opened EnvError
  import opened Text

  type Key = string
  type Address = string

  /** 32 bytes drawn from the random number generator. */
  type Seed = s: seq<Byte> | |s| == 32 witness seq(32, i => 0 as Byte)

  datatype BitcoinNetwork = Bitcoin | Testnet | Regtest

  datatype ChildNumber = Normal(index: nat) | Hardened(index: nat)

  /** Child indices with this bit set cannot be given to the two constructors below. */
  const HardenedBit: nat := 0x8000_0000

  function FromHardenedIdx(index: nat): (r: Result<ChildNumber, Error>)
    ensures r.Ok? <==> index < HardenedBit
    ensures r.Ok? ==> r.value.Hardened? && r.value.index == index
  {
    if index < HardenedBit then Ok(Hardened(index)) else Err(Bip32("invalid child number"))
  }

  function FromNormalIdx(index: nat): (r: Result<ChildNumber, Error>)
    ensures r.Ok? <==> index < HardenedBit
    ensures r.Ok? ==> r.value.Normal? && r.value.index == index
  {
    if index < HardenedBit then Ok(Normal(index)) else Err(Bip32("invalid child number"))
  }

  /** m/44'/1'/0'/0/0: purpose 44, coin type 1 (test networks), account 0, change 0, index 0. */
  const FixedPath: seq<ChildNumber> := [Hardened(44), Hardened(1), Hardened(0), Normal(0), Normal(0)]

  /** One step of a path as written: hardened or not, and the index. */
  datatype Step = Step(hardened: bool, index: nat)

  /** Converts each step with the fallible constructors, stopping at the first index they reject. */
  function BuildPath(steps: seq<Step>): (r: Result<seq<ChildNumber>, Error>)
    ensures r.Ok? <==> forall k :: 0 <= k < |steps| ==> steps[k].index < HardenedBit
    ensures r.Ok? ==> |r.value| == |steps|
    ensures r.Ok? ==> forall k :: 0 <= k < |steps| ==>
      r.value[k].index == steps[k].index && r.value[k].Hardened? == steps[k].hardened
  {
    if steps == [] then Ok([])
    else
      var first := if steps[0].hardened then FromHardenedIdx(steps[0].index) else FromNormalIdx(steps[0].index);
      match first
      case Err(e) => Err(e)
      case Ok(child) =>
        match BuildPath(steps[1..])
        case Err(e) => Err(e)
        case Ok(rest) => Ok([child] + rest)
  }

  /** The path of the source, built step by step; none of its indices is rejected. */
  function DerivationPath(): (r: Result<seq<ChildNumber>, Error>)
    ensures r == Ok(FixedPath)
  {
    var steps := [Step(true, 44), Step(true, 1), Step(true, 0), Step(false, 0), Step(false, 0)];
    var r := BuildPath(steps);
    assert r.Ok? && r.value == FixedPath by {
      assert forall k :: 0 <= k < |steps| ==> steps[k].index < HardenedBit;
      assert forall k :: 0 <= k < 5 ==> r.value[k] == FixedPath[k];
    }
    r
  }

  /**
   * The deterministic key functions the bootstrap calls. Being functions,
   * the same master key and path always derive the same key and address.
   */
  datatype Crypto = Crypto(
    newMaster: (BitcoinNetwork, Seed) -> Result<Key, string>,
    derivePriv: (Key, seq<ChildNumber>) -> Result<Key, string>,
    deriveAddress: Key -> Address)

  datatype BitcoinAccount = BitcoinAccount(masterKey: Key, derivedKey: Key, derivedAddress: Address)

  datatype EthereumAccount = EthereumAccount(privateKey: Key)

  /** The master keys of the accounts, in account order. */
  function MasterKeys(accounts: seq<BitcoinAccount>): (keys: seq<Key>)
    ensures |keys| == |accounts|
    ensures forall i :: 0 <= i < |accounts| ==> keys[i] == accounts[i].masterKey
  {
    if accounts == [] then [] else [accounts[0].masterKey] + MasterKeys(accounts[1..])
  }

  /** The private keys of the accounts, in account order. */
  function SecretKeys(accounts: seq<EthereumAccount>): (keys: seq<Key>)
    ensures |keys| == |accounts|
    ensures forall i :: 0 <= i < |accounts| ==> keys[i] == accounts[i].privateKey
  {
    if accounts == [] then [] else [accounts[0].privateKey] + SecretKeys(accounts[1..])
  }

  /** The account's key and address are the ones re-derived from its master key along the fixed path. */
  predicate Derived(account: BitcoinAccount, c: Crypto) {
    c.derivePriv(account.masterKey, FixedPath) == Ok(account.derivedKey)
    && account.derivedAddress == c.deriveAddress(account.derivedKey)
  }

  /** A master key for regtest from the seed, the key at the fixed path, and its address. */
  function NewBitcoinAccount(seed: Seed, c: Crypto): (r: Result<BitcoinAccount, Error>)
    ensures r.Ok? <==>
      c.newMaster(Regtest, seed).Ok? && c.derivePriv(c.newMaster(Regtest, seed).value, FixedPath).Ok?
    ensures r.Ok? ==> r.value.masterKey == c.newMaster(Regtest, seed).value && Derived(r.value, c)
    ensures r.Err? ==> r.error.Bip32?
  {
    match c.newMaster(Regtest, seed)
    case Err(e) => Err(Bip32(e))
    case Ok(master) =>
      match DerivationPath()
      case Err(e) => Err(e)
      case Ok(path) =>
      match c.derivePriv(master, path)
      case Err(e) => Err(Bip32(e))
      case Ok(key) => Ok(BitcoinAccount(master, key, c.deriveAddress(key)))
  }
}
