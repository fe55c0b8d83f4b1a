/**
 * What the bootstrap hands to and gets back from its collaborators:
 * file paths, the handles of started containers, the cnd settings
 * record, and the calls it makes, recorded as values.
 */
module Collaborators {
  import opened Text
  import opened Accounts

  /** A file-system path as its list of components. */
  datatype Path = Path(components: seq<string>)

  /** `dir.join(name)` for a relative one-component name. */
  function Join(dir: Path, name: string): Path {
    Path(dir.components + [name])
  }

  /** The part of a started Bitcoin node the funding calls use. */
  datatype BitcoinNode = BitcoinNode(username: string, password: string, endpoint: string)

  /** The part of a started Ethereum node the funding calls use: its HTTP client's endpoint. */
  datatype EthereumNode = EthereumNode(httpEndpoint: string)

  /** A started cnd container. */
  datatype CndNode = CndNode(container: string)

  /** A 20-byte Ethereum address. */
  type Contract = s: seq<Byte> | |s| == 20 witness seq(20, i => 0 as Byte)

  datatype ChainSettings = ChainSettings(network: string, nodeUrl: string)

  /** The cnd settings the bootstrap fills in; every other field keeps its default. */
  datatype Settings = Settings(bitcoin: ChainSettings, ethereum: ChainSettings)

  /** One call into a collaborator, with the arguments it received. */
  datatype Effect =
    | CreateNetwork
    | StartNode(envFile: Path, name: string)
    | FundBitcoin(username: string, password: string, endpoint: string, address: Address, sats: nat)
    | FundEther(endpoint: string, keys: seq<Key>, wei: nat)
    | FundErc20(endpoint: string, keys: seq<Key>, wei: nat)
    | CreateDirAll(dir: Path)
    | WriteFile(file: Path, settings: Settings)
    | StartWithVolume(envFile: Path, name: string, volume: string)
    | ReadEnvFile(file: Path)
    | WriteEnvFile(file: Path)
}
