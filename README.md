# Bootstrap of the create-comit-app development environment, in Dafny

This project models `src/env/start.rs`. That file brings up a local test
environment: a Docker network, an Ethereum dev node, a Bitcoin regtest node,
an env file holding the keys of fresh test accounts, and two cnd (COMIT
network daemon) containers.

The model is a sequential state machine. Every call into a collaborator
(Docker, the Bitcoin and Ethereum RPC clients, the file system, the random
number generator, BIP-32 and secp256k1) becomes an input value in a `World`:
the outcome that call returns. Calls that happen more than once are indexed
by call number. The termination flag is the sequence of readings
`terminate(k)`, one per checkpoint. Every call the stages make is recorded
as an `Effect` value with its arguments. A run's report lists, for each
stage it awaited, the calls that stage made. So the order of calls and
their arguments can be stated, both inside a stage and across the whole run.

Modules, one per part of the source:

- `Outcome`, `EnvError`: `Result`/`Option` and the environment's error variants.
- `Text`: the two `format!` shapes the bootstrap writes, decimal indices and
  lower-case hexadecimal. Each comes with the property that makes the
  output unambiguous: injectivity for decimals, a parse-back round trip for hex.
- `Accounts`: Bitcoin and Ethereum account records, the fixed derivation
  path m/44'/1'/0'/0/0, and `new_bitcoin_account`.
- `Collaborators`: paths, node handles, the cnd settings record, and the `Effect` values.
- `Stages`: `start_ethereum_node`, `start_bitcoin_node` (the funding fold,
  as a loop) and `start_cnds` (the loop over indices 0 and 1).
- `EnvFile`: the env file as a `map<string, string>`, and the two update
  loops plus the contract-address update.
- `Sequencer`: the stage order, `check_signal`, and a reference run `Run`
  over per-stage success and per-checkpoint readings, with its lemmas.
- `Start`: `build_futures` and `execute`. `execute` is split into
  `Execute` (preparation), then `AwaitStages` (the network and the two
  nodes), `AwaitEnvFile` and `AwaitCnds`. Each is proved against the
  `Reported` predicate, which ties the outcome and the calls made to `Run`
  and to `StageTrace`, the calls each stage makes.

The model follows the code on these points:

- The stages run in this order: network, Ethereum node (with ether and ERC20
  funding), Bitcoin node (with funding), env-file write, then the two cnds.
  The env file is written before the cnds start.
- Every stage error is printed and mapped to `()`. `?` then turns it into
  the crate's error through its conversion from `()`. So `execute` returns the
  same value for every stage failure. The model calls this value `Unit`.
  Which stage failed is shown by how many stages were awaited. Errors from
  preparation (account generation, temp paths, env-file creation) come back
  unchanged.
- `temp_folder()` is called once, so both cnds write `cnd.toml` into the same
  folder and mount the same volume `{folder}:/config`. Their
  configuration is not isolated per instance. Only the container names
  `cnd_0` and `cnd_1` differ.
- Nothing runs concurrently: each stage is awaited with `block_on` before the
  next one starts. The flag is read only after a stage succeeds. The last
  reading comes after the cnds, so a flag set during that stage still ends in
  `SignalReceived`.

## Model

| member | source | states |
|---|---|---|
| `Sequencer.CheckSignal` | src/env/start.rs:331-337 | `Err(SignalReceived)` exactly when the flag reads set, `Ok(())` exactly when it reads clear |
| `Sequencer.Run` | src/env/start.rs:101-169 | a run that does not complete ends on one of the stages it was given |
| `Sequencer.RunEndsAtFirstStop` | src/env/start.rs:101-169 | a run completes iff every stage succeeds and every checkpoint reads clear; otherwise it ends failed at the first failing stage, or signalled at the first set reading, with every earlier stage successful and every earlier reading clear |
| `Sequencer.AttemptedIffClear` | src/env/start.rs:101-169 | stage k is awaited iff every earlier stage succeeded and every earlier checkpoint read clear |
| `Sequencer.RunOfFive` | src/env/start.rs:101-169 | over the five stages, the run is the chain of early returns: stage, checkpoint, stage, checkpoint, and so on |
| `Start.BuildFutures` | src/env/start.rs:44-86 | generates exactly two Bitcoin accounts, the i-th from the i-th seed drawn, each re-derivable from its master key along the fixed path, and two Ethereum accounts from the drawn keys; returns the env-file path and config folder; succeeds iff both account generations, the path and the folder succeed; otherwise the error is that of the first step that failed: first account, second account, env-file path, temp folder |
| `Start.Execute` | src/env/start.rs:88-178 | a failure while preparing or creating the env file is returned unchanged, with no stage awaited and no call made; otherwise the run is `Reported` |
| `Start.AwaitStages` | src/env/start.rs:101-126 | the stages awaited are the prefix of network, Ethereum, Bitcoin, env file, cnds that `Run` awaits, and stage k makes exactly the calls `StageTrace` gives for it; the result is `Ok` iff the run completes, `SignalReceived` iff it is signalled, the stage error iff a stage fails; the env-file write is called iff its stage is reached and the file was read, and it is given the assembled store; `Ok` carries the network id and the node and cnd handles the stages returned |
| `Start.AwaitEnvFile` | src/env/start.rs:128-159 | once the three node stages succeeded with clear checkpoints: the env file is read, then, if it was read, assembled and written back, then the checkpoint; the run is `Reported` |
| `Start.AwaitCnds` | src/env/start.rs:161-177 | once every earlier stage succeeded with clear checkpoints: the cnds are launched, then the last checkpoint; the run is `Reported`, `Ok` carrying all handles |
| `Start.OkOnlyIfAllClear` | src/env/start.rs:169-177 | `Ok(Services)` only if all five stages succeeded and all five checkpoints read clear, with every Bitcoin funding call successful |
| `Start.SignalDuringCndsCancels` | src/env/start.rs:161-169 | when every stage succeeds and only the last checkpoint, after the cnds, reads set, the result is `SignalReceived` after awaiting all five stages |
| `Start.EthereumFailureEndsRun` | src/env/start.rs:108-116 | a failing Ethereum stage ends the run with the stage error; the only calls made are the network's and the Ethereum stage's own, so the Bitcoin node is not started, no cnd is launched and the env file is neither read nor written |
| `Start.SignalAfterNetworkCancels` | src/env/start.rs:101-106 | a flag set after the network is created gives `SignalReceived`, and the network creation is the only call made |
| `Start.BitcoinStartedOnlyIfClear` | src/env/start.rs:101-126 | whichever stage's calls include starting the Bitcoin node, the network and the Ethereum stage succeeded and both checkpoints after them read clear |
| `Stages.StartEthereumNode` | src/env/start.rs:201-236 | calls, in order and each only after the previous step succeeded: start the node, fund ether, then fund ERC20, both to the accounts' keys in order with 100 * 10^18 each; returns the ERC20 step's contract address and the started node; a start failure is `Docker`, a failure of either funding step is `EtherFunding` |
| `Stages.FundingTraceCalls` | src/env/start.rs:187-197 | the funding calls from account j on go to accounts j, j+1, ... in order; every call but the last made succeeded, and when fewer than all are made the last one failed |
| `Stages.FundingTraceSplit` | src/env/start.rs:187-197 | once the first k funding calls succeeded, the calls are those k followed by the rest of the fold |
| `Stages.BitcoinTraceCalls` | src/env/start.rs:180-199 | the Bitcoin stage calls: start the node first; then, only if it started, fund account j with the node's credentials and endpoint, to the address derived from its key, only after every earlier call succeeded; for accounts made by `new_bitcoin_account`, the account's own derived address |
| `Stages.StartBitcoinNode` | src/env/start.rs:180-199 | the calls made are exactly the Bitcoin stage's trace (start, then the funding fold, each call 1 000 000 000 sat); succeeds iff every funding call does, returning the started node unchanged; the first failure is `BitcoinFunding` with its cause; a start failure is `Docker` |
| `Stages.LaunchCnd` | src/env/start.rs:247-287 | for cnd i: create the config folder, write `cnd.toml` with network `regtest` and node URLs `http://bitcoin:18443` and `http://ethereum:8545`, then start container `cnd_i` with volume `{folder}:/config`, each step only after the previous one succeeded; errors `CreateTmpFiles`, `WriteConfig`, `Docker` |
| `Stages.StartCnds` | src/env/start.rs:238-290 | launches cnd 0 and then cnd 1; succeeds iff both do, with the two nodes in index order; cnd 1 is launched only after cnd 0 succeeded; the first failure is returned |
| `Stages.CndNamesDistinct` | src/env/start.rs:281 | different indices give different container names |
| `EnvFile.UpdateEnumerated` | src/env/start.rs:133-145 | after updating `prefix + i` to `values[i]` for each position i: every such key holds its value, the keys are the old keys plus these, and every other key is unchanged |
| `EnvFile.FamiliesDisjoint` | src/env/start.rs:133-150 | `BITCOIN_HD_KEY_i`, `ETHEREUM_KEY_j` and `ERC20_CONTRACT_ADDRESS` never coincide |
| `EnvFile.Assemble` | src/env/start.rs:133-150 | the store holds `BITCOIN_HD_KEY_i` = master key i, `ETHEREUM_KEY_i` = private key i and `ERC20_CONTRACT_ADDRESS` = `0x` plus the address's lower-case hex; its keys are the old keys plus these, and every other key is unchanged |
| `EnvFile.ContractValue` | src/env/start.rs:149 | `0x` followed by 40 lower-case hex digits that parse back to the contract address |
| `EnvFile.KeyNames` | src/env/start.rs:133-145 | the keys for two accounts of each chain are `BITCOIN_HD_KEY_0`, `BITCOIN_HD_KEY_1`, `ETHEREUM_KEY_0` and `ETHEREUM_KEY_1` |
| `Text.Decimal` | src/env/start.rs:135 | the decimal text of an index is non-empty, all digits, one digit exactly for indices below ten |
| `Text.DecimalInjective` | src/env/start.rs:133-145 | different indices print differently, so the indexed env keys are distinct |
| `Text.PrefixedDecimalInjective` | src/env/start.rs:142 | a fixed prefix followed by an index determines the index |
| `Text.LowerHex` | src/env/start.rs:149 | `{:x}` of a byte array has two lower-case hex digits per byte |
| `Text.ParseLowerHex` | src/env/start.rs:149 | the hex text of an address parses back to the address |
| `Accounts.NewBitcoinAccount` | src/env/start.rs:292-323 | succeeds iff the regtest master key can be made from the seed and the fixed path derived from it; the account's derived key and address are re-derived from its master key along that path; errors are BIP-32 errors |
| `Accounts.FromHardenedIdx` | src/env/start.rs:303-305 | accepts exactly the indices below 2^31, as hardened child numbers |
| `Accounts.FromNormalIdx` | src/env/start.rs:306-307 | accepts exactly the indices below 2^31, as normal child numbers |
| `Accounts.BuildPath` | src/env/start.rs:302-308 | a path builds iff every index is below 2^31, step by step with the same indices and hardening |
| `Accounts.DerivationPath` | src/env/start.rs:302-308 | the path in the source always builds, to 44', 1', 0', 0, 0 |
| `Accounts.MasterKeys` | src/env/start.rs:133-137 | the master keys of the Bitcoin accounts, in account order |
| `Accounts.SecretKeys` | src/env/start.rs:208-212 | the private keys of the Ethereum accounts, in account order |

## Left out

- Docker (`create_network`, `Node::start`, `start_with_volume`): only their outcomes and arguments are modelled. Readiness polling and retries live in `crate::docker`, which is not part of this model.
- The Bitcoin and Ethereum RPC clients (`bitcoin::fund`, `fund_ether`, `fund_erc20`): only their outcomes are modelled. Because of this, the model cannot state that a funding call sees the wallet state the previous one left. It states only that the calls are made in order, one after another.
- Random number generation, secp256k1, BIP-32 and address derivation: the seeds and Ethereum keys are inputs, the key functions are parameters, and keys and addresses are opaque text. `new_ethereum_account` is the `EthereumAccount` constructor applied to a drawn key. That the four accounts are distinct rests on the random source and is not modelled.
- The `envfile` crate, `tokio::fs` and `temp_fs`: reads, writes, directory creation and temp paths are outcomes. The env file is modelled as a map; line order and atomic writing are not.
- `toml::to_string(..).expect(..)`: serializing the hard-coded settings is taken to succeed, so the panic path is not modelled. The settings are modelled as a record with the four fields set here. The fields left at `Default::default()` are not modelled, because `cnd_settings` is not part of this model.
- The atomic flag's memory ordering and the Tokio runtime: the flag is modelled only by its readings at the five checkpoints.
- Futures are taken to start no work until awaited. The future constructors in `crate::docker` are not part of this model.
- All `print_progress!`, `println!` and `eprintln!` output. The stage-specific error that `eprintln!` prints before dropping it is not part of the result.
- Amounts are unbounded integers. 100 * 10^18 fits in `u128` and `U256`, and 1 000 000 000 sat fits in an `Amount`, so no overflow is possible.
- The crate's error type and its conversions come from `env/mod.rs`, which is not part of this model. The variant names are this model's own.
- `EnvError.Unit`: the model assumes that the crate's conversion from `()` gives a value other than `SignalReceived`. That conversion is in `env/mod.rs`, which is not part of this model. The proofs that the result is `SignalReceived` exactly when a checkpoint reads set rest on this assumption.
- The calls made while preparing (random draws, `temp_fs::env_file_path`, `temp_fs::temp_folder`, `temp_fs::create_env_file`) are inputs and are not listed among a run's calls. The report lists only the calls of the awaited stages.
- The other files: `create/npm/download.ts` (HTTP download and archive extraction), `scripts/src/main.rs` (command-line entry point) and `src/print_progress.rs` (console output).
