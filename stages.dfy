/**
 * The three node stages of the bootstrap: the Ethereum node with its
 * ether and ERC20 funding, the Bitcoin node with its funding fold, and
 * the two cnds. Each outcome of a collaborator is an input; each call
 * made is recorded as an `Effect`, in order.
 */
module Stages {
  import opened Outcome
  import opened EnvError
  import opened Text
  import opened Accounts
  import opened Collaborators

  /** Satoshis sent to each Bitcoin account. */
  const FundingSats: nat := 1_000_000_000

  /** Base units (wei) of ether, and of the token, sent to each Ethereum account: 100 * 10^18. */
  const FundingWei: nat := 100_000_000_000_000_000_000

  // --------------------------------------------------------------- Ethereum

  /** Every call the Ethereum stage makes when nothing fails. */
  function EthereumPlan(envFile: Path, node: EthereumNode, keys: seq<Key>): seq<Effect> {
    [StartNode(envFile, "ethereum"),
     FundEther(node.httpEndpoint, keys, FundingWei),
     FundErc20(node.httpEndpoint, keys, FundingWei)]
  }

  datatype EthereumRun = EthereumRun(result: Result<(Contract, EthereumNode), Error>, effects: seq<Effect>)

  /**
   * Start the node, fund ether to every account, then fund the token to
   * every account; the token funding returns the contract's address.
   */
  function StartEthereumNode(
    envFile: Path, accounts: seq<EthereumAccount>,
    start: Result<EthereumNode, string>, ether: Result<(), string>, erc20: Result<Contract, string>
  ): (run: EthereumRun)
    ensures 1 <= |run.effects| <= 3 && run.effects[0] == StartNode(envFile, "ethereum")
    ensures start.Ok? ==> run.effects == EthereumPlan(envFile, start.value, SecretKeys(accounts))[..|run.effects|]
    // a step is taken only once the step before it has succeeded
    ensures |run.effects| >= 2 <==> start.Ok?
    ensures |run.effects| == 3 <==> start.Ok? && ether.Ok?
    ensures run.result.Ok? <==> start.Ok? && ether.Ok? && erc20.Ok?
    ensures run.result.Ok? ==> run.result.value == (erc20.value, start.value)
    ensures start.Err? ==> run.result == Err(Docker(start.error))
    ensures start.Ok? && ether.Err? ==> run.result == Err(EtherFunding(ether.error))
    ensures start.Ok? && ether.Ok? && erc20.Err? ==> run.result == Err(EtherFunding(erc20.error))
  {
    var launched := [StartNode(envFile, "ethereum")];
    match start
    case Err(e) => EthereumRun(Err(Docker(e)), launched)
    case Ok(node) =>
      var keys := SecretKeys(accounts);
      var etherFunded := launched + [FundEther(node.httpEndpoint, keys, FundingWei)];
      match ether
      case Err(e) => EthereumRun(Err(EtherFunding(e)), etherFunded)
      case Ok(_) =>
        var tokenFunded := etherFunded + [FundErc20(node.httpEndpoint, keys, FundingWei)];
        match erc20
        case Err(e) => EthereumRun(Err(EtherFunding(e)), tokenFunded)
        case Ok(contract) => EthereumRun(Ok((contract, node)), tokenFunded)
  }

  // ---------------------------------------------------------------- Bitcoin

  /** The funding call for one account: a fixed amount to the address derived from its key. */
  function FundCall(node: BitcoinNode, account: BitcoinAccount, c: Crypto): Effect {
    FundBitcoin(node.username, node.password, node.endpoint, c.deriveAddress(account.derivedKey), FundingSats)
  }

  /**
   * The funding calls from account `j` on: the call for account `j` is
   * made, and the rest only if it succeeded.
   */
  function FundingTrace(node: BitcoinNode, accounts: seq<BitcoinAccount>, c: Crypto, fund: nat -> Result<(), string>, j: nat)
    : seq<Effect>
    decreases |accounts| - j
  {
    if j >= |accounts| then []
    else [FundCall(node, accounts[j], c)] + (if fund(j).Ok? then FundingTrace(node, accounts, c, fund, j + 1) else [])
  }

  /**
   * The funding calls from account `j` on go to accounts `j`, `j + 1`, ...
   * in order, and each call but the last one made succeeded.
   */
  lemma {:induction false} FundingTraceCalls(
    node: BitcoinNode, accounts: seq<BitcoinAccount>, c: Crypto, fund: nat -> Result<(), string>, j: nat)
    requires j <= |accounts|
    ensures |FundingTrace(node, accounts, c, fund, j)| <= |accounts| - j
    ensures forall i :: j <= i < j + |FundingTrace(node, accounts, c, fund, j)| ==>
      FundingTrace(node, accounts, c, fund, j)[i - j] == FundCall(node, accounts[i], c)
    ensures forall i :: j <= i < j + |FundingTrace(node, accounts, c, fund, j)| - 1 ==> fund(i).Ok?
    ensures |FundingTrace(node, accounts, c, fund, j)| < |accounts| - j ==>
      fund(j + |FundingTrace(node, accounts, c, fund, j)| - 1).Err?
    decreases |accounts| - j
  {
    if j < |accounts| && fund(j).Ok? {
      FundingTraceCalls(node, accounts, c, fund, j + 1);
      var rest := FundingTrace(node, accounts, c, fund, j + 1);
      var t := FundingTrace(node, accounts, c, fund, j);
      assert t == [FundCall(node, accounts[j], c)] + rest;
      forall i | j < i < j + |t|
        ensures t[i - j] == FundCall(node, accounts[i], c)
      {
        assert t[i - j] == rest[i - (j + 1)];
      }
    }
  }

  /** Every call the Bitcoin stage makes: start the node, then, if it started, the funding calls. */
  function BitcoinTrace(
    envFile: Path, accounts: seq<BitcoinAccount>, c: Crypto,
    start: Result<BitcoinNode, string>, fund: nat -> Result<(), string>
  ): seq<Effect> {
    [StartNode(envFile, "bitcoin")] + (if start.Ok? then FundingTrace(start.value, accounts, c, fund, 0) else [])
  }

  /**
   * The Bitcoin stage's calls, one by one: the node is started first; then
   * account j is funded, with the node's credentials and endpoint, only
   * after every earlier funding call succeeded; for accounts made by
   * `NewBitcoinAccount`, each funded address is the account's own.
   */
  lemma BitcoinTraceCalls(
    envFile: Path, accounts: seq<BitcoinAccount>, c: Crypto,
    start: Result<BitcoinNode, string>, fund: nat -> Result<(), string>
  )
    ensures var t := BitcoinTrace(envFile, accounts, c, start, fund);
      1 <= |t| <= 1 + |accounts| && t[0] == StartNode(envFile, "bitcoin")
      && (start.Err? ==> |t| == 1)
      && (start.Ok? ==> forall j :: 0 <= j < |t| - 1 ==>
            t[j + 1] == FundCall(start.value, accounts[j], c) && (j < |t| - 2 ==> fund(j).Ok?))
      && (start.Ok? && |t| < 1 + |accounts| ==> |t| >= 2 && fund(|t| - 2).Err?)
      && (forall j :: 0 <= j < |t| - 1 && Derived(accounts[j], c) ==>
            t[j + 1].FundBitcoin? && t[j + 1].address == accounts[j].derivedAddress)
  {
    if start.Ok? {
      FundingTraceCalls(start.value, accounts, c, fund, 0);
      var t := BitcoinTrace(envFile, accounts, c, start, fund);
      var f := FundingTrace(start.value, accounts, c, fund, 0);
      forall j | 0 <= j < |f|
        ensures t[j + 1] == f[j]
      {
      }
    }
  }

  /** The funding calls for the first `k` accounts, in order. */
  function FundCalls(node: BitcoinNode, accounts: seq<BitcoinAccount>, c: Crypto, k: nat): seq<Effect>
    requires k <= |accounts|
  {
    if k == 0 then [] else FundCalls(node, accounts, c, k - 1) + [FundCall(node, accounts[k - 1], c)]
  }

  /** Once the first `k` funding calls have succeeded, the trace is their calls followed by the rest. */
  lemma {:induction false} FundingTraceSplit(
    node: BitcoinNode, accounts: seq<BitcoinAccount>, c: Crypto, fund: nat -> Result<(), string>, k: nat)
    requires k <= |accounts| && forall j :: 0 <= j < k ==> fund(j).Ok?
    ensures FundingTrace(node, accounts, c, fund, 0) == FundCalls(node, accounts, c, k) + FundingTrace(node, accounts, c, fund, k)
  {
    if k > 0 {
      FundingTraceSplit(node, accounts, c, fund, k - 1);
      var call := FundCall(node, accounts[k - 1], c);
      var done, rest := FundCalls(node, accounts, c, k - 1), FundingTrace(node, accounts, c, fund, k);
      assert FundingTrace(node, accounts, c, fund, k - 1) == [call] + rest;
      assert FundCalls(node, accounts, c, k) == done + [call];
      assert done + ([call] + rest) == (done + [call]) + rest;
    }
  }

  /**
   * Start the node, then fold over the accounts in order, funding each;
   * the node is the fold's accumulator and is passed on unchanged. The
   * j-th funding call has outcome `fund(j)`; the first failure ends the fold.
   */
  method StartBitcoinNode(
    envFile: Path, accounts: seq<BitcoinAccount>, c: Crypto,
    start: Result<BitcoinNode, string>, fund: nat -> Result<(), string>
  ) returns (r: Result<BitcoinNode, Error>, effects: seq<Effect>)
    ensures effects == BitcoinTrace(envFile, accounts, c, start, fund)
    ensures start.Err? ==> r == Err(Docker(start.error))
    ensures start.Ok? ==> (r.Ok? <==> forall j :: 0 <= j < |accounts| ==> fund(j).Ok?)
    ensures r.Ok? ==> start.Ok? && r.value == start.value && |effects| == 1 + |accounts|
    ensures start.Ok? && r.Err? ==>
      |effects| >= 2 && fund(|effects| - 2).Err? && r.error == BitcoinFunding(fund(|effects| - 2).error)
  {
    effects := [StartNode(envFile, "bitcoin")];
    if start.Err? {
      return Err(Docker(start.error)), effects;
    }
    var node := start.value;
    var k := 0;
    while k < |accounts|
      invariant 0 <= k <= |accounts|
      invariant node == start.value
      invariant |effects| == 1 + k
      invariant forall j :: 0 <= j < k ==> fund(j).Ok?
      invariant effects == [StartNode(envFile, "bitcoin")] + FundCalls(node, accounts, c, k)
    {
      effects := effects + [FundCall(node, accounts[k], c)];
      var outcome := fund(k);
      if outcome.Err? {
        FundingTraceSplit(node, accounts, c, fund, k);
        assert FundingTrace(node, accounts, c, fund, k) == [FundCall(node, accounts[k], c)];
        return Err(BitcoinFunding(outcome.error)), effects;
      }
      k := k + 1;
    }
    FundingTraceSplit(node, accounts, c, fund, k);
    r := Ok(node);
  }

  // ------------------------------------------------------------------- cnds

  /** The cnd settings: both chains on regtest, each reached at its container's URL. */
  const CndSettings: Settings :=
    Settings(ChainSettings("regtest", "http://bitcoin:18443"), ChainSettings("regtest", "http://ethereum:8545"))

  function CndName(i: nat): string {
    "cnd_" + Decimal(i)
  }

  /** Distinct indices give distinct container names. */
  lemma CndNamesDistinct(i: nat, j: nat)
    requires i != j
    ensures CndName(i) != CndName(j)
  {
    if CndName(i) == CndName(j) {
      PrefixedDecimalInjective("cnd_", i, j);
    }
  }

  /** The config folder mounted at `/config` in the container. */
  function Volume(folder: string): string {
    folder + ":/config"
  }

  /** Every call made for cnd `i` when nothing fails. */
  function CndPlan(i: nat, envFile: Path, folder: Path, folderText: string): seq<Effect> {
    [CreateDirAll(folder),
     WriteFile(Join(folder, "cnd.toml"), CndSettings),
     StartWithVolume(envFile, CndName(i), Volume(folderText))]
  }

  datatype CndRun = CndRun(result: Result<CndNode, Error>, effects: seq<Effect>)

  /** For cnd `i`: create the config folder, write `cnd.toml` into it, start the container. */
  function LaunchCnd(
    i: nat, envFile: Path, folder: Path, folderText: string,
    mkdir: Result<(), string>, write: Result<(), string>, start: Result<CndNode, string>
  ): (run: CndRun)
    ensures 1 <= |run.effects| <= 3
    ensures run.effects == CndPlan(i, envFile, folder, folderText)[..|run.effects|]
    // a step is taken only once the step before it has succeeded
    ensures |run.effects| >= 2 <==> mkdir.Ok?
    ensures |run.effects| == 3 <==> mkdir.Ok? && write.Ok?
    ensures run.result.Ok? <==> mkdir.Ok? && write.Ok? && start.Ok?
    ensures run.result.Ok? ==> run.result.value == start.value
    ensures mkdir.Err? ==> run.result == Err(CreateTmpFiles(mkdir.error))
    ensures mkdir.Ok? && write.Err? ==> run.result == Err(WriteConfig(write.error))
    ensures mkdir.Ok? && write.Ok? && start.Err? ==> run.result == Err(Docker(start.error))
  {
    var plan := CndPlan(i, envFile, folder, folderText);
    match mkdir
    case Err(e) => CndRun(Err(CreateTmpFiles(e)), plan[..1])
    case Ok(_) =>
      match write
      case Err(e) => CndRun(Err(WriteConfig(e)), plan[..2])
      case Ok(_) =>
        match start
        case Err(e) => CndRun(Err(Docker(e)), plan)
        case Ok(node) => CndRun(Ok(node), plan)
  }

  /** Cnd `i` launched with the outcomes the collaborators give for it. */
  function Launch(
    i: nat, envFile: Path, folder: Path, folderText: string,
    mkdir: nat -> Result<(), string>, write: nat -> Result<(), string>, start: nat -> Result<CndNode, string>
  ): CndRun {
    LaunchCnd(i, envFile, folder, folderText, mkdir(i), write(i), start(i))
  }

  /** Launch cnd 0 and then cnd 1, collecting the nodes in index order; the first failure stops the loop. */
  method StartCnds(
    envFile: Path, folder: Path, folderText: string,
    mkdir: nat -> Result<(), string>, write: nat -> Result<(), string>, start: nat -> Result<CndNode, string>
  ) returns (r: Result<seq<CndNode>, Error>, effects: seq<Effect>)
    ensures
      var first := Launch(0, envFile, folder, folderText, mkdir, write, start);
      var second := Launch(1, envFile, folder, folderText, mkdir, write, start);
      (r.Ok? <==> first.result.Ok? && second.result.Ok?)
      && (r.Ok? ==> r.value == [first.result.value, second.result.value])
      && (first.result.Err? ==> r == Err(first.result.error) && effects == first.effects)
      && (first.result.Ok? ==> effects == first.effects + second.effects)
      && (first.result.Ok? && second.result.Err? ==> r == Err(second.result.error))
  {
    ghost var first := Launch(0, envFile, folder, folderText, mkdir, write, start);
    ghost var second := Launch(1, envFile, folder, folderText, mkdir, write, start);
    var indices: seq<nat> := [0, 1];
    var nodes: seq<CndNode> := [];
    effects := [];
    var k := 0;
    while k < |indices|
      invariant 0 <= k <= |indices| && indices == [0, 1]
      invariant k == 0 ==> effects == [] && nodes == []
      invariant k >= 1 ==> first.result.Ok?
      invariant k == 1 ==> effects == first.effects && nodes == [first.result.value]
      invariant k == 2 ==> second.result.Ok? && effects == first.effects + second.effects
      invariant k == 2 ==> nodes == [first.result.value, second.result.value]
    {
      var run := Launch(indices[k], envFile, folder, folderText, mkdir, write, start);
      effects := effects + run.effects;
      if run.result.Err? {
        return Err(run.result.error), effects;
      }
      nodes := nodes + [run.result.value];
      k := k + 1;
    }
    r := Ok(nodes);
  }
}
