/**
 * The bootstrap of the development environment: prepare the accounts,
 * paths and stages, then await the stages one at a time (network,
 * Ethereum node, Bitcoin node, env-file write, cnds), reading the
 * termination flag after each.
 */
module Start {
  import opened Outcome
  import opened EnvError
  import opened Accounts
  import opened Collaborators
  import opened Stages
  import opened EnvFile
  import opened Sequencer

  /**
   * Everything the bootstrap learns from outside: random draws, the key
   * functions, and the outcome of every call into a collaborator. Outcomes
   * of repeated calls are indexed by call number (`bitcoinFunding(j)` for
   * the j-th account, the cnd outcomes by cnd index), and `terminate(k)` is
   * what the k-th checkpoint reads.
   */
  datatype World = World(
    crypto: Crypto,
    bitcoinSeed0: Seed,
    bitcoinSeed1: Seed,
    ethereumKey0: Key,
    ethereumKey1: Key,
    envFilePath: Result<Path, string>,
    tempFolder: Result<(Path, string), string>,
    createEnvFile: Result<string, string>,
    network: Result<string, string>,
    ethereumStart: Result<EthereumNode, string>,
    etherFunding: Result<(), string>,
    erc20Funding: Result<Contract, string>,
    bitcoinStart: Result<BitcoinNode, string>,
    bitcoinFunding: nat -> Result<(), string>,
    envFileRead: Result<Store, string>,
    envFileWrite: Result<(), string>,
    cndMkdir: nat -> Result<(), string>,
    cndWrite: nat -> Result<(), string>,
    cndStart: nat -> Result<CndNode, string>,
    terminate: nat -> bool)

  /** What is built before any stage is awaited. */
  datatype Prepared = Prepared(
    bitcoin: seq<BitcoinAccount>,
    ethereum: seq<EthereumAccount>,
    envFilePath: Path,
    configFolder: Path,
    configFolderText: string)

  /**
   * Two Bitcoin accounts, two Ethereum accounts, the env-file path and the
   * cnd config folder, in that order; the first failure is returned. The
   * stages themselves are only described here, not yet run.
   */
  function BuildFutures(w: World): (r: Result<Prepared, Error>)
    ensures r.Ok? <==>
      NewBitcoinAccount(w.bitcoinSeed0, w.crypto).Ok? && NewBitcoinAccount(w.bitcoinSeed1, w.crypto).Ok?
      && w.envFilePath.Ok? && w.tempFolder.Ok?
    // account i is the one generated from the i-th seed drawn
    ensures r.Ok? ==>
      r.value.bitcoin == [NewBitcoinAccount(w.bitcoinSeed0, w.crypto).value, NewBitcoinAccount(w.bitcoinSeed1, w.crypto).value]
    ensures r.Ok? ==> |r.value.bitcoin| == 2 && forall i :: 0 <= i < 2 ==> Derived(r.value.bitcoin[i], w.crypto)
    ensures r.Ok? ==> r.value.ethereum == [EthereumAccount(w.ethereumKey0), EthereumAccount(w.ethereumKey1)]
    ensures r.Ok? ==> r.value.envFilePath == w.envFilePath.value
    ensures r.Ok? ==> (r.value.configFolder, r.value.configFolderText) == w.tempFolder.value
    // the first step that fails gives the error
    ensures NewBitcoinAccount(w.bitcoinSeed0, w.crypto).Err? ==>
      r == Err(NewBitcoinAccount(w.bitcoinSeed0, w.crypto).error)
    ensures NewBitcoinAccount(w.bitcoinSeed0, w.crypto).Ok? && NewBitcoinAccount(w.bitcoinSeed1, w.crypto).Err? ==>
      r == Err(NewBitcoinAccount(w.bitcoinSeed1, w.crypto).error)
    ensures NewBitcoinAccount(w.bitcoinSeed0, w.crypto).Ok? && NewBitcoinAccount(w.bitcoinSeed1, w.crypto).Ok? ==>
      (w.envFilePath.Err? ==> r == Err(TempFs(w.envFilePath.error)))
      && (w.envFilePath.Ok? && w.tempFolder.Err? ==> r == Err(TempFs(w.tempFolder.error)))
  {
    var first :- NewBitcoinAccount(w.bitcoinSeed0, w.crypto);
    var second :- NewBitcoinAccount(w.bitcoinSeed1, w.crypto);
    var ethereum := [EthereumAccount(w.ethereumKey0), EthereumAccount(w.ethereumKey1)];
    match w.envFilePath
    case Err(e) => Err(TempFs(e))
    case Ok(envFilePath) =>
      match w.tempFolder
      case Err(e) => Err(TempFs(e))
      case Ok((folder, folderText)) => Ok(Prepared([first, second], ethereum, envFilePath, folder, folderText))
  }

  function EthereumStage(w: World, p: Prepared): EthereumRun {
    StartEthereumNode(p.envFilePath, p.ethereum, w.ethereumStart, w.etherFunding, w.erc20Funding)
  }

  function CndStage(w: World, p: Prepared, i: nat): CndRun {
    Launch(i, p.envFilePath, p.configFolder, p.configFolderText, w.cndMkdir, w.cndWrite, w.cndStart)
  }

  /** The calls stage `s` makes once it is awaited, in order. */
  function StageTrace(w: World, p: Prepared, s: Stage): seq<Effect> {
    match s
    case CreatingNetwork => [CreateNetwork]
    case StartingEthereum => EthereumStage(w, p).effects
    case StartingBitcoin => BitcoinTrace(p.envFilePath, p.bitcoin, w.crypto, w.bitcoinStart, w.bitcoinFunding)
    case WritingEnvFile =>
      // the file is read, and written back only if it was read
      [ReadEnvFile(p.envFilePath)] + (if w.envFileRead.Ok? then [WriteEnvFile(p.envFilePath)] else [])
    case StartingCnds =>
      // cnd 1 is launched only if cnd 0 started
      CndStage(w, p, 0).effects + (if CndStage(w, p, 0).result.Ok? then CndStage(w, p, 1).effects else [])
  }

  /** `calls[k]` is what stage `k` of `Order` calls, for each stage awaited. */
  predicate CallsOf(w: World, p: Prepared, calls: seq<seq<Effect>>) {
    |calls| <= |Order| && forall k :: 0 <= k < |calls| ==> calls[k] == StageTrace(w, p, Order[k])
  }

  /** Appending the calls of the next stage keeps `CallsOf`. */
  lemma CallsOfNext(w: World, p: Prepared, calls: seq<seq<Effect>>, next: seq<Effect>)
    requires CallsOf(w, p, calls) && |calls| < |Order|
    requires next == StageTrace(w, p, Order[|calls|])
    ensures CallsOf(w, p, calls + [next])
  {
  }

  /** Whether each stage, in `Order`, succeeds once it is awaited. */
  function Succeeds(w: World, p: Prepared): seq<bool> {
    [w.network.Ok?,
     EthereumStage(w, p).result.Ok?,
     w.bitcoinStart.Ok? && (forall j :: 0 <= j < |p.bitcoin| ==> w.bitcoinFunding(j).Ok?),
     w.envFileRead.Ok? && w.envFileWrite.Ok?,
     CndStage(w, p, 0).result.Ok? && CndStage(w, p, 1).result.Ok?]
  }

  /** What the checkpoint after each stage reads. */
  function Readings(w: World): seq<bool> {
    [w.terminate(0), w.terminate(1), w.terminate(2), w.terminate(3), w.terminate(4)]
  }

  /** The handles of the started resources. */
  datatype Services = Services(
    dockerNetworkId: string,
    bitcoinNode: BitcoinNode,
    ethereumNode: EthereumNode,
    cnds: seq<CndNode>)

  /**
   * The outcome of a run; `calls`, for each stage of `Order` it awaited,
   * in order, the calls into collaborators that stage made (so the stages
   * awaited are `Order[..|calls|]`); and the store passed to the env-file
   * write, if the write was reached.
   */
  datatype Report = Report(result: Result<Services, Error>, calls: seq<seq<Effect>>, envFileStore: Option<Store>)

  /**
   * How a run of the stages is reported: the stages of `Order` awaited are
   * those the reference run awaits and they make exactly their own calls;
   * the result is `Ok` exactly when every stage succeeded and every
   * checkpoint read clear, `SignalReceived` exactly when a checkpoint read
   * set first, and the stage error (dropped to `Unit`) exactly when a stage
   * failed first. The env file is written once its stage is reached and
   * read, with the store the updates assemble; the services are the handles
   * the stages returned.
   */
  ghost predicate Reported(w: World, p: Prepared, report: Report) {
    var v := Run(Succeeds(w, p), Readings(w));
      |report.calls| == Attempted(v, |Order|)
      && CallsOf(w, p, report.calls)
      && (report.result.Ok? <==> v.Completed?)
      && (report.result == Err(SignalReceived) <==> v.Signalled?)
      && (report.result == Err(Unit) <==> v.Failed?)
      && (report.envFileStore.Some? <==> Attempted(v, |Order|) > 3 && w.envFileRead.Ok?)
      && (report.envFileStore.Some? ==>
            EthereumStage(w, p).result.Ok?
            && Assembled(w.envFileRead.value, p.bitcoin, p.ethereum, EthereumStage(w, p).result.value.0,
                         report.envFileStore.value))
      && (report.result.Ok? ==>
            w.network.Ok? && w.bitcoinStart.Ok? && w.ethereumStart.Ok? && w.cndStart(0).Ok? && w.cndStart(1).Ok?
            && report.result.value
            == Services(w.network.value, w.bitcoinStart.value, w.ethereumStart.value,
                        [w.cndStart(0).value, w.cndStart(1).value]))
  }

  /** Prepare, then await the stages; a failure while preparing returns before any stage is awaited. */
  method Execute(w: World) returns (report: Report)
    ensures BuildFutures(w).Err? ==> report == Report(Err(BuildFutures(w).error), [], None)
    ensures BuildFutures(w).Ok? && w.createEnvFile.Err? ==>
      report == Report(Err(TempFs(w.createEnvFile.error)), [], None)
    ensures BuildFutures(w).Ok? && w.createEnvFile.Ok? ==> Reported(w, BuildFutures(w).value, report)
  {
    var prepared := BuildFutures(w);
    if prepared.Err? {
      return Report(Err(prepared.error), [], None);
    }
    if w.createEnvFile.Err? {
      return Report(Err(TempFs(w.createEnvFile.error)), [], None);
    }
    report := AwaitStages(w, prepared.value);
  }

  /**
   * The node stages, awaited one at a time, each followed by a checkpoint;
   * `calls` collects, stage by stage, the calls each awaited stage makes.
   */
  method AwaitStages(w: World, p: Prepared) returns (report: Report)
    ensures Reported(w, p, report)
  {
    RunOfFive(Succeeds(w, p), Readings(w));

    // the Docker network
    var calls := [[CreateNetwork]];
    if w.network.Err? {
      return Report(Err(Unit), calls, None);
    }
    var networkId := w.network.value;
    var signal := CheckSignal(w.terminate(0));
    if signal.Err? {
      return Report(Err(signal.error), calls, None);
    }

    // the Ethereum node, funded with ether and the token
    var ethereum := EthereumStage(w, p);
    CallsOfNext(w, p, calls, ethereum.effects);
    calls := calls + [ethereum.effects];
    if ethereum.result.Err? {
      return Report(Err(Unit), calls, None);
    }
    var (contract, ethereumNode) := ethereum.result.value;
    signal := CheckSignal(w.terminate(1));
    if signal.Err? {
      return Report(Err(signal.error), calls, None);
    }

    // the Bitcoin node, funded account by account
    var bitcoin, bitcoinEffects := StartBitcoinNode(p.envFilePath, p.bitcoin, w.crypto, w.bitcoinStart, w.bitcoinFunding);
    CallsOfNext(w, p, calls, bitcoinEffects);
    calls := calls + [bitcoinEffects];
    if bitcoin.Err? {
      return Report(Err(Unit), calls, None);
    }
    signal := CheckSignal(w.terminate(2));
    if signal.Err? {
      return Report(Err(signal.error), calls, None);
    }

    report := AwaitEnvFile(w, p, networkId, contract, ethereumNode, bitcoin.value, calls);
  }

  /**
   * The env-file stage, once the three node stages have succeeded and their
   * checkpoints read clear; `calls0` are their calls.
   */
  method AwaitEnvFile(
    w: World, p: Prepared, networkId: string, contract: Contract, ethereumNode: EthereumNode,
    bitcoinNode: BitcoinNode, calls0: seq<seq<Effect>>
  ) returns (report: Report)
    requires w.network == Ok(networkId) && !w.terminate(0)
    requires EthereumStage(w, p).result == Ok((contract, ethereumNode)) && !w.terminate(1)
    requires w.bitcoinStart == Ok(bitcoinNode) && (forall j :: 0 <= j < |p.bitcoin| ==> w.bitcoinFunding(j).Ok?)
    requires !w.terminate(2)
    requires |calls0| == 3 && CallsOf(w, p, calls0)
    ensures Reported(w, p, report)
  {
    RunOfFive(Succeeds(w, p), Readings(w));

    // the env file: read, update, write back
    if w.envFileRead.Err? {
      CallsOfNext(w, p, calls0, [ReadEnvFile(p.envFilePath)]);
      return Report(Err(Unit), calls0 + [[ReadEnvFile(p.envFilePath)]], None);
    }
    var envfile := Assemble(w.envFileRead.value, p.bitcoin, p.ethereum, contract);
    CallsOfNext(w, p, calls0, [ReadEnvFile(p.envFilePath), WriteEnvFile(p.envFilePath)]);
    var calls := calls0 + [[ReadEnvFile(p.envFilePath), WriteEnvFile(p.envFilePath)]];
    if w.envFileWrite.Err? {
      return Report(Err(Unit), calls, Some(envfile));
    }
    var signal := CheckSignal(w.terminate(3));
    if signal.Err? {
      return Report(Err(signal.error), calls, Some(envfile));
    }
    report := AwaitCnds(w, p, networkId, ethereumNode, bitcoinNode, envfile, calls);
  }

  /**
   * The cnd stage, once every earlier stage has succeeded and its
   * checkpoint read clear; `envfile` is the store written.
   */
  method AwaitCnds(
    w: World, p: Prepared, networkId: string, ethereumNode: EthereumNode,
    bitcoinNode: BitcoinNode, envfile: Store, calls0: seq<seq<Effect>>
  ) returns (report: Report)
    requires w.network == Ok(networkId) && !w.terminate(0)
    requires EthereumStage(w, p).result.Ok? && EthereumStage(w, p).result.value.1 == ethereumNode && !w.terminate(1)
    requires w.bitcoinStart == Ok(bitcoinNode) && (forall j :: 0 <= j < |p.bitcoin| ==> w.bitcoinFunding(j).Ok?)
    requires !w.terminate(2)
    requires w.envFileRead.Ok? && w.envFileWrite.Ok? && !w.terminate(3)
    requires Assembled(w.envFileRead.value, p.bitcoin, p.ethereum, EthereumStage(w, p).result.value.0, envfile)
    requires |calls0| == 4 && CallsOf(w, p, calls0)
    ensures Reported(w, p, report)
  {
    RunOfFive(Succeeds(w, p), Readings(w));

    // the two cnds
    var cnds, cndEffects := StartCnds(p.envFilePath, p.configFolder, p.configFolderText, w.cndMkdir, w.cndWrite, w.cndStart);
    CallsOfNext(w, p, calls0, cndEffects);
    var calls := calls0 + [cndEffects];
    if cnds.Err? {
      return Report(Err(Unit), calls, Some(envfile));
    }
    var signal := CheckSignal(w.terminate(4));
    if signal.Err? {
      return Report(Err(signal.error), calls, Some(envfile));
    }
    report := Report(Ok(Services(networkId, bitcoinNode, ethereumNode, cnds.value)), calls, Some(envfile));
  }

  // ------------------------------------------------------------ consequences

  /** `Ok` is returned only if all five stages succeeded and all five checkpoints read clear. */
  lemma OkOnlyIfAllClear(w: World, p: Prepared, report: Report)
    requires Reported(w, p, report) && report.result.Ok?
    ensures forall k :: 0 <= k < |Order| ==> Succeeds(w, p)[k] && !w.terminate(k)
    ensures |report.calls| == |Order|
    ensures forall j :: 0 <= j < |p.bitcoin| ==> w.bitcoinFunding(j).Ok?
  {
    RunEndsAtFirstStop(Succeeds(w, p), Readings(w));
    assert forall k :: 0 <= k < |Order| ==> Readings(w)[k] == w.terminate(k);
  }

  /** The checkpoint after the cnds is read too: a flag set during the last stage still cancels the run. */
  lemma SignalDuringCndsCancels(w: World, p: Prepared, report: Report)
    requires Reported(w, p, report)
    requires forall k :: 0 <= k < |Order| ==> Succeeds(w, p)[k]
    requires forall k :: 0 <= k < 4 ==> !w.terminate(k)
    requires w.terminate(4)
    ensures report.result == Err(SignalReceived) && |report.calls| == |Order|
    ensures report.envFileStore.Some?
  {
    RunOfFive(Succeeds(w, p), Readings(w));
  }

  /**
   * A failing Ethereum stage, reached with a clear flag, ends the run: the
   * calls made are the network's and the Ethereum stage's own, so the
   * Bitcoin node is never started, no cnd is launched and the env file is
   * never read or written.
   */
  lemma EthereumFailureEndsRun(w: World, p: Prepared, report: Report)
    requires Reported(w, p, report)
    requires w.network.Ok? && !w.terminate(0)
    requires EthereumStage(w, p).result.Err?
    ensures report.result == Err(Unit)
    ensures report.calls == [[CreateNetwork], EthereumStage(w, p).effects]
    ensures forall k, e | 0 <= k < |report.calls| && e in report.calls[k] ::
      e == CreateNetwork || e == StartNode(p.envFilePath, "ethereum") || e.FundEther? || e.FundErc20?
    ensures report.envFileStore == None
  {
    RunOfFive(Succeeds(w, p), Readings(w));
    var run := EthereumStage(w, p);
    assert run.effects == [StartNode(p.envFilePath, "ethereum")]
      || run.effects == EthereumPlan(p.envFilePath, w.ethereumStart.value, SecretKeys(p.ethereum))[..|run.effects|];
  }

  /** A flag set right after the network is created cancels the run before any node is started. */
  lemma SignalAfterNetworkCancels(w: World, p: Prepared, report: Report)
    requires Reported(w, p, report)
    requires w.network.Ok? && w.terminate(0)
    ensures report.result == Err(SignalReceived) && report.calls == [[CreateNetwork]]
    ensures report.envFileStore == None
  {
    RunOfFive(Succeeds(w, p), Readings(w));
  }

  /**
   * The Bitcoin node is started, by whichever stage, only after the
   * network and the Ethereum stage succeeded and both checkpoints after
   * them read clear.
   */
  lemma BitcoinStartedOnlyIfClear(w: World, p: Prepared, report: Report, k: nat)
    requires Reported(w, p, report)
    requires k < |report.calls| && StartNode(p.envFilePath, "bitcoin") in report.calls[k]
    ensures w.network.Ok? && !w.terminate(0) && EthereumStage(w, p).result.Ok? && !w.terminate(1)
  {
    AttemptedIffClear(Succeeds(w, p), Readings(w), 2);
  }
}
