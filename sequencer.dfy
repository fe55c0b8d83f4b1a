/**
 * The order of the bootstrap's stages and the rule that ends a run: each
 * stage is awaited in turn, the termination flag is read after each stage
 * that succeeds, and the run stops at the first failed stage or the first
 * reading that is set.
 */
module Sequencer {
  import opened Outcome
  import opened EnvError

  /** The stages, named after the progress line each prints. */
  datatype Stage = CreatingNetwork | StartingEthereum | StartingBitcoin | WritingEnvFile | StartingCnds

  const Order: seq<Stage> := [CreatingNetwork, StartingEthereum, StartingBitcoin, WritingEnvFile, StartingCnds]

  /** The checkpoint after a stage: `Err(SignalReceived)` exactly when the flag reads set. */
  function CheckSignal(terminate: bool): (r: Result<(), Error>)
    ensures r == Err(SignalReceived) <==> terminate
    ensures r == Ok(()) <==> !terminate
  {
    if terminate then Err(SignalReceived) else Ok(())
  }

  /** How a run of stages ends; `at` is the position of the stage it ended on. */
  datatype Verdict = Completed | Failed(at: nat) | Signalled(at: nat)

  /**
   * The reference run: `succeeds[k]` is whether stage k succeeds if it is
   * awaited, `readings[k]` what the checkpoint after it reads.
   */
  function Run(succeeds: seq<bool>, readings: seq<bool>): (v: Verdict)
    requires |succeeds| == |readings|
    ensures !v.Completed? ==> v.at < |succeeds|
    decreases |succeeds|
  {
    if succeeds == [] then Completed
    else if !succeeds[0] then Failed(0)
    else if readings[0] then Signalled(0)
    else match Run(succeeds[1..], readings[1..])
      case Completed => Completed
      case Failed(k) => Failed(k + 1)
      case Signalled(k) => Signalled(k + 1)
  }

  /** How many stages a run that ends with `v` awaits, out of `n`. */
  function Attempted(v: Verdict, n: nat): nat {
    match v
    case Completed => n
    case Failed(k) => k + 1
    case Signalled(k) => k + 1
  }

  /** Every stage before position `k` succeeded and every checkpoint after one read clear. */
  predicate ClearBefore(succeeds: seq<bool>, readings: seq<bool>, k: nat)
    requires k <= |succeeds| == |readings|
  {
    forall j :: 0 <= j < k ==> succeeds[j] && !readings[j]
  }

  /**
   * A run completes exactly when every stage succeeds and every reading is
   * clear; otherwise it ends at the first stage that fails or whose
   * checkpoint reads set, failing or signalled accordingly.
   */
  lemma {:induction false} RunEndsAtFirstStop(succeeds: seq<bool>, readings: seq<bool>)
    requires |succeeds| == |readings|
    ensures var v := Run(succeeds, readings);
      (v.Completed? <==> ClearBefore(succeeds, readings, |succeeds|))
      && (v.Failed? ==> v.at < |succeeds| && ClearBefore(succeeds, readings, v.at) && !succeeds[v.at])
      && (v.Signalled? ==> v.at < |succeeds| && ClearBefore(succeeds, readings, v.at)
                           && succeeds[v.at] && readings[v.at])
    decreases |succeeds|
  {
    if succeeds != [] && succeeds[0] && !readings[0] {
      var tailOk, tailReadings := succeeds[1..], readings[1..];
      RunEndsAtFirstStop(tailOk, tailReadings);
      var v := Run(tailOk, tailReadings);
      if v.Completed? {
        forall j | 0 <= j < |succeeds| ensures succeeds[j] && !readings[j] {
          if j > 0 { assert succeeds[j] == tailOk[j - 1]; }
        }
      } else {
        forall j | 0 <= j < v.at + 1 ensures succeeds[j] && !readings[j] {
          if j > 0 { assert succeeds[j] == tailOk[j - 1]; }
        }
      }
      if !ClearBefore(tailOk, tailReadings, |tailOk|) {
        var j :| 0 <= j < |tailOk| && !(tailOk[j] && !tailReadings[j]);
        assert !(succeeds[j + 1] && !readings[j + 1]);
      }
    }
  }

  /** Stage `k` is awaited exactly when every stage before it succeeded and every checkpoint so far read clear. */
  lemma AttemptedIffClear(succeeds: seq<bool>, readings: seq<bool>, k: nat)
    requires k < |succeeds| == |readings|
    ensures k < Attempted(Run(succeeds, readings), |succeeds|) <==> ClearBefore(succeeds, readings, k)
  {
    RunEndsAtFirstStop(succeeds, readings);
    var v := Run(succeeds, readings);
    if !v.Completed? && k > v.at {
      assert !(succeeds[v.at] && !readings[v.at]);
    }
  }

  /** A run over five stages, unrolled. */
  lemma RunOfFive(succeeds: seq<bool>, readings: seq<bool>)
    requires |succeeds| == |readings| == 5
    ensures Run(succeeds, readings) ==
      if !succeeds[0] then Failed(0) else if readings[0] then Signalled(0)
      else if !succeeds[1] then Failed(1) else if readings[1] then Signalled(1)
      else if !succeeds[2] then Failed(2) else if readings[2] then Signalled(2)
      else if !succeeds[3] then Failed(3) else if readings[3] then Signalled(3)
      else if !succeeds[4] then Failed(4) else if readings[4] then Signalled(4)
      else Completed
  {
    RunEndsAtFirstStop(succeeds, readings);
    var v := Run(succeeds, readings);
    if !v.Completed? {
      assert v.at < 5;
      assert forall j :: 0 <= j < v.at ==> succeeds[j] && !readings[j];
    }
  }
}
