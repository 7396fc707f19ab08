/** The scaling policy of the orchestrator. */
module Scaling {
  import opened JudgeTypes

  /** min(max_workers, max(min_workers, qsize // 5 + 1)) */
  function Desired(minWorkers: int, maxWorkers: int, queued: nat): int {
    Min(maxWorkers, Max(minWorkers, queued / 5 + 1))
  }

  /** Within the limits, never fewer workers for a longer queue, and five jobs a worker unless capped. */
  lemma DesiredFits(minWorkers: int, maxWorkers: int, queued: nat)
    requires minWorkers <= maxWorkers
    ensures minWorkers <= Desired(minWorkers, maxWorkers, queued) <= maxWorkers
    ensures 5 * Desired(minWorkers, maxWorkers, queued) > queued || Desired(minWorkers, maxWorkers, queued) == maxWorkers
    ensures Desired(minWorkers, maxWorkers, queued) > minWorkers ==> 5 * (Desired(minWorkers, maxWorkers, queued) - 1) <= queued
    ensures forall longer: nat | longer >= queued ::
              Desired(minWorkers, maxWorkers, longer) >= Desired(minWorkers, maxWorkers, queued)
  {
  }

  lemma AllFit(minWorkers: int, maxWorkers: int, counts: seq<nat>, queues: seq<nat>)
    requires minWorkers <= maxWorkers && |counts| == |queues|
    requires forall i | 0 <= i < |counts| :: counts[i] == Desired(minWorkers, maxWorkers, queues[i])
    ensures forall i | 0 <= i < |counts| ::
              minWorkers <= counts[i] <= maxWorkers && (5 * counts[i] > queues[i] || counts[i] == maxWorkers)
    ensures forall i, j | 0 <= i < |counts| && 0 <= j < |counts| && queues[i] <= queues[j] :: counts[i] <= counts[j]
  {
    hide Desired;
    forall i | 0 <= i < |counts|
      ensures minWorkers <= counts[i] <= maxWorkers && (5 * counts[i] > queues[i] || counts[i] == maxWorkers)
      ensures forall j | 0 <= j < |counts| && queues[i] <= queues[j] :: counts[i] <= counts[j]
    {
      DesiredFits(minWorkers, maxWorkers, queues[i]);
    }
  }
}
