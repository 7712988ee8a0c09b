/** Progress reporting: the statistics a training run records once per epoch. */
module Reporting {
  import opened Runtime

  /** One epoch's record; the wall-clock timestamp of the original is not modelled. */
  datatype TrainingStatistics = TrainingStatistics(epoch: int, averageLoss: Double)

  /** Collects every reported epoch, in order, in an append-only list. */
  class StatisticsProgressReporter {
    var statistics: seq<TrainingStatistics>

    constructor ()
      ensures statistics == []
    {
      statistics := [];
    }

    /** The read-only view of the collected statistics. */
    function Statistics(): seq<TrainingStatistics>
      reads this
    {
      statistics
    }

    /** Appends one record carrying the given epoch and loss; earlier records are untouched. */
    method ReportProgress(epoch: int, averageLoss: Double)
      modifies this
      ensures statistics == old(statistics) + [TrainingStatistics(epoch, averageLoss)]
    {
      statistics := statistics + [TrainingStatistics(epoch, averageLoss)];
    }
  }

  /** The epoch numbers of a list of records. */
  function Epochs(statistics: seq<TrainingStatistics>): (epochs: seq<int>)
    ensures |epochs| == |statistics|
    ensures forall i :: 0 <= i < |statistics| ==> epochs[i] == statistics[i].epoch
  {
    if |statistics| == 0 then [] else Epochs(statistics[..|statistics| - 1]) + [statistics[|statistics| - 1].epoch]
  }

  /** The list 0, 1, ..., count - 1: the epochs of a run that completed `count` epochs. */
  function EpochRange(count: nat): (epochs: seq<int>)
    ensures |epochs| == count
    ensures forall i :: 0 <= i < count ==> epochs[i] == i
  {
    if count == 0 then [] else EpochRange(count - 1) + [count - 1]
  }
}
