/**
 * A CSR pledge (`csr.pledge` in models/pledge.py): its progress updates,
 * the value and percentage computed from the latest one, and the status
 * the recomputation moves it to.
 */
module Pledges {

  datatype Status = Draft | InProgress | Completed | AtRisk

  /** One `csr.progress` update: its date (as a day number) and the value reported. */
  datatype ProgressEntry = ProgressEntry(date: int, currentValue: real)

  /**
   * `max(progress_ids, key=lambda x: x.date)`: the index of an entry with
   * the greatest date; on ties the first one, as `max` keeps it.
   */
  function LatestIndex(entries: seq<ProgressEntry>): (k: nat)
    requires entries != []
    ensures k < |entries|
    ensures forall j :: 0 <= j < |entries| ==> entries[j].date <= entries[k].date
    ensures forall j :: 0 <= j < k ==> entries[j].date < entries[k].date
  {
    if |entries| == 1 then 0
    else
      var k := LatestIndex(entries[..|entries| - 1]);
      if entries[|entries| - 1].date > entries[k].date then |entries| - 1 else k
  }

  /** The value of the latest update, 0.0 without updates. */
  function CurrentValue(entries: seq<ProgressEntry>): real {
    if entries == [] then 0.0 else entries[LatestIndex(entries)].currentValue
  }

  /** The latest update is unique once ties go to the first: any entry with the greatest date and no equal date before it is the one read. */
  lemma CurrentValueOfLatest(entries: seq<ProgressEntry>, k: nat)
    requires k < |entries|
    requires forall j :: 0 <= j < |entries| ==> entries[j].date <= entries[k].date
    requires forall j :: 0 <= j < k ==> entries[j].date < entries[k].date
    ensures CurrentValue(entries) == entries[k].currentValue
  {
    var l := LatestIndex(entries);
    assert entries[l].date == entries[k].date;
    assert l == k;
  }

  /** `current_value / target_value * 100` for a positive target, else 0.0. */
  function ProgressPercent(currentValue: real, targetValue: real): (p: real)
    ensures targetValue > 0.0 ==> p * targetValue == currentValue * 100.0
    ensures targetValue <= 0.0 ==> p == 0.0
  {
    if targetValue > 0.0 then currentValue / targetValue * 100.0 else 0.0
  }

  /** The status after recomputation, from the old status, the percentage and the value. */
  function NextStatus(status: Status, percent: real, currentValue: real): (s: Status)
    // at or above 100: completed, whatever came before
    ensures percent >= 100.0 ==> s == Completed
    // 70 up to 100: completed stays, everything else is in progress
    ensures 70.0 <= percent < 100.0 ==> s == (if status == Completed then Completed else InProgress)
    // below 40: every non-draft pledge is at risk, a completed one included
    ensures percent < 40.0 && status != Draft ==> s == AtRisk
    // a draft below 70 starts exactly when something was reported
    ensures percent < 70.0 && status == Draft ==> (s == InProgress <==> currentValue > 0.0)
    ensures percent < 70.0 && status == Draft ==> (s == Draft <==> currentValue <= 0.0)
    // 40 up to 70: a started pledge keeps its status
    ensures 40.0 <= percent < 70.0 && status != Draft ==> s == status
    // the rule never sends a started pledge back to draft
    ensures status != Draft ==> s != Draft
  {
    if percent >= 100.0 then Completed
    else if percent >= 70.0 then
      if status == Draft then InProgress
      else if status != Completed then InProgress
      else status
    else if percent < 40.0 && status != Draft then AtRisk
    else if status == Draft && currentValue > 0.0 then InProgress
    else status
  }

  /** What a status says about the percentage it was computed from. */
  lemma StatusBounds(status: Status, percent: real, currentValue: real)
    ensures NextStatus(status, percent, currentValue) == Completed ==>
      percent >= 100.0 || (status == Completed && percent >= 40.0)
    ensures NextStatus(status, percent, currentValue) == AtRisk ==>
      percent < 40.0 || (status == AtRisk && percent < 70.0)
    ensures NextStatus(status, percent, currentValue) == Draft ==> percent < 70.0 && currentValue <= 0.0
  {
  }

  /** Recomputing twice is not the same as once: a draft with a low but positive value starts, then falls to at risk. */
  lemma NextStatusNotIdempotent()
    ensures NextStatus(Draft, 10.0, 1.0) == InProgress
    ensures NextStatus(NextStatus(Draft, 10.0, 1.0), 10.0, 1.0) == AtRisk
  {
  }

  class Pledge {
    var targetValue: real
    /** `progress_ids`, in the order the recordset holds them. */
    var entries: seq<ProgressEntry>
    var currentValue: real
    var progressPercent: real
    var status: Status
    var progressCount: int

    /** A new pledge: status `draft`, no updates yet. */
    constructor (target: real)
      ensures targetValue == target && entries == [] && status == Draft
      ensures currentValue == 0.0 && progressPercent == 0.0 && progressCount == 0
    {
      targetValue := target;
      entries := [];
      currentValue := 0.0;
      progressPercent := 0.0;
      status := Draft;
      progressCount := 0;
    }

    /** `_compute_progress` for this record. */
    method ComputeProgress()
      modifies this
      ensures targetValue == old(targetValue) && entries == old(entries) && progressCount == old(progressCount)
      ensures currentValue == CurrentValue(entries)
      ensures progressPercent == ProgressPercent(currentValue, targetValue)
      ensures status == NextStatus(old(status), progressPercent, currentValue)
    {
      if entries != [] {
        var latest := entries[LatestIndex(entries)];
        currentValue := latest.currentValue;
      } else {
        currentValue := 0.0;
      }
      if targetValue > 0.0 {
        progressPercent := currentValue / targetValue * 100.0;
      } else {
        progressPercent := 0.0;
      }
      if progressPercent >= 100.0 {
        status := Completed;
      } else if progressPercent >= 70.0 {
        if status == Draft {
          status := InProgress;
        } else if status != Completed {
          status := InProgress;
        }
      } else if progressPercent < 40.0 && status != Draft {
        status := AtRisk;
      } else if status == Draft && currentValue > 0.0 {
        status := InProgress;
      }
    }

    /** `_compute_progress_count` for this record. */
    method ComputeProgressCount()
      modifies this
      ensures progressCount == |entries|
      ensures targetValue == old(targetValue) && entries == old(entries) && status == old(status)
      ensures currentValue == old(currentValue) && progressPercent == old(progressPercent)
    {
      progressCount := |entries|;
    }
  }

  /** `_compute_progress` over a recordset (`for rec in self`): every record is recomputed from its own old state. */
  method ComputeProgressAll(recs: seq<Pledge>)
    requires forall i, j :: 0 <= i < j < |recs| ==> recs[i] != recs[j]
    modifies set r | r in recs
    ensures forall i :: 0 <= i < |recs| ==>
      recs[i].entries == old(recs[i].entries) && recs[i].targetValue == old(recs[i].targetValue)
      && recs[i].progressCount == old(recs[i].progressCount)
      && recs[i].currentValue == CurrentValue(recs[i].entries)
      && recs[i].progressPercent == ProgressPercent(recs[i].currentValue, recs[i].targetValue)
      && recs[i].status == NextStatus(old(recs[i].status), recs[i].progressPercent, recs[i].currentValue)
  {
    for n := 0 to |recs|
      invariant forall i :: 0 <= i < n ==>
        recs[i].entries == old(recs[i].entries) && recs[i].targetValue == old(recs[i].targetValue)
        && recs[i].progressCount == old(recs[i].progressCount)
        && recs[i].currentValue == CurrentValue(recs[i].entries)
        && recs[i].progressPercent == ProgressPercent(recs[i].currentValue, recs[i].targetValue)
        && recs[i].status == NextStatus(old(recs[i].status), recs[i].progressPercent, recs[i].currentValue)
      invariant forall i :: n <= i < |recs| ==>
        recs[i].entries == old(recs[i].entries) && recs[i].targetValue == old(recs[i].targetValue)
        && recs[i].status == old(recs[i].status) && recs[i].progressCount == old(recs[i].progressCount)
    {
      recs[n].ComputeProgress();
    }
  }
}
