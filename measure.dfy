/**
  MetaverseCompetition/ARView/ClassifyRealObject/Measure.swift: per-frame timestamps
  kept in a ring of 30 slots. Clock readings are passed in as `now`; the delegate's
  latency and frame-rate arithmetic is reduced to the two differences it reports.
*/
module Measure {
  import opened Wrappers

  type Time = int

  const SlotCount: nat := 30

  /** What the delegate is told: the inference and execution time of the current frame. */
  datatype MeasureUpdate = MeasureUpdate(inferenceTime: int, executionTime: int)

  /** The slot `StartMeasure` moves to: `index += 1; index %= 30`. */
  function NextIndex(index: int): (next: int)
    requires -1 <= index < SlotCount
    ensures 0 <= next < SlotCount
    ensures next == if index == SlotCount - 1 then 0 else index + 1
  {
    (index + 1) % SlotCount
  }

  /** `getBeforeMeasurment`: the slot before `index` in the ring. */
  function PreviousSlot(index: int): (previous: int)
    requires 0 <= index < SlotCount
    ensures 0 <= previous < SlotCount
    ensures previous == if index == 0 then SlotCount - 1 else index - 1
  {
    (index + SlotCount - 1) % SlotCount
  }

  /** Moving on and then back returns to the same slot. */
  lemma PreviousUndoesNext(index: int)
    requires 0 <= index < SlotCount
    ensures PreviousSlot(NextIndex(index)) == index
  {
  }

  /** The slot after `n` starts, beginning from the initial index -1. */
  function IndexAfterStarts(n: nat): (index: int)
    ensures -1 <= index < SlotCount
  {
    if n == 0 then -1 else NextIndex(IndexAfterStarts(n - 1))
  }

  /** After n > 0 starts the ring has wrapped to slot (n - 1) mod 30. */
  lemma {:induction false} IndexAfterStartsWraps(n: nat)
    requires n > 0
    ensures IndexAfterStarts(n) == (n - 1) % SlotCount
  {
    if n > 1 {
      var m: nat := n - 2;
      IndexAfterStartsWraps(n - 1);
      assert IndexAfterStarts(n - 1) == m % SlotCount;
      RingStep(m);
      assert m + 1 == n - 1;
    }
  }

  /** One step around the ring of 30: the slot after m mod 30 is (m + 1) mod 30. */
  lemma RingStep(m: nat)
    ensures NextIndex(m % SlotCount) == (m + 1) % SlotCount
  {
    var q, r := m / SlotCount, m % SlotCount;
    assert m == SlotCount * q + r;
    if r == SlotCount - 1 {
      assert m + 1 == SlotCount * (q + 1);
    } else {
      assert m + 1 == SlotCount * q + (r + 1);
    }
  }

  /**
    What `StopMeasure` reports for the current and the previous slot: nothing unless
    all four timestamps are present, and otherwise the times since "start".
  */
  function Report(current: map<string, Time>, before: map<string, Time>): (r: Option<MeasureUpdate>)
    ensures r.Some? <==> "start" in current && "endInference" in current && "end" in current && "start" in before
    ensures r.Some? ==> r.value.inferenceTime + current["start"] == current["endInference"]
    ensures r.Some? ==> r.value.executionTime + current["start"] == current["end"]
  {
    if "start" in current && "endInference" in current && "end" in current && "start" in before
    then Some(MeasureUpdate(current["endInference"] - current["start"], current["end"] - current["start"]))
    else None
  }

  /** A frame that never labelled "endInference" is not reported. */
  lemma NoReportWithoutInference(current: map<string, Time>, before: map<string, Time>)
    requires "endInference" !in current
    ensures Report(current, before).None?
  {
  }

  class Measurement {
    var hasDelegate: bool
    var index: int
    const measurements: array<map<string, Time>>
    var updates: seq<MeasureUpdate>

    ghost predicate Valid()
      reads this
    {
      measurements.Length == SlotCount && -1 <= index < SlotCount
    }

    /** Every slot starts with "start" and "end" set to the clock, and no slot is current. */
    constructor (now: Time)
      ensures Valid() && fresh(measurements)
      ensures index == -1 && !hasDelegate && updates == []
      ensures forall i :: 0 <= i < SlotCount ==> measurements[i] == map["start" := now, "end" := now]
    {
      hasDelegate := false;
      index := -1;
      measurements := new map<string, Time>[SlotCount](_ => map["start" := now, "end" := now]);
      updates := [];
    }

    /** Moves to the next slot and makes it hold only "start". */
    method StartMeasure(now: Time)
      requires Valid()
      modifies this`index, measurements
      ensures Valid()
      ensures index == NextIndex(old(index))
      ensures measurements[..] == old(measurements[..])[index := map["start" := now]]
    {
      index := (index + 1) % SlotCount;
      measurements[index] := map[];
      LabelSlot(index, Some("start"), now);
    }

    /** `label(for:with:)`: writes the clock under `msg` in one slot; nil writes nothing. */
    method LabelSlot(slot: int, msg: Option<string>, now: Time)
      requires Valid() && 0 <= slot < SlotCount
      modifies measurements
      ensures msg.None? ==> measurements[..] == old(measurements[..])
      ensures msg.Some? ==> measurements[..] == old(measurements[..])[slot := old(measurements[slot])[msg.value := now]]
    {
      if msg.Some? {
        measurements[slot] := measurements[slot][msg.value := now];
      }
    }

    /** `label(with:)` on the current slot, which exists only after a `StartMeasure`. */
    method Label(msg: Option<string>, now: Time)
      requires Valid() && index >= 0
      modifies measurements
      ensures Valid()
      ensures msg.None? ==> measurements[..] == old(measurements[..])
      ensures msg.Some? ==> measurements[..] == old(measurements[..])[index := old(measurements[index])[msg.value := now]]
    {
      LabelSlot(index, msg, now);
    }

    /**
      Labels "end", then reports to the delegate if there is one and the current slot
      holds "start", "endInference" and "end" while the previous slot holds "start".
    */
    method StopMeasure(now: Time)
      requires Valid() && index >= 0
      modifies measurements, this`updates
      ensures Valid()
      ensures measurements[..] == old(measurements[..])[index := old(measurements[index])["end" := now]]
      ensures var current := measurements[index];
        var before := measurements[PreviousSlot(index)];
        updates == old(updates) +
          (if hasDelegate && Report(current, before).Some?
           then [MeasureUpdate(current["endInference"] - current["start"], now - current["start"])]
           else [])
    {
      LabelSlot(index, Some("end"), now);
      var beforeMeasurement := measurements[PreviousSlot(index)];
      var currentMeasurement := measurements[index];
      var report := Report(currentMeasurement, beforeMeasurement);
      if report.Some? && hasDelegate {
        updates := updates + [report.value];
      }
    }
  }
}
