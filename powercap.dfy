/** `src/enrichment/powercap.rs`: the energy enrichment stage. The hardware
    counter it reads (`intel_rapl.total_energy()`) is an input: the reading
    taken during the call, `None` when the read failed. */
module PowerCap {
  import opened Wrappers
  import opened Model

  /** The record `enrich` returns, given the stored reading and the new one. */
  function Output(last: Option<uint64>, current: Option<uint64>, record: Record): (r: Record)
    ensures r.(cpuEnergy := record.cpuEnergy) == record
    ensures last.None? || current.None? ==> r == record
    ensures last.Some? && current.Some? && last.value <= current.value
      ==> r.cpuEnergy == Some(Product(record.cpuPercent, current.value - last.value))
  {
    if last.Some? && current.Some? then
      WithEnergy(record, Some(WrappingSub(current.value, last.value)))
    else
      record
  }

  /** With a counter that did not run backwards, the record gets the energy
      of the interval and nothing else changes. */
  lemma OutputOrdered(last: uint64, now: uint64, record: Record)
    requires last <= now
    ensures Output(Some(last), Some(now), record) == record.(cpuEnergy := Some(Product(record.cpuPercent, now - last)))
  {
    WrappingSubOrdered(now, last);
  }

  class PowerCapEnricher {
    /** The counter value read on the previous `enrich`, if any. */
    var last: Option<uint64>

    /** `PowerCapEnricher::from`: no baseline yet. */
    constructor From()
      ensures last == None
    {
      last := None;
    }

    /** `enrich`: computes the energy of the interval since the previous
        reading and makes the current reading the new baseline, also when
        it is `None`. */
    method Enrich(record: Record, current: Option<uint64>) returns (result: Record)
      modifies this
      ensures result == Output(old(last), current, record)
      ensures last == current
    {
      if last.Some? && current.Some? {
        result := WithEnergy(record, Some(WrappingSub(current.value, last.value)));
      } else {
        result := record;
      }
      last := current;
    }

    /** `reset`: forgets the baseline. */
    method Reset()
      modifies this
      ensures last == None
    {
      last := None;
    }
  }
}
