/** `src/format/csv.rs`: `CsvFormatter`, one line per record, fields in a
    fixed order joined by commas, nothing escaped. The `enrichment-powercap`
    feature is the parameter `powercap`. How an `f64` prints is left
    uninterpreted: it is the function `render`. */
module Csv {
  import opened Wrappers
  import opened Model
  import opened Text

  type RenderF64 = F64 -> string

  /** The fields in output order; absent options print as their default, 0. */
  function Fields(event: Record, render: RenderF64, powercap: bool): (r: seq<string>)
    ensures |r| == if powercap then 10 else 9
  {
    [ event.containerId,
      event.containerName,
      IntToString(event.ts),
      NatToString(UnwrapOrZero(event.pidCount)),
      NatToString(UnwrapOrZero(event.pidLimit)),
      NatToString(UnwrapOrZero(event.memoryUsage)),
      NatToString(UnwrapOrZero(event.memoryLimit)),
      render(event.cpuPercent),
      NatToString(event.cpuCount) ]
    + (if powercap then [render(event.cpuEnergy.UnwrapOr(Zero))] else [])
  }

  /** `CsvFormatter::format`, for either feature setting. It never fails. */
  function Format(event: Record, render: RenderF64, powercap: bool): (r: Result<string, string>)
    ensures r.Ok?
  {
    Ok(Join(Fields(event, render, powercap), ','))
  }

  /** No unsigned field holds a comma. */
  lemma NatIsCommaFree(n: nat)
    ensures ',' !in NatToString(n)
  {
    var s := NatToString(n);
    assert forall k :: 0 <= k < |s| ==> s[k] != ',';
  }

  /** The signed timestamp holds no comma. */
  lemma IntIsCommaFree(i: int)
    ensures ',' !in IntToString(i)
  {
    var t := IntToString(i);
    assert forall k :: 0 <= k < |t| ==> t[k] != ',';
  }

  /** The line layout: when the identifier and the name hold no comma and
      printed floats hold none, splitting the line on commas gives back, in
      this order, id, name, timestamp, pid count, pid limit, memory usage,
      memory limit, CPU value and CPU count (and the energy with
      `powercap`): 10 fields, or 9. */
  lemma Layout(event: Record, render: RenderF64, powercap: bool)
    requires ',' !in event.containerId && ',' !in event.containerName
    requires forall f :: ',' !in render(f)
    ensures var parts := Split(Format(event, render, powercap).value, ',');
      && |parts| == (if powercap then 10 else 9)
      && parts[0] == event.containerId
      && parts[1] == event.containerName
      && parts[2] == IntToString(event.ts)
      && parts[3] == NatToString(UnwrapOrZero(event.pidCount))
      && parts[4] == NatToString(UnwrapOrZero(event.pidLimit))
      && parts[5] == NatToString(UnwrapOrZero(event.memoryUsage))
      && parts[6] == NatToString(UnwrapOrZero(event.memoryLimit))
      && parts[7] == render(event.cpuPercent)
      && parts[8] == NatToString(event.cpuCount)
      && (powercap ==> parts[9] == render(event.cpuEnergy.UnwrapOr(Zero)))
  {
    var fields := Fields(event, render, powercap);
    IntIsCommaFree(event.ts);
    NatIsCommaFree(UnwrapOrZero(event.pidCount));
    NatIsCommaFree(UnwrapOrZero(event.pidLimit));
    NatIsCommaFree(UnwrapOrZero(event.memoryUsage));
    NatIsCommaFree(UnwrapOrZero(event.memoryLimit));
    NatIsCommaFree(event.cpuCount);
    assert forall k :: 0 <= k < |fields| ==> ',' !in fields[k];
    SplitJoin(fields, ',');
  }

  /** An absent optional field prints exactly as a present 0 does. */
  lemma AbsentPrintsAsZero(event: Record, render: RenderF64, powercap: bool)
    ensures Format(event.(pidCount := None), render, powercap) == Format(event.(pidCount := Some(0)), render, powercap)
    ensures Format(event.(pidLimit := None), render, powercap) == Format(event.(pidLimit := Some(0)), render, powercap)
    ensures Format(event.(memoryUsage := None), render, powercap) == Format(event.(memoryUsage := Some(0)), render, powercap)
    ensures Format(event.(memoryLimit := None), render, powercap) == Format(event.(memoryLimit := Some(0)), render, powercap)
    ensures Format(event.(cpuEnergy := None), render, powercap) == Format(event.(cpuEnergy := Some(Zero)), render, powercap)
  {
  }

  /** The power-counter line is the plain line with the energy appended. */
  lemma EnergyIsLastColumn(event: Record, render: RenderF64)
    ensures Format(event, render, true).value
         == Format(event, render, false).value + "," + render(event.cpuEnergy.UnwrapOr(Zero))
  {
    var plain := Fields(event, render, false);
    assert Fields(event, render, true) == plain + [render(event.cpuEnergy.UnwrapOr(Zero))];
    JoinSnoc(plain, render(event.cpuEnergy.UnwrapOr(Zero)), ',');
  }
}
