/** `src/model.rs`: the sample record and its construction from the
    runtime's raw statistics. */
module Model {
  import opened Wrappers

  const TWO_TO_THE_64: int := 0x1_0000_0000_0000_0000

  /** Rust's `u64` and `i64`. */
  type uint64 = x: int | 0 <= x < TWO_TO_THE_64
  type int64 = x: int | -0x8000_0000_0000_0000 <= x < 0x8000_0000_0000_0000

  /** `a - b` on `u64` in a release build, where overflow checks are off
      and the difference wraps around modulo 2^64. */
  function WrappingSub(a: uint64, b: uint64): (d: uint64)
    ensures (d + b) % TWO_TO_THE_64 == a
  {
    if a >= b then a - b else a - b + TWO_TO_THE_64
  }

  /** Without underflow the wrapped difference is the plain one. */
  lemma WrappingSubOrdered(a: uint64, b: uint64)
    requires b <= a
    ensures WrappingSub(a, b) == a - b
  {
  }

  /** A floating-point value of the source, kept symbolic: the term records
      how the `f64` was computed, not what IEEE arithmetic makes of it
      (a zero denominator is NaN or infinity there; here it is just a term). */
  datatype F64 =
    | Quotient(numerator: uint64, denominator: uint64)  // `n as f64 / d as f64`
    | Product(factor: F64, scale: uint64)               // `f * s as f64`
    | Zero                                              // `f64::default()`

  /** The parts of bollard's `Stats` that `Record::from` reads. */
  datatype CpuStats = CpuStats(totalUsage: uint64, systemCpuUsage: Option<uint64>, onlineCpus: Option<uint64>)
  datatype PidsStats = PidsStats(current: Option<uint64>, limit: Option<uint64>)
  datatype MemoryStats = MemoryStats(usage: Option<uint64>, limit: Option<uint64>)
  datatype Stats = Stats(
    id: string,
    name: string,
    read: int64,            // the sample's instant, as `read.timestamp()` gives it
    pidsStats: PidsStats,
    memoryStats: MemoryStats,
    cpuStats: CpuStats,
    precpuStats: CpuStats)

  /** One sample for one container. `cpuEnergy` exists in the source only
      with the `enrichment-powercap` feature; without it nothing sets it
      and the model keeps it `None`. */
  datatype Record = Record(
    containerId: string,
    containerName: string,
    ts: int64,
    pidCount: Option<uint64>,
    pidLimit: Option<uint64>,
    memoryUsage: Option<uint64>,
    memoryLimit: Option<uint64>,
    cpuPercent: F64,
    cpuCount: uint64,
    cpuEnergy: Option<F64>)

  /** `unwrap_or_default()` on an optional `u64`. */
  function UnwrapOrZero(x: Option<uint64>): uint64 { x.UnwrapOr(0) }

  /** `s.trim_start_matches('/')`: `s` without its leading slashes. */
  function TrimLeadingSlashes(s: string): (r: string)
    ensures |r| <= |s| && r == s[|s| - |r|..]
    ensures forall i :: 0 <= i < |s| - |r| ==> s[i] == '/'
    ensures r == [] || r[0] != '/'
  {
    if s != [] && s[0] == '/' then TrimLeadingSlashes(s[1..]) else s
  }

  /** `Record::from(Stats)`. */
  function FromStats(item: Stats): (r: Record)
    ensures r.cpuEnergy == None
  {
    var cpuDelta := WrappingSub(item.cpuStats.totalUsage, item.precpuStats.totalUsage);
    var systemDelta := WrappingSub(UnwrapOrZero(item.cpuStats.systemCpuUsage),
                                   UnwrapOrZero(item.precpuStats.systemCpuUsage));
    Record(
      item.id,
      TrimLeadingSlashes(item.name),
      item.read,
      item.pidsStats.current,
      item.pidsStats.limit,
      item.memoryStats.usage,
      item.memoryStats.limit,
      Quotient(cpuDelta, systemDelta),
      item.cpuStats.onlineCpus.UnwrapOr(1),
      None)
  }

  /** What `Record::from` promises about every field: the identifier and all
      pid and memory readings are copied; the name loses exactly its leading
      slashes; a missing CPU count is 1; no energy yet. */
  lemma FromStatsFields(item: Stats)
    ensures var r := FromStats(item);
      && r.containerId == item.id
      && r.ts == item.read
      && r.pidCount == item.pidsStats.current && r.pidLimit == item.pidsStats.limit
      && r.memoryUsage == item.memoryStats.usage && r.memoryLimit == item.memoryStats.limit
      && (item.cpuStats.onlineCpus.None? ==> r.cpuCount == 1)
      && (item.cpuStats.onlineCpus.Some? ==> r.cpuCount == item.cpuStats.onlineCpus.value)
      && r.cpuEnergy.None?
      && (r.containerName == [] || r.containerName[0] != '/')
      && (exists k :: 0 <= k <= |item.name| && item.name[..k] == seq(k, _ => '/')
                                            && item.name[k..] == r.containerName)
  {
    var r := FromStats(item);
    var k := |item.name| - |r.containerName|;
    assert item.name[..k] == seq(k, _ => '/');
  }

  /** With counters that do not run backwards, the CPU value is the bare
      ratio of the two deltas, a missing system reading counting as 0 —
      no percentage scaling and no CPU-count factor. */
  lemma CpuPercentIsRatio(item: Stats)
    requires item.precpuStats.totalUsage <= item.cpuStats.totalUsage
    requires UnwrapOrZero(item.precpuStats.systemCpuUsage) <= UnwrapOrZero(item.cpuStats.systemCpuUsage)
    ensures FromStats(item).cpuPercent == Quotient(
      item.cpuStats.totalUsage - item.precpuStats.totalUsage,
      UnwrapOrZero(item.cpuStats.systemCpuUsage) - UnwrapOrZero(item.precpuStats.systemCpuUsage))
  {
    WrappingSubOrdered(item.cpuStats.totalUsage, item.precpuStats.totalUsage);
    WrappingSubOrdered(UnwrapOrZero(item.cpuStats.systemCpuUsage), UnwrapOrZero(item.precpuStats.systemCpuUsage));
  }

  /** The reported CPU count plays no part in the CPU value. */
  lemma CpuPercentIgnoresCpuCount(item: Stats, online: Option<uint64>)
    ensures FromStats(item.(cpuStats := item.cpuStats.(onlineCpus := online))).cpuPercent
         == FromStats(item).cpuPercent
  {
  }

  /** `Record::with_energy`: attaches `cpuPercent * total` as the energy when
      a total is given, and leaves every other field as it was. */
  function WithEnergy(r: Record, totalCpuEnergy: Option<uint64>): (r': Record)
    ensures r'.(cpuEnergy := r.cpuEnergy) == r
    ensures totalCpuEnergy.None? ==> r' == r
    ensures totalCpuEnergy.Some? ==> r'.cpuEnergy == Some(Product(r.cpuPercent, totalCpuEnergy.value))
  {
    match totalCpuEnergy
    case None => r
    case Some(total) => r.(cpuEnergy := Some(Product(r.cpuPercent, total)))
  }
}
