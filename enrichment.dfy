/** `src/enrichment/mod.rs`: the ordered stack of enrichment stages a
    watcher runs every record through, and how the stack is built. */
module Enrichment {
  import opened Wrappers
  import opened Model
  import Config
  import PowerCap

  /** A boxed stage of the stack. `Defaulted` stands for an `Enricher` that
      overrides neither method and so gets the trait's defaults; the only
      stage the source defines is the power-counter one. */
  datatype Stage = Defaulted | PowerCapStage(enricher: PowerCap.PowerCapEnricher)

  /** What a stage remembers, as a value. */
  datatype StageState = DefaultedState | PowerCapState(last: Option<uint64>)

  /** One stage's `enrich`: the trait default returns the record unchanged. */
  function StageOutput(s: StageState, current: Option<uint64>, record: Record): (r: Record)
    ensures r.(cpuEnergy := record.cpuEnergy) == record
    ensures s == DefaultedState || s == PowerCapState(None) ==> r == record
  {
    match s
    case DefaultedState => record
    case PowerCapState(last) => PowerCap.Output(last, current, record)
  }

  function StageAfterEnrich(s: StageState, current: Option<uint64>): StageState
  {
    match s
    case DefaultedState => DefaultedState
    case PowerCapState(_) => PowerCapState(current)
  }

  /** One stage's `reset`: the trait default does nothing. */
  function StageAfterReset(s: StageState): StageState
  {
    match s
    case DefaultedState => DefaultedState
    case PowerCapState(_) => PowerCapState(None)
  }

  /** The stack's `enrich` on values: a left fold over the stages in order,
      each stage given the previous stage's output. Every stage only ever
      touches the energy field. */
  function Apply(states: seq<StageState>, current: Option<uint64>, record: Record): (r: Record)
    ensures r.(cpuEnergy := record.cpuEnergy) == record
    ensures states == [] ==> r == record
  {
    if states == [] then record
    else StageOutput(states[|states| - 1], current, Apply(states[..|states| - 1], current, record))
  }

  /** A one-stage stack is that stage's `enrich`. */
  lemma ApplyOne(s: StageState, current: Option<uint64>, record: Record)
    ensures Apply([s], current, record) == StageOutput(s, current, record)
  {
    assert [s][..0] == [];
  }

  /** Folding over two stacks one after the other is folding over the
      concatenated stack. */
  lemma {:induction false} ApplyConcat(a: seq<StageState>, b: seq<StageState>, current: Option<uint64>, record: Record)
    ensures Apply(a + b, current, record) == Apply(b, current, Apply(a, current, record))
    decreases |b|
  {
    if b == [] {
      assert a + b == a;
    } else {
      var b' := b[..|b| - 1];
      assert (a + b)[..|a + b| - 1] == a + b';
      ApplyConcat(a, b', current, record);
    }
  }

  function AfterEnrich(states: seq<StageState>, current: Option<uint64>): (r: seq<StageState>)
    ensures |r| == |states|
  {
    seq(|states|, i requires 0 <= i < |states| => StageAfterEnrich(states[i], current))
  }

  function AfterReset(states: seq<StageState>): (r: seq<StageState>)
    ensures |r| == |states|
  {
    seq(|states|, i requires 0 <= i < |states| => StageAfterReset(states[i]))
  }

  /** No stage holds a previous counter reading. */
  predicate NoBaseline(states: seq<StageState>)
  {
    forall i :: 0 <= i < |states| ==> states[i] == DefaultedState || states[i] == PowerCapState(None)
  }

  /** A stack without baselines hands every record through unchanged. */
  lemma {:induction false} NoBaselineIsIdentity(states: seq<StageState>, current: Option<uint64>, record: Record)
    requires NoBaseline(states)
    ensures Apply(states, current, record) == record
    decreases |states|
  {
    if states != [] {
      NoBaselineIsIdentity(states[..|states| - 1], current, record);
    }
  }

  /** After `reset`, whatever the stages held, the next `enrich` adds no energy. */
  lemma ResetThenEnrich(states: seq<StageState>, current: Option<uint64>, record: Record)
    ensures NoBaseline(AfterReset(states))
    ensures Apply(AfterReset(states), current, record) == record
  {
    NoBaselineIsIdentity(AfterReset(states), current, record);
  }

  /** After `enrich`, every power-counter stage holds the reading just taken,
      `None` included, and the stack's shape is as before. */
  lemma EnrichSetsBaselines(states: seq<StageState>, current: Option<uint64>)
    ensures forall i :: 0 <= i < |states| ==>
      && AfterEnrich(states, current)[i].PowerCapState? == states[i].PowerCapState?
      && (states[i].PowerCapState? ==> AfterEnrich(states, current)[i].last == current)
  {
  }

  /** `EnrichmentStack`: the stages, each a distinct object. */
  class EnrichmentStack {
    const stages: seq<Stage>
    ghost const Repr: set<PowerCap.PowerCapEnricher>

    ghost predicate Valid()
    {
      && (forall i :: 0 <= i < |stages| && stages[i].PowerCapStage? ==> stages[i].enricher in Repr)
      && (forall i, j :: 0 <= i < j < |stages| && stages[i].PowerCapStage? && stages[j].PowerCapStage?
            ==> stages[i].enricher != stages[j].enricher)
    }

    ghost function StateOf(s: Stage): StageState
      reads if s.PowerCapStage? then {s.enricher} else {}
    {
      match s
      case Defaulted => DefaultedState
      case PowerCapStage(e) => PowerCapState(e.last)
    }

    /** The stack's state, stage by stage. */
    ghost function States(): (r: seq<StageState>)
      requires Valid()
      reads Repr
      ensures |r| == |stages|
    {
      seq(|stages|, i requires 0 <= i < |stages| && Valid() reads Repr => StateOf(stages[i]))
    }

    constructor (stages: seq<Stage>)
      requires forall i, j :: 0 <= i < j < |stages| && stages[i].PowerCapStage? && stages[j].PowerCapStage?
                 ==> stages[i].enricher != stages[j].enricher
      ensures this.stages == stages && Valid()
      ensures Repr == set i | 0 <= i < |stages| && stages[i].PowerCapStage? :: stages[i].enricher
    {
      this.stages := stages;
      Repr := set i | 0 <= i < |stages| && stages[i].PowerCapStage? :: stages[i].enricher;
    }

    /** `enrich`: every stage in vector order, `current` being the counter
        reading taken during this call. */
    method Enrich(record: Record, current: Option<uint64>) returns (result: Record)
      requires Valid()
      modifies Repr
      ensures result == Apply(old(States()), current, record)
      ensures States() == AfterEnrich(old(States()), current)
    {
      ghost var before := States();
      result := record;
      var i := 0;
      while i < |stages|
        invariant 0 <= i <= |stages|
        invariant result == Apply(before[..i], current, record)
        invariant forall j :: 0 <= j < i ==> StateOf(stages[j]) == StageAfterEnrich(before[j], current)
        invariant forall j :: i <= j < |stages| ==> StateOf(stages[j]) == before[j]
      {
        match stages[i] {
          case Defaulted =>
          case PowerCapStage(e) =>
            result := e.Enrich(result, current);
        }
        assert before[..i + 1][..i] == before[..i];
        i := i + 1;
      }
      assert before[..|stages|] == before;
    }

    /** `reset`: every stage, once. */
    method Reset()
      requires Valid()
      modifies Repr
      ensures States() == AfterReset(old(States()))
    {
      ghost var before := States();
      var i := 0;
      while i < |stages|
        invariant 0 <= i <= |stages|
        invariant forall j :: 0 <= j < i ==> StateOf(stages[j]) == StageAfterReset(before[j])
        invariant forall j :: i <= j < |stages| ==> StateOf(stages[j]) == before[j]
      {
        match stages[i] {
          case Defaulted =>
          case PowerCapStage(e) =>
            e.Reset();
        }
        i := i + 1;
      }
    }
  }

  /** The shared `PowerCap` handle. What it reads is an input of `Enrich`. */
  datatype PowerCapReader = PowerCapReader

  /** `EnrichmentBuilder`; its field exists only with `enrichment-powercap`. */
  datatype EnrichmentBuilder = EnrichmentBuilder(powercap: Option<PowerCapReader>)

  /** `Params::create_powercap`, given what `PowerCap::try_default()` returned. */
  function CreatePowerCap(params: Config.Params, tryDefault: Result<PowerCapReader, string>): (r: Option<PowerCapReader>)
    ensures params.disablePowercap ==> r.None?
    ensures !params.disablePowercap ==> (r.Some? <==> tryDefault.Ok?)
  {
    if params.disablePowercap then None
    else match tryDefault
      case Ok(value) => Some(value)
      case Err(_) => None
  }

  /** `Params::enrichment_builder`. */
  function BuilderOf(params: Config.Params, powercapFeature: bool, tryDefault: Result<PowerCapReader, string>)
    : (b: EnrichmentBuilder)
    ensures b.powercap.Some? <==> powercapFeature && !params.disablePowercap && tryDefault.Ok?
  {
    EnrichmentBuilder(if powercapFeature then CreatePowerCap(params, tryDefault) else None)
  }

  /** `EnrichmentBuilder::build` for both feature settings: one fresh
      power-counter stage without a baseline when the feature is on and a
      reader exists, no stage otherwise. */
  method Build(builder: EnrichmentBuilder, powercapFeature: bool) returns (stack: EnrichmentStack)
    ensures fresh(stack) && fresh(stack.Repr) && stack.Valid()
    ensures stack.States() == if powercapFeature && builder.powercap.Some? then [PowerCapState(None)] else []
    ensures NoBaseline(stack.States())
  {
    var result: seq<Stage> := [];
    if powercapFeature && builder.powercap.Some? {
      var e := new PowerCap.PowerCapEnricher.From();
      result := result + [PowerCapStage(e)];
    }
    stack := new EnrichmentStack(result);
  }
}
