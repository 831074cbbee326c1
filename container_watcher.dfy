/** `src/watcher.rs`, watcher side: `ContainerWatcher::run`, the loop that
    re-attaches to a container's stats stream while the container is alive,
    forwards every enriched record, and finally tries to unregister itself.
    The Docker calls and the channel are a script: the liveness answers,
    what each attached stream delivers, and how each send ends. */
module ContainerWatch {
  import opened Wrappers
  import opened Model
  import Enrichment
  import PowerCap
  import Watcher

  /** A sample as received, with the energy-counter reading its
      enrichment takes and whether `tx.send` delivered it. */
  datatype Sample = Sample(stats: Stats, energy: Option<uint64>, sent: bool)

  /** What `stream.next()` yields; the stream's end is the end of the sequence. */
  datatype StatsItem = Received(sample: Sample) | StreamError

  /** The first `is_alive()` answer that is not `Ok(true)`: `Ok(false)`,
      or an error from the container listing. Every attach in the script was
      preceded by an `Ok(true)`; a run that never ends is not a script. */
  datatype Verdict = NotRunning | CheckFailed

  /** `run`'s result: `Ok(())`, or the liveness error propagated by `?`. */
  datatype WatchExit = Done | LivenessError

  /** `while let Some(Ok(stat))`: the samples up to the stream's end or its
      first error, in arrival order. */
  function TakeUntilError(stream: seq<StatsItem>): (r: seq<Sample>)
    ensures |r| <= |stream|
    ensures forall k :: 0 <= k < |r| ==> stream[k] == Received(r[k])
    ensures |r| < |stream| ==> stream[|r|].StreamError?
  {
    if stream == [] || stream[0].StreamError? then []
    else [stream[0].sample] + TakeUntilError(stream[1..])
  }

  /** The samples of all attaches, one attach after the other. */
  function Taken(attaches: seq<seq<StatsItem>>): (r: seq<Sample>)
    ensures |attaches| == 1 ==> r == TakeUntilError(attaches[0])
  {
    if attaches == [] then []
    else Taken(attaches[..|attaches| - 1]) + TakeUntilError(attaches[|attaches| - 1])
  }

  /** The enrichment stack's state after enriching `samples`. Nothing resets
      it between attaches. */
  function StatesAfter(init: seq<Enrichment.StageState>, samples: seq<Sample>): (r: seq<Enrichment.StageState>)
    ensures |r| == |init|
  {
    if samples == [] then init
    else Enrichment.AfterEnrich(StatesAfter(init, samples[..|samples| - 1]), samples[|samples| - 1].energy)
  }

  /** The records that reach the channel: every sample is converted and
      enriched; only those whose send succeeded are kept. */
  function Forwarded(init: seq<Enrichment.StageState>, samples: seq<Sample>): (r: seq<Record>)
    ensures |r| <= |samples|
  {
    if samples == [] then []
    else
      var prev := samples[..|samples| - 1];
      var x := samples[|samples| - 1];
      Forwarded(init, prev)
        + (if x.sent then [Enrichment.Apply(StatesAfter(init, prev), x.energy, FromStats(x.stats))] else [])
  }

  /** One more sample: its record is appended if its send succeeded. */
  lemma ForwardStep(init: seq<Enrichment.StageState>, xs: seq<Sample>, x: Sample)
    ensures StatesAfter(init, xs + [x]) == Enrichment.AfterEnrich(StatesAfter(init, xs), x.energy)
    ensures Forwarded(init, xs + [x]) == Forwarded(init, xs)
      + (if x.sent then [Enrichment.Apply(StatesAfter(init, xs), x.energy, FromStats(x.stats))] else [])
  {
    assert (xs + [x])[..|xs|] == xs;
  }

  /** A received item adds its sample in front of the rest of the stream's. */
  lemma TakeStep(stream: seq<StatsItem>, j: nat)
    requires j < |stream| && stream[j].Received?
    ensures TakeUntilError(stream[j..]) == [stream[j].sample] + TakeUntilError(stream[j + 1..])
  {
    assert stream[j..][1..] == stream[j + 1..];
  }

  /** The loop's bookkeeping of the stream's remaining samples moves past one received item. */
  lemma TakeMore(before: seq<Sample>, done: seq<Sample>, stream: seq<StatsItem>, j: nat)
    requires j < |stream| && stream[j].Received?
    requires done + TakeUntilError(stream[j..]) == before + TakeUntilError(stream)
    ensures (done + [stream[j].sample]) + TakeUntilError(stream[j + 1..]) == before + TakeUntilError(stream)
  {
    TakeStep(stream, j);
    assert done + ([stream[j].sample] + TakeUntilError(stream[j + 1..]))
      == (done + [stream[j].sample]) + TakeUntilError(stream[j + 1..]);
  }

  /** Enriching and (maybe) sending one sample keeps the loop's records and
      stage states equal to their specifications. */
  lemma ForwardMore(init: seq<Enrichment.StageState>, done: seq<Sample>, x: Sample,
                    prev: seq<Record>, next: seq<Record>,
                    st: seq<Enrichment.StageState>, st': seq<Enrichment.StageState>, snap: Record)
    requires prev == Forwarded(init, done) && st == StatesAfter(init, done)
    requires snap == Enrichment.Apply(st, x.energy, FromStats(x.stats))
    requires st' == Enrichment.AfterEnrich(st, x.energy)
    requires next == if x.sent then prev + [snap] else prev
    ensures next == Forwarded(init, done + [x])
    ensures st' == StatesAfter(init, done + [x])
  {
    ForwardStep(init, done, x);
  }

  /** One more attach contributes its samples up to its first error. */
  lemma TakenStep(attaches: seq<seq<StatsItem>>, i: nat)
    requires i < |attaches|
    ensures Taken(attaches[..i + 1]) == Taken(attaches[..i]) + TakeUntilError(attaches[i])
  {
    assert attaches[..i + 1][..i] == attaches[..i];
  }

  /** The samples whose send succeeded, in order. */
  function Delivered(samples: seq<Sample>): (r: seq<Sample>)
    ensures |r| <= |samples|
  {
    if samples == [] then []
    else
      var x := samples[|samples| - 1];
      var prev := samples[..|samples| - 1];
      assert samples == prev + [x];
      Delivered(prev) + (if x.sent then [x] else [])
  }

  /** A single sample is delivered exactly when its send succeeded. */
  lemma DeliveredOne(x: Sample)
    ensures Delivered([x]) == if x.sent then [x] else []
  {
    assert [x][..0] == [];
  }

  /** The delivered samples are exactly the samples whose send succeeded. */
  lemma {:induction false} DeliveredMembers(samples: seq<Sample>)
    ensures forall x :: x in Delivered(samples) <==> x in samples && x.sent
  {
    if samples != [] {
      var prev := samples[..|samples| - 1];
      assert samples == prev + [samples[|samples| - 1]];
      DeliveredMembers(prev);
    }
  }

  /** Delivery keeps the order of arrival: the delivered samples of two
      runs of samples, one after the other, are theirs one after the other. */
  lemma {:induction false} DeliveredConcat(a: seq<Sample>, b: seq<Sample>)
    ensures Delivered(a + b) == Delivered(a) + Delivered(b)
    decreases |b|
  {
    if b == [] {
      assert a + b == a;
    } else {
      var b' := b[..|b| - 1];
      assert (a + b)[..|a + b| - 1] == a + b';
      DeliveredConcat(a, b');
      assert b[..|b| - 1] == b';
      assert Delivered(a + b) == Delivered(a + b') + (if b[|b| - 1].sent then [b[|b| - 1]] else []);
    }
  }

  /** Forwarding keeps arrival order, drops exactly the failed sends and
      never duplicates: the k-th forwarded record is, but for the energy,
      `Record::from` of the k-th delivered sample. */
  lemma {:induction false} ForwardedInOrder(init: seq<Enrichment.StageState>, samples: seq<Sample>)
    ensures |Forwarded(init, samples)| == |Delivered(samples)|
    ensures forall k :: 0 <= k < |Delivered(samples)| ==>
      Forwarded(init, samples)[k].(cpuEnergy := None) == FromStats(Delivered(samples)[k].stats)
  {
    if samples != [] {
      var prev := samples[..|samples| - 1];
      var x := samples[|samples| - 1];
      ForwardedInOrder(init, prev);
      if x.sent {
        var r := Enrichment.Apply(StatesAfter(init, prev), x.energy, FromStats(x.stats));
        assert r.(cpuEnergy := None) == FromStats(x.stats);
      }
    }
  }

  /** Two attaches that each deliver one sample and then end. */
  lemma TakenOfTwoAttaches(a: Sample, b: Sample)
    ensures Taken([[Received(a)], [Received(b)]]) == [a] + [b]
  {
    var attaches := [[Received(a)], [Received(b)]];
    assert TakeUntilError([Received(a)][1..]) == [] && TakeUntilError([Received(b)][1..]) == [];
    TakenStep(attaches, 0);
    TakenStep(attaches, 1);
    assert attaches[..0] == [] && attaches[..2] == attaches;
  }

  /** A first sent sample on a fresh power-counter stage: its record gets
      no energy, and its reading becomes the baseline. */
  lemma ForwardedFirstReading(a: Sample)
    requires a.sent
    ensures Forwarded([Enrichment.PowerCapState(None)], [a]) == [FromStats(a.stats)]
    ensures StatesAfter([Enrichment.PowerCapState(None)], [a]) == [Enrichment.PowerCapState(a.energy)]
  {
    var init := [Enrichment.PowerCapState(None)];
    ForwardStep(init, [], a);
    assert [] + [a] == [a];
    Enrichment.ApplyOne(Enrichment.PowerCapState(None), a.energy, FromStats(a.stats));
  }

  /** Two sent samples on a fresh power-counter stage: the first record gets
      no energy, the second the energy of the counter difference. */
  lemma ForwardedTwoReadings(stats: Stats, first: uint64, second: uint64)
    requires first <= second
    ensures var r := FromStats(stats);
      Forwarded([Enrichment.PowerCapState(None)], [Sample(stats, Some(first), true)] + [Sample(stats, Some(second), true)])
        == [r, r.(cpuEnergy := Some(Product(r.cpuPercent, second - first)))]
  {
    var a := Sample(stats, Some(first), true);
    var b := Sample(stats, Some(second), true);
    var init := [Enrichment.PowerCapState(None)];
    var r := FromStats(stats);
    ForwardedFirstReading(a);
    ForwardStep(init, [a], b);
    Enrichment.ApplyOne(Enrichment.PowerCapState(Some(first)), b.energy, r);
    PowerCap.OutputOrdered(first, second, r);
  }

  /** The enrichment state is not reset on a reconnect: counter readings
      1000 and 1500 taken in two different attaches still give the second
      record the energy of their difference. */
  lemma EnergySpansReconnect(stats: Stats)
    ensures var attaches := [[Received(Sample(stats, Some(1000), true))],
                             [Received(Sample(stats, Some(1500), true))]];
      Forwarded([Enrichment.PowerCapState(None)], Taken(attaches))
        == [FromStats(stats), FromStats(stats).(cpuEnergy := Some(Product(FromStats(stats).cpuPercent, 500)))]
  {
    TakenOfTwoAttaches(Sample(stats, Some(1000), true), Sample(stats, Some(1500), true));
    ForwardedTwoReadings(stats, 1000, 1500);
  }

  class ContainerWatcher {
    const name: string
    const enrichers: Enrichment.EnrichmentStack

    /** The watcher `ContainerWatcher::execute` builds before running it. */
    constructor (name: string, enrichers: Enrichment.EnrichmentStack)
      ensures this.name == name && this.enrichers == enrichers
    {
      this.name := name;
      this.enrichers := enrichers;
    }

    /** One attach: the `while let Some(Ok(stat))` loop, which converts,
        enriches and sends each sample, and ends at the stream's end or its
        first error. `before` are the samples of the earlier attaches. */
    method ForwardStream(stream: seq<StatsItem>, ghost init: seq<Enrichment.StageState>,
                         ghost before: seq<Sample>, forwardedSoFar: seq<Record>)
      returns (forwarded: seq<Record>)
      requires enrichers.Valid()
      requires forwardedSoFar == Forwarded(init, before) && enrichers.States() == StatesAfter(init, before)
      modifies enrichers.Repr
      ensures forwarded == Forwarded(init, before + TakeUntilError(stream))
      ensures enrichers.States() == StatesAfter(init, before + TakeUntilError(stream))
    {
      forwarded := forwardedSoFar;
      ghost var done := before;
      var j := 0;
      while j < |stream| && stream[j].Received?
        invariant 0 <= j <= |stream|
        invariant done + TakeUntilError(stream[j..]) == before + TakeUntilError(stream)
        invariant forwarded == Forwarded(init, done)
        invariant enrichers.States() == StatesAfter(init, done)
      {
        var sample := stream[j].sample;
        var snap := FromStats(sample.stats);
        ghost var st := enrichers.States();
        snap := enrichers.Enrich(snap, sample.energy);
        ghost var prev := forwarded;
        if sample.sent {
          forwarded := forwarded + [snap];
        }
        // a failed send is only logged: the record is dropped
        TakeMore(before, done, stream, j);
        ForwardMore(init, done, sample, prev, forwarded, st, enrichers.States(), snap);
        done := done + [sample];
        j := j + 1;
      }
      assert TakeUntilError(stream[j..]) == [];
      assert done == before + TakeUntilError(stream);
    }

    /** `run`. Records go out in arrival order, each stream up to its first
        error, failed sends dropped. On a liveness error it returns before
        touching the registry, so the name stays registered. Otherwise the
        name is removed if `try_lock` succeeds — it fails when the lock is
        busy (`lockBusy`) or poisoned — and nothing else in the registry
        changes. Either way this watcher is no longer alive. */
    method Run(register: Watcher.TaskRegistry, attaches: seq<seq<StatsItem>>, verdict: Verdict, lockBusy: bool)
      returns (exit: WatchExit, forwarded: seq<Record>)
      requires enrichers.Valid() && register.Valid() && name in register.watching
      modifies enrichers.Repr, register
      ensures register.Valid()
      ensures forwarded == Forwarded(old(enrichers.States()), Taken(attaches))
      ensures enrichers.States() == StatesAfter(old(enrichers.States()), Taken(attaches))
      ensures exit == (if verdict == CheckFailed then LivenessError else Done)
      ensures register.tasks == if verdict == NotRunning && !lockBusy && !old(register.poisoned)
                                then old(register.tasks) - {name} else old(register.tasks)
      ensures register.poisoned == old(register.poisoned)
      ensures register.watching == old(register.watching) - {name}
    {
      ghost var init := enrichers.States();
      ghost var taken: seq<Sample> := [];
      forwarded := [];
      var i := 0;
      while i < |attaches|
        invariant 0 <= i <= |attaches|
        invariant taken == Taken(attaches[..i])
        invariant forwarded == Forwarded(init, taken)
        invariant enrichers.States() == StatesAfter(init, taken)
        modifies enrichers.Repr
      {
        forwarded := ForwardStream(attaches[i], init, taken, forwarded);
        TakenStep(attaches, i);
        taken := taken + TakeUntilError(attaches[i]);
        i := i + 1;
      }
      assert attaches[..|attaches|] == attaches;
      if verdict == CheckFailed {
        register.watching := register.watching - {name};
        return LivenessError, forwarded;
      }
      if !lockBusy && !register.poisoned {
        register.tasks := register.tasks - {name};
      }
      register.watching := register.watching - {name};
      exit := Done;
    }
  }
}
