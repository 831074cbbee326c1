/** `src/watcher.rs`, orchestrator side: the allow-list, the registry of
    watched containers, and the start/event handling that spawns at most one
    watcher per registry key. The Docker calls are inputs (the container
    listing and the event stream); spawning a watcher is recorded in the
    ghost history `spawned`. The run is sequential: one event at a time. */
module Watcher {
  import opened Wrappers
  import opened Text
  import Config
  import Enrichment

  /** The `names` allow-list built in `try_from`: the comma-separated pieces
      of `--containers` (no trimming), or empty — allow all — without it.
      An empty option string gives `{""}`, which is not empty. */
  function AllowList(containers: Option<string>): (names: set<string>)
    ensures containers.None? ==> names == {}
    ensures containers.Some? ==> forall n :: n in names <==> n in Split(containers.value, ',')
    ensures containers.Some? ==> names != {}
  {
    match containers
    case None => {}
    case Some(value) =>
      var pieces := Split(value, ',');
      assert pieces[0] in pieces;
      set n | n in pieces
  }

  /** Writing names separated by commas yields exactly those names. */
  lemma AllowListOfJoined(ns: seq<string>)
    requires |ns| >= 1
    requires forall i :: 0 <= i < |ns| ==> ',' !in ns[i]
    ensures AllowList(Some(Join(ns, ','))) == set n | n in ns
  {
    SplitJoin(ns, ',');
  }

  /** `--containers ""` admits only the empty name. */
  lemma EmptyOptionAdmitsOnlyEmptyName()
    ensures AllowList(Some("")) == {""}
  {
    assert Split("", ',') == [""];
  }

  datatype Actor = Actor(attributes: Option<map<string, string>>)
  datatype EventMessage = EventMessage(action: Option<string>, actor: Option<Actor>)

  /** `get_container_name`: the actor's "name" attribute, if every step of
      the chain is present. */
  function ContainerName(event: EventMessage): (r: Option<string>)
    ensures r.Some? <==> && event.actor.Some?
                         && event.actor.value.attributes.Some?
                         && "name" in event.actor.value.attributes.value
    ensures r.Some? ==> r.value == event.actor.value.attributes.value["name"]
  {
    match event.actor
    case None => None
    case Some(actor) =>
      match actor.attributes
      case None => None
      case Some(attrs) => if "name" in attrs then Some(attrs["name"]) else None
  }

  /** A container as `list_containers` reports it: its names, if any. */
  datatype ContainerSummary = ContainerSummary(names: Option<seq<string>>)

  function FirstName(c: ContainerSummary): Option<string>
  {
    if c.names.Some? && |c.names.value| > 0 then Some(c.names.value[0]) else None
  }

  /** The `filter_map` of `list_running`: each container's first name, in
      listing order, skipping containers without one. Names are taken as
      they are (the runtime reports them with a leading slash). */
  function RunningNames(list: seq<ContainerSummary>): (r: seq<string>)
    ensures |r| <= |list|
  {
    if list == [] then []
    else
      var rest := RunningNames(list[1..]);
      match FirstName(list[0])
      case None => rest
      case Some(n) => [n] + rest
  }

  /** The names are exactly the first names of the listed containers. */
  lemma {:induction false} RunningNamesMembers(list: seq<ContainerSummary>)
    ensures forall n :: n in RunningNames(list) <==> exists i :: 0 <= i < |list| && FirstName(list[i]) == Some(n)
  {
    if list != [] {
      RunningNamesMembers(list[1..]);
      assert forall i :: 0 < i < |list| ==> list[i] == list[1..][i - 1];
      forall n | n in RunningNames(list) ensures exists i :: 0 <= i < |list| && FirstName(list[i]) == Some(n) {
        if FirstName(list[0]) != Some(n) {
          var j :| 0 <= j < |list[1..]| && FirstName(list[1..][j]) == Some(n);
          assert FirstName(list[j + 1]) == Some(n);
        }
      }
      forall n | exists i :: 0 <= i < |list| && FirstName(list[i]) == Some(n) ensures n in RunningNames(list) {
        var i :| 0 <= i < |list| && FirstName(list[i]) == Some(n);
        if i > 0 {
          assert FirstName(list[1..][i - 1]) == Some(n);
        }
      }
    }
  }

  /** One container gives just its first name, if it has one. */
  lemma RunningNamesOne(c: ContainerSummary)
    ensures RunningNames([c]) == match FirstName(c) case None => [] case Some(n) => [n]
  {
    assert [c][1..] == [];
  }

  /** The listing's names keep listing order, one name at most per
      container: listing two runs of containers gives their names one after
      the other. */
  lemma {:induction false} RunningNamesConcat(a: seq<ContainerSummary>, b: seq<ContainerSummary>)
    ensures RunningNames(a + b) == RunningNames(a) + RunningNames(b)
    decreases |a|
  {
    if a == [] {
      assert a + b == b;
    } else {
      assert (a + b)[0] == a[0];
      assert (a + b)[1..] == a[1..] + b;
      RunningNamesConcat(a[1..], b);
    }
  }

  /** An item of the event stream: an event, or a stream error. */
  datatype EventItem = Event(message: EventMessage) | EventError

  /** The registry and the watcher history, as values. */
  datatype OrchState = OrchState(tasks: set<string>, poisoned: bool, spawned: seq<string>)

  /** How a call ends: `Ok(())`, `Err(_)`, or a panic. */
  datatype Exit = Completed | Failed | Panicked

  datatype Outcome = Outcome(exit: Exit, state: OrchState)

  /** `is_running`: a poisoned lock reads as "not running". */
  predicate Running(s: OrchState, name: string)
  {
    !s.poisoned && name in s.tasks
  }

  /** `handle_start_event` on values. */
  function StartStep(s: OrchState, name: string): (o: Outcome)
    ensures o.exit != Failed
    ensures o.state.poisoned == s.poisoned && s.tasks <= o.state.tasks
  {
    if Running(s, name) then Outcome(Completed, s)
    else if s.poisoned then Outcome(Panicked, s)  // `register_task`: "mutex is corrupted"
    else Outcome(Completed, s.(tasks := s.tasks + {name}, spawned := s.spawned + [name]))
  }

  /** `handle_event` on values: the allow-list, then the action. */
  function EventStep(allow: set<string>, s: OrchState, name: string, action: Option<string>): (o: Outcome)
    ensures o.exit != Failed
    ensures o.state.poisoned == s.poisoned && s.tasks <= o.state.tasks
  {
    if allow != {} && name !in allow then Outcome(Completed, s)
    else if action == Some("start") then StartStep(s, name)
    else Outcome(Completed, s)
  }

  /** The startup loop of `run`: every listed name straight to
      `handle_start_event`, stopping at a panic. */
  function StartupSteps(s: OrchState, names: seq<string>): (o: Outcome)
    ensures o.exit != Failed
    ensures o.state.poisoned == s.poisoned && s.tasks <= o.state.tasks
    decreases |names|
  {
    if names == [] then Outcome(Completed, s)
    else
      var o := StartStep(s, names[0]);
      if o.exit != Completed then o else StartupSteps(o.state, names[1..])
  }

  /** The event loop of `run`: up to the end of the stream or its first
      error; events without a name are skipped; an `Err` from
      `handle_event` would only be logged. */
  function EventSteps(allow: set<string>, s: OrchState, events: seq<EventItem>): (o: Outcome)
    ensures o.exit != Failed
    ensures o.state.poisoned == s.poisoned && s.tasks <= o.state.tasks
    decreases |events|
  {
    if events == [] || events[0].EventError? then Outcome(Completed, s)
    else match ContainerName(events[0].message)
      case None => EventSteps(allow, s, events[1..])
      case Some(name) =>
        var o := EventStep(allow, s, name, events[0].message.action);
        if o.exit == Panicked then o else EventSteps(allow, o.state, events[1..])
  }

  function AfterStartup(o: Outcome, allow: set<string>, events: seq<EventItem>): Outcome
  {
    if o.exit != Completed then o else EventSteps(allow, o.state, events)
  }

  /** `Orchestrator::run` on values, given what `list_running`'s Docker call returned. */
  function RunSteps(allow: set<string>, s: OrchState, listing: Result<seq<ContainerSummary>, string>,
                    events: seq<EventItem>): (o: Outcome)
    ensures o.exit == Failed <==> listing.Err?
    ensures o.state.poisoned == s.poisoned && s.tasks <= o.state.tasks
  {
    match listing
    case Err(_) => Outcome(Failed, s)
    case Ok(list) => AfterStartup(StartupSteps(s, RunningNames(list)), allow, events)
  }

  /** A start spawns exactly one watcher and registers the name when the
      name is not registered and the lock is sound; otherwise it spawns
      nothing and changes nothing. */
  lemma StartStepSpawnsOnce(s: OrchState, name: string)
    ensures var o := StartStep(s, name);
      && (name !in s.tasks && !s.poisoned ==>
            o == Outcome(Completed, OrchState(s.tasks + {name}, false, s.spawned + [name])))
      && (name in s.tasks || s.poisoned ==> o.state == s)
      && (o.exit == Panicked <==> s.poisoned)
  {
  }

  /** Only an admitted `Some("start")` for an unregistered name changes
      state; a name outside a non-empty allow-list, any other action, and
      `None` leave everything as it was and return `Ok`. */
  lemma EventStepEffect(allow: set<string>, s: OrchState, name: string, action: Option<string>)
    ensures var o := EventStep(allow, s, name, action);
      && (o.state != s <==> (allow == {} || name in allow) && action == Some("start") && name !in s.tasks && !s.poisoned)
      && (allow != {} && name !in allow ==> o == Outcome(Completed, s))
      && (action != Some("start") ==> o == Outcome(Completed, s))
      && ((allow == {} || name in allow) && action == Some("start") ==> (o.exit == Panicked <==> s.poisoned))
  {
  }

  /** No name was spawned twice, and every spawned watcher's name is registered. */
  ghost predicate Consistent(s: OrchState)
  {
    && (forall i :: 0 <= i < |s.spawned| ==> s.spawned[i] in s.tasks)
    && (forall i, j :: 0 <= i < j < |s.spawned| ==> s.spawned[i] != s.spawned[j])
  }

  /** What a step leaves of the old state: names stay registered, the
      history only grows, and the lock does not change. */
  ghost predicate Extends(s: OrchState, t: OrchState)
  {
    && s.tasks <= t.tasks
    && s.poisoned == t.poisoned
    && |s.spawned| <= |t.spawned| && t.spawned[..|s.spawned|] == s.spawned
  }

  lemma StartStepKeepsConsistent(s: OrchState, name: string)
    requires Consistent(s)
    ensures Consistent(StartStep(s, name).state) && Extends(s, StartStep(s, name).state)
  {
    var t := StartStep(s, name).state;
    if t != s {
      assert t.spawned == s.spawned + [name];
      assert t.spawned[..|s.spawned|] == s.spawned;
    }
  }

  lemma {:induction false} StartupKeepsConsistent(s: OrchState, names: seq<string>)
    requires Consistent(s)
    ensures Consistent(StartupSteps(s, names).state) && Extends(s, StartupSteps(s, names).state)
    decreases |names|
  {
    if names != [] {
      var o := StartStep(s, names[0]);
      StartStepKeepsConsistent(s, names[0]);
      if o.exit == Completed {
        StartupKeepsConsistent(o.state, names[1..]);
        ExtendsTransitive(s, o.state, StartupSteps(o.state, names[1..]).state);
      }
    }
  }

  lemma {:induction false} EventsKeepConsistent(allow: set<string>, s: OrchState, events: seq<EventItem>)
    requires Consistent(s)
    ensures Consistent(EventSteps(allow, s, events).state) && Extends(s, EventSteps(allow, s, events).state)
    decreases |events|
  {
    if events != [] && events[0].Event? {
      match ContainerName(events[0].message)
      case None =>
        EventsKeepConsistent(allow, s, events[1..]);
      case Some(name) =>
        var o := EventStep(allow, s, name, events[0].message.action);
        StartStepKeepsConsistent(s, name);
        if o.exit != Panicked {
          EventsKeepConsistent(allow, o.state, events[1..]);
          ExtendsTransitive(s, o.state, EventSteps(allow, o.state, events[1..]).state);
        }
    }
  }

  lemma ExtendsTransitive(s: OrchState, t: OrchState, u: OrchState)
    requires Extends(s, t) && Extends(t, u)
    ensures Extends(s, u)
  {
    assert u.spawned[..|t.spawned|][..|s.spawned|] == u.spawned[..|s.spawned|];
  }

  /** Over a whole sequential run — startup list and event stream — no
      watcher is spawned twice for one registry key, and every spawned
      watcher's key stays registered. */
  lemma RunKeepsConsistent(allow: set<string>, s: OrchState, listing: Result<seq<ContainerSummary>, string>,
                           events: seq<EventItem>)
    requires Consistent(s)
    ensures Consistent(RunSteps(allow, s, listing, events).state)
    ensures Extends(s, RunSteps(allow, s, listing, events).state)
  {
    if listing.Ok? {
      var o := StartupSteps(s, RunningNames(listing.value));
      StartupKeepsConsistent(s, RunningNames(listing.value));
      if o.exit == Completed {
        EventsKeepConsistent(allow, o.state, events);
        ExtendsTransitive(s, o.state, EventSteps(allow, o.state, events).state);
      }
    }
  }

  const Empty := OrchState({}, false, [])

  function StartEvent(name: string): EventItem
  {
    Event(EventMessage(Some("start"), Some(Actor(Some(map["name" := name])))))
  }

  function Listed(name: string): ContainerSummary
  {
    ContainerSummary(Some([name]))
  }

  /** Startup names skip the allow-list: with only "web" admitted, a running
      "/db" still gets a watcher, and a name listed twice gets one. */
  lemma StartupBypassesAllowList()
    ensures RunSteps({"web"}, Empty, Ok([Listed("/db"), Listed("/db")]), []).state.spawned == ["/db"]
  {
    assert RunningNames([Listed("/db"), Listed("/db")]) == ["/db", "/db"];
    var once := OrchState({"/db"}, false, ["/db"]);
    assert StartStep(Empty, "/db") == Outcome(Completed, once);
    assert StartStep(once, "/db") == Outcome(Completed, once);
    assert ["/db", "/db"][1..] == ["/db"];
    assert StartupSteps(once, ["/db"]) == Outcome(Completed, once);
  }

  /** Keys are compared verbatim: the runtime lists "/web", the start event
      names "web", and the one container gets two watchers. */
  lemma SlashedAndPlainNamesAreDistinctKeys()
    ensures RunSteps({}, Empty, Ok([Listed("/web")]), [StartEvent("web")]).state.spawned == ["/web", "web"]
  {
    assert RunningNames([Listed("/web")]) == ["/web"];
    var o := StartupSteps(Empty, ["/web"]);
    assert o == Outcome(Completed, OrchState({"/web"}, false, ["/web"]));
    assert ContainerName(StartEvent("web").message) == Some("web");
  }

  /** A start event for an already watched name spawns nothing more. */
  lemma RepeatedStartIsIgnored()
    ensures RunSteps({}, Empty, Ok([Listed("web")]), [StartEvent("web")]).state.spawned == ["web"]
  {
    assert RunningNames([Listed("web")]) == ["web"];
    assert ContainerName(StartEvent("web").message) == Some("web");
  }

  /** With the allow-list {"web"}, a start of "db" is ignored and a start of
      "web" spawns its watcher. */
  lemma AllowListFiltersEvents()
    ensures RunSteps({"web"}, Empty, Ok([]), [StartEvent("db"), StartEvent("web")]).state.spawned == ["web"]
  {
    assert RunningNames([]) == [];
    var events := [StartEvent("db"), StartEvent("web")];
    assert ContainerName(events[0].message) == Some("db");
    assert ContainerName(events[1].message) == Some("web");
    assert events[1..] == [StartEvent("web")];
  }

  /** The names spawned from position `from` of the history on. */
  ghost function Since(spawned: seq<string>, from: nat): set<string>
  {
    set k | from <= k < |spawned| :: spawned[k]
  }

  /** From `(s0, t0, w0)` to `(s, t, w)`: the history `s` extends `s0`, the
      live set `w` is `w0` plus the newly spawned names, and none of those
      was registered in `t0`, while the registry only grew. */
  ghost predicate Grown(s0: seq<string>, t0: set<string>, w0: set<string>,
                        s: seq<string>, t: set<string>, w: set<string>)
  {
    && |s0| <= |s| && s[..|s0|] == s0
    && t0 <= t
    && w == w0 + Since(s, |s0|)
    && (forall n :: n in Since(s, |s0|) ==> n !in t0)
  }

  /** One start or event step keeps `Grown`. */
  lemma GrowStep(s0: seq<string>, t0: set<string>, w0: set<string>,
                 pre: seq<string>, tPre: set<string>, wPre: set<string>,
                 s: seq<string>, t: set<string>, w: set<string>, name: string)
    requires Grown(s0, t0, w0, pre, tPre, wPre)
    requires tPre <= t
    requires s == pre ==> w == wPre
    requires s != pre ==> s == pre + [name] && name !in tPre && w == wPre + {name}
    ensures Grown(s0, t0, w0, s, t, w)
  {
    if s != pre {
      assert s[..|pre|] == pre;
      assert s[..|s0|] == pre[..|s0|];
      assert Since(s, |s0|) == Since(pre, |s0|) + {name} by {
        forall n | n in Since(s, |s0|) ensures n in Since(pre, |s0|) + {name} {
          var k :| |s0| <= k < |s| && s[k] == n;
          if k < |pre| { assert pre[k] == n; }
        }
        forall n | n in Since(pre, |s0|) ensures n in Since(s, |s0|) {
          var k :| |s0| <= k < |pre| && pre[k] == n;
          assert s[k] == n;
        }
        assert s[|pre|] == name;
      }
    }
  }

  /** `Arc<Mutex<HashSet<String>>>`: the registry of watched names, shared by
      the orchestrator and its watchers. A lock poisoned by a panic is
      `poisoned`. `watching` holds the names whose watcher task is alive. */
  class TaskRegistry {
    var tasks: set<string>
    var poisoned: bool
    ghost var watching: set<string>

    /** Every live watcher's name is registered. */
    ghost predicate Valid()
      reads this
    {
      watching <= tasks
    }

    constructor ()
      ensures tasks == {} && !poisoned && watching == {}
    {
      tasks := {};
      poisoned := false;
      watching := {};
    }
  }

  class Orchestrator {
    const names: set<string>
    const enrichment: Enrichment.EnrichmentBuilder
    const tasks: TaskRegistry
    ghost var spawned: seq<string>

    ghost predicate Valid()
      reads this, tasks
    {
      tasks.Valid()
    }

    ghost function State(): OrchState
      reads this, tasks
    {
      OrchState(tasks.tasks, tasks.poisoned, spawned)
    }

    /** `try_from`, past the Docker connection: the allow-list from
        `--containers`, the enrichment builder, an empty registry. */
    constructor TryFrom(params: Config.Params, powercapFeature: bool,
                        tryDefault: Result<Enrichment.PowerCapReader, string>)
      ensures Valid() && fresh(tasks)
      ensures names == AllowList(params.containers)
      ensures enrichment == Enrichment.BuilderOf(params, powercapFeature, tryDefault)
      ensures State() == Empty && tasks.watching == {}
    {
      names := AllowList(params.containers);
      enrichment := Enrichment.BuilderOf(params, powercapFeature, tryDefault);
      tasks := new TaskRegistry();
      spawned := [];
    }

    /** `is_running`. */
    method IsRunning(name: string) returns (running: bool)
      ensures running == Running(State(), name)
    {
      running := !tasks.poisoned && name in tasks.tasks;
    }

    /** `register_task`; `panicked` is the `expect` on a poisoned lock. */
    method RegisterTask(name: string) returns (panicked: bool)
      modifies tasks
      ensures panicked == tasks.poisoned && tasks.poisoned == old(tasks.poisoned)
      ensures tasks.tasks == if panicked then old(tasks.tasks) else old(tasks.tasks) + {name}
      ensures tasks.watching == old(tasks.watching)
    {
      panicked := tasks.poisoned;
      if !panicked {
        tasks.tasks := tasks.tasks + {name};
      }
    }

    /** `handle_start_event`: check, register, spawn. A watcher is spawned
        only for a name no live watcher has. */
    method HandleStartEvent(containerName: string) returns (exit: Exit)
      requires Valid()
      modifies this, tasks
      ensures Valid()
      ensures Outcome(exit, State()) == StartStep(old(State()), containerName)
      ensures |spawned| > |old(spawned)| ==> containerName !in old(tasks.tasks) && containerName !in old(tasks.watching)
      ensures tasks.watching == if |spawned| > |old(spawned)| then old(tasks.watching) + {containerName}
                                else old(tasks.watching)
    {
      var running := IsRunning(containerName);
      if running {
        return Completed;
      }
      var panicked := RegisterTask(containerName);
      if panicked {
        return Panicked;
      }
      spawned := spawned + [containerName];
      tasks.watching := tasks.watching + {containerName};
      exit := Completed;
    }

    /** `handle_event`. */
    method HandleEvent(containerName: string, action: Option<string>) returns (exit: Exit)
      requires Valid()
      modifies this, tasks
      ensures Valid()
      ensures Outcome(exit, State()) == EventStep(names, old(State()), containerName, action)
      ensures |spawned| > |old(spawned)| ==> containerName !in old(tasks.tasks) && containerName !in old(tasks.watching)
      ensures tasks.watching == if |spawned| > |old(spawned)| then old(tasks.watching) + {containerName}
                                else old(tasks.watching)
    {
      if names != {} && containerName !in names {
        return Completed;
      }
      if action == Some("start") {
        exit := HandleStartEvent(containerName);
      } else {
        exit := Completed;
      }
    }

    /** `run`: the startup list, then the event stream. Every watcher it
        spawns is live afterwards, and none was spawned for a name that was
        registered when the run began. */
    method Run(listing: Result<seq<ContainerSummary>, string>, events: seq<EventItem>) returns (exit: Exit)
      requires Valid()
      modifies this, tasks
      ensures Valid()
      ensures Outcome(exit, State()) == RunSteps(names, old(State()), listing, events)
      ensures |old(spawned)| <= |spawned| && spawned[..|old(spawned)|] == old(spawned)
      ensures tasks.watching == old(tasks.watching) + Since(spawned, |old(spawned)|)
      ensures forall n :: n in Since(spawned, |old(spawned)|) ==> n !in old(tasks.tasks)
    {
      if listing.Err? {
        return Failed;
      }
      var running := RunningNames(listing.value);
      var i := 0;
      while i < |running|
        invariant 0 <= i <= |running| && Valid()
        invariant RunSteps(names, old(State()), listing, events)
               == AfterStartup(StartupSteps(State(), running[i..]), names, events)
        invariant Grown(old(spawned), old(tasks.tasks), old(tasks.watching), spawned, tasks.tasks, tasks.watching)
      {
        ghost var pre, tPre, wPre := spawned, tasks.tasks, tasks.watching;
        exit := HandleStartEvent(running[i]);
        GrowStep(old(spawned), old(tasks.tasks), old(tasks.watching), pre, tPre, wPre, spawned, tasks.tasks, tasks.watching, running[i]);
        if exit != Completed {
          return;
        }
        assert running[i..][1..] == running[i + 1..];
        i := i + 1;
      }
      i := 0;
      while i < |events| && events[i].Event?
        invariant 0 <= i <= |events| && Valid()
        invariant RunSteps(names, old(State()), listing, events) == EventSteps(names, State(), events[i..])
        invariant Grown(old(spawned), old(tasks.tasks), old(tasks.watching), spawned, tasks.tasks, tasks.watching)
      {
        ghost var pre, tPre, wPre := spawned, tasks.tasks, tasks.watching;
        assert events[i..][1..] == events[i + 1..];
        var name := ContainerName(events[i].message);
        if name.Some? {
          exit := HandleEvent(name.value, events[i].message.action);
          GrowStep(old(spawned), old(tasks.tasks), old(tasks.watching), pre, tPre, wPre, spawned, tasks.tasks, tasks.watching, name.value);
          if exit == Panicked {
            return;
          }
        }
        i := i + 1;
      }
      exit := Completed;
    }
  }
}
