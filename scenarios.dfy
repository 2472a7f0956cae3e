/**
 * Two end-to-end uses of the library (spec/connector-spec.js): Api1 and
 * Api2 wired by Api1's connect-command, and the number of calls an emit
 * of Api2's `error` event makes at each stage. Api2's own connect-command
 * is not part of this model and is given as a command that subscribes
 * nothing.
 */
module Scenarios {
  import opened Wrappers
  import opened EventApi
  import opened Commands
  import opened Connect
  import Api1ConnectCommand

  /** The callback standing for `api1.onErrorFromApi2`. */
  const OnErrorFromApi2: Callback := Callback(1)
  /** `api2.events.error` and `api1.events.click`. */
  const ErrorEvent: Event := "1"
  const ClickEvent: Event := "1"

  /** A distinct log drawn from `s` is no longer than `s` is large. */
  lemma {:induction false} DistinctBound(log: seq<string>, s: set<string>)
    requires Distinct(log) && forall i :: 0 <= i < |log| ==> log[i] in s
    ensures |log| <= |s|
  {
    if log != [] {
      var last := log[|log| - 1];
      var rest := log[..|log| - 1];
      assert forall i :: 0 <= i < |rest| ==> rest[i] in s - {last} by {
        forall i | 0 <= i < |rest| ensures rest[i] in s - {last} {
          assert rest[i] == log[i] && log[i] != log[|log| - 1];
        }
      }
      DistinctBound(rest, s - {last});
    }
  }

  /** A distinct log drawn from a single subject holds it at most once. */
  lemma AtMostOnce(log: seq<string>, x: string)
    requires Distinct(log) && forall k :: k in log ==> k == x
    ensures log == [] || log == [x]
  {
    assert forall i :: 0 <= i < |log| ==> log[i] in log;
    DistinctBound(log, {x});
    if log != [] {
      assert log == [log[0]];
    }
  }

  /** A log enumerating two distinct subjects lists them in one of two orders. */
  lemma TwoOrders(log: seq<string>, a: string, b: string)
    requires a != b && Enumerates(log, {a, b})
    ensures log == [a, b] || log == [b, a]
  {
    DistinctBound(log, {a, b});
    assert a in log && b in log;
    var i :| 0 <= i < |log| && log[i] == a;
    var j :| 0 <= j < |log| && log[j] == b;
    assert |log| == 2;
    if i == 0 {
      assert log == [a, b];
    } else {
      assert log == [b, a];
    }
  }

  /** `api1`'s events and members, and `api2`'s events. */
  const Api1Events: map<string, Event> := map["click" := ClickEvent]
  const Api1Members: map<string, Member> := map["onErrorFromApi2" := Method(OnErrorFromApi2)]
  const Api2Events: map<string, Event> := map["error" := ErrorEvent]
  const Api2Members: map<string, Member> := map["onClickFromApi1" := Method(Callback(2))]

  /** The record Api1's connect-command puts in Api2's `error` list. */
  const Api1Handler: Record := Record("Api1", OnErrorFromApi2)

  /** The two connect-commands of the scenarios: Api1's, then Api2's. */
  function ConnectCommands(): (cmds: seq<Command>)
    ensures |cmds| == 2 && cmds[0] == Api1ConnectCommand.Metadata()
  {
    [Api1ConnectCommand.Metadata(), Command(Some("Api2"), ["Api1"], Inert)]
  }

  /** The command index the connector builds from `ConnectCommands()`. */
  function CommandIndex(): (index: map<string, Command>)
    ensures IndexCommands(ConnectCommands()) == Ok(index)
  {
    var cmds := ConnectCommands();
    assert IndexCommands(cmds[..1]) == Ok(map["Api1" := cmds[0]]);
    map["Api1" := cmds[0], "Api2" := cmds[1]]
  }

  /** `registry` holds Api1 and Api2 as the scenarios build them. */
  predicate Wired(registry: Registry) {
    && "Api1" in registry && registry["Api1"].name == "Api1"
    && registry["Api1"].events == Api1Events && registry["Api1"].members == Api1Members
    && "Api2" in registry && registry["Api2"].name == "Api2"
    && registry["Api2"].events == Api2Events && registry["Api2"].members == Api2Members
  }

  /** `registry` holds exactly `api1` under "Api1" and `api2` under "Api2". */
  predicate Holds(registry: Registry, api1: Api, api2: Api) {
    registry.Keys == {"Api1", "Api2"} && registry["Api1"] == api1 && registry["Api2"] == api2
  }

  /** With both APIs loaded, Api1's command subscribes its handler to a table of Api2 without it. */
  lemma Api1CommandRun(registry: Registry, tables: Tables)
    requires Wired(registry) && (TableAt(tables, "Api2") == None || TableAt(tables, "Api2") == Some(map[ErrorEvent := []]))
    ensures Step(CommandIndex()["Api1"], registry, tables) ==
            Progress(tables["Api2" := Some(map[ErrorEvent := [Api1Handler]])], None)
  {
    var t := TableAt(tables, "Api2");
    assert ListOf(t, ErrorEvent) == [] && !HasCallback([], OnErrorFromApi2);
    assert [] + [Api1Handler] == [Api1Handler];
    assert Entries(t)[ErrorEvent := [Api1Handler]] == map[ErrorEvent := [Api1Handler]];
    assert Subscribed(t, ErrorEvent, Api1Handler) == map[ErrorEvent := [Api1Handler]];
  }

  /** The connector's first runs, in either order, subscribe Api1's handler to Api2's errors. */
  lemma InitialRuns(log: seq<string>, registry: Registry, t0: Tables)
    requires Wired(registry) && (log == ["Api1", "Api2"] || log == ["Api2", "Api1"])
    requires TableAt(t0, "Api2") == None
    ensures RunAll(log, CommandIndex(), registry, t0) ==
            Progress(t0["Api2" := Some(map[ErrorEvent := [Api1Handler]])], None)
  {
    Api1CommandRun(registry, t0);
    var first, second := log[0], log[1];
    RunAllStep([], first, CommandIndex(), registry, t0);
    assert [] + [first] == [first];
    RunAllStep([first], second, CommandIndex(), registry, t0);
    assert [first] + [second] == log;
  }

  /** Reloading Api1 runs its command, then perhaps Api2's, and resubscribes the handler. */
  lemma ReloadRuns(propagated: seq<string>, before: Registry, registry: Registry, api1: Api, api2: Api, t0: Tables, p: Progress)
    requires before.Keys == {"Api2"} && before["Api2"] == api2 && registry == before["Api1" := api1]
    requires Wired(map["Api1" := api1, "Api2" := api2])
    requires Distinct(propagated) && forall k :: k in propagated ==> k in Propagation(CommandIndex(), registry, "Api1")
    requires TableAt(t0, "Api2") == Some(map[ErrorEvent := []])
    requires RunAll(OwnRun(CommandIndex(), "Api1") + propagated, CommandIndex(), registry, t0) == p
    ensures p == Progress(t0["Api2" := Some(map[ErrorEvent := [Api1Handler]])], None)
    ensures "Api2" in registry && registry["Api2"] == api2
  {
    assert "Api1" != "Api2";
    assert Holds(registry, api1, api2) && Wired(registry);
    Api1Propagates(registry);
    AtMostOnce(propagated, "Api2");
    Api1CommandRun(registry, t0);
    RunAllStep([], "Api1", CommandIndex(), registry, t0);
    assert [] + ["Api1"] == ["Api1"];
    if propagated != [] {
      RunAllStep(["Api1"], "Api2", CommandIndex(), registry, t0);
    } else {
      assert ["Api1"] + propagated == ["Api1"];
    }
  }

  /** The registry the connector builds from `[api1, api2]`. */
  lemma InitialRegistry(api1: Api, api2: Api)
    requires api1.name == "Api1" && api2.name == "Api2"
    ensures IndexApis([api1, api2]) == Ok(map["Api1" := api1, "Api2" := api2])
    ensures Holds(map["Api1" := api1, "Api2" := api2], api1, api2)
  {
    var apis := [api1, api2];
    assert "Api1" != "Api2";
    assert apis[..1] == [api1] && [api1][..0] == [];
    assert IndexApis([api1]) == Ok(map["Api1" := api1]);
  }

  /**
   * Whatever order the connector picks, its first runs succeed and leave
   * Api1's handler in Api2's error list.
   */
  lemma InitialOutcome(log: seq<string>, registry: Registry, t0: Tables, p: Progress)
    requires Wired(registry) && registry.Keys == {"Api1", "Api2"} && TableAt(t0, "Api2") == None
    requires p.failure.None? ==> Enumerates(log, registry.Keys * CommandIndex().Keys)
    requires RunAll(log, CommandIndex(), registry, t0) == p
    ensures p == Progress(t0["Api2" := Some(map[ErrorEvent := [Api1Handler]])], None)
  {
    assert Api1ConnectCommand.RunSpec(Some(registry), t0).Ok?;
    assert forall t :: Api1ConnectCommand.RunSpec(Some(registry), t).Ok?;
    RunAllNeverFails(log, CommandIndex(), registry, t0);
    assert registry.Keys * CommandIndex().Keys == {"Api1", "Api2"};
    TwoOrders(log, "Api1", "Api2");
    InitialRuns(log, registry, t0);
  }

  /**
   * Builds a connector that loads `api1` and `api2`, neither subscribed
   * to yet: afterwards Api2's error list holds Api1's handler, once.
   */
  method Start(api1: Api, api2: Api) returns (connector: Connector)
    requires Wired(map["Api1" := api1, "Api2" := api2])
    requires api1.subscribers == None && api2.subscribers == None
    modifies api1, api2
    ensures fresh(connector)
    ensures connector.Valid() && connector.commands == CommandIndex()
    ensures Holds(connector.registry, api1, api2)
    ensures api1.subscribers == None && api2.subscribers == Some(map[ErrorEvent := [Api1Handler]])
  {
    InitialRegistry(api1, api2);
    ghost var registry := map["Api1" := api1, "Api2" := api2];
    ghost var t0 := TablesOf(registry);
    assert t0["Api2"] == None;
    var created, log := Connector.Create(Some(ConnectCommands()), [api1, api2]);
    ghost var after := TablesOf(registry);
    InitialOutcome(log, registry, t0, Progress(after, if created.Ok? then None else Some(created.error)));
    connector := created.value;
    assert after["Api2"] == api2.subscribers && after["Api1"] == api1.subscribers;
  }

  /** Scrubbing Api1 from Api2's table empties its error list. */
  lemma ScrubOnce()
    ensures Scrub(Some(map[ErrorEvent := [Api1Handler]]), "Api1") == Some(map[ErrorEvent := []])
  {
    var m := map[ErrorEvent := [Api1Handler]];
    var r := Scrub(Some(m), "Api1").value;
    assert Without([Api1Handler], "Api1") == [];
    assert r.Keys == {ErrorEvent} && r[ErrorEvent] == [];
    assert r == map[ErrorEvent := []];
  }

  /** Loading Api1 beside Api2 re-runs Api2's command, which names Api1 as an object. */
  lemma Api1Propagates(registry: Registry)
    requires registry.Keys == {"Api1", "Api2"}
    ensures Propagation(CommandIndex(), registry, "Api1") == {"Api2"}
  {
    assert "Api2" in Propagation(CommandIndex(), registry, "Api1");
  }

  /** Unloads Api1 from the connector `Start` built: Api2's error list is left empty. */
  method UnloadApi1(connector: Connector, api1: Api, api2: Api)
    requires connector.Valid() && Holds(connector.registry, api1, api2)
    requires api1.subscribers == None && api2.subscribers == Some(map[ErrorEvent := [Api1Handler]])
    modifies connector, api1, api2
    ensures connector.Valid() && connector.registry.Keys == {"Api2"} && connector.registry["Api2"] == api2
    ensures api1.subscribers == None && api2.subscribers == Some(map[ErrorEvent := []])
  {
    assert "Api1" != "Api2";
    ghost var registry := connector.registry;
    ghost var t0 := TablesOf(registry);
    var unloaded := connector.UnloadApi(Some("Api1"));
    ScrubOnce();
    assert TablesOf(registry)["Api2"] == api2.subscribers;
    assert TablesOf(registry)["Api1"] == api1.subscribers;
  }

  /** Loads Api1 again: its command, run once more, resubscribes its handler to Api2's errors. */
  method ReloadApi1(connector: Connector, api1: Api, api2: Api)
    requires connector.Valid() && connector.commands == CommandIndex()
    requires connector.registry.Keys == {"Api2"} && connector.registry["Api2"] == api2
    requires Wired(map["Api1" := api1, "Api2" := api2])
    requires api1.subscribers == None && api2.subscribers == Some(map[ErrorEvent := []])
    modifies connector, api1, api2
    ensures api2.subscribers == Some(map[ErrorEvent := [Api1Handler]])
  {
    ghost var before := connector.registry;
    ghost var t := TablesOf(before["Api1" := api1]);
    assert t["Api2"] == api2.subscribers;
    var loaded, propagated := connector.LoadApi(api1);
    ghost var after := TablesOf(connector.registry);
    ReloadRuns(propagated, before, connector.registry, api1, api2, t, Progress(after, if loaded.Pass? then None else Some(loaded.error)));
    assert after["Api2"] == api2.subscribers;
  }

  /**
   * Loads Api1 and Api2 together, unloads Api1, then loads it again,
   * counting the calls an emit of Api2's `error` event makes after each
   * step: Api1's handler is called once, then not at all, then once again.
   */
  method UnloadReloadScenario() returns (before: nat, afterUnload: nat, afterReload: nat)
    ensures before == 1 && afterUnload == 0 && afterReload == 1
  {
    var api1 := new Api("Api1", Api1Events, Api1Members);
    var api2 := new Api("Api2", Api2Events, Api2Members);
    var connector := Start(api1, api2);
    var calls := api2.Emit<int>(Some(ErrorEvent), []);
    before := |calls.value|;
    UnloadApi1(connector, api1, api2);
    calls := api2.Emit<int>(Some(ErrorEvent), []);
    afterUnload := |calls.value|;
    ReloadApi1(connector, api1, api2);
    calls := api2.Emit<int>(Some(ErrorEvent), []);
    afterReload := |calls.value|;
  }

  /** With only Api1 loaded, the connector's first run, Api1's command, changes nothing. */
  lemma LazyInitialOutcome(log: seq<string>, registry: Registry, t0: Tables, p: Progress)
    requires registry.Keys == {"Api1"}
    requires p.failure.None? ==> Enumerates(log, registry.Keys * CommandIndex().Keys)
    requires forall k :: k in log ==> k in registry
    requires RunAll(log, CommandIndex(), registry, t0) == p
    ensures p == Progress(t0, None)
  {
    assert forall t :: Api1ConnectCommand.RunSpec(Some(registry), t) == Ok(t);
    RunAllNeverFails(log, CommandIndex(), registry, t0);
    assert registry.Keys * CommandIndex().Keys == {"Api1"};
    AtMostOnce(log, "Api1");
    if log != [] {
      RunAllStep([], "Api1", CommandIndex(), registry, t0);
      assert [] + ["Api1"] == log;
    }
  }

  /** Loading Api2 later runs its own command, then Api1's, which subscribes Api1's handler. */
  lemma LazyLoadRuns(propagated: seq<string>, before: Registry, registry: Registry, api1: Api, api2: Api, t: Tables, p: Progress)
    requires before.Keys == {"Api1"} && before["Api1"] == api1 && registry == before["Api2" := api2]
    requires Wired(map["Api1" := api1, "Api2" := api2]) && TableAt(t, "Api2") == None
    requires Distinct(propagated) && forall k :: k in propagated ==> k in Propagation(CommandIndex(), registry, "Api2")
    requires p.failure.None? ==> Enumerates(propagated, Propagation(CommandIndex(), registry, "Api2"))
    requires RunAll(OwnRun(CommandIndex(), "Api2") + propagated, CommandIndex(), registry, t) == p
    ensures p == Progress(t["Api2" := Some(map[ErrorEvent := [Api1Handler]])], None)
    ensures "Api2" in registry && registry["Api2"] == api2
  {
    assert "Api1" != "Api2";
    assert Holds(registry, api1, api2) && Wired(registry);
    Api2Propagates(registry);
    LazyLoadSteps(propagated, registry, t, p);
  }

  /** The runs of `LazyLoadRuns`, on the registry holding both APIs. */
  lemma LazyLoadSteps(propagated: seq<string>, registry: Registry, t: Tables, p: Progress)
    requires Wired(registry) && TableAt(t, "Api2") == None
    requires Distinct(propagated) && forall k :: k in propagated ==> k == "Api1"
    requires p.failure.None? ==> Enumerates(propagated, {"Api1"})
    requires RunAll(["Api2"] + propagated, CommandIndex(), registry, t) == p
    ensures p == Progress(t["Api2" := Some(map[ErrorEvent := [Api1Handler]])], None)
  {
    assert forall u :: Api1ConnectCommand.RunSpec(Some(registry), u).Ok?;
    RunAllNeverFails(["Api2"] + propagated, CommandIndex(), registry, t);
    AtMostOnce(propagated, "Api1");
    assert "Api1" in propagated;
    Api1CommandRun(registry, t);
    RunAllStep([], "Api2", CommandIndex(), registry, t);
    assert [] + ["Api2"] == ["Api2"];
    RunAllStep(["Api2"], "Api1", CommandIndex(), registry, t);
  }

  /** Builds Api1 and a connector that loads only Api1. */
  method LazyStart() returns (api1: Api, connector: Connector)
    ensures fresh(api1) && fresh(connector)
    ensures connector.Valid() && connector.commands == CommandIndex()
    ensures connector.registry.Keys == {"Api1"} && connector.registry["Api1"] == api1
    ensures api1.name == "Api1" && api1.events == Api1Events && api1.members == Api1Members
  {
    api1 := new Api("Api1", Api1Events, Api1Members);
    assert [api1][..0] == [];
    assert IndexApis([api1]) == Ok(map["Api1" := api1]);
    ghost var registry := map["Api1" := api1];
    ghost var t0 := TablesOf(registry);
    var created, log := Connector.Create(Some(ConnectCommands()), [api1]);
    LazyInitialOutcome(log, registry, t0, Progress(TablesOf(registry), if created.Ok? then None else Some(created.error)));
    connector := created.value;
  }

  /** Loading Api2 beside Api1 re-runs Api1's command, which names Api2 as an object. */
  lemma Api2Propagates(registry: Registry)
    requires registry.Keys == {"Api1", "Api2"}
    ensures Propagation(CommandIndex(), registry, "Api2") == {"Api1"}
  {
    assert "Api1" in Propagation(CommandIndex(), registry, "Api2");
  }

  /** Loads Api2 into the connector `LazyStart` built: Api2's error list then holds Api1's handler. */
  method LazyLoadApi2(connector: Connector, api1: Api, api2: Api)
    requires connector.Valid() && connector.commands == CommandIndex()
    requires connector.registry.Keys == {"Api1"} && connector.registry["Api1"] == api1
    requires Wired(map["Api1" := api1, "Api2" := api2]) && api2.subscribers == None
    modifies connector, connector.registry.Values, api2
    ensures api2.subscribers == Some(map[ErrorEvent := [Api1Handler]])
  {
    ghost var before := connector.registry;
    ghost var t := TablesOf(before["Api2" := api2]);
    assert t["Api2"] == None;
    var loaded, propagated := connector.LoadApi(api2);
    ghost var after := TablesOf(connector.registry);
    LazyLoadRuns(propagated, before, connector.registry, api1, api2, t, Progress(after, if loaded.Pass? then None else Some(loaded.error)));
    assert after["Api2"] == api2.subscribers;
  }

  /**
   * Loads Api1 alone, then Api2 later: an emit of Api2's `error` event
   * then calls Api1's handler once.
   */
  method LazyLoadingScenario() returns (calls: nat)
    ensures calls == 1
  {
    var api1, connector := LazyStart();
    var api2 := new Api("Api2", Api2Events, Api2Members);
    LazyLoadApi2(connector, api1, api2);
    var trace := api2.Emit<int>(Some(ErrorEvent), []);
    calls := |trace.value|;
  }
}
