/**
 * The connector (src/connector.js): it owns the command index (subject name
 * to command) and the registry (name to API), runs the commands whose
 * subject is loaded when it is built, runs and re-runs commands when an API
 * is loaded, and scrubs an API's subscriptions when it is unloaded.
 *
 * Keys are visited in an order the model leaves open; the methods that run
 * commands return, as a ghost result, the subjects of the commands they ran,
 * in order, and state the tables reached as a fold (`RunAll`) over that list.
 */
module Connect {
  import opened Wrappers
  import opened Errors
  import opened EventApi
  import opened Commands
  import Api1ConnectCommand

  /** The tables reached by a sequence of runs, and the error that stopped it, if any. */
  datatype Progress = Progress(tables: Tables, failure: Option<Error>)

  /**
   * What `cmd.run(registry)` does to the subscriber tables: only Api2's
   * table can change, and valid tables stay valid.
   */
  function RunEffect(cmd: Command, registry: Registry, tables: Tables): (r: Result<Tables, Error>)
    ensures r.Ok? && AllValid(tables) ==> AllValid(r.value)
  {
    match cmd.kind
    case Inert => Ok(tables)
    case Api1Connect =>
      var r := Api1ConnectCommand.RunSpec(Some(registry), tables);
      if r.Ok? && AllValid(tables) && Api1ConnectCommand.ObjectApiName in registry then
        SubscribedKeepsValid(TableAt(tables, Api1ConnectCommand.ObjectApiName),
          Api1ConnectCommand.ErrorEvent(registry[Api1ConnectCommand.ObjectApiName]).value,
          Record(registry[Api1ConnectCommand.SubjectApiName].name,
                 registry[Api1ConnectCommand.SubjectApiName].members[Api1ConnectCommand.HandlerName].cb));
        r
      else r
  }

  /** A command's run leaves every table other than Api2's as it was. */
  lemma RunEffectTouchesOnlyObject(cmd: Command, registry: Registry, tables: Tables, k: string)
    requires RunEffect(cmd, registry, tables).Ok? && k in tables && k != Api1ConnectCommand.ObjectApiName
    ensures k in RunEffect(cmd, registry, tables).value && RunEffect(cmd, registry, tables).value[k] == tables[k]
  {
  }

  /** The progress after running `cmd` once more: the command's tables, or the error it threw with the tables as they were. */
  function Step(cmd: Command, registry: Registry, tables: Tables): (p: Progress)
    ensures p.failure.None? <==> RunEffect(cmd, registry, tables).Ok?
    ensures p.failure.Some? ==> p.tables == tables
    ensures AllValid(tables) ==> AllValid(p.tables)
  {
    match RunEffect(cmd, registry, tables)
    case Ok(t) => Progress(t, None)
    case Err(e) => Progress(tables, Some(e))
  }

  /**
   * Running the indexed commands of `subjects` in order; a command that
   * throws ends the sequence, and a subject with no command runs nothing.
   * Valid tables stay valid through any sequence of runs.
   */
  function RunAll(subjects: seq<string>, commands: map<string, Command>, registry: Registry, tables: Tables): (p: Progress)
    ensures AllValid(tables) ==> AllValid(p.tables)
    decreases |subjects|
  {
    if subjects == [] then Progress(tables, None)
    else
      var p := RunAll(subjects[..|subjects| - 1], commands, registry, tables);
      var s := subjects[|subjects| - 1];
      if p.failure.Some? || s !in commands then p
      else Step(commands[s], registry, p.tables)
  }

  /** Every run of `log` before its last one completed: a throw can only have come from the last. */
  predicate StoppedAtLast(log: seq<string>, commands: map<string, Command>, registry: Registry, t0: Tables) {
    log != [] && RunAll(log[..|log| - 1], commands, registry, t0).failure.None?
  }

  /** Running one more command extends the progress of the ones before it. */
  lemma RunAllStep(log: seq<string>, key: string, commands: map<string, Command>, registry: Registry, t0: Tables)
    requires RunAll(log, commands, registry, t0).failure.None? && key in commands
    ensures RunAll(log + [key], commands, registry, t0) ==
            Step(commands[key], registry, RunAll(log, commands, registry, t0).tables)
  {
    assert (log + [key])[..|log|] == log;
  }

  /** Running `a` then `b` is running `b` from where `a` stopped, unless `a` threw. */
  lemma {:induction false} RunAllAppend(a: seq<string>, b: seq<string>, commands: map<string, Command>, registry: Registry, t0: Tables)
    ensures var p := RunAll(a, commands, registry, t0);
            RunAll(a + b, commands, registry, t0) ==
              if p.failure.Some? then p else RunAll(b, commands, registry, p.tables)
    decreases |b|
  {
    if b == [] {
      assert a + b == a;
    } else {
      var n := |b| - 1;
      RunAllAppend(a, b[..n], commands, registry, t0);
      assert (a + b)[..|a + b| - 1] == a + b[..n];
      assert (a + b)[|a + b| - 1] == b[n];
    }
  }

  /** Commands none of which throws, whatever the tables, never stop a sequence of runs. */
  lemma {:induction false} RunAllNeverFails(log: seq<string>, commands: map<string, Command>, registry: Registry, t0: Tables)
    requires forall s, t :: s in commands ==> RunEffect(commands[s], registry, t).Ok?
    ensures RunAll(log, commands, registry, t0).failure.None?
    decreases |log|
  {
    if log != [] {
      RunAllNeverFails(log[..|log| - 1], commands, registry, t0);
    }
  }

  /** A sequence of runs that completed, followed by one that stopped at its last run, stopped at its last run. */
  lemma StoppedAtLastAppend(a: seq<string>, b: seq<string>, commands: map<string, Command>, registry: Registry, t0: Tables)
    requires RunAll(a, commands, registry, t0).failure.None?
    requires StoppedAtLast(b, commands, registry, RunAll(a, commands, registry, t0).tables)
    ensures StoppedAtLast(a + b, commands, registry, t0)
  {
    RunAllAppend(a, b[..|b| - 1], commands, registry, t0);
    assert (a + b)[..|a + b| - 1] == a + b[..|b| - 1];
  }

  /** No subject occurs twice in `log`. */
  predicate Distinct(log: seq<string>) {
    forall i, j :: 0 <= i < j < |log| ==> log[i] != log[j]
  }

  /** `log` lists each element of `s` exactly once and nothing else. */
  predicate Enumerates(log: seq<string>, s: set<string>) {
    Distinct(log) && (forall i :: 0 <= i < |log| ==> log[i] in s) && (forall x :: x in s ==> x in log)
  }

  /** Running a subject not yet enumerated extends the enumeration by it. */
  lemma EnumeratesAdd(log: seq<string>, s: set<string>, key: string)
    requires Enumerates(log, s) && key !in s
    ensures Enumerates(log + [key], s + {key})
  {
  }

  /** `i` is the position of the last command in `cmds` whose subject is `s`. */
  predicate LastCommandFor(cmds: seq<Command>, i: int, s: string) {
    0 <= i < |cmds| && cmds[i].subject == Some(s) &&
    forall j :: i < j < |cmds| ==> cmds[j].subject != Some(s)
  }

  /** The command index built by the constructor's `reduce` (connector.js). */
  function IndexCommands(cmds: seq<Command>): (r: Result<map<string, Command>, Error>)
    ensures r.Err? <==> exists i :: 0 <= i < |cmds| && cmds[i].subject.None?
    ensures r.Err? ==> r.error == MissingSubjectApiName
    ensures r.Ok? ==> forall s :: s in r.value ==> r.value[s].subject == Some(s)
    decreases |cmds|
  {
    if cmds == [] then Ok(map[])
    else
      var prefix := IndexCommands(cmds[..|cmds| - 1]);
      var curr := cmds[|cmds| - 1];
      assert forall i :: 0 <= i < |cmds| - 1 ==> cmds[..|cmds| - 1][i] == cmds[i];
      if prefix.Err? then prefix
      else if curr.subject.None? then Err(MissingSubjectApiName)
      else Ok(prefix.value[curr.subject.value := curr])
  }

  /** `i` is the position of the last API in `apis` whose name is `n`. */
  predicate LastApiFor(apis: seq<Api>, i: int, n: string) {
    0 <= i < |apis| && apis[i].name == n &&
    forall j :: i < j < |apis| ==> apis[j].name != n
  }

  /** The initial registry built by the constructor's second `reduce`. */
  function IndexApis(apis: seq<Api>): (r: Result<Registry, Error>)
    ensures r.Err? <==> exists i :: 0 <= i < |apis| && apis[i].name == ""
    ensures r.Err? ==> r.error == ApiNameEmpty
    ensures r.Ok? ==> WellKeyed(r.value) && "" !in r.value
    ensures r.Ok? ==> forall n :: n in r.value ==> r.value[n] in apis
    decreases |apis|
  {
    if apis == [] then Ok(map[])
    else
      var prefix := IndexApis(apis[..|apis| - 1]);
      var curr := apis[|apis| - 1];
      assert forall i :: 0 <= i < |apis| - 1 ==> apis[..|apis| - 1][i] == apis[i];
      assert forall a :: a in apis[..|apis| - 1] ==> a in apis;
      if prefix.Err? then prefix
      else if curr.name == "" then Err(ApiNameEmpty)
      else Ok(prefix.value[curr.name := curr])
  }

  /** One step of the constructor's first `reduce`. */
  lemma IndexCommandsStep(cmds: seq<Command>)
    requires cmds != [] && IndexCommands(cmds).Ok?
    ensures IndexCommands(cmds[..|cmds| - 1]).Ok? && cmds[|cmds| - 1].subject.Some?
    ensures IndexCommands(cmds).value ==
            IndexCommands(cmds[..|cmds| - 1]).value[cmds[|cmds| - 1].subject.value := cmds[|cmds| - 1]]
  {
  }

  /**
   * The index maps each subject to the last command given for it, and holds
   * no key that is not a given command's subject.
   */
  lemma {:induction false} IndexCommandsLastWins(cmds: seq<Command>)
    requires IndexCommands(cmds).Ok?
    ensures forall s, i :: LastCommandFor(cmds, i, s) ==>
              s in IndexCommands(cmds).value && IndexCommands(cmds).value[s] == cmds[i]
    ensures forall s :: s in IndexCommands(cmds).value ==>
              exists i :: 0 <= i < |cmds| && cmds[i].subject == Some(s)
  {
    if cmds != [] {
      var n := |cmds| - 1;
      var prefix := cmds[..n];
      IndexCommandsStep(cmds);
      IndexCommandsLastWins(prefix);
      var index := IndexCommands(cmds).value;
      var last := cmds[n].subject.value;
      forall s, i | LastCommandFor(cmds, i, s) ensures s in index && index[s] == cmds[i] {
        if s != last {
          assert i < n;
          assert LastCommandFor(prefix, i, s);
        }
      }
      forall s | s in index ensures exists i :: 0 <= i < |cmds| && cmds[i].subject == Some(s) {
        if s != last {
          var i :| 0 <= i < |prefix| && prefix[i].subject == Some(s);
          assert cmds[i] == prefix[i];
        } else {
          assert cmds[n].subject == Some(s);
        }
      }
    }
  }

  /** One step of the constructor's second `reduce`. */
  lemma IndexApisStep(apis: seq<Api>)
    requires apis != [] && IndexApis(apis).Ok?
    ensures IndexApis(apis[..|apis| - 1]).Ok? && apis[|apis| - 1].name != ""
    ensures IndexApis(apis).value == IndexApis(apis[..|apis| - 1]).value[apis[|apis| - 1].name := apis[|apis| - 1]]
  {
  }

  /**
   * The initial registry maps each name to the last API given with it, and
   * holds no key that is not a given API's name.
   */
  lemma {:induction false} IndexApisLastWins(apis: seq<Api>)
    requires IndexApis(apis).Ok?
    ensures forall n, i :: LastApiFor(apis, i, n) ==>
              n in IndexApis(apis).value && IndexApis(apis).value[n] == apis[i]
    ensures forall n :: n in IndexApis(apis).value ==>
              exists i :: 0 <= i < |apis| && apis[i].name == n
  {
    if apis != [] {
      var m := |apis| - 1;
      var prefix := apis[..m];
      IndexApisStep(apis);
      IndexApisLastWins(prefix);
      var registry := IndexApis(apis).value;
      var last := apis[m].name;
      forall n, i | LastApiFor(apis, i, n) ensures n in registry && registry[n] == apis[i] {
        if n != last {
          assert i < m;
          assert LastApiFor(prefix, i, n);
        }
      }
      forall n | n in registry ensures exists i :: 0 <= i < |apis| && apis[i].name == n {
        if n != last {
          var i :| 0 <= i < |prefix| && prefix[i].name == n;
          assert apis[i] == prefix[i];
        } else {
          assert apis[m].name == n;
        }
      }
    }
  }

  /** The commands `loadApi(api)` re-runs after the API's own: those that name it as an object and whose subject is loaded. */
  function Propagation(commands: map<string, Command>, registry: Registry, name: string): (r: set<string>)
    ensures r <= commands.Keys && r <= registry.Keys
    ensures forall s :: s in r ==> name in commands[s].objects
    ensures (forall s :: s in commands ==> commands[s].subject == Some(s)) ==> name !in r
  {
    set s | s in commands && commands[s].subject != Some(name) && name in commands[s].objects && s in registry
  }

  /** The API's own command, run first by `loadApi`, if one is indexed under its name. */
  function OwnRun(commands: map<string, Command>, name: string): (r: seq<string>)
    ensures |r| <= 1 && forall k :: k in r ==> k == name && k in commands
    ensures name in commands ==> r == [name]
  {
    if name in commands then [name] else []
  }

  /** Every table with every record named `name` removed. */
  function ScrubAll(tables: Tables, name: string): (r: Tables)
    ensures r.Keys == tables.Keys
    ensures AllValid(tables) ==> AllValid(r) && forall k :: k in r ==> NoneNamed(r[k], name)
  {
    var r := map k | k in tables :: Scrub(tables[k], name);
    assert forall k :: k in r ==> NoneNamed(r[k], name) && (TableValid(tables[k]) ==> TableValid(r[k])) by {
      forall k | k in r ensures NoneNamed(r[k], name) && (TableValid(tables[k]) ==> TableValid(r[k])) {
        if TableValid(tables[k]) {
          ScrubRemovesName(tables[k], name);
        }
      }
    }
    r
  }

  /** `tables` with the tables of the APIs outside `pending` already scrubbed of `name`. */
  function ScrubbedExcept(tables: Tables, pending: set<string>, name: string): Tables {
    map k | k in tables :: if k in pending then tables[k] else Scrub(tables[k], name)
  }

  /** Scrubbing one more API's table advances `ScrubbedExcept` by that API. */
  lemma ScrubbedExceptStep(t0: Tables, pending: set<string>, key: string, name: string)
    requires pending <= t0.Keys && key in pending
    ensures var before := ScrubbedExcept(t0, pending, name);
            ScrubbedExcept(t0, pending - {key}, name) == before[key := Scrub(before[key], name)]
  {
  }

  /** Runs one command against the registry. */
  method RunCommand(cmd: Command, registry: Registry) returns (r: Outcome<Error>)
    requires WellKeyed(registry) && AllValid(TablesOf(registry))
    modifies registry.Values
    ensures AllValid(TablesOf(registry))
    ensures Progress(TablesOf(registry), if r.Pass? then None else Some(r.error)) ==
            Step(cmd, registry, old(TablesOf(registry)))
  {
    match cmd.kind
    case Inert =>
      r := Pass;
    case Api1Connect =>
      r := Api1ConnectCommand.Run(Some(registry));
  }

  /** `t` with the lists of the events outside `pending` already filtered. */
  function PartlyScrubbed(t: Table, pending: set<Event>, name: string): Table {
    map e | e in t :: if e in pending then t[e] else Without(t[e], name)
  }

  /** Removes every record named `name` from every list of `api`'s table. */
  method RemoveSubscriptions(api: Api, name: string)
    modifies api
    ensures api.subscribers == Scrub(old(api.subscribers), name)
  {
    if api.subscribers.None? {
      return;
    }
    var t0 := api.subscribers.value;
    var events := t0.Keys;
    assert PartlyScrubbed(t0, events, name) == t0;
    while events != {}
      invariant events <= t0.Keys
      invariant api.subscribers == Some(PartlyScrubbed(t0, events, name))
      decreases events
    {
      var e :| e in events;
      var table := api.subscribers.value;
      assert PartlyScrubbed(t0, events - {e}, name) == table[e := Without(table[e], name)];
      api.subscribers := Some(table[e := Without(table[e], name)]);
      events := events - {e};
    }
    assert PartlyScrubbed(t0, {}, name) == Scrub(Some(t0), name).value;
  }

  class Connector {
    /** `this.connectCommands`: the command index, subject name to command. */
    const commands: map<string, Command>
    /** `this.registry`: the loaded APIs, by name. */
    var registry: Registry

    ghost predicate Valid()
      reads this, registry.Values
    {
      && (forall s :: s in commands ==> commands[s].subject == Some(s))
      && WellKeyed(registry)
      && "" !in registry
      && AllValid(TablesOf(registry))
    }

    constructor (commands: map<string, Command>, registry: Registry)
      ensures this.commands == commands && this.registry == registry
    {
      this.commands := commands;
      this.registry := registry;
    }

    /**
     * `new Connector(connectCommands, {initialApisToLoad})`: validates the
     * commands and APIs, builds the index and the registry, then runs each
     * indexed command whose subject is loaded. `log` is the run log.
     */
    static method Create(connectCommands: Option<seq<Command>>, initialApisToLoad: seq<Api>)
      returns (r: Result<Connector, Error>, ghost log: seq<string>)
      requires forall a :: a in initialApisToLoad ==> a.Valid()
      modifies set a | a in initialApisToLoad
      ensures r.Err? && log == [] ==> forall a :: a in initialApisToLoad ==> a.subscribers == old(a.subscribers)
      ensures connectCommands.None? || connectCommands.value == [] ==>
                r == Err(ConnectCommandsNotSupplied) && log == []
      ensures connectCommands.Some? && connectCommands.value != [] &&
              IndexCommands(connectCommands.value).Err? ==>
                r == Err(MissingSubjectApiName) && log == []
      ensures connectCommands.Some? && connectCommands.value != [] &&
              IndexCommands(connectCommands.value).Ok? && IndexApis(initialApisToLoad).Err? ==>
                r == Err(ApiNameEmpty) && log == []
      ensures connectCommands.Some? && connectCommands.value != [] &&
              IndexCommands(connectCommands.value).Ok? && IndexApis(initialApisToLoad).Ok? ==>
                var commands := IndexCommands(connectCommands.value).value;
                var registry := IndexApis(initialApisToLoad).value;
                && Distinct(log) && (forall k :: k in log ==> k in registry && k in commands)
                && RunAll(log, commands, registry, old(TablesOf(registry))) ==
                   Progress(TablesOf(registry), if r.Ok? then None else Some(r.error))
                && (r.Err? ==> StoppedAtLast(log, commands, registry, old(TablesOf(registry))))
                && (forall a :: a in initialApisToLoad && a !in registry.Values ==>
                      a.subscribers == old(a.subscribers))
                && (r.Ok? ==>
                      && Enumerates(log, registry.Keys * commands.Keys)
                      && fresh(r.value) && r.value.Valid()
                      && r.value.commands == commands && r.value.registry == registry)
    {
      if connectCommands.None? || |connectCommands.value| == 0 {
        return Err(ConnectCommandsNotSupplied), [];
      }
      var index := IndexCommands(connectCommands.value);
      if index.Err? {
        return Err(index.error), [];
      }
      var loaded := IndexApis(initialApisToLoad);
      if loaded.Err? {
        return Err(loaded.error), [];
      }
      var commands, registry := index.value, loaded.value;
      var c := new Connector(commands, registry);
      var out;
      out, log := c.RunInitialCommands();
      if out.Fail? {
        return Err(out.error), log;
      }
      return Ok(c), log;
    }

    /**
     * Runs the command indexed under `key`; `ran` is the sequence of runs
     * that took the tables from `t0` to now.
     */
    method RunOne(key: string, ghost t0: Tables, ghost ran: seq<string>) returns (r: Outcome<Error>)
      requires Valid() && key in registry && key in commands
      requires RunAll(ran, commands, registry, t0) == Progress(TablesOf(registry), None)
      modifies registry.Values
      ensures Valid()
      ensures RunAll(ran + [key], commands, registry, t0) ==
              Progress(TablesOf(registry), if r.Pass? then None else Some(r.error))
    {
      RunAllStep(ran, key, commands, registry, t0);
      r := RunCommand(commands[key], registry);
    }

    /**
     * The constructor's last step: runs each indexed command whose subject
     * is loaded, once; `log` lists the subjects of the commands run, in order.
     */
    method RunInitialCommands() returns (r: Outcome<Error>, ghost log: seq<string>)
      requires Valid()
      modifies registry.Values
      ensures Valid()
      ensures Distinct(log) && forall k :: k in log ==> k in registry && k in commands
      ensures r.Pass? ==> Enumerates(log, registry.Keys * commands.Keys)
      ensures r.Fail? ==> StoppedAtLast(log, commands, registry, old(TablesOf(registry)))
      ensures RunAll(log, commands, registry, old(TablesOf(registry))) ==
              Progress(TablesOf(registry), if r.Pass? then None else Some(r.error))
    {
      ghost var t0 := TablesOf(registry);
      log := [];
      var pending := registry.Keys;
      while pending != {}
        invariant pending <= registry.Keys
        invariant Valid()
        invariant Enumerates(log, (registry.Keys - pending) * commands.Keys)
        invariant RunAll(log, commands, registry, t0) == Progress(TablesOf(registry), None)
        decreases pending
      {
        var key :| key in pending;
        ghost var done := (registry.Keys - pending) * commands.Keys;
        pending := pending - {key};
        if key in commands {
          assert (registry.Keys - pending) * commands.Keys == done + {key};
          EnumeratesAdd(log, done, key);
          r := RunOne(key, t0, log);
          ghost var before := log;
          log := log + [key];
          if r.Fail? {
            assert log[..|log| - 1] == before;
            return;
          }
        } else {
          assert (registry.Keys - pending) * commands.Keys == done;
        }
      }
      r := Pass;
    }

    /**
     * The second half of `loadApi`: re-runs, once each, the commands that
     * name `name` as an object and whose subject is loaded (other than
     * `name`'s own), stopping at the first that throws. `ran` is the
     * sequence of these runs.
     */
    method RunPropagation(name: string) returns (r: Outcome<Error>, ghost ran: seq<string>)
      requires Valid()
      modifies registry.Values
      ensures Valid()
      ensures Distinct(ran) && forall k :: k in ran ==> k in Propagation(commands, registry, name)
      ensures r.Pass? ==> Enumerates(ran, Propagation(commands, registry, name))
      ensures r.Fail? ==> StoppedAtLast(ran, commands, registry, old(TablesOf(registry)))
      ensures RunAll(ran, commands, registry, old(TablesOf(registry))) ==
              Progress(TablesOf(registry), if r.Pass? then None else Some(r.error))
    {
      ghost var t0 := TablesOf(registry);
      ghost var targets := Propagation(commands, registry, name);
      ran := [];
      var pending := commands.Keys;
      while pending != {}
        invariant pending <= commands.Keys
        invariant Valid()
        invariant Enumerates(ran, targets - pending)
        invariant RunAll(ran, commands, registry, t0) == Progress(TablesOf(registry), None)
        decreases pending
      {
        var key :| key in pending;
        ghost var done := targets - pending;
        pending := pending - {key};
        var command := commands[key];
        if command.subject != Some(name) && name in command.objects && key in registry {
          assert targets - pending == done + {key};
          EnumeratesAdd(ran, done, key);
          r := RunOne(key, t0, ran);
          ghost var before := ran;
          ran := ran + [key];
          if r.Fail? {
            assert ran[..|ran| - 1] == before;
            return;
          }
        } else {
          assert targets - pending == done;
        }
      }
      r := Pass;
    }

    /**
     * The runs of `loadApi` once `name` is registered: its own command
     * first, if one is indexed, then the re-runs of the commands that name
     * it as an object. `propagated` is the sequence of re-runs.
     */
    method RunForLoaded(name: string) returns (r: Outcome<Error>, ghost propagated: seq<string>)
      requires Valid() && name in registry
      modifies registry.Values
      ensures Valid()
      ensures var own := OwnRun(commands, name);
              var targets := Propagation(commands, registry, name);
              var t0 := old(TablesOf(registry));
              && Distinct(propagated) && name !in propagated
              && (forall k :: k in propagated ==> k in targets)
              && (r.Pass? ==> Enumerates(propagated, targets))
              && RunAll(own + propagated, commands, registry, t0) ==
                 Progress(TablesOf(registry), if r.Pass? then None else Some(r.error))
              && (RunAll(own, commands, registry, t0).failure.Some? ==> propagated == [])
              && (r.Fail? ==> StoppedAtLast(own + propagated, commands, registry, t0))
    {
      propagated := [];
      ghost var t0 := TablesOf(registry);
      ghost var own := OwnRun(commands, name);
      if name in commands {
        r := RunOne(name, t0, []);
        assert [] + [name] == own;
        if r.Fail? {
          assert own + propagated == own;
          assert own[..|own| - 1] == [];
          return;
        }
      }
      r, propagated := RunPropagation(name);
      RunAllAppend(own, propagated, commands, registry, t0);
      if r.Fail? {
        StoppedAtLastAppend(own, propagated, commands, registry, t0);
      }
    }

    /**
     * `loadApi(api)`: registers the API under its name, runs its own
     * command, then re-runs every other command that names it as an object
     * and whose subject is loaded. `propagated` is the sequence of re-runs.
     */
    method LoadApi(api: Api?) returns (r: Outcome<Error>, ghost propagated: seq<string>)
      requires Valid()
      requires api != null ==> api.Valid()
      modifies this, registry.Values, api
      ensures Valid()
      ensures api != null && api.name in old(registry) && old(registry)[api.name] !in registry.Values ==>
                old(registry)[api.name].subscribers == old(registry[api.name].subscribers)
      ensures api == null ==>
                r == Fail(ApiNotSupplied) && registry == old(registry) && propagated == [] &&
                unchanged(registry.Values)
      ensures api != null && api.name == "" ==>
                r == Fail(ApiNameEmpty) && registry == old(registry) && propagated == [] &&
                unchanged(registry.Values) && unchanged(api)
      ensures api != null && api.name != "" ==>
                var own := OwnRun(commands, api.name);
                var targets := Propagation(commands, registry, api.name);
                var t0 := old(TablesOf(registry[api.name := api]));
                && registry == old(registry)[api.name := api]
                && Distinct(propagated) && api.name !in propagated
                && (forall k :: k in propagated ==> k in targets)
                && (r.Pass? ==> Enumerates(propagated, targets))
                && RunAll(own + propagated, commands, registry, t0) ==
                   Progress(TablesOf(registry), if r.Pass? then None else Some(r.error))
                && (RunAll(own, commands, registry, t0).failure.Some? ==> propagated == [])
                && (r.Fail? ==> StoppedAtLast(own + propagated, commands, registry, t0))
    {
      propagated := [];
      if api == null {
        return Fail(ApiNotSupplied), [];
      }
      if api.name == "" {
        return Fail(ApiNameEmpty), [];
      }
      registry := registry[api.name := api];
      r, propagated := RunForLoaded(api.name);
    }

    /** Removes every record named `name` from every list of every registered API's table. */
    method ScrubRegistry(name: string)
      requires WellKeyed(registry)
      modifies registry.Values
      ensures TablesOf(registry) == ScrubAll(old(TablesOf(registry)), name)
    {
      ghost var t0 := TablesOf(registry);
      var pending := registry.Keys;
      assert ScrubbedExcept(t0, pending, name) == t0;
      while pending != {}
        invariant pending <= registry.Keys
        invariant TablesOf(registry) == ScrubbedExcept(t0, pending, name)
        decreases pending
      {
        var key :| key in pending;
        ghost var before := TablesOf(registry);
        ScrubbedExceptStep(t0, pending, key, name);
        RemoveSubscriptions(registry[key], name);
        assert TablesOf(registry) == before[key := Scrub(before[key], name)];
        pending := pending - {key};
      }
      assert ScrubbedExcept(t0, {}, name) == ScrubAll(t0, name);
    }

    /**
     * `unloadApi(apiName)`: removes every record named `apiName` from every
     * list of every registered API's table, then removes the registry entry.
     */
    method UnloadApi(apiName: Option<string>) returns (r: Outcome<Error>)
      requires Valid()
      modifies this`registry, registry.Values
      ensures Valid()
      ensures apiName.None? || apiName == Some("") ==>
                r == Fail(ApiNameNotSupplied) && registry == old(registry) && unchanged(registry.Values)
      ensures apiName.Some? && apiName.value != "" && apiName.value !in old(registry) ==>
                r == Pass && registry == old(registry) && unchanged(registry.Values)
      ensures apiName.Some? && apiName.value in old(registry) ==>
                && r == Pass
                && registry == old(registry) - {apiName.value}
                && TablesOf(old(registry)) == ScrubAll(old(TablesOf(registry)), apiName.value)
    {
      if apiName.None? || apiName.value == "" {
        return Fail(ApiNameNotSupplied);
      }
      var name := apiName.value;
      if name !in registry {
        return Pass;
      }
      ScrubRegistry(name);
      registry := registry - {name};
      r := Pass;
    }
  }
}
