# event-api in Dafny

A model of the core of event-api, a small in-process publish/subscribe
library. Every API object carries an emitter capability. This is a
subscriber table from event kinds to ordered lists of `{name, cb}` records,
plus the fluent builder `on(e).notify(subscriber).byCalling(methodName)`
that subscribes a callback, plus `emit(e, ...args)`, which calls the
subscribed callbacks in order. A connector keeps a registry of loaded APIs
and an index of connect-commands by subject API. It runs each command when
its subject is loaded, re-runs the commands that name a newly loaded API as
an object, and scrubs an unloaded API's records from every table.
`Api1ConnectCommand` is the example command: it subscribes Api1's
`onErrorFromApi2` handler to Api2's `error` event.

Modules:

- `Wrappers` (wrappers.dfy): `Option`, `Outcome` and `Result`.
- `Errors` (errors.dfy): one constructor per exception the library throws, with its message text.
- `EventApi` (api.dfy): the emitter.
  - `Api` is a class whose `subscribers` field is updated in place.
  - `On` and `Notify` are the guard-only builder stages.
  - `ByCalling` and `Api.ConfigureOn` subscribe.
  - `Api.Emit` returns the trace of the calls it makes.
  - `Subscribed`, `Without` and `Scrub` are the specification functions of subscribing and filtering.
- `Commands` (commands.dfy): the shape of a command and of the registry.
- `Api1ConnectCommand` (api1_connect_command.dfy): the example command. `RunSpec` is its effect on the tables and `Run` is the imperative run.
- `Connect` (connector.dfy): the `Connector` class.
  - `Create` is the constructor: it validates, folds the command index and the registry, and runs the initial commands.
  - `LoadApi` and `UnloadApi` are the load and unload operations.
- `Scenarios` (scenarios.dfy): the two integration tests of spec/connector-spec.js, as client methods whose results are proved.

Modelling choices:

- **Callbacks** are opaque identities, `Callback(id)`. A subscriber's property is either `Method(cb)` or `Field` (not a function).
- **Missing or empty values.** A missing or empty API name is `""`, since every comparison in the code treats `undefined` and `''` the same. A null or undefined argument is `None` or `null`.
- **Exceptions** are failure results (`Err`/`Fail`). They are checked in the same order as in the code, and a failing call leaves the state as the code leaves it at that point.
- **Emit gap.** When a table exists but holds no list for the event, `emit` dereferences `undefined` at src/api.js:40. The model makes this the failure `UndefinedSubscriberList`.
- **Iteration order.** The connector visits registry and index keys with `Object.getOwnPropertyNames`; the model visits them in an order it leaves open.
  - Each method that runs commands returns, as a ghost result, the subjects of the commands it ran, in order.
  - The tables it reaches are stated as the fold `RunAll` over that log.
  - The run-set properties are stated as `Distinct` and `Enumerates` over sets.

## Model

| member | source | states |
|---|---|---|
| EventApi.Api.constructor | src/api.js:13-20 | a new API has its name, events and members, and no subscriber table yet |
| EventApi.Api.Emit | src/api.js:27-43 | no event: `event not supplied.`; no table: no calls; table without a list for the event: the TypeError; otherwise one call per record, in list order, each with the arguments unchanged, and no callback called twice while the table is valid |
| EventApi.Api.On | src/api.js:53-56 | fails with `event not supplied.` exactly when the event is missing; otherwise a builder bound to this emitter and event |
| EventApi.Notify | src/api.js:61-64 | fails with `subscriber not supplied.` exactly when the subscriber is null; otherwise a builder carrying emitter, event and subscriber |
| EventApi.ByCalling | src/api.js:67-73 | missing or empty method name: `methodName not supplied.` with the table untouched; otherwise the outcome and new table of `ConfigureOn` |
| EventApi.Api.ConfigureOn | src/api.js:79-103 | absent member: `methodName not present on subscriber.`; non-function member: `methodName not a function.`, both with the table untouched; a function: the table becomes `Subscribed(old table, event, {subscriber.name, cb})`, and the no-duplicate invariant is kept |
| EventApi.Subscribed | src/api.js:89-102 | the table and list are created if missing; the callback is then present; the old list is a prefix of the new one; it grows by exactly one record, `rec`, at the end, iff the callback was absent; other lists are unchanged |
| EventApi.SubscribedKeepsNoDuplicates | src/api.js:92-102 | appending only absent callbacks keeps a list free of duplicate callbacks |
| EventApi.SubscribedKeepsValid | src/api.js:89-102 | subscribing keeps the whole table free of duplicate callbacks |
| EventApi.SubscribedIdempotent | src/api.js:92-97 | subscribing the same record twice is the same as subscribing it once |
| EventApi.OccursOnce | src/api.js:92-97 | in a list without duplicates a callback occurs once if present and zero times otherwise |
| EventApi.SubscribedOnce | src/api.js:92-102 | after subscribing on a valid table, the callback occurs exactly once in the list |
| EventApi.Without | src/connector.js:121-124 | the filtered list holds no record with the name; each of its records comes from the list; it is no longer than the list |
| EventApi.WithoutAppend | src/connector.js:121-124 | filtering distributes over concatenation, so the kept records keep their relative order |
| EventApi.WithoutKeepsOthers | src/connector.js:121-124 | every record with another name is kept |
| EventApi.WithoutNothingNamed | src/connector.js:121-124 | a list with no record of that name is returned unchanged |
| EventApi.WithoutKeepsNoDuplicates | src/connector.js:121-124 | filtering keeps a list free of duplicate callbacks |
| EventApi.Scrub | src/connector.js:118-125 | a missing table stays missing; an existing one keeps its event kinds and has each list filtered |
| EventApi.ScrubRemovesName | src/connector.js:118-125 | after scrubbing, no list holds a record with the name, and the table stays valid |
| Api1ConnectCommand.Metadata | src/example/api1-connect-command.js:12-15 | subject `Api1`, objects `['Api2']` |
| Api1ConnectCommand.ErrorEvent | src/example/api1-connect-command.js:28 | `api2.events.error`: present exactly when Api2's enumeration has an `error` key, and then that key's event kind |
| Api1ConnectCommand.RunSpec | src/example/api1-connect-command.js:17-32 | no registry: `apiRegistry not supplied.`; Api2 absent: no table changes; Api2 without an `error` event: `event not supplied.`; Api2 with an error event but no Api1: `subscriber not supplied.`; on success only Api2's table changes, and its error list then holds Api1's `onErrorFromApi2` |
| Api1ConnectCommand.Run | src/example/api1-connect-command.js:17-32 | the imperative run changes the registered APIs' tables exactly as `RunSpec` says, fails with its error and leaves the tables untouched on failure, and keeps every table valid |
| Api1ConnectCommand.RunIdempotent | src/example/api1-connect-command.js:27-30 | running the command again after a successful run changes nothing |
| Api1ConnectCommand.RunSubscribesOnce | src/example/api1-connect-command.js:27-30 | with both APIs loaded and valid tables, a successful run leaves exactly one record with Api1's handler in Api2's error list |
| Connect.IndexCommands | src/connector.js:27-34 | fails with `connectCommand missing subjectApiName.` iff some command has no subject; otherwise every key is the subject of its command |
| Connect.IndexCommandsLastWins | src/connector.js:27-34 | the index maps each subject to the last command given for it, and has no key that is not a given subject |
| Connect.IndexApis | src/connector.js:37-43 | fails with `Required api.name property is empty.` iff some API's name is empty; otherwise each API is keyed by its own name, no key is empty, and every value is one of the given APIs |
| Connect.IndexApisLastWins | src/connector.js:37-43 | the registry maps each name to the last API given with it, and has no key that is not a given name |
| Connect.RunEffect | src/connector.js:46-49 | `cmd.run(registry)` on the tables: it keeps valid tables valid (an inert command changes nothing, Api1's command is `RunSpec`) |
| Connect.RunEffectTouchesOnlyObject | src/example/api1-connect-command.js:24-30 | a successful run leaves every table other than Api2's as it was |
| Connect.Step | src/connector.js:46-49 | one more run: it completes exactly when the command does not throw; a throw leaves the tables as they were; validity is kept |
| Connect.RunAll | src/connector.js:45-50 | a sequence of runs that a throw aborts, skipping subjects with no command; valid tables stay valid through any sequence (by induction on the sequence) |
| Connect.StoppedAtLastAppend | src/connector.js:78-99 | a completed sequence of runs followed by one that stopped at its last run stops at its last run |
| Connect.Propagation | src/connector.js:84-99 | the re-run set: commands indexed and with a loaded subject, naming the API as an object; never the API's own command when commands are keyed by subject |
| Connect.OwnRun | src/connector.js:78-81 | at most one run, of the API's own command, exactly when one is indexed under its name |
| Connect.RunAllStep | src/connector.js:45-50 | running one more command extends the fold of the runs before it by that command's effect |
| Connect.RunAllAppend | src/connector.js:78-99 | running one sequence of commands and then another is running the second from where the first stopped, unless the first threw |
| Connect.RunAllNeverFails | src/connector.js:45-50 | when no indexed command throws on any tables, no sequence of runs fails |
| Connect.RunCommand | src/connector.js:46-49 | `cmd.run(registry)` moves the tables one step of the fold and keeps them valid |
| Connect.RemoveSubscriptions | src/connector.js:118-126 | one API's table becomes its `Scrub` by the name |
| Connect.ScrubAll | src/connector.js:115-127 | every registered table scrubbed; the same APIs; validity is kept, and no record with the name remains |
| Connect.Connector.Create | src/connector.js:19-51 | `connectCommands not supplied.` for a missing or empty command array, then the index error, then the registry error, all three before any run and with every initial API untouched; otherwise the runs are distinct subjects that are both loaded and indexed; the tables are the fold of these runs; on a throw no command runs after the one that threw; an initial API dropped by a later one of the same name is untouched; on success every such subject runs exactly once and the connector holds the index and registry |
| Connect.Connector.RunOne | src/connector.js:46-49 | one run of an indexed, loaded subject extends the fold of the runs so far by that command's step, keeping the tables valid |
| Connect.Connector.RunInitialCommands | src/connector.js:45-50 | runs each loaded, indexed subject at most once; on a throw every run before the last completed, so nothing ran after the throw; on success runs each exactly once; the tables are the fold of the log |
| Connect.Connector.RunPropagation | src/connector.js:84-99 | re-runs, once each, only commands not for the new API, naming it as an object and with a loaded subject; all of them on success; on a throw nothing runs after it; the tables are the fold of the re-runs |
| Connect.Connector.RunForLoaded | src/connector.js:78-99 | the API's own command first, then the re-runs: distinct, never the own subject, all of them on success; none if the own command threw; nothing after a throw; the tables are the fold of both |
| Connect.Connector.LoadApi | src/connector.js:62-100 | null api: `api not supplied.`; empty name: `Required api.name property is empty.`, both changing nothing, the argument included; otherwise `registry[name] := api` with the others unchanged, and an API displaced by the overwrite is untouched; then the API's own command (if indexed) runs first, then the propagation runs: distinct, never the own subject, all of them on success, none if the own command threw, nothing after a throw; the tables are the fold of own run followed by propagation |
| Connect.Connector.ScrubRegistry | src/connector.js:115-127 | every registered API's table is scrubbed of the name |
| Connect.Connector.UnloadApi | src/connector.js:107-130 | missing or empty name: `apiName not supplied.`; a name not loaded: nothing changes; otherwise every registered table is scrubbed of the name, the entry is deleted and the other entries are unchanged, and all tables stay valid |
| Scenarios.Start | spec/connector-spec.js:324-344 | constructing with Api1 and Api2 loaded leaves exactly Api1's handler in Api2's error list |
| Scenarios.UnloadApi1 | spec/connector-spec.js:356-365 | unloading Api1 empties Api2's error list and removes Api1 from the registry |
| Scenarios.ReloadApi1 | spec/connector-spec.js:367-372 | loading Api1 again puts its handler back in Api2's error list |
| Scenarios.UnloadReloadScenario | spec/connector-spec.js:316-374 | an emit of Api2's error event calls Api1's handler once, then zero times after unloading Api1, then once again after reloading it |
| Scenarios.LazyLoadApi2 | spec/connector-spec.js:397-399 | loading Api2 after Api1 subscribes Api1's handler to Api2's error event |
| Scenarios.LazyLoadingScenario | spec/connector-spec.js:376-410 | with Api1 loaded first and Api2 later, an emit of Api2's error event calls Api1's handler once |

## Left out

- JavaScript receiver binding and prototype mechanics (`this`, `.bind`, `Object.create`, the `Connector.prototype` defaults) are not modelled; callbacks are identities and are not executed.
- Callback bodies, their payloads and any exception a callback throws during `emit` are outside the model, and so is re-entrancy (a callback that subscribes or emits while `emit` runs).
- API names, event kinds and command subjects that collide with `Object.prototype` properties (such as `"constructor"`) behave specially in JavaScript objects; the model uses plain maps.
- Connect-commands other than `Api1ConnectCommand` are external to the library; the model treats their `run` as leaving every subscriber table alone. src/example/api2-connect-command.js is not part of this model, so in the scenarios Api2's own command subscribes nothing, and the click-handler counts of the integration tests are not modelled.
- Connect.Connector.Create: the model does not model a null element in `initialApisToLoad` (the code would throw a TypeError reading `curr.name`), a missing options object (it is given as the array of APIs, possibly empty), or non-array-like `connectCommands` values.
- Connect.Connector.RunInitialCommands, Connect.Connector.RunPropagation: the key order of `Object.getOwnPropertyNames` (insertion order for string keys) is left open, so which command ran before a failing one is stated over sets, not as one fixed order.
- src/example/api1.js and src/example/api2.js are not part of this model beyond the names, events and members the scenarios give their APIs.
- dist/event-api.js duplicates src/api.js and src/connector.js; Gruntfile.js and src/main.js are build and export plumbing.
