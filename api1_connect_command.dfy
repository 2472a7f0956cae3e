/**
 * The example connect-command for Api1 (src/example/api1-connect-command.js):
 * when Api2 is loaded, it subscribes Api1's `onErrorFromApi2` handler to
 * Api2's `error` event.
 */
module Api1ConnectCommand {
  import opened Wrappers
  import opened Errors
  import opened EventApi
  import opened Commands

  const SubjectApiName: string := "Api1"
  const ObjectApiName: string := "Api2"
  /** The key of Api2's `events` enumeration that the command subscribes to. */
  const ErrorEventKey: string := "error"
  /** The Api1 method that handles Api2's errors. */
  const HandlerName: string := "onErrorFromApi2"

  /** The command's metadata: subject `'Api1'`, objects `['Api2']`. */
  function Metadata(): (c: Command)
    ensures c.subject == Some("Api1") && c.objects == ["Api2"] && c.kind == Api1Connect
  {
    Command(Some(SubjectApiName), [ObjectApiName], Api1Connect)
  }

  /**
   * `api2.events.error`: the event kind the command subscribes to on
   * `api2`; none (JavaScript's `undefined`) when the enumeration has no
   * `error` key.
   */
  function ErrorEvent(api2: Api): (r: Option<Event>)
    ensures r.Some? <==> ErrorEventKey in api2.events
    ensures r.Some? ==> r.value == api2.events[ErrorEventKey]
  {
    if ErrorEventKey in api2.events then Some(api2.events[ErrorEventKey]) else None
  }

  /** The callback `run` subscribes: `api1.onErrorFromApi2`, when it is a function. */
  predicate HasHandler(api1: Api) {
    HandlerName in api1.members && api1.members[HandlerName].Method?
  }

  /** The effect of `run(registry)` on the subscriber tables of the registered APIs. */
  function RunSpec(registry: Option<Registry>, tables: Tables): (r: Result<Tables, Error>)
    ensures registry.None? ==> r == Err(ApiRegistryNotSupplied)
    ensures registry.Some? && ObjectApiName !in registry.value ==> r == Ok(tables)
    ensures registry.Some? && ObjectApiName in registry.value && ErrorEvent(registry.value[ObjectApiName]).None? ==>
              r == Err(EventNotSupplied)
    ensures (registry.Some? && ObjectApiName in registry.value && SubjectApiName !in registry.value &&
             ErrorEvent(registry.value[ObjectApiName]).Some?) ==> r == Err(SubscriberNotSupplied)
    ensures r.Ok? ==> forall k :: k != ObjectApiName ==> (k in r.value <==> k in tables)
    ensures r.Ok? ==> forall k :: k != ObjectApiName && k in r.value ==> r.value[k] == tables[k]
    ensures r.Ok? && registry.Some? && ObjectApiName in registry.value ==>
              SubjectApiName in registry.value &&
              ErrorEvent(registry.value[ObjectApiName]).Some? &&
              HasHandler(registry.value[SubjectApiName]) &&
              ObjectApiName in r.value && r.value[ObjectApiName].Some? &&
              ErrorEvent(registry.value[ObjectApiName]).value in r.value[ObjectApiName].value &&
              HasCallback(r.value[ObjectApiName].value[ErrorEvent(registry.value[ObjectApiName]).value],
                          registry.value[SubjectApiName].members[HandlerName].cb)
  {
    if registry.None? then Err(ApiRegistryNotSupplied)
    else
      var reg := registry.value;
      if ObjectApiName !in reg then Ok(tables)
      else
        var api2 := reg[ObjectApiName];
        if ErrorEvent(api2).None? then Err(EventNotSupplied)
        else if SubjectApiName !in reg then Err(SubscriberNotSupplied)
        else
          var api1 := reg[SubjectApiName];
          if HandlerName !in api1.members then Err(MethodNameNotPresent)
          else if api1.members[HandlerName].Field? then Err(MethodNameNotAFunction)
          else
            var rec := Record(api1.name, api1.members[HandlerName].cb);
            Ok(tables[ObjectApiName := Some(Subscribed(TableAt(tables, ObjectApiName), ErrorEvent(api2).value, rec))])
  }

  /** The APIs `run` may change: those of the registry it is given. */
  function Reachable(registry: Option<Registry>): set<Api> {
    if registry.Some? then registry.value.Values else {}
  }

  /**
   * `run(apiRegistry)`: subscribes Api1's error handler to Api2's `error`
   * event through `api2.on(...).notify(api1).byCalling('onErrorFromApi2')`.
   */
  method Run(registry: Option<Registry>) returns (r: Outcome<Error>)
    requires registry.Some? ==> WellKeyed(registry.value) && AllValid(TablesOf(registry.value))
    modifies Reachable(registry)
    ensures registry.Some? ==> AllValid(TablesOf(registry.value))
    ensures registry.None? ==> r == Fail(ApiRegistryNotSupplied)
    ensures registry.Some? ==>
              var spec := RunSpec(registry, old(TablesOf(registry.value)));
              (spec.Ok? ==> r == Pass && TablesOf(registry.value) == spec.value) &&
              (spec.Err? ==> r == Fail(spec.error) && TablesOf(registry.value) == old(TablesOf(registry.value)))
  {
    if registry.None? {
      return Fail(ApiRegistryNotSupplied);
    }
    var reg := registry.value;
    var api1: Api? := if SubjectApiName in reg then reg[SubjectApiName] else null;
    if ObjectApiName !in reg {
      return Pass;
    }
    var api2 := reg[ObjectApiName];
    assert TableValid(TablesOf(reg)[ObjectApiName]);
    var on := api2.On(ErrorEvent(api2));
    if on.Err? {
      return Fail(on.error);
    }
    var notify := Notify(on.value, api1);
    if notify.Err? {
      return Fail(notify.error);
    }
    ghost var before := TableAt(old(TablesOf(reg)), ObjectApiName);
    r := ByCalling(notify.value, Some(HandlerName));
    if HasHandler(api1) {
      SubscribedKeepsValid(before, ErrorEvent(api2).value, Record(api1.name, api1.members[HandlerName].cb));
    }
    assert forall k :: k in reg && k != ObjectApiName ==> reg[k] != api2;
  }

  /** Running the command again after it succeeded changes nothing more. */
  lemma RunIdempotent(registry: Option<Registry>, tables: Tables)
    requires RunSpec(registry, tables).Ok?
    ensures RunSpec(registry, RunSpec(registry, tables).value) == RunSpec(registry, tables)
  {
    var reg := registry.value;
    if ObjectApiName in reg {
      var api2 := reg[ObjectApiName];
      var api1 := reg[SubjectApiName];
      var rec := Record(api1.name, api1.members[HandlerName].cb);
      var t := TableAt(tables, ObjectApiName);
      SubscribedIdempotent(t, ErrorEvent(api2).value, rec);
      var once := RunSpec(registry, tables).value;
      assert once == tables[ObjectApiName := Some(Subscribed(t, ErrorEvent(api2).value, rec))];
      assert once[ObjectApiName := Some(Subscribed(TableAt(once, ObjectApiName), ErrorEvent(api2).value, rec))] == once;
    }
  }

  /**
   * With Api1 and Api2 both loaded, a successful run leaves exactly one
   * record with Api1's handler in Api2's error list, however often it ran before.
   */
  lemma RunSubscribesOnce(registry: Registry, tables: Tables)
    requires SubjectApiName in registry && ObjectApiName in registry
    requires AllValid(tables)
    requires RunSpec(Some(registry), tables).Ok?
    ensures var after := RunSpec(Some(registry), tables).value;
            var error := ErrorEvent(registry[ObjectApiName]).value;
            Occurrences(after[ObjectApiName].value[error], registry[SubjectApiName].members[HandlerName].cb) == 1
  {
    var api2 := registry[ObjectApiName];
    var api1 := registry[SubjectApiName];
    var rec := Record(api1.name, api1.members[HandlerName].cb);
    SubscribedOnce(TableAt(tables, ObjectApiName), ErrorEvent(api2).value, rec);
  }
}
