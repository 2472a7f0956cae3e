/**
 * The shape of a connect-command and of the registry it runs against
 * (src/connector.js). A command names its subject API, the object APIs it
 * depends on, and what its `run(apiRegistry)` does.
 */
module Commands {
  import opened Wrappers
  import opened EventApi

  /**
   * What `run` does. `Api1Connect` is the command of
   * src/example/api1-connect-command.js; every other command is external
   * to the library and is modelled as leaving all subscriber tables alone.
   */
  datatype Kind = Inert | Api1Connect

  /** `{subjectApiName, objectApiNames, run}`; a missing `objectApiNames` is `[]`. */
  datatype Command = Command(subject: Option<string>, objects: seq<string>, kind: Kind)

  /** The registry: API name to API object. */
  type Registry = map<string, Api>

  /** The subscriber tables of the registered APIs, by name. */
  type Tables = map<string, Option<Table>>

  /** Every API is registered under its own name, so distinct names are distinct objects. */
  predicate WellKeyed(registry: Registry) {
    forall k :: k in registry ==> registry[k].name == k
  }

  /** The current subscriber tables of the registered APIs. */
  function TablesOf(registry: Registry): (t: Tables)
    reads registry.Values
    ensures t.Keys == registry.Keys
  {
    map k | k in registry :: registry[k].subscribers
  }

  /** Every table keeps the uniqueness invariant of its lists. */
  predicate AllValid(tables: Tables) {
    forall k :: k in tables ==> TableValid(tables[k])
  }

  /** The table recorded for `name`; an unknown name has none. */
  function TableAt(tables: Tables, name: string): Option<Table> {
    if name in tables then tables[name] else None
  }
}
