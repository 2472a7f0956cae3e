/**
 * The emitter capability that every API shares (src/api.js): a subscriber
 * table from event kinds to ordered lists of `{name, cb}` records, the fluent
 * `on(e).notify(sub).byCalling(m)` subscription builder, and `emit`.
 */
module EventApi {
  import opened Wrappers
  import opened Errors

  /** An event kind. JavaScript turns every property key into a string. */
  type Event = string

  /** A callback function, compared by identity only. */
  datatype Callback = Callback(id: nat)

  /** A property of an object used as a subscriber: a function, or any other value. */
  datatype Member = Method(cb: Callback) | Field

  /** A subscription record `{name: subscriber.name, cb: cb}`; `""` stands for a missing name. */
  datatype Record = Record(name: string, cb: Callback)

  /** The subscriber table: each event kind maps to its ordered list of records. */
  type Table = map<Event, seq<Record>>

  /** One invocation made by `emit`: the callback and the arguments passed to it. */
  datatype Call<T> = Call(cb: Callback, args: seq<T>)

  predicate HasCallback(list: seq<Record>, cb: Callback) {
    exists i :: 0 <= i < |list| && list[i].cb == cb
  }

  /** The uniqueness invariant: no list holds two records with the same callback. */
  predicate NoDuplicateCallbacks(list: seq<Record>) {
    forall i, j :: 0 <= i < j < |list| ==> list[i].cb != list[j].cb
  }

  /** A table (or its absence) in which every list keeps the uniqueness invariant. */
  predicate TableValid(t: Option<Table>) {
    t.Some? ==> forall e :: e in t.value ==> NoDuplicateCallbacks(t.value[e])
  }

  /** The lists of a table; a table that has not been created yet has none. */
  function Entries(t: Option<Table>): Table {
    if t.Some? then t.value else map[]
  }

  /** The list for `e`, or the empty list that `configureOn` creates lazily. */
  function ListOf(t: Option<Table>, e: Event): seq<Record> {
    if e in Entries(t) then Entries(t)[e] else []
  }

  /** How many records of `list` hold callback `cb`. */
  function Occurrences(list: seq<Record>, cb: Callback): nat {
    if list == [] then 0
    else (if list[0].cb == cb then 1 else 0) + Occurrences(list[1..], cb)
  }

  /**
   * The table after subscribing `rec` to `e`: the table and the list are
   * created if missing, and `rec` is appended unless its callback is
   * already subscribed to `e`.
   */
  function Subscribed(t: Option<Table>, e: Event, rec: Record): (r: Table)
    ensures e in r && HasCallback(r[e], rec.cb)
    ensures forall e' :: e' != e ==> (e' in r <==> e' in Entries(t))
    ensures forall e' :: e' != e && e' in r ==> r[e'] == Entries(t)[e']
    ensures ListOf(t, e) <= r[e] && |r[e]| <= |ListOf(t, e)| + 1
    ensures |r[e]| == |ListOf(t, e)| + 1 <==> !HasCallback(ListOf(t, e), rec.cb)
    ensures |r[e]| == |ListOf(t, e)| + 1 ==> r[e][|r[e]| - 1] == rec
  {
    var list := ListOf(t, e);
    if HasCallback(list, rec.cb) then Entries(t)[e := list]
    else
      assert (list + [rec])[|list|].cb == rec.cb;
      Entries(t)[e := list + [rec]]
  }

  /** `list.filter(s => s.name !== name)`. */
  function Without(list: seq<Record>, name: string): (r: seq<Record>)
    ensures forall i :: 0 <= i < |r| ==> r[i].name != name && r[i] in list
    ensures |r| <= |list|
  {
    if list == [] then []
    else if list[0].name == name then Without(list[1..], name)
    else [list[0]] + Without(list[1..], name)
  }

  /** A table with every record named `name` removed from every list. */
  function Scrub(t: Option<Table>, name: string): (r: Option<Table>)
    ensures r.Some? <==> t.Some?
    ensures r.Some? ==> r.value.Keys == t.value.Keys
    ensures r.Some? ==> forall e :: e in r.value ==> r.value[e] == Without(t.value[e], name)
  {
    if t.None? then None
    else Some(map e | e in t.value :: Without(t.value[e], name))
  }

  /** No list of the table holds a record named `name`. */
  predicate NoneNamed(t: Option<Table>, name: string) {
    t.Some? ==> forall e, i :: e in t.value && 0 <= i < |t.value[e]| ==> t.value[e][i].name != name
  }

  /** The first stage of the builder: `api.on(event)`. */
  datatype OnBuilder = OnBuilder(emitter: Api, event: Event)

  /** The second stage: `api.on(event).notify(subscriber)`. */
  datatype NotifyBuilder = NotifyBuilder(emitter: Api, event: Event, subscriber: Api)

  /**
   * An API: an object with a name, an `events` enumeration and the
   * properties it can be subscribed by, which gains a subscriber table
   * on its first subscription. Plain subscriber objects are APIs without
   * a table.
   */
  class Api {
    const name: string
    const events: map<string, Event>
    const members: map<string, Member>
    var subscribers: Option<Table>

    ghost predicate Valid()
      reads this
    {
      TableValid(subscribers)
    }

    constructor (name: string, events: map<string, Event>, members: map<string, Member>)
      ensures this.name == name && this.events == events && this.members == members
      ensures subscribers == None && Valid()
    {
      this.name := name;
      this.events := events;
      this.members := members;
      subscribers := None;
    }

    /**
     * `emit(event, ...args)`: calls every callback subscribed to `event`
     * once, in list order, with `args`. The result is the trace of calls.
     */
    method Emit<T>(event: Option<Event>, args: seq<T>) returns (r: Result<seq<Call<T>>, Error>)
      ensures event.None? ==> r == Err(EventNotSupplied)
      ensures event.Some? && subscribers.None? ==> r == Ok([])
      ensures event.Some? && subscribers.Some? && event.value !in subscribers.value ==>
                r == Err(UndefinedSubscriberList)
      ensures event.Some? && subscribers.Some? && event.value in subscribers.value ==>
                r.Ok? && |r.value| == |subscribers.value[event.value]| &&
                forall i :: 0 <= i < |r.value| ==> r.value[i] == Call(subscribers.value[event.value][i].cb, args)
      ensures r.Ok? && Valid() ==> forall i, j :: 0 <= i < j < |r.value| ==> r.value[i].cb != r.value[j].cb
    {
      if event.None? {
        return Err(EventNotSupplied);
      }
      if subscribers.None? {
        return Ok([]);
      }
      if event.value !in subscribers.value {
        return Err(UndefinedSubscriberList);
      }
      var list := subscribers.value[event.value];
      var calls: seq<Call<T>> := [];
      for i := 0 to |list|
        invariant |calls| == i
        invariant forall k :: 0 <= k < i ==> calls[k] == Call(list[k].cb, args)
      {
        calls := calls + [Call(list[i].cb, args)];
      }
      return Ok(calls);
    }

    /** `on(event)`: the first stage of the subscription builder. */
    function On(event: Option<Event>): (r: Result<OnBuilder, Error>)
      ensures r.Err? <==> event.None?
      ensures r.Err? ==> r.error == EventNotSupplied
      ensures r.Ok? ==> r.value.emitter == this && Some(r.value.event) == event
    {
      if event.None? then Err(EventNotSupplied) else Ok(OnBuilder(this, event.value))
    }

    /**
     * `configureOn`: looks `methodName` up on the subscriber and, when it is
     * a function, subscribes it to `event` unless it already is.
     */
    method ConfigureOn(event: Event, subscriber: Api, methodName: string) returns (r: Outcome<Error>)
      requires Valid()
      modifies this
      ensures Valid()
      ensures methodName !in subscriber.members ==>
                r == Fail(MethodNameNotPresent) && subscribers == old(subscribers)
      ensures methodName in subscriber.members && subscriber.members[methodName].Field? ==>
                r == Fail(MethodNameNotAFunction) && subscribers == old(subscribers)
      ensures methodName in subscriber.members && subscriber.members[methodName].Method? ==>
                r == Pass &&
                subscribers == Some(Subscribed(old(subscribers), event,
                                               Record(subscriber.name, subscriber.members[methodName].cb)))
    {
      if methodName !in subscriber.members {
        return Fail(MethodNameNotPresent);
      }
      var member := subscriber.members[methodName];
      if member.Field? {
        return Fail(MethodNameNotAFunction);
      }
      var cb := member.cb;
      ghost var subscribers0 := subscribers;
      var table := if subscribers.Some? then subscribers.value else map[];
      var list := if event in table then table[event] else [];
      table := table[event := list];
      subscribers := Some(table);
      var i := 0;
      while i < |list|
        invariant 0 <= i <= |list|
        invariant forall k :: 0 <= k < i ==> list[k].cb != cb
      {
        if list[i].cb == cb {
          assert HasCallback(list, cb);
          return Pass;
        }
        i := i + 1;
      }
      assert !HasCallback(list, cb);
      SubscribedKeepsNoDuplicates(old(subscribers), event, Record(subscriber.name, cb));
      assert Subscribed(subscribers0, event, Record(subscriber.name, cb)) == table[event := list + [Record(subscriber.name, cb)]];
      subscribers := Some(table[event := list + [Record(subscriber.name, cb)]]);
      return Pass;
    }
  }

  /** `on(event).notify(subscriber)`: the second stage of the builder. */
  function Notify(b: OnBuilder, subscriber: Api?): (r: Result<NotifyBuilder, Error>)
    ensures r.Err? <==> subscriber == null
    ensures r.Err? ==> r.error == SubscriberNotSupplied
    ensures r.Ok? ==> r.value == NotifyBuilder(b.emitter, b.event, subscriber)
  {
    if subscriber == null then Err(SubscriberNotSupplied) else Ok(NotifyBuilder(b.emitter, b.event, subscriber))
  }

  /**
   * `on(event).notify(subscriber).byCalling(methodName)`: the last stage,
   * which validates the method name and subscribes on the emitter.
   */
  method ByCalling(b: NotifyBuilder, methodName: Option<string>) returns (r: Outcome<Error>)
    requires b.emitter.Valid()
    modifies b.emitter
    ensures b.emitter.Valid()
    ensures methodName.None? || methodName == Some("") ==>
              r == Fail(MethodNameNotSupplied) && b.emitter.subscribers == old(b.emitter.subscribers)
    ensures methodName.Some? && methodName.value != "" && methodName.value !in b.subscriber.members ==>
              r == Fail(MethodNameNotPresent) && b.emitter.subscribers == old(b.emitter.subscribers)
    ensures methodName.Some? && methodName.value != "" && methodName.value in b.subscriber.members &&
            b.subscriber.members[methodName.value].Field? ==>
              r == Fail(MethodNameNotAFunction) && b.emitter.subscribers == old(b.emitter.subscribers)
    ensures methodName.Some? && methodName.value != "" && methodName.value in b.subscriber.members &&
            b.subscriber.members[methodName.value].Method? ==>
              r == Pass &&
              b.emitter.subscribers ==
                Some(Subscribed(old(b.emitter.subscribers), b.event,
                                Record(b.subscriber.name, b.subscriber.members[methodName.value].cb)))
  {
    if methodName.None? || methodName.value == "" {
      return Fail(MethodNameNotSupplied);
    }
    r := b.emitter.ConfigureOn(b.event, b.subscriber, methodName.value);
  }

  /** Subscribing keeps the uniqueness invariant of the list it appends to. */
  lemma SubscribedKeepsNoDuplicates(t: Option<Table>, e: Event, rec: Record)
    requires NoDuplicateCallbacks(ListOf(t, e))
    ensures NoDuplicateCallbacks(Subscribed(t, e, rec)[e])
  {
    var list := ListOf(t, e);
    if !HasCallback(list, rec.cb) {
      var r := Subscribed(t, e, rec)[e];
      assert r == list + [rec];
      forall i, j | 0 <= i < j < |r| ensures r[i].cb != r[j].cb {
        if j == |list| {
          assert r[i] == list[i];
        }
      }
    }
  }

  /** Subscribing keeps the uniqueness invariant of the whole table. */
  lemma SubscribedKeepsValid(t: Option<Table>, e: Event, rec: Record)
    requires TableValid(t)
    ensures TableValid(Some(Subscribed(t, e, rec)))
  {
    SubscribedKeepsNoDuplicates(t, e, rec);
  }

  /** Subscribing the same record a second time is a no-op. */
  lemma SubscribedIdempotent(t: Option<Table>, e: Event, rec: Record)
    ensures Subscribed(Some(Subscribed(t, e, rec)), e, rec) == Subscribed(t, e, rec)
  {
    var r := Subscribed(t, e, rec);
    assert ListOf(Some(r), e) == r[e];
    assert r[e := r[e]] == r;
  }

  /** In a list without duplicate callbacks, a present callback occurs exactly once. */
  lemma {:induction false} OccursOnce(list: seq<Record>, cb: Callback)
    requires NoDuplicateCallbacks(list)
    ensures Occurrences(list, cb) == (if HasCallback(list, cb) then 1 else 0)
  {
    if list != [] {
      OccursOnce(list[1..], cb);
      if list[0].cb == cb {
        forall k | 0 <= k < |list[1..]| ensures list[1..][k].cb != cb {
          assert list[1..][k] == list[k + 1];
        }
      } else {
        assert HasCallback(list, cb) ==> HasCallback(list[1..], cb) by {
          if HasCallback(list, cb) {
            var i :| 0 <= i < |list| && list[i].cb == cb;
            assert list[1..][i - 1].cb == cb;
          }
        }
        assert HasCallback(list[1..], cb) ==> HasCallback(list, cb) by {
          if HasCallback(list[1..], cb) {
            var i :| 0 <= i < |list[1..]| && list[1..][i].cb == cb;
            assert list[i + 1].cb == cb;
          }
        }
      }
    }
  }

  /** After a subscription on a valid table, the list holds its callback exactly once. */
  lemma SubscribedOnce(t: Option<Table>, e: Event, rec: Record)
    requires TableValid(t)
    ensures Occurrences(Subscribed(t, e, rec)[e], rec.cb) == 1
  {
    SubscribedKeepsNoDuplicates(t, e, rec);
    OccursOnce(Subscribed(t, e, rec)[e], rec.cb);
  }

  /** Filtering distributes over concatenation, so relative order is kept. */
  lemma {:induction false} WithoutAppend(a: seq<Record>, b: seq<Record>, name: string)
    ensures Without(a + b, name) == Without(a, name) + Without(b, name)
  {
    if a == [] {
      assert a + b == b;
    } else {
      assert (a + b)[0] == a[0];
      assert (a + b)[1..] == a[1..] + b;
      WithoutAppend(a[1..], b, name);
    }
  }

  /** Filtering keeps every record that is not named `name`. */
  lemma {:induction false} WithoutKeepsOthers(list: seq<Record>, name: string, x: Record)
    requires x in list && x.name != name
    ensures x in Without(list, name)
  {
    if list[0] != x {
      assert x in list[1..];
      WithoutKeepsOthers(list[1..], name, x);
    }
  }

  /** A list holding no record named `name` is left as it is. */
  lemma {:induction false} WithoutNothingNamed(list: seq<Record>, name: string)
    requires forall i :: 0 <= i < |list| ==> list[i].name != name
    ensures Without(list, name) == list
  {
    if list != [] {
      WithoutNothingNamed(list[1..], name);
      assert [list[0]] + list[1..] == list;
    }
  }

  /** Filtering keeps the uniqueness invariant. */
  lemma {:induction false} WithoutKeepsNoDuplicates(list: seq<Record>, name: string)
    requires NoDuplicateCallbacks(list)
    ensures NoDuplicateCallbacks(Without(list, name))
  {
    if list != [] {
      WithoutKeepsNoDuplicates(list[1..], name);
      var rest := Without(list[1..], name);
      if list[0].name != name {
        var r := [list[0]] + rest;
        forall i, j | 0 <= i < j < |r| ensures r[i].cb != r[j].cb {
          if i == 0 {
            assert r[j] in list[1..];
            var k :| 0 <= k < |list[1..]| && list[1..][k] == r[j];
            assert list[k + 1] == r[j];
          } else {
            assert r[i] == rest[i - 1] && r[j] == rest[j - 1];
          }
        }
      }
    }
  }

  /** Scrubbing leaves no record named `name` and keeps the table valid. */
  lemma ScrubRemovesName(t: Option<Table>, name: string)
    requires TableValid(t)
    ensures NoneNamed(Scrub(t, name), name) && TableValid(Scrub(t, name))
  {
    if t.Some? {
      forall e | e in t.value ensures NoDuplicateCallbacks(Without(t.value[e], name)) {
        WithoutKeepsNoDuplicates(t.value[e], name);
      }
    }
  }
}
