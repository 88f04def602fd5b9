/**
 * The older connection-only registrar (connection.js). In callback flavour it
 * creates the connection, arms the close hook and fills the handle at once.
 * In promise flavour it attaches the still-empty handle object synchronously
 * and fills it, arms the hook and calls `next()` only when the factory's
 * promise resolves. Neither flavour probes the connection.
 */
module LegacyConnection {
  import opened JsValues
  import opened Driver
  import opened Fastify
  import FastifyMysql
  import LegacyPool

  const ControlKeys: set<string> := {"name", "promise"}

  /** The handle: the connection, its `query`, and the three utilities, all
      bound to the connection. There is no `execute`. */
  function Handle(connection: map<string, JsVal>): (db: map<string, JsVal>)
    ensures "connection" in db && db["connection"] == Obj(connection)
  {
    var c := Obj(connection);
    map["connection" := c,
        "query" := Func(Bound("query", c)),
        "format" := Func(Bound("format", c)),
        "escape" := Func(Bound("escape", c)),
        "escapeId" := Func(Bound("escapeId", c))]
  }

  lemma HandleFields(connection: map<string, JsVal>)
    ensures var db := Handle(connection);
      && db.Keys == {"connection", "query", "format", "escape", "escapeId"}
      && "execute" !in db
      && forall m :: m in db && m != "connection" ==> db[m] == Func(Bound(m, Obj(connection)))
  {
  }

  /** Where the handle object went: the attribute itself, or one of its keys. */
  datatype Place = Default | Named(key: string)

  datatype Attached = Attached(slot: Option<map<string, JsVal>>, error: Option<Error>, place: Option<Place>)

  /** The namespace step; both collisions return without writing. The error
      strings are those of pool.js. */
  function Attach(slot: Option<map<string, JsVal>>, name: JsVal, db: map<string, JsVal>): (r: Attached)
    requires FastifyMysql.NameOk(name)
    ensures r.error.Some? <==> r.place.None?
    ensures r.error.Some? ==> r.slot == (if Truthy(name) then Some(FastifyMysql.SlotObject(slot)) else slot)
    ensures Truthy(name) ==>
      (r.error.Some? <==> Truthy(Lookup(FastifyMysql.SlotObject(slot), name.s)))
    ensures Truthy(name) && r.error.Some? ==> r.error.value == PluginError(LegacyPool.NameTaken(name.s))
    ensures Truthy(name) && r.error.None? ==>
      r.slot == Some(FastifyMysql.SlotObject(slot)[name.s := Obj(db)]) && r.place == Some(Named(name.s))
    ensures !Truthy(name) ==> (r.error.Some? <==> slot.Some?)
    ensures !Truthy(name) && r.error.Some? ==> r.error.value == PluginError(LegacyPool.AlreadyRegistered)
    ensures !Truthy(name) && r.error.None? ==> r.slot == Some(db) && r.place == Some(Default)
  {
    if Truthy(name) then
      var ns := FastifyMysql.SlotObject(slot);
      if Truthy(Lookup(ns, name.s)) then Attached(Some(ns), Some(PluginError(LegacyPool.NameTaken(name.s))), None)
      else Attached(Some(ns[name.s := Obj(db)]), None, Some(Named(name.s)))
    else if slot.Some? then Attached(slot, Some(PluginError(LegacyPool.AlreadyRegistered)), None)
    else Attached(Some(db), None, Some(Default))
  }

  function PropsOf(v: JsVal): map<string, JsVal>
  {
    if v.Obj? then v.props else map[]
  }

  /** The resolution handler writing `fields` into the handle object, which sits
      at `place` in the attribute (if it was attached at all). */
  function Fill(slot: Option<map<string, JsVal>>, place: Option<Place>, fields: map<string, JsVal>): Option<map<string, JsVal>>
  {
    match place
    case None => slot
    case Some(Default) => Some(FastifyMysql.SlotObject(slot) + fields)
    case Some(Named(k)) =>
      var ns := FastifyMysql.SlotObject(slot);
      Some(ns[k := Obj(PropsOf(Get(ns, k)) + fields)])
  }

  /** In promise flavour, the handle object, still empty, is what the
      synchronous part attaches; once filled it is the full handle. */
  lemma FilledPlaceHoldsHandle(slot: Option<map<string, JsVal>>, name: JsVal, connection: map<string, JsVal>)
    requires FastifyMysql.NameOk(name)
    ensures var a := Attach(slot, name, map[]);
      var filled := Fill(a.slot, a.place, Handle(connection));
      && (a.place == Some(Default) ==> a.slot == Some(map[]) && filled == Some(Handle(connection)))
      && (a.place.Some? && a.place.value.Named? ==>
            var k := a.place.value.key;
            && a.slot.value[k] == Obj(map[])
            && filled == Some(a.slot.value[k := Obj(Handle(connection))]))
      && (a.place.None? ==> filled == a.slot)
  {
    var a := Attach(slot, name, map[]);
    if a.place == Some(Default) {
      assert map[] + Handle(connection) == Handle(connection);
    } else if a.place.Some? {
      var k := a.place.value.key;
      assert PropsOf(a.slot.value[k]) + Handle(connection) == Handle(connection);
    }
  }

  /** connection.js's `fastifyMysql(fastify, options, next)`, with the promise
      flavour's resolution run to its end. `script.client` is the connection;
      `script.factoryRejection` says whether the promise factory rejects. */
  method Register(host: Host, driver: Mysql2, options: JsObject, script: Script) returns (signals: seq<Signal>)
    requires FastifyMysql.NameOk(Get(options.props, "name"))
    modifies host, driver, options
    ensures options.props == Without(old(options.props), ControlKeys)
    ensures
      var name := Get(old(options.props), "name");
      var flavour := FlavourOf(Get(old(options.props), "promise"));
      var hook := EndClient(Obj(script.client), EndWithCallback);
      && driver.log == old(driver.log) + [Driver.CreateConnection(flavour, FastifyMysql.FactoryConfig(options.props))]
      && (flavour == Callback ==>
            var a := Attach(old(host.mysql), name, Handle(script.client));
            && host.closeHooks == old(host.closeHooks) + [hook]
            && host.mysql == a.slot
            && signals == [Next(a.error)])
      && (flavour == Promise ==>
            var a := Attach(old(host.mysql), name, map[]);
            var early := if a.error.Some? then [Next(a.error)] else [];
            if script.factoryRejection.Some? then
              && host.closeHooks == old(host.closeHooks)
              && host.mysql == a.slot
              && signals == early + [Next(script.factoryRejection)]
            else
              && host.closeHooks == old(host.closeHooks) + [hook]
              && host.mysql == Fill(a.slot, a.place, Handle(script.client))
              && signals == early + [Next(None)])
  {
    var name := options.Take("name");
    var usePromise := options.Take("promise");
    var config := FastifyMysql.FactoryConfig(options.props);
    var connection := Obj(script.client);
    var db: map<string, JsVal> := map[];
    if Truthy(usePromise) {
      driver.Call(Driver.CreateConnection(Promise, config));
      var place;
      signals, place := Decorate(host, name, db);
      // the promise settles after the synchronous part has returned
      if script.factoryRejection.Some? {
        signals := signals + [Next(script.factoryRejection)];
      } else {
        host.AddCloseHook(EndClient(connection, EndWithCallback));
        db := db["connection" := connection];
        db := db["query" := Func(Bound("query", connection))];
        db := db["format" := Func(Bound("format", connection))];
        db := db["escape" := Func(Bound("escape", connection))];
        db := db["escapeId" := Func(Bound("escapeId", connection))];
        host.mysql := Fill(host.mysql, place, db);
        signals := signals + [Next(None)];
      }
    } else {
      driver.Call(Driver.CreateConnection(Callback, config));
      host.AddCloseHook(EndClient(connection, EndWithCallback));
      db := db["connection" := connection];
      db := db["query" := Func(Bound("query", connection))];
      db := db["format" := Func(Bound("format", connection))];
      db := db["escape" := Func(Bound("escape", connection))];
      db := db["escapeId" := Func(Bound("escapeId", connection))];
      var place;
      signals, place := Decorate(host, name, db);
      if place.Some? {
        signals := [Next(None)];
      }
    }
  }

  /** Lines 42-58: the collision signal, if any, and where `db` went. */
  method Decorate(host: Host, name: JsVal, db: map<string, JsVal>) returns (signals: seq<Signal>, place: Option<Place>)
    requires FastifyMysql.NameOk(name)
    modifies host
    ensures var a := Attach(old(host.mysql), name, db);
      host.mysql == a.slot && place == a.place && signals == (if a.error.Some? then [Next(a.error)] else [])
    ensures host.closeHooks == old(host.closeHooks)
  {
    if Truthy(name) {
      if host.mysql.None? {
        host.mysql := Some(map[]);
      }
      if Truthy(Lookup(host.mysql.value, name.s)) {
        return [Next(Some(PluginError(LegacyPool.NameTaken(name.s))))], None;
      }
      host.mysql := Some(host.mysql.value[name.s := Obj(db)]);
      place := Some(Named(name.s));
    } else {
      if host.mysql.Some? {
        return [Next(Some(PluginError(LegacyPool.AlreadyRegistered)))], None;
      }
      host.mysql := Some(db);
      place := Some(Default);
    }
    signals := [];
  }

  /** Promise flavour, fresh scope, no name, factory rejects: the error reaches
      `next`, no hook is armed, and the empty handle object stays attached. */
  method RejectedPromiseLeavesEmptyHandle(error: Error, connection: map<string, JsVal>)
    returns (signals: seq<Signal>, attribute: Option<map<string, JsVal>>, hooks: nat)
    ensures signals == [Next(Some(error))]
    ensures attribute == Some(map[])
    ensures hooks == 0
  {
    var host := new Host();
    var driver := new Mysql2();
    var o := new JsObject(map["promise" := Bool(true)]);
    signals := Register(host, driver, o, Script(connection, Some(error), None));
    attribute := host.mysql;
    hooks := |host.closeHooks|;
  }

  /** Promise flavour, a second unnamed registration: the collision is reported
      at once, and when its connection resolves `next()` is called again and
      its close hook is armed, while the first handle stays attached. */
  method PromiseCollisionSignalsTwice(connection1: map<string, JsVal>, connection2: map<string, JsVal>)
    returns (signals2: seq<Signal>, attribute: Option<map<string, JsVal>>, hooks: seq<CloseHook>)
    ensures signals2 == [Next(Some(PluginError(LegacyPool.AlreadyRegistered))), Next(None)]
    ensures attribute == Some(Handle(connection1))
    ensures hooks == [EndClient(Obj(connection1), EndWithCallback), EndClient(Obj(connection2), EndWithCallback)]
  {
    var host := new Host();
    var driver := new Mysql2();
    var o1 := new JsObject(map["promise" := Bool(true)]);
    var _ := Register(host, driver, o1, Script(connection1, None, None));
    assert map[] + Handle(connection1) == Handle(connection1);
    var o2 := new JsObject(map["promise" := Bool(true)]);
    signals2 := Register(host, driver, o2, Script(connection2, None, None));
    attribute := host.mysql;
    hooks := host.closeHooks;
  }
}
