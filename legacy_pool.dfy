/**
 * The older pool-only registrar (pool.js). It strips only `name` and
 * `promise`, creates a pool without probing it, and calls `next()` at the
 * end of every path: a named collision reports an error, overwrites the slot
 * anyway and signals success too. Its close hook clears the attribute
 * before ending the pool.
 */
module LegacyPool {
  import opened JsValues
  import opened Driver
  import opened Fastify
  import FastifyMysql

  /** `type` is not among them: it reaches the driver. */
  const ControlKeys: set<string> := {"name", "promise"}

  const AlreadyRegistered: string := "fastify-mysql has already registered"

  /** As written: no space between the name and "has". */
  function NameTaken(name: string): string
  {
    "fastify.mysql." + name + "has already registered"
  }

  const Utilities: set<string> := {"format", "escape", "escapeId"}

  /** The handle: pool methods bound to the pool, `connect` forwarding to
      `pool.getConnection`, and each utility from the required module, or the
      pool's own when the module lacks it. */
  function Handle(pool: map<string, JsVal>, exports: map<string, JsVal>): (db: map<string, JsVal>)
    ensures "pool" in db && db["pool"] == Obj(pool)
  {
    var p := Obj(pool);
    map["connect" := Func(Closure("getConnection", p)),
        "pool" := p,
        "query" := Func(Bound("query", p)),
        "end" := Func(Bound("end", p)),
        "getConnection" := Func(Bound("getConnection", p)),
        "format" := Or(Get(exports, "format"), Get(pool, "format")),
        "escape" := Or(Get(exports, "escape"), Get(pool, "escape")),
        "escapeId" := Or(Get(exports, "escapeId"), Get(pool, "escapeId"))]
  }

  lemma HandleFields(pool: map<string, JsVal>, exports: map<string, JsVal>)
    ensures var db := Handle(pool, exports);
      && db.Keys == {"connect", "pool", "query", "end", "getConnection", "format", "escape", "escapeId"}
      && db["connect"] == Func(Closure("getConnection", Obj(pool)))
      && (forall m :: m in {"query", "end", "getConnection"} ==> db[m] == Func(Bound(m, Obj(pool))))
      && (forall u :: u in Utilities && Truthy(Get(exports, u)) ==> db[u] == Get(exports, u))
      && (forall u :: u in Utilities && !Truthy(Get(exports, u)) ==> db[u] == Get(pool, u))
  {
  }

  /** The namespace step: the new attribute and the error signals it emits
      before the final `next()`. */
  datatype Attached = Attached(slot: Option<map<string, JsVal>>, signals: seq<Signal>)

  function Attach(slot: Option<map<string, JsVal>>, name: JsVal, db: map<string, JsVal>): (r: Attached)
    requires FastifyMysql.NameOk(name)
    // named: the slot is written whether or not the name was taken
    ensures Truthy(name) ==> r.slot == Some(FastifyMysql.SlotObject(slot)[name.s := Obj(db)])
    ensures Truthy(name) ==> (r.signals == [] <==> !Truthy(Lookup(FastifyMysql.SlotObject(slot), name.s)))
    ensures Truthy(name) && r.signals != [] ==> r.signals == [Next(Some(PluginError(NameTaken(name.s))))]
    // unnamed: a taken attribute is reported and kept
    ensures !Truthy(name) && slot.Some? ==> r == Attached(slot, [Next(Some(PluginError(AlreadyRegistered)))])
    ensures !Truthy(name) && slot.None? ==> r == Attached(Some(db), [])
  {
    if Truthy(name) then
      var ns := FastifyMysql.SlotObject(slot);
      var early := if Truthy(Lookup(ns, name.s)) then [Next(Some(PluginError(NameTaken(name.s))))] else [];
      Attached(Some(ns[name.s := Obj(db)]), early)
    else if slot.Some? then Attached(slot, [Next(Some(PluginError(AlreadyRegistered)))])
    else Attached(Some(db), [])
  }

  /** pool.js's `fastifyMysql(fastify, options, next)`. `exports` are the
      exports of the module required for the flavour; `pool` is the object
      `createPool` returns. */
  method Register(host: Host, driver: Mysql2, options: JsObject, exports: map<string, JsVal>, pool: map<string, JsVal>)
    returns (signals: seq<Signal>)
    requires FastifyMysql.NameOk(Get(options.props, "name"))
    modifies host, driver, options
    ensures options.props == Without(old(options.props), ControlKeys)
    ensures driver.log ==
      old(driver.log) + [CreatePool(FlavourOf(Get(old(options.props), "promise")), FastifyMysql.FactoryConfig(options.props))]
    ensures var a := Attach(old(host.mysql), Get(old(options.props), "name"), Handle(pool, exports));
      host.mysql == a.slot && signals == a.signals + [Next(None)]
    ensures host.closeHooks == old(host.closeHooks) + [ClearThenEnd(Obj(pool))]
  {
    var name := options.Take("name");
    var usePromise := options.Take("promise");
    driver.Call(CreatePool(FlavourOf(usePromise), FastifyMysql.FactoryConfig(options.props)));
    var db := Handle(pool, exports);
    signals := [];
    if Truthy(name) {
      if host.mysql.None? {
        host.mysql := Some(map[]);
      }
      if Truthy(Lookup(host.mysql.value, name.s)) {
        signals := signals + [Next(Some(PluginError(NameTaken(name.s))))];
      }
      host.mysql := Some(host.mysql.value[name.s := Obj(db)]);
    } else {
      if host.mysql.Some? {
        signals := signals + [Next(Some(PluginError(AlreadyRegistered)))];
      } else {
        host.mysql := Some(db);
      }
    }
    host.AddCloseHook(ClearThenEnd(Obj(pool)));
    signals := signals + [Next(None)];
  }

  /** Unlike index.js, `type` stays in the options object the pool factory sees. */
  lemma TypeReachesDriver(options: map<string, JsVal>)
    requires "type" in options && !Truthy(Get(options, "connectionString"))
    ensures var config := FastifyMysql.FactoryConfig(Without(options, ControlKeys));
      config.Obj? && "type" in config.props && config.props["type"] == options["type"]
    ensures var config := FastifyMysql.FactoryConfig(Without(options, FastifyMysql.ControlKeys));
      config.Obj? && "type" !in config.props
  {
    assert Get(Without(options, ControlKeys), "connectionString") == Get(options, "connectionString");
    assert Get(Without(options, FastifyMysql.ControlKeys), "connectionString") == Get(options, "connectionString");
  }

  /** Registering the same name twice: the second registration calls `next`
      twice (the error, then success) and its handle replaces the first. */
  method SameNameTwice(name: string, exports: map<string, JsVal>, pool1: map<string, JsVal>, pool2: map<string, JsVal>)
    returns (signals2: seq<Signal>, held: JsVal)
    requires name != ""
    ensures signals2 == [Next(Some(PluginError(NameTaken(name)))), Next(None)]
    ensures held == Obj(Handle(pool2, exports))
  {
    var host := new Host();
    var driver := new Mysql2();
    var o1 := new JsObject(map["name" := Str(name)]);
    var _ := Register(host, driver, o1, exports, pool1);
    var o2 := new JsObject(map["name" := Str(name)]);
    signals2 := Register(host, driver, o2, exports, pool2);
    held := Get(host.mysql.value, name);
  }

  /** Closing after a registration clears the attribute before the pool is ended. */
  method RegisterThenClose(options: map<string, JsVal>, exports: map<string, JsVal>, pool: map<string, JsVal>)
    returns (attribute: Option<map<string, JsVal>>, lastCall: DriverCall)
    requires FastifyMysql.NameOk(Get(options, "name"))
    ensures attribute == None
    ensures lastCall == End(Obj(pool), EndWithCallback)
  {
    var host := new Host();
    var driver := new Mysql2();
    var o := new JsObject(options);
    var _ := Register(host, driver, o, exports, pool);
    host.RunCloseHook(host.closeHooks[0], driver);
    attribute := host.mysql;
    lastCall := driver.log[|driver.log| - 1];
  }
}
