/**
 * The current registrar (index.js): strip the control options, build a pool
 * or a single connection in callback or promise flavour, probe it with
 * `SELECT NOW()`, arm an `onClose` hook and attach the client handle to the
 * host's `mysql` attribute, as the default handle or under a name.
 */
module FastifyMysql {
  import opened JsValues
  import opened Driver
  import opened Fastify

  /** The options the plugin consumes itself and deletes before the driver sees them. */
  const ControlKeys: set<string> := {"type", "name", "promise"}

  /** The liveness probe issued on every freshly built client. */
  const ProbeSql: string := "SELECT NOW()"

  /** The phrase both collision errors end with. */
  const Phrase: string := "already been registered"

  const AlreadyRegistered: string := "fastify-mysql has " + Phrase

  function NameTaken(name: string): string
  {
    "fastify-mysql '" + name + "' instance name has " + Phrase
  }

  /** `text` occurs in `message` starting at index `i`. */
  predicate OccursAt(message: string, text: string, i: int)
  {
    0 <= i <= |message| - |text| && message[i..i + |text|] == text
  }

  /** `text` occurs somewhere in `message`. */
  ghost predicate Mentions(message: string, text: string)
  {
    exists i :: OccursAt(message, text, i)
  }

  lemma SuffixOccurs(a: string, b: string)
    ensures OccursAt(a + b, b, |a|)
  {
    assert (a + b)[|a|..|a| + |b|] == b;
  }

  lemma OccursInLonger(a: string, b: string, text: string, i: int)
    requires OccursAt(a, text, i)
    ensures OccursAt(a + b, text, i)
  {
    assert (a + b)[i..i + |text|] == a[i..i + |text|];
  }

  /** Both collision errors say "already been registered", and the named one
      also names the instance. */
  lemma CollisionMessages(name: string)
    ensures Mentions(AlreadyRegistered, Phrase)
    ensures Mentions(NameTaken(name), Phrase)
    ensures Mentions(NameTaken(name), name)
  {
    SuffixOccurs("fastify-mysql has ", Phrase);
    var head := "fastify-mysql '" + name;
    var tail := "' instance name has ";
    SuffixOccurs(head + tail, Phrase);
    SuffixOccurs("fastify-mysql '", name);
    OccursInLonger(head, tail, name, |"fastify-mysql '"|);
    OccursInLonger(head + tail, Phrase, name, |"fastify-mysql '"|);
  }

  /** The name option: absent or falsy for the default handle, otherwise a
      string, as the plugin's type declaration says. */
  predicate NameOk(name: JsVal)
  {
    !Truthy(name) || name.Str?
  }

  datatype Kind = PoolKind | ConnectionKind

  /** Only the exact string 'connection' selects a single connection. */
  function KindOf(connectionType: JsVal): Kind
  {
    if connectionType == Str("connection") then ConnectionKind else PoolKind
  }

  function EndStyleOf(flavour: Flavour): EndStyle
  {
    if flavour == Promise then EndThenSettle else EndWithCallback
  }

  /** `options.connectionString || options`: what the factory is given. */
  function FactoryConfig(options: map<string, JsVal>): JsVal
  {
    Or(Get(options, "connectionString"), Obj(options))
  }

  /** The three string utilities, always taken from the callback module. */
  function Utilities(): map<string, JsVal>
  {
    map["format" := Func(Export("mysql2", "format")),
        "escape" := Func(Export("mysql2", "escape")),
        "escapeId" := Func(Export("mysql2", "escapeId"))]
  }

  /** The handle field that holds the driver's pool or connection object. */
  function ClientField(kind: Kind): string
  {
    if kind == PoolKind then "pool" else "connection"
  }

  /** The client methods a handle exposes, each bound to the client object. */
  function BoundMembers(kind: Kind): set<string>
  {
    if kind == PoolKind then {"query", "execute", "getConnection"} else {"query", "execute"}
  }

  /** The client handle, field by field. */
  function Handle(kind: Kind, client: map<string, JsVal>): (db: map<string, JsVal>)
    ensures ClientField(kind) in db && db[ClientField(kind)] == Obj(client)
  {
    var c := Obj(client);
    if kind == PoolKind then
      Utilities()["pool" := c]["query" := Func(Bound("query", c))]["execute" := Func(Bound("execute", c))]
        ["getConnection" := Func(Bound("getConnection", c))]
    else
      Utilities()["connection" := c]["query" := Func(Bound("query", c))]["execute" := Func(Bound("execute", c))]
  }

  /** The fields of each handle shape: the three utilities, identical for
      every kind and flavour, plus the client and its methods bound to it. */
  lemma HandleFields(kind: Kind, client: map<string, JsVal>)
    ensures var db := Handle(kind, client);
      && (kind == PoolKind ==>
            db.Keys == {"format", "escape", "escapeId", "pool", "query", "execute", "getConnection"})
      && (kind == ConnectionKind ==>
            db.Keys == {"format", "escape", "escapeId", "connection", "query", "execute"})
      && (forall u :: u in Utilities() ==> u in db && db[u] == Utilities()[u])
      && (forall m :: m in BoundMembers(kind) ==> m in db && db[m] == Func(Bound(m, Obj(client))))
  {
  }

  /** How building a client ends: a handle, an error passed to the callback, or
      never (a failing probe on a promise connection is neither returned nor caught). */
  datatype Built = Built(db: map<string, JsVal>) | Failed(error: Error) | Hung

  function BuildOutcome(kind: Kind, flavour: Flavour, script: Script): (r: Built)
    ensures r.Built? ==> r.db == Handle(kind, script.client)
    ensures r.Built? <==> script.probeError.None? && (kind == ConnectionKind && flavour == Promise ==> script.factoryRejection.None?)
    ensures r.Hung? <==>
      kind == ConnectionKind && flavour == Promise && script.factoryRejection.None? && script.probeError.Some?
    ensures r.Failed? && kind == ConnectionKind && flavour == Promise ==> Some(r.error) == script.factoryRejection
    ensures r.Failed? && !(kind == ConnectionKind && flavour == Promise) ==> Some(r.error) == script.probeError
  {
    if kind == ConnectionKind && flavour == Promise then
      if script.factoryRejection.Some? then Failed(script.factoryRejection.value)
      else if script.probeError.Some? then Hung
      else Built(Handle(kind, script.client))
    else if script.probeError.Some? then Failed(script.probeError.value)
    else Built(Handle(kind, script.client))
  }

  /** The calls the builder makes on the driver: the factory of the requested
      kind, then the probe unless the promise connection factory rejected. */
  function BuildCalls(kind: Kind, flavour: Flavour, config: JsVal, script: Script): (calls: seq<DriverCall>)
    ensures 1 <= |calls| <= 2
    ensures kind == PoolKind ==> calls[0] == CreatePool(flavour, config)
    ensures kind == ConnectionKind ==> calls[0] == Driver.CreateConnection(flavour, config)
    ensures |calls| == 2 ==> calls[1] == Query(Obj(script.client), ProbeSql)
    ensures |calls| == 1 <==> kind == ConnectionKind && flavour == Promise && script.factoryRejection.Some?
  {
    var factory := if kind == PoolKind then CreatePool(flavour, config) else Driver.CreateConnection(flavour, config);
    if kind == ConnectionKind && flavour == Promise && script.factoryRejection.Some? then [factory]
    else [factory, Query(Obj(script.client), ProbeSql)]
  }

  /** `_createConnection`: builds the handle and probes the client. */
  method CreateConnection(driver: Mysql2, kind: Kind, flavour: Flavour, options: map<string, JsVal>, script: Script)
    returns (outcome: Built)
    modifies driver
    ensures outcome == BuildOutcome(kind, flavour, script)
    ensures driver.log == old(driver.log) + BuildCalls(kind, flavour, FactoryConfig(options), script)
  {
    var db := Utilities();
    var config := FactoryConfig(options);
    var client := Obj(script.client);
    if kind == PoolKind {
      driver.Call(CreatePool(flavour, config));
      db := db["pool" := client];
      db := db["query" := Func(Bound("query", client))];
      db := db["execute" := Func(Bound("execute", client))];
      db := db["getConnection" := Func(Bound("getConnection", client))];
      driver.Call(Query(client, ProbeSql));
      outcome := if script.probeError.Some? then Failed(script.probeError.value) else Built(db);
    } else {
      driver.Call(Driver.CreateConnection(flavour, config));
      if flavour == Callback {
        db := db["connection" := client];
        db := db["query" := Func(Bound("query", client))];
        db := db["execute" := Func(Bound("execute", client))];
        driver.Call(Query(client, ProbeSql));
        outcome := if script.probeError.Some? then Failed(script.probeError.value) else Built(db);
      } else if script.factoryRejection.Some? {
        outcome := Failed(script.factoryRejection.value);
      } else {
        db := db["connection" := client];
        db := db["query" := Func(Bound("query", client))];
        db := db["execute" := Func(Bound("execute", client))];
        driver.Call(Query(client, ProbeSql));
        outcome := if script.probeError.Some? then Hung else Built(db);
      }
    }
  }

  /** The object a named registration indexes into: the attribute's object, or
      the empty object `decorate('mysql', {})` creates when it is absent. */
  function SlotObject(slot: Option<map<string, JsVal>>): map<string, JsVal>
  {
    if slot.Some? then slot.value else map[]
  }

  datatype Attached = Attached(slot: Option<map<string, JsVal>>, error: Option<Error>)

  /** The namespace step: the new `mysql` attribute and the error, if any. */
  function Attach(slot: Option<map<string, JsVal>>, name: JsVal, db: map<string, JsVal>): (r: Attached)
    requires NameOk(name)
    // unnamed: fails exactly when the attribute exists, whatever it holds, and leaves it as it was
    ensures !Truthy(name) && slot.Some? ==> r == Attached(slot, Some(PluginError(AlreadyRegistered)))
    ensures !Truthy(name) && slot.None? ==> r == Attached(Some(db), None)
    // named: fails exactly when the name holds a truthy value; the attribute exists afterwards
    ensures Truthy(name) ==> r.slot.Some? && (r.error.Some? <==> Truthy(Lookup(SlotObject(slot), name.s)))
    ensures Truthy(name) && r.error.Some? ==>
      r.error.value == PluginError(NameTaken(name.s)) && r.slot.value == SlotObject(slot)
    // a successful named registration sets that key and no other
    ensures Truthy(name) && r.error.None? ==>
      && r.slot.value.Keys == SlotObject(slot).Keys + {name.s}
      && r.slot.value[name.s] == Obj(db)
      && forall k :: k in SlotObject(slot) && k != name.s ==> r.slot.value[k] == SlotObject(slot)[k]
  {
    if Truthy(name) then
      var ns := SlotObject(slot);
      if Truthy(Lookup(ns, name.s)) then Attached(Some(ns), Some(PluginError(NameTaken(name.s))))
      else Attached(Some(ns[name.s := Obj(db)]), None)
    else if slot.Some? then Attached(slot, Some(PluginError(AlreadyRegistered)))
    else Attached(Some(db), None)
  }

  /** Lines 26-44 of the registrar, on the host. */
  method Decorate(host: Host, name: JsVal, db: map<string, JsVal>) returns (signals: seq<Signal>)
    requires NameOk(name)
    modifies host
    ensures host.mysql == Attach(old(host.mysql), name, db).slot
    ensures signals == [Next(Attach(old(host.mysql), name, db).error)]
    ensures host.closeHooks == old(host.closeHooks)
  {
    if Truthy(name) {
      if host.mysql.None? {
        host.mysql := Some(map[]);
      }
      if Truthy(Lookup(host.mysql.value, name.s)) {
        return [Next(Some(PluginError(NameTaken(name.s))))];
      }
      host.mysql := Some(host.mysql.value[name.s := Obj(db)]);
    } else {
      if host.mysql.Some? {
        return [Next(Some(PluginError(AlreadyRegistered)))];
      }
      host.mysql := Some(db);
    }
    signals := [Next(None)];
  }

  /** The plugin function `fastifyMysql(fastify, options, next)`; `signals` are
      the calls of `next`, in order. */
  method Register(host: Host, driver: Mysql2, options: JsObject, script: Script) returns (signals: seq<Signal>)
    requires NameOk(Get(options.props, "name"))
    modifies host, driver, options
    ensures options.props == Without(old(options.props), ControlKeys)
    ensures
      var kind := KindOf(Get(old(options.props), "type"));
      var flavour := FlavourOf(Get(old(options.props), "promise"));
      var name := Get(old(options.props), "name");
      && driver.log == old(driver.log) + BuildCalls(kind, flavour, FactoryConfig(options.props), script)
      && match BuildOutcome(kind, flavour, script)
         case Built(db) =>
           && host.closeHooks == old(host.closeHooks) + [EndClient(db[ClientField(kind)], EndStyleOf(flavour))]
           && host.mysql == Attach(old(host.mysql), name, db).slot
           && signals == [Next(Attach(old(host.mysql), name, db).error)]
         case Failed(e) =>
           host.closeHooks == old(host.closeHooks) && host.mysql == old(host.mysql) && signals == [Next(Some(e))]
         case Hung =>
           host.closeHooks == old(host.closeHooks) && host.mysql == old(host.mysql) && signals == []
  {
    var connectionType := options.Take("type");
    var name := options.Take("name");
    var usePromise := options.Take("promise");
    WithoutEach(old(options.props), "type", "name", "promise");
    var kind, flavour := KindOf(connectionType), FlavourOf(usePromise);
    var outcome := CreateConnection(driver, kind, flavour, options.props, script);
    match outcome {
      case Hung =>
        signals := [];
      case Failed(e) =>
        signals := [Next(Some(e))];
      case Built(db) =>
        host.AddCloseHook(EndClient(db[ClientField(kind)], EndStyleOf(flavour)));
        signals := Decorate(host, name, db);
    }
  }

  /** The driver is handed either the truthy connection string or the caller's
      options object minus `type`, `name` and `promise`, every other key intact. */
  lemma ControlKeysNeverReachDriver(options: map<string, JsVal>)
    ensures var config := FactoryConfig(Without(options, ControlKeys));
      && (Truthy(Get(options, "connectionString")) ==> config == Get(options, "connectionString"))
      && (!Truthy(Get(options, "connectionString")) ==>
            && config.Obj?
            && config.props.Keys == options.Keys - ControlKeys
            && forall k :: k in config.props ==> config.props[k] == options[k])
  {
    assert Get(Without(options, ControlKeys), "connectionString") == Get(options, "connectionString");
  }

  /** A name inherited from `Object.prototype` (`constructor`, `toString`, …)
      reads as truthy on the namespace object even when nobody registered it, so
      such a registration fails with the named collision error and the
      namespace object stays as it was. */
  lemma InheritedNameCollides(slot: Option<map<string, JsVal>>, name: string, db: map<string, JsVal>)
    requires name in ObjectPrototype && name !in SlotObject(slot)
    ensures Attach(slot, Str(name), db) == Attached(Some(SlotObject(slot)), Some(PluginError(NameTaken(name))))
  {
  }

  /** Registrations run one after another in one scope, each under a name:
      the final attribute and the error each one reported. */
  datatype Run = Run(slot: Option<map<string, JsVal>>, errors: seq<Option<Error>>)

  function AttachAll(slot: Option<map<string, JsVal>>, regs: seq<(string, map<string, JsVal>)>): (r: Run)
    ensures |r.errors| == |regs|
    decreases |regs|
  {
    if regs == [] then Run(slot, [])
    else
      var first := Attach(slot, Str(regs[0].0), regs[0].1);
      var rest := AttachAll(first.slot, regs[1..]);
      Run(rest.slot, [first.error] + rest.errors)
  }

  function Names(regs: seq<(string, map<string, JsVal>)>): set<string>
  {
    set i | 0 <= i < |regs| :: regs[i].0
  }

  /** A name not yet present, and not inherited from `Object.prototype`, is
      attached without error and sets only itself. */
  lemma AttachFreshName(slot: Option<map<string, JsVal>>, name: string, db: map<string, JsVal>)
    requires name != "" && name !in SlotObject(slot) && name !in ObjectPrototype
    ensures Attach(slot, Str(name), db) == Attached(Some(SlotObject(slot)[name := Obj(db)]), None)
  {
  }

  lemma NamesOfTail(regs: seq<(string, map<string, JsVal>)>)
    requires regs != []
    ensures Names(regs) == {regs[0].0} + Names(regs[1..])
  {
    var tail := regs[1..];
    forall n | n in Names(regs) ensures n in {regs[0].0} + Names(tail) {
      var i :| 0 <= i < |regs| && regs[i].0 == n;
      if i > 0 { assert tail[i - 1] == regs[i]; }
    }
    forall n | n in Names(tail) ensures n in Names(regs) {
      var i :| 0 <= i < |tail| && tail[i].0 == n;
      assert regs[i + 1] == tail[i];
    }
  }

  /** Any number of registrations with distinct non-empty names, neither present
      yet nor inherited from `Object.prototype`, all succeed; each name then holds its own handle, and the keys that were
      there before keep their values. */
  lemma {:induction false} DistinctNamesAllAttach(slot: Option<map<string, JsVal>>, regs: seq<(string, map<string, JsVal>)>)
    requires forall i :: 0 <= i < |regs| ==> regs[i].0 != "" && regs[i].0 !in SlotObject(slot) && regs[i].0 !in ObjectPrototype
    requires forall i, j :: 0 <= i < j < |regs| ==> regs[i].0 != regs[j].0
    ensures var r := AttachAll(slot, regs);
      && (forall i :: 0 <= i < |regs| ==> r.errors[i] == None)
      && SlotObject(r.slot).Keys == SlotObject(slot).Keys + Names(regs)
      && (forall i :: 0 <= i < |regs| ==> SlotObject(r.slot)[regs[i].0] == Obj(regs[i].1))
      && (forall k :: k in SlotObject(slot) ==> SlotObject(r.slot)[k] == SlotObject(slot)[k])
    decreases |regs|
  {
    if regs != [] {
      var name, db := regs[0].0, regs[0].1;
      AttachFreshName(slot, name, db);
      var next := Some(SlotObject(slot)[name := Obj(db)]);
      var tail := regs[1..];
      forall i | 0 <= i < |tail|
        ensures tail[i].0 != "" && tail[i].0 !in SlotObject(next) && tail[i].0 !in ObjectPrototype
      {
        assert tail[i] == regs[i + 1];
      }
      forall i, j | 0 <= i < j < |tail|
        ensures tail[i].0 != tail[j].0
      {
        assert tail[i] == regs[i + 1] && tail[j] == regs[j + 1];
      }
      DistinctNamesAllAttach(next, tail);
      NamesOfTail(regs);
      var rest := AttachAll(next, tail);
      var r := AttachAll(slot, regs);
      assert r == Run(rest.slot, [None] + rest.errors);
      assert name !in Names(tail);
      forall i | 0 <= i < |regs|
        ensures r.errors[i] == None && SlotObject(r.slot)[regs[i].0] == Obj(regs[i].1)
      {
        if i > 0 {
          assert regs[i] == tail[i - 1];
        }
      }
    }
  }

  const LocalUrl: JsVal := Str("mysql://root@localhost/mysql")

  /** A pool registration from a connection string, named `name` unless it is
      empty, whose server answers: only the namespace step decides the outcome,
      and the close hook is armed either way. */
  method RegisterPool(host: Host, driver: Mysql2, name: string, script: Script) returns (signals: seq<Signal>)
    requires script.probeError.None?
    modifies host, driver
    ensures host.mysql == Attach(old(host.mysql), Str(name), Handle(PoolKind, script.client)).slot
    ensures signals == [Next(Attach(old(host.mysql), Str(name), Handle(PoolKind, script.client)).error)]
    ensures |host.closeHooks| == |old(host.closeHooks)| + 1
  {
    var options := new JsObject(map["connectionString" := LocalUrl, "name" := Str(name)]);
    signals := Register(host, driver, options, script);
  }

  /** Two registrations with distinct names in one scope both succeed. */
  method TwoNamedInstances(first: Script, second: Script)
    returns (signals1: seq<Signal>, signals2: seq<Signal>, attribute: Option<map<string, JsVal>>)
    requires first.probeError.None? && second.probeError.None?
    ensures signals1 == [Next(None)] && signals2 == [Next(None)]
    ensures attribute.Some? && attribute.value.Keys == {"one", "two"}
  {
    var host := new Host();
    var driver := new Mysql2();
    signals1 := RegisterPool(host, driver, "one", first);
    signals2 := RegisterPool(host, driver, "two", second);
    attribute := host.mysql;
  }

  /** A second registration in one scope under the same name, or under none,
      fails with the matching collision error and leaves the attribute as it was. */
  method RepeatedRegistration(name: string, first: Script, second: Script)
    returns (signals2: seq<Signal>, kept: bool, hooks: nat)
    requires first.probeError.None? && second.probeError.None?
    ensures name == "" ==> signals2 == [Next(Some(PluginError(AlreadyRegistered)))]
    ensures name != "" ==> signals2 == [Next(Some(PluginError(NameTaken(name))))]
    ensures kept
    ensures hooks == 2  // the rejected registration still ends its own client on close
  {
    var host := new Host();
    var driver := new Mysql2();
    var _ := RegisterPool(host, driver, name, first);
    var before := host.mysql;
    signals2 := RegisterPool(host, driver, name, second);
    kept := host.mysql == before;
    hooks := |host.closeHooks|;
  }

  /** A registration against a server that refuses connections, for a pool or
      a connection in either flavour: the connection factory of the promise
      driver rejects and any probe fails. The driver's error reaches `next`
      unchanged, nothing is attached and no hook is armed. */
  method UnreachableServer(error: Error, client: map<string, JsVal>, promise: bool, connection: bool)
    returns (signals: seq<Signal>, attribute: Option<map<string, JsVal>>, hooks: nat)
    ensures signals == [Next(Some(error))]
    ensures attribute == None && hooks == 0
  {
    var host := new Host();
    var driver := new Mysql2();
    var options := map["host" := Str("127.0.0.1"), "port" := Num(6000)];
    if promise {
      options := options["promise" := Bool(true)];
    }
    if connection {
      options := options["type" := Str("connection")];
    }
    var o := new JsObject(options);
    signals := Register(host, driver, o, Script(client, Some(error), Some(error)));
    attribute := host.mysql;
    hooks := |host.closeHooks|;
  }

  /** A promise connection that connects but whose `SELECT NOW()` probe fails:
      the rejection of the probe is handled by nobody, so `next` is never
      called, nothing is attached and no hook is armed. */
  method ProbeFailsAfterConnect(error: Error, client: map<string, JsVal>)
    returns (signals: seq<Signal>, attribute: Option<map<string, JsVal>>, hooks: nat)
    ensures signals == [] && attribute == None && hooks == 0
  {
    var host := new Host();
    var driver := new Mysql2();
    var o := new JsObject(map["connectionString" := LocalUrl, "promise" := Bool(true), "type" := Str("connection")]);
    signals := Register(host, driver, o, Script(client, None, Some(error)));
    attribute := host.mysql;
    hooks := |host.closeHooks|;
  }
}
