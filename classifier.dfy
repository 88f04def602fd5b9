/**
 * The four exported shape predicates of index.js (`isMySQLPool`,
 * `isMySQLPromisePool`, `isMySQLConnection`, `isMySQLPromiseConnection`) and
 * their two shape helpers. They are JavaScript `&&` chains, so they return
 * the first falsy operand or the last value, and a property read on `null`
 * throws; a `Completion` records that.
 */
module Classifier {
  import opened JsValues
  import FastifyMysql

  /** Evaluating an expression: a value, or a thrown TypeError. */
  datatype Completion = Normal(value: JsVal) | Throws

  /** `v[key]` on a value that is not null or undefined. Only objects have own
      properties in the model. */
  function Prop(v: JsVal, key: string): JsVal
  {
    if v.Obj? then Get(v.props, key) else Undefined
  }

  /** `v.key` on any value: a TypeError on null and undefined. */
  function Member(v: JsVal, key: string): (r: Completion)
    ensures r.Throws? <==> Nullish(v)
    ensures r.Normal? ==> r.value == Prop(v, key)
  {
    if Nullish(v) then Throws else Normal(Prop(v, key))
  }

  /** An `if` on the predicate's result takes the true branch. */
  predicate Holds(c: Completion)
  {
    c.Normal? && Truthy(c.value)
  }

  predicate IsFunction(v: JsVal)
  {
    TypeOf(v) == "function"
  }

  /** isMySQLPoolOrPromisePool */
  function PoolShape(obj: JsVal): (r: JsVal)
    ensures !Truthy(obj) ==> r == obj
    ensures Truthy(obj) ==> r.Bool?
    ensures Truthy(r) ==> obj.Obj? && "pool" in obj.props && (obj.props["pool"].Obj? || obj.props["pool"].Null?)
    ensures Truthy(r) ==> IsFunction(Prop(obj, "getConnection"))
  {
    if !Truthy(obj) then obj
    else Bool(IsFunction(Prop(obj, "query")) && IsFunction(Prop(obj, "execute"))
              && IsFunction(Prop(obj, "getConnection")) && TypeOf(Prop(obj, "pool")) == "object")
  }

  /** isMySQLConnectionOrPromiseConnection */
  function ConnectionShape(obj: JsVal): (r: JsVal)
    ensures !Truthy(obj) ==> r == obj
    ensures Truthy(obj) ==> r.Bool?
    ensures Truthy(r) ==>
      obj.Obj? && "connection" in obj.props && (obj.props["connection"].Obj? || obj.props["connection"].Null?)
  {
    if !Truthy(obj) then obj
    else Bool(IsFunction(Prop(obj, "query")) && IsFunction(Prop(obj, "execute"))
              && TypeOf(Prop(obj, "connection")) == "object")
  }

  /** isMySQLPool: the pool's `promise` member is a function. */
  function IsPool(obj: JsVal): (r: Completion)
    ensures !Truthy(obj) ==> r == Normal(obj)
    ensures Holds(r) ==> Truthy(PoolShape(obj))
    ensures r.Throws? <==> Truthy(PoolShape(obj)) && Prop(obj, "pool") == Null
  {
    var shape := PoolShape(obj);
    if !Truthy(shape) then Normal(shape)
    else
      match Member(Prop(obj, "pool"), "promise")
      case Throws => Throws
      case Normal(p) => Normal(Bool(IsFunction(p)))
  }

  /** isMySQLPromisePool: the pool's `promise` member is undefined. Never holds
      together with isMySQLPool. */
  function IsPromisePool(obj: JsVal): (r: Completion)
    ensures !Truthy(obj) ==> r == Normal(obj)
    ensures Holds(r) ==> Truthy(PoolShape(obj))
    ensures r.Throws? <==> Truthy(PoolShape(obj)) && Prop(obj, "pool") == Null
    ensures Holds(r) ==> !Holds(IsPool(obj))
  {
    var shape := PoolShape(obj);
    if !Truthy(shape) then Normal(shape)
    else
      match Member(Prop(obj, "pool"), "promise")
      case Throws => Throws
      case Normal(p) => Normal(Bool(p == Undefined))
  }

  /** isMySQLConnection: the connection's `promise` member is a function and its
      `authorized` member a boolean. */
  function IsConnection(obj: JsVal): (r: Completion)
    ensures !Truthy(obj) ==> r == Normal(obj)
    ensures Holds(r) ==> Truthy(ConnectionShape(obj))
    ensures r.Throws? <==> Truthy(ConnectionShape(obj)) && Prop(obj, "connection") == Null
  {
    var shape := ConnectionShape(obj);
    if !Truthy(shape) then Normal(shape)
    else
      match Member(Prop(obj, "connection"), "promise")
      case Throws => Throws
      case Normal(p) =>
        if !IsFunction(p) then Normal(Bool(false))
        else
          match Member(Prop(obj, "connection"), "authorized")
          case Throws => Throws
          case Normal(a) => Normal(Bool(TypeOf(a) == "boolean"))
  }

  /** isMySQLPromiseConnection: the connection's `promise` member is undefined.
      Never holds together with isMySQLConnection. */
  function IsPromiseConnection(obj: JsVal): (r: Completion)
    ensures !Truthy(obj) ==> r == Normal(obj)
    ensures Holds(r) ==> Truthy(ConnectionShape(obj))
    ensures r.Throws? <==> Truthy(ConnectionShape(obj)) && Prop(obj, "connection") == Null
    ensures Holds(r) ==> !Holds(IsConnection(obj))
  {
    var shape := ConnectionShape(obj);
    if !Truthy(shape) then Normal(shape)
    else
      match Member(Prop(obj, "connection"), "promise")
      case Throws => Throws
      case Normal(p) => Normal(Bool(p == Undefined))
  }

  /** A pool-shaped value whose `pool` is null: `typeof null` is "object", so the
      shape test passes and the next read, `obj.pool.promise`, throws. */
  const NullPool: JsVal := Obj(map[
    "query" := Func(Opaque(0)), "execute" := Func(Opaque(1)),
    "getConnection" := Func(Opaque(2)), "pool" := Null])

  const NullConnection: JsVal := Obj(map[
    "query" := Func(Opaque(0)), "execute" := Func(Opaque(1)), "connection" := Null])

  /** The predicates as written throw instead of answering false. */
  lemma NullClientThrows()
    ensures IsPool(NullPool) == Throws && IsPromisePool(NullPool) == Throws
    ensures IsConnection(NullConnection) == Throws && IsPromiseConnection(NullConnection) == Throws
  {
    assert Truthy(PoolShape(NullPool));
    assert Truthy(ConnectionShape(NullConnection));
  }

  /** The client field is an object, not null: `typeof x === 'object' && x !== null`. */
  predicate IsObject(v: JsVal)
  {
    TypeOf(v) == "object" && v != Null
  }

  /** isMySQLPool with the shape test requiring a non-null `pool`. */
  function IsPoolChecked(obj: JsVal): (r: JsVal)
    ensures !Truthy(obj) ==> r == obj
    ensures Truthy(r) <==> Truthy(PoolShape(obj)) && IsObject(Prop(obj, "pool")) && IsFunction(Prop(Prop(obj, "pool"), "promise"))
  {
    if !Truthy(obj) then obj
    else Bool(Truthy(PoolShape(obj)) && IsObject(Prop(obj, "pool")) && IsFunction(Prop(Prop(obj, "pool"), "promise")))
  }

  function IsPromisePoolChecked(obj: JsVal): (r: JsVal)
    ensures !Truthy(obj) ==> r == obj
    ensures Truthy(r) <==> Truthy(PoolShape(obj)) && IsObject(Prop(obj, "pool")) && Prop(Prop(obj, "pool"), "promise") == Undefined
    ensures Truthy(r) ==> !Truthy(IsPoolChecked(obj))
  {
    if !Truthy(obj) then obj
    else Bool(Truthy(PoolShape(obj)) && IsObject(Prop(obj, "pool")) && Prop(Prop(obj, "pool"), "promise") == Undefined)
  }

  function IsConnectionChecked(obj: JsVal): (r: JsVal)
    ensures !Truthy(obj) ==> r == obj
    ensures Truthy(r) <==>
      && Truthy(ConnectionShape(obj))
      && IsObject(Prop(obj, "connection"))
      && IsFunction(Prop(Prop(obj, "connection"), "promise"))
      && TypeOf(Prop(Prop(obj, "connection"), "authorized")) == "boolean"
  {
    if !Truthy(obj) then obj
    else
      var c := Prop(obj, "connection");
      Bool(Truthy(ConnectionShape(obj)) && IsObject(c) && IsFunction(Prop(c, "promise"))
           && TypeOf(Prop(c, "authorized")) == "boolean")
  }

  function IsPromiseConnectionChecked(obj: JsVal): (r: JsVal)
    ensures !Truthy(obj) ==> r == obj
    ensures Truthy(r) <==>
      && Truthy(ConnectionShape(obj))
      && IsObject(Prop(obj, "connection"))
      && Prop(Prop(obj, "connection"), "promise") == Undefined
    ensures Truthy(r) ==> !Truthy(IsConnectionChecked(obj))
  {
    if !Truthy(obj) then obj
    else Bool(Truthy(ConnectionShape(obj)) && IsObject(Prop(obj, "connection"))
              && Prop(Prop(obj, "connection"), "promise") == Undefined)
  }

  /** The checked predicates return what the exported ones return whenever
      those do not throw, and false where they throw. */
  lemma CheckedAgreesWithExported(obj: JsVal)
    ensures IsPool(obj).Normal? ==> IsPool(obj).value == IsPoolChecked(obj)
    ensures IsPool(obj).Throws? ==> IsPoolChecked(obj) == Bool(false)
    ensures IsPromisePool(obj).Normal? ==> IsPromisePool(obj).value == IsPromisePoolChecked(obj)
    ensures IsPromisePool(obj).Throws? ==> IsPromisePoolChecked(obj) == Bool(false)
    ensures IsConnection(obj).Normal? ==> IsConnection(obj).value == IsConnectionChecked(obj)
    ensures IsConnection(obj).Throws? ==> IsConnectionChecked(obj) == Bool(false)
    ensures IsPromiseConnection(obj).Normal? ==> IsPromiseConnection(obj).value == IsPromiseConnectionChecked(obj)
    ensures IsPromiseConnection(obj).Throws? ==> IsPromiseConnectionChecked(obj) == Bool(false)
  {
  }

  /** A pool handle the registrar builds is a pool, never a connection. */
  lemma PoolHandleClassified(client: map<string, JsVal>)
    ensures var h := Obj(FastifyMysql.Handle(FastifyMysql.PoolKind, client));
      && (Truthy(IsPoolChecked(h)) <==> IsFunction(Get(client, "promise")))
      && (Truthy(IsPromisePoolChecked(h)) <==> Get(client, "promise") == Undefined)
      && !Truthy(IsConnectionChecked(h)) && !Truthy(IsPromiseConnectionChecked(h))
  {
    var db := FastifyMysql.Handle(FastifyMysql.PoolKind, client);
    FastifyMysql.HandleFields(FastifyMysql.PoolKind, client);
    assert db["query"].Func? && db["execute"].Func? && db["getConnection"].Func?;
    assert db["pool"] == Obj(client);
    assert "connection" !in db;
  }

  /** A connection handle the registrar builds is a connection, never a pool. */
  lemma ConnectionHandleClassified(client: map<string, JsVal>)
    ensures var h := Obj(FastifyMysql.Handle(FastifyMysql.ConnectionKind, client));
      && (Truthy(IsConnectionChecked(h)) <==>
            IsFunction(Get(client, "promise")) && Get(client, "authorized").Bool?)
      && (Truthy(IsPromiseConnectionChecked(h)) <==> Get(client, "promise") == Undefined)
      && !Truthy(IsPoolChecked(h)) && !Truthy(IsPromisePoolChecked(h))
  {
    var db := FastifyMysql.Handle(FastifyMysql.ConnectionKind, client);
    FastifyMysql.HandleFields(FastifyMysql.ConnectionKind, client);
    assert db["query"].Func? && db["execute"].Func?;
    assert db["connection"] == Obj(client);
    assert "getConnection" !in db;
  }

  /** A handle the registrar builds is recognised as its own kind and never as
      the other: as a pool (or promise pool) exactly when the driver's pool
      object has a `promise` function (or none), as a connection exactly when
      the connection object has a `promise` function and a boolean
      `authorized`, as a promise connection exactly when it has no `promise`. */
  lemma HandleClassified(kind: FastifyMysql.Kind, client: map<string, JsVal>)
    ensures var h := Obj(FastifyMysql.Handle(kind, client));
      && (kind == FastifyMysql.PoolKind ==>
            && (Truthy(IsPoolChecked(h)) <==> IsFunction(Get(client, "promise")))
            && (Truthy(IsPromisePoolChecked(h)) <==> Get(client, "promise") == Undefined)
            && !Truthy(IsConnectionChecked(h)) && !Truthy(IsPromiseConnectionChecked(h)))
      && (kind == FastifyMysql.ConnectionKind ==>
            && (Truthy(IsConnectionChecked(h)) <==>
                  IsFunction(Get(client, "promise")) && Get(client, "authorized").Bool?)
            && (Truthy(IsPromiseConnectionChecked(h)) <==> Get(client, "promise") == Undefined)
            && !Truthy(IsPoolChecked(h)) && !Truthy(IsPromisePoolChecked(h)))
  {
    if kind == FastifyMysql.PoolKind {
      PoolHandleClassified(client);
    } else {
      ConnectionHandleClassified(client);
    }
  }
}
