# fastify-mysql registration protocol, in Dafny

This project models how the `@fastify/mysql` plugin registers a MySQL client
on a Fastify instance, and proves properties of that model. It covers the
current registrar (`index.js`) and its two older variants (`pool.js`,
`connection.js`). The steps modelled are:

- **Option stripping.** The control options are deleted in place from the caller's options object.
- **Client building.** The plugin builds a pool or a single connection, in callback or promise flavour.
- **Probe.** A `SELECT NOW()` liveness probe is issued.
- **Handle.** The client handle is assembled field by field.
- **Close hook.** An `onClose` hook is armed.
- **Attachment.** The handle is attached to the instance's `mysql` attribute, as the default handle or under a name, with the collision rules of each variant.
- **Classification.** The four exported shape predicates, `isMySQLPool` and its siblings, classify a handle by probing its fields.

Files:

- `js_values.dfy` (module `JsValues`): the JavaScript values the code inspects. It gives truthiness, `typeof`, `||`, property reads, and `delete` on a shared object (`JsObject`).
- `driver.dfy` (module `Driver`): the mysql2 driver as seen from the plugin. It has the two flavours and the error values. A `Mysql2` object records the calls made on it. A `Script` supplies the driver's answers: the client object, a rejection of the promise connection factory, and a probe error.
- `fastify.dfy` (module `Fastify`): one plugin scope (`Host`), with its `mysql` attribute and its armed close hooks. The registrars' calls of `next` are returned as a sequence of `Signal`s, so "called twice" and "never called" can both be stated.
- `index.dfy` (module `FastifyMysql`): `fastifyMysql` and `_createConnection` from `index.js`.
- `classifier.dfy` (module `Classifier`): the six predicates of `index.js`, as written, and a corrected version (see Findings).
- `legacy_pool.dfy` (module `LegacyPool`) and `legacy_connection.dfy` (module `LegacyConnection`): the older registrars.

Behaviours of the code worth knowing:

- **Probe query.** Both pools and connections are probed with `SELECT NOW()`.
- **Promise connection probe.** A failing probe on a promise connection is never reported, so registration never completes.
- **One attribute.** A named registration indexes into whatever object is already attached. That may be a default handle: a later named registration adds a key to the default handle, or collides with one of its fields (a name such as `query`).
- **Hook before attachment.** The close hook is armed before the collision check. A registration rejected for a collision still ends its own client on close.
- **No idempotence.** The hook has no idempotence guard.

## Model

| member | source | states |
|---|---|---|
| `JsValues.Lookup` | index.js:31 | reading `fastify.mysql[name]`: an own key gives its value; otherwise the read is truthy exactly when `Object.prototype` defines the name |
| `JsValues.JsObject.Take` | index.js:6-11 | reading an option and deleting it: the value read is the old one (undefined if absent), and exactly that key is gone from the caller's object |
| `Fastify.Host.AddCloseHook` | index.js:20-24 | an armed hook is appended and the `mysql` attribute is untouched |
| `Fastify.Host.RunCloseHook` | pool.js:45-48 | a hook of index.js/connection.js ends its client in its own style and leaves the attribute; the pool.js hook clears the attribute and then ends the pool |
| `FastifyMysql.ControlKeysNeverReachDriver` | index.js:6-11 | the factory's configuration (`FactoryConfig`, the `options.connectionString || options` of index.js:62 and 79) is either the truthy `connectionString` or the options without `type`, `name` and `promise`, with every other key and value unchanged |
| `FastifyMysql.Handle` | index.js:52-92 | the driver's client object is stored under `pool` for a pool and under `connection` for a connection |
| `FastifyMysql.HandleFields` | index.js:52-92 | a pool handle has exactly `format`, `escape`, `escapeId`, `pool`, `query`, `execute`, `getConnection`; a connection handle has exactly `format`, `escape`, `escapeId`, `connection`, `query`, `execute`; the client methods are bound to the client object; the three utilities are the same for every kind and flavour |
| `FastifyMysql.BuildOutcome` | index.js:69-98 | a handle is produced exactly when the probe succeeds (and, for a promise connection, the factory resolved); a failure carries the driver's own error (the factory rejection for a promise connection, otherwise the probe error); a promise connection whose probe fails never completes |
| `FastifyMysql.BuildCalls` | index.js:60-95 | the driver sees the factory of the requested kind (`KindOf`, index.js:18 and 60: a pool for any `type` other than exactly `'connection'`) with the given configuration (`FactoryConfig`), then the `SELECT NOW()` probe on the client, unless the promise connection factory rejected |
| `FastifyMysql.CreateConnection` | index.js:48-101 | the field-by-field builder produces exactly `BuildOutcome` and makes exactly the calls `BuildCalls` lists |
| `FastifyMysql.CollisionMessages` | index.js:32-38 | both collision errors contain "already been registered", and the named one contains the instance name |
| `FastifyMysql.Attach` | index.js:26-42 | unnamed: fails with 'fastify-mysql has already been registered' exactly when the attribute exists (default handle or named map), leaving it unchanged, and otherwise stores the handle itself; named: creates an empty object when absent, fails with the named message exactly when the name holds a truthy value (leaving the object as it was), otherwise sets that key only, every other key keeping its value |
| `FastifyMysql.Decorate` | index.js:26-44 | the imperative namespace step leaves the attribute `Attach` gives and calls `next` once, with `Attach`'s error or none |
| `FastifyMysql.Register` | index.js:5-46 | the options lose `type`, `name` and `promise`; the driver calls are those of the kind selected by `type` and of the flavour selected by `promise` (`FlavourOf`, index.js:50: the promise flavour exactly when `promise` is truthy); on a built handle, exactly one hook ending `db.pool` or `db.connection` (in the flavour's end style) is armed, then the attribute and the single `next` call follow `Attach`; on a driver error, nothing is attached, no hook is armed and `next` gets that same error; a hung probe calls `next` never |
| `FastifyMysql.RegisterPool` | index.js:5-46 | a pool registration from a connection string whose server answers always arms one close hook, and its attribute and single `next` call are exactly those of the namespace step for the given name |
| `FastifyMysql.InheritedNameCollides` | index.js:27-33 | a name that `Object.prototype` defines (`constructor`, `toString`, `__proto__`, …) reads as taken on the namespace object even when nobody registered it, so that registration fails with the named collision error and leaves the namespace object as it was |
| `FastifyMysql.DistinctNamesAllAttach` | index.js:26-35 | any sequence of registrations with distinct non-empty names, neither present yet nor inherited from `Object.prototype`, all succeed; afterwards the attribute's keys are the old ones plus those names, each name holds its own handle, and the old keys keep their values |
| `FastifyMysql.TwoNamedInstances` | test/initialization.test.js:22-37 | two registrations named 'one' and 'two' in one fresh scope both call `next()` without error, and the attribute then has exactly those two keys |
| `FastifyMysql.RepeatedRegistration` | test/initialization.test.js:41-82 | repeating an unnamed (or same-named) registration yields exactly the unnamed (or named) collision error, leaves the attribute unchanged, and still leaves two close hooks armed |
| `FastifyMysql.UnreachableServer` | test/initialization.test.js:84-149 | against a server that refuses connections, for a pool or a connection in either flavour (the promise connection factory rejects, every probe fails), the driver's error reaches `next` unchanged, with nothing attached and no hook armed |
| `FastifyMysql.ProbeFailsAfterConnect` | index.js:88-98 | a promise connection that connects but whose probe fails never calls `next`, attaches nothing and arms no hook, because the probe's rejection is not handled |
| `Classifier.PoolShape` | index.js:103-105 | a falsy argument is returned as is; a truthy result needs an object with a `pool` that is an object or null and a `getConnection` function |
| `Classifier.ConnectionShape` | index.js:107-109 | a falsy argument is returned as is; a truthy result needs an object with a `connection` that is an object or null |
| `Classifier.IsPool` | index.js:111-113 | falsy input gives that falsy value back; holding implies the pool shape; it throws exactly when the shape holds and `pool` is null |
| `Classifier.IsPromisePool` | index.js:115-117 | falsy input gives that falsy value back; holding implies the pool shape; it throws exactly when `pool` is null; it never holds together with `isMySQLPool` |
| `Classifier.IsConnection` | index.js:119-121 | falsy input gives that falsy value back; holding implies the connection shape; it throws exactly when `connection` is null |
| `Classifier.IsPromiseConnection` | index.js:123-125 | falsy input gives that falsy value back; holding implies the connection shape; it throws exactly when `connection` is null; it never holds together with `isMySQLConnection` |
| `Classifier.NullClientThrows` | index.js:103-125 | a pool-shaped value with `pool: null` makes both pool predicates throw, and a connection-shaped value with `connection: null` makes both connection predicates throw |
| `Classifier.IsPoolChecked` | index.js:111-113 | corrected `isMySQLPool`: holds exactly for the pool shape with a non-null `pool` object whose `promise` is a function |
| `Classifier.IsPromisePoolChecked` | index.js:115-117 | corrected `isMySQLPromisePool`: holds exactly for the pool shape with a non-null `pool` whose `promise` is undefined, and never together with the corrected `isMySQLPool` |
| `Classifier.IsConnectionChecked` | index.js:119-121 | corrected `isMySQLConnection`: holds exactly for the connection shape with a non-null `connection` whose `promise` is a function and whose `authorized` is a boolean |
| `Classifier.IsPromiseConnectionChecked` | index.js:123-125 | corrected `isMySQLPromiseConnection`: holds exactly for the connection shape with a non-null `connection` whose `promise` is undefined, and never together with the corrected `isMySQLConnection` |
| `Classifier.CheckedAgreesWithExported` | index.js:111-125 | wherever an exported predicate returns, the corrected one returns the same value; where it throws, the corrected one returns false |
| `Classifier.PoolHandleClassified` | index.js:60-67 | a pool handle built by the registrar is a pool exactly when the driver's pool has a `promise` function, a promise pool exactly when it has none, and never a connection |
| `Classifier.ConnectionHandleClassified` | index.js:78-92 | a connection handle built by the registrar is a connection exactly when the driver's connection has a `promise` function and a boolean `authorized`, a promise connection exactly when it has no `promise`, and never a pool |
| `Classifier.HandleClassified` | index.js:52-92 | a handle built by the registrar is classified as its own kind and never as the other; as callback or promise flavour according to the driver object's `promise` member (and, for connections, `authorized`) |
| `LegacyPool.Handle` | pool.js:16-27 | the driver's pool object is stored under `pool` |
| `LegacyPool.HandleFields` | pool.js:16-27 | the handle has exactly `connect`, `pool`, `query`, `end`, `getConnection`, `format`, `escape`, `escapeId`; the pool methods are bound to the pool and `connect` forwards to `pool.getConnection`; each utility is the module's when truthy, else the pool's |
| `LegacyPool.Attach` | pool.js:29-43 | named: the slot is written with the new handle whether or not the name was taken, and a taken name adds the error 'fastify.mysql.' + name + 'has already registered'; unnamed: a taken attribute is reported as 'fastify-mysql has already registered' and kept, otherwise the handle is stored |
| `LegacyPool.Register` | pool.js:5-51 | only `name` and `promise` are deleted; the only driver call is `createPool`, in the flavour a truthy `promise` selects (`FlavourOf`, pool.js:12) and with `FactoryConfig` (pool.js:14), with no probe; the attribute follows `Attach`; one clearing close hook is armed on every path; `next()` follows any error signal |
| `LegacyPool.TypeReachesDriver` | pool.js:6-14 | without a connection string, `type` stays in the configuration pool.js hands the driver, while index.js removes it |
| `LegacyPool.SameNameTwice` | pool.js:33-36 | registering one name twice makes the second registration signal the error and then success, and its handle replaces the first |
| `LegacyPool.RegisterThenClose` | pool.js:45-48 | running the armed hook leaves the attribute absent, and the pool's `end` is the last driver call |
| `LegacyConnection.Handle` | connection.js:34-39 | the driver's connection object is stored under `connection` |
| `LegacyConnection.HandleFields` | connection.js:34-39 | the handle has exactly `connection`, `query`, `format`, `escape`, `escapeId` (no `execute`), every function bound to the connection |
| `LegacyConnection.Attach` | connection.js:42-58 | both collisions return without writing and report pool.js's strings; otherwise the name (or the attribute) receives the handle object, and the place it went is recorded |
| `LegacyConnection.Decorate` | connection.js:42-58 | the imperative namespace step leaves the attribute `Attach` gives, signals its error if any, and says where the handle went |
| `LegacyConnection.FilledPlaceHoldsHandle` | connection.js:12-23 | in promise flavour the synchronous step attaches an empty object, and the resolution handler's field writes (`Fill`, connection.js:18-23) turn exactly that place into the full handle |
| `LegacyConnection.Register` | connection.js:5-63 | only `name` and `promise` are deleted; the driver sees one `createConnection`, in the flavour a truthy `promise` selects (`FlavourOf`, connection.js:13) and with `FactoryConfig` (connection.js:15 and 31), and no probe. Callback: the hook is armed at once, the attribute follows `Attach` on the full handle, and there is one `next` call. Promise: the empty handle is attached first and a collision is signalled at once; a rejection then reaches `next` with no hook; a resolution arms the hook, fills the attached object (`Fill`, connection.js:18-23) and calls `next()` |
| `LegacyConnection.RejectedPromiseLeavesEmptyHandle` | connection.js:12-28 | in promise flavour, when the factory rejects, the error reaches `next`, no hook is armed and the empty handle stays attached |
| `LegacyConnection.PromiseCollisionSignalsTwice` | connection.js:42-54 | a colliding promise-flavour registration signals the collision, later calls `next()` again and arms its hook, and the first handle stays in place |

## Findings

| source | as written | input that shows it | evidently intended | confidence | as-written member | corrected member |
|---|---|---|---|---|---|---|
| index.js:103-117 | the pool shape test accepts `typeof obj.pool === 'object'`, which is true of `null`, and the next step reads `obj.pool.promise` | `{ query: fn, execute: fn, getConnection: fn, pool: null }` makes `isMySQLPool` and `isMySQLPromisePool` throw a TypeError | both return false for a value that is not a pool handle | medium, not executed | `Classifier.NullClientThrows` | `Classifier.IsPoolChecked` |
| index.js:107-125 | the connection shape test accepts a null `connection`, and the next step reads `obj.connection.promise` | `{ query: fn, execute: fn, connection: null }` makes `isMySQLConnection` and `isMySQLPromiseConnection` throw a TypeError | both return false | medium, not executed | `Classifier.NullClientThrows` | `Classifier.IsConnectionChecked` |

The corrected predicates (`IsPoolChecked`, `IsPromisePoolChecked`, `IsConnectionChecked`, `IsPromiseConnectionChecked`) never throw, because their result type has no error case. They are proved mutually exclusive in pairs. `CheckedAgreesWithExported` proves they agree with the exported ones wherever those return. `HandleClassified`, `PoolHandleClassified` and `ConnectionHandleClassified` state the classification of built handles with them.

## Left out

- mysql2 internals. The results of `format`, `escape` and `escapeId`, of queries and of pool checkout are foreign code. Functions are opaque values that record where they came from (`Export`, `Bound`, `Closure`).
- Fastify scope encapsulation. It belongs to the framework: each scope is a separate `Host`.
- Event-loop asynchrony. The driver's answers are inputs (`Script`), and each registration runs to its end before the next one starts. In connection.js's promise flavour, the resolution runs right after the synchronous part, with no other registration in between.
- Synchronous throws. A throw from a driver factory is not modelled. Neither is a `.bind` on a missing driver method. The driver's client is always an object.
- A throw inside index.js's promise-pool success handler (which would reach its `.catch` and call back a second time) is not modelled.
- `fastify.decorate` is modelled as plain assignment. Its refusal to redecorate an existing property is not modelled. That refusal only matters after pool.js's close hook has stored null, which the model stores as an absent attribute (None); both are falsy.
- Truthy non-string `name` options are excluded by a precondition. The type declaration makes `name` a string, and converting another value to a property key is not modelled.
- Numbers are integers (no NaN or -0). Reading a property of a function or a primitive gives undefined, because their prototypes are not modelled. On plain objects, the members inherited from `Object.prototype` are modelled (`Lookup`) where a key comes from the caller: the instance-name lookup of all three registrars (index.js:31, pool.js:33, connection.js:46). Every other read uses a fixed key that `Object.prototype` does not define (`GetIsLookup`).
- LegacyPool.Attach: a registration named `__proto__` replaces the namespace object's prototype in pool.js:36 instead of adding a key; the model adds a key. index.js and connection.js never reach that assignment, because the inherited `__proto__` already reads as taken.
- Connection errors in connection.js. That file issues no probe, so a callback-flavour connection error never reaches registration. The model has no channel for it.
- Fastify.Host.RunCloseHook: records the `end` call and its style, and the pool.js hook's clearing of the attribute. It does not model the order in which Fastify runs hooks, the completion callback `done`, or teardown errors.
- Shutdown idempotence and guards against calling `next` twice are not implemented by the code, so they are not modelled.
- Type declarations and type tests are compile-time only. Integration tests against a live server are used only as evidence for the scenarios above.
