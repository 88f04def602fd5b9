/**
 * The host framework instance (one plugin scope of a Fastify server) as far
 * as the plugin touches it: the `mysql` decoration and the `onClose` hooks.
 * Scope encapsulation is the framework's business: each scope is its own `Host`.
 */
module Fastify {
  import opened JsValues
  import opened Driver

  /** A hook added with `addHook('onClose', ...)`. */
  datatype CloseHook =
    | EndClient(client: JsVal, style: EndStyle)  // `client.end(...)`
    | ClearThenEnd(pool: JsVal)                   // `fastify.mysql = null; pool.end(done)`

  /** One call of the plugin's `next` callback: `next()` or `next(err)`. */
  datatype Signal = Next(err: Option<Error>)

  class Host {
    /** The `mysql` attribute: None while it is absent (or null), otherwise the
        object it holds, either a client handle or a map from names to handles. */
    var mysql: Option<map<string, JsVal>>
    var closeHooks: seq<CloseHook>

    constructor ()
      ensures mysql == None && closeHooks == []
    {
      mysql := None;
      closeHooks := [];
    }

    /** `fastify.addHook('onClose', h)` */
    method AddCloseHook(h: CloseHook)
      modifies this
      ensures closeHooks == old(closeHooks) + [h]
      ensures mysql == old(mysql)
    {
      closeHooks := closeHooks + [h];
    }

    /** What one armed hook does when the instance closes. */
    method RunCloseHook(h: CloseHook, driver: Mysql2)
      modifies this, driver
      ensures closeHooks == old(closeHooks)
      ensures h.EndClient? ==> mysql == old(mysql) && driver.log == old(driver.log) + [End(h.client, h.style)]
      ensures h.ClearThenEnd? ==> mysql == None && driver.log == old(driver.log) + [End(h.pool, EndWithCallback)]
    {
      match h
      case EndClient(client, style) =>
        driver.Call(End(client, style));
      case ClearThenEnd(pool) =>
        mysql := None;
        driver.Call(End(pool, EndWithCallback));
    }
  }
}
