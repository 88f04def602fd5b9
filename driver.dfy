/**
 * The database driver (mysql2) as the plugin sees it: two module flavours,
 * two factories, a probe query and `end`. The driver itself is not modelled;
 * a `Mysql2` object records the calls the plugin makes on it, and a `Script`
 * supplies what the driver answers.
 */
module Driver {
  import opened JsValues

  /** `require('mysql2')` (completion callbacks) or `require('mysql2/promise')`. */
  datatype Flavour = Callback | Promise

  /** The `promise` option selects the flavour by truthiness. */
  function FlavourOf(usePromise: JsVal): Flavour
  {
    if Truthy(usePromise) then Promise else Callback
  }

  /** `client.end(done)` or `client.end().then(done).catch(done)`. */
  datatype EndStyle = EndWithCallback | EndThenSettle

  /** An error delivered to `next`: one raised by the plugin itself, or one the
      driver produced (connection refused, bad credentials, ...), which the
      model treats as opaque. */
  datatype Error = PluginError(message: string) | DriverError(code: string)

  datatype DriverCall =
    | CreatePool(flavour: Flavour, config: JsVal)
    | CreateConnection(flavour: Flavour, config: JsVal)
    | Query(target: JsVal, sql: string)
    | End(target: JsVal, style: EndStyle)

  /** The driver's answers for one registration: the object its factory returns
      (for the promise connection factory, the object the promise resolves to),
      whether that promise rejects, and whether the probe query fails. */
  datatype Script = Script(client: map<string, JsVal>, factoryRejection: Option<Error>, probeError: Option<Error>)

  /** The driver, seen through the calls made on it. */
  class Mysql2 {
    var log: seq<DriverCall>

    constructor ()
      ensures log == []
    {
      log := [];
    }

    method Call(c: DriverCall)
      modifies this
      ensures log == old(log) + [c]
    {
      log := log + [c];
    }
  }
}
