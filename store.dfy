/**
 * The Kubernetes ConfigMap API the handlers call, as a store of records keyed by
 * (namespace, name). Each record's data is a map from key to string value. A call
 * may be made to fail with an injected error (a network or permission failure,
 * an update conflict); a get or update of a missing record fails with the API
 * server's not-found text.
 */
module ConfigStore {
  import opened Results

  type Key = (string, string)
  type Data = map<string, string>
  type Records = map<Key, Data>

  /** The data key holding the serialized routes. */
  const RoutesKey: string := "routes.json"

  /** The API server's error text for a missing config map. */
  function NotFound(name: string): (r: string)
  {
    "configmaps \"" + name + "\" not found"
  }

  /** What `ConfigMaps(ns).Get(name)` returns when the call fails with `fault`, if any. */
  function Fetch(records: Records, ns: string, name: string, fault: Option<string>): (r: Result<Data>)
  {
    if fault.Some? then Err(fault.value)
    else if (ns, name) !in records then Err(NotFound(name))
    else Ok(records[(ns, name)])
  }

  /** The records after `ConfigMaps(ns).Update` writes `data` as record `name`, or its error. */
  function Write(records: Records, ns: string, name: string, data: Data, fault: Option<string>): (r: Result<Records>)
  {
    if fault.Some? then Err(fault.value)
    else if (ns, name) !in records then Err(NotFound(name))
    else Ok(records[(ns, name) := data])
  }

  class Store {
    var records: Records

    constructor (records: Records)
      ensures this.records == records
    {
      this.records := records;
    }

    method Get(ns: string, name: string, fault: Option<string>) returns (r: Result<Data>)
      ensures r == Fetch(records, ns, name, fault)
    {
      if fault.Some? {
        return Err(fault.value);
      }
      if (ns, name) !in records {
        return Err(NotFound(name));
      }
      r := Ok(records[(ns, name)]);
    }

    method Update(ns: string, name: string, data: Data, fault: Option<string>) returns (err: Option<string>)
      modifies this
      ensures var w := Write(old(records), ns, name, data, fault);
              (err.None? <==> w.Ok?) && (w.Err? ==> err == Some(w.error))
      ensures records == if err.None? then old(records)[(ns, name) := data] else old(records)
    {
      if fault.Some? {
        return fault;
      }
      if (ns, name) !in records {
        return Some(NotFound(name));
      }
      records := records[(ns, name) := data];
      err := None;
    }
  }
}
