/**
 * The request handlers (requests.go). Each reads the store handle, namespace and
 * config map name from the controller, makes at most one fetch and one write,
 * and answers with exactly one reply. The injected faults stand for a failing
 * Kubernetes API call.
 */
module Requests {
  import opened Results
  import opened ConfigStore
  import opened Bus
  import opened LeafController

  const ErrorPrefix: string := "Error:"
  const UpdateAck: string := "Successfully update ConfigMap"
  const OK: string := "OK"

  function ErrorReply(e: string): (r: string)
  {
    ErrorPrefix + e
  }

  /** `cm.Data["routes.json"]`: the routes blob, or "" when the key is absent. */
  function RoutesOf(data: Data): (r: string)
  {
    if RoutesKey in data then data[RoutesKey] else ""
  }

  /** The reply of the get handler to the outcome of its fetch. */
  function GetReply(fetched: Result<Data>): (r: string)
  {
    match fetched
    case Err(e) => ErrorReply(e)
    case Ok(data) => RoutesOf(data)
  }

  /** What the update handler answers and the records it leaves in the store. */
  datatype UpdateResult = UpdateResult(reply: string, records: Records)

  /** The update handler, from the records it finds and the faults of its two API calls. */
  function UpdateSpec(records: Records, ns: string, name: string, payload: string,
                      getFault: Option<string>, putFault: Option<string>): (r: UpdateResult)
  {
    match Fetch(records, ns, name, getFault)
    case Err(e) => UpdateResult(ErrorReply(e), records)
    case Ok(data) =>
      match Write(records, ns, name, data[RoutesKey := payload], putFault)
      case Err(e) => UpdateResult(ErrorReply(e), records)
      case Ok(written) => UpdateResult(UpdateAck, written)
  }

  /** Whether a reply carries the error prefix. */
  predicate IsErrorReply(reply: string)
  {
    |reply| >= |ErrorPrefix| && reply[..|ErrorPrefix|] == ErrorPrefix
  }

  /** The error text a requester reads back from a reply. */
  function ErrorText(reply: string): (r: Option<string>)
  {
    if IsErrorReply(reply) then Some(reply[|ErrorPrefix|..]) else None
  }

  /** An error reply gives back exactly the error text it was built from. */
  lemma ErrorReplyRoundTrip(e: string)
    ensures IsErrorReply(ErrorReply(e))
    ensures ErrorText(ErrorReply(e)) == Some(e)
  {
    assert ErrorReply(e)[..|ErrorPrefix|] == ErrorPrefix;
    assert ErrorReply(e)[|ErrorPrefix|..] == e;
  }

  /** The fixed acknowledgements cannot be mistaken for error replies. */
  lemma FixedRepliesAreNotErrors()
    ensures !IsErrorReply(UpdateAck) && !IsErrorReply(OK)
  {
    assert UpdateAck[0] != ErrorPrefix[0];
  }

  /**
   * A get reply carries the error prefix exactly when the fetch failed (then it
   * gives back the error text) or when the stored routes blob itself begins with
   * "Error:", which a requester cannot tell apart from a failure.
   */
  lemma GetReplyErrorIff(fetched: Result<Data>)
    ensures IsErrorReply(GetReply(fetched)) <==> fetched.Err? || IsErrorReply(RoutesOf(fetched.value))
    ensures fetched.Err? ==> ErrorText(GetReply(fetched)) == Some(fetched.error)
  {
    if fetched.Err? {
      ErrorReplyRoundTrip(fetched.error);
    }
  }

  /**
   * The update acknowledges exactly when the fetch and the write both go through;
   * otherwise it replies with the first error text and leaves the store as it was.
   */
  lemma UpdateSucceedsIff(records: Records, ns: string, name: string, payload: string,
                          getFault: Option<string>, putFault: Option<string>)
    ensures var u := UpdateSpec(records, ns, name, payload, getFault, putFault);
            u.reply == UpdateAck <==> getFault.None? && putFault.None? && (ns, name) in records
    ensures var u := UpdateSpec(records, ns, name, payload, getFault, putFault);
            u.reply != UpdateAck ==>
              && u.records == records
              && ErrorText(u.reply) == Some(if getFault.Some? then getFault.value
                                            else if (ns, name) !in records then NotFound(name)
                                            else putFault.value)
  {
    FixedRepliesAreNotErrors();
    var e := if getFault.Some? then getFault.value
             else if (ns, name) !in records then NotFound(name)
             else if putFault.Some? then putFault.value
             else "";
    ErrorReplyRoundTrip(e);
  }

  /**
   * A successful update sets the record's "routes.json" to the payload and
   * changes nothing else: every other key of that record and every other record
   * keep their values, and no record appears or disappears.
   */
  lemma UpdateChangesOneKey(records: Records, ns: string, name: string, payload: string,
                            getFault: Option<string>, putFault: Option<string>)
    requires UpdateSpec(records, ns, name, payload, getFault, putFault).reply == UpdateAck
    ensures (ns, name) in records
    ensures var after := UpdateSpec(records, ns, name, payload, getFault, putFault).records;
            && after.Keys == records.Keys
            && after[(ns, name)].Keys == records[(ns, name)].Keys + {RoutesKey}
            && after[(ns, name)][RoutesKey] == payload
            && (forall k :: k in records[(ns, name)] && k != RoutesKey ==> after[(ns, name)][k] == records[(ns, name)][k])
            && (forall key :: key in records && key != (ns, name) ==> after[key] == records[key])
  {
    UpdateSucceedsIff(records, ns, name, payload, getFault, putFault);
  }

  /** A get right after a successful update, with no write between, replies with the update's payload. */
  lemma GetAfterUpdate(records: Records, ns: string, name: string, payload: string,
                       getFault: Option<string>, putFault: Option<string>)
    requires UpdateSpec(records, ns, name, payload, getFault, putFault).reply == UpdateAck
    ensures GetReply(Fetch(UpdateSpec(records, ns, name, payload, getFault, putFault).records, ns, name, None)) == payload
  {
    UpdateChangesOneKey(records, ns, name, payload, getFault, putFault);
  }

  /** Repeating a successful update with the same payload changes nothing further. */
  lemma UpdateIdempotent(records: Records, ns: string, name: string, payload: string)
    requires UpdateSpec(records, ns, name, payload, None, None).reply == UpdateAck
    ensures var once := UpdateSpec(records, ns, name, payload, None, None);
            UpdateSpec(once.records, ns, name, payload, None, None) == once
  {
    var once := UpdateSpec(records, ns, name, payload, None, None);
    UpdateChangesOneKey(records, ns, name, payload, None, None);
    assert (ns, name) in once.records;
    var d := once.records[(ns, name)];
    assert d[RoutesKey := payload] == d;
    assert once.records[(ns, name) := d] == once.records;
  }

  /** processConfigGetRequest: one reply, the routes blob of the current record or the fetch error. */
  method ProcessConfigGetRequest(c: Controller, m: Msg, fault: Option<string>)
    requires c.kc != null
    modifies m
    ensures m.replies == old(m.replies) + [GetReply(Fetch(c.kc.records, c.opts.podNamespace, c.opts.configMapName, fault))]
  {
    var kc, ns, cmName := c.kc, c.opts.podNamespace, c.opts.configMapName;
    var cm := kc.Get(ns, cmName, fault);
    if cm.Err? {
      m.Respond(ErrorPrefix + cm.error);
      return;
    }
    m.Respond(if RoutesKey in cm.value then cm.value[RoutesKey] else "");
  }

  /**
   * processConfigUpdateRequest: fetch, set "routes.json" to the payload, write
   * back; one reply, the acknowledgement or the first error.
   */
  method ProcessConfigUpdateRequest(c: Controller, m: Msg, getFault: Option<string>, putFault: Option<string>)
    requires c.kc != null
    modifies m, c.kc
    ensures var u := UpdateSpec(old(c.kc.records), c.opts.podNamespace, c.opts.configMapName, m.data, getFault, putFault);
            c.kc.records == u.records && m.replies == old(m.replies) + [u.reply]
  {
    var kc, ns, cmName := c.kc, c.opts.podNamespace, c.opts.configMapName;
    var cm := kc.Get(ns, cmName, getFault);
    if cm.Err? {
      m.Respond(ErrorPrefix + cm.error);
      return;
    }
    var data := cm.value[RoutesKey := m.data];
    var err := kc.Update(ns, cmName, data, putFault);
    if err.Some? {
      m.Respond(ErrorPrefix + err.value);
      return;
    }
    m.Respond(UpdateAck);
  }

  /** processDiscoverRequest: replies "OK" whatever the payload; the store is not touched. */
  method ProcessDiscoverRequest(c: Controller, m: Msg)
    modifies m
    ensures m.replies == old(m.replies) + [OK]
  {
    m.Respond(OK);
  }

  /** processStatusRequest: replies "OK" whatever the payload; the store is not touched. */
  method ProcessStatusRequest(c: Controller, m: Msg)
    modifies m
    ensures m.replies == old(m.replies) + [OK]
  {
    m.Respond(OK);
  }
}
