/**
 * The parts of the NATS client and of Go's context package that the controller
 * calls. Their own behaviour is not part of this model: a subscription either
 * registers or fails with an error fixed in advance by the connection's script,
 * a drain is counted, and a reply is appended to the message's reply log.
 */
module Bus {
  import opened Results
  import opened Naming

  /** A registered subscription: its subject, its queue group (None for a plain subscribe) and its handler. */
  datatype Subscription = Subscription(subject: string, queue: Option<string>, handler: Endpoint)

  /**
   * The handlers a message published on `subject` is delivered to: one per
   * subscription on exactly that subject, in registration order. Subject
   * tokens are compared literally; NATS wildcards (`*`, `>`) are not modelled.
   */
  function Receivers(subs: seq<Subscription>, subject: string): (r: seq<Endpoint>)
  {
    if subs == [] then []
    else (if subs[0].subject == subject then [subs[0].handler] else []) + Receivers(subs[1..], subject)
  }

  /** The answer to the i-th subscribe call on a connection; calls past the script succeed. */
  function Answer(answers: seq<Option<string>>, i: nat): (r: Option<string>)
  {
    if i < |answers| then answers[i] else None
  }

  /** A NATS connection. */
  class Conn {
    /** The outcomes of its subscribe calls, in call order: None accepts, Some(e) fails with e. */
    const script: seq<Option<string>>
    /** Every subscribe call made on this connection, accepted or not, in order. */
    var attempts: seq<Subscription>
    /** The subscriptions registered on this connection, in order. */
    var subs: seq<Subscription>
    /** How many times Drain was called. */
    var drains: nat

    /** A connection as nats.Connect returns it: nothing subscribed yet. */
    constructor (script: seq<Option<string>>)
      ensures this.script == script && attempts == [] && subs == [] && drains == 0
    {
      this.script, attempts, subs, drains := script, [], [], 0;
    }

    /** Asks for `sub`; it is registered unless the script fails this call. */
    method Register(sub: Subscription) returns (err: Option<string>)
      modifies this`attempts, this`subs
      ensures err == Answer(script, |old(attempts)|)
      ensures attempts == old(attempts) + [sub]
      ensures subs == if err.None? then old(subs) + [sub] else old(subs)
    {
      err := Answer(script, |attempts|);
      attempts := attempts + [sub];
      if err.None? {
        subs := subs + [sub];
      }
    }

    /** `nc.QueueSubscribe(subject, queue, handler)`. */
    method QueueSubscribe(subject: string, queue: string, handler: Endpoint) returns (err: Option<string>)
      modifies this`attempts, this`subs
      ensures err == Answer(script, |old(attempts)|)
      ensures attempts == old(attempts) + [Subscription(subject, Some(queue), handler)]
      ensures subs == if err.None? then old(subs) + [Subscription(subject, Some(queue), handler)] else old(subs)
    {
      err := Register(Subscription(subject, Some(queue), handler));
    }

    /** `nc.Subscribe(subject, handler)`: no queue group, every subscriber receives every message. */
    method Subscribe(subject: string, handler: Endpoint) returns (err: Option<string>)
      modifies this`attempts, this`subs
      ensures err == Answer(script, |old(attempts)|)
      ensures attempts == old(attempts) + [Subscription(subject, None, handler)]
      ensures subs == if err.None? then old(subs) + [Subscription(subject, None, handler)] else old(subs)
    {
      err := Register(Subscription(subject, None, handler));
    }

    /** `nc.Drain()`; its error is only logged by the caller, so it is not modelled. */
    method Drain()
      modifies this`drains
      ensures drains == old(drains) + 1
    {
      drains := drains + 1;
    }
  }

  /** An inbound request: its payload and the replies sent on its reply subject. */
  class Msg {
    const data: string
    var replies: seq<string>

    constructor (data: string)
      ensures this.data == data && replies == []
    {
      this.data, replies := data, [];
    }

    /** `m.Respond(reply)`. */
    method Respond(reply: string)
      modifies this`replies
      ensures replies == old(replies) + [reply]
    {
      replies := replies + [reply];
    }
  }

  /** A cancellable context: `done` is what `ctx.Done()` reports. */
  class Context {
    var done: bool
    /** How many times the cancel function was called. */
    var cancels: nat

    constructor (done: bool)
      ensures this.done == done && cancels == 0
    {
      this.done, cancels := done, 0;
    }

    /** The cancel function of `context.WithCancel`. */
    method Cancel()
      modifies this
      ensures done && cancels == old(cancels) + 1
    {
      done, cancels := true, cancels + 1;
    }
  }
}
