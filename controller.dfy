/**
 * The leaf controller (controller.go): option defaulting, the subscription plan
 * of setupNATS, the setup order of Run, the per-signal decision of the signal
 * handler and the one-way shutdown flag.
 */
module LeafController {
  import opened Results
  import opened Naming
  import opened Bus
  import opened ConfigStore

  /** The namespace used when POD_NAMESPACE is empty or unset. */
  const FallbackNamespace: string := "default"

  /** The value of an Options struct. */
  datatype Settings = Settings(
    clusterName: string,
    noSignals: bool,
    natsServerURL: string,
    natsCredentials: string,
    configMapName: string,
    podNamespace: string)

  /** `Options{}`, the zero value. */
  const EmptySettings: Settings := Settings("", false, "", "", "", "")

  /** The options NewController leaves behind, given the value of POD_NAMESPACE. */
  function Defaults(o: Settings, podNamespaceEnv: string): (r: Settings)
  {
    var name := if o.configMapName == "" then Sprintf(ConfigMapNameFormat, o.clusterName) else o.configMapName;
    var ns := if podNamespaceEnv != "" then podNamespaceEnv else FallbackNamespace;
    o.(configMapName := name, podNamespace := ns)
  }

  /**
   * An empty config map name becomes "<cluster>-config", a non-empty one is kept;
   * the namespace is POD_NAMESPACE when set and "default" otherwise, whatever
   * the caller supplied; both end up non-empty and no other option changes.
   */
  lemma DefaultsSpec(o: Settings, podNamespaceEnv: string)
    ensures Defaults(o, podNamespaceEnv).configMapName
            == if o.configMapName == "" then o.clusterName + "-config" else o.configMapName
    ensures Defaults(o, podNamespaceEnv).podNamespace == if podNamespaceEnv != "" then podNamespaceEnv else "default"
    ensures Defaults(o, podNamespaceEnv).configMapName != "" && Defaults(o, podNamespaceEnv).podNamespace != ""
    ensures Defaults(o, podNamespaceEnv).(configMapName := o.configMapName, podNamespace := o.podNamespace) == o
  {
    assert ConfigMapNameFormat == "" + "%s" + "-config";
    SprintfOneVerb("", "-config", o.clusterName);
  }

  /** Defaulting twice with the same environment is defaulting once. */
  lemma DefaultsIdempotent(o: Settings, podNamespaceEnv: string)
    ensures Defaults(Defaults(o, podNamespaceEnv), podNamespaceEnv) == Defaults(o, podNamespaceEnv)
  {
    DefaultsSpec(o, podNamespaceEnv);
  }

  /** The subscriptions setupNATS asks for, in the order it asks. */
  function Plan(cluster: string): (r: seq<Subscription>)
  {
    [ Subscription(SubjectFor(ConfigGet, cluster), Some(DefaultQueueGroupName), ConfigGet),
      Subscription(SubjectFor(ConfigUpdate, cluster), Some(DefaultQueueGroupName), ConfigUpdate),
      Subscription(SubjectFor(Status, cluster), Some(DefaultQueueGroupName), Status),
      Subscription(SubjectFor(Discover, cluster), None, Discover) ]
  }

  /**
   * Every planned subscription is on its handler's subject, in the queue group
   * "controllers" except discover, which has no group; the four handlers differ.
   */
  lemma PlanShape(cluster: string)
    ensures |Plan(cluster)| == 4
    ensures forall i :: 0 <= i < 4 ==> Plan(cluster)[i].subject == SubjectFor(Plan(cluster)[i].handler, cluster)
    ensures forall i :: 0 <= i < 4 ==>
              Plan(cluster)[i].queue == if Plan(cluster)[i].handler == Discover then None else Some("controllers")
    ensures forall i, j :: 0 <= i < j < 4 ==> Plan(cluster)[i].handler != Plan(cluster)[j].handler
  {
  }

  /** The four planned subjects differ, so no two subscriptions of the plan share a subject. */
  lemma PlanSubjectsDistinct(cluster: string)
    ensures forall i, j :: 0 <= i < j < 4 ==> Plan(cluster)[i].subject != Plan(cluster)[j].subject
  {
    PlanShape(cluster);
    ClusterSubjectsDistinct(cluster);
  }

  /** Delivery over a suffix of the subscriptions, one subscription at a time. */
  lemma ReceiversUnfold(subs: seq<Subscription>, i: nat, subject: string)
    requires i < |subs|
    ensures Receivers(subs[i..], subject)
            == (if subs[i].subject == subject then [subs[i].handler] else []) + Receivers(subs[i + 1..], subject)
  {
    assert subs[i..][1..] == subs[i + 1..];
  }

  /**
   * Once the plan is registered, a message on the subject of endpoint e reaches
   * e's handler and no other, and a message on any other subject reaches none.
   */
  lemma PlanRoutes(cluster: string, subject: string)
    ensures |Receivers(Plan(cluster), subject)| <= 1
    ensures forall e :: Receivers(Plan(cluster), subject) == [e] <==> subject == SubjectFor(e, cluster)
  {
    var p := Plan(cluster);
    ClusterSubjectsDistinct(cluster);
    ReceiversUnfold(p, 0, subject);
    ReceiversUnfold(p, 1, subject);
    ReceiversUnfold(p, 2, subject);
    ReceiversUnfold(p, 3, subject);
    assert p[4..] == [];
    var hit := if subject == SubjectFor(ConfigGet, cluster) then [ConfigGet]
               else if subject == SubjectFor(ConfigUpdate, cluster) then [ConfigUpdate]
               else if subject == SubjectFor(Status, cluster) then [Status]
               else if subject == SubjectFor(Discover, cluster) then [Discover]
               else [];
    assert Receivers(p, subject) == hit;
  }

  /** The first of the four subscribe calls, from `from` on, that `answers` makes fail; 4 if none. */
  function FirstFailure(answers: seq<Option<string>>, from: nat): (k: nat)
    requires from <= 4
    ensures from <= k <= 4
    ensures forall i :: from <= i < k ==> Answer(answers, i).None?
    ensures k < 4 ==> Answer(answers, k).Some?
    decreases 4 - from
  {
    if from == 4 then 4
    else if Answer(answers, from).Some? then from
    else FirstFailure(answers, from + 1)
  }

  /** The `fmt.Sprintf` calls of setupNATS: each cluster subject constant formatted with the cluster name. */
  method FormatSubjects(cluster: string) returns (getSubject: string, putSubject: string, statusSubject: string)
    ensures getSubject == SubjectFor(ConfigGet, cluster)
    ensures putSubject == SubjectFor(ConfigUpdate, cluster)
    ensures statusSubject == SubjectFor(Status, cluster)
  {
    getSubject := Sprintf(ConfigGetSubject, cluster);
    putSubject := Sprintf(ConfigUpdateSubject, cluster);
    statusSubject := Sprintf(StatusSubject, cluster);
    SprintfSubject(ConfigGet, cluster);
    SprintfSubject(ConfigUpdate, cluster);
    SprintfSubject(Status, cluster);
  }

  /** The first failure is at k when the calls before k succeed and call k, if any, fails. */
  lemma FirstFailureAt(answers: seq<Option<string>>, k: nat)
    requires k <= 4
    requires forall j :: 0 <= j < k ==> Answer(answers, j).None?
    requires k < 4 ==> Answer(answers, k).Some?
    ensures FirstFailure(answers, 0) == k
  {
    var f := FirstFailure(answers, 0);
    assert !(f < k) && !(k < f);
  }

  /** How many subscribe calls setupNATS makes: up to and including the first failing one. */
  function Attempts(answers: seq<Option<string>>): (r: nat)
  {
    var k := FirstFailure(answers, 0);
    if k < 4 then k + 1 else 4
  }

  /** Subscription i is attempted exactly when every earlier one succeeded. */
  lemma AttemptedIff(answers: seq<Option<string>>, i: nat)
    requires i < 4
    ensures i < Attempts(answers) <==> forall j :: 0 <= j < i ==> Answer(answers, j).None?
  {
    var k := FirstFailure(answers, 0);
    if i >= Attempts(answers) {
      assert k < i && Answer(answers, k).Some?;
    }
  }

  /** A signal the handler is notified of: signal.Notify subscribes to SIGINT and SIGTERM only. */
  datatype Signal = Interrupt | Terminate

  /** What the handler does with one signal. */
  datatype Action = Skip | Exit(code: int) | GracefulShutdown

  /** The decision inside the signal loop, given whether the context is already done. */
  function Decide(done: bool, sig: Signal): (r: Action)
  {
    if done then Skip
    else match sig
      case Interrupt => Exit(0)
      case Terminate => GracefulShutdown
  }

  /** How SetupSignalHandler ends. */
  datatype HandlerEnd = SignalsExhausted | ExitProcess(code: int) | ShutDown

  /** The end of the signal loop over the signals that arrive, in order. */
  function SignalLoop(done: bool, signals: seq<Signal>): (r: HandlerEnd)
  {
    if signals == [] then SignalsExhausted
    else match Decide(done, signals[0])
      case Skip => SignalLoop(done, signals[1..])
      case Exit(code) => ExitProcess(code)
      case GracefulShutdown => ShutDown
  }

  /**
   * Once the context is done every signal is skipped; otherwise the first signal
   * decides: SIGINT exits with code 0 and SIGTERM shuts down.
   */
  lemma {:induction false} SignalLoopSpec(done: bool, signals: seq<Signal>)
    ensures SignalLoop(done, signals) == SignalsExhausted <==> done || signals == []
    ensures !done && signals != [] ==>
              SignalLoop(done, signals) == if signals[0] == Interrupt then ExitProcess(0) else ShutDown
  {
    if done && signals != [] {
      SignalLoopSpec(done, signals[1..]);
    }
  }

  /** How Run ends once setup succeeded: Waiting means it is still blocked on the context. */
  datatype RunOutcome = SetupFailed(error: string) | Exited(code: int) | ContextDone | Waiting

  /** Run after setup: the signal handler (unless disabled), then the wait on the derived context. */
  function Serve(noSignals: bool, parentDone: bool, wasShutdown: bool, signals: seq<Signal>): (r: RunOutcome)
  {
    var end := if noSignals then SignalsExhausted else SignalLoop(parentDone, signals);
    match end
    case ExitProcess(code) => Exited(code)
    case ShutDown => if !wasShutdown then ContextDone else Waiting
    case SignalsExhausted => if parentDone then ContextDone else Waiting
  }

  /**
   * After setup, Run exits with 0 exactly when the first signal is SIGINT and the
   * context was live; it still waits exactly when the context was live and no
   * signal cancelled it; otherwise it returns with the context done.
   */
  lemma ServeSpec(noSignals: bool, parentDone: bool, wasShutdown: bool, signals: seq<Signal>)
    ensures Serve(noSignals, parentDone, wasShutdown, signals) == Exited(0)
            <==> !noSignals && !parentDone && signals != [] && signals[0] == Interrupt
    ensures Serve(noSignals, parentDone, wasShutdown, signals) == Waiting
            <==> !parentDone && (noSignals || signals == [] || (signals[0] == Terminate && wasShutdown))
    ensures Serve(noSignals, parentDone, wasShutdown, signals) in {Exited(0), ContextDone, Waiting}
  {
    SignalLoopSpec(parentDone, signals);
  }

  /** The shutdown-relevant state: the flag, the drains issued and the quit calls made. */
  datatype TeardownState = TeardownState(shutdown: bool, drains: nat, quits: nat)

  /** One call of Shutdown. */
  function ShutdownStep(t: TeardownState): (r: TeardownState)
  {
    if t.shutdown then t else TeardownState(true, t.drains + 1, t.quits + 1)
  }

  /** n calls of Shutdown, one after another. */
  function ShutdownCalls(t: TeardownState, n: nat): (r: TeardownState)
    decreases n
  {
    if n == 0 then t else ShutdownCalls(ShutdownStep(t), n - 1)
  }

  /** Once the flag is set, further calls change nothing. */
  lemma {:induction false} ShutdownCallsAfterShutdown(t: TeardownState, n: nat)
    requires t.shutdown
    ensures ShutdownCalls(t, n) == t
  {
    if n > 0 {
      ShutdownCallsAfterShutdown(ShutdownStep(t), n - 1);
    }
  }

  /**
   * Any number n >= 1 of calls acts as one: from a live state they set the flag
   * and drain and quit exactly once; the flag never reverts to false.
   */
  lemma {:induction false} ShutdownExactlyOnce(t: TeardownState, n: nat)
    requires n >= 1
    ensures ShutdownCalls(t, n) == ShutdownStep(t)
    ensures ShutdownCalls(t, n).shutdown
    ensures !t.shutdown ==> ShutdownCalls(t, n) == TeardownState(true, t.drains + 1, t.quits + 1)
  {
    ShutdownCallsAfterShutdown(ShutdownStep(t), n - 1);
  }

  /**
   * One block of setupNATS: ask for plan entry k, once entries 0..k-1 are
   * registered. The three cluster endpoints join the queue group, discover does not.
   */
  method SubscribeEntry(conn: Conn, cluster: string, subject: string, k: nat) returns (err: Option<string>)
    requires k < 4 && subject == Plan(cluster)[k].subject
    requires conn.attempts == Plan(cluster)[..k] && conn.subs == Plan(cluster)[..k]
    modifies conn`attempts, conn`subs
    ensures err == Answer(conn.script, k)
    ensures conn.attempts == Plan(cluster)[..k + 1]
    ensures conn.subs == Plan(cluster)[..if err.None? then k + 1 else k]
  {
    ghost var plan := Plan(cluster);
    assert plan[..k + 1] == plan[..k] + [plan[k]];
    if k == 0 {
      err := conn.QueueSubscribe(subject, DefaultQueueGroupName, ConfigGet);
    } else if k == 1 {
      err := conn.QueueSubscribe(subject, DefaultQueueGroupName, ConfigUpdate);
    } else if k == 2 {
      err := conn.QueueSubscribe(subject, DefaultQueueGroupName, Status);
    } else {
      err := conn.Subscribe(subject, Discover);
    }
  }

  /** The four subscribe blocks of setupNATS on a fresh connection, in plan order, up to the first failure. */
  method SubscribeAll(conn: Conn, cluster: string) returns (err: Option<string>)
    requires conn.attempts == [] && conn.subs == []
    modifies conn`attempts, conn`subs
    ensures conn.attempts == Plan(cluster)[..Attempts(conn.script)]
    ensures conn.subs == Plan(cluster)[..FirstFailure(conn.script, 0)]
    ensures var k := FirstFailure(conn.script, 0); err == (if k < 4 then Answer(conn.script, k) else None)
  {
    ghost var script := conn.script;
    var getSubject, putSubject, statusSubject := FormatSubjects(cluster);
    assert Plan(cluster)[..0] == [];
    err := SubscribeEntry(conn, cluster, getSubject, 0);
    if err.Some? {
      FirstFailureAt(script, 0);
      return;
    }
    err := SubscribeEntry(conn, cluster, putSubject, 1);
    if err.Some? {
      FirstFailureAt(script, 1);
      return;
    }
    err := SubscribeEntry(conn, cluster, statusSubject, 2);
    if err.Some? {
      FirstFailureAt(script, 2);
      return;
    }
    err := SubscribeEntry(conn, cluster, DiscoverSubject, 3);
    if err.Some? {
      FirstFailureAt(script, 3);
      return;
    }
    FirstFailureAt(script, 4);
  }

  /** The options struct, which NewController updates in place. */
  class Options {
    var clusterName: string
    var noSignals: bool
    var natsServerURL: string
    var natsCredentials: string
    var configMapName: string
    var podNamespace: string

    constructor (s: Settings)
      ensures Snapshot() == s
    {
      clusterName, noSignals, natsServerURL := s.clusterName, s.noSignals, s.natsServerURL;
      natsCredentials, configMapName, podNamespace := s.natsCredentials, s.configMapName, s.podNamespace;
    }

    function Snapshot(): (r: Settings)
      reads this
    {
      Settings(clusterName, noSignals, natsServerURL, natsCredentials, configMapName, podNamespace)
    }
  }

  class Controller {
    /** The Kubernetes client; null until setupK8S succeeds. */
    var kc: Store?
    var opts: Options
    /** The NATS connection; null until all four subscriptions succeed. */
    var nc: Conn?
    /** The context that quit cancels; null while quit is unset. */
    var quit: Context?
    var shutdown: bool

    constructor (opts: Options)
      ensures this.opts == opts && kc == null && nc == null && quit == null && !shutdown
    {
      this.opts, kc, nc, quit, shutdown := opts, null, null, null, false;
    }

    ghost function Teardown(): (r: TeardownState)
      reads this, nc, quit
    {
      TeardownState(shutdown, if nc == null then 0 else nc.drains, if quit == null then 0 else quit.cancels)
    }

    /** The connection and the context of quit, those of them that are set. */
    ghost function Peers(): (r: set<object>)
      reads this
    {
      (if nc == null then {} else {nc}) + (if quit == null then {} else {quit})
    }

    /** setupK8S, with the client construction's outcome given. */
    method SetupK8S(client: Result<Store>) returns (err: Option<string>)
      modifies this`kc
      ensures client.Err? ==> err == Some(client.error) && kc == old(kc)
      ensures client.Ok? ==> err == None && kc == client.value
    {
      if client.Err? {
        return Some(client.error);
      }
      kc := client.value;
      err := None;
    }

    /**
     * setupNATS, with the outcome of nats.Connect given: the four subscriptions
     * are asked for in plan order, the first failure ends setup without trying
     * the rest, and the connection is stored only when all four succeed.
     */
    method SetupNATS(dial: Result<Conn>) returns (err: Option<string>)
      requires dial.Ok? ==> dial.value.attempts == [] && dial.value.subs == []
      modifies this`nc, if dial.Ok? then {dial.value} else {}
      ensures dial.Err? ==> err == Some(dial.error) && nc == old(nc)
      ensures dial.Ok? ==> dial.value.attempts == Plan(opts.clusterName)[..Attempts(dial.value.script)]
      ensures dial.Ok? ==> dial.value.subs == Plan(opts.clusterName)[..FirstFailure(dial.value.script, 0)]
      ensures dial.Ok? ==> dial.value.drains == old(dial.value.drains)
      ensures dial.Ok? ==> var k := FirstFailure(dial.value.script, 0);
                err == (if k < 4 then Answer(dial.value.script, k) else None)
      ensures dial.Ok? ==> nc == (if FirstFailure(dial.value.script, 0) == 4 then dial.value else old(nc))
    {
      if dial.Err? {
        return Some(dial.error);
      }
      var conn := dial.value;
      err := SubscribeAll(conn, opts.clusterName);
      if err.Some? {
        return;
      }
      nc := conn;
    }

    /**
     * Shutdown: the first call sets the flag, drains the connection and calls
     * quit; every later call returns at once.
     */
    method Shutdown()
      requires !shutdown ==> nc != null && quit != null
      modifies this`shutdown, nc, quit
      ensures shutdown
      ensures Teardown() == ShutdownStep(old(Teardown()))
      ensures !old(shutdown) ==> quit.done
      ensures old(shutdown) ==> unchanged(Peers())
      ensures nc != null ==> nc.subs == old(nc.subs) && nc.attempts == old(nc.attempts)
    {
      if shutdown {
        return;
      }
      shutdown := true;
      var conn := nc;
      conn.Drain();
      quit.Cancel();
    }

    /** SetupSignalHandler over the signals that arrive, in order. */
    method SetupSignalHandler(ctx: Context, signals: seq<Signal>) returns (end: HandlerEnd)
      requires !shutdown ==> nc != null && quit != null
      modifies this`shutdown, nc, quit
      ensures end == SignalLoop(old(ctx.done), signals)
      ensures end == ShutDown ==> Teardown() == ShutdownStep(old(Teardown())) && (!old(shutdown) ==> quit.done)
      ensures (end == ShutDown ==> old(shutdown)) ==> unchanged(this) && unchanged(old(Peers()))
      ensures nc != null ==> nc.subs == old(nc.subs) && nc.attempts == old(nc.attempts)
    {
      var i := 0;
      while i < |signals|
        invariant 0 <= i <= |signals|
        invariant SignalLoop(old(ctx.done), signals[i..]) == SignalLoop(old(ctx.done), signals)
        invariant unchanged(this) && unchanged(old(Peers())) && ctx.done == old(ctx.done)
      {
        var sig := signals[i];
        if ctx.done {
          i := i + 1;
          continue;
        }
        match sig
        case Interrupt =>
          return ExitProcess(0);
        case Terminate =>
          Shutdown();
          return ShutDown;
      }
      end := SignalsExhausted;
    }

    /**
     * Run, with the outcomes of the Kubernetes client construction and of
     * nats.Connect given, and the handler run in line on the signals that arrive.
     */
    method Run(parent: Context, client: Result<Store>, dial: Result<Conn>, signals: seq<Signal>)
      returns (outcome: RunOutcome)
      requires dial.Ok? ==> dial.value.attempts == [] && dial.value.subs == []
      modifies this`kc, this`nc, this`quit, this`shutdown, if dial.Ok? then {dial.value} else {}
      ensures client.Err? ==> outcome == SetupFailed(client.error) && unchanged(this)
      ensures client.Err? && dial.Ok? ==> unchanged(dial.value)
      ensures client.Ok? ==> kc == client.value
      ensures client.Ok? && dial.Err? ==> outcome == SetupFailed(dial.error) && unchanged(this`nc, this`quit, this`shutdown)
      ensures client.Ok? && dial.Ok? ==>
                dial.value.subs == Plan(opts.clusterName)[..FirstFailure(dial.value.script, 0)]
      ensures client.Ok? && dial.Ok? && FirstFailure(dial.value.script, 0) < 4 ==>
                && outcome == SetupFailed(Answer(dial.value.script, FirstFailure(dial.value.script, 0)).value)
                && unchanged(this`nc, this`quit, this`shutdown)
      ensures client.Ok? && dial.Ok? && FirstFailure(dial.value.script, 0) == 4 ==>
                && nc == dial.value && quit != null && fresh(quit)
                && outcome == Serve(opts.noSignals, old(parent.done), old(shutdown), signals)
                && (outcome == ContextDone <==> quit.done)
      ensures old(shutdown) ==> shutdown
      ensures client.Ok? && dial.Ok? && FirstFailure(dial.value.script, 0) == 4 ==>
                var sigterm := !opts.noSignals && SignalLoop(old(parent.done), signals) == ShutDown;
                && shutdown == (old(shutdown) || sigterm)
                && dial.value.drains == old(dial.value.drains) + (if sigterm && !old(shutdown) then 1 else 0)
                && quit.cancels == (if sigterm && !old(shutdown) then 1 else 0)
      ensures client.Ok? && dial.Ok? ==> dial.value.attempts == Plan(opts.clusterName)[..Attempts(dial.value.script)]
      ensures client.Ok? && dial.Ok? && FirstFailure(dial.value.script, 0) < 4 ==> dial.value.drains == old(dial.value.drains)
    {
      var err := SetupK8S(client);
      if err.Some? {
        return SetupFailed(err.value);
      }
      err := SetupNATS(dial);
      if err.Some? {
        return SetupFailed(err.value);
      }
      var ctx := new Context(parent.done);
      quit := ctx;
      if !opts.noSignals {
        SignalLoopSpec(ctx.done, signals);
        var end := SetupSignalHandler(ctx, signals);
        if end.ExitProcess? {
          return Exited(end.code);
        }
      }
      outcome := if ctx.done then ContextDone else Waiting;
    }
  }

  /**
   * NewController: a null options pointer is replaced by a fresh empty struct,
   * and the struct (the caller's own, when given) is defaulted in place.
   */
  method NewController(opts: Options?, podNamespaceEnv: string) returns (c: Controller)
    modifies opts
    ensures fresh(c) && c.kc == null && c.nc == null && c.quit == null && !c.shutdown
    ensures opts != null ==> c.opts == opts
    ensures opts == null ==> fresh(c.opts)
    ensures c.opts.Snapshot() == Defaults(if opts == null then EmptySettings else old(opts.Snapshot()), podNamespaceEnv)
  {
    var o := opts;
    if o == null {
      o := new Options(EmptySettings);
    }
    if o.configMapName == "" {
      o.configMapName := Sprintf(ConfigMapNameFormat, o.clusterName);
    }
    var ns := podNamespaceEnv;
    if ns != "" {
      o.podNamespace := ns;
    } else {
      o.podNamespace := FallbackNamespace;
    }
    c := new Controller(o);
  }
}
