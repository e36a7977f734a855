# Leaf controller model

A Dafny model of the leaf controller of the satellite project. The controller is a small Go
component that serves a Kubernetes ConfigMap over NATS request/reply subjects. The model covers:

- **Option defaulting** (`NewController`). An empty config map name becomes `"<cluster>-config"`.
  The namespace comes from `POD_NAMESPACE`, or is `"default"` when that is empty.
- **Subject naming and the subscription plan** (`setupNATS`). Three subjects depend on the
  cluster: get, put and status. A fixed discover subject is added. The three cluster
  subscriptions join the queue group `controllers`. Subscribing stops at the first error. The
  connection is kept only when all four subscriptions succeed.
- **Run ordering**. Kubernetes setup comes first, then NATS, then the cancellable context
  behind `quit`, then the optional signal handler, then the wait on the context.
- **The signal decision and the one-way shutdown flag**. Once the context is done, SIGINT and
  SIGTERM are skipped. Otherwise SIGINT exits with 0 and SIGTERM shuts down. Shutdown drains
  and cancels exactly once, however often it is called.
- **The four request handlers** (`requests.go`). They are methods over a config store class
  that holds a `map<(namespace, name), map<string, string>>`. A failing Kubernetes call is an
  injected error. Each handler sends exactly one reply.

Modules, one file each:

| module | file | contents |
|---|---|---|
| `Results` | results.dfy | `Option` and `Result` |
| `Naming` | naming.dfy | subject constants, a one-verb `Sprintf`, `SubjectFor` and its injectivity |
| `Bus` | bus.dfy | the NATS connection, message and context the controller calls, and subject delivery (`Receivers`) |
| `ConfigStore` | store.dfy | the ConfigMap API as a `Store` class with injected faults; `Fetch`/`Write` specify it |
| `LeafController` | controller.dfy | options, plan, signal loop, shutdown, `Controller` class, `NewController` |
| `Requests` | requests.dfy | reply functions, `UpdateSpec`, the four handler methods and their lemmas |

Collaborators enter the model as parameters:

- The outcome of building the Kubernetes client is a `Result<Store>`.
- The outcome of `nats.Connect` is a `Result<Conn>`.
- Each connection answers its n-th subscribe call from a fixed script.
- The environment value `POD_NAMESPACE` is a string argument.
- The signals that arrive form a finite sequence.

`Run` runs the signal handler in line, before reporting how the wait on the context ends.
Here `Waiting` means it would still be blocked.

When a later subscribe call fails, `setupNATS` returns without closing the connection
(controller.go:147-166). The earlier subscriptions stay registered on it while `nc` stays unset.
`Controller.SetupNATS` and `Controller.Run` state this.

A reply that begins with `Error:` is ambiguous to a requester. `GetReplyErrorIff` shows that a get
reply looks like an error either when the fetch failed, or when the stored routes blob itself
begins with `Error:`.

## Model

| member | source | states |
|---|---|---|
| Naming.SprintfOneVerb | pkg/leaf-controller/controller.go:91 | formatting a template with exactly one `%s` and no other `%` substitutes the argument for the verb and keeps the rest |
| Naming.SprintfSubject | pkg/leaf-controller/controller.go:38-40 | formatting the get, put and status constants with a cluster name gives that endpoint's subject `_SAT.<cluster><suffix>` |
| Naming.SubjectForInjective | pkg/leaf-controller/controller.go:37-40 | two (endpoint, cluster) pairs share a subject exactly when the endpoints are equal and either the endpoint is discover or the clusters are equal (both directions) |
| Naming.ClusterSubjectsDistinct | pkg/leaf-controller/controller.go:37-40 | the four subjects of one cluster are pairwise distinct |
| Bus.Conn.Register | pkg/leaf-controller/controller.go:145-166 | a subscribe call is always logged as attempted; it is registered exactly when the connection's script does not fail that call, and the error is the script's answer |
| Bus.Conn.QueueSubscribe | pkg/leaf-controller/controller.go:145-146 | a queue subscribe asks for the subject with the given queue group and handler |
| Bus.Conn.Subscribe | pkg/leaf-controller/controller.go:163 | a plain subscribe asks for the subject with no queue group |
| Bus.Conn.Drain | pkg/leaf-controller/controller.go:235 | a drain is counted once per call |
| Bus.Msg.Respond | pkg/leaf-controller/requests.go:36 | a reply is appended to the message's reply log |
| Bus.Context.Cancel | pkg/leaf-controller/controller.go:117-121 | cancelling marks the context done and counts the cancellation |
| ConfigStore.Store.Get | pkg/leaf-controller/requests.go:33 | a get returns the injected error, a not-found error for a missing record, or the record's data |
| ConfigStore.Store.Update | pkg/leaf-controller/requests.go:62 | an update fails with the injected error or not-found and leaves the records unchanged, or replaces exactly that record's data |
| LeafController.DefaultsSpec | pkg/leaf-controller/controller.go:90-98 | an empty config map name becomes `<cluster>-config` and a non-empty one is kept; the namespace is `POD_NAMESPACE` when non-empty, otherwise `default`, whatever the caller set; both end non-empty; no other option changes |
| LeafController.DefaultsIdempotent | pkg/leaf-controller/controller.go:90-98 | defaulting twice with the same environment equals defaulting once |
| LeafController.NewController | pkg/leaf-controller/controller.go:86-102 | a null options pointer acts exactly like a fresh `Options{}`; given options are defaulted in place and kept; the controller starts with no client, no connection, no quit and the flag clear |
| LeafController.Controller.constructor | pkg/leaf-controller/controller.go:99-101 | a new controller holds only its options |
| LeafController.PlanShape | pkg/leaf-controller/controller.go:145-163 | the plan has four entries; each is on its handler's subject; the queue group is `controllers` for get, put and status and none for discover; the handlers differ |
| LeafController.PlanSubjectsDistinct | pkg/leaf-controller/controller.go:145-163 | no two planned subscriptions share a subject |
| LeafController.PlanRoutes | pkg/leaf-controller/controller.go:145-163 | once the plan is registered, a message on endpoint e's subject reaches e's handler and nothing else, and a message on any other subject reaches no handler |
| LeafController.FormatSubjects | pkg/leaf-controller/controller.go:145-157 | the three `fmt.Sprintf` calls give the get, put and status subjects of the cluster |
| LeafController.FirstFailure | pkg/leaf-controller/controller.go:145-166 | the index found is the first failing subscribe call: every earlier call succeeds and, below 4, that call fails |
| LeafController.AttemptedIff | pkg/leaf-controller/controller.go:145-166 | subscription i is attempted exactly when every earlier one succeeded |
| LeafController.SubscribeEntry | pkg/leaf-controller/controller.go:145-166 | one subscribe block registers plan entry k after entries 0..k-1; the call is logged, and the entry is registered exactly when the call succeeds |
| LeafController.SubscribeAll | pkg/leaf-controller/controller.go:145-166 | the calls made are the plan up to and including the first failure, the registered ones are the plan before it, and the error is that failure's |
| LeafController.Controller.SetupNATS | pkg/leaf-controller/controller.go:135-170 | a dial error is returned and nothing is stored; otherwise the plan is attempted as far as the first failure, nothing is drained, and the connection is stored exactly when all four subscriptions succeed |
| LeafController.Controller.SetupK8S | pkg/leaf-controller/controller.go:172-193 | a client error is returned and the client is left unset; success stores the client |
| LeafController.SignalLoopSpec | pkg/leaf-controller/controller.go:200-221 | the handler runs out of signals exactly when the context is done or no signal came; otherwise the first signal decides: SIGINT exits with 0 and SIGTERM shuts down |
| LeafController.Controller.SetupSignalHandler | pkg/leaf-controller/controller.go:196-222 | the handler ends as the signal loop says; it calls Shutdown only on a live SIGTERM, and otherwise changes nothing |
| LeafController.ServeSpec | pkg/leaf-controller/controller.go:122-130 | after setup, Run exits with 0 exactly on a first SIGINT while live; it keeps waiting exactly when live and nothing cancelled the context; otherwise it returns with the context done |
| LeafController.Controller.Run | pkg/leaf-controller/controller.go:105-133 | a Kubernetes error stops Run before any NATS call, with nothing changed; a dial or subscribe error stops it with `nc`, `quit` and the flag as they were, and after a subscribe error the calls made are the plan through the failure and the connection is not drained; after full setup the connection is stored, quit is a fresh context, and Run ends as `Serve` says, with the context done exactly when it returns that way; a set shutdown flag stays set; after full setup the flag is set, and the connection drained once and the quit context cancelled once, exactly when a SIGTERM reached the handler while the context was live and the flag was still clear |
| LeafController.ShutdownCallsAfterShutdown | pkg/leaf-controller/controller.go:227-230 | once the flag is set, any number of further calls changes nothing |
| LeafController.ShutdownExactlyOnce | pkg/leaf-controller/controller.go:225-241 | any positive number of calls acts as one; from a live state they set the flag and drain and quit exactly once, and the flag stays set |
| LeafController.Controller.Shutdown | pkg/leaf-controller/controller.go:225-241 | the flag is set afterwards; the first call drains the connection and cancels the quit context; a later call changes nothing |
| Requests.ErrorReplyRoundTrip | pkg/leaf-controller/requests.go:36 | an `Error:` reply gives back exactly the error text it was built from |
| Requests.FixedRepliesAreNotErrors | pkg/leaf-controller/requests.go:68-80 | neither the update acknowledgement nor `OK` can be read as an error reply |
| Requests.GetReplyErrorIff | pkg/leaf-controller/requests.go:33-39 | a get reply carries the error prefix exactly when the fetch failed or the stored blob begins with `Error:`; a failed fetch's text is recovered |
| Requests.UpdateSucceedsIff | pkg/leaf-controller/requests.go:52-68 | the update is acknowledged exactly when both API calls succeed and the record exists; otherwise the store is unchanged and the reply carries the first error |
| Requests.UpdateChangesOneKey | pkg/leaf-controller/requests.go:60-62 | a successful update sets the record's `routes.json` to the payload and keeps every other key, every other record and the set of records |
| Requests.GetAfterUpdate | pkg/leaf-controller/requests.go:33-62 | a get right after a successful update replies with that update's payload |
| Requests.UpdateIdempotent | pkg/leaf-controller/requests.go:52-68 | repeating a successful update with the same payload leaves the same store and the same reply |
| Requests.ProcessConfigGetRequest | pkg/leaf-controller/requests.go:23-40 | exactly one reply: `Error:` with the fetch error, or the record's `routes.json` value (`""` when absent); the store is not written |
| Requests.ProcessConfigUpdateRequest | pkg/leaf-controller/requests.go:42-69 | exactly one reply, and the store ends as `UpdateSpec` says: fetch, set `routes.json` to the raw payload, write back |
| Requests.ProcessDiscoverRequest | pkg/leaf-controller/requests.go:71-75 | exactly one reply, `OK`, whatever the payload; the store is not touched |
| Requests.ProcessStatusRequest | pkg/leaf-controller/requests.go:77-81 | exactly one reply, `OK`, whatever the payload; the store is not touched |

## Left out

- Kubernetes client construction (`KUBERNETES_CONFIG_FILE`, in-cluster config, `NewForConfig`): library calls, so only their success or failure, as `Result<Store>`, is modelled.
- The API server's not-found message: its text is outside this repository, and `ConfigStore.NotFound` is a stand-in for it.
- NATS itself: connecting, delivery guarantees, drain and flush behaviour and queue-group load sharing belong to the client library. Drain is a counter and delivery is exact subject matching (`Bus.Receivers`). Subject wildcards are not modelled: a cluster name is taken as a literal subject token, so a name such as `*` or `>`, which NATS would read as a wildcard and match against other subjects, is outside what `LeafController.PlanRoutes` describes.
- The `nats.Name` option: it is built but never passed to `nats.Connect`, so it has no observable effect.
- Goroutines, `sync.Mutex` and channels: each locked section is one atomic step, and the signal handler runs in line inside `Run`. The lost update between two concurrent update requests is therefore not modelled.
- The signal channel is an unbounded stream; here it is a finite sequence of the SIGINT and SIGTERM signals it subscribes to.
- Context propagation: a parent context cancelled after Run derives its own is not modelled. The derived context starts with the parent's done flag. `ctx.Err()` is reported as the outcome `ContextDone`.
- Logging, including the unconditional error log after `Drain`, and `os.Exit`: exit is the outcome `Exited(0)`.
- The nil-map panic when a ConfigMap has no data: a record's data is always a map here.
- Bytes: message payloads and replies are strings, because the code converts each with `string(...)` and `[]byte(...)` without inspecting them.
- `Version`: a constant that nothing in the core reads.
- Requests.ProcessConfigGetRequest and Requests.ProcessConfigUpdateRequest: both require the store handle to be set; they cannot run before `setupK8S` succeeded, because subscriptions are made only after that.
- LeafController.Controller.SetupNATS: requires a freshly dialled connection, with no subscribe call made on it yet, as `nats.Connect` returns.
- LeafController.Controller.Shutdown and LeafController.Controller.SetupSignalHandler: both require the connection and the quit context to be set whenever the flag is still clear. The one call site in the code, the SIGTERM branch of the signal handler, runs only after `Run` finished setup, so this holds there. A direct call to the exported `Shutdown` before setup, or after a failed `Run`, sets the flag and then dereferences a nil connection and a nil `quit`. The model does not capture that crash.
