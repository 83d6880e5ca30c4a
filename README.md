# kubenotify notification engine in Dafny

kubenotify watches Deployments and StatefulSets and posts a Slack message
whenever a workload's replica health changes. This project models its core:

- the controller's Target store, a map from a resource's key
  (`namespace/name`) to a Target record that is updated in place;
- the consumer loop that takes queued events, derives the key and dispatches
  on the object's kind;
- the per-resource state machine (ignore, start tracking, refresh and
  re-notify);
- the message renderer, which builds a header and then one block per pod and
  per container;
- the duplicate-suppression rule, and the update of the Target's send time
  and message digest;
- notifier selection (`GetHandler`) and the Slack notifier's `Init`.

Modules follow the program's structure:

- `Wrappers`: `Option`.
- `Decimal`: the `%v` rendering of a replica count. It is proved to parse back.
- `Resources`: workload snapshots, pods, objects and events, and the key
  function (`MetaNamespaceKeyFunc` as the controller uses it).
- `Messages`: `Render`, the message as a function. `RenderMessage` is the
  string-builder loop, proved equal to it.
- `Reconcile`: the controller's state as a value (`State`). `ProcessEvent` is
  one dequeued event and `Run` a sequence of them. The lemmas state what the
  engine promises about these.
- `Controller`: the classes `Target` and `Controller`. Their methods mutate
  fields, the `targets` map and the sent-log. Each method is proved to leave
  `Model()` equal to the matching `Reconcile` function of the old state.
- `Handlers`: the configuration records, the `Slack` class with `Init`, and
  `GetHandler`.

The external collaborators are parameters:

- The pod listing's answer is an `Option<seq<Pod>>`. `None` means listing
  failed.
- The clock is a `now: int` per event.
- SHA-256 in hex is the `hash` field of a `Policy`.
- The Slack notifier's `Notify` appends the message to the `sent` log.

In four places the intended behaviour of the system differs from what the
code does. The model follows the code each time:

- The intent is that a Target's dedup state is not updated when dispatch
  fails. The code discards `Notify`'s error and always updates
  `lastTimeMessageSent` and `lastMessageHash` (pkg/controller/controller.go:268-272).
- The intent is that an event whose key cannot be derived is dropped. The code
  logs the error and carries on with the key returned (pkg/controller/controller.go:166-169).
- The intended sample messages show the header without its surrounding `*`.
  The code writes `*<key> <status>*` (pkg/controller/controller.go:236).
- The intent is that a resource is identified by its namespace, name and kind.
  The key is `namespace/name` with no kind (pkg/controller/controller.go:166),
  so a Deployment and a StatefulSet with the same namespace and name share one
  Target: an event for either replaces the other's snapshot
  (`Reconcile.KindsShareTarget`).

## Model

| member | source | states |
|---|---|---|
| Decimal.FormatIntRoundTrip | pkg/controller/controller.go:232-234 | the decimal text that `%v` prints for a replica count parses back to the same count |
| Decimal.FormatIntInjective | pkg/controller/controller.go:232-234 | different counts print as different text |
| Resources.MetaNamespaceKey | pkg/controller/controller.go:166-169 | key derivation fails exactly for an object without metadata, and then yields the empty key; a workload's key is its `namespace/name` (just `name` when the namespace is empty) |
| Resources.SplitKeyFor | pkg/controller/controller.go:166 | a key built from a namespaced name without `/` splits back into that namespace and name |
| Resources.KeyForInjective | pkg/controller/controller.go:31 | distinct namespaced names get distinct keys in the Target map |
| Messages.StateLabel | pkg/controller/controller.go:247-255 | the label is Waiting when a waiting state is set, else Running when running, else Terminated when terminated, else empty; each one holds exactly under its condition |
| Messages.RenderMessage | pkg/controller/controller.go:229-264 | the builder's nested loops over pods and containers produce exactly the text `Render` specifies |
| Messages.RenderReportsHealth | pkg/controller/controller.go:231-236 | a message opens with `*<key> is in a healthy state now (` exactly when ready equals desired replicas |
| Messages.RenderStartsWithHeader | pkg/controller/controller.go:236-243 | every message starts with the header and with `*`; when pod listing fails the message is exactly the header |
| Messages.RenderMorePods | pkg/controller/controller.go:242-243 | pod blocks are appended in the order the pods are listed: more pods extend the message by their blocks |
| Messages.ContainerBlockWithoutState | pkg/controller/controller.go:256-259 | a container block leaves out the ` Status:` segment exactly when no state is set |
| Messages.ContainerBlockEndsWithImage | pkg/controller/controller.go:246-259 | a container block starts with its name line and always ends with its `Image Id` line |
| Reconcile.UntrackedHealthyIgnored | pkg/controller/controller.go:186-189 | an untracked workload whose ready count equals its desired count changes nothing: no Target, no message |
| Reconcile.UntrackedUnhealthyNotified | pkg/controller/controller.go:190-193 | an untracked unhealthy workload gets a Target under its key with its snapshot, the time and the message digest, and exactly one message is sent, because duplicate checking is off |
| Reconcile.TrackedRenotified | pkg/controller/controller.go:182-185 | a tracked workload has its snapshot replaced and is rendered with duplicate checking on; it is sent and stamped unless suppressed; no key is added or removed and the other Targets are unchanged |
| Reconcile.KindsShareTarget | pkg/controller/controller.go:166-185 | the key has no kind: a StatefulSet event whose key a Deployment's Target holds replaces that Target's snapshot, so it becomes the StatefulSet's, and no new key is added |
| Reconcile.UnsupportedIgnored | pkg/controller/controller.go:171-177 | an object that is neither a Deployment nor a StatefulSet leaves the store and the log unchanged |
| Reconcile.EventTypeIgnored | pkg/controller/controller.go:164-177 | add, update and delete events for the same object have the same effect |
| Reconcile.ProcessEventMonotone | pkg/controller/controller.go:181-195 | one event never removes a key and sends at most one message, the rendering of its object, only when the object is tracked or unhealthy; otherwise nothing changes |
| Reconcile.ProcessEventOtherKey | pkg/controller/controller.go:181-195 | an event for one key leaves every other key's Target, or its absence, unchanged |
| Reconcile.ProcessEventTracked | pkg/controller/controller.go:181-195 | after one event a key is tracked exactly when it was before or the event showed that workload unhealthy |
| Reconcile.ProcessEventWellKeyed | pkg/controller/controller.go:166-193 | every Target stays filed under its own snapshot's key |
| Reconcile.RunMonotone | pkg/controller/controller.go:157-179 | over any event sequence no key is removed, and the log only grows, by at most one message per event |
| Reconcile.RunWellKeyed | pkg/controller/controller.go:157-193 | every Target stays filed under its own snapshot's key over any event sequence |
| Reconcile.RunTrackedIff | pkg/controller/controller.go:157-195 | after a run a key is tracked exactly when it was before or some event showed that workload unhealthy |
| Reconcile.RunOtherKeysUnchanged | pkg/controller/controller.go:157-195 | events that are all for other resources leave a key's Target, or its absence, unchanged |
| Reconcile.RunLastSnapshotWins | pkg/controller/controller.go:184 | a tracked Target holds the snapshot of the last event for its key, whatever other events came after |
| Reconcile.MessageIsNeverADigest | pkg/controller/controller.go:236 | a message, which starts with `*`, never equals the unset digest or a hex SHA-256 digest |
| Reconcile.ProcessEventDigests | pkg/controller/controller.go:270-272 | with a hex digest function, every stored digest stays empty or hex after an event |
| Reconcile.RunDigests | pkg/controller/controller.go:270-272 | every stored digest stays empty or hex over any run |
| Reconcile.MessageToDigestNeverSuppresses | pkg/controller/controller.go:265 | comparing the raw message with the stored digest never suppresses: every event that renders a message sends it |
| Reconcile.RepeatedEventResentAsWritten | pkg/controller/controller.go:265-272 | as written, the same event handled twice a second apart sends the same message twice |
| Reconcile.RepeatedEventSuppressedByDigest | pkg/controller/controller.go:265-272 | comparing digests, an event that repeats a sent message within 5 seconds changes nothing |
| Reconcile.RepeatAfterWindowResent | pkg/controller/controller.go:265 | once 5 seconds have passed the repeat is sent again, whichever comparison is used |
| Controller.Target.constructor | pkg/controller/controller.go:190-192 | a new Target holds the snapshot, send time 0 and an empty digest |
| Controller.Controller.constructor | pkg/controller/controller.go:65 | a controller starts with no Targets and nothing sent |
| Controller.Controller.GenerateMessageAndSend | pkg/controller/controller.go:197-273 | renders the Target's snapshot; if duplicate checking is on, the comparison matches and less than 5 seconds have passed, nothing changes; otherwise the message is sent and the Target is stamped with the time and digest, whatever the send returned |
| Controller.Controller.Refresh | pkg/controller/controller.go:184 | replacing a tracked Target's snapshot in place changes only that Target's snapshot |
| Controller.Controller.Track | pkg/controller/controller.go:190-192 | a fresh Target is stored under the new key and nothing else changes |
| Controller.Controller.ProcessResource | pkg/controller/controller.go:181-195 | the new store and log are `Reconcile.ProcessResource` of the old ones; distinct keys still point to distinct Target objects |
| Controller.Controller.ProcessEvent | pkg/controller/controller.go:164-177 | derives the key, processes a workload and ignores anything else, matching `Reconcile.ProcessEvent` |
| Controller.Controller.ProcessEvents | pkg/controller/controller.go:157-179 | handling the events in order leaves the controller in the state `Reconcile.Run` gives |
| Handlers.InitError | pkg/handlers/slack.go:20-23 | validation fails, with "Missing token or channel", exactly when the token or the channel is empty |
| Handlers.HandlerError | pkg/handlers/handler.go:17-26 | selection fails with "Unknown handler" exactly when both fields are empty, with "Missing token or channel" exactly when one of them is, and succeeds exactly when both are set |
| Handlers.Slack.constructor | pkg/handlers/handler.go:19 | a new Slack notifier has empty token and channel |
| Handlers.Slack.Init | pkg/handlers/slack.go:16-24 | token and channel are copied from the configuration, even when validation then fails; the result is `InitError` of the configuration |
| Handlers.GetHandler | pkg/handlers/handler.go:15-27 | the error is `HandlerError` of the configuration; on error there is no handler; on success a new Slack notifier carries the configured token and channel |

## Left out

- Informers, the work queue and the goroutines (pkg/controller/controller.go:70-155) are client-go wiring and concurrency. The consumer loop takes a given sequence of events. `Run` starts informers only for Deployments and StatefulSets (pkg/controller/controller.go:74-77), so the `daemonset` case of `newInformer` (lines 118-131) never runs. `Unsupported` stands for any other object the queue may hold, such as a deletion tombstone.
- Pod listing (pkg/controller/controller.go:238) is an external API call. Its answer is an input of each step. The link between the pods returned and the workload's namespace and label selector is not modelled. Neither is `labels.Set(...).String()`; the snapshot's `matchLabels` are carried but unused.
- SHA-256 is an uninterpreted `hash` parameter. Properties that need its output shape require it to yield 64 lower-case hex digits.
- `time.Now()` becomes the step's `now`. The source reads the clock twice (lines 265 and 269); the model takes one reading per event. `now - lastTimeMessageSent` is unbounded, so int64 overflow is not modelled.
- Logging through logrus is a side effect only and is left out.
- `Slack.Notify` (pkg/handlers/slack.go:27-43) is a network call. It is modelled as appending to the `sent` log, which cannot fail. Its error is discarded by the controller anyway.
- Config loading (pkg/config) and `main.go` are process setup. `Config` is a plain record.
- The nil dereference of `*Spec.Replicas` and a missing selector are not modelled. A snapshot always carries a desired count.
- The unreachable "Unsupported target obj" branch (pkg/controller/controller.go:218-220) is excluded by typing. A Target holds a `Snapshot`, which is always a Deployment or a StatefulSet.
- client-go's `MetaNamespaceKeyFunc` is not among the modelled sources; `Resources.MetaNamespaceKey` states its documented behaviour. Its pass-through for `cache.ExplicitKey` values is not modelled, because the informers never queue one.

## Findings

| source | as written | input that shows it | evidently intended | confidence | as-written member | corrected member |
|---|---|---|---|---|---|---|
| pkg/controller/controller.go:265 | compares the raw message with `lastMessageHash`. After a send that field holds the message's hex digest, so it always holds either an empty string or a digest | a tracked Deployment is updated without change twice within 5 seconds. The message starts with `*` and so never equals a hex digest, and the identical message is sent twice | compare the message's digest with `lastMessageHash`, so that repeats within 5 seconds are suppressed | not executed | Reconcile.RepeatedEventResentAsWritten | Reconcile.RepeatedEventSuppressedByDigest |

The controller takes the comparison as a `Policy` value. `MessageToDigest` is the code as written and `DigestToDigest` the corrected rule. `MessageToDigestNeverSuppresses` and `RepeatedEventResentAsWritten` hold for `MessageToDigest` only, and `RepeatedEventSuppressedByDigest` for `DigestToDigest` only; every other lemma holds for both.
