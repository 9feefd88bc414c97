# op-hello-world: reconciler and log bridge, modelled in Dafny

This project models two parts of the `op-hello-world` Kubernetes operator and proves properties of them.

- **The HelloWorld reconciler** (`Controller`, `controller.dfy`). `podForHelloWorld` builds a busybox pod from a HelloWorld resource. `Reconcile` makes one pass for a resource key:
  1. read the HelloWorld;
  2. build its pod and set the HelloWorld as the pod's controller;
  3. read the pod named `<name>-pod`;
  4. create the pod if the read said not-found.

  Each path ends with a `Result{Requeue}`, an optional error, and normally one outcome label (`resource_deleted`, `error`, `pod_created`, `no_change`). The API server is a `Store` class holding two maps keyed by namespace and name. Whether a call fails is not decided by the model: each pass is given a `Faults` script with one optional error per call. Without a fault, a read fails with not-found exactly when the key is absent, and a create fails with already-exists exactly when the key is taken. `ReconcileSpec` is the pass as a function of the cluster value. The imperative `Reconciler.Reconcile` is proved equal to it. The lemmas are stated on `ReconcileSpec`.
- **The zap-to-OpenTelemetry bridge** (`Bridge`, `bridge.dfy`). `OTelCore` is a zap core:
  - it filters by level (`Enabled`, `Check`);
  - it gathers context fields (`With`);
  - `Write` turns an entry plus its fields into one log record and hands it to its logger.

  Severities are the SeverityNumber values of the OpenTelemetry Logs Data Model (DEBUG 5, INFO 9, WARN 13, ERROR 17, FATAL 21). Zap levels are the signed bytes −1 (debug) to 5 (fatal). The core is a datatype because the Go struct is never changed after construction. The log record is a class, because `Write` and `addFieldToRecord` fill it in through a pointer. The logger is a class whose `Emit` appends to the sequence of records it received.

`wrappers.dfy` holds the `Option` type both modules use.

The operator writes no status, keeps no conditions and provisions no secret, so the model has none of them.

## Model

| member | source | states |
|---|---|---|
| Controller.DeletedResourceIsIgnored | op-hello-world/internal/controller/helloworld_controller.go:88-96 | a pass is labelled `resource_deleted` exactly when reading the HelloWorld fails with not-found; it then returns an empty result and no error, and writes nothing |
| Controller.ResourceFetchErrorPropagates | op-hello-world/internal/controller/helloworld_controller.go:98-103 | any other read error is returned unchanged, with no requeue and the label `error`, and nothing is written |
| Controller.OwnerReferenceFailureStops | op-hello-world/internal/controller/helloworld_controller.go:112-120 | a failed owner reference is returned with no requeue and nothing written; the pass does not depend on what the pod read or the create would do; it is the only path that records no label |
| Controller.MissingPodIsCreated | op-hello-world/internal/controller/helloworld_controller.go:122-153 | when the pod is reported absent, the pass issues one create of the controlled pod; on success the cluster gains exactly that pod and the result is `Requeue=true`, no error, label `pod_created` |
| Controller.CreateFailureLeavesClusterUnchanged | op-hello-world/internal/controller/helloworld_controller.go:125-146 | whenever the pod read says not-found and the create then fails (an injected fault, or the key already taken), the create's error is returned unchanged, with no requeue and the label `error`, and the cluster is unchanged |
| Controller.PodFetchErrorPropagates | op-hello-world/internal/controller/helloworld_controller.go:154-161 | a pod read error other than not-found is returned unchanged, with no requeue and the label `error`, and nothing is created |
| Controller.ExistingPodIsNoChange | op-hello-world/internal/controller/helloworld_controller.go:163-176 | an existing pod is left alone: empty result, no error, label `no_change`, cluster unchanged |
| Controller.ReconcileFootprint | op-hello-world/internal/controller/helloworld_controller.go:88-176 | a pass writes nothing, or adds only the resource's controlled pod under a key that was free; it requeues exactly when it created; it errs exactly on the `error` or unlabelled paths; it never touches the HelloWorld objects |
| Controller.ReconcileKeepsWellKeyed | op-hello-world/internal/controller/helloworld_controller.go:122-135 | a pass keeps every object stored under its own namespace and name |
| Controller.ReconcileIdempotent | op-hello-world/internal/controller/helloworld_controller.go:122-176 | after a pass labelled `pod_created` or `no_change`, a further pass under any faults writes nothing |
| Controller.SecondPassIsNoChange | op-hello-world/internal/controller/helloworld_controller.go:147-176 | after a pass that created the pod, a fault-free pass returns an empty result and no error, records `no_change` and writes nothing |
| Controller.AtMostOnePodPerResource | op-hello-world/internal/controller/helloworld_controller.go:122-176 | any sequence of passes for one key, under any faults, creates the pod at most once, and not at all if it already exists; it leaves the cluster as it was or with that one pod added |
| Controller.Reconciler.Reconcile | op-hello-world/internal/controller/helloworld_controller.go:63-177 | the imperative pass returns the result and error of `ReconcileSpec`; it leaves the store in the state `ReconcileSpec` computes; it appends that pass's label, if any, to the recorded outcomes |
| Controller.Store.Create | op-hello-world/internal/controller/helloworld_controller.go:135 | a create adds the pod under its own key, unless it fails (injected fault, or key taken), in which case nothing changes |
| Controller.Get | op-hello-world/internal/controller/helloworld_controller.go:90 | a read returns the stored object, fails with not-found exactly when the key is absent, or fails with the injected error |
| Controller.CreatePod | op-hello-world/internal/controller/helloworld_controller.go:135 | a create succeeds exactly when there is no fault and the key is free, and then adds exactly that pod; a failed create leaves the cluster as it was |
| Controller.SetControllerReference | op-hello-world/internal/controller/helloworld_controller.go:116 | it fails exactly as scripted; on success the pod gains the owner's controller reference and keeps its key |
| Controller.ReconcileSpec | op-hello-world/internal/controller/helloworld_controller.go:88-176 | the pass as a function of the cluster, the key and the fault script: it never writes a HelloWorld, it requeues exactly when it created the pod, and it records no label only when it returns an error; the per-path lemmas above give each branch |
| Controller.PodForHelloWorld | op-hello-world/internal/controller/helloworld_controller.go:192-223 | the builder itself; what it promises is stated by `PodForHelloWorldShape`, `OwnerNameOfPod`, `EchoArgRoundTrip` and `PodKeyInjective` |
| Controller.Store.GetHelloWorld | op-hello-world/internal/controller/helloworld_controller.go:90 | the HelloWorld read returns what `Get` gives on the store's map: the stored object, which is stored under the requested key, or the injected or not-found error |
| Controller.Store.GetPod | op-hello-world/internal/controller/helloworld_controller.go:124 | the pod read returns what `Get` gives on the store's map: the stored pod, which is stored under the requested key, or the injected or not-found error |
| Controller.PodForHelloWorldShape | op-hello-world/internal/controller/helloworld_controller.go:192-223 | the built pod: named `<name>-pod` in the resource's namespace; labels exactly `app=helloworld`, `helloworld=<name>`; no owner references yet; one `busybox` container running `busybox:latest` with command `sh -c`, argument `echo '<message>' && sleep 3600`, requests cpu `50m` and memory `64Mi`, and limits cpu `100m` and memory `128Mi`; restart policy Always |
| Controller.OwnerNameOfPod | op-hello-world/internal/controller/helloworld_controller.go:195 | stripping `-pod` from the built pod's name gives back the resource's name |
| Controller.EchoArgRoundTrip | op-hello-world/internal/controller/helloworld_controller.go:207 | the container argument can be read back to exactly the resource's message |
| Controller.PodKeyInjective | op-hello-world/internal/controller/helloworld_controller.go:194-196 | two resources get the same pod key exactly when they have the same namespace and name: one pod per resource |
| Bridge.ToSeverity | op-hello-world/internal/logging/bridge.go:107-126 | every level, defined or not, maps to the lowest number of one of the OpenTelemetry ranges DEBUG to FATAL (5, 9, 13, 17 or 21); `SeverityTable` gives the level-by-level table |
| Bridge.SeverityTable | op-hello-world/internal/logging/bridge.go:106-126 | level by level: debug→5, info→9, warn→13, error and dpanic→17, panic and fatal→21; every undefined level→INFO (9); every result is the lowest number of an OpenTelemetry range from DEBUG to FATAL |
| Bridge.SeverityMonotone | op-hello-world/internal/logging/bridge.go:107-126 | on the seven defined levels a more severe level never maps to a lower severity |
| Bridge.FieldAttributes | op-hello-world/internal/logging/bridge.go:128-162 | one field adds at most one attribute, keyed by the field's key; it adds none exactly when it is a Time field without a time value, an Error field without an error, or a Reflect or Stringer field with a nil Interface |
| Bridge.FieldTranslation | op-hello-world/internal/logging/bridge.go:129-161 | Bool fields become `Bool(key, Integer == 1)`; all eight integer kinds become `Int64(key, Integer)`; String and every unlisted kind become `String(key, String)`; durations and times become their formatted text; errors become their message; non-nil Reflect and Stringer fields become `String(key, String)` |
| Bridge.FieldsAttributes | op-hello-world/internal/logging/bridge.go:70-73 | the attributes of a list of fields, in field order, at most one per field |
| Bridge.FieldsAttributesAppend | op-hello-world/internal/logging/bridge.go:70-73 | translating the core's fields and then the call-site fields gives the same attributes as translating the joined list |
| Bridge.AttributesFollowKeptFields | op-hello-world/internal/logging/bridge.go:71-73 | the field attributes are in field order, one per field that is not dropped, each keyed by that field's key |
| Bridge.NoFieldLost | op-hello-world/internal/logging/bridge.go:142-157 | a list of fields yields one attribute per field exactly when none of them is dropped |
| Bridge.ConstructedFieldsRoundTrip | op-hello-world/internal/logging/bridge.go:131-139 | Bool, Int64, String and error fields, built as zap builds them, come out holding the value they were logged with |
| Bridge.Uint64FieldWraps | op-hello-world/internal/logging/bridge.go:133-135 | an unsigned 64-bit value below 2^63 comes out unchanged; from 2^63 up it comes out as the negative int64 it wraps to |
| Bridge.EntryAttributesRoundTrip | op-hello-world/internal/logging/bridge.go:75-92 | the caller, logger-name and stack attributes can be read back to the entry's caller (when defined), logger name and stack; leaving out empty ones loses nothing |
| Bridge.NewOTelCore | op-hello-world/internal/logging/bridge.go:24-32 | a new core has the given minimum level, no fields, the background context, and a fresh logger named `zap-bridge` that has emitted nothing |
| Bridge.Enabled | op-hello-world/internal/logging/bridge.go:35-37 | the level filter itself; `EnabledFromMinLevel` states that it holds exactly from `minLevel` up |
| Bridge.EnabledFromMinLevel | op-hello-world/internal/logging/bridge.go:34-37 | a level is enabled exactly when it is at or above the minimum level, so the enabled levels are closed upwards |
| Bridge.With | op-hello-world/internal/logging/bridge.go:39-47 | the new core keeps the logger, minimum level and context; its fields are the old fields followed by the new ones |
| Bridge.WithComposes | op-hello-world/internal/logging/bridge.go:40-47 | two `With` calls equal one with the joined fields; `With` does not change which levels are enabled; the new core's field attributes are the old core's followed by those of the added fields |
| Bridge.Check | op-hello-world/internal/logging/bridge.go:49-55 | an enabled entry gets this core appended to the checked entry's cores, or a new checked entry holding the entry and this core if there was none; a disabled entry gets the checked entry back unchanged |
| Bridge.EncodeRecord | op-hello-world/internal/logging/bridge.go:58-92 | the record `Write` emits carries the entry's time and message, and at most five more attributes than there are fields; `RecordLayout` gives the full layout |
| Bridge.RecordLayout | op-hello-world/internal/logging/bridge.go:58-92 | the record carries the entry's time, the mapped severity, the level's name and the message; its attributes are the core's field attributes, then the call site's, then the entry attributes; there are at most five more attributes than fields |
| Bridge.RecordReadsBack | op-hello-world/internal/logging/bridge.go:75-92 | what follows the field attributes in the record reads back to the entry's caller, logger name and stack |
| Bridge.LogRecord.SetTimestamp | op-hello-world/internal/logging/bridge.go:64 | sets the record's timestamp and changes nothing else in it |
| Bridge.LogRecord.SetSeverity | op-hello-world/internal/logging/bridge.go:65 | sets the record's severity and changes nothing else in it |
| Bridge.LogRecord.SetSeverityText | op-hello-world/internal/logging/bridge.go:66 | sets the record's severity text and changes nothing else in it |
| Bridge.LogRecord.SetBody | op-hello-world/internal/logging/bridge.go:67 | sets the record's body and changes nothing else in it |
| Bridge.LogRecord.AddAttributes | op-hello-world/internal/logging/bridge.go:77-91 | appends the given attributes, in order, after the record's existing ones, and changes nothing else |
| Bridge.AddFieldToRecord | op-hello-world/internal/logging/bridge.go:128-162 | the record's attributes grow by the field's translation, and nothing else in the record changes |
| Bridge.Write | op-hello-world/internal/logging/bridge.go:57-98 | exactly one record is emitted, under the core's context: the encoding of the entry with the core's and the call site's fields; the result is always nil |
| Bridge.Sync | op-hello-world/internal/logging/bridge.go:100-104 | `Sync` always returns nil |
| Bridge.Logger.Emit | op-hello-world/internal/logging/bridge.go:95 | the logger's emitted records grow by exactly the given record |

## Left out

- The metrics, tracing and logging-setup files are not part of this model. They set up OTLP exporters, read environment variables, register global providers and wrap `Emit`. None of that is logic the core depends on.
- Inside `Reconcile` these are left out: tracing spans and their attributes, log lines, the duration measurement, and the `HelloWorldResources` gauge. The error, creation and creation-error counters are left out too. `Reconciler.outcomes` stands for the `ReconcileTotal` counter: one label per pass, and none on the owner-reference path.
- `SetupWithManager` is left out: it is manager wiring.
- `Store.Valid` (every object stored under its own key) is an invariant of the store. It stands for what the API server guarantees. `Reconcile` keeps it, and the two reads use it to promise that the object they return is stored under the requested key.
- The Kubernetes client, scheme and `controllerutil` are not modelled inside. They are oracles: each call fails as the `Faults` script says.
- Controller.SetControllerReference: on success it appends the controller reference. The library upserts it and checks for a conflicting controller. The two agree on the builder's pod, which has no references; the conflict check is one of the failures the script can inject.
- Context cancellation and concurrency are not modelled; each pass runs alone. Optimistic-concurrency conflicts appear only as errors the script can inject.
- Resource quantities (`50m`, `64Mi`, `100m`, `128Mi`) are kept as strings, not parsed. The container argument is kept as text; its meaning to the shell is not modelled, including messages that contain a single quote.
- Float32 and Float64 fields are left out of `FieldType`, because they involve floating point and a type assertion that can panic.
- `time.Duration.String` and RFC 3339 formatting are not modelled. They are functions passed in through `Formatters`.
- The OpenTelemetry SDK behind `Emit` (batching, exporting, the logger provider) is left out. `Logger` only keeps the records it was given.
- A Go detail of `append(c.fields, …)` in `With` and `Write` is not modelled: two cores made from one parent can share the parent's spare slice capacity. The model treats field lists as values.
- Level names come from zap's `Level.String`: the seven names, or `Level(n)` otherwise. Only the record's severity text uses them.
- The field constructors (`BoolField`, `Uint64Field`, …) follow zap's own code, not the bridge's. For example, zap's `Uint64` stores its value through an int64 conversion. They are included only to show what the bridge emits for fields built that way.
