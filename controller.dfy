/**
 * The HelloWorld reconciler: the pod builder and the decision procedure that
 * `Reconcile` runs over the outcomes of its four calls to the cluster.
 *
 * The API server is modelled as a `Store` holding two maps keyed by
 * namespace and name. Failures of the calls the reconciler makes (the two
 * reads, setting the controller reference, the create) are not decided by
 * the model: they are read from a `Faults` script given with each pass.
 */
module Controller {
  import opened Wrappers

  // ---------------------------------------------------------------------------
  // Objects and errors
  // ---------------------------------------------------------------------------

  /** The key of every namespaced object (`types.NamespacedName`). */
  datatype NamespacedName = NamespacedName(namespace: string, name: string)

  /** The status reason an API error carries; only `NotFound` is inspected. */
  datatype Reason = NotFound | AlreadyExists | Conflict | Unknown

  datatype Error = Error(reason: Reason, message: string)

  /** `errors.IsNotFound`. */
  predicate IsNotFound(e: Error) {
    e.reason == NotFound
  }

  /** The HelloWorld custom resource: its metadata and `spec.message`. */
  datatype HelloWorld = HelloWorld(namespace: string, name: string, uid: string, message: string)

  datatype OwnerReference = OwnerReference(
    apiVersion: string, kind: string, name: string, uid: string,
    controller: bool, blockOwnerDeletion: bool)

  datatype RestartPolicy = RestartAlways | RestartOnFailure | RestartNever

  /** Resource quantities are kept as the strings given to `resource.MustParse`. */
  datatype Container = Container(
    name: string, image: string, command: seq<string>, args: seq<string>,
    requests: map<string, string>, limits: map<string, string>)

  datatype Pod = Pod(
    namespace: string, name: string, labels: map<string, string>,
    ownerReferences: seq<OwnerReference>,
    containers: seq<Container>, restartPolicy: RestartPolicy)

  function KeyOf(hw: HelloWorld): NamespacedName {
    NamespacedName(hw.namespace, hw.name)
  }

  function PodKeyOf(pod: Pod): NamespacedName {
    NamespacedName(pod.namespace, pod.name)
  }

  /** `ctrl.Result`; the reconciler only ever sets `Requeue`. */
  datatype Result = Result(requeue: bool)

  const EmptyResult := Result(false)

  /** The outcome label the reconciler adds to its pass counter. */
  datatype Outcome = ResourceDeleted | ErrorOutcome | PodCreated | NoChange

  function OutcomeLabel(o: Outcome): string {
    match o
    case ResourceDeleted => "resource_deleted"
    case ErrorOutcome => "error"
    case PodCreated => "pod_created"
    case NoChange => "no_change"
  }

  /**
   * The failure script of one pass: `Some(e)` makes that call fail with `e`.
   * The two reads also fail with a not-found error, without a fault, when the
   * key is absent; the create also fails when the key is already taken.
   */
  datatype Faults = Faults(
    getHelloWorld: Option<Error>, setControllerReference: Option<Error>,
    getPod: Option<Error>, createPod: Option<Error>)

  const NoFaults := Faults(None, None, None, None)

  // ---------------------------------------------------------------------------
  // The cluster as a value, and the store calls on it
  // ---------------------------------------------------------------------------

  datatype Cluster = Cluster(helloWorlds: map<NamespacedName, HelloWorld>, pods: map<NamespacedName, Pod>)

  /** Every object is stored under its own namespace and name. */
  predicate WellKeyed(c: Cluster) {
    (forall k :: k in c.helloWorlds ==> KeyOf(c.helloWorlds[k]) == k) &&
    (forall k :: k in c.pods ==> PodKeyOf(c.pods[k]) == k)
  }

  datatype Fetched<T> = Fetched(obj: T) | FetchFailed(err: Error)

  function NotFoundError(key: NamespacedName): Error {
    Error(NotFound, key.name + " not found")
  }

  /** `client.Get`: an injected fault wins; otherwise not-found exactly when the key is absent. */
  function Get<T>(m: map<NamespacedName, T>, key: NamespacedName, fault: Option<Error>): (r: Fetched<T>)
    ensures fault.Some? ==> r == FetchFailed(fault.value)
    ensures fault.None? ==> (r.Fetched? <==> key in m)
    ensures r.Fetched? ==> key in m && r.obj == m[key]
    ensures fault.None? && r.FetchFailed? ==> IsNotFound(r.err)
  {
    if fault.Some? then FetchFailed(fault.value)
    else if key in m then Fetched(m[key])
    else FetchFailed(NotFoundError(key))
  }

  /** `client.Create` of a pod: an injected fault wins; an existing key is `AlreadyExists`. */
  function CreatePod(c: Cluster, pod: Pod, fault: Option<Error>): (r: (Cluster, Option<Error>))
    ensures r.1.Some? ==> r.0 == c
    ensures r.1.None? <==> fault.None? && PodKeyOf(pod) !in c.pods
    ensures r.1.None? ==> r.0 == c.(pods := c.pods[PodKeyOf(pod) := pod])
  {
    if fault.Some? then (c, fault)
    else if PodKeyOf(pod) in c.pods then (c, Some(Error(AlreadyExists, pod.name + " already exists")))
    else (c.(pods := c.pods[PodKeyOf(pod) := pod]), None)
  }

  // ---------------------------------------------------------------------------
  // The pod builder
  // ---------------------------------------------------------------------------

  const PodSuffix := "-pod"
  const EchoPrefix := "echo '"
  const EchoSuffix := "' && sleep 3600"

  /** The shell script the busybox container runs: print the message, then idle. */
  function EchoArg(message: string): string {
    EchoPrefix + message + EchoSuffix
  }

  /** `podForHelloWorld`: a busybox pod named after the resource, in its namespace. */
  function PodForHelloWorld(hw: HelloWorld): Pod {
    Pod(
      namespace := hw.namespace,
      name := hw.name + PodSuffix,
      labels := map["app" := "helloworld", "helloworld" := hw.name],
      ownerReferences := [],
      containers := [Container(
        name := "busybox",
        image := "busybox:latest",
        command := ["sh", "-c"],
        args := [EchoArg(hw.message)],
        requests := map["cpu" := "50m", "memory" := "64Mi"],
        limits := map["cpu" := "100m", "memory" := "128Mi"])],
      restartPolicy := RestartAlways)
  }

  function TrimPrefix(s: string, prefix: string): (r: Option<string>)
    ensures r.Some? ==> prefix + r.value == s
  {
    if |prefix| <= |s| && s[..|prefix|] == prefix then Some(s[|prefix|..]) else None
  }

  function TrimSuffix(s: string, suffix: string): (r: Option<string>)
    ensures r.Some? ==> r.value + suffix == s
  {
    if |suffix| <= |s| && s[|s| - |suffix|..] == suffix then Some(s[..|s| - |suffix|]) else None
  }

  /** The resource name a pod name was derived from, if it has the builder's suffix. */
  function OwnerNameOf(podName: string): Option<string> {
    TrimSuffix(podName, PodSuffix)
  }

  /** The message an `echo '…' && sleep 3600` argument prints. */
  function MessageOf(arg: string): Option<string> {
    match TrimPrefix(arg, EchoPrefix)
    case None => None
    case Some(rest) => TrimSuffix(rest, EchoSuffix)
  }

  lemma TrimPrefixOf(p: string, s: string)
    ensures TrimPrefix(p + s, p) == Some(s)
  {
    assert (p + s)[..|p|] == p;
    assert (p + s)[|p|..] == s;
  }

  lemma TrimSuffixOf(s: string, q: string)
    ensures TrimSuffix(s + q, q) == Some(s)
  {
    assert (s + q)[|s|..] == q;
    assert (s + q)[..|s|] == s;
  }

  /** The built pod's name leads back to the resource's name. */
  lemma {:induction false} OwnerNameOfPod(hw: HelloWorld)
    ensures OwnerNameOf(PodForHelloWorld(hw).name) == Some(hw.name)
  {
    TrimSuffixOf(hw.name, PodSuffix);
  }

  /** The container argument prints exactly the resource's message. */
  lemma {:induction false} EchoArgRoundTrip(message: string)
    ensures MessageOf(EchoArg(message)) == Some(message)
  {
    assert EchoArg(message) == EchoPrefix + (message + EchoSuffix);
    TrimPrefixOf(EchoPrefix, message + EchoSuffix);
    TrimSuffixOf(message, EchoSuffix);
  }

  /** Everything `podForHelloWorld` promises about the pod it builds. */
  lemma PodForHelloWorldShape(hw: HelloWorld)
    ensures var pod := PodForHelloWorld(hw);
      && pod.name == hw.name + "-pod"
      && OwnerNameOf(pod.name) == Some(hw.name)
      && pod.namespace == hw.namespace
      && pod.labels.Keys == {"app", "helloworld"}
      && pod.labels["app"] == "helloworld" && pod.labels["helloworld"] == hw.name
      && pod.ownerReferences == []
      && |pod.containers| == 1
      && pod.containers[0].name == "busybox"
      && pod.containers[0].image == "busybox:latest"
      && pod.containers[0].command == ["sh", "-c"]
      && pod.containers[0].args == ["echo '" + hw.message + "' && sleep 3600"]
      && pod.containers[0].requests == map["cpu" := "50m", "memory" := "64Mi"]
      && pod.containers[0].limits == map["cpu" := "100m", "memory" := "128Mi"]
      && MessageOf(pod.containers[0].args[0]) == Some(hw.message)
      && pod.restartPolicy == RestartAlways
  {
    OwnerNameOfPod(hw);
    EchoArgRoundTrip(hw.message);
  }

  /** Two resources get the same pod key exactly when they have the same key: one pod per resource. */
  lemma {:induction false} PodKeyInjective(a: HelloWorld, b: HelloWorld)
    ensures PodKeyOf(PodForHelloWorld(a)) == PodKeyOf(PodForHelloWorld(b)) <==> KeyOf(a) == KeyOf(b)
  {
    if PodKeyOf(PodForHelloWorld(a)) == PodKeyOf(PodForHelloWorld(b)) {
      OwnerNameOfPod(a);
      OwnerNameOfPod(b);
    }
  }

  // ---------------------------------------------------------------------------
  // Owner reference
  // ---------------------------------------------------------------------------

  /** The controller reference `SetControllerReference` records for a HelloWorld owner. */
  function ControllerRef(owner: HelloWorld): OwnerReference {
    OwnerReference("apps.example.com/v1", "HelloWorld", owner.name, owner.uid, true, true)
  }

  /**
   * `controllerutil.SetControllerReference`: whether it fails is the script's
   * to say; on success the pod gains the owner's controller reference.
   */
  function SetControllerReference(owner: HelloWorld, pod: Pod, fault: Option<Error>): (r: (Pod, Option<Error>))
    ensures r.1 == fault
    ensures PodKeyOf(r.0) == PodKeyOf(pod)
    ensures fault.None? ==> r.0 == pod.(ownerReferences := pod.ownerReferences + [ControllerRef(owner)])
  {
    if fault.Some? then (pod, fault)
    else (pod.(ownerReferences := pod.ownerReferences + [ControllerRef(owner)]), None)
  }

  /** The pod `Reconcile` creates for `hw`: the built pod with its controller reference. */
  function ControlledPod(hw: HelloWorld): Pod {
    SetControllerReference(hw, PodForHelloWorld(hw), None).0
  }

  // ---------------------------------------------------------------------------
  // One reconcile pass over a cluster value
  // ---------------------------------------------------------------------------

  /** What one pass returns (`result`, `err`), records (`outcome`) and leaves behind (`after`). */
  datatype Step = Step(result: Result, err: Option<Error>, outcome: Option<Outcome>, after: Cluster)

  /**
   * The decision table of `Reconcile`. A pass never writes a HelloWorld,
   * requeues exactly when it created the pod, and records no label only when
   * it fails.
   */
  function ReconcileSpec(c: Cluster, req: NamespacedName, f: Faults): (r: Step)
    ensures r.after.helloWorlds == c.helloWorlds
    ensures r.result.requeue <==> r.outcome == Some(PodCreated)
    ensures r.outcome == None ==> r.err.Some?
  {
    match Get(c.helloWorlds, req, f.getHelloWorld)
    case FetchFailed(e) =>
      if IsNotFound(e) then Step(EmptyResult, None, Some(ResourceDeleted), c)
      else Step(EmptyResult, Some(e), Some(ErrorOutcome), c)
    case Fetched(hw) =>
      var (pod, refErr) := SetControllerReference(hw, PodForHelloWorld(hw), f.setControllerReference);
      if refErr.Some? then Step(EmptyResult, refErr, None, c)
      else
        match Get(c.pods, PodKeyOf(pod), f.getPod)
        case FetchFailed(e) =>
          if IsNotFound(e) then
            var (after, createErr) := CreatePod(c, pod, f.createPod);
            if createErr.Some? then Step(EmptyResult, createErr, Some(ErrorOutcome), after)
            else Step(Result(true), None, Some(PodCreated), after)
          else Step(EmptyResult, Some(e), Some(ErrorOutcome), c)
        case Fetched(_) => Step(EmptyResult, None, Some(NoChange), c)
  }

  /** The pod of the resource stored under `req` is already in the cluster. */
  predicate PodPresent(c: Cluster, req: NamespacedName) {
    req in c.helloWorlds && PodKeyOf(PodForHelloWorld(c.helloWorlds[req])) in c.pods
  }

  /** A not-found read of the resource is a deletion: success, no requeue, nothing written. */
  lemma DeletedResourceIsIgnored(c: Cluster, req: NamespacedName, f: Faults)
    ensures var g := Get(c.helloWorlds, req, f.getHelloWorld);
      var s := ReconcileSpec(c, req, f);
      && (s.outcome == Some(ResourceDeleted) <==> g.FetchFailed? && IsNotFound(g.err))
      && (s.outcome == Some(ResourceDeleted) ==> s.result == EmptyResult && s.err == None && s.after == c)
  {
  }

  /** Any other failure to read the resource is returned as it is, without requeue or writes. */
  lemma ResourceFetchErrorPropagates(c: Cluster, req: NamespacedName, f: Faults)
    requires f.getHelloWorld.Some? && !IsNotFound(f.getHelloWorld.value)
    ensures ReconcileSpec(c, req, f) == Step(EmptyResult, f.getHelloWorld, Some(ErrorOutcome), c)
  {
  }

  /**
   * A failed owner reference is returned before the pod is read or created:
   * the pass does not depend on the last two calls' faults, records no
   * outcome, and this is the only path that records none.
   */
  lemma OwnerReferenceFailureStops(c: Cluster, req: NamespacedName, f: Faults, getPod: Option<Error>, createPod: Option<Error>)
    ensures var s := ReconcileSpec(c, req, f);
      (s.outcome == None <==> Get(c.helloWorlds, req, f.getHelloWorld).Fetched? && f.setControllerReference.Some?)
    ensures Get(c.helloWorlds, req, f.getHelloWorld).Fetched? && f.setControllerReference.Some? ==>
      ReconcileSpec(c, req, f) == Step(EmptyResult, f.setControllerReference, None, c) &&
      ReconcileSpec(c, req, f.(getPod := getPod, createPod := createPod)) == ReconcileSpec(c, req, f)
  {
  }

  /** When the pod is reported absent, exactly one create of the controlled pod is issued. */
  lemma MissingPodIsCreated(c: Cluster, req: NamespacedName, f: Faults)
    requires req in c.helloWorlds && f.getHelloWorld.None? && f.setControllerReference.None?
    requires var hw := c.helloWorlds[req];
      var g := Get(c.pods, PodKeyOf(PodForHelloWorld(hw)), f.getPod);
      g.FetchFailed? && IsNotFound(g.err)
    ensures var hw := c.helloWorlds[req];
      var (after, createErr) := CreatePod(c, ControlledPod(hw), f.createPod);
      var s := ReconcileSpec(c, req, f);
      && s.after == after
      && (createErr.None? ==> s == Step(Result(true), None, Some(PodCreated), c.(pods := c.pods[PodKeyOf(ControlledPod(hw)) := ControlledPod(hw)])))
      && (createErr.Some? ==> s == Step(EmptyResult, createErr, Some(ErrorOutcome), c))
  {
  }

  /** A failed create is returned as it is, without requeue, and the cluster is unchanged. */
  lemma CreateFailureLeavesClusterUnchanged(c: Cluster, req: NamespacedName, f: Faults)
    requires req in c.helloWorlds && f.getHelloWorld.None? && f.setControllerReference.None?
    requires var hw := c.helloWorlds[req];
      var g := Get(c.pods, PodKeyOf(ControlledPod(hw)), f.getPod);
      g.FetchFailed? && IsNotFound(g.err) && CreatePod(c, ControlledPod(hw), f.createPod).1.Some?
    ensures var hw := c.helloWorlds[req];
      ReconcileSpec(c, req, f) == Step(EmptyResult, CreatePod(c, ControlledPod(hw), f.createPod).1, Some(ErrorOutcome), c)
  {
  }

  /** Any other failure to read the pod is returned as it is, and nothing is created. */
  lemma PodFetchErrorPropagates(c: Cluster, req: NamespacedName, f: Faults)
    requires req in c.helloWorlds && f.getHelloWorld.None? && f.setControllerReference.None?
    requires f.getPod.Some? && !IsNotFound(f.getPod.value)
    ensures ReconcileSpec(c, req, f) == Step(EmptyResult, f.getPod, Some(ErrorOutcome), c)
  {
  }

  /** An existing pod is left alone: no write, no requeue, no error. */
  lemma ExistingPodIsNoChange(c: Cluster, req: NamespacedName, f: Faults)
    requires PodPresent(c, req) && f.getHelloWorld.None? && f.setControllerReference.None? && f.getPod.None?
    ensures ReconcileSpec(c, req, f) == Step(EmptyResult, None, Some(NoChange), c)
  {
  }

  /**
   * What a pass may write: nothing, or the one controlled pod of the resource
   * under a key that was free. It requeues exactly when it created the pod,
   * and it returns an error exactly on the paths labelled `error` or unlabelled.
   */
  lemma ReconcileFootprint(c: Cluster, req: NamespacedName, f: Faults)
    ensures var s := ReconcileSpec(c, req, f);
      && s.after.helloWorlds == c.helloWorlds
      && (s.outcome == Some(PodCreated) <==> s.after != c)
      && (s.result.requeue <==> s.outcome == Some(PodCreated))
      && (s.err.Some? <==> s.outcome == Some(ErrorOutcome) || s.outcome == None)
      && (s.outcome == Some(PodCreated) ==>
            req in c.helloWorlds && !PodPresent(c, req) && PodPresent(s.after, req) &&
            s.after == c.(pods := c.pods[PodKeyOf(ControlledPod(c.helloWorlds[req])) := ControlledPod(c.helloWorlds[req])]))
      && (PodPresent(c, req) ==> s.after == c)
  {
    var s := ReconcileSpec(c, req, f);
    if s.outcome == Some(PodCreated) {
      var hw := c.helloWorlds[req];
      var k := PodKeyOf(ControlledPod(hw));
      assert k !in c.pods;
      assert k in s.after.pods;
    }
  }

  /** A pass keeps every object stored under its own key. */
  lemma ReconcileKeepsWellKeyed(c: Cluster, req: NamespacedName, f: Faults)
    requires WellKeyed(c)
    ensures WellKeyed(ReconcileSpec(c, req, f).after)
  {
  }

  /**
   * Idempotence: after a pass that created the pod or found it, a second pass
   * under any faults writes nothing.
   */
  lemma {:induction false} ReconcileIdempotent(c: Cluster, req: NamespacedName, f1: Faults, f2: Faults)
    ensures var s1 := ReconcileSpec(c, req, f1);
      var s2 := ReconcileSpec(s1.after, req, f2);
      s1.outcome == Some(PodCreated) || s1.outcome == Some(NoChange) ==> s2.after == s1.after
  {
    var s1 := ReconcileSpec(c, req, f1);
    ReconcileFootprint(c, req, f1);
    if s1.outcome == Some(PodCreated) || s1.outcome == Some(NoChange) {
      assert PodPresent(s1.after, req);
      ReconcileFootprint(s1.after, req, f2);
    }
  }

  /** After a pass that created the pod, a fault-free pass is a no-op labelled `no_change`. */
  lemma {:induction false} SecondPassIsNoChange(c: Cluster, req: NamespacedName, f: Faults)
    requires ReconcileSpec(c, req, f).outcome == Some(PodCreated)
    ensures var s1 := ReconcileSpec(c, req, f);
      ReconcileSpec(s1.after, req, NoFaults) == Step(EmptyResult, None, Some(NoChange), s1.after)
  {
    var s1 := ReconcileSpec(c, req, f);
    ReconcileFootprint(c, req, f);
    ExistingPodIsNoChange(s1.after, req, NoFaults);
  }

  // ---------------------------------------------------------------------------
  // Many passes for one key
  // ---------------------------------------------------------------------------

  /** The passes run for `req`, one per entry of the fault script, each on the cluster the last one left. */
  function Passes(c: Cluster, req: NamespacedName, script: seq<Faults>): (steps: seq<Step>)
    ensures |steps| == |script|
    decreases |script|
  {
    if script == [] then []
    else
      var s := ReconcileSpec(c, req, script[0]);
      [s] + Passes(s.after, req, script[1..])
  }

  function CountCreated(steps: seq<Step>): nat {
    if steps == [] then 0
    else (if steps[0].outcome == Some(PodCreated) then 1 else 0) + CountCreated(steps[1..])
  }

  function FinalCluster(c: Cluster, steps: seq<Step>): Cluster {
    if steps == [] then c else steps[|steps| - 1].after
  }

  /**
   * However the calls fail, any number of passes for one resource create its
   * pod at most once, none if it already exists, and leave the cluster either
   * as it was or with that one pod added.
   */
  lemma {:induction false} AtMostOnePodPerResource(c: Cluster, req: NamespacedName, script: seq<Faults>)
    ensures var steps := Passes(c, req, script);
      && CountCreated(steps) <= 1
      && (PodPresent(c, req) ==> CountCreated(steps) == 0 && FinalCluster(c, steps) == c)
      && (FinalCluster(c, steps) == c ||
          (req in c.helloWorlds && !PodPresent(c, req) &&
           FinalCluster(c, steps) == c.(pods := c.pods[PodKeyOf(ControlledPod(c.helloWorlds[req])) := ControlledPod(c.helloWorlds[req])])))
    decreases |script|
  {
    if script != [] {
      var s := ReconcileSpec(c, req, script[0]);
      var rest := Passes(s.after, req, script[1..]);
      assert Passes(c, req, script) == [s] + rest;
      assert CountCreated([s] + rest) == (if s.outcome == Some(PodCreated) then 1 else 0) + CountCreated(rest) by {
        assert ([s] + rest)[1..] == rest;
      }
      assert FinalCluster(c, [s] + rest) == FinalCluster(s.after, rest);
      ReconcileFootprint(c, req, script[0]);
      AtMostOnePodPerResource(s.after, req, script[1..]);
      if s.outcome == Some(PodCreated) {
        assert s.after.helloWorlds == c.helloWorlds;
      }
    }
  }

  // ---------------------------------------------------------------------------
  // The store and the reconciler
  // ---------------------------------------------------------------------------

  /** The API server as the reconciler's client sees it. */
  class Store {
    var helloWorlds: map<NamespacedName, HelloWorld>
    var pods: map<NamespacedName, Pod>

    function State(): Cluster
      reads this
    {
      Cluster(helloWorlds, pods)
    }

    ghost predicate Valid()
      reads this
    {
      WellKeyed(State())
    }

    constructor (c: Cluster)
      requires WellKeyed(c)
      ensures Valid() && State() == c
    {
      helloWorlds := c.helloWorlds;
      pods := c.pods;
    }

    method GetHelloWorld(key: NamespacedName, fault: Option<Error>) returns (r: Fetched<HelloWorld>)
      ensures r == Get(helloWorlds, key, fault)
      ensures r.Fetched? ==> key in helloWorlds && r.obj == helloWorlds[key]
      ensures Valid() && r.Fetched? ==> KeyOf(r.obj) == key
    {
      if fault.Some? {
        r := FetchFailed(fault.value);
      } else if key in helloWorlds {
        r := Fetched(helloWorlds[key]);
      } else {
        r := FetchFailed(NotFoundError(key));
      }
    }

    method GetPod(key: NamespacedName, fault: Option<Error>) returns (r: Fetched<Pod>)
      ensures r == Get(pods, key, fault)
      ensures r.Fetched? ==> key in pods && r.obj == pods[key]
      ensures Valid() && r.Fetched? ==> PodKeyOf(r.obj) == key
    {
      if fault.Some? {
        r := FetchFailed(fault.value);
      } else if key in pods {
        r := Fetched(pods[key]);
      } else {
        r := FetchFailed(NotFoundError(key));
      }
    }

    method Create(pod: Pod, fault: Option<Error>) returns (err: Option<Error>)
      requires Valid()
      modifies this
      ensures Valid()
      ensures (State(), err) == CreatePod(old(State()), pod, fault)
      ensures helloWorlds == old(helloWorlds)
      ensures err.None? ==> pods == old(pods)[PodKeyOf(pod) := pod]
      ensures err.Some? ==> pods == old(pods)
    {
      if fault.Some? {
        err := fault;
      } else if PodKeyOf(pod) in pods {
        err := Some(Error(AlreadyExists, pod.name + " already exists"));
      } else {
        pods := pods[PodKeyOf(pod) := pod];
        err := None;
      }
    }
  }

  /** `HelloWorldReconciler`: a client, and the outcome labels its passes have recorded. */
  class Reconciler {
    const client: Store
    var outcomes: seq<Outcome>

    constructor (client: Store)
      ensures this.client == client && outcomes == []
    {
      this.client := client;
      outcomes := [];
    }

    /** One pass for `req`; it writes at most the one pod and records at most one label. */
    method Reconcile(req: NamespacedName, faults: Faults) returns (result: Result, err: Option<Error>)
      requires client.Valid()
      modifies this, client
      ensures client.Valid()
      ensures var s := ReconcileSpec(old(client.State()), req, faults);
        && result == s.result && err == s.err
        && client.State() == s.after
        && outcomes == old(outcomes) + OptionToSeq(s.outcome)
    {
      var fetched := client.GetHelloWorld(req, faults.getHelloWorld);
      if fetched.FetchFailed? {
        if IsNotFound(fetched.err) {
          outcomes := outcomes + [ResourceDeleted];
          return EmptyResult, None;
        }
        outcomes := outcomes + [ErrorOutcome];
        return EmptyResult, Some(fetched.err);
      }
      var helloworld := fetched.obj;

      var pod := PodForHelloWorld(helloworld);
      var linked := SetControllerReference(helloworld, pod, faults.setControllerReference);
      if linked.1.Some? {
        return EmptyResult, linked.1;
      }
      pod := linked.0;

      var found := client.GetPod(PodKeyOf(pod), faults.getPod);
      if found.FetchFailed? && IsNotFound(found.err) {
        var createErr := client.Create(pod, faults.createPod);
        if createErr.Some? {
          outcomes := outcomes + [ErrorOutcome];
          return EmptyResult, createErr;
        }
        outcomes := outcomes + [PodCreated];
        return Result(true), None;
      } else if found.FetchFailed? {
        outcomes := outcomes + [ErrorOutcome];
        return EmptyResult, Some(found.err);
      }

      outcomes := outcomes + [NoChange];
      return EmptyResult, None;
    }
  }

  /** Two passes on a fresh resource: the pod is created with requeue, then left alone. */
  method CreateThenNoChange(hw: HelloWorld)
  {
    var store := new Store(Cluster(map[KeyOf(hw) := hw], map[]));
    var r := new Reconciler(store);
    var res, err := r.Reconcile(KeyOf(hw), NoFaults);
    assert res == Result(true) && err == None;
    assert store.pods == map[PodKeyOf(ControlledPod(hw)) := ControlledPod(hw)];
    res, err := r.Reconcile(KeyOf(hw), NoFaults);
    assert res == EmptyResult && err == None;
    assert r.outcomes == [PodCreated, NoChange];
  }
}
