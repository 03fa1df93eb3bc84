/** The manager Deployment, reconciled against a cluster that may store something else than
    what was sent. */
module ManagerDeployment {
  import opened Common
  import opened ConfigSecret

  const RUNNER_CONTAINER := "runner"

  /** `settings` stands for pull policy, resources, security context and environment. */
  datatype Container = Container(name: string, image: string, settings: string)

  /** `placement` stands for node selector, tolerations, affinity, priority and grace period. */
  datatype Template = Template(systemId: string, placement: string, containers: seq<Container>)

  /** Missing annotations read as "". */
  datatype Deployment = Deployment(configVersion: string, template: Template)

  /** The slice of the pod the operator compares. */
  datatype PodShape = PodShape(placement: string, image: string, settings: string)

  function RunnerContainer(containers: seq<Container>): Option<Container> {
    if containers == [] then None
    else if containers[0].name == RUNNER_CONTAINER then Some(containers[0])
    else RunnerContainer(containers[1..])
  }

  function ShapeOf(tpl: Template): PodShape {
    match RunnerContainer(tpl.containers)
    case Some(c) => PodShape(tpl.placement, c.image, c.settings)
    case None => PodShape(tpl.placement, "", "")
  }

  /** The runner container is found by name: whatever is injected around it, the shape is
      that of the first container called "runner". */
  lemma {:induction false} InjectedContainersAreIgnored(tpl: Template, before: seq<Container>, after: seq<Container>)
    requires forall c | c in before :: c.name != RUNNER_CONTAINER
    requires RunnerContainer(tpl.containers).Some?
    ensures ShapeOf(tpl.(containers := before + tpl.containers + after)) == ShapeOf(tpl)
    decreases |before|, |tpl.containers|
  {
    var all := before + tpl.containers + after;
    if before != [] {
      InjectedContainersAreIgnored(tpl, before[1..], after);
      assert before[0] in before;
      assert all[1..] == before[1..] + tpl.containers + after;
    } else if tpl.containers[0].name != RUNNER_CONTAINER {
      InjectedContainersAreIgnored(tpl.(containers := tpl.containers[1..]), [], after);
      assert all[1..] == [] + tpl.containers[1..] + after;
    } else {
      assert all[0] == tpl.containers[0];
    }
  }

  /** The pod is placed as the shape says, and its first container called "runner" has the shape's
      image and settings. */
  ghost predicate Runs(tpl: Template, shape: PodShape) {
    tpl.placement == shape.placement && exists i :: IsFirstRunner(tpl.containers, i, shape.image, shape.settings)
  }

  predicate IsFirstRunner(containers: seq<Container>, i: int, image: string, settings: string) {
    && 0 <= i < |containers| && containers[i] == Container(RUNNER_CONTAINER, image, settings)
    && forall j | 0 <= j < i :: containers[j].name != RUNNER_CONTAINER
  }

  lemma {:induction false} RunnerIsFirst(containers: seq<Container>, image: string, settings: string)
    ensures RunnerContainer(containers) == Some(Container(RUNNER_CONTAINER, image, settings)) <==>
            exists i :: IsFirstRunner(containers, i, image, settings)
    ensures RunnerContainer(containers).None? <==> forall c | c in containers :: c.name != RUNNER_CONTAINER
    ensures RunnerContainer(containers).Some? ==> RunnerContainer(containers).value.name == RUNNER_CONTAINER
    decreases |containers|
  {
    if containers != [] {
      var rest := containers[1..];
      RunnerIsFirst(rest, image, settings);
      if containers[0].name == RUNNER_CONTAINER {
        assert IsFirstRunner(containers, 0, image, settings) <==> containers[0] == Container(RUNNER_CONTAINER, image, settings);
      } else {
        if i :| IsFirstRunner(rest, i, image, settings) {
          assert IsFirstRunner(containers, i + 1, image, settings);
        }
        if i :| IsFirstRunner(containers, i, image, settings) {
          assert containers[i] == rest[i - 1];
          assert IsFirstRunner(rest, i - 1, image, settings);
        }
        assert containers == [containers[0]] + rest;
      }
    }
  }

  /** The shape compared tells what the pod runs. Only a shape without image and settings also
      fits a pod that has no runner container at all. */
  lemma ShapeIsWhatRuns(tpl: Template, shape: PodShape)
    ensures ShapeOf(tpl) == shape <==>
            Runs(tpl, shape)
            || (tpl.placement == shape.placement && shape.image == "" && shape.settings == ""
                && forall c | c in tpl.containers :: c.name != RUNNER_CONTAINER)
  {
    RunnerIsFirst(tpl.containers, shape.image, shape.settings);
  }

  method ManagerPodShape(tpl: Template) returns (shape: PodShape)
    ensures shape == ShapeOf(tpl)
  {
    shape := PodShape(tpl.placement, "", "");
    for i := 0 to |tpl.containers|
      invariant shape == PodShape(tpl.placement, "", "")
      invariant RunnerContainer(tpl.containers) == RunnerContainer(tpl.containers[i..])
    {
      var c := tpl.containers[i];
      if c.name == RUNNER_CONTAINER {
        shape := PodShape(tpl.placement, c.image, c.settings);
        break;
      }
    }
  }

  /** What a cluster makes of a Deployment that is written to it. */
  type Admission = Deployment -> Deployment

  predicate AnnotationsKept(sent: Deployment, stored: Deployment) {
    stored.configVersion == sent.configVersion && stored.template.systemId == sent.template.systemId
  }

  predicate UpToDate(existing: Deployment, wanted: Deployment) {
    AnnotationsKept(wanted, existing) && ShapeOf(existing.template) == ShapeOf(wanted.template)
  }

  /** One fault-free call of Deployment: what is stored afterwards, and the outcome. */
  function Sync(existing: Option<Deployment>, wanted: Deployment, admit: Admission): (r: (Deployment, Outcome)) {
    if existing.None? then (admit(wanted), RequeueNow)
    else if UpToDate(existing.value, wanted) then (existing.value, Settled)
    else (admit(wanted), if ShapeOf(admit(wanted).template) != ShapeOf(wanted.template) then Settled else RequeueNow)
  }

  /** The same after `n` further calls. */
  function SyncAgain(first: (Deployment, Outcome), wanted: Deployment, admit: Admission, n: nat): (Deployment, Outcome) {
    if n == 0 then first else Sync(Some(SyncAgain(first, wanted, admit, n - 1).0), wanted, admit)
  }

  /** From any state, the second call and every later one reports settled and leaves what the
      first call stored, however the cluster rewrote the pod, as long as it keeps the two
      annotations. */
  lemma {:induction false} SettlesByTheSecondCall(existing: Option<Deployment>, wanted: Deployment, admit: Admission, n: nat)
    requires AnnotationsKept(wanted, admit(wanted))
    requires n >= 1
    ensures SyncAgain(Sync(existing, wanted, admit), wanted, admit, n) == (Sync(existing, wanted, admit).0, Settled)
    decreases n
  {
    if n > 1 {
      SettlesByTheSecondCall(existing, wanted, admit, n - 1);
    }
  }

  /** A Deployment never settles exactly when there is something to write, the cluster drops an
      annotation and stores the pod shape as sent. */
  lemma {:induction false} NeverSettlesIff(existing: Option<Deployment>, wanted: Deployment, admit: Admission, n: nat)
    requires n >= 1
    ensures SyncAgain(Sync(existing, wanted, admit), wanted, admit, n).1.RequeueNow? <==>
            && (existing.None? || !UpToDate(existing.value, wanted))
            && !AnnotationsKept(wanted, admit(wanted)) && ShapeOf(admit(wanted).template) == ShapeOf(wanted.template)
    ensures existing.None? || !UpToDate(existing.value, wanted) ==>
              SyncAgain(Sync(existing, wanted, admit), wanted, admit, n).0 == admit(wanted)
    decreases n
  {
    if n > 1 {
      NeverSettlesIff(existing, wanted, admit, n - 1);
    }
  }

  /** Settled means the stored Deployment carries the wanted config version and system id. */
  lemma SettledIsCurrent(existing: Option<Deployment>, wanted: Deployment, admit: Admission)
    requires AnnotationsKept(wanted, admit(wanted))
    requires Sync(existing, wanted, admit).1.Settled?
    ensures AnnotationsKept(wanted, Sync(existing, wanted, admit).0)
    ensures ShapeOf(Sync(existing, wanted, admit).0.template) != ShapeOf(wanted.template) ==>
              Sync(existing, wanted, admit).0 == admit(wanted)
  {
  }

  /** The cluster keeps the runner container it is sent, whatever it injects around it. */
  ghost predicate KeepsRunner(admit: Admission) {
    forall d: Deployment, shape: PodShape :: Runs(d.template, shape) ==> Runs(admit(d).template, shape)
  }

  /** A call that settles leaves a Deployment that runs what is wanted, or what the cluster made of it. */
  lemma SettledRuns(existing: Option<Deployment>, wanted: Deployment, shape: PodShape, admit: Admission)
    requires Runs(wanted.template, shape) && shape.image != "" && Sync(existing, wanted, admit).1.Settled?
    ensures var stored := Sync(existing, wanted, admit).0; Runs(stored.template, shape) || stored == admit(wanted)
  {
    ShapeIsWhatRuns(wanted.template, shape);
    ShapeIsWhatRuns(Sync(existing, wanted, admit).0.template, shape);
  }

  /** Where the cluster keeps the runner container, every call leaves the wanted image, settings and
      placement, whatever was stored before. */
  lemma {:induction false} RunnerIsRolledOut(existing: Option<Deployment>, wanted: Deployment, shape: PodShape,
                                             admit: Admission, n: nat)
    requires KeepsRunner(admit) && Runs(wanted.template, shape) && shape.image != ""
    ensures Runs(SyncAgain(Sync(existing, wanted, admit), wanted, admit, n).0.template, shape)
    decreases n
  {
    ShapeIsWhatRuns(wanted.template, shape);
    if n == 0 {
      if existing.Some? {
        ShapeIsWhatRuns(existing.value.template, shape);
      }
    } else {
      RunnerIsRolledOut(existing, wanted, shape, admit, n - 1);
    }
  }

  function WantedDeployment(configVersion: string, systemId: string, shape: PodShape): Deployment {
    Deployment(configVersion, Template(systemId, shape.placement, [Container(RUNNER_CONTAINER, shape.image, shape.settings)]))
  }

  lemma WantedRuns(configVersion: string, systemId: string, shape: PodShape)
    ensures Runs(WantedDeployment(configVersion, systemId, shape).template, shape)
  {
    assert IsFirstRunner(WantedDeployment(configVersion, systemId, shape).template.containers, 0, shape.image, shape.settings);
  }

  class DeploymentStore {
    const api: Api
    /** None while the Deployment does not exist. */
    var stored: Option<Deployment>

    constructor (api: Api, initial: Option<Deployment>)
      ensures this.api == api && stored == initial
    {
      this.api := api;
      stored := initial;
    }

    /** Creates the Deployment, or updates it on a tracked change. An update the cluster did
        not store as sent is settled on, not sent for ever. */
    method Deployment(wanted: Deployment, admit: Admission) returns (v: Outcome)
      modifies this, api
      ensures api.faults >= old(api.faults)
      ensures v.Error? <==> api.faults != old(api.faults)
      ensures v.Error? ==> stored == old(stored) || stored == Some(admit(wanted))
      ensures !v.Error? ==> stored == Some(Sync(old(stored), wanted, admit).0) && v == Sync(old(stored), wanted, admit).1
    {
      var got := api.Call();
      if !got.Done? {
        return Error;
      }
      if stored.None? {
        var put := api.Call();
        if put.Applied() {
          stored := Some(admit(wanted));
        }
        return if put.Done? then RequeueNow else Error;
      }
      var existing := stored.value;
      var existingShape := ManagerPodShape(existing.template);
      var intendedShape := ManagerPodShape(wanted.template);
      if existing.configVersion != wanted.configVersion || existing.template.systemId != wanted.template.systemId
         || existingShape != intendedShape {
        var put := api.Call();
        if put.Applied() {
          stored := Some(admit(wanted));
        }
        if !put.Done? {
          return Error;
        }
        var storedShape := ManagerPodShape(stored.value.template);
        return if intendedShape != storedShape then Settled else RequeueNow;
      }
      v := Settled;
    }
  }
}
