/** When no call fails, passes over a fixed resource get done: each changes nothing or comes closer to the end. */
module Progress {
  import opened WebServerApi
  import opened Digest
  import opened ClusterObjects
  import opened Templates
  import opened Generators
  import opened ClientApi
  import opened Steps
  import opened KubePing
  import opened Workloads
  import opened Builds
  import opened Cleanup
  import opened PodReport
  import opened Controller
  import opened Safety
  import opened Files

  /** The BuildConfig of an image stream: wanted with that content, or not at all. */
  datatype Config = Config(ref: Ref, build: Option<Object>)

  /** Everything the passes over a resource want of the store. */
  datatype Agenda = Agenda(
    steps: seq<Step>,
    pod: Option<Object>,
    config: Option<Config>,
    hash: string, fixedImage: Option<string>, replicas: int32,
    ns: string, owner: string, target: Ref)
  {
    ghost predicate Sound() {
      && Consistent(steps) && AllSupport(steps)
      && (pod.Some? ==> pod.value.body.Pod?)
      && (config.Some? ==> config.value.ref.kind == BuildConfigKind
                           && (config.value.build.Some? ==> config.value.build.value.Id() == config.value.ref))
      && IsWorkload(target)
    }
  }

  function PodPart(a: Agenda, objects: Store): nat {
    if a.pod.Some? then PodWork(objects, a.pod.value) else 0
  }

  function ConfigPart(a: Agenda, objects: Store): nat {
    if a.config.Some? then ConfigWork(objects, a.config.value.ref, a.config.value.build) else 0
  }

  /** The workload carries the current digest, the specified image and replica count. */
  predicate InOrder(a: Agenda, o: Object) {
    && o.body.Workload? && DigestOf(o) == a.hash && o.body.spec.replicas == a.replicas
    && !(a.fixedImage.Some? && a.fixedImage.value != o.body.spec.template.image)
  }

  function TargetPart(a: Agenda, objects: Store): nat {
    if a.target in objects && InOrder(a, objects[a.target]) then 0 else 1
  }

  /** What is left to do: objects missing or outdated, a build pod (twice if a stale one must go first), a
      BuildConfig, the workload, and the workloads left over. */
  ghost function Work(a: Agenda, objects: Store): nat {
    Unmet(objects, a.steps) + PodPart(a, objects) + ConfigPart(a, objects) + TargetPart(a, objects)
    + |OthersOf(objects, a.ns, a.owner, a.target)|
  }

  /** Nothing changed, or there is less left to do. */
  ghost predicate Advances(a: Agenda, x: Store, y: Store) {
    y == x || Work(a, y) < Work(a, x)
  }

  /* ---------- frames ---------- */

  ghost predicate SameCore(x: Store, y: Store) {
    forall r :: IsCore(r) ==> SameAt(x, y, r)
  }

  lemma SameCoreSameParts(a: Agenda, x: Store, y: Store)
    requires a.Sound() && SameCore(x, y)
    ensures PodPart(a, x) == PodPart(a, y) && ConfigPart(a, x) == ConfigPart(a, y)
            && TargetPart(a, x) == TargetPart(a, y)
    ensures OthersOf(x, a.ns, a.owner, a.target) == OthersOf(y, a.ns, a.owner, a.target)
  {
    assert SameAt(x, y, a.target);
    if a.pod.Some? { assert SameAt(x, y, a.pod.value.Id()); }
    if a.config.Some? { assert SameAt(x, y, a.config.value.ref); }
    SameWorkloadsSameOthers(x, y, a.ns, a.owner, a.target);
  }

  lemma GrowthKeepsCore(s: Api, t: Api)
    requires Grows(s, t)
    ensures SameCore(s.objects, t.objects)
  {
  }

  lemma {:induction false} SameSupportSameUnmet(x: Store, y: Store, steps: seq<Step>)
    requires AllSupport(steps) && forall r :: !IsCore(r) ==> SameAt(x, y, r)
    ensures Unmet(x, steps) == Unmet(y, steps)
  {
    if steps != [] {
      assert SameAt(x, y, steps[0].obj.Id());
      SameSupportSameUnmet(x, y, steps[1..]);
    }
  }

  /** A change at one object of the core: only that object's part of the work changes. */
  lemma ChangeAtCore(a: Agenda, x: Store, y: Store, at: Ref)
    requires a.Sound() && IsCore(at) && forall r :: r != at ==> SameAt(x, y, r)
    ensures Unmet(x, a.steps) == Unmet(y, a.steps)
    ensures (a.pod.Some? && a.pod.value.Id() == at) || PodPart(a, x) == PodPart(a, y)
    ensures (a.config.Some? && a.config.value.ref == at) || ConfigPart(a, x) == ConfigPart(a, y)
    ensures at == a.target || TargetPart(a, x) == TargetPart(a, y)
    ensures !IsWorkload(at) || at == a.target ==>
              OthersOf(x, a.ns, a.owner, a.target) == OthersOf(y, a.ns, a.owner, a.target)
  {
    SameSupportSameUnmet(x, y, a.steps);
    if a.target != at { assert SameAt(x, y, a.target); }
    if a.pod.Some? && a.pod.value.Id() != at { assert SameAt(x, y, a.pod.value.Id()); }
    if a.config.Some? && a.config.value.ref != at { assert SameAt(x, y, a.config.value.ref); }
    if !IsWorkload(at) || at == a.target {
      SameWorkloadsSameOthers(x, y, a.ns, a.owner, a.target);
    }
  }

  /* ---------- steps ---------- */

  /** What a part of a failure-free pass does to the agenda; it keeps quiet only by going on. */
  ghost predicate Proceeds(a: Agenda, s: Api, t: Out) {
    && t.api.script == [] && t.api.server == s.server
    && Advances(a, s.objects, t.api.objects)
  }

  lemma ProceedsTransitive(a: Agenda, s: Api, t: Out, u: Out)
    requires Proceeds(a, s, t) && Proceeds(a, t.api, u)
    ensures Proceeds(a, s, u)
    ensures u.api.objects == s.objects ==> t.api.objects == s.objects
  {
  }

  ghost predicate Among(some: seq<Step>, steps: seq<Step>) {
    forall i :: 0 <= i < |some| ==> some[i] in steps
  }

  lemma AmongIsSupport(some: seq<Step>, steps: seq<Step>)
    requires Among(some, steps) && AllSupport(steps)
    ensures AllSupport(some)
  {
  }

  /** Running steps of the agenda proceeds; if nothing changes, there was nothing to do. */
  lemma StepsProceed(a: Agenda, s: Api, some: seq<Step>)
    requires a.Sound() && s.script == [] && Among(some, a.steps)
    ensures Proceeds(a, s, RunSteps(s, some))
    ensures RunSteps(s, some).api.objects == s.objects ==> RunSteps(s, some).flow.Next? && AllMet(s.objects, some)
  {
    AmongIsSupport(some, a.steps);
    FaithfulSteps(s, some, a.steps);
    StepsGrow(s, some);
    GrowthKeepsCore(s, RunSteps(s, some).api);
    SameCoreSameParts(a, s.objects, RunSteps(s, some).api.objects);
    StillStepsAreMet(s, some, a.steps);
  }

  lemma {:induction false} StillStepsAreMet(s: Api, some: seq<Step>, all: seq<Step>)
    requires s.script == [] && Consistent(all) && Among(some, all)
    ensures RunSteps(s, some).api.objects == s.objects ==> AllMet(s.objects, some)
    decreases |some|
  {
    if some != [] {
      var step, rest := some[0], some[1..];
      var first := RunStep(s, step);
      FaithfulStep(s, step);
      if Met(s.objects, step) {
        StillStepsAreMet(first.api, rest, all);
        forall i | 0 <= i < |some| && RunSteps(s, some).api.objects == s.objects ensures Met(s.objects, some[i]) {
          if i > 0 { assert some[i] == rest[i - 1]; }
        }
      } else {
        assert [step][0] in all;
        FaithfulSteps(s, [step], all);
        RunOneStep(s, step);
        FaithfulSteps(first.api, rest, all);
      }
    }
  }

  /* ---------- gates ---------- */

  lemma PodGateProceeds(a: Agenda, s: Api, pod: Object)
    requires a.Sound() && s.script == [] && a.pod == Some(pod)
    ensures var g := GatePod(s, pod);
            && Proceeds(a, s, Out(g.api, g.flow))
            && (g.flow.Next? ==> g.open)
            && (g.api.objects == s.objects ==>
                  || (g.flow.Next? && PodPart(a, s.objects) == 0)
                  || (g.flow == Return(RequeueAfter(5000), None) && Building(s.objects, pod)))
  {
    var g := GatePod(s, pod);
    FaithfulPodGate(s, pod);
    PodGateIsSafe(s, pod);
    ChangeAtCore(a, s.objects, g.api.objects, pod.Id());
    OpenPodIsCurrent(s, pod);
  }

  /** The build pod exists and has not succeeded. */
  predicate Building(objects: Store, pod: Object) {
    pod.Id() in objects && objects[pod.Id()].body.Pod? && objects[pod.Id()].body.phase != Succeeded
  }

  lemma OpenPodIsCurrent(s: Api, pod: Object)
    requires pod.body.Pod? && s.script == []
    ensures GatePod(s, pod).open ==> PodWork(s.objects, pod) == 0
  {
  }

  lemma BuildGateProceeds(a: Agenda, s: Api, b: BuildGoal)
    requires a.Sound() && s.script == [] && a.pod == Some(b.pod)
    requires b.script.Some? ==> Among([Apply(b.script.value)], a.steps)
    ensures var g := GateBuild(s, b);
            && Proceeds(a, s, Out(g.api, g.flow))
            && (g.flow.Next? ==> g.open)
            && (g.api.objects == s.objects ==>
                  && (b.script.Some? ==> Met(s.objects, Apply(b.script.value)))
                  && (|| (g.flow.Next? && PodPart(a, s.objects) == 0)
                      || (g.flow == Return(RequeueAfter(5000), None) && Building(s.objects, b.pod))))
  {
    if b.script.None? {
      PodGateProceeds(a, s, b.pod);
    } else {
      var steps := [Apply(b.script.value)];
      var applied := RunSteps(s, steps);
      RunOneStep(s, steps[0]);
      StepsProceed(a, s, steps);
      if applied.flow.Next? {
        var g := GatePod(applied.api, b.pod);
        PodGateProceeds(a, applied.api, b.pod);
        ProceedsTransitive(a, s, applied, Out(g.api, g.flow));
        assert AllMet(s.objects, steps) ==> Met(s.objects, steps[0]);
      }
    }
  }

  lemma UpdateBuildProceeds(a: Agenda, s: Api, build: Object)
    requires a.Sound() && s.script == [] && a.config == Some(Config(build.Id(), Some(build)))
    ensures var g := UpdateBuild(s, build);
            && Proceeds(a, s, Out(g.api, g.flow))
            && (g.flow.Next? ==> g.open)
            && (g.api.objects == s.objects ==> g.flow.Next? && ConfigPart(a, s.objects) == 0)
  {
    var g := UpdateBuild(s, build);
    FaithfulUpdateBuild(s, build);
    ChangeAtCore(a, s.objects, g.api.objects, build.Id());
    StillBuildIsCurrent(s, build);
  }

  lemma StillBuildIsCurrent(s: Api, build: Object)
    requires s.script == []
    ensures UpdateBuild(s, build).api.objects == s.objects ==> ConfigWork(s.objects, build.Id(), Some(build)) == 0
  {
  }

  lemma DropBuildProceeds(a: Agenda, s: Api, ref: Ref)
    requires a.Sound() && s.script == [] && a.config == Some(Config(ref, None))
    ensures Proceeds(a, s, Out(DropBuild(s, ref), Next))
    ensures DropBuild(s, ref).objects == s.objects ==> ConfigPart(a, s.objects) == 0
  {
    FaithfulDropBuild(s, ref);
    ChangeAtCore(a, s.objects, DropBuild(s, ref).objects, ref);
  }

  lemma ReadProceeds(a: Agenda, s: Api, ref: Ref)
    requires s.script == []
    ensures Proceeds(a, s, Out(GetCall(s, ref).0, Next)) && GetCall(s, ref).0.objects == s.objects
  {
  }

  lemma PrepareBuildProceeds(a: Agenda, s: Api, stream: Object, build: Object)
    requires a.Sound() && s.script == [] && a.config == Some(Config(build.Id(), Some(build)))
    requires Among([Ensure(stream)], a.steps)
    ensures var g := PrepareBuild(s, stream, build);
            && Proceeds(a, s, Out(g.api, g.flow))
            && (g.flow.Next? ==> g.open && stream.Id() in g.api.objects)
            && (g.api.objects == s.objects ==>
                  g.flow.Next? && ConfigPart(a, s.objects) == 0 && Met(s.objects, Ensure(stream)))
  {
    var steps := [Ensure(stream)];
    var e := RunSteps(s, steps);
    RunOneStep(s, steps[0]);
    StepsProceed(a, s, steps);
    if e.flow.Next? {
      var t := GetCall(e.api, stream.Id()).0;
      assert stream.Id() in e.api.objects;
      ReadProceeds(a, e.api, stream.Id());
      ProceedsTransitive(a, s, e, Out(t, Next));
      var g := UpdateBuild(t, build);
      UpdateBuildProceeds(a, t, build);
      ProceedsTransitive(a, s, Out(t, Next), Out(g.api, g.flow));
      assert PrepareBuild(s, stream, build) == g;
      UpdateBuildKeeps(t, build, stream.Id());
      assert AllMet(s.objects, steps) ==> Met(s.objects, steps[0]);
    }
  }

  lemma UpdateBuildKeeps(s: Api, build: Object, ref: Ref)
    requires ref in s.objects
    ensures ref in UpdateBuild(s, build).api.objects
  {
  }

  /* ---------- workload and cleanup ---------- */

  /** The goal asks of the workload what the agenda does. */
  ghost predicate Orders(a: Agenda, g: WorkloadGoal) {
    && IsGoal(g) && g.created.Id() == a.target
    && g.hash == a.hash && g.fixedImage == a.fixedImage && g.replicas == a.replicas
  }

  lemma ContinueProceeds(a: Agenda, s: Api, g: WorkloadGoal)
    requires a.Sound() && s.script == [] && Orders(a, g)
    ensures var t := ContinueWith(s, g);
            && Proceeds(a, s, t)
            && (t.flow.Next? ==> t.api.objects == s.objects && TargetPart(a, s.objects) == 0)
            && (t.api.objects == s.objects ==>
                  t.flow.Next? || (t.flow == Return(Empty, Some(Crash)) && a.target in s.objects
                                   && s.objects[a.target].body.Workload? && RepairCrashes(g, s.objects[a.target])))
  {
    var t := ContinueWith(s, g);
    FaithfulContinue(s, g);
    CrashIsStill(s, g);
    forall r | r != a.target ensures SameAt(s.objects, t.api.objects, r) {}
    ChangeAtCore(a, s.objects, t.api.objects, a.target);
    forall o { SameOrder(a, g, o); }
    if a.target in s.objects { assert s.objects[a.target].Id() == a.target; }
    StillOrNot(s, g);
  }

  lemma SameOrder(a: Agenda, g: WorkloadGoal, o: Object)
    requires Orders(a, g)
    ensures Stable(g, o) <==> InOrder(a, o)
  {
  }

  /** A call that changes the workload found it out of order. */
  lemma StillOrNot(s: Api, g: WorkloadGoal)
    requires s.script == [] && IsGoal(g)
    ensures ContinueWith(s, g).api.objects != s.objects ==>
              !(g.created.Id() in s.objects && Stable(g, s.objects[g.created.Id()]))
  {
  }

  lemma CleanupProceeds(a: Agenda, s: Api, t: Out)
    requires a.Sound() && s.script == [] && Cleans(s, t, OthersOf(s.objects, a.ns, a.owner, a.target))
    ensures Proceeds(a, s, t) && t.flow.Next?
    ensures t.api.objects == s.objects ==> OthersOf(s.objects, a.ns, a.owner, a.target) == {}
  {
    var others := OthersOf(s.objects, a.ns, a.owner, a.target);
    var rest := OthersOf(t.api.objects, a.ns, a.owner, a.target);
    SupportSurvivesCleanup(a, s, t, others);
    forall r ensures r !in rest {
      if r in t.api.objects { assert SameAt(s.objects, t.api.objects, r); }
    }
    if others == {} { SameEverywhere(s.objects, t.api.objects); }
  }

  lemma SameEverywhere(x: Store, y: Store)
    requires forall r :: SameAt(x, y, r)
    ensures x == y
  {
    assert forall r :: r in x ==> SameAt(x, y, r);
    assert forall r :: r in y ==> SameAt(x, y, r);
  }

  lemma SupportSurvivesCleanup(a: Agenda, s: Api, t: Out, others: set<Ref>)
    requires a.Sound() && Cleans(s, t, others) && a.target !in others && forall r :: r in others ==> IsWorkload(r)
    ensures Unmet(s.objects, a.steps) == Unmet(t.api.objects, a.steps)
    ensures PodPart(a, s.objects) == PodPart(a, t.api.objects)
    ensures ConfigPart(a, s.objects) == ConfigPart(a, t.api.objects)
    ensures TargetPart(a, s.objects) == TargetPart(a, t.api.objects)
  {
    SameSupportSameUnmet(s.objects, t.api.objects, a.steps);
    assert SameAt(s.objects, t.api.objects, a.target);
    if a.pod.Some? { assert SameAt(s.objects, t.api.objects, a.pod.value.Id()); }
    if a.config.Some? { assert SameAt(s.objects, t.api.objects, a.config.value.ref); }
  }

  /* ---------- the rollout ---------- */

  /** The plan carries out the agenda. */
  ghost predicate CarriesOut(plan: Plan, a: Agenda) {
    && plan.Valid() && a.Sound()
    && match plan
       case FromImage(build, goal) =>
         && Orders(a, goal) && a.config.None?
         && (build.None? <==> a.pod.None?)
         && (build.Some? ==>
               && a.pod == Some(build.value.pod)
               && (build.value.script.Some? ==> Among([Apply(build.value.script.value)], a.steps)))
       case FromStream(sources, config, stream, goals) =>
         && (forall image :: Orders(a, goals(image))) && a.pod.None?
         && a.config == Some(Config(config, if sources.Some? then Some(sources.value.build) else None))
         && (sources.Some? ==> Among([Ensure(sources.value.stream)], a.steps) && sources.value.stream.Id() == stream
                               && sources.value.build.Id() == config)
  }

  /** The steps of the plan itself are met. */
  ghost predicate PlanStepsMet(objects: Store, plan: Plan) {
    match plan
    case FromImage(build, _) =>
      build.Some? && build.value.script.Some? ==> Met(objects, Apply(build.value.script.value))
    case FromStream(sources, _, _, _) => sources.Some? ==> Met(objects, Ensure(sources.value.stream))
  }

  /** Why a rollout that changes nothing may not be through. */
  ghost predicate RolloutWaits(plan: Plan, a: Agenda, objects: Store, flow: Flow) {
    || (flow == Return(RequeueAfter(5000), None) && a.pod.Some? && Building(objects, a.pod.value))
    || (flow == Return(Empty, Some(Crash)) && a.target in objects && objects[a.target].body.Workload?
        && (objects[a.target].meta.labels == map[] || a.target.kind == StatefulSetKind))
  }

  /** A rollout that changes nothing and goes on has nothing left to do, unless the image stream is missing. */
  ghost predicate RolloutDone(plan: Plan, a: Agenda, objects: Store) {
    && PodPart(a, objects) == 0 && ConfigPart(a, objects) == 0 && PlanStepsMet(objects, plan)
    && (TargetPart(a, objects) == 0 || LacksStream(objects, plan))
  }

  lemma CrashKinds(a: Agenda, g: WorkloadGoal, o: Object)
    requires o.body.Workload? && o.Id() == a.target && RepairCrashes(g, o)
    ensures o.meta.labels == map[] || a.target.kind == StatefulSetKind
  {
  }

  lemma ImagePlanProceeds(a: Agenda, s: Api, plan: Plan)
    requires s.script == [] && plan.FromImage? && CarriesOut(plan, a)
    ensures var t := RunPlan(s, plan);
            && Proceeds(a, s, t)
            && (t.api.objects == s.objects ==>
                  if t.flow.Next? then RolloutDone(plan, a, s.objects) else RolloutWaits(plan, a, s.objects, t.flow))
  {
    var gate := PodGate(s, plan.build);
    if plan.build.Some? { BuildGateProceeds(a, s, plan.build.value); }
    if gate.open {
      var t := ContinueWith(gate.api, plan.goal);
      ContinueProceeds(a, gate.api, plan.goal);
      ProceedsTransitive(a, s, Out(gate.api, gate.flow), t);
      if a.target in s.objects && s.objects[a.target].body.Workload? && RepairCrashes(plan.goal, s.objects[a.target]) {
        assert s.objects[a.target].Id() == a.target;
        CrashKinds(a, plan.goal, s.objects[a.target]);
      }
    }
  }

  lemma ContinueFromProceeds(a: Agenda, s: Api, stream: Ref, goals: string -> WorkloadGoal)
    requires a.Sound() && s.script == [] && stream.kind == ImageStreamKind
    requires forall image :: goals(image).created.body.Workload?
    requires forall image :: Orders(a, goals(image))
    ensures var t := ContinueFrom(s, stream, goals);
            && Proceeds(a, s, t)
            && (t.api.objects == s.objects ==>
                  || (t.flow.Next? && (stream !in s.objects || TargetPart(a, s.objects) == 0))
                  || (t.flow == Return(Empty, Some(Crash)) && a.target in s.objects
                        && s.objects[a.target].body.Workload?
                      && (s.objects[a.target].meta.labels == map[] || a.target.kind == StatefulSetKind)))
  {
    var (t, repository) := ReadStream(s, stream);
    ReadProceeds(a, s, stream);
    assert repository.None? ==> stream !in s.objects;
    if repository.Some? {
      var g := goals(repository.value);
      ContinueProceeds(a, t, g);
      ProceedsTransitive(a, s, Out(t, Next), ContinueWith(t, g));
      if a.target in s.objects && s.objects[a.target].body.Workload? && RepairCrashes(g, s.objects[a.target]) {
        assert s.objects[a.target].Id() == a.target;
        CrashKinds(a, g, s.objects[a.target]);
      }
    }
  }

  lemma StreamGateProceeds(a: Agenda, s: Api, plan: Plan)
    requires s.script == [] && plan.FromStream? && CarriesOut(plan, a)
    ensures var gate := StreamGate(s, plan.sources, plan.config);
            && Proceeds(a, s, Out(gate.api, gate.flow))
            && (gate.flow.Next? ==> gate.open && (plan.sources.Some? ==> plan.stream in gate.api.objects))
            && (gate.api.objects == s.objects ==>
                  gate.flow.Next? && ConfigPart(a, s.objects) == 0 && PlanStepsMet(s.objects, plan))
  {
    if plan.sources.Some? {
      PrepareBuildProceeds(a, s, plan.sources.value.stream, plan.sources.value.build);
    } else {
      DropBuildProceeds(a, s, plan.config);
    }
  }

  lemma StreamPlanProceeds(a: Agenda, s: Api, plan: Plan)
    requires s.script == [] && plan.FromStream? && CarriesOut(plan, a)
    ensures var t := RunPlan(s, plan);
            && Proceeds(a, s, t)
            && (t.api.objects == s.objects ==>
                  if t.flow.Next? then RolloutDone(plan, a, s.objects) else RolloutWaits(plan, a, s.objects, t.flow))
  {
    var gate := StreamGate(s, plan.sources, plan.config);
    StreamGateProceeds(a, s, plan);
    if gate.open {
      var t := ContinueFrom(gate.api, plan.stream, plan.goals);
      ContinueFromProceeds(a, gate.api, plan.stream, plan.goals);
      ProceedsTransitive(a, s, Out(gate.api, gate.flow), t);
    }
  }

  /** Nothing is left over. */
  ghost predicate NoneLeft(a: Agenda, objects: Store) {
    OthersOf(objects, a.ns, a.owner, a.target) == {}
  }

  lemma CleaningProceeds(p: Platform, a: Agenda, s: Api, rolled: Out, w: WebServer)
    requires a.Sound() && Proceeds(a, s, rolled)
    requires a.ns == w.ns && a.owner == w.uid && a.target == TargetRef(w)
    ensures var t := CleanAfter(p, rolled, w);
            && Proceeds(a, s, t)
            && (t.flow.Next? <==> rolled.flow.Next?) && (rolled.flow.Return? ==> t == rolled)
            && (t.api.objects == s.objects ==>
                  rolled.api.objects == s.objects && (t.flow.Next? ==> NoneLeft(a, s.objects)))
  {
    if rolled.flow.Next? {
      CleanupRemovesLeftovers(p, rolled.api, w);
      CleanupProceeds(a, rolled.api, CheckOwned(p, rolled.api, w));
      ProceedsTransitive(a, s, rolled, CheckOwned(p, rolled.api, w));
    }
  }

  lemma PlanProceeds(p: Platform, a: Agenda, s: Api, w: WebServer, plan: Plan)
    requires s.script == [] && CarriesOut(plan, a)
    requires a.ns == w.ns && a.owner == w.uid && a.target == TargetRef(w)
    ensures var t := DeployPlan(p, s, w, plan);
            && Proceeds(a, s, t)
            && (t.api.objects == s.objects ==>
                  if t.flow.Next? then RolloutDone(plan, a, s.objects) && NoneLeft(a, s.objects)
                  else RolloutWaits(plan, a, s.objects, t.flow))
  {
    if plan.FromImage? { ImagePlanProceeds(a, s, plan); } else { StreamPlanProceeds(a, s, plan); }
    CleaningProceeds(p, a, s, RunPlan(s, plan), w);
  }

  /* ---------- the agenda of a resource ---------- */

  function DNSSteps(w: WebServer): seq<Step> {
    if w.spec.useSessionClustering && !GetUseKUBEPing(w) then [Ensure(DNSService(w))] else []
  }

  function ExposureSteps(p: Platform, w: WebServer): seq<Step> {
    if Exposure(p, w).Some? then [Ensure(Exposure(p, w).value)] else []
  }

  function BuildSteps(w: WebServer): seq<Step> {
    if BuildsWebApp(w) && BuildScript(w) != "" then [Apply(BuildMap(w))] else []
  }

  function StreamSteps(w: WebServer): seq<Step> {
    if BuildsStream(w) then [Ensure(StreamObject(w))] else []
  }

  function AgendaSteps(p: Platform, w: WebServer): seq<Step> {
    MonitorSteps(p, w) + [Ensure(RoutingService(w))] + DNSSteps(w) + SupportSteps(w) + ExposureSteps(p, w)
    + BuildSteps(w) + StreamSteps(w)
  }

  function ConfigOf(p: Platform, w: WebServer): Option<Config> {
    if w.spec.webImageStream.Some? && w.spec.webImage.None? then
      Some(Config(BuildRef(w), if BuildsStream(w) then Some(SourceBuild(p, w)) else None))
    else None
  }

  ghost function AgendaOf(p: Platform, w: WebServer): Agenda {
    Agenda(AgendaSteps(p, w), PodWanted(p, w), ConfigOf(p, w), WebServerHash(p.hashing, w), FixedImage(w),
           w.spec.replicas, w.ns, w.uid, TargetRef(w))
  }

  /** Well-named support steps. */
  ghost predicate Fine(w: WebServer, steps: seq<Step>) {
    WellNamed(w, steps) && AllSupport(steps)
  }

  lemma FineAppend(w: WebServer, a: seq<Step>, b: seq<Step>)
    requires Fine(w, a) && Fine(w, b)
    ensures Fine(w, a + b)
  {
  }

  lemma SomeStepsAreFine(p: Platform, w: WebServer)
    ensures Fine(w, MonitorSteps(p, w)) && Fine(w, [Ensure(RoutingService(w))]) && Fine(w, DNSSteps(w))
            && Fine(w, StreamSteps(w))
  {
  }

  lemma OtherStepsAreFine(p: Platform, w: WebServer)
    ensures Fine(w, ExposureSteps(p, w)) && Fine(w, BuildSteps(w))
  {
    ExposureIsSupport(p, w);
    assert Origin(w, BuildMapName(w)) == 10;
  }

  lemma AgendaIsFine(p: Platform, w: WebServer)
    ensures Fine(w, AgendaSteps(p, w))
  {
    SomeStepsAreFine(p, w);
    OtherStepsAreFine(p, w);
    SupportIsWellNamed(w);
    SupportIsSupport(w);
    var a := MonitorSteps(p, w) + [Ensure(RoutingService(w))];
    var b := a + DNSSteps(w);
    var c := b + SupportSteps(w);
    var d := c + ExposureSteps(p, w);
    FineAppend(w, MonitorSteps(p, w), [Ensure(RoutingService(w))]);
    FineAppend(w, a, DNSSteps(w));
    FineAppend(w, b, SupportSteps(w));
    FineAppend(w, c, ExposureSteps(p, w));
    FineAppend(w, d, BuildSteps(w));
    FineAppend(w, d + BuildSteps(w), StreamSteps(w));
  }

  lemma ConfigIsSound(p: Platform, w: WebServer)
    ensures ConfigOf(p, w).Some? ==>
              ConfigOf(p, w).value.ref.kind == BuildConfigKind
              && (ConfigOf(p, w).value.build.Some? ==>
                    ConfigOf(p, w).value.build.value.Id() == ConfigOf(p, w).value.ref)
  {
  }

  /** No two steps contradict each other, and none meddles with what the rollout is about. */
  lemma AgendaIsSound(p: Platform, w: WebServer)
    ensures AgendaOf(p, w).Sound()
  {
    AgendaIsFine(p, w);
    WellNamedIsConsistent(w, AgendaSteps(p, w));
    ConfigIsSound(p, w);
    assert PodWanted(p, w).Some? ==> PodWanted(p, w).value.body.Pod?;
  }

  lemma PartsAreAmong(p: Platform, w: WebServer)
    ensures Among(MonitorSteps(p, w), AgendaSteps(p, w)) && Among([Ensure(RoutingService(w))], AgendaSteps(p, w))
            && Among(DNSSteps(w), AgendaSteps(p, w)) && Among(SupportSteps(w), AgendaSteps(p, w))
            && Among(ExposureSteps(p, w), AgendaSteps(p, w)) && Among(BuildSteps(w), AgendaSteps(p, w))
            && Among(StreamSteps(w), AgendaSteps(p, w))
  {
  }

  lemma MetParts(objects: Store, a: seq<Step>, b: seq<Step>, c: seq<Step>, d: seq<Step>, e: seq<Step>, f: seq<Step>,
                 g: seq<Step>)
    requires AllMet(objects, a) && AllMet(objects, b) && AllMet(objects, c) && AllMet(objects, d) && AllMet(objects, e)
             && AllMet(objects, f) && AllMet(objects, g)
    ensures AllMet(objects, a + b + c + d + e + f + g)
  {
  }

  lemma {:induction false} AllMetMeansNoneUnmet(objects: Store, steps: seq<Step>)
    requires AllMet(objects, steps)
    ensures Unmet(objects, steps) == 0
  {
    if steps != [] {
      assert Met(objects, steps[0]);
      forall i | 0 <= i < |steps[1..]| ensures Met(objects, steps[1..][i]) { assert steps[1..][i] == steps[i + 1]; }
      AllMetMeansNoneUnmet(objects, steps[1..]);
    }
  }

  lemma GoalIsOrdered(p: Platform, w: WebServer, image: string)
    requires ImageFor(w, image)
    ensures Orders(AgendaOf(p, w), GoalFor(p, w, image))
  {
    GoalsAreSound(p, w, image);
  }

  lemma ImagePlanCarriesOut(p: Platform, w: WebServer, goal: WorkloadGoal)
    requires w.spec.webImage.Some? && w.spec.webImageStream.None? && Orders(AgendaOf(p, w), goal)
    ensures CarriesOut(FromImage(BuildOf(p, w), goal), AgendaOf(p, w))
  {
    AgendaIsSound(p, w);
    PartsAreAmong(p, w);
    assert BuildsWebApp(w) && BuildScript(w) != "" ==> BuildSteps(w) == [Apply(BuildMap(w))];
  }

  lemma SourcesFit(p: Platform, w: WebServer)
    requires w.spec.webImage.None? && w.spec.webImageStream.Some?
    ensures var sources := SourcesOf(p, w);
            && ConfigOf(p, w) == Some(Config(BuildRef(w), if sources.Some? then Some(sources.value.build) else None))
            && (sources.Some? ==>
                  && [Ensure(sources.value.stream)] == StreamSteps(w)
                  && sources.value.stream.Id() == StreamRef(w) && sources.value.build.Id() == BuildRef(w))
  {
  }

  lemma PlanOfParts(a: Agenda, sources: Option<StreamBuild>, config: Ref, stream: Ref, goals: string -> WorkloadGoal)
    requires a.Sound() && a.pod.None? && stream.kind == ImageStreamKind
    requires forall image :: Orders(a, goals(image))
    requires a.config == Some(Config(config, if sources.Some? then Some(sources.value.build) else None))
    requires sources.Some? ==> Among([Ensure(sources.value.stream)], a.steps) && sources.value.stream.Id() == stream
                               && sources.value.build.Id() == config
    ensures CarriesOut(FromStream(sources, config, stream, goals), a)
  {
  }

  lemma StreamPlanCarriesOut(p: Platform, w: WebServer)
    requires w.spec.webImage.None? && w.spec.webImageStream.Some?
    ensures CarriesOut(StreamPlan(p, w), AgendaOf(p, w))
  {
    AgendaIsSound(p, w);
    PartsAreAmong(p, w);
    SourcesFit(p, w);
    var goals := StreamPlan(p, w).goals;
    forall image ensures Orders(AgendaOf(p, w), goals(image)) {
      GoalIsOrdered(p, w, image);
    }
    PlanOfParts(AgendaOf(p, w), SourcesOf(p, w), BuildRef(w), StreamRef(w), goals);
  }

  lemma PlanCarriesOut(p: Platform, w: WebServer)
    requires Usable(p, w)
    ensures CarriesOut(PlanOf(p, w), AgendaOf(p, w))
  {
    if w.spec.webImage.Some? {
      GoalIsOrdered(p, w, DeployedImage(w));
      ImagePlanCarriesOut(p, w, GoalFor(p, w, DeployedImage(w)));
    } else {
      StreamPlanCarriesOut(p, w);
    }
  }

  /* ---------- the annotation ---------- */

  /** The choice between KUBEPing and DNSPing is still to be recorded. */
  predicate Undecided(w: WebServer) {
    w.spec.useSessionClustering && NeedUseKUBEPing(w)
  }

  lemma AnnotatedReadsAlike(w: WebServer)
    requires NeedUseKUBEPing(w)
    ensures GetUseKUBEPing(Annotated(w, true)) && GetUseKUBEPing(w) && !NeedUseKUBEPing(Annotated(w, true))
    ensures SetDefaults(w) == w ==> SetDefaults(Annotated(w, true)) == Annotated(w, true)
  {
  }

  lemma SameSupportSteps(w: WebServer, v: WebServer)
    requires SameResource(v, w) && GetUseKUBEPing(v) == GetUseKUBEPing(w)
    ensures SupportSteps(v) == SupportSteps(w)
  {
    assert ScriptsMap(v) == ScriptsMap(w);
    assert ScriptSteps(v) == ScriptSteps(w) && LivenessSteps(v) == LivenessSteps(w);
    assert ReadinessSteps(v) == ReadinessSteps(w) && StartSteps(v) == StartSteps(w) && LogSteps(v) == LogSteps(w);
  }

  lemma SameOtherSteps(p: Platform, w: WebServer, v: WebServer)
    requires SameResource(v, w) && GetUseKUBEPing(v) == GetUseKUBEPing(w)
    ensures MonitorSteps(p, v) == MonitorSteps(p, w) && RoutingService(v) == RoutingService(w)
            && DNSSteps(v) == DNSSteps(w)
  {
  }

  lemma SameLastSteps(p: Platform, w: WebServer, v: WebServer)
    requires SameResource(v, w)
    ensures ExposureSteps(p, v) == ExposureSteps(p, w) && BuildSteps(v) == BuildSteps(w)
            && StreamSteps(v) == StreamSteps(w)
  {
  }

  lemma SameBuilds(p: Platform, w: WebServer, v: WebServer)
    requires SameResource(v, w)
    ensures PodWanted(p, v) == PodWanted(p, w) && ConfigOf(p, v) == ConfigOf(p, w)
    ensures WebServerHash(p.hashing, v) == WebServerHash(p.hashing, w)
  {
  }

  /** Recording KUBEPing for an undecided resource changes nothing of what is wanted. */
  lemma AnnotatingKeepsAgenda(p: Platform, w: WebServer)
    requires NeedUseKUBEPing(w)
    ensures AgendaOf(p, Annotated(w, true)) == AgendaOf(p, w)
  {
    var v := Annotated(w, true);
    AnnotatedReadsAlike(w);
    SameSupportSteps(w, v);
    SameOtherSteps(p, w, v);
    SameLastSteps(p, w, v);
    SameBuilds(p, w, v);
    SameRest(w, v);
  }

  lemma SameRest(w: WebServer, v: WebServer)
    requires SameResource(v, w)
    ensures FixedImage(v) == FixedImage(w) && TargetRef(v) == TargetRef(w) && v.ns == w.ns && v.uid == w.uid
            && v.spec.replicas == w.spec.replicas
  {
  }

  /* ---------- before the rollout ---------- */

  lemma AddingIsNoWork(a: Agenda, s: Api, t: Api)
    requires a.Sound() && Grows(s, t) && OnlyAdds(s.objects, t.objects)
    ensures Work(a, t.objects) <= Work(a, s.objects)
  {
    GrowthKeepsCore(s, t);
    SameCoreSameParts(a, s.objects, t.objects);
    UnmetDrops(s.objects, t.objects, a.steps);
  }

  /** The decision proceeds, or it is recorded and nothing is undone. */
  ghost predicate Decides(a: Agenda, s: Api, w: WebServer, d: Decision) {
    if d.w == w then Proceeds(a, s, Out(d.api, d.flow))
    else
      && Undecided(w) && d.w == Annotated(w, true) && d.api.server == Some(d.w) && d.api.script == []
      && Work(a, d.api.objects) <= Work(a, s.objects)
  }

  lemma DecideProceeds(a: Agenda, s: Api, w: WebServer)
    requires a.Sound() && s.script == [] && s.server.Some? && Among(DNSSteps(w), a.steps)
    ensures Decides(a, s, w, Decide(s, w)) && Decide(s, w).flow.Next?
    ensures Decide(s, w).w == w ==>
              !Undecided(w) && (Decide(s, w).api.objects == s.objects ==> AllMet(s.objects, DNSSteps(w)))
  {
    if Undecided(w) {
      FaithfulDecision(s, w);
      DecideAdds(s, w);
      DecideGrows(s, w);
      AddingIsNoWork(a, s, Decide(s, w).api);
      assert Annotated(w, true).annotations[KUBEPING] == "true";
    } else if w.spec.useSessionClustering && !GetUseKUBEPing(w) {
      assert DNSSteps(w) == [Ensure(DNSService(w))];
      StepsProceed(a, s, DNSSteps(w));
      RunOneStep(s, Ensure(DNSService(w)));
    }
  }

  lemma DecidesTransitive(a: Agenda, s: Api, t: Out, w: WebServer, d: Decision)
    requires Proceeds(a, s, t) && Decides(a, t.api, w, d)
    ensures Decides(a, s, w, d)
  {
  }

  lemma DecideAfterProceeds(a: Agenda, s: Api, w: WebServer, monitors: seq<Step>, usable: bool, routing: Object)
    requires a.Sound() && s.script == [] && s.server.Some?
    requires Among(monitors, a.steps) && Among([Ensure(routing)], a.steps) && Among(DNSSteps(w), a.steps)
    ensures var d := DecideAfter(s, w, monitors, usable, routing);
            && Decides(a, s, w, d)
            && (d.w != w ==> d.flow.Next?)
            && (d.w == w && d.api.objects == s.objects ==>
                  if d.flow.Next? then !Undecided(w) && AllMet(s.objects, monitors)
                     && AllMet(s.objects, [Ensure(routing)])
                                       && AllMet(s.objects, DNSSteps(w))
                  else d.flow == Return(Empty, None) && !usable)
  {
    var monitored := RunSteps(s, monitors);
    StepsProceed(a, s, monitors);
    if monitored.flow.Next? && usable {
      var routed := RunSteps(monitored.api, [Ensure(routing)]);
      StepsProceed(a, monitored.api, [Ensure(routing)]);
      RunOneStep(monitored.api, Ensure(routing));
      ProceedsTransitive(a, s, monitored, routed);
      if routed.flow.Next? {
        DecideProceeds(a, routed.api, w);
        DecidesTransitive(a, s, routed, w, Decide(routed.api, w));
      }
    }
  }

  /** The load balancer exists and has no address yet. */
  predicate LacksAddress(objects: Store, obj: Object) {
    obj.Id() in objects && Addresses(objects[obj.Id()]) == []
  }

  lemma ExposeObjectProceeds(a: Agenda, s: Api, obj: Object, wait: bool)
    requires a.Sound() && s.script == [] && Among([Ensure(obj)], a.steps)
    ensures var e := ExposeObject(s, obj, wait);
            && Proceeds(a, s, Out(e.api, e.flow))
            && (e.api.objects == s.objects ==>
                  && AllMet(s.objects, [Ensure(obj)])
                  && (e.flow.Next? || (e.flow == Return(Requeue, None) && wait && LacksAddress(s.objects, obj))))
  {
    StepsProceed(a, s, [Ensure(obj)]);
    RunOneStep(s, Ensure(obj));
  }

  /** Why a pass that changes nothing may wait for the load balancer. */
  predicate ExposureWaits(p: Platform, w: WebServer, objects: Store, flow: Flow) {
    flow == Return(Requeue, None) && !p.isOpenShift && Exposure(p, w).Some?
        && LacksAddress(objects, Exposure(p, w).value)
  }

  lemma ExposeProceeds(p: Platform, a: Agenda, s: Api, w: WebServer)
    requires a.Sound() && s.script == [] && Among(ExposureSteps(p, w), a.steps)
    ensures var e := Expose(p, s, w);
            && Proceeds(a, s, Out(e.api, e.flow))
            && (e.api.objects == s.objects ==>
                  AllMet(s.objects, ExposureSteps(p, w)) && (e.flow.Next? || ExposureWaits(p, w, s.objects, e.flow)))
  {
    if Exposure(p, w).Some? {
      ExposeObjectProceeds(a, s, Exposure(p, w).value, !p.isOpenShift);
    }
  }

  lemma BackProceeds(p: Platform, a: Agenda, s: Api, w: WebServer)
    requires a.Sound() && s.script == [] && Among(SupportSteps(w), a.steps) && Among(ExposureSteps(p, w), a.steps)
    ensures var back := Back(p, s, w);
            && Proceeds(a, s, Out(back.api, back.flow))
            && (back.api.objects == s.objects ==>
                  && AllMet(s.objects, SupportSteps(w)) && AllMet(s.objects, ExposureSteps(p, w))
                  && (back.flow.Next? || ExposureWaits(p, w, s.objects, back.flow)))
  {
    var supported := RunSteps(s, SupportSteps(w));
    StepsProceed(a, s, SupportSteps(w));
    if supported.flow.Next? {
      var e := Expose(p, supported.api, w);
      ExposeProceeds(p, a, supported.api, w);
      ProceedsTransitive(a, s, supported, Out(e.api, e.flow));
    }
  }

  /** What a pass that changes nothing has found when it waits. */
  ghost predicate Waits(p: Platform, w: WebServer, objects: Store, flow: Flow)
    requires Usable(p, w)
  {
    ExposureWaits(p, w, objects, flow) || RolloutWaits(PlanOf(p, w), AgendaOf(p, w), objects, flow)
  }

  /** What a pass that changes nothing has found when it gets through. */
  ghost predicate Through(p: Platform, w: WebServer, objects: Store)
    requires Usable(p, w)
  {
    && AllMet(objects, SupportSteps(w)) && AllMet(objects, ExposureSteps(p, w))
    && RolloutDone(PlanOf(p, w), AgendaOf(p, w), objects) && NoneLeft(AgendaOf(p, w), objects)
  }

  ghost function BehindFront(p: Platform, s: Api, w: WebServer): Out
    requires Usable(p, w)
  {
    var back := Back(p, s, w);
    if back.flow.Return? then Out(back.api, back.flow) else Deploy(p, back.api, w)
  }

  lemma BehindFrontProceeds(p: Platform, s: Api, w: WebServer)
    requires Usable(p, w) && s.script == []
    ensures var t := BehindFront(p, s, w);
            && Proceeds(AgendaOf(p, w), s, t)
            && (t.api.objects == s.objects ==>
                  if t.flow.Next? then Through(p, w, s.objects) else Waits(p, w, s.objects, t.flow))
  {
    var a, back := AgendaOf(p, w), Back(p, s, w);
    AgendaIsSound(p, w);
    PartsAreAmong(p, w);
    BackProceeds(p, a, s, w);
    if back.flow.Next? {
      DeployProceeds(p, back.api, w);
      ProceedsTransitive(a, s, Out(back.api, back.flow), Deploy(p, back.api, w));
    }
  }

  lemma DeployProceeds(p: Platform, s: Api, w: WebServer)
    requires Usable(p, w) && s.script == []
    ensures var t, a, plan := Deploy(p, s, w), AgendaOf(p, w), PlanOf(p, w);
            && Proceeds(a, s, t)
            && (t.api.objects == s.objects ==>
                  if t.flow.Next? then RolloutDone(plan, a, s.objects) && NoneLeft(a, s.objects)
                  else RolloutWaits(plan, a, s.objects, t.flow))
  {
    PlanCarriesOut(p, w);
    PlanProceeds(p, AgendaOf(p, w), s, w, PlanOf(p, w));
  }

  /* ---------- whole passes ---------- */

  /** What a pass that changes nothing has found. */
  ghost predicate Quiescent(p: Platform, w: WebServer, objects: Store, flow: Flow) {
    if !Usable(p, w) then flow == Return(Empty, None)
    else
      && !Undecided(w)
      && AllMet(objects, MonitorSteps(p, w)) && AllMet(objects, [Ensure(RoutingService(w))])
         && AllMet(objects, DNSSteps(w))
      && if flow.Next? then Through(p, w, objects) else Waits(p, w, objects, flow)
  }

  /** The pass proceeds, or it records the decision on clustering and undoes nothing; if it changes nothing, it is
      quiet. */
  ghost predicate PassProceeds(a: Agenda, s: Api, w: WebServer, t: Prepared, quiet: bool) {
    && t.api.script == []
    && if t.w == w then
         && t.api.server == s.server && Advances(a, s.objects, t.api.objects)
         && (t.api.objects == s.objects ==> quiet)
       else
         && Undecided(w) && t.w == Annotated(w, true) && t.api.server == Some(t.w)
         && Work(a, t.api.objects) <= Work(a, s.objects)
  }

  lemma FrontProceeds(p: Platform, s: Api, w: WebServer)
    requires s.script == [] && s.server.Some?
    ensures var d := Front(p, s, w);
            && Decides(AgendaOf(p, w), s, w, d)
            && (d.w != w ==> d.flow.Next?)
            && (d.w == w && d.api.objects == s.objects ==>
                  if d.flow.Next? then !Undecided(w) && AllMet(s.objects, MonitorSteps(p, w))
                                       && AllMet(s.objects, [Ensure(RoutingService(w))])
                                          && AllMet(s.objects, DNSSteps(w))
                  else d.flow == Return(Empty, None) && !Usable(p, w))
  {
    AgendaIsSound(p, w);
    PartsAreAmong(p, w);
    DecideAfterProceeds(AgendaOf(p, w), s, w, MonitorSteps(p, w), Usable(p, w), RoutingService(w));
  }

  lemma DecidedProceeds(a: Agenda, s: Api, w: WebServer, front: Decision, t: Out, hosts: Option<seq<string>>,
                        quiet: bool)
    requires Decides(a, s, w, front) && front.w == w && Proceeds(a, front.api, t)
    requires t.api.objects == s.objects && front.api.objects == s.objects ==> quiet
    ensures PassProceeds(a, s, w, Prepared(t.api, w, t.flow, hosts), quiet)
  {
  }

  lemma DecidingProceeds(a: Agenda, s: Api, w: WebServer, front: Decision, t: Out, hosts: Option<seq<string>>,
                         quiet: bool)
    requires Decides(a, s, w, front) && front.w != w && Proceeds(a, front.api, t)
    ensures PassProceeds(a, s, w, Prepared(t.api, front.w, t.flow, hosts), quiet)
  {
  }

  lemma PrepareIsFrontAndBehind(p: Platform, s: Api, w: WebServer)
    ensures var front, t := Front(p, s, w), Prepare(p, s, w);
            if front.flow.Return? then t == Prepared(front.api, front.w, front.flow, None)
            else Usable(p, front.w)
                 && t == Prepared(BehindFront(p, front.api, front.w).api, front.w,
                    BehindFront(p, front.api, front.w).flow, t.hosts)
  {
    FrontEffect(p, s, w);
  }

  lemma PassWithoutPlan(p: Platform, s: Api, w: WebServer)
    requires s.script == [] && s.server.Some? && Front(p, s, w).flow.Return?
    ensures var front := Front(p, s, w);
            PassProceeds(AgendaOf(p, w), s, w, Prepared(front.api, front.w, front.flow, None),
                         Quiescent(p, w, s.objects, front.flow))
  {
    FrontProceeds(p, s, w);
  }

  lemma DecidedPass(p: Platform, s: Api, w: WebServer, hosts: Option<seq<string>>)
    requires s.script == [] && s.server.Some? && Usable(p, w)
    requires Front(p, s, w).flow.Next? && Front(p, s, w).w == w
    ensures var t := BehindFront(p, Front(p, s, w).api, w);
            PassProceeds(AgendaOf(p, w), s, w, Prepared(t.api, w, t.flow, hosts), Quiescent(p, w, s.objects, t.flow))
  {
    var front := Front(p, s, w);
    var t := BehindFront(p, front.api, w);
    FrontProceeds(p, s, w);
    BehindFrontProceeds(p, front.api, w);
    DecidedProceeds(AgendaOf(p, w), s, w, front, t, hosts, Quiescent(p, w, s.objects, t.flow));
  }

  lemma DecidingPass(p: Platform, s: Api, w: WebServer, hosts: Option<seq<string>>, quiet: bool)
    requires s.script == [] && s.server.Some? && Usable(p, Front(p, s, w).w)
    requires Front(p, s, w).flow.Next? && Front(p, s, w).w != w
    ensures var v := Front(p, s, w).w;
            var t := BehindFront(p, Front(p, s, w).api, v);
            PassProceeds(AgendaOf(p, w), s, w, Prepared(t.api, v, t.flow, hosts), quiet)
  {
    var front := Front(p, s, w);
    FrontProceeds(p, s, w);
    AnnotatingKeepsAgenda(p, w);
    BehindFrontProceeds(p, front.api, front.w);
    DecidingProceeds(AgendaOf(p, w), s, w, front, BehindFront(p, front.api, front.w), hosts, quiet);
  }

  lemma PrepareProceeds(p: Platform, s: Api, w: WebServer)
    requires s.script == [] && s.server.Some?
    ensures PassProceeds(AgendaOf(p, w), s, w, Prepare(p, s, w), Quiescent(p, w, s.objects, Prepare(p, s, w).flow))
  {
    var front, t := Front(p, s, w), Prepare(p, s, w);
    PrepareIsFrontAndBehind(p, s, w);
    if front.flow.Return? {
      PassWithoutPlan(p, s, w);
    } else if front.w == w {
      DecidedPass(p, s, w, t.hosts);
    } else {
      DecidingPass(p, s, w, t.hosts, Quiescent(p, w, s.objects, t.flow));
    }
  }

  /** The cluster and the resource, between passes, with everything done so far. */
  datatype System = System(objects: Store, server: WebServer, status: Status, log: seq<Event>)

  predicate Same(x: System, y: System) {
    x.objects == y.objects && x.server == y.server && x.status == y.status
  }

  ghost function Pass(p: Platform, sys: System, script: Script): Reported {
    ReconcileSpec(p, Api(sys.objects, Some(sys.server), script, []), sys.status)
  }

  ghost function After(p: Platform, sys: System, script: Script): System {
    var r := Pass(p, sys, script);
    System(r.api.objects, if r.api.server.Some? then r.api.server.value else sys.server, r.status, sys.log + r.api.log)
  }

  /** The next failure-free pass would change the status. */
  ghost predicate Stale(p: Platform, sys: System) {
    Pass(p, sys, []).status != sys.status
  }

  /** What is left: the work and the open decision, each weighing more than a status to be written. */
  ghost function Measure(p: Platform, sys: System): nat {
    var w := SetDefaults(sys.server);
    2 * (Work(AgendaOf(p, w), sys.objects) + if Undecided(w) then 1 else 0) + if Stale(p, sys) then 1 else 0
  }

  lemma WritingTwiceIsOnce(of: Topic, status: Status, hosts: Option<seq<string>>, s: Api)
    requires s.script == [] && s.server.Some?
    ensures var once := ReportOn(s, of, status, hosts);
            && once.api.script == [] && once.api.server == s.server && once.flow == LastWord(of)
            && ReportOn(s, of, once.status, hosts).status == once.status
  {
  }

  lemma ReportTwiceIsOnce(s: Api, w: WebServer, status: Status, hosts: Option<seq<string>>)
    requires s.script == [] && s.server.Some?
    ensures var once := Report(s, w, status, hosts);
            && once.api.server == s.server && once.flow == LastWord(TopicOf(s.objects, w))
            && Report(s, w, once.status, hosts).status == once.status
  {
    WritingTwiceIsOnce(TopicOf(s.objects, w), status, hosts, ListCall(s).0);
  }

  function Start(sys: System, script: Script): Api {
    Api(sys.objects, Some(sys.server), script, [])
  }

  /** The pass once the resource has been read. */
  ghost function Done(p: Platform, sys: System): Prepared {
    Prepare(p, GetServerCall(Start(sys, [])).0, SetDefaults(sys.server))
  }

  /** A failure-free pass in its two halves. */
  lemma PassHalves(p: Platform, sys: System)
    requires !DefaultsCrash(sys.server)
    ensures var r, done := Pass(p, sys, []), Done(p, sys);
            && (done.flow.Return? ==> r == Reported(done.api, sys.status, done.flow))
            && (done.flow.Next? ==> r == Report(done.api, done.w, sys.status, done.hosts))
  {
  }

  lemma DoneProceeds(p: Platform, sys: System)
    ensures var done, w := Done(p, sys), SetDefaults(sys.server);
            PassProceeds(AgendaOf(p, w), Start(sys, []), w, done, Quiescent(p, w, sys.objects, done.flow))
  {
    PrepareProceeds(p, GetServerCall(Start(sys, [])).0, SetDefaults(sys.server));
  }

  lemma CrashingPass(p: Platform, sys: System)
    requires DefaultsCrash(sys.server)
    ensures Same(After(p, sys, []), sys) && Pass(p, sys, []).flow == Return(Empty, Some(Crash))
  {
  }

  /** The store and the resource after a pass are those before its report. */
  lemma AfterIsDone(p: Platform, sys: System)
    requires !DefaultsCrash(sys.server)
    ensures var done, next := Done(p, sys), After(p, sys, []);
            && next.objects == done.api.objects && Some(next.server) == done.api.server
            && (done.flow.Return? ==> next.status == sys.status)
  {
    var done := Done(p, sys);
    PassHalves(p, sys);
    DoneProceeds(p, sys);
    if done.flow.Next? {
      ReportGrows(done.api, done.w, sys.status, done.hosts);
    }
  }

  /** A pass that changes neither store nor resource leaves a status that the next pass keeps. */
  lemma StatusSettles(p: Platform, sys: System)
    requires !DefaultsCrash(sys.server)
    requires After(p, sys, []).objects == sys.objects && After(p, sys, []).server == sys.server
    ensures !Stale(p, After(p, sys, []))
  {
    var next, done := After(p, sys, []), Done(p, sys);
    PassHalves(p, sys);
    DoneProceeds(p, sys);
    PassHalves(p, next);
    assert Done(p, next) == done;
    if done.flow.Next? {
      ReportTwiceIsOnce(done.api, done.w, sys.status, done.hosts);
    }
  }

  lemma DefaultsAreStable(w: WebServer)
    ensures SetDefaults(SetDefaults(w)) == SetDefaults(w)
  {
  }

  /** A decision is recorded: the resource written is already a decided one, with the same agenda. */
  lemma DecisionSettles(p: Platform, sys: System)
    requires !DefaultsCrash(sys.server) && Done(p, sys).w != SetDefaults(sys.server)
    ensures var w, v := SetDefaults(sys.server), SetDefaults(After(p, sys, []).server);
            && AgendaOf(p, v) == AgendaOf(p, w) && Undecided(w) && !Undecided(v)
            && Work(AgendaOf(p, w), After(p, sys, []).objects) <= Work(AgendaOf(p, w), sys.objects)
  {
    var w := SetDefaults(sys.server);
    DoneProceeds(p, sys);
    AfterIsDone(p, sys);
    DefaultsAreStable(sys.server);
    AnnotatedReadsAlike(w);
    AnnotatingKeepsAgenda(p, w);
  }

  /** A pass that decides nothing leaves the resource alone and keeps or lessens the work. */
  lemma PassAdvances(p: Platform, sys: System)
    requires !DefaultsCrash(sys.server) && Done(p, sys).w == SetDefaults(sys.server)
    ensures After(p, sys, []).server == sys.server
    ensures Advances(AgendaOf(p, SetDefaults(sys.server)), sys.objects, After(p, sys, []).objects)
  {
    DoneProceeds(p, sys);
    AfterIsDone(p, sys);
  }

  /** Termination of reconciliation: a failure-free pass changes nothing at all, or it lowers the measure. So the
      passes that change anything are bounded by the measure of the state they start from. */
  lemma EachPassProgresses(p: Platform, sys: System)
    ensures Same(After(p, sys, []), sys) || Measure(p, After(p, sys, [])) < Measure(p, sys)
  {
    if DefaultsCrash(sys.server) {
      CrashingPass(p, sys);
    } else {
      var next, w := After(p, sys, []), SetDefaults(sys.server);
      if Done(p, sys).w != w {
        DecisionSettles(p, sys);
      } else {
        PassAdvances(p, sys);
        if next.objects == sys.objects { StatusSettles(p, sys); }
      }
    }
  }

  ghost function Iterate(f: System -> System, sys: System, n: nat): System
    decreases n
  {
    if n == 0 then sys else Iterate(f, f(sys), n - 1)
  }

  lemma {:induction false} FixedStaysFixed(f: System -> System, sys: System, n: nat)
    requires forall x, y :: Same(x, y) ==> Same(f(x), f(y))
    requires Same(f(sys), sys)
    ensures Same(Iterate(f, sys, n), sys)
    decreases n
  {
    if n > 0 {
      FixedStaysFixed(f, f(sys), n - 1);
    }
  }

  lemma {:induction false} IterationSettles(f: System -> System, m: System -> nat, sys: System, n: nat)
    requires forall x, y :: Same(x, y) ==> Same(f(x), f(y))
    requires forall x :: Same(f(x), x) || m(f(x)) < m(x)
    requires n >= m(sys)
    ensures Same(f(Iterate(f, sys, n)), Iterate(f, sys, n))
    decreases n
  {
    if Same(f(sys), sys) {
      FixedStaysFixed(f, sys, n);
    } else {
      IterationSettles(f, m, f(sys), n - 1);
    }
  }

  ghost function FaithfulPass(p: Platform): System -> System {
    (sys: System) => After(p, sys, [])
  }

  /** So many failure-free passes in a row. */
  ghost function Passes(p: Platform, sys: System, n: nat): System {
    Iterate(FaithfulPass(p), sys, n)
  }

  lemma SameGoOnAlike(p: Platform, x: System, y: System)
    requires Same(x, y)
    ensures Same(After(p, x, []), After(p, y, []))
  {
  }

  /** Reconciliation converges: from any state, after as many failure-free passes as its measure says, every
      further one leaves the store, the resource and its status as they are. */
  lemma PassesSettle(p: Platform, sys: System, n: nat)
    requires n >= Measure(p, sys)
    ensures Same(After(p, Passes(p, sys, n), []), Passes(p, sys, n))
  {
    var m := (x: System) => Measure(p, x);
    forall x, y | Same(x, y) ensures Same(FaithfulPass(p)(x), FaithfulPass(p)(y)) {
      SameGoOnAlike(p, x, y);
    }
    forall x ensures Same(FaithfulPass(p)(x), x) || m(FaithfulPass(p)(x)) < m(x) {
      EachPassProgresses(p, x);
    }
    IterationSettles(FaithfulPass(p), m, sys, n);
  }

  /** What is left when a quiet pass gets through: nothing, but for a workload whose image stream is missing. */
  lemma ThroughMeansDone(p: Platform, w: WebServer, objects: Store)
    requires Usable(p, w) && Quiescent(p, w, objects, Next)
    ensures Work(AgendaOf(p, w), objects) == TargetPart(AgendaOf(p, w), objects)
    ensures TargetPart(AgendaOf(p, w), objects) == 0
            || (w.spec.webImageStream.Some? && !BuildsStream(w) && StreamRef(w) !in objects)
  {
    PlanStepsAreMet(p, w, objects);
    AgendaIsMet(p, w, objects);
    OnlyTargetLeft(AgendaOf(p, w), objects);
    LackingStream(p, w, objects);
  }

  lemma OnlyTargetLeft(a: Agenda, objects: Store)
    requires Unmet(objects, a.steps) == 0 && PodPart(a, objects) == 0 && ConfigPart(a, objects) == 0
            && NoneLeft(a, objects)
    ensures Work(a, objects) == TargetPart(a, objects)
  {
  }

  lemma AgendaIsMet(p: Platform, w: WebServer, objects: Store)
    requires AllMet(objects, MonitorSteps(p, w)) && AllMet(objects, [Ensure(RoutingService(w))])
            && AllMet(objects, DNSSteps(w))
    requires AllMet(objects, SupportSteps(w)) && AllMet(objects, ExposureSteps(p, w)) && AllMet(objects, BuildSteps(w))
    requires AllMet(objects, StreamSteps(w))
    ensures Unmet(objects, AgendaSteps(p, w)) == 0
  {
    MetParts(objects, MonitorSteps(p, w), [Ensure(RoutingService(w))], DNSSteps(w), SupportSteps(w),
             ExposureSteps(p, w), BuildSteps(w), StreamSteps(w));
    AllMetMeansNoneUnmet(objects, AgendaSteps(p, w));
  }

  lemma PlanStepsAreMet(p: Platform, w: WebServer, objects: Store)
    requires Usable(p, w) && PlanStepsMet(objects, PlanOf(p, w))
    ensures AllMet(objects, BuildSteps(w)) && AllMet(objects, StreamSteps(w))
  {
    if w.spec.webImage.Some? {
      ScriptOfBuild(p, w);
      BuildStepsAreMet(w, objects, BuildOf(p, w));
    } else {
      StreamStepsAreMet(p, w, objects);
    }
  }

  lemma ScriptOfBuild(p: Platform, w: WebServer)
    ensures BuildsWebApp(w) && BuildScript(w) != "" ==>
              BuildOf(p, w).Some? && BuildOf(p, w).value.script == Some(BuildMap(w))
  {
  }

  lemma BuildStepsAreMet(w: WebServer, objects: Store, build: Option<BuildGoal>)
    requires build.Some? && build.value.script.Some? ==> Met(objects, Apply(build.value.script.value))
    requires BuildsWebApp(w) && BuildScript(w) != "" ==> build.Some? && build.value.script == Some(BuildMap(w))
    ensures AllMet(objects, BuildSteps(w))
  {
  }

  lemma StreamStepsAreMet(p: Platform, w: WebServer, objects: Store)
    requires w.spec.webImageStream.Some? && PlanStepsMet(objects, StreamPlan(p, w))
    ensures AllMet(objects, StreamSteps(w))
  {
    assert StreamSteps(w) != [] ==> SourcesOf(p, w).value.stream == StreamObject(w);
  }

  lemma LackingStream(p: Platform, w: WebServer, objects: Store)
    requires Usable(p, w)
    ensures LacksStream(objects, PlanOf(p, w)) ==>
              w.spec.webImageStream.Some? && !BuildsStream(w) && StreamRef(w) !in objects
  {
  }

  /** How a quiet pass ends: crashed on a missing builder; given up on an unusable specification; waiting for the
      load balancer or the build pod, or crashed on the workload; or through, with only the pods to wait for. */
  lemma QuietPassesWait(p: Platform, sys: System)
    requires Same(After(p, sys, []), sys)
    ensures var w, flow := SetDefaults(sys.server), Pass(p, sys, []).flow;
            if DefaultsCrash(sys.server) then flow == Return(Empty, Some(Crash))
            else if !Usable(p, w) then flow == Return(Empty, None)
            else !Undecided(w)
                 && (Waits(p, w, sys.objects, flow)
                     || (Quiescent(p, w, sys.objects, Next) && flow == LastWord(TopicOf(sys.objects, w))))
  {
    if DefaultsCrash(sys.server) {
      CrashingPass(p, sys);
    } else {
      var done, w := Done(p, sys), SetDefaults(sys.server);
      PassHalves(p, sys);
      DoneProceeds(p, sys);
      AfterIsDone(p, sys);
      if done.w != w {
        DecisionSettles(p, sys);
        assert false;
      }
      if done.flow.Next? {
        ReportTwiceIsOnce(done.api, w, sys.status, done.hosts);
      }
    }
  }
}
