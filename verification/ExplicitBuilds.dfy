/** Builds are started only for a changed source digest, and for each such change when no call fails. */
module ExplicitBuilds {
  import opened WebServerApi
  import opened ClusterObjects
  import opened Templates
  import opened ClientApi
  import opened Steps
  import opened Workloads
  import opened Builds
  import opened Cleanup
  import opened PodReport
  import opened Controller
  import opened Safety
  import opened Progress

  /** In the new part of the log every build follows its change; and if `exact`, every change is followed by its
      build. */
  ghost predicate Follows(s: Api, t: Api, exact: bool) {
    && s.log <= t.log
    && (forall i :: |s.log| <= i < |t.log| && t.log[i].Instantiated? ==>
                      i > |s.log| && IsSourceChange(t.log[i - 1]) && t.log[i - 1].obj.Id() == t.log[i].ref)
    && (exact ==> forall i :: |s.log| <= i < |t.log| && IsSourceChange(t.log[i]) ==>
                                i + 1 < |t.log| && t.log[i + 1] == Instantiated(t.log[i].obj.Id()))
  }

  lemma FollowsTransitive(s: Api, t: Api, u: Api, exact: bool)
    requires Follows(s, t, exact) && Follows(t, u, exact)
    ensures Follows(s, u, exact)
  {
  }

  /** An event that neither changes a source digest nor starts a build. */
  predicate IsPlain(e: Event) {
    !e.Instantiated? && !IsSourceChange(e)
  }

  lemma PlainFollows(s: Api, t: Api, exact: bool)
    requires s.log <= t.log && forall i :: |s.log| <= i < |t.log| ==> IsPlain(t.log[i])
    ensures Follows(s, t, exact)
  {
  }

  lemma SupportFollows(s: Api, t: Api, exact: bool)
    requires Grows(s, t)
    ensures Follows(s, t, exact)
  {
  }

  lemma PodGateFollows(s: Api, build: Option<BuildGoal>, exact: bool)
    requires build.Some? ==> build.value.pod.body.Pod?
                             && (build.value.script.Some? ==> !IsCore(build.value.script.value.Id()))
    ensures Follows(s, PodGate(s, build).api, exact)
  {
    if build.Some? {
      var b := build.value;
      var applied := if b.script.Some? then ApplyObject(s, b.script.value) else Out(s, Next);
      if b.script.Some? {
        StepGrows(s, Apply(b.script.value));
        SupportFollows(s, applied.api, exact);
      }
      if applied.flow.Next? {
        PodEventsFollow(applied.api, b.pod, exact);
        FollowsTransitive(s, applied.api, GatePod(applied.api, b.pod).api, exact);
      }
    }
  }

  lemma PodEventsFollow(s: Api, pod: Object, exact: bool)
    requires pod.body.Pod?
    ensures Follows(s, GatePod(s, pod).api, exact)
  {
    PodGateIsSafe(s, pod);
    var t := GatePod(s, pod).api;
    forall i | |s.log| <= i < |t.log| ensures IsPlain(t.log[i]) { assert IsPodEvent(t.log[i]); }
    PlainFollows(s, t, exact);
  }

  lemma GetFollows(s: Api, ref: Ref, exact: bool)
    ensures Follows(s, GetCall(s, ref).0, exact)
  {
  }

  lemma CreateFollows(s: Api, obj: Object, exact: bool)
    ensures Follows(s, CreateCall(s, obj).0, exact)
  {
  }

  /** The one place where a source digest changes. */
  lemma UpdateChanges(s: Api, build: Object)
    requires build.Id().kind == BuildConfigKind && build.Id() in s.objects
    requires LabelOf(s.objects[build.Id()].meta.labels, SOURCE_HASH) != LabelOf(build.meta.labels, SOURCE_HASH)
    ensures var (u, err) := UpdateCall(s, build);
            && (err.Some? ==> Follows(s, u, true))
            && (err.None? ==>
                  |u.log| == |s.log| + 1 && s.log <= u.log && IsSourceChange(u.log[|s.log|])
                  && u.log[|s.log|].obj.Id() == build.Id() && build.Id() in u.objects)
            && (s.script == [] ==> err.None? && u.script == [])
  {
  }

  /** The build is started at once, and only a failure of that call leaves the change without it. */
  lemma InstantiateFollows(s: Api, u: Api, ref: Ref)
    requires |u.log| == |s.log| + 1 && s.log <= u.log && IsSourceChange(u.log[|s.log|])
            && u.log[|s.log|].obj.Id() == ref
    requires ref in u.objects
    ensures Follows(s, InstantiateCall(u, ref).0, u.script == [])
  {
    var n, t := |s.log|, InstantiateCall(u, ref).0;
    assert t.log[n] == u.log[n] && |t.log| == n + 2;
    assert t.log[n + 1] == Instantiated(ref) || (t.log[n + 1].Refused? && u.script != []);
  }

  lemma UpdateBuildFollows(s: Api, build: Object)
    requires build.Id().kind == BuildConfigKind
    ensures Follows(s, UpdateBuild(s, build).api, s.script == [])
  {
    var (t, reply) := GetCall(s, build.Id());
    GetFollows(s, build.Id(), s.script == []);
    if reply == Fail(NotFound) {
      CreateFollows(t, build, s.script == []);
      FollowsTransitive(s, t, CreateCall(t, build).0, s.script == []);
    } else if reply.Ok? && LabelOf(reply.value.meta.labels, SOURCE_HASH) != LabelOf(build.meta.labels, SOURCE_HASH) {
      ChangeFollows(t, build);
      FollowsTransitive(s, t, UpdateBuild(s, build).api, s.script == []);
    }
  }

  /** The update and the build that follows it. */
  lemma ChangeFollows(s: Api, build: Object)
    requires build.Id().kind == BuildConfigKind && build.Id() in s.objects
    requires LabelOf(s.objects[build.Id()].meta.labels, SOURCE_HASH) != LabelOf(build.meta.labels, SOURCE_HASH)
    ensures var (u, err) := UpdateCall(s, build);
            Follows(s, if err.Some? then u else InstantiateCall(u, build.Id()).0, s.script == [])
  {
    var (u, err) := UpdateCall(s, build);
    UpdateChanges(s, build);
    if err.None? { InstantiateFollows(s, u, build.Id()); }
  }

  lemma PrepareBuildFollows(s: Api, stream: Object, build: Object)
    requires !IsCore(stream.Id()) && build.Id().kind == BuildConfigKind
    ensures Follows(s, PrepareBuild(s, stream, build).api, s.script == [])
  {
    var e := EnsureObject(s, stream);
    StepGrows(s, Ensure(stream));
    SupportFollows(s, e.api, s.script == []);
    if e.flow.Next? {
      var t := GetCall(e.api, stream.Id()).0;
      GetFollows(e.api, stream.Id(), s.script == []);
      FollowsTransitive(s, e.api, t, s.script == []);
      UpdateBuildFollows(t, build);
      ReadsKeepFaith(s, stream);
      FollowsTransitive(s, t, UpdateBuild(t, build).api, s.script == []);
    }
  }

  lemma ReadsKeepFaith(s: Api, obj: Object)
    ensures s.script == [] ==> GetCall(EnsureObject(s, obj).api, obj.Id()).0.script == []
  {
  }

  lemma DropBuildFollows(s: Api, ref: Ref, exact: bool)
    ensures Follows(s, DropBuild(s, ref), exact)
  {
    var t := GetCall(s, ref).0;
    GetFollows(s, ref, exact);
    PlainFollows(t, DeleteCall(t, ref).0, exact);
    FollowsTransitive(s, t, DeleteCall(t, ref).0, exact);
  }

  lemma ContinueFollows(s: Api, g: WorkloadGoal, exact: bool)
    requires IsFor(g, g.created.Id()) && IsWorkload(g.created.Id())
    ensures Follows(s, ContinueWith(s, g).api, exact)
  {
    ContinueIsSafe(s, g);
    PlainFollows(s, ContinueWith(s, g).api, exact);
  }

  lemma CleaningFollows(s: Api, t: Out, leftovers: set<Ref>, exact: bool)
    requires Cleans(s, t, leftovers)
    ensures Follows(s, t.api, exact)
  {
  }

  lemma ImagePlanFollows(s: Api, plan: Plan, target: Ref)
    requires plan.FromImage? && Targets(plan, target)
    ensures Follows(s, RunPlan(s, plan).api, s.script == [])
  {
    var gate := PodGate(s, plan.build);
    PodGateFollows(s, plan.build, s.script == []);
    if gate.open {
      ContinueFollows(gate.api, plan.goal, s.script == []);
      FollowsTransitive(s, gate.api, ContinueWith(gate.api, plan.goal).api, s.script == []);
    }
  }

  lemma StreamPlanFollows(s: Api, plan: Plan, target: Ref)
    requires plan.FromStream? && Targets(plan, target)
    ensures Follows(s, RunPlan(s, plan).api, s.script == [])
  {
    var gate := StreamGate(s, plan.sources, plan.config);
    if plan.sources.Some? {
      PrepareBuildFollows(s, plan.sources.value.stream, plan.sources.value.build);
    } else {
      DropBuildFollows(s, plan.config, s.script == []);
    }
    if gate.open {
      var (t, repository) := ReadStream(gate.api, plan.stream);
      GetFollows(gate.api, plan.stream, s.script == []);
      FollowsTransitive(s, gate.api, t, s.script == []);
      if repository.Some? {
        ContinueFollows(t, plan.goals(repository.value), s.script == []);
        FollowsTransitive(s, t, ContinueWith(t, plan.goals(repository.value)).api, s.script == []);
      }
    }
  }

  lemma CleanAfterFollows(p: Platform, s: Api, rolled: Out, w: WebServer, exact: bool)
    requires Follows(s, rolled.api, exact)
    ensures Follows(s, CleanAfter(p, rolled, w).api, exact)
  {
    if rolled.flow.Next? {
      CleanupRemovesLeftovers(p, rolled.api, w);
      CleaningFollows(rolled.api, CheckOwned(p, rolled.api, w), Leftovers(rolled.api.objects, w), exact);
      FollowsTransitive(s, rolled.api, CheckOwned(p, rolled.api, w).api, exact);
    }
  }

  lemma DeployFollows(p: Platform, s: Api, w: WebServer)
    requires Usable(p, w)
    ensures Follows(s, Deploy(p, s, w).api, s.script == [])
  {
    var plan := PlanOf(p, w);
    PlanTargets(p, w);
    if plan.FromImage? { ImagePlanFollows(s, plan, TargetRef(w)); } else { StreamPlanFollows(s, plan, TargetRef(w)); }
    CleanAfterFollows(p, s, RunPlan(s, plan), w, s.script == []);
  }

  lemma BackFollows(p: Platform, s: Api, w: WebServer)
    ensures Follows(s, Back(p, s, w).api, s.script == [])
    ensures s.script == [] ==> Back(p, s, w).api.script == []
  {
    BackEffect(p, s, w);
    SupportFollows(s, Back(p, s, w).api, s.script == []);
    if s.script == [] { FaithfulBack(p, s, w); }
  }

  lemma BehindFrontFollows(p: Platform, s: Api, w: WebServer)
    requires Usable(p, w)
    ensures Follows(s, BehindFront(p, s, w).api, s.script == [])
  {
    var back := Back(p, s, w);
    BackFollows(p, s, w);
    if back.flow.Next? {
      DeployFollows(p, back.api, w);
      FollowsTransitive(s, back.api, Deploy(p, back.api, w).api, s.script == []);
    }
  }

  lemma FaithfulBack(p: Platform, s: Api, w: WebServer)
    requires s.script == []
    ensures Back(p, s, w).api.script == []
  {
    AgendaIsSound(p, w);
    PartsAreAmong(p, w);
    BackProceeds(p, AgendaOf(p, w), s, w);
  }

  lemma FaithfulFront(p: Platform, s: Api, w: WebServer)
    requires s.script == [] && s.server.Some?
    ensures Front(p, s, w).api.script == []
  {
    FrontProceeds(p, s, w);
  }

  lemma PrepareFollows(p: Platform, s: Api, w: WebServer)
    requires s.server.Some?
    ensures Follows(s, Prepare(p, s, w).api, s.script == [])
  {
    var front := Front(p, s, w);
    FrontEffect(p, s, w);
    SupportFollows(s, front.api, s.script == []);
    PrepareIsFrontAndBehind(p, s, w);
    if front.flow.Next? {
      if s.script == [] { FaithfulFront(p, s, w); }
      BehindFrontFollows(p, front.api, front.w);
      FollowsTransitive(s, front.api, BehindFront(p, front.api, front.w).api, s.script == []);
    }
  }

  lemma ConcludingFollows(s: Api, done: Prepared, status: Status, exact: bool)
    requires Follows(s, done.api, exact)
    ensures Follows(s, Conclude(done, status).api, exact)
  {
    if done.flow.Next? {
      var r := Report(done.api, done.w, status, done.hosts);
      ReportGrows(done.api, done.w, status, done.hosts);
      SupportFollows(done.api, r.api, exact);
      FollowsTransitive(s, done.api, r.api, exact);
    }
  }

  lemma ReadThenPrepareFollows(p: Platform, s: Api, w: WebServer)
    requires s.server.Some?
    ensures Follows(s, GetServerCall(s).0, s.script == [])
    ensures Follows(s, Prepare(p, GetServerCall(s).0, w).api, s.script == [])
  {
    var t := GetServerCall(s).0;
    GetServerGrows(s);
    SupportFollows(s, t, s.script == []);
    PrepareFollows(p, t, w);
    assert Follows(t, Prepare(p, t, w).api, s.script == []);
    FollowsTransitive(s, t, Prepare(p, t, w).api, s.script == []);
  }

  lemma ReconcileFollows(p: Platform, s: Api, status: Status)
    requires s.server.Some?
    ensures Follows(s, ReconcileSpec(p, s, status).api, s.script == [])
  {
    var w := SetDefaults(s.server.value);
    ReadThenPrepareFollows(p, s, w);
    ConcludingFollows(s, Prepare(p, GetServerCall(s).0, w), status, s.script == []);
  }

  /** In the log of every pass each build follows at once on a change of its source digest; in a failure-free pass
      each change is followed by its build. */
  lemma PassFollows(p: Platform, sys: System, script: Script)
    ensures var log := Pass(p, sys, script).api.log;
            BuildsFollowChanges(log) && (script == [] ==> ChangesAreBuilt(log))
  {
    ReconcileFollows(p, Start(sys, script), sys.status);
  }

  /** Every change of a source digest is followed by its build. */
  ghost predicate ChangesAreBuilt(log: seq<Event>) {
    forall i :: 0 <= i < |log| && IsSourceChange(log[i]) ==>
                  i + 1 < |log| && log[i + 1] == Instantiated(log[i].obj.Id())
  }

  /** Up to a change that ends the log, builds and changes are as many. */
  lemma {:induction false} BuildsMatchChanges(log: seq<Event>)
    requires BuildsFollowChanges(log)
    requires forall i :: 0 <= i < |log| - 1 && IsSourceChange(log[i]) ==> log[i + 1] == Instantiated(log[i].obj.Id())
    ensures CountChanges(log) == CountBuilds(log) + if log != [] && IsSourceChange(log[|log| - 1]) then 1 else 0
  {
    if log != [] {
      BuildsMatchChanges(log[..|log| - 1]);
    }
  }
}
