/** Path independence: what a settled workload looks like depends on the final specification, not on its history. */
module History {
  import opened WebServerApi
  import opened Digest
  import opened ClusterObjects
  import opened Templates
  import opened Generators
  import opened ClientApi
  import opened Steps
  import opened KubePing
  import opened Workloads
  import opened Builds
  import opened Cleanup
  import opened Controller
  import opened Safety
  import opened Progress
  import opened Runs

  /* ---------- any property of workloads that goals keep ---------- */

  ghost predicate AllMade(objects: Store, made: Object -> bool) {
    forall r :: r in objects && IsWorkload(r) ==> made(objects[r])
  }

  /** Creating, regenerating and repairing for the goal make what is wanted. */
  ghost predicate Keeps(g: WorkloadGoal, made: Object -> bool) {
    && IsFor(g, g.created.Id())
    && made(g.created)
    && forall found: Object :: found.Id() == g.created.Id() && found.body.Workload? && made(found) ==>
                         made(Remade(g, found))
  }

  lemma ContinueKeeps(s: Api, g: WorkloadGoal, made: Object -> bool)
    requires AllMade(s.objects, made) && Keeps(g, made) && IsWorkload(g.created.Id())
    ensures AllMade(ContinueWith(s, g).api.objects, made)
  {
    var t, target := ContinueWith(s, g).api.objects, g.created.Id();
    ContinueIsSafe(s, g);
    forall r | r in t && IsWorkload(r) ensures made(t[r]) {
      if r != target {
        assert SameAt(s.objects, t, r);
      } else {
        TargetIsMade(s, g, made);
      }
    }
  }

  lemma TargetIsMade(s: Api, g: WorkloadGoal, made: Object -> bool)
    requires AllMade(s.objects, made) && Keeps(g, made) && IsWorkload(g.created.Id())
    requires g.created.Id() in ContinueWith(s, g).api.objects
    ensures made(ContinueWith(s, g).api.objects[g.created.Id()])
  {
    ContinueMakes(s, g);
    if g.created.Id() in s.objects {
      assert made(s.objects[g.created.Id()]);
    }
  }

  ghost predicate PlanKeeps(plan: Plan, made: Object -> bool) {
    match plan
    case FromImage(_, goal) => Keeps(goal, made)
    case FromStream(_, _, _, goals) => forall image :: Keeps(goals(image), made)
  }

  lemma LeavingKeepsMade(s: Api, t: Api, made: Object -> bool)
    requires LeavesWorkloads(s, t) && AllMade(s.objects, made)
    ensures AllMade(t.objects, made)
  {
  }

  lemma PlanKeepsMade(s: Api, plan: Plan, target: Ref, made: Object -> bool)
    requires Targets(plan, target) && PlanKeeps(plan, made) && AllMade(s.objects, made)
    ensures AllMade(RunPlan(s, plan).api.objects, made)
  {
    if plan.FromImage? {
      ImagePlanKeepsMade(s, plan, target, made);
    } else {
      StreamPlanKeepsMade(s, plan, target, made);
    }
  }

  lemma ImagePlanKeepsMade(s: Api, plan: Plan, target: Ref, made: Object -> bool)
    requires plan.FromImage? && Targets(plan, target) && PlanKeeps(plan, made) && AllMade(s.objects, made)
    ensures AllMade(RunPlan(s, plan).api.objects, made)
  {
    var gate := PodGate(s, plan.build);
    if plan.build.Some? {
      BuildGateIsSafe(s, plan.build.value);
      LeavingKeepsMade(s, gate.api, made);
    }
    if gate.open { ContinueKeeps(gate.api, plan.goal, made); }
  }

  lemma StreamPlanKeepsMade(s: Api, plan: Plan, target: Ref, made: Object -> bool)
    requires plan.FromStream? && Targets(plan, target) && PlanKeeps(plan, made) && AllMade(s.objects, made)
    ensures AllMade(RunPlan(s, plan).api.objects, made)
  {
    var gate := StreamGate(s, plan.sources, plan.config);
    StreamGateIsSafe(s, plan.sources, plan.config);
    LeavingKeepsMade(s, gate.api, made);
    if gate.open {
      ContinueFromKeepsMade(gate.api, plan.stream, plan.goals, target, made);
    }
  }

  lemma ContinueFromKeepsMade(s: Api, stream: Ref, goals: string -> WorkloadGoal, target: Ref, made: Object -> bool)
    requires stream.kind == ImageStreamKind && IsWorkload(target) && AllMade(s.objects, made)
    requires forall image :: goals(image).created.body.Workload?
    requires forall image :: IsFor(goals(image), target) && Keeps(goals(image), made)
    ensures AllMade(ContinueFrom(s, stream, goals).api.objects, made)
  {
    var (t, repository) := ReadStream(s, stream);
    if repository.Some? {
      assert IsFor(goals(repository.value), target);
      ContinueKeeps(t, goals(repository.value), made);
    }
  }

  lemma CleaningKeepsMade(p: Platform, rolled: Out, w: WebServer, made: Object -> bool)
    requires AllMade(rolled.api.objects, made)
    ensures AllMade(CleanAfter(p, rolled, w).api.objects, made)
  {
    if rolled.flow.Next? {
      var t := CheckOwned(p, rolled.api, w).api.objects;
      CleanupRemovesLeftovers(p, rolled.api, w);
      forall r | r in t && IsWorkload(r) ensures made(t[r]) {
        assert SameAt(rolled.api.objects, t, r);
      }
    }
  }

  lemma DeployKeepsMade(p: Platform, s: Api, w: WebServer, made: Object -> bool)
    requires Usable(p, w) && PlanKeeps(PlanOf(p, w), made) && AllMade(s.objects, made)
    ensures AllMade(Deploy(p, s, w).api.objects, made)
  {
    PlanTargets(p, w);
    PlanKeepsMade(s, PlanOf(p, w), TargetRef(w), made);
    CleaningKeepsMade(p, RunPlan(s, PlanOf(p, w)), w, made);
  }

  lemma GrowingKeepsMade(s: Api, t: Api, made: Object -> bool)
    requires Grows(s, t) && AllMade(s.objects, made)
    ensures AllMade(t.objects, made)
  {
  }

  lemma PrepareKeepsMade(p: Platform, s: Api, w: WebServer, made: Object -> bool)
    requires AllMade(s.objects, made)
    requires var front := Front(p, s, w);
             front.flow.Next? && Usable(p, front.w) ==> PlanKeeps(PlanOf(p, front.w), made)
    ensures AllMade(Prepare(p, s, w).api.objects, made)
  {
    var front := Front(p, s, w);
    FrontEffect(p, s, w);
    GrowingKeepsMade(s, front.api, made);
    PrepareIsFrontAndBehind(p, s, w);
    if front.flow.Next? { BehindFrontKeepsMade(p, front.api, front.w, made); }
  }

  lemma BehindFrontKeepsMade(p: Platform, s: Api, w: WebServer, made: Object -> bool)
    requires Usable(p, w) && PlanKeeps(PlanOf(p, w), made) && AllMade(s.objects, made)
    ensures AllMade(BehindFront(p, s, w).api.objects, made)
  {
    var back := Back(p, s, w);
    BackEffect(p, s, w);
    GrowingKeepsMade(s, back.api, made);
    if back.flow.Next? { DeployKeepsMade(p, back.api, w, made); }
  }

  /** The resource a pass makes its workload for, with the decision on clustering; none if it does not get that far. */
  ghost function InHandOf(p: Platform, sys: System, script: Script): set<WebServer> {
    var (t, err) := GetServerCall(Start(sys, script));
    var front := Front(p, t, SetDefaults(sys.server));
    if err.Some? || DefaultsCrash(sys.server) || front.flow.Return? then {} else {front.w}
  }

  lemma PassKeepsMade(p: Platform, sys: System, script: Script, made: Object -> bool)
    requires AllMade(sys.objects, made)
    requires forall w :: w in InHandOf(p, sys, script) && Usable(p, w) ==> PlanKeeps(PlanOf(p, w), made)
    ensures AllMade(After(p, sys, script).objects, made)
  {
    var (t, err) := GetServerCall(Start(sys, script));
    if err.None? && !DefaultsCrash(sys.server) {
      PrepareKeepsMade(p, t, SetDefaults(sys.server), made);
      ConcludingKeepsServer(Prepare(p, t, SetDefaults(sys.server)), sys.status);
    }
  }

  /* ---------- workloads made from goals ---------- */

  /** A workload without annotations, replica count and what is observed of it, all of which others write, and
      perhaps without its image. */
  function Core(o: Object, pinned: bool): Object
    requires o.body.Workload?
  {
    var template := if pinned then o.body.spec.template else o.body.spec.template.(image := "");
    var spec := o.body.spec.(replicas := 0, template := template);
    Object(o.meta.(annotations := map[]), o.body.(spec := spec, observed := 0))
  }

  /** The core without the image, and without the retention policy, which creating and updating a StatefulSet set
      differently. */
  function Plain(o: Object): Object
    requires o.body.Workload?
  {
    var core := Core(o, false);
    if o.body.kind == WorkloadKind.StatefulSet then
      Object(core.meta, core.body.(spec := core.body.spec.(deleteClaims := false)))
    else core
  }

  function ImageOf(o: Object): string
    requires o.body.Workload?
  {
    o.body.spec.template.image
  }

  /** The workload is as the goal makes it, with the goal's image if images are pinned. */
  ghost predicate MadeBy(o: Object, g: WorkloadGoal, pinned: bool) {
    && o.body.Workload? && g.created.body.Workload?
    && DigestOf(o) == g.hash && Plain(o) == Plain(g.created)
    && (pinned ==> ImageOf(o) == ImageOf(g.created))
  }

  /** The creating and the updating generator make the same. */
  ghost predicate Agrees(g: WorkloadGoal) {
    && IsGoal(g)
    && Plain(Object(g.meta, g.created.body.(spec := g.spec))) == Plain(g.created)
  }

  /** A workload of that owner was made by one of those goals; of the workloads of others nothing is said. */
  ghost function MadeByOne(owner: string, pinned: bool, goals: WorkloadGoal -> bool): Object -> bool {
    (o: Object) => o.meta.owner == Some(owner) ==> exists g :: goals(g) && MadeBy(o, g, pinned)
  }

  /** Goals of one digest fix the same image, which only pinned images need. */
  ghost predicate Coherent(goals: WorkloadGoal -> bool, pinned: bool) {
    && (forall g :: goals(g) ==> Agrees(g))
    && (pinned ==> forall g, h :: goals(g) && goals(h) && g.hash == h.hash ==> g.fixedImage == h.fixedImage)
  }

  lemma RegeneratedIsMade(g: WorkloadGoal, found: Object, pinned: bool)
    requires Agrees(g) && found.body.Workload? && found.Id() == g.created.Id()
    ensures MadeBy(Regenerated(g, found), g, pinned)
  {
    assert found.body.kind == g.created.body.kind;
    assert g.created.body.spec.(deleteClaims := false).template == g.spec.(deleteClaims := false).template;
  }

  /** A workload made by a goal of the same digest is at most rescaled, and its image brought back. */
  lemma RepairedIsMade(g: WorkloadGoal, h: WorkloadGoal, found: Object, pinned: bool)
    requires IsGoal(g) && IsGoal(h) && MadeBy(found, h, pinned) && h.hash == g.hash
    requires pinned ==> h.fixedImage == g.fixedImage
    ensures MadeBy(Repaired(g, found), h, pinned)
  {
    assert Stamped(g, found) == found;
    RepairKeepsPlain(g, found);
  }

  lemma RepairKeepsPlain(g: WorkloadGoal, o: Object)
    requires o.body.Workload? && DigestOf(o) != ""
    ensures Plain(Repaired(g, o)) == Plain(o) && DigestOf(Repaired(g, o)) == DigestOf(o)
    ensures !Drifted(g, ImageOf(o)) ==> ImageOf(Repaired(g, o)) == ImageOf(o)
  {
  }

  lemma GoalKeepsMade(g: WorkloadGoal, owner: string, pinned: bool, goals: WorkloadGoal -> bool)
    requires goals(g) && Coherent(goals, pinned)
    ensures Keeps(g, MadeByOne(owner, pinned, goals))
  {
    var made := MadeByOne(owner, pinned, goals);
    assert MadeBy(g.created, g, pinned);
    forall found: Object | found.Id() == g.created.Id() && found.body.Workload? && made(found)
      ensures made(Remade(g, found))
    {
      if DigestOf(found) != "" && DigestOf(found) != g.hash {
        RegeneratedIsMade(g, found, pinned);
      } else if found.meta.owner == Some(owner) {
        var h :| goals(h) && MadeBy(found, h, pinned);
        assert h.hash != "" && h.hash == g.hash;
        RepairedIsMade(g, h, found, pinned);
      }
    }
  }

  /* ---------- the goals of the resources seen ---------- */

  /** The digest tells the specifications seen apart. */
  ghost predicate Separates(p: Platform, seen: set<WebServer>) {
    forall v, w :: v in seen && w in seen && WebServerHash(p.hashing, v) == WebServerHash(p.hashing, w) ==>
                     Unscaled(v) == Unscaled(w)
  }

  ghost function GoalsSeen(p: Platform, seen: set<WebServer>): WorkloadGoal -> bool {
    (g: WorkloadGoal) => exists v, image :: v in seen && ImageFor(v, image) && g == GoalFor(p, v, image)
  }

  lemma CreatedAgreesWithUpdated(kind: WorkloadKind, hash: string, meta: Meta, triggers: Labels, spec: WorkloadSpec,
                                 deleteClaims: bool, fixedImage: Option<string>, fromImage: bool)
    requires !spec.deleteClaims && (deleteClaims ==> kind == WorkloadKind.StatefulSet)
    ensures var g := Goal(kind, hash, meta, triggers, spec, deleteClaims, fixedImage, fromImage);
            Plain(Object(g.meta, g.created.body.(spec := g.spec))) == Plain(g.created)
  {
  }

  lemma GoalAgrees(p: Platform, w: WebServer, image: string)
    requires ImageFor(w, image)
    ensures Agrees(GoalFor(p, w, image))
  {
    GoalsAreSound(p, w, image);
    PartsOfTheGoal(p, w, image);
    CreatedAgreesWithUpdated(WantedKind(w), WebServerHash(p.hashing, w), WorkloadMeta(p, w), TriggersOf(w),
                             SpecOfWorkload(p, w, image), DeletesClaims(w), FixedImage(w), w.spec.webImage.Some?);
  }

  lemma HashOfGoal(p: Platform, w: WebServer, image: string)
    ensures GoalFor(p, w, image).hash == WebServerHash(p.hashing, w) && GoalFor(p, w, image).fixedImage == FixedImage(w)
  {
  }

  lemma UnscaledFixesImage(v: WebServer, w: WebServer)
    requires Unscaled(v) == Unscaled(w)
    ensures FixedImage(v) == FixedImage(w)
  {
  }

  lemma GoalsAreCoherent(p: Platform, seen: set<WebServer>, pinned: bool)
    requires pinned ==> Separates(p, seen)
    ensures Coherent(GoalsSeen(p, seen), pinned)
  {
    var goals := GoalsSeen(p, seen);
    forall g | goals(g) ensures Agrees(g) {
      var v, image :| v in seen && ImageFor(v, image) && g == GoalFor(p, v, image);
      GoalAgrees(p, v, image);
    }
    forall g, h | pinned && goals(g) && goals(h) && g.hash == h.hash ensures g.fixedImage == h.fixedImage {
      var v, i :| v in seen && ImageFor(v, i) && g == GoalFor(p, v, i);
      var w, j :| w in seen && ImageFor(w, j) && h == GoalFor(p, w, j);
      HashOfGoal(p, v, i);
      HashOfGoal(p, w, j);
      UnscaledFixesImage(v, w);
    }
  }

  lemma SeenGoalKeeps(p: Platform, seen: set<WebServer>, w: WebServer, image: string, owner: string, pinned: bool)
    requires (pinned ==> Separates(p, seen)) && w in seen && ImageFor(w, image)
    ensures Keeps(GoalFor(p, w, image), MadeByOne(owner, pinned, GoalsSeen(p, seen)))
  {
    GoalsAreCoherent(p, seen, pinned);
    GoalKeepsMade(GoalFor(p, w, image), owner, pinned, GoalsSeen(p, seen));
  }

  lemma SeenPlanKeeps(p: Platform, seen: set<WebServer>, w: WebServer, owner: string, pinned: bool)
    requires (pinned ==> Separates(p, seen)) && w in seen && Usable(p, w)
    ensures PlanKeeps(PlanOf(p, w), MadeByOne(owner, pinned, GoalsSeen(p, seen)))
  {
    if w.spec.webImage.Some? {
      SeenGoalKeeps(p, seen, w, DeployedImage(w), owner, pinned);
    } else {
      SeenStreamKeeps(p, seen, w, owner, pinned);
    }
  }

  lemma SeenStreamKeeps(p: Platform, seen: set<WebServer>, w: WebServer, owner: string, pinned: bool)
    requires (pinned ==> Separates(p, seen)) && w in seen && w.spec.webImageStream.Some? && w.spec.webImage.None?
    ensures PlanKeeps(StreamPlan(p, w), MadeByOne(owner, pinned, GoalsSeen(p, seen)))
  {
    forall image ensures Keeps(StreamPlan(p, w).goals(image), MadeByOne(owner, pinned, GoalsSeen(p, seen))) {
      SeenGoalKeeps(p, seen, w, image, owner, pinned);
    }
  }

  /* ---------- runs ---------- */

  /** The resources that passes of the run made a workload for, and the one at its end. */
  ghost function Seen(p: Platform, sys: System, actions: seq<Action>): set<WebServer>
    decreases |actions|
  {
    if actions == [] then {SetDefaults(sys.server)}
    else (if actions[0].Reconciling? then InHandOf(p, sys, actions[0].script) else {})
         + Seen(p, Act(p, sys, actions[0]), actions[1..])
  }

  /** Every workload of the owner was made for a specification seen, and carries its digest. */
  ghost predicate MadeFrom(p: Platform, seen: set<WebServer>, owner: string, pinned: bool, objects: Store) {
    AllMade(objects, MadeByOne(owner, pinned, GoalsSeen(p, seen)))
  }

  /** Others make no workload in the owner's name and keep the core of those there are: they may scale, annotate and
      report on them, set their image unless images are pinned, delete them, and do as they like with all others. */
  ghost predicate SparesWorkloads(a: Store, b: Store, owner: string, pinned: bool) {
    forall r :: r in b && IsWorkload(r) && b[r].meta.owner == Some(owner) ==>
                  r in a && a[r].body.Workload? && b[r].body.Workload? && Core(a[r], pinned) == Core(b[r], pinned)
  }

  ghost function SparingWorkloads(owner: string, pinned: bool): (Store, Store) -> bool {
    (a: Store, b: Store) => SparesWorkloads(a, b, owner, pinned)
  }

  lemma SameCoreSamePlain(a: Object, b: Object, pinned: bool)
    requires a.body.Workload? && b.body.Workload? && Core(a, pinned) == Core(b, pinned)
    ensures Plain(a) == Plain(b) && DigestOf(a) == DigestOf(b) && a.meta.owner == b.meta.owner
    ensures pinned ==> ImageOf(a) == ImageOf(b)
  {
    var x, y := Core(a, pinned), Core(b, pinned);
    assert x.meta.labels == a.meta.labels && y.meta.labels == b.meta.labels;
    assert x.meta.owner == a.meta.owner && y.meta.owner == b.meta.owner;
    assert x.body.kind == a.body.kind && y.body.kind == b.body.kind;
    if pinned {
      assert x.body.spec.template == a.body.spec.template && y.body.spec.template == b.body.spec.template;
    }
    assert Core(a, false) == Core(x, false) && Core(b, false) == Core(y, false);
  }

  lemma SparedStaysMade(a: Store, b: Store, owner: string, pinned: bool, goals: WorkloadGoal -> bool)
    requires SparesWorkloads(a, b, owner, pinned) && AllMade(a, MadeByOne(owner, pinned, goals))
    ensures AllMade(b, MadeByOne(owner, pinned, goals))
  {
    forall r | r in b && IsWorkload(r) && b[r].meta.owner == Some(owner) ensures MadeByOne(owner, pinned, goals)(b[r]) {
      SameCoreSamePlain(a[r], b[r], pinned);
      assert MadeByOne(owner, pinned, goals)(a[r]);
      var g :| goals(g) && MadeBy(a[r], g, pinned);
      assert MadeBy(b[r], g, pinned);
    }
  }

  lemma ActKeepsMade(p: Platform, sys: System, action: Action, seen: set<WebServer>, owner: string, pinned: bool)
    requires (pinned ==> Separates(p, seen)) && (action.Reconciling? ==> InHandOf(p, sys, action.script) <= seen)
    requires action.Environment? ==> SparingWorkloads(owner, pinned)(sys.objects, action.objects)
    requires MadeFrom(p, seen, owner, pinned, sys.objects)
    ensures MadeFrom(p, seen, owner, pinned, Act(p, sys, action).objects)
  {
    match action
    case Edit(_, _, _) =>
    case Reconciling(script) =>
      forall w | w in InHandOf(p, sys, script) && Usable(p, w)
        ensures PlanKeeps(PlanOf(p, w), MadeByOne(owner, pinned, GoalsSeen(p, seen)))
      {
        SeenPlanKeeps(p, seen, w, owner, pinned);
      }
      PassKeepsMade(p, sys, script, MadeByOne(owner, pinned, GoalsSeen(p, seen)));
    case Environment(objects) => SparedStaysMade(sys.objects, objects, owner, pinned, GoalsSeen(p, seen));
  }

  /** With the same decision on clustering, where it matters. */
  predicate SameDecision(v: WebServer, w: WebServer) {
    w.spec.useSessionClustering ==> GetUseKUBEPing(v) == GetUseKUBEPing(w)
  }

  /** Passes that made workloads for one specification had decided alike on clustering. */
  ghost predicate Settled(seen: set<WebServer>) {
    forall v, w :: v in seen && w in seen && Unscaled(v) == Unscaled(w) ==> SameDecision(v, w)
  }

  /** Over every interleaving, all workloads of the owner are made for specifications seen. */
  lemma {:induction false} RunsKeepMade(p: Platform, sys: System, actions: seq<Action>, seen: set<WebServer>,
                                        owner: string, pinned: bool)
    requires Moves(p, sys, actions, SparingWorkloads(owner, pinned))
    requires Seen(p, sys, actions) <= seen && (pinned ==> Separates(p, seen))
    requires MadeFrom(p, seen, owner, pinned, sys.objects)
    ensures MadeFrom(p, seen, owner, pinned, Run(p, sys, actions).objects)
    ensures SetDefaults(Run(p, sys, actions).server) in seen
    decreases |actions|
  {
    if actions != [] {
      ActKeepsMade(p, sys, actions[0], seen, owner, pinned);
      RunsKeepMade(p, Act(p, sys, actions[0]), actions[1..], seen, owner, pinned);
    }
  }

  lemma {:induction false} SeenIsOneResource(p: Platform, sys: System, actions: seq<Action>)
    ensures forall v :: v in Seen(p, sys, actions) ==> SameIdentity(v, sys.server)
    decreases |actions|
  {
    if actions != [] {
      ActKeepsIdentity(p, sys, actions[0]);
      SeenIsOneResource(p, Act(p, sys, actions[0]), actions[1..]);
      if actions[0].Reconciling? { InHandIsTheResource(p, sys, actions[0].script); }
    }
  }

  /** What a pass has in hand is the resource, or the resource with the decision it has just made. */
  lemma InHandIsTheResource(p: Platform, sys: System, script: Script)
    ensures forall v :: v in InHandOf(p, sys, script) ==>
              var w := SetDefaults(sys.server);
              && SameIdentity(v, sys.server)
              && (v == w || (Undecided(w) && v in {Annotated(w, true), Annotated(w, false)}))
  {
    FrontEffect(p, GetServerCall(Start(sys, script)).0, SetDefaults(sys.server));
  }

  /** Without session clustering all is settled; so it is with an annotation that was set and left alone; and so it is
      when the first pass sets the annotation and that is left alone. */
  lemma SettledFromTheStart(p: Platform, sys: System, actions: seq<Action>)
    requires (forall w :: w in Seen(p, sys, actions) ==> !w.spec.useSessionClustering)
             || (!NeedUseKUBEPing(sys.server) && KeepsDecision(actions, Annotation(sys.server, KUBEPING)))
             || (actions != [] && actions[0].Reconciling?
                 && var v := Act(p, sys, actions[0]).server;
                    !NeedUseKUBEPing(v) && KeepsDecision(actions[1..], Annotation(v, KUBEPING)))
    ensures Settled(Seen(p, sys, actions))
  {
    if !NeedUseKUBEPing(sys.server) && KeepsDecision(actions, Annotation(sys.server, KUBEPING)) {
      SeenKeepsDecision(p, sys, actions);
    } else if exists w :: w in Seen(p, sys, actions) && w.spec.useSessionClustering {
      FirstPassDecides(p, sys, actions[0].script);
      SeenKeepsDecision(p, Act(p, sys, actions[0]), actions[1..]);
    }
  }

  /** Where the resource carries the annotation after a pass, it is what the pass had in hand. */
  lemma FirstPassDecides(p: Platform, sys: System, script: Script)
    requires !NeedUseKUBEPing(After(p, sys, script).server)
    ensures forall v :: v in InHandOf(p, sys, script) ==>
                          Annotation(v, KUBEPING) == Annotation(After(p, sys, script).server, KUBEPING)
  {
    var (t, err) := GetServerCall(Start(sys, script));
    var w := SetDefaults(sys.server);
    if InHandOf(p, sys, script) != {} {
      var front := Front(p, t, w);
      FrontEffect(p, t, w);
      PrepareIsFrontAndBehind(p, t, w);
      BehindFrontKeepsServer(p, front.api, front.w);
      ConcludingKeepsServer(Prepare(p, t, w), sys.status);
    }
  }

  lemma {:induction false} SeenKeepsDecision(p: Platform, sys: System, actions: seq<Action>)
    requires !NeedUseKUBEPing(sys.server) && KeepsDecision(actions, Annotation(sys.server, KUBEPING))
    ensures forall w :: w in Seen(p, sys, actions) ==> Annotation(w, KUBEPING) == Annotation(sys.server, KUBEPING)
    decreases |actions|
  {
    if actions != [] {
      ActKeepsDecision(p, sys, actions[0]);
      SeenKeepsDecision(p, Act(p, sys, actions[0]), actions[1..]);
      if actions[0].Reconciling? { InHandIsTheResource(p, sys, actions[0].script); }
    }
  }

  lemma FirstVariable(p: Platform, w: WebServer)
    ensures EnvVars(p, w) != [] && EnvVars(p, w)[0].value == OperatorEnv(w)[0].value
  {
    EnvKeepsUserVariables(p, w);
  }

  /** The decision is no part of the digest, but of the template: so this cannot be dropped. */
  lemma DigestForgetsDecision(p: Platform, w: WebServer, image: string)
    requires w.spec.useSessionClustering && w.ns != "webserver-" + w.name
    ensures WebServerHash(p.hashing, Annotated(w, true)) == WebServerHash(p.hashing, Annotated(w, false))
    ensures Template(p, Annotated(w, true), image).env != Template(p, Annotated(w, false), image).env
  {
    HashOfUnscaled(p.hashing, Annotated(w, true), Annotated(w, false));
    FirstVariable(p, Annotated(w, true));
    FirstVariable(p, Annotated(w, false));
    assert OperatorEnv(Annotated(w, true))[0].value == w.ns;
  }

  /* ---------- the template depends on no replica count ---------- */

  /** The same resource but for its replica count and its annotations, with the same decision on clustering. */
  predicate Rescaled(v: WebServer, w: WebServer) {
    SameButScale(v, w) && SameDecision(v, w)
  }

  lemma UnscaledIsRescaled(v: WebServer, w: WebServer)
    requires Unscaled(v) == Unscaled(w) && SameIdentity(v, w) && SameDecision(v, w)
    ensures Rescaled(v, w)
  {
  }

  lemma SameLabels(p: Platform, v: WebServer, w: WebServer)
    requires Rescaled(v, w)
    ensures TemplateLabels(p, v) == TemplateLabels(p, w) && SelectorLabels(v) == SelectorLabels(w)
    ensures WebServerHash(p.hashing, v) == WebServerHash(p.hashing, w)
  {
    HashOfUnscaled(p.hashing, v, w);
    SameSelectors(v, w);
  }

  lemma SameSelectors(v: WebServer, w: WebServer)
    requires Rescaled(v, w)
    ensures SelectorLabels(v) == SelectorLabels(w) && LabelsForWeb(v) == LabelsForWeb(w)
  {
    SameParts(v, w);
    SameFields(v, w);
  }

  lemma SameEnv(p: Platform, v: WebServer, w: WebServer)
    requires Rescaled(v, w)
    ensures EnvVars(p, v) == EnvVars(p, w)
  {
  }

  lemma SameParts(v: WebServer, w: WebServer)
    requires Rescaled(v, w)
    ensures HasReadiness(v) == HasReadiness(w) && HasLiveness(v) == HasLiveness(w) && PullSecrets(v) == PullSecrets(w)
            && WantedKind(v) == WantedKind(w) && DeletesClaims(v) == DeletesClaims(w) && FixedImage(v) == FixedImage(w)
  {
  }

  lemma SameFields(v: WebServer, w: WebServer)
    requires Rescaled(v, w)
    ensures v.spec.applicationName == w.spec.applicationName && v.spec.podResources == w.spec.podResources
            && v.spec.securityContext == w.spec.securityContext && v.spec.isNotJWS == w.spec.isNotJWS
            && v.spec.webImage == w.spec.webImage && v.spec.webImageStream == w.spec.webImageStream
            && v.uid == w.uid && v.ns == w.ns && v.name == w.name && v.labels == w.labels
  {
  }

  lemma SameTemplate(p: Platform, v: WebServer, w: WebServer, image: string)
    requires Rescaled(v, w)
    ensures Template(p, v, image) == Template(p, w, image)
  {
    SameLabels(p, v, w);
    SameEnv(p, v, w);
    SameMounts(v, w);
    SameParts(v, w);
    SameFields(v, w);
  }

  lemma SpecsOfSameTemplate(a: int32, b: int32, selector: Labels, template: PodTemplate, claims: seq<ClaimTemplate>)
    ensures WorkloadSpec(a, selector, template, claims, false).(replicas := 0)
            == WorkloadSpec(b, selector, template, claims, false).(replicas := 0)
  {
  }

  lemma SameSpec(p: Platform, v: WebServer, w: WebServer, image: string)
    requires Rescaled(v, w)
    ensures SpecOfWorkload(p, v, image).(replicas := 0) == SpecOfWorkload(p, w, image).(replicas := 0)
  {
    SameTemplate(p, v, w, image);
    SameLabels(p, v, w);
    SameUserMounts(v, w);
    SameParts(v, w);
    SpecsOfSameTemplate(v.spec.replicas, w.spec.replicas, SelectorLabels(w), Template(p, w, image),
                        if WantedKind(w) == WorkloadKind.Deployment then [] else ClaimTemplates(w));
  }

  lemma SameMeta(p: Platform, v: WebServer, w: WebServer)
    requires Rescaled(v, w)
    ensures WorkloadMeta(p, v) == WorkloadMeta(p, w)
  {
  }

  lemma SameTriggers(v: WebServer, w: WebServer)
    requires Rescaled(v, w)
    ensures TriggersOf(v) == TriggersOf(w)
  {
  }

  lemma PlainGoal(kind: WorkloadKind, hash: string, meta: Meta, triggers: Labels, a: WorkloadSpec, b: WorkloadSpec,
                  deleteClaims: bool, fixedImage: Option<string>, fromImage: bool)
    requires a.(replicas := 0) == b.(replicas := 0)
    ensures Plain(Goal(kind, hash, meta, triggers, a, deleteClaims, fixedImage, fromImage).created)
            == Plain(Goal(kind, hash, meta, triggers, b, deleteClaims, fixedImage, fromImage).created)
  {
    assert a.(replicas := 0).template == b.(replicas := 0).template;
  }

  lemma SamePlainGoal(p: Platform, v: WebServer, w: WebServer, image: string)
    requires Rescaled(v, w)
    ensures Plain(GoalFor(p, v, image).created) == Plain(GoalFor(p, w, image).created)
  {
    SameSpec(p, v, w, image);
    SameLabels(p, v, w);
    SameMeta(p, v, w);
    SameTriggers(v, w);
    SameParts(v, w);
    PlainGoal(WantedKind(w), WebServerHash(p.hashing, w), WorkloadMeta(p, w), TriggersOf(w),
              SpecOfWorkload(p, v, image), SpecOfWorkload(p, w, image), DeletesClaims(w), FixedImage(w),
              w.spec.webImage.Some?);
  }

  /* ---------- path independence ---------- */

  /** The resource owns no workload yet; others may own any. */
  ghost predicate Fresh(sys: System) {
    forall r :: r in sys.objects && IsWorkload(r) ==> sys.objects[r].meta.owner != Some(sys.server.uid)
  }

  /** The workload is what would be created for the resource now, for the image it runs, up to what others may write
      and what creation and update of a StatefulSet do differently; and if images are pinned, it runs the image it
      should. */
  ghost predicate LooksLike(p: Platform, w: WebServer, o: Object, pinned: bool) {
    && o.body.Workload? && Plain(o) == Plain(GoalFor(p, w, ImageOf(o)).created)
    && (pinned ==> ImageFor(w, ImageOf(o)))
  }

  lemma GoalImage(p: Platform, w: WebServer, image: string)
    ensures GoalFor(p, w, image).created.body.spec.template == Template(p, w, image)
    ensures ImageOf(GoalFor(p, w, image).created) == image
  {
  }

  /** Goals for two images make the same workload but for the image. */
  lemma PlainForgetsImage(p: Platform, w: WebServer, i: string, j: string)
    ensures Plain(GoalFor(p, w, i).created) == Plain(GoalFor(p, w, j).created)
  {
    var a, b := SpecOfWorkload(p, w, i), SpecOfWorkload(p, w, j);
    TemplateForgetsImage(p, w, i, j);
    assert a.(template := a.template.(image := "")) == b.(template := b.template.(image := ""));
    PlainOfSpecs(WantedKind(w), WebServerHash(p.hashing, w), WorkloadMeta(p, w), TriggersOf(w), a, b, DeletesClaims(w),
                 FixedImage(w), w.spec.webImage.Some?);
  }

  lemma TemplateForgetsImage(p: Platform, w: WebServer, i: string, j: string)
    ensures Template(p, w, i).(image := "") == Template(p, w, j).(image := "")
  {
  }

  lemma PlainOfSpecs(kind: WorkloadKind, hash: string, meta: Meta, triggers: Labels, a: WorkloadSpec, b: WorkloadSpec,
                     deleteClaims: bool, fixedImage: Option<string>, fromImage: bool)
    requires a.(template := a.template.(image := "")) == b.(template := b.template.(image := ""))
    ensures Plain(Goal(kind, hash, meta, triggers, a, deleteClaims, fixedImage, fromImage).created)
            == Plain(Goal(kind, hash, meta, triggers, b, deleteClaims, fixedImage, fromImage).created)
  {
    var x, y := a.(template := a.template.(image := "")), b.(template := b.template.(image := ""));
    assert x.template == a.template.(image := "") && y.template == b.template.(image := "");
    assert x.selector == a.selector && y.selector == b.selector && x.claims == a.claims && y.claims == b.claims;
  }

  lemma RescaledLooksLike(p: Platform, v: WebServer, w: WebServer, image: string, o: Object, pinned: bool)
    requires Rescaled(v, w) && ImageFor(v, image) && MadeBy(o, GoalFor(p, v, image), pinned)
    ensures LooksLike(p, w, o, pinned)
  {
    SamePlainGoal(p, v, w, image);
    PlainForgetsImage(p, w, image, ImageOf(o));
    GoalImage(p, v, image);
    SameFields(v, w);
    assert ImageFor(w, image);
  }

  lemma SameHashIsRescaled(p: Platform, seen: set<WebServer>, v: WebServer, w: WebServer)
    requires Separates(p, seen) && Settled(seen) && v in seen && w in seen && SameIdentity(v, w)
    requires WebServerHash(p.hashing, v) == WebServerHash(p.hashing, w)
    ensures Rescaled(v, w)
  {
    UnscaledIsRescaled(v, w);
  }

  lemma MadeLooksLike(p: Platform, seen: set<WebServer>, w: WebServer, o: Object, pinned: bool)
    requires Separates(p, seen) && Settled(seen) && w in seen && forall v :: v in seen ==> SameIdentity(v, w)
    requires MadeByOne(w.uid, pinned, GoalsSeen(p, seen))(o) && o.meta.owner == Some(w.uid)
    requires DigestOf(o) == WebServerHash(p.hashing, w)
    ensures LooksLike(p, w, o, pinned)
  {
    var g :| GoalsSeen(p, seen)(g) && MadeBy(o, g, pinned);
    var v, image :| v in seen && ImageFor(v, image) && g == GoalFor(p, v, image);
    HashOfGoal(p, v, image);
    SameHashIsRescaled(p, seen, v, w);
    RescaledLooksLike(p, v, w, image, o, pinned);
  }

  /** A run from the resource's first day, on which others keep the core of its workloads, its decision on clustering
      is settled, and digests tell the specifications on the way apart. */
  ghost predicate Arrives(p: Platform, start: System, actions: seq<Action>, end: System, pinned: bool) {
    && Fresh(start) && Moves(p, start, actions, SparingWorkloads(start.server.uid, pinned))
    && Settled(Seen(p, start, actions)) && Separates(p, Seen(p, start, actions))
    && end == Run(p, start, actions)
  }

  /** Over every interleaving of edits, passes and moves of the environment, under any API answers: an owned workload
      that carries the digest of the current specification is the one that would be created for that specification,
      whatever specifications came before. */
  lemma CurrentDigestMeansCurrentTemplate(p: Platform, start: System, actions: seq<Action>, end: System, r: Ref,
                                          pinned: bool)
    requires Arrives(p, start, actions, end, pinned)
    requires r in end.objects && IsWorkload(r) && end.objects[r].meta.owner == Some(end.server.uid)
    requires DigestOf(end.objects[r]) == WebServerHash(p.hashing, SetDefaults(end.server))
    ensures LooksLike(p, SetDefaults(end.server), end.objects[r], pinned)
  {
    var seen := Seen(p, start, actions);
    RunsKeepMade(p, start, actions, seen, start.server.uid, pinned);
    SeenIsOneResource(p, start, actions);
    MadeLooksLike(p, seen, SetDefaults(end.server), end.objects[r], pinned);
  }

  lemma PlainTemplate(o: Object, c: Object)
    requires o.body.Workload? && c.body.Workload? && Plain(o) == Plain(c)
    ensures o.body.kind == c.body.kind
    ensures o.body.spec.template.(image := "") == c.body.spec.template.(image := "")
    ensures o.body.spec.selector == c.body.spec.selector && o.body.spec.claims == c.body.spec.claims
    ensures o.meta.labels == c.meta.labels && o.meta.owner == c.meta.owner
    ensures o.body.kind == WorkloadKind.Deployment ==> o.body.spec.deleteClaims == c.body.spec.deleteClaims
  {
    var x, y := Plain(o), Plain(c);
    assert x.body.spec.template == o.body.spec.template.(image := "");
    assert y.body.spec.template == c.body.spec.template.(image := "");
  }

  lemma SameImageSameTemplate(a: PodTemplate, b: PodTemplate)
    requires a.(image := "") == b.(image := "") && a.image == b.image
    ensures a == b
  {
    assert a == a.(image := "").(image := a.image) && b == b.(image := "").(image := b.image);
  }

  /** So its pods are those of the current specification: exactly the template generated for the image they run, which
      is the specified one if images are pinned. */
  lemma LooksLikeMeansTemplate(p: Platform, w: WebServer, o: Object, pinned: bool)
    requires LooksLike(p, w, o, pinned)
    ensures o.body.spec.template == Template(p, w, ImageOf(o))
    ensures pinned && w.spec.webImage.Some? ==> o.body.spec.template == Template(p, w, DeployedImage(w))
  {
    PlainTemplate(o, GoalFor(p, w, ImageOf(o)).created);
    GoalImage(p, w, ImageOf(o));
    SameImageSameTemplate(o.body.spec.template, Template(p, w, ImageOf(o)));
  }

  /** A workload without annotations and what is observed of it. */
  function Lasting(o: Object): Object
    requires o.body.Workload?
  {
    Object(o.meta.(annotations := map[]), o.body.(observed := 0))
  }

  lemma DeploymentsAlike(a: Object, b: Object)
    requires a.body.Workload? && b.body.Workload? && Plain(a) == Plain(b) && a.body.kind == WorkloadKind.Deployment
    requires a.body.spec.replicas == b.body.spec.replicas && ImageOf(a) == ImageOf(b)
    requires a.Id() == b.Id()
    ensures Lasting(a) == Lasting(b)
  {
    PlainTemplate(a, b);
    SameImageSameTemplate(a.body.spec.template, b.body.spec.template);
  }

  /** The wanted workload, if there is one, is the resource's own. */
  predicate OwnsTarget(w: WebServer, objects: Store) {
    TargetRef(w) in objects ==> objects[TargetRef(w)].meta.owner == Some(w.uid)
  }

  /** The image is settled by the specification: repaired if it drifts, or specified and pinned. */
  predicate SettlesImage(w: WebServer, pinned: bool) {
    FixedImage(w).Some? || (w.spec.webImage.Some? && pinned)
  }

  /** The same workload but for the retention policy of a StatefulSet, and but for the image unless it is settled. */
  predicate Alike(a: Object, b: Object, settled: bool) {
    && a.body.Workload? && b.body.Workload?
    && Plain(a) == Plain(b) && a.body.spec.replicas == b.body.spec.replicas
    && (settled ==> ImageOf(a) == ImageOf(b) && (a.body.kind == WorkloadKind.Deployment ==> Lasting(a) == Lasting(b)))
  }

  /** The two stores hold the same wanted workload: the same Deployment if the image is settled, and otherwise the
      same up to the image; and the same StatefulSet but for its retention policy. */
  ghost predicate AgreeOn(w: WebServer, x: Store, y: Store, pinned: bool) {
    TargetRef(w) in x && TargetRef(w) in y && Alike(x[TargetRef(w)], y[TargetRef(w)], SettlesImage(w, pinned))
  }

  /** Where the wanted workload is in order at the end of a run, it looks like the one wanted. */
  lemma OrderMeansLooks(p: Platform, start: System, actions: seq<Action>, end: System, pinned: bool)
    requires Arrives(p, start, actions, end, pinned)
    requires TargetPart(AgendaOf(p, SetDefaults(end.server)), end.objects) == 0
    requires OwnsTarget(SetDefaults(end.server), end.objects)
    ensures var w := SetDefaults(end.server);
            && TargetRef(w) in end.objects && LooksLike(p, w, end.objects[TargetRef(w)], pinned)
            && end.objects[TargetRef(w)].body.spec.replicas == w.spec.replicas
            && (FixedImage(w).Some? ==> ImageOf(end.objects[TargetRef(w)]) == FixedImage(w).value)
  {
    CurrentDigestMeansCurrentTemplate(p, start, actions, end, TargetRef(SetDefaults(end.server)), pinned);
  }

  lemma BothLookAlike(p: Platform, w: WebServer, a: Object, b: Object, pinned: bool)
    requires LooksLike(p, w, a, pinned) && LooksLike(p, w, b, pinned)
    ensures Plain(a) == Plain(b)
    ensures pinned && w.spec.webImage.Some? ==> ImageOf(a) == ImageOf(b)
  {
    PlainForgetsImage(p, w, ImageOf(a), ImageOf(b));
  }

  lemma SameLooksAlike(a: Object, b: Object, settled: bool)
    requires a.body.Workload? && b.body.Workload? && a.Id() == b.Id()
    requires Plain(a) == Plain(b) && a.body.spec.replicas == b.body.spec.replicas
    requires settled ==> ImageOf(a) == ImageOf(b)
    ensures Alike(a, b, settled)
  {
    if a.body.kind == WorkloadKind.Deployment && settled { DeploymentsAlike(a, b); }
  }

  /** Path independence: two runs that end in the same resource, each with its own wanted workload in order, end in
      the same workload, whatever the edits, failures, interruptions and drift on the way. */
  lemma HistoryIsForgotten(p: Platform, x: System, xs: seq<Action>, a: System, y: System, ys: seq<Action>, b: System,
                           pinned: bool)
    requires Arrives(p, x, xs, a, pinned) && Arrives(p, y, ys, b, pinned) && a.server == b.server
    requires var w := SetDefaults(a.server);
             && TargetPart(AgendaOf(p, w), a.objects) == 0 && TargetPart(AgendaOf(p, w), b.objects) == 0
             && OwnsTarget(w, a.objects) && OwnsTarget(w, b.objects)
    ensures AgreeOn(SetDefaults(a.server), a.objects, b.objects, pinned)
  {
    var w := SetDefaults(a.server);
    OrderMeansLooks(p, x, xs, a, pinned);
    OrderMeansLooks(p, y, ys, b, pinned);
    var o, q := a.objects[TargetRef(w)], b.objects[TargetRef(w)];
    BothLookAlike(p, w, o, q, pinned);
    SameLooksAlike(o, q, SettlesImage(w, pinned));
  }

  /** Passes have become quiet and get through to their report. */
  ghost predicate Quiet(p: Platform, sys: System) {
    Same(After(p, sys, []), sys) && !DefaultsCrash(sys.server) && Done(p, sys).flow.Next?
  }

  /** The image stream to deploy from is missing, the one case in which a quiet pass has no workload in order. */
  predicate StreamMissing(w: WebServer, objects: Store) {
    w.spec.webImageStream.Some? && !BuildsStream(w) && StreamRef(w) !in objects
  }

  lemma QuietIsQuiescent(p: Platform, sys: System)
    requires Quiet(p, sys)
    ensures var w := SetDefaults(sys.server); Usable(p, w) && Quiescent(p, w, sys.objects, Next)
  {
    var done, w := Done(p, sys), SetDefaults(sys.server);
    DoneProceeds(p, sys);
    AfterIsDone(p, sys);
    if done.w != w {
      DecisionSettles(p, sys);
      assert false;
    }
    PrepareIsFrontAndBehind(p, GetServerCall(Start(sys, [])).0, w);
  }

  /** Where passes have become quiet and get through to their report, the wanted workload is in order. */
  lemma QuietMeansInOrder(p: Platform, sys: System)
    requires Quiet(p, sys) && !StreamMissing(SetDefaults(sys.server), sys.objects)
    ensures TargetPart(AgendaOf(p, SetDefaults(sys.server)), sys.objects) == 0
  {
    QuietIsQuiescent(p, sys);
    ThroughMeansDone(p, SetDefaults(sys.server), sys.objects);
  }

  /** The quiescent workload depends on the final resource alone. */
  lemma QuietRunsAgree(p: Platform, x: System, xs: seq<Action>, a: System, y: System, ys: seq<Action>, b: System,
                       pinned: bool)
    requires Arrives(p, x, xs, a, pinned) && Arrives(p, y, ys, b, pinned) && a.server == b.server
    requires Quiet(p, a) && !StreamMissing(SetDefaults(a.server), a.objects)
    requires Quiet(p, b) && !StreamMissing(SetDefaults(b.server), b.objects)
    requires OwnsTarget(SetDefaults(a.server), a.objects) && OwnsTarget(SetDefaults(b.server), b.objects)
    ensures AgreeOn(SetDefaults(a.server), a.objects, b.objects, pinned)
  {
    QuietMeansInOrder(p, a);
    QuietMeansInOrder(p, b);
    HistoryIsForgotten(p, x, xs, a, y, ys, b, pinned);
  }

  /** The one thing a settled StatefulSet remembers: created, it deletes its claims if that is wanted; regenerated,
      it is settled as well, and never does. */
  lemma RetentionDependsOnHistory(p: Platform, s: Api, w: WebServer)
    requires s.script == [] && w.spec.webImage.Some? && WantedKind(w) == WorkloadKind.StatefulSet
    requires TargetRef(w) in s.objects ==>
               DigestOf(s.objects[TargetRef(w)]) != ""
                   && DigestOf(s.objects[TargetRef(w)]) != WebServerHash(p.hashing, w)
    ensures var g := GoalFor(p, w, DeployedImage(w));
            var t := ContinueWith(s, g).api;
            && TargetRef(w) in t.objects && Stable(g, t.objects[TargetRef(w)])
            && t.objects[TargetRef(w)].body.spec.deleteClaims == (TargetRef(w) !in s.objects && DeletesClaims(w))
  {
    var g, r := GoalFor(p, w, DeployedImage(w)), TargetRef(w);
    GoalsAreSound(p, w, DeployedImage(w));
    RetentionOfGoal(p, w, DeployedImage(w));
    if r in s.objects { assert s.objects[r].Id() == r; }
    RetentionOfContinue(s, g);
  }

  lemma RetentionOfGoal(p: Platform, w: WebServer, image: string)
    ensures GoalFor(p, w, image).created.body.spec.deleteClaims == DeletesClaims(w)
    ensures !GoalFor(p, w, image).spec.deleteClaims
  {
  }

  lemma RetentionOfContinue(s: Api, g: WorkloadGoal)
    requires s.script == [] && IsGoal(g)
    requires g.created.Id() in s.objects ==>
               DigestOf(s.objects[g.created.Id()]) != "" && DigestOf(s.objects[g.created.Id()]) != g.hash
    ensures var t, r := ContinueWith(s, g).api.objects, g.created.Id();
            && r in t && Stable(g, t[r])
            && t[r].body.spec.deleteClaims
               == if r in s.objects then g.spec.deleteClaims else g.created.body.spec.deleteClaims
  {
    FaithfulContinue(s, g);
    CrashIsStill(s, g);
    if g.created.Id() in s.objects { OverwritingDropsRetention(s, g, s.objects[g.created.Id()]); }
  }

  lemma OverwritingDropsRetention(s: Api, g: WorkloadGoal, found: Object)
    requires s.script == [] && IsGoal(g) && found.Id() == g.created.Id() && found.body.Workload?
    requires g.created.Id() in s.objects && s.objects[g.created.Id()] == found
    requires DigestOf(found) != "" && DigestOf(found) != g.hash
    ensures ContinueWith(s, g).api.objects == s.objects[found.Id() := Regenerated(g, found)]
  {
    StableNeedsNoRepairId(g, found);
  }
}
