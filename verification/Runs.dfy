/** Runs: any interleaving of user edits, passes with any API answers, and moves of the environment. */
module Runs {
  import opened WebServerApi
  import opened ClusterObjects
  import opened ClientApi
  import opened Steps
  import opened KubePing
  import opened Workloads
  import opened Builds
  import opened Cleanup
  import opened Controller
  import opened Safety
  import opened Files
  import opened Progress
  import opened ExplicitBuilds

  /** A user edits the resource, the operator makes a pass, or others change the cluster as they like. */
  datatype Action =
    | Edit(spec: Spec, labels: Labels, annotations: Labels)
    | Reconciling(script: Script)
    | Environment(objects: Store)

  ghost function Act(p: Platform, sys: System, action: Action): System {
    match action
    case Edit(spec, labels, annotations) =>
      sys.(server := sys.server.(spec := spec, labels := labels, annotations := annotations))
    case Reconciling(script) => After(p, sys, script)
    case Environment(objects) => sys.(objects := objects)
  }

  ghost function Run(p: Platform, sys: System, actions: seq<Action>): System
    decreases |actions|
  {
    if actions == [] then sys else Run(p, Act(p, sys, actions[0]), actions[1..])
  }

  /** What others do during the run is of a certain kind. */
  ghost predicate Moves(p: Platform, sys: System, actions: seq<Action>, kind: (Store, Store) -> bool)
    decreases |actions|
  {
    actions != [] ==>
      && (actions[0].Environment? ==> kind(sys.objects, actions[0].objects))
      && Moves(p, Act(p, sys, actions[0]), actions[1..], kind)
  }

  /* ---------- the resource along a run ---------- */

  lemma DeployKeepsServer(p: Platform, s: Api, w: WebServer)
    requires Usable(p, w)
    ensures Deploy(p, s, w).api.server == s.server
  {
    PlanTargets(p, w);
    PlanIsSafe(s, PlanOf(p, w), TargetRef(w));
    CleaningKeepsServer(p, RunPlan(s, PlanOf(p, w)), w);
  }

  lemma CleaningKeepsServer(p: Platform, rolled: Out, w: WebServer)
    ensures CleanAfter(p, rolled, w).api.server == rolled.api.server
  {
    if rolled.flow.Next? { CleanupRemovesLeftovers(p, rolled.api, w); }
  }

  /** Whatever the API answers, all a pass does to the resource is to record an open decision. */
  ghost predicate RecordsOnly(w: WebServer, before: Option<WebServer>, after: Option<WebServer>) {
    after == before || (Undecided(w) && after in {Some(Annotated(w, true)), Some(Annotated(w, false))})
  }

  lemma BehindFrontKeepsServer(p: Platform, s: Api, w: WebServer)
    requires Usable(p, w)
    ensures BehindFront(p, s, w).api.server == s.server
  {
    BackEffect(p, s, w);
    if Back(p, s, w).flow.Next? { DeployKeepsServer(p, Back(p, s, w).api, w); }
  }

  lemma PrepareRecordsOnly(p: Platform, s: Api, w: WebServer)
    ensures RecordsOnly(w, s.server, Prepare(p, s, w).api.server)
  {
    var front := Front(p, s, w);
    FrontEffect(p, s, w);
    PrepareIsFrontAndBehind(p, s, w);
    if front.flow.Next? { BehindFrontKeepsServer(p, front.api, front.w); }
  }

  lemma ConcludingKeepsServer(done: Prepared, status: Status)
    ensures Conclude(done, status).api.server == done.api.server
            && Conclude(done, status).api.objects == done.api.objects
  {
    if done.flow.Next? { ReportGrows(done.api, done.w, status, done.hosts); }
  }

  lemma PassRecordsOnly(p: Platform, sys: System, script: Script)
    ensures RecordsOnly(SetDefaults(sys.server), Some(sys.server), Pass(p, sys, script).api.server)
  {
    var t := GetServerCall(Start(sys, script)).0;
    PrepareRecordsOnly(p, t, SetDefaults(sys.server));
    ConcludingKeepsServer(Prepare(p, t, SetDefaults(sys.server)), sys.status);
  }

  predicate SameIdentity(v: WebServer, w: WebServer) {
    v.name == w.name && v.ns == w.ns && v.uid == w.uid
  }

  lemma PassKeepsIdentity(p: Platform, sys: System, script: Script)
    ensures SameIdentity(After(p, sys, script).server, sys.server)
  {
    PassRecordsOnly(p, sys, script);
    RecordingKeepsIdentity(sys.server, Pass(p, sys, script).api.server);
  }

  lemma RecordingKeepsIdentity(before: WebServer, after: Option<WebServer>)
    requires RecordsOnly(SetDefaults(before), Some(before), after)
    ensures after.Some? && SameIdentity(after.value, before)
  {
  }

  lemma ActKeepsIdentity(p: Platform, sys: System, action: Action)
    ensures SameIdentity(Act(p, sys, action).server, sys.server)
  {
    if action.Reconciling? { PassKeepsIdentity(p, sys, action.script); }
  }

  /** No edit of the run changes that decision. */
  predicate KeepsDecision(actions: seq<Action>, decision: string) {
    forall i :: 0 <= i < |actions| && actions[i].Edit? ==> LabelOf(actions[i].annotations, KUBEPING) == decision
  }

  /** The decision on clustering is sticky: once the annotation is set, no pass changes it, whatever fails, and
      nothing that others do; only an edit of that annotation can. */
  lemma {:induction false} DecisionStays(p: Platform, sys: System, actions: seq<Action>)
    requires !NeedUseKUBEPing(sys.server) && KeepsDecision(actions, Annotation(sys.server, KUBEPING))
    ensures Annotation(Run(p, sys, actions).server, KUBEPING) == Annotation(sys.server, KUBEPING)
    ensures SameIdentity(Run(p, sys, actions).server, sys.server)
    decreases |actions|
  {
    if actions != [] {
      ActKeepsDecision(p, sys, actions[0]);
      DecisionStays(p, Act(p, sys, actions[0]), actions[1..]);
    }
  }

  lemma ActKeepsDecision(p: Platform, sys: System, action: Action)
    requires !NeedUseKUBEPing(sys.server)
    requires action.Edit? ==> LabelOf(action.annotations, KUBEPING) == Annotation(sys.server, KUBEPING)
    ensures Annotation(Act(p, sys, action).server, KUBEPING) == Annotation(sys.server, KUBEPING)
    ensures SameIdentity(Act(p, sys, action).server, sys.server)
  {
    if action.Reconciling? { PassRecordsOnly(p, sys, action.script); }
  }

  /* ---------- no dangling references ---------- */

  /** The owned workloads that mount a ConfigMap or a claim of the operator's that is missing or incomplete. */
  ghost function DanglingNow(sys: System): set<Ref> {
    Dangling(sys.objects, sys.server.ns, sys.server.uid, RequiredKeys(sys.server))
  }

  lemma SameIdentitySameDangling(objects: Store, v: WebServer, w: WebServer)
    requires SameIdentity(v, w)
    ensures Dangling(objects, v.ns, v.uid, RequiredKeys(v)) == Dangling(objects, w.ns, w.uid, RequiredKeys(w))
  {
    assert RequiredKeys(v) == RequiredKeys(w);
  }

  /** What others have made dangle, by taking a file away that is mounted or by putting a workload in its place. */
  ghost function Blamed(p: Platform, sys: System, actions: seq<Action>): set<Ref>
    decreases |actions|
  {
    if actions == [] then {}
    else
      var next := Act(p, sys, actions[0]);
      (if actions[0].Environment? then DanglingNow(next) - DanglingNow(sys) else {}) + Blamed(p, next, actions[1..])
  }

  lemma ActLeavesMounted(p: Platform, sys: System, action: Action)
    requires !action.Environment?
    ensures DanglingNow(Act(p, sys, action)) <= DanglingNow(sys)
  {
    ActKeepsIdentity(p, sys, action);
    SameIdentitySameDangling(Act(p, sys, action).objects, Act(p, sys, action).server, sys.server);
    if action.Reconciling? { PassAddsNoDangling(p, Start(sys, action.script), sys.status); }
  }

  /** In every run, whatever fails and whatever others do, no owned workload dangles that did not at the start and
      that others have not made dangle: neither a pass nor an edit ever does. */
  lemma {:induction false} OnlyOthersMakeDangle(p: Platform, sys: System, actions: seq<Action>)
    ensures DanglingNow(Run(p, sys, actions)) <= DanglingNow(sys) + Blamed(p, sys, actions)
    decreases |actions|
  {
    if actions != [] {
      var next := Act(p, sys, actions[0]);
      if !actions[0].Environment? { ActLeavesMounted(p, sys, actions[0]); }
      OnlyOthersMakeDangle(p, next, actions[1..]);
    }
  }

  /** Others take no file away that is mounted, make no workloads in the owner's name and leave those there are with
      their volumes; they may delete, scale, annotate or relabel them, and do as they like with everything else. */
  ghost predicate SparesMounts(a: Store, b: Store, ns: string, owner: string, keys: map<string, string>) {
    && KeepsFiles(a, b, ns, keys)
    && forall r :: r in b && IsWorkload(r) && b[r].meta.owner == Some(owner) ==> KeptMounts(a, b, r)
  }

  ghost function SparingMounts(w: WebServer): (Store, Store) -> bool {
    (a: Store, b: Store) => SparesMounts(a, b, w.ns, w.uid, RequiredKeys(w))
  }

  lemma SparedStaysMounted(a: Store, b: Store, ns: string, owner: string, keys: map<string, string>)
    requires SparesMounts(a, b, ns, owner, keys)
    ensures Dangling(b, ns, owner, keys) <= Dangling(a, ns, owner, keys)
  {
    forall r | r in Dangling(b, ns, owner, keys) ensures r in Dangling(a, ns, owner, keys) {
      assert KeptMounts(a, b, r);
      if AllResolved(a, ns, keys, a[r].body.spec.template.volumes) {
        KeptFilesStayResolved(a, b, ns, keys, a[r].body.spec.template.volumes);
      }
    }
  }

  lemma {:induction false} SparedBlamesNone(p: Platform, sys: System, actions: seq<Action>, w: WebServer)
    requires SameIdentity(sys.server, w) && Moves(p, sys, actions, SparingMounts(w))
    ensures Blamed(p, sys, actions) == {}
    decreases |actions|
  {
    if actions != [] {
      var next := Act(p, sys, actions[0]);
      ActKeepsIdentity(p, sys, actions[0]);
      SparedBlamesNone(p, next, actions[1..], w);
      if actions[0].Environment? {
        SparedStaysMounted(sys.objects, next.objects, w.ns, w.uid, RequiredKeys(w));
        SameIdentitySameDangling(sys.objects, sys.server, w);
        SameIdentitySameDangling(next.objects, next.server, w);
      }
    }
  }

  /** So as long as others spare what is mounted, no run reaches a state in which an owned workload dangles. */
  lemma RunsNeverDangle(p: Platform, sys: System, actions: seq<Action>, w: WebServer)
    requires DanglingNow(sys) == {} && SameIdentity(sys.server, w) && Moves(p, sys, actions, SparingMounts(w))
    ensures DanglingNow(Run(p, sys, actions)) == {}
  {
    SparedBlamesNone(p, sys, actions, w);
    OnlyOthersMakeDangle(p, sys, actions);
  }

  /* ---------- explicit builds ---------- */

  predicate Faithful(actions: seq<Action>) {
    forall i :: 0 <= i < |actions| && actions[i].Reconciling? ==> actions[i].script == []
  }

  lemma LogsJoin(a: seq<Event>, b: seq<Event>)
    requires BuildsFollowChanges(a) && BuildsFollowChanges(b)
    ensures BuildsFollowChanges(a + b)
    ensures ChangesAreBuilt(a) && ChangesAreBuilt(b) ==> ChangesAreBuilt(a + b)
  {
  }

  lemma ActFollows(p: Platform, sys: System, action: Action)
    requires BuildsFollowChanges(sys.log)
    ensures BuildsFollowChanges(Act(p, sys, action).log)
    ensures ChangesAreBuilt(sys.log) && (action.Reconciling? ==> action.script == []) ==>
              ChangesAreBuilt(Act(p, sys, action).log)
  {
    if action.Reconciling? {
      PassFollows(p, sys, action.script);
      LogsJoin(sys.log, Pass(p, sys, action.script).api.log);
    }
  }

  lemma {:induction false} RunFollows(p: Platform, sys: System, actions: seq<Action>)
    requires BuildsFollowChanges(sys.log)
    ensures BuildsFollowChanges(Run(p, sys, actions).log)
    ensures ChangesAreBuilt(sys.log) && Faithful(actions) ==> ChangesAreBuilt(Run(p, sys, actions).log)
    decreases |actions|
  {
    if actions != [] {
      ActFollows(p, sys, actions[0]);
      RunFollows(p, Act(p, sys, actions[0]), actions[1..]);
    }
  }

  /** In every run the builds started explicitly are at most as many as the changes of the source digest written,
      and exactly as many if no call fails. */
  lemma BuildsAreAtMostOnce(p: Platform, sys: System, actions: seq<Action>)
    requires sys.log == []
    ensures var log := Run(p, sys, actions).log;
            && CountBuilds(log) <= CountChanges(log)
            && (Faithful(actions) ==> CountBuilds(log) == CountChanges(log))
  {
    RunFollows(p, sys, actions);
    var log := Run(p, sys, actions).log;
    BuildsNeverExceedChanges(log);
    if Faithful(actions) {
      BuildsMatchChanges(log);
    }
  }
}
