/** The end of a pass: the pods of the WebServer are listed, and its status is brought up to date. */
module PodReport {
  import opened WebServerApi
  import opened Sorting
  import opened ClusterObjects
  import opened Templates
  import opened ClientApi
  import opened Steps
  import opened Workloads

  function PodRefs(objects: Store, w: WebServer): set<Ref> {
    set r | r in objects && r.kind == PodKind && r.ns == w.ns && Matches(LabelsForWeb(w), objects[r].meta.labels)
  }

  function NameOf(o: Object): string { o.meta.name }

  function ObjectsAt(objects: Store, refs: seq<Ref>): seq<Object>
    requires forall r :: r in refs ==> r in objects
  {
    seq(|refs|, i requires 0 <= i < |refs| => assert refs[i] in refs; objects[refs[i]])
  }

  /** The pods in the order of their names, from the order in which the cache lists them. */
  ghost function ListedPods(objects: Store, refs: seq<Ref>): seq<Object>
    requires forall r :: r in refs ==> r in objects
  {
    SortBy(ObjectsAt(objects, refs), NameOf)
  }

  function StateOf(phase: Phase): PodState {
    match phase
    case Pending => PENDING
    case Running => ACTIVE
    case _ => FAILED
  }

  function StatusOfPod(o: Object): PodStatus {
    if o.body.Pod? then PodStatus(o.meta.name, o.body.ip, StateOf(o.body.phase)) else PodStatus(o.meta.name, "", FAILED)
  }

  function StatusesOf(pods: seq<Object>): seq<PodStatus> {
    seq(|pods|, i requires 0 <= i < |pods| => StatusOfPod(pods[i]))
  }

  /** Some pod has no address yet. */
  predicate Unaddressed(statuses: seq<PodStatus>) {
    exists i :: 0 <= i < |statuses| && statuses[i].ip == ""
  }

  /** Conversion to a 32-bit integer, which wraps around. */
  function Wrap32(x: int): int32 {
    (x + 0x8000_0000) % 0x1_0000_0000 - 0x8000_0000
  }

  /** The pods as the status lists them, whatever order the cache lists them in. */
  ghost function PodsOf(objects: Store, w: WebServer): seq<PodStatus> {
    var refs := Listing(PodRefs(objects, w));
    ListsMembers(refs, PodRefs(objects, w));
    StatusesOf(ListedPods(objects, refs))
  }

  /** `getReplicaStatus`: the replicas observed of the wanted workload, 0 if it cannot be read. */
  function ObservedReplicas(reply: Reply<Object>): int32 {
    if reply.Ok? && reply.value.body.Workload? then reply.value.body.observed else 0
  }

  function Selector(w: WebServer): string { "app.kubernetes.io/name=" + w.name }

  /** Host lists are compared with the stored list as Go compares slices: an empty list that was made is not the
      nil list that is stored in its place. */
  predicate HostsDiffer(hosts: Option<seq<string>>, status: Status) {
    hosts.Some? && (hosts.value == [] || hosts.value != status.hosts)
  }

  /** What the report is about: the pods, the wanted workload, and how many replicas are wanted. */
  datatype Topic = Topic(pods: seq<PodStatus>, target: Ref, replicas: int32, selector: string)

  ghost function TopicOf(objects: Store, w: WebServer): Topic {
    Topic(PodsOf(objects, w), TargetRef(w), w.spec.replicas, Selector(w))
  }

  function NewStatus(of: Topic, status: Status, hosts: Option<seq<string>>, observed: int32): Status {
    Status(observed, of.pods, if hosts.Some? then hosts.value else status.hosts,
           Wrap32(observed - of.replicas), of.selector)
  }

  /** The pass waits while the number of pods is not the wanted one or a pod has no address. */
  function LastWord(of: Topic): Flow {
    if Wrap32(|of.pods|) != of.replicas || Unaddressed(of.pods) then Return(RequeueAfter(500), None)
    else Return(Empty, None)
  }

  datatype Reported = Reported(api: Api, status: Status, flow: Flow)

  /** The pass ends here in any case: done, waiting for pods, or failed. */
  ghost function Report(s: Api, w: WebServer, status: Status, hosts: Option<seq<string>>): Reported {
    var (t, err) := ListCall(s);
    if err.Some? then Reported(t, status, Return(Empty, Some(ApiError(err.value))))
    else ReportOn(t, TopicOf(s.objects, w), status, hosts)
  }

  function ReportOn(s: Api, of: Topic, status: Status, hosts: Option<seq<string>>): Reported {
    var (t, reply) := GetCall(s, of.target);
    var now := NewStatus(of, status, hosts, ObservedReplicas(reply));
    if HostsDiffer(hosts, status) || now.pods != status.pods || now.replicas != status.replicas
       || now.scalingDownPods != status.scalingDownPods
    then WriteStatus(t, status, now, LastWord(of))
    else Reported(t, status, LastWord(of))
  }

  function WriteStatus(s: Api, status: Status, now: Status, last: Flow): Reported {
    var (t, err) := UpdateStatusCall(s, now);
    if err.None? then Reported(t, now, last)
    else Reported(t, status,
                  if err.value == Conflict then Return(Requeue, None) else Return(Empty, Some(ApiError(err.value))))
  }

  /* ---------- the methods ---------- */

  method GetPodStatus(pods: seq<Object>) returns (statuses: seq<PodStatus>, requeue: bool)
    ensures statuses == StatusesOf(pods) && TellsAll(statuses, pods)
    ensures requeue <==> Unaddressed(statuses)
  {
    statuses, requeue := [], false;
    for i := 0 to |pods|
      invariant statuses == StatusesOf(pods)[..i]
      invariant requeue <==> Unaddressed(statuses)
    {
      var pod := StatusOfPod(pods[i]);
      ghost var before := statuses;
      statuses := statuses + [pod];
      if pod.ip == "" { requeue := true; }
      assert statuses[i] == pod;
      assert forall k :: 0 <= k < i ==> statuses[k] == before[k];
    }
  }

  method GetPodList(p: Platform, r: Client, w: WebServer) returns (pods: seq<Object>, err: Option<Err>)
    modifies r`script, r`log
    ensures (r.State(), err) == ListCall(old(r.State()))
    ensures StatusesOf(pods) == if err.Some? then [] else PodsOf(r.objects, w)
  {
    err := r.List();
    if err.Some? { return [], err; }
    var refs := PodRefs(r.objects, w);
    ListsMembers(p.lister(refs), refs);
    pods := SortBy(ObjectsAt(r.objects, p.lister(refs)), NameOf);
    PodOrderIsForgotten(r.objects, refs, p.lister(refs), Listing(refs));
  }

  method ReportStatus(p: Platform, r: Client, w: WebServer, hosts: Option<seq<string>>) returns (flow: Flow)
    modifies r`script, r`log, r`status
    ensures Reported(r.State(), r.status, flow) == Report(old(r.State()), w, old(r.status), hosts)
  {
    var pods, err := GetPodList(p, r, w);
    if err.Some? { return Return(Empty, Some(ApiError(err.value))); }
    flow := ReportPods(r, pods, TargetRef(w), w.spec.replicas, Selector(w), hosts);
  }

  /** The status of a pod, as the resource's users read it. */
  predicate Tells(status: PodStatus, pod: Object) {
    && status.name == pod.meta.name
    && (pod.body.Pod? ==>
          && status.ip == pod.body.ip
          && (status.state == ACTIVE <==> pod.body.phase == Running)
          && (status.state == PENDING <==> pod.body.phase == Pending)
          && (status.state == FAILED <==> pod.body.phase in {Succeeded, Failed, Unknown}))
  }

  predicate TellsAll(statuses: seq<PodStatus>, pods: seq<Object>) {
    |statuses| == |pods| && forall i :: 0 <= i < |pods| ==> Tells(statuses[i], pods[i])
  }

  /** The status tells these pods and hosts and, the replica counts being legal, the exact difference between them. */
  predicate UpToDate(status: Status, pods: seq<Object>, replicas: int32, hosts: Option<seq<string>>) {
    && TellsAll(status.pods, pods) && (hosts.Some? ==> status.hosts == hosts.value)
    && (status.replicas >= 0 && replicas >= 0 ==> status.scalingDownPods == status.replicas - replicas)
  }

  /** The replicas told are those observed of the workload, as it was read, and none if it could not be. */
  ghost predicate Observes(s: Api, t: Api, target: Ref, replicas: int32) {
    exists i :: |s.log| <= i < |t.log|
                && ((t.log[i].Refused? && t.log[i].verb == GET && t.log[i].target == Some(target) && replicas == 0)
                    || (t.log[i].Read? && t.log[i].obj.Id() == target
                        && (t.log[i].obj.body.Workload? ==> replicas == t.log[i].obj.body.observed)))
  }

  lemma ReportIsUpToDate(s: Api, pods: seq<Object>, target: Ref, replicas: int32, selector: string, before: Status,
                         hosts: Option<seq<string>>)
    ensures var of := Topic(StatusesOf(pods), target, replicas, selector);
            var r := ReportOn(s, of, before, hosts);
            r.flow == LastWord(of) ==>
              r.status.pods == of.pods && UpToDate(r.status, pods, replicas, hosts)
              && Observes(s, r.api, target, r.status.replicas)
  {
    var of := Topic(StatusesOf(pods), target, replicas, selector);
    var (t, reply) := GetCall(s, target);
    var now := NewStatus(of, before, hosts, ObservedReplicas(reply));
    assert t.log[|s.log|] == (if reply.Ok? then Read(reply.value) else Refused(GET, Some(target), reply.err));
    WriteStatusLogs(t, before, now, LastWord(of));
  }

  lemma WriteStatusLogs(s: Api, status: Status, now: Status, last: Flow)
    ensures s.log <= WriteStatus(s, status, now, last).api.log
  {
  }

  /** A report that is not cut short leaves the status up to date: for legal replica counts the 32-bit difference
      does not overflow. */
  method ReportPods(r: Client, pods: seq<Object>, target: Ref, replicas: int32, selector: string,
                    hosts: Option<seq<string>>) returns (flow: Flow)
    modifies r`script, r`log, r`status
    ensures Reported(r.State(), r.status, flow)
            == ReportOn(old(r.State()), Topic(StatusesOf(pods), target, replicas, selector), old(r.status), hosts)
    ensures flow == LastWord(Topic(StatusesOf(pods), target, replicas, selector))
            ==> UpToDate(r.status, pods, replicas, hosts)
                && Observes(old(r.State()), r.State(), target, r.status.replicas)
  {
    var requeue := Wrap32(|pods|) != replicas;
    var statuses, unaddressed := GetPodStatus(pods);
    requeue := requeue || unaddressed;
    var reply := r.Get(target);
    var status, update := CompareStatus(r.status, Topic(statuses, target, replicas, selector), hosts,
        ObservedReplicas(reply));
    flow := if requeue then Return(RequeueAfter(500), None) else Return(Empty, None);
    if update {
      flow := StoreStatus(r, status, flow);
    }
    ReportIsUpToDate(old(r.State()), pods, target, replicas, selector, old(r.status), hosts);
  }

  /** The status brought up to date field by field, and whether that changed any. */
  method CompareStatus(before: Status, of: Topic, hosts: Option<seq<string>>, found: int32)
    returns (status: Status, update: bool)
    ensures status == NewStatus(of, before, hosts, found)
    ensures update <==> HostsDiffer(hosts, before) || status.pods != before.pods || status.replicas != before.replicas
                        || status.scalingDownPods != before.scalingDownPods
  {
    update := false;
    status := before.(selector := of.selector);
    if hosts.Some? && (hosts.value == [] || hosts.value != status.hosts) {
      update := true;
      status := status.(hosts := hosts.value);
    }
    if of.pods != status.pods {
      status := status.(pods := of.pods);
      update := true;
    }
    if status.replicas != found {
      status := status.(replicas := found);
      update := true;
    }
    var down := Wrap32(found - of.replicas);
    if status.scalingDownPods != down {
      status := status.(scalingDownPods := down);
      update := true;
    }
  }

  method StoreStatus(r: Client, status: Status, last: Flow) returns (flow: Flow)
    modifies r`script, r`log, r`status
    ensures Reported(r.State(), r.status, flow) == WriteStatus(old(r.State()), old(r.status), status, last)
  {
    var err := r.UpdateStatus(status);
    if err.Some? {
      if err.value == Conflict { return Return(Requeue, None); }
      return Return(Empty, Some(ApiError(err.value)));
    }
    flow := last;
  }

  /* ---------- what the report says ---------- */

  lemma ObjectsAtConcat(objects: Store, a: seq<Ref>, b: seq<Ref>)
    requires forall r :: r in a || r in b ==> r in objects
    ensures forall r :: r in a + b ==> r in objects
    ensures ObjectsAt(objects, a + b) == ObjectsAt(objects, a) + ObjectsAt(objects, b)
  {
  }

  lemma {:induction false} SameRefsSameObjects(objects: Store, a: seq<Ref>, b: seq<Ref>)
    requires multiset(a) == multiset(b)
    requires forall r :: r in a || r in b ==> r in objects
    ensures multiset(ObjectsAt(objects, a)) == multiset(ObjectsAt(objects, b))
    decreases |a|
  {
    assert |a| == |multiset(a)| == |multiset(b)| == |b|;
    if a != [] {
      assert a[0] in multiset(b);
      var i :| 0 <= i < |b| && b[i] == a[0];
      RemoveHead(a, b, i);
      assert a[..0] + a[1..] == a[1..];
      SameRefsSameObjects(objects, a[1..], b[..i] + b[i + 1..]);
      ObjectsSplit(objects, a, 0);
      ObjectsSplit(objects, b, i);
    }
  }

  lemma ObjectsSplit(objects: Store, refs: seq<Ref>, i: nat)
    requires (forall r :: r in refs ==> r in objects) && i < |refs|
    ensures forall r :: r in refs[..i] + refs[i + 1..] ==> r in objects
    ensures multiset(ObjectsAt(objects, refs))
            == multiset{objects[refs[i]]} + multiset(ObjectsAt(objects, refs[..i] + refs[i + 1..]))
  {
    var before, after := refs[..i], refs[i + 1..];
    assert refs == before + ([refs[i]] + after);
    ObjectsAtConcat(objects, before, after);
    ObjectsAtConcat(objects, [refs[i]], after);
    ObjectsAtConcat(objects, before, [refs[i]] + after);
    assert ObjectsAt(objects, [refs[i]]) == [objects[refs[i]]];
  }

  /** Any two listings of the pods give the same status sequence. */
  lemma PodOrderIsForgotten(objects: Store, pods: set<Ref>, a: seq<Ref>, b: seq<Ref>)
    requires forall r :: r in pods ==> r in objects && r.kind == PodKind
    requires forall r, t :: r in pods && t in pods ==> r.ns == t.ns
    requires Lists(a, pods) && Lists(b, pods)
    ensures forall r :: r in a || r in b ==> r in objects
    ensures ListedPods(objects, a) == ListedPods(objects, b)
  {
    ListsMembers(a, pods);
    ListsMembers(b, pods);
    SameRefsSameObjects(objects, a, b);
    var x := ObjectsAt(objects, a);
    forall i, j | 0 <= i < |x| && 0 <= j < |x| && NameOf(x[i]) == NameOf(x[j]) ensures x[i] == x[j] {
      assert a[i] in a && a[j] in a;
      assert x[i].Id() == a[i] && x[j].Id() == a[j];
    }
    SortForgetsOrder(x, ObjectsAt(objects, b), NameOf);
  }

  /** The pods of the resource's namespace that carry all its labels, by name, each once. */
  ghost predicate ListsPods(objects: Store, w: WebServer, pods: seq<Object>) {
    && SortedBy(pods, NameOf) && |pods| == |PodRefs(objects, w)|
    && forall r :: r in objects ==>
         (objects[r] in pods <==> r.kind == PodKind && r.ns == w.ns && Matches(LabelsForWeb(w), objects[r].meta.labels))
  }

  lemma FoundAtRefs(objects: Store, refs: seq<Ref>, r: Ref)
    requires (forall k :: k in refs ==> k in objects) && r in objects
    ensures objects[r] in ObjectsAt(objects, refs) <==> r in refs
  {
    var found := ObjectsAt(objects, refs);
    if r in refs {
      var i :| 0 <= i < |refs| && refs[i] == r;
      assert found[i] == objects[r];
    }
    if objects[r] in found {
      var i :| 0 <= i < |found| && found[i] == objects[r];
      assert refs[i] in refs && objects[refs[i]].Id() == refs[i] == r;
    }
  }

  lemma SortedHasTheSame(found: seq<Object>)
    ensures SortedBy(SortBy(found, NameOf), NameOf) && |SortBy(found, NameOf)| == |found|
    ensures forall o :: o in SortBy(found, NameOf) <==> o in found
  {
    var pods := SortBy(found, NameOf);
    SortByIsSort(found, NameOf);
    assert |pods| == |multiset(pods)| == |multiset(found)| == |found|;
    forall o ensures o in pods <==> o in found { assert o in multiset(pods) <==> o in multiset(found); }
  }

  lemma PodsAreListed(objects: Store, w: WebServer)
    ensures forall r :: r in Listing(PodRefs(objects, w)) ==> r in objects
    ensures ListsPods(objects, w, ListedPods(objects, Listing(PodRefs(objects, w))))
  {
    var refs := Listing(PodRefs(objects, w));
    ListsMembers(refs, PodRefs(objects, w));
    SortedHasTheSame(ObjectsAt(objects, refs));
    forall r | r in objects ensures objects[r] in ObjectsAt(objects, refs) <==> r in PodRefs(objects, w) {
      FoundAtRefs(objects, refs, r);
    }
  }

  /** Cut short by a failure, or by a conflict on writing the status. */
  predicate CutShort(flow: Flow) {
    flow.Next? || flow.failure.Some? || flow.result == Requeue
  }

  /** The report is cut short only by the refusal to write the status, which then stays: a conflict has the pass come
      back at once, any other refusal is its failure. */
  lemma LastWordOrCutShort(s: Api, of: Topic, before: Status, hosts: Option<seq<string>>)
    ensures var r := ReportOn(s, of, before, hosts);
            |r.api.log| > |s.log|
            && var last := r.api.log[|r.api.log| - 1];
               if last.Refused? && last.verb == UPDATE then
                 r.status == before
                 && r.flow == if last.err == Conflict then Return(Requeue, None)
                              else Return(Empty, Some(ApiError(last.err)))
               else r.flow == LastWord(of)
  {
    var (t, reply) := GetCall(s, of.target);
    assert |t.log| == |s.log| + 1 && (t.log[|s.log|].Refused? ==> t.log[|s.log|].verb == GET);
    WriteStatusAnswers(t, before, NewStatus(of, before, hosts, ObservedReplicas(reply)), LastWord(of));
  }

  lemma WriteStatusAnswers(s: Api, status: Status, now: Status, last: Flow)
    ensures var r := WriteStatus(s, status, now, last);
            |r.api.log| == |s.log| + 1
            && match r.api.log[|s.log|]
               case StatusWritten(written) => written == now && r.status == now && r.flow == last
               case Refused(verb, _, err) =>
                 verb == UPDATE && r.status == status
                 && r.flow == if err == Conflict then Return(Requeue, None) else Return(Empty, Some(ApiError(err)))
               case _ => false
  {
  }

  lemma ObservesFrom(s: Api, t: Api, u: Api, target: Ref, replicas: int32)
    requires |s.log| <= |t.log| && Observes(t, u, target, replicas)
    ensures Observes(s, u, target, replicas)
  {
  }

  /** How the pass ends, in terms of the pods. */
  lemma LastWordOnPods(pods: seq<Object>, target: Ref, replicas: int32, selector: string)
    ensures var flow := LastWord(Topic(StatusesOf(pods), target, replicas, selector));
            && flow in {Return(Empty, None), Return(RequeueAfter(500), None)}
            && (flow == Return(RequeueAfter(500), None) <==>
                  Wrap32(|pods|) != replicas || exists i :: 0 <= i < |pods| && StatusesOf(pods)[i].ip == "")
  {
  }

  /** The report told these pods by name, each in the state of its phase, what was observed of the wanted workload,
      and the hosts; and the pass comes back half a second later exactly if their number is not the wanted one or one
      has no address. */
  ghost predicate ReportsOn(s: Api, w: WebServer, r: Reported, hosts: Option<seq<string>>, pods: seq<Object>) {
    && ListsPods(s.objects, w, pods) && UpToDate(r.status, pods, w.spec.replicas, hosts)
    && Observes(s, r.api, TargetRef(w), r.status.replicas)
    && r.flow in {Return(Empty, None), Return(RequeueAfter(500), None)}
    && (r.flow == Return(RequeueAfter(500), None) <==>
          Wrap32(|pods|) != w.spec.replicas || exists i :: 0 <= i < |pods| && r.status.pods[i].ip == "")
  }

  /** Whatever fails, a report that is not cut short leaves a status that tells the resource's pods. */
  lemma ReportTellsThePods(s: Api, w: WebServer, before: Status, hosts: Option<seq<string>>)
    requires !CutShort(Report(s, w, before, hosts).flow)
    ensures exists pods :: ReportsOn(s, w, Report(s, w, before, hosts), hosts, pods)
  {
    PodsAreListed(s.objects, w);
    var pods := ListedPods(s.objects, Listing(PodRefs(s.objects, w)));
    var t := ListCall(s).0;
    assert PodsOf(s.objects, w) == StatusesOf(pods);
    ReportIsUpToDate(t, pods, TargetRef(w), w.spec.replicas, Selector(w), before, hosts);
    LastWordOrCutShort(t, TopicOf(s.objects, w), before, hosts);
    LastWordOnPods(pods, TargetRef(w), w.spec.replicas, Selector(w));
    ObservesFrom(s, t, Report(s, w, before, hosts).api, TargetRef(w), Report(s, w, before, hosts).status.replicas);
    assert ReportsOn(s, w, Report(s, w, before, hosts), hosts, pods);
  }
}
