/** `checkOwnedObjects`: the owned workloads of the other kind, or of another name, are deleted. */
module Cleanup {
  import opened WebServerApi
  import opened Sorting
  import opened ClusterObjects
  import opened ClientApi
  import opened Steps
  import opened Workloads

  function OwnedRefs(objects: Store, w: WebServer, kind: WorkloadKind): set<Ref> {
    set r | r in objects && r.kind == KindOf(kind) && r.ns == w.ns && objects[r].meta.owner == Some(w.uid)
  }

  function OtherKind(w: WebServer): WorkloadKind {
    if WantedKind(w) == WorkloadKind.StatefulSet then WorkloadKind.Deployment else WorkloadKind.StatefulSet
  }

  function NamedOtherwise(refs: seq<Ref>, name: string): seq<Ref> {
    if refs == [] then []
    else (if refs[0].name != name then [refs[0]] else []) + NamedOtherwise(refs[1..], name)
  }

  function DeleteAll(s: Api, refs: seq<Ref>): Out
    decreases |refs|
  {
    if refs == [] then Out(s, Next)
    else
      var (t, err) := DeleteCall(s, refs[0]);
      if err.Some? then Out(t, Return(Empty, Some(ApiError(err.value)))) else DeleteAll(t, refs[1..])
  }

  /** What the cleanup lists for deletion: first the owned workloads of the other kind, then those of another name. */
  function Unwanted(p: Platform, objects: Store, w: WebServer): seq<Ref> {
    p.lister(OwnedRefs(objects, w, OtherKind(w)))
    + NamedOtherwise(p.lister(OwnedRefs(objects, w, WantedKind(w))), w.spec.applicationName)
  }

  function CheckListed(s: Api, refs: seq<Ref>): Out {
    var (t, err1) := ListCall(s);
    if err1.Some? then Out(t, Return(Empty, Some(ApiError(err1.value))))
    else
      var (u, err2) := ListCall(t);
      if err2.Some? then Out(u, Return(Empty, Some(ApiError(err2.value)))) else DeleteAll(u, refs)
  }

  function CheckOwned(p: Platform, s: Api, w: WebServer): Out {
    CheckListed(s, Unwanted(p, s.objects, w))
  }

  method DeleteEach(r: Client, refs: seq<Ref>) returns (flow: Flow)
    modifies r`objects, r`script, r`log
    ensures Out(r.State(), flow) == DeleteAll(old(r.State()), refs)
  {
    for i := 0 to |refs|
      invariant DeleteAll(old(r.State()), refs) == DeleteAll(r.State(), refs[i..])
    {
      var err := r.Delete(refs[i]);
      if err.Some? { return Return(Empty, Some(ApiError(err.value))); }
      assert refs[i..][1..] == refs[i + 1..];
    }
    flow := Next;
  }

  method DeleteEachNamedOtherwise(r: Client, refs: seq<Ref>, name: string) returns (flow: Flow)
    modifies r`objects, r`script, r`log
    ensures Out(r.State(), flow) == DeleteAll(old(r.State()), NamedOtherwise(refs, name))
  {
    for i := 0 to |refs|
      invariant DeleteAll(old(r.State()), NamedOtherwise(refs, name))
             == DeleteAll(r.State(), NamedOtherwise(refs[i..], name))
    {
      assert refs[i..][1..] == refs[i + 1..];
      ghost var left := NamedOtherwise(refs[i..], name);
      if refs[i].name != name {
        assert left[0] == refs[i] && left[1..] == NamedOtherwise(refs[i + 1..], name);
        var err := r.Delete(refs[i]);
        if err.Some? { return Return(Empty, Some(ApiError(err.value))); }
      } else {
        assert left == NamedOtherwise(refs[i + 1..], name);
      }
    }
    flow := Next;
  }

  method CheckOwnedObjects(p: Platform, r: Client, w: WebServer) returns (flow: Flow)
    modifies r`objects, r`script, r`log
    ensures Out(r.State(), flow) == CheckOwned(p, old(r.State()), w)
  {
    var err := r.List();
    if err.Some? { return Return(Empty, Some(ApiError(err.value))); }
    var deployments := p.lister(OwnedRefs(r.objects, w, WorkloadKind.Deployment));
    err := r.List();
    if err.Some? { return Return(Empty, Some(ApiError(err.value))); }
    var statefulSets := p.lister(OwnedRefs(r.objects, w, WorkloadKind.StatefulSet));
    if w.spec.volume.Some? && |w.spec.volume.value.claimTemplates| > 0 {
      DeleteAllAppend(r.State(), deployments, NamedOtherwise(statefulSets, w.spec.applicationName));
      flow := DeleteEach(r, deployments);
      if flow.Return? { return; }
      flow := DeleteEachNamedOtherwise(r, statefulSets, w.spec.applicationName);
    } else {
      DeleteAllAppend(r.State(), statefulSets, NamedOtherwise(deployments, w.spec.applicationName));
      flow := DeleteEach(r, statefulSets);
      if flow.Return? { return; }
      flow := DeleteEachNamedOtherwise(r, deployments, w.spec.applicationName);
    }
  }

  lemma {:induction false} DeleteAllAppend(s: Api, a: seq<Ref>, b: seq<Ref>)
    ensures DeleteAll(s, a + b) ==
            if DeleteAll(s, a).flow.Return? then DeleteAll(s, a) else DeleteAll(DeleteAll(s, a).api, b)
    decreases |a|
  {
    if a == [] {
      assert a + b == b;
    } else {
      assert (a + b)[1..] == a[1..] + b;
      DeleteAllAppend(DeleteCall(s, a[0]).0, a[1..], b);
    }
  }

  /* ---------- what the cleanup removes ---------- */

  /** The workloads of an owner in a namespace other than the one wanted. */
  function OthersOf(objects: Store, ns: string, owner: string, target: Ref): set<Ref> {
    set r | r in objects && IsWorkload(r) && r.ns == ns && objects[r].meta.owner == Some(owner) && r != target
  }

  function Leftovers(objects: Store, w: WebServer): set<Ref> {
    OthersOf(objects, w.ns, w.uid, TargetRef(w))
  }

  lemma {:induction false} NamedOtherwiseMembers(refs: seq<Ref>, name: string)
    ensures forall r :: r in NamedOtherwise(refs, name) <==> r in refs && r.name != name
    ensures AllDistinct(refs) ==> AllDistinct(NamedOtherwise(refs, name))
  {
    if refs != [] {
      var rest, kept := refs[1..], NamedOtherwise(refs[1..], name);
      NamedOtherwiseMembers(rest, name);
      assert refs == [refs[0]] + rest;
      if AllDistinct(refs) {
        forall i, j | 0 <= i < j < |rest| ensures rest[i] != rest[j] {
          assert refs[i + 1] == rest[i] && refs[j + 1] == rest[j];
        }
        forall j | 0 <= j < |kept| ensures kept[j] != refs[0] {
          assert kept[j] in kept && kept[j] in rest;
        }
        assert NamedOtherwise(refs, name) == if refs[0].name != name then [refs[0]] + kept else kept;
      }
    }
  }

  /** What is listed for deletion is exactly what is left over, each object once. */
  lemma ListedIsLeftovers(p: Platform, objects: Store, w: WebServer)
    ensures forall r :: r in Unwanted(p, objects, w) <==> r in Leftovers(objects, w)
    ensures AllDistinct(Unwanted(p, objects, w))
  {
    var a, b := OwnedRefs(objects, w, OtherKind(w)), OwnedRefs(objects, w, WantedKind(w));
    ListsMembers(p.lister(a), a);
    ListsMembers(p.lister(b), b);
    NamedOtherwiseMembers(p.lister(b), w.spec.applicationName);
    var other, same := p.lister(a), NamedOtherwise(p.lister(b), w.spec.applicationName);
    forall r ensures r in other + same <==> r in Leftovers(objects, w) {}
    forall r ensures r !in other || r !in same {
      assert r in other ==> r.kind == KindOf(OtherKind(w));
      assert r in same ==> r.kind == KindOf(WantedKind(w));
    }
    DistinctConcat(other, same);
  }

  lemma DistinctConcat(a: seq<Ref>, b: seq<Ref>)
    requires AllDistinct(a) && AllDistinct(b) && forall r :: r !in a || r !in b
    ensures AllDistinct(a + b)
  {
    forall i, j | 0 <= i < |a| && 0 <= j < |b| ensures a[i] != b[j] { assert a[i] in a && b[j] in b; }
  }

  predicate IsDeletionOf(e: Event, refs: seq<Ref>) {
    e.Refused? || (e.Deleted? && e.obj.Id() in refs)
  }

  /** Deleting a list: a part of it is gone, all of it if no deletion fails. */
  lemma {:induction false} DeleteAllEffect(s: Api, refs: seq<Ref>)
    ensures var t := DeleteAll(s, refs);
            && t.api.server == s.server && s.log <= t.api.log
            && (forall i :: |s.log| <= i < |t.api.log| ==> IsDeletionOf(t.api.log[i], refs))
            && (forall r :: r !in refs ==> SameAt(s.objects, t.api.objects, r))
            && (forall r :: r in t.api.objects ==> SameAt(s.objects, t.api.objects, r))
            && (t.flow.Next? ==> forall r :: r in refs ==> r !in t.api.objects)
            && (t.flow.Return? ==> t.flow.result == Empty && t.flow.failure.Some?)
    decreases |refs|
  {
    if refs != [] {
      var (t, err) := DeleteCall(s, refs[0]);
      if refs[0] in s.objects { assert s.objects[refs[0]].Id() == refs[0]; }
      if err.None? {
        DeleteAllEffect(t, refs[1..]);
        assert refs == [refs[0]] + refs[1..];
      }
    }
  }

  lemma {:induction false} FaithfulDeleteAll(s: Api, refs: seq<Ref>)
    requires s.script == []
    requires AllDistinct(refs)
    requires forall r :: r in refs ==> r in s.objects
    ensures DeleteAll(s, refs).flow.Next? && DeleteAll(s, refs).api.script == []
    decreases |refs|
  {
    if refs != [] {
      var t := DeleteCall(s, refs[0]).0;
      forall r | r in refs[1..] ensures r in t.objects {
        var i :| 0 <= i < |refs[1..]| && refs[1..][i] == r;
        assert refs[i + 1] == r;
      }
      FaithfulDeleteAll(t, refs[1..]);
    }
  }

  predicate IsCleanup(e: Event, leftovers: set<Ref>) {
    e.Refused? || e.Listed? || (e.Deleted? && e.obj.Id() in leftovers)
  }

  /** Only leftovers go; all of them if the cleanup succeeds; and without failures it does. */
  ghost predicate Cleans(s: Api, t: Out, leftovers: set<Ref>) {
    && t.api.server == s.server && s.log <= t.api.log
    && (forall i :: |s.log| <= i < |t.api.log| ==> IsCleanup(t.api.log[i], leftovers))
    && (forall r :: r !in leftovers ==> SameAt(s.objects, t.api.objects, r))
    && (forall r :: r in t.api.objects ==> SameAt(s.objects, t.api.objects, r))
    && (t.flow.Next? ==> forall r :: r in leftovers ==> r !in t.api.objects)
    && (s.script == [] ==> t.flow.Next? && t.api.script == [])
    && (t.flow.Return? ==> t.flow.result == Empty && t.flow.failure.Some?)
  }

  lemma DeleteLeftovers(s: Api, refs: seq<Ref>, leftovers: set<Ref>)
    requires forall r :: r in refs <==> r in leftovers
    requires AllDistinct(refs)
    requires forall r :: r in leftovers ==> r in s.objects
    ensures Cleans(s, DeleteAll(s, refs), leftovers)
  {
    DeleteAllEffect(s, refs);
    if s.script == [] {
      FaithfulDeleteAll(s, refs);
    }
  }

  lemma ListThenDelete(s: Api, refs: seq<Ref>, leftovers: set<Ref>)
    requires forall r :: r in refs <==> r in leftovers
    requires AllDistinct(refs)
    requires forall r :: r in leftovers ==> r in s.objects
    ensures Cleans(s, CheckListed(s, refs), leftovers)
  {
    DeleteLeftovers(ListCall(ListCall(s).0).0, refs, leftovers);
  }

  /** Whatever fails, only leftovers go, and never the wanted workload; when the cleanup succeeds, no owned workload
      is left but that one; and without failures it succeeds. */
  lemma CleanupRemovesLeftovers(p: Platform, s: Api, w: WebServer)
    ensures Cleans(s, CheckOwned(p, s, w), Leftovers(s.objects, w))
    ensures TargetRef(w) !in Leftovers(s.objects, w)
  {
    ListedIsLeftovers(p, s.objects, w);
    ListThenDelete(s, Unwanted(p, s.objects, w), Leftovers(s.objects, w));
  }

  /** After a successful cleanup the wanted workload is the only owned one. */
  lemma CleanupLeavesTheTarget(p: Platform, s: Api, w: WebServer)
    requires CheckOwned(p, s, w).flow.Next?
    ensures Leftovers(CheckOwned(p, s, w).api.objects, w) == {}
  {
    CleanupRemovesLeftovers(p, s, w);
  }
}
