/** Session clustering: the decision between KUBEPing and DNSPing, kept in an annotation of the resource. */
module KubePing {
  import opened WebServerApi
  import opened Sorting
  import opened ClusterObjects
  import opened Templates
  import opened ClientApi
  import opened Steps

  /** The role binding lets the namespace's default account view the namespace, and was made by an administrator
      or for this WebServer. */
  ghost predicate Allows(w: WebServer, binding: Object) {
    && binding.body.RoleBinding?
    && Subject("ServiceAccount", "default", w.ns) in binding.body.subjects
    && binding.body.roleKind == "ClusterRole" && binding.body.roleName == "view"
    && (binding.meta.name == RoleBindingName(w) || !("view-kubeping-" <= binding.meta.name))
  }

  function RoleBindings(objects: Store, ns: string): set<Ref> {
    set r | r in objects && r.kind == RoleBindingKind && r.ns == ns
  }

  ghost predicate SomeBindingAllows(objects: Store, w: WebServer) {
    exists r :: r in RoleBindings(objects, w.ns) && Allows(w, objects[r])
  }

  datatype Binding = Binding(api: Api, use: bool, err: Option<Err>)

  /** `createRoleBinding`: KUBEPing can be used if a binding allows it or one can be created; being forbidden to
      create it is no failure. */
  ghost function BindRole(s: Api, w: WebServer): Binding {
    var (t, listErr) := ListCall(s);
    if listErr.None? && SomeBindingAllows(s.objects, w) then Binding(t, true, None)
    else BindOwn(t, KubePingRoleBinding(w))
  }

  /** The resource's own binding is read, and created if there is none. */
  function BindOwn(s: Api, binding: Object): Binding {
    var (t, reply) := GetCall(s, binding.Id());
    if reply.Ok? then Binding(t, true, None)
    else if reply.err == NotFound then
      var (u, err) := CreateCall(t, binding);
      if err.None? || err.value == AlreadyExists then Binding(u, true, None)
      else if err.value == Forbidden then Binding(u, false, None)
      else Binding(u, false, err)
    else Binding(t, false, Some(reply.err))
  }

  function Annotated(w: WebServer, use: bool): WebServer {
    w.(annotations := w.annotations[KUBEPING := if use then "true" else "false"])
  }

  datatype Decision = Decision(api: Api, w: WebServer, flow: Flow)

  /** `useSessionClusteringConfig` as `Reconcile` uses it: its result is dropped, only its error ends the pass. */
  ghost function Decide(s: Api, w: WebServer): Decision {
    if !w.spec.useSessionClustering then Decision(s, w, Next)
    else if NeedUseKUBEPing(w) then
      var b := BindRole(s, w);
      if b.err.Some? then Decision(b.api, w, Return(Empty, Some(ApiError(b.err.value))))
      else
        var v := Annotated(w, b.use);
        var (t, err) := UpdateServerCall(b.api, v);
        Decision(t, v, if err.Some? && err.value != Conflict then Return(Empty, Some(ApiError(err.value))) else Next)
    else if !GetUseKUBEPing(w) then
      var e := EnsureObject(s, DNSService(w));
      Decision(e.api, w, if e.flow.Return? && e.flow.failure.Some? then e.flow else Next)
    else Decision(s, w, Next)
  }

  /* ---------- the methods ---------- */

  method CheckRoleBinding(p: Platform, r: Client, w: WebServer) returns (found: bool)
    modifies r`script, r`log
    ensures var (t, err) := ListCall(old(r.State()));
            r.State() == t && (found <==> err.None? && SomeBindingAllows(r.objects, w))
  {
    var err := r.List();
    if err.Some? { return false; }
    var refs := RoleBindings(r.objects, w.ns);
    var items := p.lister(refs);
    ListsMembers(items, refs);
    assert forall k :: 0 <= k < |items| ==> items[k] in refs;
    for i := 0 to |items|
      invariant forall k :: 0 <= k < i ==> !Allows(w, r.objects[items[k]])
    {
      var binding := r.objects[items[i]];
      assert binding.Id() == items[i];
      for j := 0 to |binding.body.subjects|
        invariant forall k :: 0 <= k < j && binding.body.subjects[k] == Subject("ServiceAccount", "default", w.ns) ==>
                                !Allows(w, binding)
      {
        var subject := binding.body.subjects[j];
        if subject.kind == "ServiceAccount" && subject.name == "default" && subject.ns == w.ns {
          if binding.body.roleKind == "ClusterRole" && binding.body.roleName == "view" {
            if binding.meta.name == "view-kubeping-" + w.name {
              assert Allows(w, r.objects[items[i]]);
              return true;
            }
            if !("view-kubeping-" <= binding.meta.name) {
              assert Allows(w, r.objects[items[i]]);
              return true;
            }
          }
        }
      }
    }
    found := false;
  }

  method CreateRoleBinding(p: Platform, r: Client, w: WebServer) returns (use: bool, err: Option<Err>)
    modifies r`objects, r`script, r`log
    ensures Binding(r.State(), use, err) == BindRole(old(r.State()), w)
    ensures err.None? ==> Grounded(old(r.State()), r.State(), w, use)
  {
    ghost var s := r.State();
    if BindRole(s, w).err.None? { BindingIsGrounded(s, w); }
    var checked := CheckRoleBinding(p, r, w);
    if checked { return true, None; }
    var reply := r.Get(KubePingRoleBinding(w).Id());
    if reply.Fail? && reply.err == NotFound {
      err := r.Create(KubePingRoleBinding(w));
      if err.Some? && err.value != AlreadyExists {
        if err.value == Forbidden { return false, None; }
        return false, err;
      }
      return true, None;
    } else if reply.Fail? {
      return false, Some(reply.err);
    }
    return true, None;
  }

  method UseSessionClusteringConfig(p: Platform, r: Client, w0: WebServer) returns (w: WebServer, flow: Flow)
    requires w0.spec.useSessionClustering
    modifies r`objects, r`script, r`log, r`server
    ensures Decision(r.State(), w, flow) == Decide(old(r.State()), w0)
  {
    w := w0;
    if NeedUseKUBEPing(w) {
      var use, err := CreateRoleBinding(p, r, w);
      if err.Some? { return w, Return(Empty, Some(ApiError(err.value))); }
      w := Annotated(w, use);
      err := r.UpdateServer(w);
      if err.Some? && err.value != Conflict { return w, Return(Empty, Some(ApiError(err.value))); }
      return w, Next;
    }
    if !GetUseKUBEPing(w) {
      var dns, _ := CreateIfMissing(r, DNSService(w));
      if dns.Return? && dns.failure.Some? { return w, dns; }
    }
    return w, Next;
  }

  /* ---------- what the decision changes ---------- */

  lemma BindRoleGrows(s: Api, w: WebServer)
    ensures Grows(s, BindRole(s, w).api) && BindRole(s, w).api.server == s.server
  {
    var t := ListCall(s).0;
    var binding := KubePingRoleBinding(w);
    var u := GetCall(t, binding.Id()).0;
    ListGrows(s);
    GetThenCreateGrows(t, binding);
    GrowsTransitive(s, t, u);
    GrowsTransitive(s, t, CreateCall(u, binding).0);
    assert BindRole(s, w).api in {t, u, CreateCall(u, binding).0};
  }

  lemma UpdateServerGrows(s: Api, w: WebServer)
    ensures Grows(s, UpdateServerCall(s, w).0)
  {
    assert UpdateServerCall(s, w).0.objects == s.objects;
  }

  /** Under any failures the decision only adds objects, and writes nothing but the annotation. */
  lemma DecideGrows(s: Api, w: WebServer)
    ensures var d := Decide(s, w);
            && Grows(s, d.api)
            && (d.w == w || (w.spec.useSessionClustering && NeedUseKUBEPing(w)
                  && d.w in {Annotated(w, true), Annotated(w, false)}))
            && (d.api.server == s.server || (d.w != w && d.api.server == Some(d.w)))
  {
    if w.spec.useSessionClustering && NeedUseKUBEPing(w) {
      BindRoleGrows(s, w);
      var b := BindRole(s, w);
      var v := Annotated(w, b.use);
      assert v.annotations[KUBEPING] != "";
      UpdateServerGrows(b.api, v);
      GrowsTransitive(s, b.api, UpdateServerCall(b.api, v).0);
    } else if w.spec.useSessionClustering && !GetUseKUBEPing(w) {
      StepGrows(s, Ensure(DNSService(w)));
    }
  }

  /** The decision is sticky: once the annotation is set, no pass changes it, whatever fails. */
  lemma DecisionIsSticky(s: Api, w: WebServer)
    requires !NeedUseKUBEPing(w)
    ensures Decide(s, w).w == w && Decide(s, w).api.server == s.server
  {
  }

  /** Without failures an open decision falls to KUBEPing and is recorded. */
  lemma FaithfulDecision(s: Api, w: WebServer)
    requires s.script == [] && s.server.Some?
    requires w.spec.useSessionClustering && NeedUseKUBEPing(w)
    ensures var d := Decide(s, w);
            d.flow.Next? && d.w == Annotated(w, true) && d.api.server == Some(d.w) && d.api.script == []
  {
  }

  /** Where DNSPing is decided, a pass that gets through the decision has its service in place, or was told by the
      API that it is there. */
  lemma DNSServiceIsThere(s: Api, w: WebServer)
    requires w.spec.useSessionClustering && !GetUseKUBEPing(w) && Decide(s, w).flow.Next?
    ensures var t, service := Decide(s, w).api, DNSService(w).Id();
            service in t.objects || Refused(CREATE, Some(service), AlreadyExists) in t.log
  {
  }

  /* ---------- what the decision is ---------- */

  /** A role binding of the namespace lets its default account view it, and is not one that the operator made for
      another resource. */
  ghost predicate AllowingBinding(objects: Store, w: WebServer) {
    exists r :: r in objects && r.kind == RoleBindingKind && r.ns == w.ns && LetsView(objects[r], w.ns)
                && (r.name == "view-kubeping-" + w.name || !("view-kubeping-" <= r.name))
  }

  ghost predicate LetsView(binding: Object, ns: string) {
    && binding.body.RoleBinding? && binding.body.roleKind == "ClusterRole" && binding.body.roleName == "view"
    && exists i :: 0 <= i < |binding.body.subjects|
                   && var who := binding.body.subjects[i];
                      who.kind == "ServiceAccount" && who.name == "default" && who.ns == ns
  }

  function OwnBinding(w: WebServer): Ref {
    Ref(RoleBindingKind, w.ns, "view-kubeping-" + w.name)
  }

  /** The bindings were listed, and one of them allows it. */
  ghost predicate ListedAllows(s: Api, t: Api, w: WebServer) {
    |t.log| > |s.log| && t.log[|s.log|] == Listed && AllowingBinding(s.objects, w)
  }

  /** In the new part of the log the creation of the resource's own binding was answered so. */
  ghost predicate CreationAnswered(s: Api, t: Api, w: WebServer, err: Err) {
    exists i :: |s.log| <= i < |t.log| && t.log[i] == Refused(CREATE, Some(OwnBinding(w)), err)
  }

  lemma AllowingIsAllowing(objects: Store, w: WebServer)
    ensures SomeBindingAllows(objects, w) <==> AllowingBinding(objects, w)
  {
    forall r | r in objects && r.kind == RoleBindingKind && r.ns == w.ns
      ensures Allows(w, objects[r]) <==>
              LetsView(objects[r], w.ns) && (r.name == "view-kubeping-" + w.name || !("view-kubeping-" <= r.name))
    {
      assert objects[r].Id() == r;
    }
    if r :| r in RoleBindings(objects, w.ns) && Allows(w, objects[r]) {
      assert r in objects;
    }
    if r :| r in objects && r.kind == RoleBindingKind && r.ns == w.ns && LetsView(objects[r], w.ns)
            && (r.name == "view-kubeping-" + w.name || !("view-kubeping-" <= r.name)) {
      assert r in RoleBindings(objects, w.ns);
    }
  }

  /** What a binding phase without error rests on: `use` exactly unless its creation was forbidden. */
  ghost predicate Grounded(s: Api, t: Api, w: WebServer, use: bool) {
    && (use ==> ListedAllows(s, t, w) || OwnBinding(w) in t.objects || CreationAnswered(s, t, w, AlreadyExists))
    && (ListedAllows(s, t, w) || CreationAnswered(s, t, w, AlreadyExists) ==> use)
    && (!use <==> CreationAnswered(s, t, w, Forbidden))
  }

  predicate IsCreationAnswer(e: Event, w: WebServer) {
    e.Refused? && e.verb == CREATE && e.target == Some(OwnBinding(w))
  }

  ghost predicate Unanswered(s: Api, t: Api, w: WebServer) {
    s.log <= t.log && forall i :: |s.log| <= i < |t.log| ==> !IsCreationAnswer(t.log[i], w)
  }

  lemma UseIsGrounded(s: Api, t: Api, w: WebServer)
    requires Unanswered(s, t, w) && (ListedAllows(s, t, w) || OwnBinding(w) in t.objects)
    ensures Grounded(s, t, w, true)
  {
  }

  lemma CreationIsGrounded(s: Api, u: Api, w: WebServer, binding: Object)
    requires Unanswered(s, u, w) && |u.log| > |s.log| && !ListedAllows(s, u, w) && binding.Id() == OwnBinding(w)
    ensures var (v, err) := CreateCall(u, binding);
            err.None? || err.value in {AlreadyExists, Forbidden} ==> Grounded(s, v, w, err != Some(Forbidden))
  {
    var (v, err) := CreateCall(u, binding);
    assert |v.log| == |u.log| + 1 && v.log[|s.log|] == u.log[|s.log|];
    assert forall i :: |s.log| <= i < |u.log| ==> v.log[i] == u.log[i];
    if err.Some? {
      assert v.log[|u.log|] == Refused(CREATE, Some(OwnBinding(w)), err.value);
    }
  }

  lemma OwnIsGrounded(s: Api, t: Api, w: WebServer, binding: Object)
    requires Unanswered(s, t, w) && |t.log| > |s.log| && !ListedAllows(s, t, w) && binding.Id() == OwnBinding(w)
    requires BindOwn(t, binding).err.None?
    ensures Grounded(s, BindOwn(t, binding).api, w, BindOwn(t, binding).use)
  {
    var (u, reply) := GetCall(t, binding.Id());
    assert |u.log| == |t.log| + 1 && u.log[|s.log|] == t.log[|s.log|];
    if reply.Ok? { UseIsGrounded(s, u, w); } else { CreationIsGrounded(s, u, w, binding); }
  }

  lemma BindingIsGrounded(s: Api, w: WebServer)
    requires BindRole(s, w).err.None?
    ensures Grounded(s, BindRole(s, w).api, w, BindRole(s, w).use)
  {
    var (t, listErr) := ListCall(s);
    AllowingIsAllowing(s.objects, w);
    if listErr.None? && SomeBindingAllows(s.objects, w) {
      UseIsGrounded(s, t, w);
    } else {
      OwnIsGrounded(s, t, w, KubePingRoleBinding(w));
    }
  }

  lemma GroundedStays(s: Api, t: Api, u: Api, w: WebServer, use: bool)
    requires Grounded(s, t, w, use) && u.objects == t.objects
    requires s.log <= t.log <= u.log && |u.log| == |t.log| + 1 && |t.log| > |s.log|
    requires !IsCreationAnswer(u.log[|t.log|], w)
    ensures Grounded(s, u, w, use)
  {
    forall err ensures CreationAnswered(s, u, w, err) <==> CreationAnswered(s, t, w, err) {
      if i :| |s.log| <= i < |u.log| && u.log[i] == Refused(CREATE, Some(OwnBinding(w)), err) {
        assert t.log[i] == u.log[i];
      }
      if i :| |s.log| <= i < |t.log| && t.log[i] == Refused(CREATE, Some(OwnBinding(w)), err) {
        assert u.log[i] == t.log[i];
      }
    }
  }

  lemma BindOwnCalls(s: Api, binding: Object)
    ensures s.log <= BindOwn(s, binding).api.log
  {
  }

  lemma BindRoleCalls(s: Api, w: WebServer)
    ensures s.log <= BindRole(s, w).api.log && |BindRole(s, w).api.log| > |s.log|
  {
    BindOwnCalls(ListCall(s).0, KubePingRoleBinding(w));
  }

  /** Whatever fails, an undecided resource that gets through this phase is decided for KUBEPing exactly unless the
      creation of its role binding was forbidden; and where it is, a listed binding allowed it, or its own binding is
      in the store, or the API reported that one as existing, each of which decides for it in turn. */
  lemma DecisionIsGrounded(s: Api, w: WebServer)
    requires w.spec.useSessionClustering && Annotation(w, "UseKUBEPing") == "" && Decide(s, w).flow.Next?
    ensures var t, v := Decide(s, w).api, Decide(s, w).w;
            var allowed, reported := ListedAllows(s, t, w), CreationAnswered(s, t, w, AlreadyExists);
            var forbidden := CreationAnswered(s, t, w, Forbidden);
            && v == w.(annotations := v.annotations)
            && Annotation(v, "UseKUBEPing") == (if forbidden then "false" else "true")
            && (t.server == Some(v) || t.log[|t.log| - 1] == Refused(UPDATE, None, Conflict))
            && (GetUseKUBEPing(v) <==> allowed || reported || (OwnBinding(w) in t.objects && !forbidden))
  {
    var b := BindRole(s, w);
    BindingIsGrounded(s, w);
    BindRoleCalls(s, w);
    GroundedStays(s, b.api, UpdateServerCall(b.api, Annotated(w, b.use)).0, w, b.use);
  }

  /** That its own binding is in the store does not decide for KUBEPing if it was missed: a read answered NotFound,
      and the creation Forbidden. */
  lemma MissedBindingIsNotUsed(s: Api, w: WebServer)
    requires w.spec.useSessionClustering && Annotation(w, "UseKUBEPing") == "" && s.server.Some?
    requires OwnBinding(w) in s.objects
    requires s.script == [Some(Other), Some(NotFound), Some(Forbidden)]
    ensures Decide(s, w).flow.Next? && Annotation(Decide(s, w).w, "UseKUBEPing") == "false"
  {
  }

  /** The binding it makes for itself is one that allows it. */
  lemma OwnBindingAllows(objects: Store, w: WebServer)
    ensures KubePingRoleBinding(w).Id() == OwnBinding(w)
    ensures AllowingBinding(objects[OwnBinding(w) := KubePingRoleBinding(w)], w)
  {
    var after: Store := objects[OwnBinding(w) := KubePingRoleBinding(w)];
    assert after[OwnBinding(w)].body.subjects[0].kind == "ServiceAccount";
    assert LetsView(after[OwnBinding(w)], w.ns);
  }
}
