/**
 The admission webhook's registry of application names: one list of (server, application) pairs per namespace,
 held in Go slices whose backing arrays are renamed, appended to and spliced in place.
 One request is one atomic step.
 */
module Webhook {

  datatype WebApp = WebApp(server: string, app: string)

  /** What the API server hands to a validator. */
  datatype RuntimeObject = WebServerObject(ns: string, name: string, app: string) | OtherObject

  datatype Verdict = Admitted | NameTaken | WrongType

  datatype Request = Create(obj: RuntimeObject) | Update(obj: RuntimeObject) | Delete(obj: RuntimeObject)

  /* ---------- one namespace: a list of pairs ---------- */

  /** Another server of the namespace manages an application of this name. */
  ghost predicate TakenByOther(list: seq<WebApp>, server: string, app: string) {
    exists i :: 0 <= i < |list| && list[i].app == app && list[i].server != server
  }

  ghost predicate Registered(list: seq<WebApp>, server: string) {
    exists i :: 0 <= i < |list| && list[i].server == server
  }

  function Renamed(list: seq<WebApp>, server: string, app: string): seq<WebApp> {
    seq(|list|, i requires 0 <= i < |list| => if list[i].server == server then WebApp(server, app) else list[i])
  }

  /** `append(list[:i], list[i+1:]...)` */
  function Cut(list: seq<WebApp>, i: nat): seq<WebApp>
    requires i < |list|
  {
    list[..i] + list[i + 1..]
  }

  /** The pairs of the other servers, in their order. */
  function Without(list: seq<WebApp>, server: string): seq<WebApp> {
    if list == [] then []
    else if list[0].server == server then Without(list[1..], server)
    else [list[0]] + Without(list[1..], server)
  }

  ghost function Recorded(list: seq<WebApp>, server: string, app: string): seq<WebApp> {
    if Registered(list, server) then Renamed(list, server, app) else list + [WebApp(server, app)]
  }

  /** Server names and application names are pairwise distinct. */
  ghost predicate OneToOne(list: seq<WebApp>) {
    forall i, j :: 0 <= i < j < |list| ==> list[i].server != list[j].server && list[i].app != list[j].app
  }

  lemma RecordedIsOneToOne(list: seq<WebApp>, server: string, app: string)
    requires OneToOne(list) && !TakenByOther(list, server, app)
    ensures OneToOne(Recorded(list, server, app))
  {
  }

  /** The server holds the name already. */
  lemma HeldPair(list: seq<WebApp>, i: nat)
    requires OneToOne(list) && i < |list|
    ensures !TakenByOther(list, list[i].server, list[i].app)
    ensures Recorded(list, list[i].server, list[i].app) == list
  {
  }

  /** The server, found at `i`, takes a name that nobody holds. */
  lemma RenamedPair(list: seq<WebApp>, i: nat, app: string)
    requires OneToOne(list) && i < |list| && forall k :: 0 <= k < |list| ==> list[k].app != app
    ensures !TakenByOther(list, list[i].server, app)
    ensures Recorded(list, list[i].server, app) == list[i := WebApp(list[i].server, app)]
  {
  }

  lemma NewPair(list: seq<WebApp>, server: string, app: string)
    requires forall k :: 0 <= k < |list| ==> list[k].server != server && list[k].app != app
    ensures !TakenByOther(list, server, app) && Recorded(list, server, app) == list + [WebApp(server, app)]
  {
  }

  lemma {:induction false} WithoutKeepsOthers(list: seq<WebApp>, server: string)
    ensures forall w :: w in Without(list, server) <==> w in list && w.server != server
    ensures OneToOne(list) ==> OneToOne(Without(list, server))
  {
    if list != [] {
      assert list == [list[0]] + list[1..];
      WithoutKeepsOthers(list[1..], server);
      var rest := Without(list[1..], server);
      if OneToOne(list) {
        assert OneToOne(list[1..]) by {
          forall i, j | 0 <= i < j < |list[1..]|
            ensures list[1..][i].server != list[1..][j].server && list[1..][i].app != list[1..][j].app
          {
            assert list[1..][i] == list[i + 1] && list[1..][j] == list[j + 1];
          }
        }
        forall j | 0 <= j < |rest| ensures list[0].server != rest[j].server && list[0].app != rest[j].app {
          assert rest[j] in rest && rest[j] in list[1..];
        }
      }
    }
  }

  lemma WithoutAppend(a: seq<WebApp>, b: seq<WebApp>, server: string)
    ensures Without(a + b, server) == Without(a, server) + Without(b, server)
  {
    if a == [] {
      assert a + b == b;
    } else {
      assert (a + b)[1..] == a[1..] + b;
    }
  }

  lemma {:induction false} WithoutStranger(list: seq<WebApp>, server: string)
    requires !Registered(list, server)
    ensures Without(list, server) == list
  {
    if list != [] {
      forall i | 0 <= i < |list[1..]| ensures list[1..][i].server != server {
        assert list[1..][i] == list[i + 1];
      }
      WithoutStranger(list[1..], server);
      assert list == [list[0]] + list[1..];
    }
  }

  /** Cutting one registered pair out of a one-to-one list leaves exactly the other servers' pairs. */
  lemma SpliceIsWithout(list: seq<WebApp>, i: nat)
    requires OneToOne(list) && i < |list|
    ensures Cut(list, i) == Without(list, list[i].server)
  {
    var before, after := list[..i], list[i + 1..];
    forall k | 0 <= k < |before| ensures before[k].server != list[i].server { assert before[k] == list[k]; }
    forall k | 0 <= k < |after| ensures after[k].server != list[i].server { assert after[k] == list[i + 1 + k]; }
    CutOne(list, i);
  }

  lemma CutOne(list: seq<WebApp>, i: nat)
    requires i < |list| && !Registered(list[..i], list[i].server) && !Registered(list[i + 1..], list[i].server)
    ensures Cut(list, i) == Without(list, list[i].server)
  {
    AroundOne(list, i);
    OneAmongStrangers(list[..i], list[i], list[i + 1..]);
  }

  lemma AroundOne(list: seq<WebApp>, i: nat)
    requires i < |list|
    ensures list == list[..i] + ([list[i]] + list[i + 1..])
  {
  }

  lemma OneAmongStrangers(a: seq<WebApp>, w: WebApp, b: seq<WebApp>)
    requires !Registered(a, w.server) && !Registered(b, w.server)
    ensures Without(a + ([w] + b), w.server) == a + b
  {
    WithoutAppend(a, [w] + b, w.server);
    WithoutAppend([w], b, w.server);
    assert Without([w], w.server) == [];
    WithoutStranger(a, w.server);
    WithoutStranger(b, w.server);
  }

  /* ---------- all namespaces: histories of requests ---------- */

  type Lists = map<string, seq<WebApp>>

  function ListOf(all: Lists, ns: string): seq<WebApp> {
    if ns in all then all[ns] else []
  }

  lemma LastWriteStays(all: Lists, ns: string, first: seq<WebApp>, last: seq<WebApp>)
    ensures all[ns := first][ns := last] == all[ns := last]
  {
  }

  ghost predicate AllOneToOne(all: Lists) {
    forall ns :: ns in all ==> OneToOne(all[ns])
  }

  ghost function VerdictOn(all: Lists, r: Request): Verdict {
    if r.obj.OtherObject? then WrongType
    else if r.Delete? then Admitted
    else if TakenByOther(ListOf(all, r.obj.ns), r.obj.name, r.obj.app) then NameTaken
    else Admitted
  }

  ghost function After(all: Lists, r: Request): Lists {
    if VerdictOn(all, r) != Admitted then all
    else
      var list := ListOf(all, r.obj.ns);
      if r.Delete? then
        if Registered(list, r.obj.name) then all[r.obj.ns := Without(list, r.obj.name)] else all
      else all[r.obj.ns := Recorded(list, r.obj.name, r.obj.app)]
  }

  ghost function Replay(history: seq<Request>): Lists {
    if history == [] then map[] else After(Replay(history[..|history| - 1]), history[|history| - 1])
  }

  /** The abstract registry: in each namespace, a map from server name to the application it manages. */
  type Names = map<string, map<string, string>>

  function NamesIn(names: Names, ns: string): map<string, string> {
    if ns in names then names[ns] else map[]
  }

  ghost predicate Free(names: map<string, string>, server: string, app: string) {
    forall other :: other in names && other != server ==> names[other] != app
  }

  ghost function AbstractVerdict(names: Names, r: Request): Verdict {
    if r.obj.OtherObject? then WrongType
    else if r.Delete? || Free(NamesIn(names, r.obj.ns), r.obj.name, r.obj.app) then Admitted
    else NameTaken
  }

  ghost function AbstractAfter(names: Names, r: Request): Names {
    if AbstractVerdict(names, r) != Admitted then names
    else
      var here := NamesIn(names, r.obj.ns);
      names[r.obj.ns := if r.Delete? then here - {r.obj.name} else here[r.obj.name := r.obj.app]]
  }

  ghost function AbstractReplay(history: seq<Request>): Names {
    if history == [] then map[] else AbstractAfter(AbstractReplay(history[..|history| - 1]), history[|history| - 1])
  }

  ghost predicate Represents(list: seq<WebApp>, names: map<string, string>) {
    && (forall i :: 0 <= i < |list| ==> list[i].server in names && names[list[i].server] == list[i].app)
    && (forall server :: server in names ==> WebApp(server, names[server]) in list)
  }

  ghost predicate AllRepresent(all: Lists, names: Names) {
    forall ns :: Represents(ListOf(all, ns), NamesIn(names, ns))
  }

  ghost predicate Injective(names: map<string, string>) {
    forall s, t :: s in names && t in names && names[s] == names[t] ==> s == t
  }

  lemma VerdictsAgree(all: Lists, names: Names, r: Request)
    requires AllRepresent(all, names)
    ensures VerdictOn(all, r) == AbstractVerdict(names, r)
  {
  }

  lemma RecordedRepresents(list: seq<WebApp>, names: map<string, string>, server: string, app: string)
    requires Represents(list, names)
    ensures Represents(Recorded(list, server, app), names[server := app])
  {
    var list', names' := Recorded(list, server, app), names[server := app];
    forall s | s in names' ensures WebApp(s, names'[s]) in list' {
      if s == server {
        if Registered(list, server) {
          var i :| 0 <= i < |list| && list[i].server == server;
          assert list'[i] == WebApp(server, app);
        } else {
          assert list'[|list|] == WebApp(server, app);
        }
      } else {
        var i :| 0 <= i < |list| && list[i] == WebApp(s, names[s]);
        assert list'[i] == list[i];
      }
    }
  }

  lemma WithoutRepresents(list: seq<WebApp>, names: map<string, string>, server: string)
    requires Represents(list, names)
    ensures Represents(Without(list, server), names - {server})
  {
    WithoutKeepsOthers(list, server);
    var list' := Without(list, server);
    forall i | 0 <= i < |list'| ensures list'[i].server in names - {server} && names[list'[i].server] == list'[i].app {
      assert list'[i] in list' && list'[i] in list;
    }
  }

  lemma AfterRepresents(all: Lists, names: Names, r: Request)
    requires AllRepresent(all, names)
    ensures AllRepresent(After(all, r), AbstractAfter(names, r))
  {
    VerdictsAgree(all, names, r);
    if VerdictOn(all, r) == Admitted {
      var list, here := ListOf(all, r.obj.ns), NamesIn(names, r.obj.ns);
      assert Represents(list, here);
      RecordedRepresents(list, here, r.obj.name, r.obj.app);
      WithoutRepresents(list, here, r.obj.name);
      if !Registered(list, r.obj.name) {
        WithoutStranger(list, r.obj.name);
      }
      forall ns ensures Represents(ListOf(After(all, r), ns), NamesIn(AbstractAfter(names, r), ns)) {
        assert Represents(ListOf(all, ns), NamesIn(names, ns));
      }
    }
  }

  lemma AfterIsOneToOne(all: Lists, r: Request)
    requires AllOneToOne(all)
    ensures AllOneToOne(After(all, r))
  {
    if VerdictOn(all, r) == Admitted {
      var list := ListOf(all, r.obj.ns);
      if r.Delete? {
        WithoutKeepsOthers(list, r.obj.name);
      } else {
        RecordedIsOneToOne(list, r.obj.name, r.obj.app);
      }
    }
  }

  /** From the empty registry, every history keeps each list one-to-one and equal to the abstract map, so that
      map is injective; and the next request is judged as the abstract map judges it. */
  lemma {:induction false} HistoriesRefineAnInjectiveMap(history: seq<Request>, next: Request)
    ensures AllOneToOne(Replay(history))
    ensures AllRepresent(Replay(history), AbstractReplay(history))
    ensures forall ns :: Injective(NamesIn(AbstractReplay(history), ns))
    ensures VerdictOn(Replay(history), next) == AbstractVerdict(AbstractReplay(history), next)
  {
    if history != [] {
      var before, last := history[..|history| - 1], history[|history| - 1];
      HistoriesRefineAnInjectiveMap(before, last);
      AfterIsOneToOne(Replay(before), last);
      AfterRepresents(Replay(before), AbstractReplay(before), last);
    }
    forall ns ensures Injective(NamesIn(AbstractReplay(history), ns)) {
      var list, here := ListOf(Replay(history), ns), NamesIn(AbstractReplay(history), ns);
      assert Represents(list, here) && OneToOne(list);
    }
    VerdictsAgree(Replay(history), AbstractReplay(history), next);
  }

  /** The request asks for that application name for another server. */
  predicate AsksForAnother(r: Request, ns: string, server: string, app: string) {
    !r.Delete? && r.obj.WebServerObject? && r.obj.ns == ns && r.obj.app == app && r.obj.name != server
  }

  /** Once a server is deleted, the application name it held is free: any server of its namespace may take it at any
      later time, as long as no other server has asked for it in between. */
  lemma DeleteFreesTheName(history: seq<Request>, ns: string, gone: string, app: string, later: seq<Request>,
                           server: string)
    requires WebApp(gone, app) in ListOf(Replay(history), ns)
    requires forall i :: 0 <= i < |later| ==> !AsksForAnother(later[i], ns, server, app)
    ensures VerdictOn(Replay(history + [Delete(WebServerObject(ns, gone, app))] + later),
                      Create(WebServerObject(ns, server, app))) == Admitted
  {
    var deleted := history + [Delete(WebServerObject(ns, gone, app))];
    DeletedIsFree(history, ns, gone, app);
    FreeStaysFree(deleted, later, ns, server, app);
    HistoriesRefineAnInjectiveMap(deleted + later, Create(WebServerObject(ns, server, app)));
  }

  lemma DeletedIsFree(history: seq<Request>, ns: string, gone: string, app: string)
    requires WebApp(gone, app) in ListOf(Replay(history), ns)
    ensures forall other :: other in NamesIn(AbstractReplay(history + [Delete(WebServerObject(ns, gone, app))]), ns) ==>
                              NamesIn(AbstractReplay(history + [Delete(WebServerObject(ns, gone, app))]), ns)[other]
                              != app
  {
    var delete := Delete(WebServerObject(ns, gone, app));
    HistoriesRefineAnInjectiveMap(history, delete);
    assert (history + [delete])[..|history|] == history;
    var list, here := ListOf(Replay(history), ns), NamesIn(AbstractReplay(history), ns);
    assert Represents(list, here) && Injective(here);
    var i :| 0 <= i < |list| && list[i] == WebApp(gone, app);
    assert here[gone] == app;
  }

  lemma {:induction false} FreeStaysFree(history: seq<Request>, later: seq<Request>, ns: string, server: string,
                                         app: string)
    requires Free(NamesIn(AbstractReplay(history), ns), server, app)
    requires forall i :: 0 <= i < |later| ==> !AsksForAnother(later[i], ns, server, app)
    ensures Free(NamesIn(AbstractReplay(history + later), ns), server, app)
    decreases |later|
  {
    if later == [] {
      assert history + later == history;
    } else {
      var before, last := later[..|later| - 1], later[|later| - 1];
      FreeStaysFree(history, before, ns, server, app);
      assert (history + later)[..|history + later| - 1] == history + before;
      assert (history + later)[|history + later| - 1] == last;
      StepKeepsFree(AbstractReplay(history + before), last, ns, server, app);
    }
  }

  lemma StepKeepsFree(names: Names, r: Request, ns: string, server: string, app: string)
    requires Free(NamesIn(names, ns), server, app) && !AsksForAnother(r, ns, server, app)
    ensures Free(NamesIn(AbstractAfter(names, r), ns), server, app)
  {
  }

  /* ---------- the registry itself ---------- */

  /** A Go slice: a backing array, of which the first `len` elements are in use. */
  datatype Slice = Slice(data: array<WebApp>, len: nat)

  class AppRegistry {
    var allApps: map<string, Slice>

    ghost function Arrays(): set<object>
      reads this
    {
      set ns | ns in allApps :: allApps[ns].data
    }

    /** No two namespaces share a backing array, and every list is one-to-one. */
    ghost predicate Valid()
      reads this, Arrays()
    {
      && (forall ns :: ns in allApps ==> allApps[ns].len <= allApps[ns].data.Length)
      && (forall m, n :: m in allApps && n in allApps && m != n ==> allApps[m].data != allApps[n].data)
      && AllOneToOne(Contents())
    }

    ghost function Contents(): Lists
      reads this, Arrays()
      requires forall ns :: ns in allApps ==> allApps[ns].len <= allApps[ns].data.Length
    {
      map ns | ns in allApps :: allApps[ns].data[..allApps[ns].len]
    }

    constructor ()
      ensures Valid() && Contents() == map[]
    {
      allApps := map[];
    }

    method ValidateCreate(obj: RuntimeObject) returns (verdict: Verdict)
      requires Valid()
      modifies this, Arrays()
      ensures Valid() && fresh(Arrays() - old(Arrays()))
      ensures verdict == VerdictOn(old(Contents()), Create(obj))
      ensures Contents() == After(old(Contents()), Create(obj))
    {
      if obj.OtherObject? { return WrongType; }
      verdict := CheckApplicationName(obj.ns, obj.name, obj.app);
    }

    method ValidateUpdate(obj: RuntimeObject) returns (verdict: Verdict)
      requires Valid()
      modifies this, Arrays()
      ensures Valid() && fresh(Arrays() - old(Arrays()))
      ensures verdict == VerdictOn(old(Contents()), Update(obj))
      ensures Contents() == After(old(Contents()), Update(obj))
    {
      if obj.OtherObject? { return WrongType; }
      verdict := CheckApplicationName(obj.ns, obj.name, obj.app);
    }

    method ValidateDelete(obj: RuntimeObject) returns (verdict: Verdict)
      requires Valid()
      modifies this, Arrays()
      ensures Valid() && Arrays() == old(Arrays())
      ensures verdict == VerdictOn(old(Contents()), Delete(obj))
      ensures Contents() == After(old(Contents()), Delete(obj))
    {
      if obj.OtherObject? { return WrongType; }
      verdict := Admitted;
      ghost var was := Contents();
      ghost var listed := ListOf(was, obj.ns);
      if obj.ns !in allApps { return; }
      var list := allApps[obj.ns];
      var i := 0;
      while i < list.len
        invariant 0 <= i <= list.len
        invariant forall k :: 0 <= k < i ==> list.data[k].server != obj.name
      {
        if list.data[i].server == obj.name {
          CutOut(obj.ns, i);
          assert forall ns :: ns in allApps ==> allApps[ns].data == old(allApps[ns].data);
          SpliceIsWithout(listed, i);
          AfterIsOneToOne(was, Delete(obj));
          assert Registered(listed, obj.name);
          assert Contents() == After(was, Delete(obj));
          return;
        }
        i := i + 1;
      }
    }

    /** `allApps[ns] = append(list[:i], list[i+1:]...)`: the tail moves down within the backing array. */
    method CutOut(ns: string, i: nat)
      requires Valid() && ns in allApps && i < allApps[ns].len
      modifies this, allApps[ns].data
      ensures allApps == old(allApps)[ns := Slice(old(allApps[ns].data), old(allApps[ns].len) - 1)]
      ensures forall n :: n in allApps ==> allApps[n].len <= allApps[n].data.Length
      ensures Contents() == old(Contents())[ns := Cut(old(Contents()[ns]), i)]
    {
      ghost var was := Contents();
      Shift(ns, i);
      ghost var shifted := Contents()[ns];
      Assign(ns, Slice(allApps[ns].data, allApps[ns].len - 1));
      LastWriteStays(was, ns, shifted, Cut(was[ns], i));
    }

    /** The tail moves down; the list keeps its length. */
    method Shift(ns: string, i: nat)
      requires Valid() && ns in allApps && i < allApps[ns].len
      modifies allApps[ns].data
      ensures Contents() == old(Contents())[ns := Contents()[ns]]
      ensures allApps[ns].data[..allApps[ns].len - 1] == Cut(old(Contents()[ns]), i)
    {
      MoveDown(allApps[ns].data, i, allApps[ns].len);
    }

    /** Go's `copy` of the elements behind `i` one place down. */
    static method MoveDown(data: array<WebApp>, i: nat, len: nat)
      requires i < len <= data.Length
      modifies data
      ensures data[..len - 1] == Cut(old(data[..len]), i)
    {
      var j := i;
      while j + 1 < len
        invariant i <= j < len
        invariant forall k :: 0 <= k < i ==> data[k] == old(data[k])
        invariant forall k :: i <= k < j ==> data[k] == old(data[k + 1])
        invariant forall k :: j <= k < len ==> data[k] == old(data[k])
      {
        data[j] := data[j + 1];
        j := j + 1;
      }
      assert data[..i] == old(data[..len])[..i] && data[i..len - 1] == old(data[..len])[i + 1..];
      assert data[..len - 1] == data[..i] + data[i..len - 1];
    }

    method CheckApplicationName(ns: string, server: string, app: string) returns (verdict: Verdict)
      requires Valid()
      modifies this, Arrays()
      ensures Valid() && fresh(Arrays() - old(Arrays()))
      ensures verdict == VerdictOn(old(Contents()), Create(WebServerObject(ns, server, app)))
      ensures Contents() == After(old(Contents()), Create(WebServerObject(ns, server, app)))
    {
      AfterIsOneToOne(Contents(), Create(WebServerObject(ns, server, app)));
      ghost var listed := ListOf(Contents(), ns);
      if ns in allApps {
        var list := allApps[ns];
        var i := 0;
        while i < list.len
          invariant 0 <= i <= list.len
          invariant forall k :: 0 <= k < i ==> listed[k].server != server && listed[k].app != app
        {
          assert list.data[i] == listed[i];
          if list.data[i].server == server && list.data[i].app == app {
            HeldPair(listed, i);
            assert Contents()[ns := listed] == Contents();
            return Admitted;
          }
          if list.data[i].server == server && list.data[i].app != app {
            var j := 0;
            while j < list.len
              invariant 0 <= j <= list.len
              invariant forall k :: 0 <= k < j ==> listed[k].app != app
            {
              assert list.data[j] == listed[j];
              if list.data[j].app == app { return NameTaken; }
              j := j + 1;
            }
            RenamedPair(listed, i, app);
            Rename(ns, i, WebApp(server, app));
            return Admitted;
          }
          if list.data[i].server != server && list.data[i].app == app { return NameTaken; }
          i := i + 1;
        }
      }
      NewPair(listed, server, app);
      Append(ns, WebApp(server, app));
      verdict := Admitted;
    }

    /** `allApps[ns][i] = w` */
    method Rename(ns: string, i: nat, w: WebApp)
      requires Valid() && ns in allApps && i < allApps[ns].len
      modifies allApps[ns].data
      ensures Contents() == old(Contents())[ns := old(Contents()[ns])[i := w]]
    {
      var list := allApps[ns];
      list.data[i] := w;
      assert list.data[..list.len] == old(list.data[..list.len])[i := w];
    }

    /** `allApps[ns] = append(allApps[ns], w)`: in place while there is room, otherwise into a larger array. */
    method Append(ns: string, w: WebApp)
      requires Valid()
      modifies this, Arrays()
      ensures forall n :: n in allApps ==> allApps[n].len <= allApps[n].data.Length
      ensures forall m, n :: m in allApps && n in allApps && m != n ==> allApps[m].data != allApps[n].data
      ensures fresh(Arrays() - old(Arrays()))
      ensures Contents() == old(Contents())[ns := ListOf(old(Contents()), ns) + [w]]
    {
      if ns in allApps && allApps[ns].len < allApps[ns].data.Length {
        AppendInPlace(ns, w);
      } else {
        var list := Grown(ns, w);
        Assign(ns, list);
      }
    }

    /** `allApps[ns] = list` */
    method Assign(ns: string, list: Slice)
      requires list.len <= list.data.Length && forall n :: n in allApps ==> allApps[n].len <= allApps[n].data.Length
      modifies this
      ensures allApps == old(allApps)[ns := list]
      ensures forall n :: n in allApps ==> allApps[n].len <= allApps[n].data.Length
      ensures Contents() == old(Contents())[ns := list.data[..list.len]]
    {
      allApps := allApps[ns := list];
    }

    method AppendInPlace(ns: string, w: WebApp)
      requires Valid() && ns in allApps && allApps[ns].len < allApps[ns].data.Length
      modifies this, allApps[ns].data
      ensures allApps == old(allApps)[ns := Slice(old(allApps[ns].data), old(allApps[ns].len) + 1)]
      ensures forall n :: n in allApps ==> allApps[n].len <= allApps[n].data.Length
      ensures Contents() == old(Contents())[ns := old(Contents()[ns]) + [w]]
    {
      var list := allApps[ns];
      list.data[list.len] := w;
      Assign(ns, Slice(list.data, list.len + 1));
      assert list.data[..list.len + 1] == old(list.data[..list.len]) + [w];
    }

    /** A larger backing array with the list of `ns` copied into it and `w` put behind it. */
    method Grown(ns: string, w: WebApp) returns (list: Slice)
      requires Valid()
      ensures fresh(list.data) && list.len <= list.data.Length
      ensures list.data[..list.len] == ListOf(Contents(), ns) + [w]
    {
      var len := if ns in allApps then allApps[ns].len else 0;
      var data := new WebApp[2 * len + 1](_ => w);
      if ns in allApps {
        var from := allApps[ns].data;
        var k := 0;
        while k < len
          invariant 0 <= k <= len
          invariant data[..k] == from[..k]
          invariant forall j :: k <= j < data.Length ==> data[j] == w
        {
          data[k] := from[k];
          k := k + 1;
        }
      }
      list := Slice(data, len + 1);
    }
  }
}
