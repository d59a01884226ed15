/**
 The API server as the operator sees it. Every call may be answered with any error, in which case it has no
 effect; the answers of a pass are scripted, a call past the end of the script being answered faithfully.
 `Api` is the state of one pass; `Client` is the object whose methods carry it.
 */
module ClientApi {
  import opened WebServerApi
  import opened ClusterObjects

  datatype Err = NotFound | AlreadyExists | Conflict | Forbidden | Other

  type Script = seq<Option<Err>>

  datatype Verb = GET | CREATE | UPDATE | DELETE | LIST | INSTANTIATE

  /** What a pass did, call by call. */
  datatype Event =
    | Read(obj: Object)
    | Created(obj: Object)
    | Updated(was: Object, obj: Object)
    | Deleted(obj: Object)
    | Instantiated(ref: Ref)
    | ServerRead(server: WebServer)
    | ServerWritten(server: WebServer)
    | StatusWritten(status: Status)
    | Listed
    | Refused(verb: Verb, target: Option<Ref>, err: Err)

  datatype Api = Api(objects: Store, server: Option<WebServer>, script: Script, log: seq<Event>)
  {
    function Answer(): Option<Err> {
      if script == [] then None else script[0]
    }

    /** One call later, with that event. */
    function Then(e: Event): Api {
      this.(script := if script == [] then [] else script[1..], log := log + [e])
    }
  }

  datatype Reply<+T> = Ok(value: T) | Fail(err: Err)

  function GetCall(s: Api, ref: Ref): (Api, Reply<Object>) {
    if s.Answer().Some? then (s.Then(Refused(GET, Some(ref), s.Answer().value)), Fail(s.Answer().value))
    else if ref !in s.objects then (s.Then(Refused(GET, Some(ref), NotFound)), Fail(NotFound))
    else (s.Then(Read(s.objects[ref])), Ok(s.objects[ref]))
  }

  function CreateCall(s: Api, obj: Object): (Api, Option<Err>) {
    if s.Answer().Some? then (s.Then(Refused(CREATE, Some(obj.Id()), s.Answer().value)), s.Answer())
    else if obj.Id() in s.objects then (s.Then(Refused(CREATE, Some(obj.Id()), AlreadyExists)), Some(AlreadyExists))
    else (s.Then(Created(obj)).(objects := s.objects[obj.Id() := obj]), None)
  }

  function UpdateCall(s: Api, obj: Object): (Api, Option<Err>) {
    if s.Answer().Some? then (s.Then(Refused(UPDATE, Some(obj.Id()), s.Answer().value)), s.Answer())
    else if obj.Id() !in s.objects then (s.Then(Refused(UPDATE, Some(obj.Id()), NotFound)), Some(NotFound))
    else (s.Then(Updated(s.objects[obj.Id()], obj)).(objects := s.objects[obj.Id() := obj]), None)
  }

  function DeleteCall(s: Api, ref: Ref): (Api, Option<Err>) {
    if s.Answer().Some? then (s.Then(Refused(DELETE, Some(ref), s.Answer().value)), s.Answer())
    else if ref !in s.objects then (s.Then(Refused(DELETE, Some(ref), NotFound)), Some(NotFound))
    else (s.Then(Deleted(s.objects[ref])).(objects := s.objects - {ref}), None)
  }

  /** A list call: the caller picks its objects out of the store when the call succeeds. */
  function ListCall(s: Api): (Api, Option<Err>) {
    if s.Answer().Some? then (s.Then(Refused(LIST, None, s.Answer().value)), s.Answer())
    else (s.Then(Listed), None)
  }

  /** Starts a build of a BuildConfig. */
  function InstantiateCall(s: Api, ref: Ref): (Api, Option<Err>) {
    if s.Answer().Some? then (s.Then(Refused(INSTANTIATE, Some(ref), s.Answer().value)), s.Answer())
    else if ref !in s.objects then (s.Then(Refused(INSTANTIATE, Some(ref), NotFound)), Some(NotFound))
    else (s.Then(Instantiated(ref)), None)
  }

  function GetServerCall(s: Api): (Api, Option<Err>) {
    if s.Answer().Some? then (s.Then(Refused(GET, None, s.Answer().value)), s.Answer())
    else if s.server.None? then (s.Then(Refused(GET, None, NotFound)), Some(NotFound))
    else (s.Then(ServerRead(s.server.value)), None)
  }

  /** Writes the resource itself, without its status. */
  function UpdateServerCall(s: Api, w: WebServer): (Api, Option<Err>) {
    if s.Answer().Some? then (s.Then(Refused(UPDATE, None, s.Answer().value)), s.Answer())
    else if s.server.None? then (s.Then(Refused(UPDATE, None, NotFound)), Some(NotFound))
    else (s.Then(ServerWritten(w)).(server := Some(w)), None)
  }

  /** Writes the status subresource. */
  function UpdateStatusCall(s: Api, status: Status): (Api, Option<Err>) {
    if s.Answer().Some? then (s.Then(Refused(UPDATE, None, s.Answer().value)), s.Answer())
    else if s.server.None? then (s.Then(Refused(UPDATE, None, NotFound)), Some(NotFound))
    else (s.Then(StatusWritten(status)), None)
  }

  class Client {
    var objects: Store
    var server: Option<WebServer>
    var status: Status
    var script: Script
    ghost var log: seq<Event>

    ghost function State(): Api
      reads this
    {
      Api(objects, server, script, log)
    }

    constructor (objects: Store, server: Option<WebServer>, status: Status, script: Script)
      ensures State() == Api(objects, server, script, []) && this.status == status
    {
      this.objects, this.server, this.status, this.script := objects, server, status, script;
      log := [];
    }

    /** Takes the answer to the next call off the script. */
    method NextAnswer() returns (answer: Option<Err>)
      modifies this`script
      ensures answer == old(State()).Answer()
      ensures script == if old(script) == [] then [] else old(script)[1..]
    {
      if script == [] { return None; }
      answer := script[0];
      script := script[1..];
    }

    method Get(ref: Ref) returns (reply: Reply<Object>)
      modifies this`script, this`log
      ensures (State(), reply) == GetCall(old(State()), ref)
    {
      var answer := NextAnswer();
      if answer.Some? {
        reply := Fail(answer.value);
        log := log + [Refused(GET, Some(ref), answer.value)];
      } else if ref !in objects {
        reply := Fail(NotFound);
        log := log + [Refused(GET, Some(ref), NotFound)];
      } else {
        reply := Ok(objects[ref]);
        log := log + [Read(objects[ref])];
      }
    }

    method Create(obj: Object) returns (err: Option<Err>)
      modifies this`script, this`log, this`objects
      ensures (State(), err) == CreateCall(old(State()), obj)
    {
      err := NextAnswer();
      if err.None? && obj.Id() in objects { err := Some(AlreadyExists); }
      if err.Some? {
        log := log + [Refused(CREATE, Some(obj.Id()), err.value)];
      } else {
        objects := objects[obj.Id() := obj];
        log := log + [Created(obj)];
      }
    }

    method Update(obj: Object) returns (err: Option<Err>)
      modifies this`script, this`log, this`objects
      ensures (State(), err) == UpdateCall(old(State()), obj)
    {
      err := NextAnswer();
      if err.None? && obj.Id() !in objects { err := Some(NotFound); }
      if err.Some? {
        log := log + [Refused(UPDATE, Some(obj.Id()), err.value)];
      } else {
        log := log + [Updated(objects[obj.Id()], obj)];
        objects := objects[obj.Id() := obj];
      }
    }

    method Delete(ref: Ref) returns (err: Option<Err>)
      modifies this`script, this`log, this`objects
      ensures (State(), err) == DeleteCall(old(State()), ref)
    {
      err := NextAnswer();
      if err.None? && ref !in objects { err := Some(NotFound); }
      if err.Some? {
        log := log + [Refused(DELETE, Some(ref), err.value)];
      } else {
        log := log + [Deleted(objects[ref])];
        objects := objects - {ref};
      }
    }

    method List() returns (err: Option<Err>)
      modifies this`script, this`log
      ensures (State(), err) == ListCall(old(State()))
    {
      err := NextAnswer();
      log := log + [if err.Some? then Refused(LIST, None, err.value) else Listed];
    }

    method Instantiate(ref: Ref) returns (err: Option<Err>)
      modifies this`script, this`log
      ensures (State(), err) == InstantiateCall(old(State()), ref)
    {
      err := NextAnswer();
      if err.None? && ref !in objects { err := Some(NotFound); }
      log := log + [if err.Some? then Refused(INSTANTIATE, Some(ref), err.value) else Instantiated(ref)];
    }

    method GetServer() returns (err: Option<Err>)
      modifies this`script, this`log
      ensures (State(), err) == GetServerCall(old(State()))
    {
      err := NextAnswer();
      if err.None? && server.None? { err := Some(NotFound); }
      log := log + [if err.Some? then Refused(GET, None, err.value) else ServerRead(server.value)];
    }

    method UpdateServer(w: WebServer) returns (err: Option<Err>)
      modifies this`script, this`log, this`server
      ensures (State(), err) == UpdateServerCall(old(State()), w)
    {
      err := NextAnswer();
      if err.None? && server.None? { err := Some(NotFound); }
      if err.Some? {
        log := log + [Refused(UPDATE, None, err.value)];
      } else {
        server := Some(w);
        log := log + [ServerWritten(w)];
      }
    }

    method UpdateStatus(newStatus: Status) returns (err: Option<Err>)
      modifies this`script, this`log, this`status
      ensures (State(), err) == UpdateStatusCall(old(State()), newStatus)
      ensures status == if err.None? then newStatus else old(status)
    {
      err := NextAnswer();
      if err.None? && server.None? { err := Some(NotFound); }
      if err.Some? {
        log := log + [Refused(UPDATE, None, err.value)];
      } else {
        status := newStatus;
        log := log + [StatusWritten(newStatus)];
      }
    }
  }
}
