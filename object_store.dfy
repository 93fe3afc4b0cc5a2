/**
 * The object store behind a swiftclient connection: containers holding
 * named objects.  Any request can be refused with an HTTP status by the
 * table `refused`; a request for a container or an object that does not
 * exist otherwise raises ClientException with status 404.
 */
module ObjectStore {
  import opened Values

  /** The requests a connection sends. */
  datatype Request =
    | HeadContainer(container: string)
    | HeadObject(container: string, name: string)
    | GetObject(container: string, name: string)
    | PutObject(container: string, name: string)
    | DeleteObject(container: string, name: string)

  /** An object: its bytes and, for a manifest, its `X-Object-Manifest` header. */
  datatype StoredObject = StoredObject(data: seq<bv8>, manifest: Option<string>)

  type Containers = map<string, map<string, StoredObject>>

  /** What a request that may change the store did: returned or raised, and the containers after it. */
  datatype Step = Step(outcome: Outcome<Error>, after: Containers)

  const HttpNotFound: int := 404
  const HttpConflict: int := 409

  /** The ClientException of a request, if it raises one: its refusal, else 404 for a missing target. */
  function Refusal(refused: map<Request, int>, req: Request, present: bool): Option<Error>
  {
    if req in refused then Some(ClientException(refused[req]))
    else if !present then Some(ClientException(HttpNotFound))
    else None
  }

  function HeadContainerOutcome(st: Containers, refused: map<Request, int>, c: string): Outcome<Error>
  {
    match Refusal(refused, HeadContainer(c), c in st)
    case Some(e) => Fail(e)
    case None => Pass
  }

  function HeadObjectOutcome(st: Containers, refused: map<Request, int>, c: string, name: string): Outcome<Error>
  {
    match Refusal(refused, HeadObject(c, name), c in st && name in st[c])
    case Some(e) => Fail(e)
    case None => Pass
  }

  function GetObjectResult(st: Containers, refused: map<Request, int>, c: string, name: string): Result<seq<bv8>, Error>
  {
    match Refusal(refused, GetObject(c, name), c in st && name in st[c])
    case Some(e) => Err(e)
    case None => Ok(st[c][name].data)
  }

  /** `put_object`: the object replaces any of the same name; a missing container gives 404. */
  function Put(st: Containers, refused: map<Request, int>, c: string, name: string, obj: StoredObject): (s: Step)
    ensures s.outcome.Pass? ==> c in st && s.after == st[c := st[c][name := obj]]
    ensures s.outcome.Fail? ==> s.after == st && s.outcome.error.ClientException?
  {
    match Refusal(refused, PutObject(c, name), c in st)
    case Some(e) => Step(Fail(e), st)
    case None => Step(Pass, st[c := st[c][name := obj]])
  }

  /** `delete_object`: the object is removed; a missing one gives 404. */
  function Delete(st: Containers, refused: map<Request, int>, c: string, name: string): (s: Step)
    ensures s.outcome.Pass? ==> c in st && name in st[c] && s.after == st[c := st[c] - {name}]
    ensures s.outcome.Fail? ==> s.after == st && s.outcome.error.ClientException?
  {
    match Refusal(refused, DeleteObject(c, name), c in st && name in st[c])
    case Some(e) => Step(Fail(e), st)
    case None => Step(Pass, st[c := st[c] - {name}])
  }

  /** A swiftclient connection to the store. */
  class Connection {
    var containers: Containers
    /** The requests the store refuses, with the status of the ClientException each raises. */
    const refused: map<Request, int>

    constructor (containers: Containers, refused: map<Request, int>)
      ensures this.containers == containers && this.refused == refused
    {
      this.containers, this.refused := containers, refused;
    }

    method HeadContainer(c: string) returns (o: Outcome<Error>)
      ensures o == HeadContainerOutcome(containers, refused, c)
    {
      o := HeadContainerOutcome(containers, refused, c);
    }

    method HeadObject(c: string, name: string) returns (o: Outcome<Error>)
      ensures o == HeadObjectOutcome(containers, refused, c, name)
    {
      o := HeadObjectOutcome(containers, refused, c, name);
    }

    method GetObject(c: string, name: string) returns (r: Result<seq<bv8>, Error>)
      ensures r == GetObjectResult(containers, refused, c, name)
    {
      r := GetObjectResult(containers, refused, c, name);
    }

    method PutObject(c: string, name: string, obj: StoredObject) returns (o: Outcome<Error>)
      modifies this`containers
      ensures Step(o, containers) == Put(old(containers), refused, c, name, obj)
    {
      var s := Put(containers, refused, c, name, obj);
      o, containers := s.outcome, s.after;
    }

    method DeleteObject(c: string, name: string) returns (o: Outcome<Error>)
      modifies this`containers
      ensures Step(o, containers) == Delete(old(containers), refused, c, name)
    {
      var s := Delete(containers, refused, c, name);
      o, containers := s.outcome, s.after;
    }
  }
}
