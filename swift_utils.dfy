/**
 * `SwiftStore` and `ChunkReader` of the scripts' swift utilities, as
 * classes whose methods change a swiftclient `Connection` step by step.
 * Each method is proved against the functions of `SwiftChunks` (for `add`)
 * or against a function of this module, whose properties are lemmas.
 */
module SwiftUtils {
  import opened Values
  import opened ObjectStore
  import opened SwiftChunks

  /** `ONE_MB`: the unit of the large-object size options. */
  const OneMb: nat := 1000 * 1024

  /** `RETRIES` of `_http_request`: the number of attempts after the first. */
  const Retries: nat := 5

  /** The block size in which a request body is read from its reader. */
  const BodyBlock: nat := 65536

  /** The image data handed to `add`: a file-like object read from a position onwards. */
  class Stream {
    const data: seq<bv8>
    var pos: nat

    constructor (data: seq<bv8>)
      ensures this.data == data && pos == 0
    {
      this.data, pos := data, 0;
    }

    predicate Valid()
      reads this
    {
      pos <= |data|
    }

    /** `read(n)`: up to `n` bytes from the position on; fewer only at the end of the data. */
    method Read(n: nat) returns (r: seq<bv8>)
      requires Valid()
      modifies this`pos
      ensures Valid()
      ensures pos == old(pos) + Min(n, |data| - old(pos))
      ensures r == data[old(pos)..pos]
    {
      var m := Min(n, |data| - pos);
      r := data[pos..pos + m];
      pos := pos + m;
    }
  }

  /** The running `hashlib.md5()` object: the bytes fed to it so far. */
  class Checksum {
    var digested: seq<bv8>

    constructor ()
      ensures digested == []
    {
      digested := [];
    }

    method Update(b: seq<bv8>)
      modifies this`digested
      ensures digested == old(digested) + b
    {
      digested := digested + b;
    }
  }

  /**
   * `ChunkReader`: a view of at most `total` bytes of `fd`, feeding every
   * byte it returns to `checksum`.
   */
  class ChunkReader {
    const fd: Stream
    const checksum: Checksum
    const total: nat
    var bytesRead: nat

    constructor (fd: Stream, checksum: Checksum, total: nat)
      ensures this.fd == fd && this.checksum == checksum && this.total == total && bytesRead == 0
    {
      this.fd, this.checksum, this.total := fd, checksum, total;
      bytesRead := 0;
    }

    /** The reader never hands out more than `total` bytes. */
    predicate Valid()
      reads this, fd
    {
      fd.Valid() && bytesRead <= total
    }

    /**
     * `read(i)`: the request is cut down to what is left of `total`;
     * `bytes_read` grows by exactly the number of bytes returned, and the
     * checksum takes in those bytes.
     */
    method Read(i: nat) returns (r: seq<bv8>)
      requires Valid()
      modifies this`bytesRead, fd`pos, checksum`digested
      ensures Valid()
      ensures fd.pos == old(fd.pos) + Min(Min(i, total - old(bytesRead)), |fd.data| - old(fd.pos))
      ensures r == fd.data[old(fd.pos)..fd.pos]
      ensures bytesRead == old(bytesRead) + |r|
      ensures checksum.digested == old(checksum.digested) + r
    {
      var n := i;
      var left := total - bytesRead;
      if n > left {
        n := left;
      }
      r := fd.Read(n);
      bytesRead := bytesRead + |r|;
      checksum.Update(r);
    }
  }

  /**
   * A request sending `reader` as its body reads it block by block until it
   * yields nothing: the body is the rest of the reader's `total`, or of its
   * stream when that ends first, whatever the block size.
   */
  method SendBody(reader: ChunkReader, block: nat) returns (body: seq<bv8>)
    requires reader.Valid() && block > 0
    modifies reader`bytesRead, reader.fd`pos, reader.checksum`digested
    ensures reader.Valid()
    ensures reader.fd.pos == old(reader.fd.pos) + Min(old(reader.total - reader.bytesRead), |reader.fd.data| - old(reader.fd.pos))
    ensures body == reader.fd.data[old(reader.fd.pos)..reader.fd.pos]
    ensures reader.bytesRead == old(reader.bytesRead) + |body|
    ensures reader.checksum.digested == old(reader.checksum.digested) + body
  {
    body := [];
    while true
      invariant reader.Valid()
      invariant reader.fd.pos == old(reader.fd.pos) + |body|
      invariant body == reader.fd.data[old(reader.fd.pos)..reader.fd.pos]
      invariant reader.bytesRead == old(reader.bytesRead) + |body|
      invariant reader.checksum.digested == old(reader.checksum.digested) + body
      decreases reader.total - reader.bytesRead
    {
      var b := reader.Read(block);
      if b == [] {
        return;
      }
      body := body + b;
    }
  }

  /**
   * An HTTPS connection to the identity service.  The first attempts raise
   * the `failures`, in order; every later attempt gets the `response` body.
   */
  class HttpConnection {
    const failures: seq<Error>
    const response: seq<bv8>
    var attempts: nat
    var closes: nat

    constructor (failures: seq<Error>, response: seq<bv8>)
      ensures this.failures == failures && this.response == response && attempts == 0 && closes == 0
    {
      this.failures, this.response := failures, response;
      attempts, closes := 0, 0;
    }

    /** `request`, `getresponse` and `read` of one attempt. */
    method Exchange() returns (r: Result<seq<bv8>, Error>)
      modifies this`attempts
      ensures attempts == old(attempts) + 1
      ensures r == if old(attempts) < |failures| then Err(failures[old(attempts)]) else Ok(response)
    {
      r := if attempts < |failures| then Err(failures[attempts]) else Ok(response);
      attempts := attempts + 1;
    }

    method Close()
      modifies this`closes
      ensures closes == old(closes) + 1
    {
      closes := closes + 1;
    }
  }

  /** `2 ** n`. */
  function Pow2(n: nat): nat
  {
    if n == 0 then 1 else 2 * Pow2(n - 1)
  }

  /** The back-off before retry `n + 1`, in seconds: `2.0 ** n / 2`. */
  function Backoff(n: nat): real
  {
    Pow2(n) as real / 2.0
  }

  /** The back-off starts at half a second and doubles before each further retry. */
  lemma BackoffDoubles(n: nat)
    ensures Backoff(0) == 0.5
    ensures Backoff(n + 1) == 2.0 * Backoff(n)
  {
  }

  /** Whether `e` is the object store's `cloudFiles` endpoint in region `region`. */
  predicate IsObjectStore(e: map<string, Value>, region: Value)
  {
    && Lookup(e, "type") == JStr("object-store")
    && Lookup(e, "name") == JStr("cloudFiles")
    && Truthy(Lookup(e, "region")) && Lookup(e, "region") == region
  }

  /** An endpoint the scan passes over: a falsy one, or a dictionary that is not the wanted endpoint. */
  predicate Skipped(e: Value, region: Value)
  {
    !Truthy(e) || (e.JObj? && !IsObjectStore(e.fields, region))
  }

  /**
   * The `for endpoint in ...` scan of `get_connection` over a list: the
   * `publicURL` of the first wanted endpoint, None when there is none; a
   * truthy endpoint that is not a dictionary has no `get`.
   */
  function ScanEndpoints(endpoints: seq<Value>, region: Value): Result<Value, Error>
  {
    if endpoints == [] then Ok(JNull)
    else if Skipped(endpoints[0], region) then ScanEndpoints(endpoints[1..], region)
    else if endpoints[0].JObj? then GetItem(endpoints[0], "publicURL")
    else Err(AttributeError(TypeName(endpoints[0]), "get"))
  }

  /**
   * The `auth_url` that `get_connection` finds in the endpoint listing
   * `data`.  Iterating a dictionary yields its keys and iterating a string
   * its characters; a non-empty one of either has no `get`.
   */
  function AuthUrl(data: Value, region: Value): Result<Value, Error>
  {
    match GetOrNone(data, "endpoints")
    case Err(e) => Err(e)
    case Ok(endpoints) =>
      match endpoints
      case JList(items) => ScanEndpoints(items, region)
      case JObj(m) => if exists k :: k in m && k != "" then Err(AttributeError("str", "get")) else Ok(JNull)
      case JStr(s) => if s != "" then Err(AttributeError("str", "get")) else Ok(JNull)
      case _ => Err(TypeError("'" + TypeName(endpoints) + "' object is not iterable"))
  }

  /** The first endpoint the scan does not pass over decides the URL. */
  lemma {:induction false} ScanStopsAtFirst(endpoints: seq<Value>, region: Value, i: nat)
    requires i < |endpoints| && !Skipped(endpoints[i], region)
    requires forall j :: 0 <= j < i ==> Skipped(endpoints[j], region)
    ensures endpoints[i].JObj? ==> ScanEndpoints(endpoints, region) == GetItem(endpoints[i], "publicURL")
    ensures !endpoints[i].JObj? ==> ScanEndpoints(endpoints, region) == Err(AttributeError(TypeName(endpoints[i]), "get"))
    decreases i
  {
    if i > 0 {
      assert Skipped(endpoints[0], region);
      ScanStopsAtFirst(endpoints[1..], region, i - 1);
    }
  }

  /** When every endpoint is passed over, the URL is None. */
  lemma {:induction false} ScanFindsNothing(endpoints: seq<Value>, region: Value)
    requires forall j :: 0 <= j < |endpoints| ==> Skipped(endpoints[j], region)
    ensures ScanEndpoints(endpoints, region) == Ok(JNull)
    decreases |endpoints|
  {
    if endpoints != [] {
      ScanFindsNothing(endpoints[1..], region);
    }
  }

  /** A wanted endpoint's `publicURL` is the URL, and nothing but a wanted endpoint's `publicURL` is. */
  lemma {:induction false} ScanFindsWanted(endpoints: seq<Value>, region: Value)
    ensures ScanEndpoints(endpoints, region).Ok? && ScanEndpoints(endpoints, region).value != JNull ==>
      exists i :: 0 <= i < |endpoints| && endpoints[i].JObj? && IsObjectStore(endpoints[i].fields, region)
        && "publicURL" in endpoints[i].fields && ScanEndpoints(endpoints, region).value == endpoints[i].fields["publicURL"]
    decreases |endpoints|
  {
    if endpoints != [] && Skipped(endpoints[0], region) {
      ScanFindsWanted(endpoints[1..], region);
      var r := ScanEndpoints(endpoints, region);
      if r.Ok? && r.value != JNull {
        var i :| 0 <= i < |endpoints[1..]| && endpoints[1..][i].JObj? && IsObjectStore(endpoints[1..][i].fields, region)
          && "publicURL" in endpoints[1..][i].fields && r.value == endpoints[1..][i].fields["publicURL"];
        assert endpoints[i + 1] == endpoints[1..][i];
      }
    } else if endpoints != [] && endpoints[0].JObj? {
      var r := ScanEndpoints(endpoints, region);
      if r.Ok? && r.value != JNull {
        assert endpoints[0].JObj? && IsObjectStore(endpoints[0].fields, region);
      }
    }
  }

  /**
   * `get`: the object's bytes; None for an empty object; a 404 becomes
   * NotFound, any other refusal is raised as it is.
   */
  function Fetch(st: Containers, refused: map<Request, int>, c: string, obj: string): (r: Result<Option<seq<bv8>>, Error>)
    ensures r.Ok? <==> GetObject(c, obj) !in refused && c in st && obj in st[c]
    ensures r.Ok? && r.value.Some? ==> r.value.value == st[c][obj].data && r.value.value != []
    ensures r.Ok? && r.value.None? ==> st[c][obj].data == []
    ensures r.Err? && r.error.NotFound? <==> Refusal(refused, GetObject(c, obj), c in st && obj in st[c]) == Some(ClientException(HttpNotFound))
  {
    match GetObjectResult(st, refused, c, obj)
    case Err(e) => Err(if e == ClientException(HttpNotFound) then NotFound("Swift could not find object " + obj + ".") else e)
    case Ok(bytes) => if |bytes| == 0 then Ok(None) else Ok(Some(bytes))
  }

  /** What `add` writes with a single PUT, `get` reads back. */
  lemma FetchAfterSmallAdd(st: Containers, refused: map<Request, int>, id: string, data: seq<bv8>, size: nat,
                           c: string, largeSize: nat, chunk: nat)
    requires c in st && id !in st[c] && Unrefused(refused, c)
    requires 0 < size < largeSize && data != []
    ensures Fetch(AddSpec(st, refused, id, data, Some(size), c, largeSize, chunk).store, refused, c, id)
         == Ok(Some(data[..Min(size, |data|)]))
  {
    AddSmallImage(st, refused, id, data, size, c, largeSize, chunk);
    assert GetObject(c, id) !in refused;
  }

  /** `SwiftStore`: the configured region and large-object sizes. */
  class SwiftStore {
    const region: Value
    const largeObjectSize: nat
    const largeObjectChunkSize: nat

    constructor (region: Value, objectSizeMb: nat, chunkSizeMb: nat)
      ensures this.region == region
      ensures largeObjectSize == objectSizeMb * OneMb && largeObjectChunkSize == chunkSizeMb * OneMb
    {
      this.region := region;
      largeObjectSize := objectSizeMb * OneMb;
      largeObjectChunkSize := chunkSizeMb * OneMb;
    }

    /**
     * `_http_request`: at most `RETRIES + 1` attempts, the connection closed
     * after each; the error of the last attempt is raised.  Before each
     * retry the back-off doubles, starting at half a second.
     */
    method HttpRequest(conn: HttpConnection) returns (r: Result<seq<bv8>, Error>, sleeps: seq<real>)
      requires conn.attempts == 0 && conn.closes == 0
      modifies conn`attempts, conn`closes
      ensures conn.attempts == conn.closes == Min(|conn.failures|, Retries) + 1
      ensures |conn.failures| <= Retries ==> r == Ok(conn.response)
      ensures |conn.failures| > Retries ==> r == Err(conn.failures[Retries])
      ensures |sleeps| == conn.attempts - 1 && forall i :: 0 <= i < |sleeps| ==> sleeps[i] == Backoff(i)
      ensures |sleeps| > 0 ==> sleeps[0] == 0.5
      ensures forall i :: 0 < i < |sleeps| ==> sleeps[i] == 2.0 * sleeps[i - 1]
    {
      var retry: nat := 0;
      sleeps := [];
      while true
        invariant retry <= Retries && retry <= |conn.failures|
        invariant conn.attempts == retry && conn.closes == retry
        invariant |sleeps| == retry && forall i :: 0 <= i < retry ==> sleeps[i] == Backoff(i)
        decreases Retries - retry
      {
        r := conn.Exchange();
        conn.Close();
        if r.Ok? || retry == Retries {
          forall i | 0 < i < |sleeps| ensures sleeps[i] == 2.0 * sleeps[i - 1] {
            BackoffDoubles(i - 1);
          }
          BackoffDoubles(0);
          return;
        }
        sleeps := sleeps + [Backoff(retry)];
        retry := retry + 1;
      }
    }

    /** The endpoint scan of `get_connection`, over the listing the identity service returned. */
    method FindAuthUrl(data: Value) returns (r: Result<Value, Error>)
      ensures r == AuthUrl(data, region)
    {
      var endpoints := GetOrNone(data, "endpoints");
      if endpoints.Err? {
        return Err(endpoints.error);
      }
      if !endpoints.value.JList? {
        return AuthUrl(data, region);
      }
      var items := endpoints.value.items;
      for i := 0 to |items|
        invariant ScanEndpoints(items[i..], region) == ScanEndpoints(items, region)
      {
        var e := items[i];
        assert items[i..][0] == e && items[i..][1..] == items[i + 1..];
        if Truthy(e) {
          if !e.JObj? {
            return Err(AttributeError(TypeName(e), "get"));
          }
          if IsObjectStore(e.fields, region) {
            return GetItem(e, "publicURL");
          }
        }
      }
      return Ok(JNull);
    }

    /** `_delete_stale_chunks`: delete each chunk in turn, passing over the deletes that fail. */
    method DeleteStaleChunks(connection: Connection, c: string, chunks: seq<string>)
      modifies connection`containers
      ensures connection.containers == DeleteAll(old(connection.containers), connection.refused, c, chunks)
    {
      for i := 0 to |chunks|
        invariant connection.containers == DeleteAll(old(connection.containers), connection.refused, c, chunks[..i])
      {
        var o := connection.DeleteObject(c, chunks[i]);
        assert chunks[..i + 1][..i] == chunks[..i];
      }
      assert chunks[..|chunks|] == chunks;
    }

    /** `get(container, obj, auth_token, connection)`. */
    method Get(connection: Connection, c: string, obj: string) returns (r: Result<Option<seq<bv8>>, Error>)
      ensures r == Fetch(connection.containers, connection.refused, c, obj)
    {
      var g := connection.GetObject(c, obj);
      if g.Err? {
        if g.error == ClientException(HttpNotFound) {
          return Err(NotFound("Swift could not find object " + obj + "."));
        }
        return Err(g.error);
      }
      if |g.value| == 0 {
        return Ok(None);
      }
      return Ok(Some(g.value));
    }

    /**
     * `add(image_id, image_data, image_size, auth_token, container, connection)`:
     * the checks on the container and the image id, then one PUT or the
     * chunked upload; `size` is None for an image size that cannot be
     * subtracted from.
     */
    method Add(connection: Connection, id: string, data: Stream, size: Option<nat>, c: string) returns (r: Result<Digest, Error>)
      requires data.Valid()
      modifies connection`containers, data`pos
      ensures AddEnd(r, connection.containers)
           == AddSpec(old(connection.containers), connection.refused, id, old(data.data[data.pos..]), size, c,
                      largeObjectSize, largeObjectChunkSize)
    {
      ghost var rest := data.data[data.pos..];
      var hc := connection.HeadContainer(c);
      if hc.Fail? {
        if hc.error == ClientException(HttpNotFound) {
          return Err(MissingContainer(c));
        }
        return Err(hc.error);
      }
      var ho := connection.HeadObject(c, id);
      if ho.Pass? {
        return Err(AlreadyStored(id, c));
      }
      if ho.error != ClientException(HttpNotFound) {
        return Err(ho.error);
      }
      if size.Some? && 0 < size.value < largeObjectSize {
        var bytes := data.Read(size.value);
        assert bytes == rest[..Min(size.value, |rest|)];
        var o := connection.PutObject(c, id, StoredObject(bytes, None));
        if o.Fail? {
          return Err(Wrap(o.error));
        }
        return Ok(Md5Of(bytes));
      }
      if size.Some? && size.value > 0 && largeObjectChunkSize == 0 {
        return Err(FloatDivisionByZero);
      }
      if size.None? {
        return Err(NoneMinusInt);
      }
      r := AddChunked(connection, id, data, size.value, c);
    }

    /** The chunked branch of `add`: the chunk loop, then the manifest under the image id. */
    method AddChunked(connection: Connection, id: string, data: Stream, size: nat, c: string) returns (r: Result<Digest, Error>)
      requires data.Valid()
      modifies connection`containers, data`pos
      ensures AddEnd(r, connection.containers)
           == ChunkedAdd(old(connection.containers), Upload(connection.refused, c, id, size, largeObjectChunkSize),
                         old(data.data[data.pos..]))
    {
      var checksum := new Checksum();
      var error, written := WriteChunks(connection, id, data, size, c, checksum);
      if error.Some? {
        return Err(Wrap(error.value));
      }
      var o := connection.PutObject(c, id, Manifest(c, id));
      if o.Fail? {
        return Err(Wrap(o.error));
      }
      return Ok(Md5Of(checksum.digested));
    }

    /**
     * The `while True` chunk loop of `add`, from chunk 1 with nothing
     * written: it ends where `ChunkLoop` ends.
     */
    method WriteChunks(connection: Connection, id: string, data: Stream, size: nat, c: string, checksum: Checksum)
      returns (error: Option<Error>, written: seq<string>)
      requires data.Valid()
      modifies connection`containers, data`pos, checksum`digested
      ensures var end := ChunkLoop(Upload(connection.refused, c, id, size, largeObjectChunkSize),
                                   Cursor(old(connection.containers), 1, [], old(data.data[data.pos..]), 0, old(checksum.digested)));
        && connection.containers == end.store && error == end.error && written == end.written
        && checksum.digested == end.read
    {
      var u := Upload(connection.refused, c, id, size, largeObjectChunkSize);
      var chunkId: nat := 1;
      var combined: nat := 0;
      written := [];
      while true
        invariant data.Valid()
        invariant Within(u, Cursor(connection.containers, chunkId, written, data.data[data.pos..], combined, checksum.digested))
        invariant ChunkLoop(u, Cursor(connection.containers, chunkId, written, data.data[data.pos..], combined, checksum.digested))
               == ChunkLoop(u, Cursor(old(connection.containers), 1, [], old(data.data[data.pos..]), 0, old(checksum.digested)))
        decreases |data.data| - data.pos
      {
        ghost var k := Cursor(connection.containers, chunkId, written, data.data[data.pos..], combined, checksum.digested);
        var done;
        done, error, written, chunkId, combined := WriteChunk(connection, u, data, checksum, chunkId, written, combined);
        if done {
          return;
        }
        assert ChunkLoop(u, k)
            == ChunkLoop(u, Cursor(connection.containers, chunkId, written, data.data[data.pos..], combined, checksum.digested));
      }
    }

    /**
     * One pass through the body of the chunk loop, from the given
     * `chunk_id`, `written_chunks` and `combined_chunks_size`: it does what
     * `Turn` describes, and says whether the loop ends.
     */
    method WriteChunk(connection: Connection, u: Upload, data: Stream, checksum: Checksum,
                      chunkId: nat, written: seq<string>, combined: nat)
      returns (done: bool, error: Option<Error>, written': seq<string>, chunkId': nat, combined': nat)
      requires data.Valid() && u.refused == connection.refused && u.chunk == largeObjectChunkSize
      requires Within(u, Cursor(connection.containers, chunkId, written, data.data[data.pos..], combined, checksum.digested))
      modifies connection`containers, data`pos, checksum`digested
      ensures data.Valid()
      ensures var t := Turn(u, Cursor(old(connection.containers), chunkId, written, old(data.data[data.pos..]), combined,
                                      old(checksum.digested)));
        if done then t == Done(LoopEnd(connection.containers, error, written', checksum.digested))
        else t == Next(Cursor(connection.containers, chunkId', written', data.data[data.pos..], combined', checksum.digested))
    {
      ghost var k := Cursor(connection.containers, chunkId, written, data.data[data.pos..], combined, checksum.digested);
      var chunkSize := largeObjectChunkSize;
      if u.size != 0 {
        var left := u.size - combined;
        if left == 0 {
          return true, None, written, chunkId, combined;
        }
        if chunkSize > left {
          chunkSize := left;
        }
      }
      assert chunkSize == ChunkSize(u, k);
      var name := ChunkName(u.id, chunkId);
      var reader := new ChunkReader(data, checksum, chunkSize);
      var body := SendBody(reader, BodyBlock);
      assert body == Piece(u, k);
      var o := connection.PutObject(u.c, name, StoredObject(body, None));
      if o.Fail? {
        DeleteStaleChunks(connection, u.c, written);
        return true, Some(o.error), written, chunkId, combined;
      }
      written' := written + [name];
      if reader.bytesRead == 0 {
        var d := connection.DeleteObject(u.c, name);
        error := if d.Fail? then Some(d.error) else None;
        return true, error, written', chunkId, combined;
      }
      return false, None, written', chunkId + 1, combined + reader.bytesRead;
    }
  }
}
