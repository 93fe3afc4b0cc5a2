/**
 * The swift-to-swift import script: the task input names
 * `<container uuid>/<object uuid>`; the script creates the image, downloads
 * the object, stores it as the image's data, and saves the image.  It shares
 * the task handling and `create_image` with the filesystem script.
 */
module ImportSwift {
  import opened Values
  import Domain
  import Repos
  import opened ImportCommon

  /** Python 2's message for `location[36]` on a string of 36 characters. */
  const IndexOutOfRange: string := "string index out of range"

  /** The failure of slicing a value that cannot be sliced. */
  function SliceError(location: Value): Error
  {
    if location.JObj? then TypeError("unhashable type") else TypeError(NoAttributeText(location, "__getitem__"))
  }

  /**
   * `format_location_uri` as written.  Slicing never raises IndexError, so
   * the `try` around it catches nothing; the later `location[36]` is outside
   * it, and on a location that is exactly one uuid it raises IndexError
   * instead of BadStoreUri.  `is not '/'` is read as inequality.
   */
  function FormatLocationUriAsWritten(location: Value): Result<(string, string), Error>
  {
    match location
    case JStr(s) =>
      var container := if |s| <= 36 then s else s[..36];
      if s == [] || !IsUuidLike(container) then Err(BadStoreUri("Invalid location: " + PyStr(location)))
      else if |s| <= 36 then Err(IndexError(IndexOutOfRange))
      else if s[36] != '/' || !IsUuidLike(s[37..]) then Err(BadStoreUri("Invalid location: " + PyStr(location)))
      else Ok((container, s[37..]))
    case JList(_) => Err(BadStoreUri("Invalid location: " + PyStr(location)))
    case _ => Err(SliceError(location))
  }

  /** A location that is a bare container uuid makes the parser as written raise IndexError. */
  lemma FormatLocationUriAsWrittenBareUuid(u: string)
    requires IsUuidLike(u)
    ensures FormatLocationUriAsWritten(JStr(u)) == Err(IndexError(IndexOutOfRange))
  {
  }

  /** The parser with the length checked before `location[36]`: such a location is a BadStoreUri. */
  function FormatLocationUri(location: Value): (r: Result<(string, string), Error>)
    ensures r.Err? ==> r.error.BadStoreUri? || r.error.TypeError?
    ensures r.Err? && r.error.TypeError? <==> !location.JStr? && !location.JList?
  {
    match location
    case JStr(s) =>
      if |s| > 36 && IsUuidLike(s[..36]) && s[36] == '/' && IsUuidLike(s[37..]) then Ok((s[..36], s[37..]))
      else Err(BadStoreUri("Invalid location: " + PyStr(location)))
    case JList(_) => Err(BadStoreUri("Invalid location: " + PyStr(location)))
    case _ => Err(SliceError(location))
  }

  /** `<uuid>/<uuid>` is accepted and split back into its two uuids, by both parsers. */
  lemma FormatLocationUriSplits(container: string, obj: string)
    requires IsUuidLike(container) && IsUuidLike(obj)
    ensures FormatLocationUri(JStr(container + "/" + obj)) == Ok((container, obj))
    ensures FormatLocationUriAsWritten(JStr(container + "/" + obj)) == Ok((container, obj))
  {
    var s := container + "/" + obj;
    assert s[..36] == container;
    assert s[36] == '/';
    assert s[37..] == obj;
  }

  /** Everything the corrected parser accepts is `<uuid>/<uuid>` of the two parts it returns. */
  lemma FormatLocationUriSound(location: Value)
    requires FormatLocationUri(location).Ok?
    ensures var (container, obj) := FormatLocationUri(location).value;
      && IsUuidLike(container) && IsUuidLike(obj)
      && location == JStr(container + "/" + obj)
  {
    var s := location.s;
    assert s == s[..36] + "/" + s[37..] by {
      assert s[..36] + [s[36]] + s[37..] == s;
    }
  }

  /** The two parsers differ only on a location that is a single uuid. */
  lemma FormatLocationUriDiffersOnlyOnBareUuid(location: Value)
    requires FormatLocationUriAsWritten(location) != FormatLocationUri(location)
    ensures location.JStr? && IsUuidLike(location.s)
  {
  }

  /** Python 2's message for `SwiftStore.get(container, object)` called on the class. */
  const UnboundGet: string :=
    "unbound method get() must be called with SwiftStore instance as first argument (got str instance instead)"

  /** `_get_image_data` as written: `SwiftStore.get` is called unbound, which always raises TypeError. */
  function GetImageDataAsWritten(container: string, obj: string): Result<seq<bv8>, Error>
  {
    Err(TypeError(UnboundGet))
  }

  /**
   * `_get_image_data` as intended: the script's own store `get` on a
   * connection.  `remote` holds the objects by container and name,
   * `remoteFailure` the HTTP status of a ClientException the connection
   * raises; 404, or an object that is not there, becomes NotFound, and any
   * other ClientException propagates.
   */
  function GetImageData(remote: map<string, map<string, seq<bv8>>>, remoteFailure: Option<int>, container: string, obj: string)
    : Result<seq<bv8>, Error>
  {
    if remoteFailure.Some? && remoteFailure.value != 404 then Err(ClientException(remoteFailure.value))
    else if remoteFailure.None? && container in remote && obj in remote[container] then Ok(remote[container][obj])
    else Err(NotFound("Swift could not find object " + obj + "."))
  }

  /**
   * The download yields the stored object when the connection does not
   * fail; a 404, or an object that is not there, is NotFound; any other
   * ClientException propagates unchanged.
   */
  lemma GetImageDataOutcomes(remote: map<string, map<string, seq<bv8>>>, remoteFailure: Option<int>, container: string, obj: string)
    ensures var r := GetImageData(remote, remoteFailure, container, obj);
      && (r.Ok? <==> remoteFailure.None? && container in remote && obj in remote[container])
      && (r.Ok? ==> r.value == remote[container][obj])
      && (r.Err? && (remoteFailure.None? || remoteFailure == Some(404)) ==> r.error.NotFound?)
      && (remoteFailure.Some? && remoteFailure.value != 404 ==> r == Err(ClientException(remoteFailure.value)))
  {
  }

  /** `execute` as written, after the task was found. */
  function RunAsWritten(input: Value, setDataFailure: Option<Error>, freshId: Value, now: Value): ImportRun
  {
    match UnpackTaskInput(input)
    case Err(e) => ImportRun(Err(e), input, None, None)
    case Ok(_) =>
      match GetOrNone(input, "import_from")
      case Err(e) => ImportRun(Err(e), input, None, None)
      case Ok(location) =>
        match FormatLocationUriAsWritten(location)
        case Err(e) => ImportRun(Err(e), input, None, None)
        case Ok((container, obj)) => ImportImageRun(input, GetImageDataAsWritten(container, obj), setDataFailure, freshId, now)
  }

  /**
   * The script as written never imports anything: every run fails, and a
   * run that got as far as creating the image leaves it in the repository
   * without data.
   */
  lemma RunAsWrittenNeverSucceeds(input: Value, setDataFailure: Option<Error>, freshId: Value, now: Value)
    ensures RunAsWritten(input, setDataFailure, freshId, now).result.Err?
    ensures RunAsWritten(input, setDataFailure, freshId, now).stored.None?
  {
  }

  /** `execute` with both corrections, after the task was found. */
  function Run(input: Value, remote: map<string, map<string, seq<bv8>>>, remoteFailure: Option<int>,
               setDataFailure: Option<Error>, freshId: Value, now: Value): ImportRun
  {
    match UnpackTaskInput(input)
    case Err(e) => ImportRun(Err(e), input, None, None)
    case Ok(_) =>
      match GetOrNone(input, "import_from")
      case Err(e) => ImportRun(Err(e), input, None, None)
      case Ok(location) =>
        match FormatLocationUri(location)
        case Err(e) => ImportRun(Err(e), input, None, None)
        case Ok((container, obj)) =>
          ImportImageRun(input, GetImageData(remote, remoteFailure, container, obj), setDataFailure, freshId, now)
  }

  /**
   * With a location the parser accepts (by `FormatLocationUriSplits`, any
   * `<uuid>/<uuid>`) and an image the factory accepts, the import succeeds
   * exactly when the object can be downloaded and the store takes it; the
   * object's bytes become the image's data.
   */
  lemma RunImportsTheObject(fields: map<string, Value>, remote: map<string, map<string, seq<bv8>>>, remoteFailure: Option<int>,
                            setDataFailure: Option<Error>, freshId: Value, now: Value)
    requires forall k :: k in ImportInputKeys ==> k in fields
    requires FormatLocationUri(fields["import_from"]).Ok?
    requires CreateImageResult(Lookup(fields, "image_properties"), freshId, now).Ok?
    ensures var run := Run(JObj(fields), remote, remoteFailure, setDataFailure, freshId, now);
      var (container, obj) := FormatLocationUri(fields["import_from"]).value;
      && run.created == Some(freshId)
      && (run.result.Ok? <==> remoteFailure.None? && container in remote && obj in remote[container] && setDataFailure.None?)
      && (run.result.Ok? ==> run.result.value == freshId && run.stored == Some(remote[container][obj]))
  {
    var (container, obj) := FormatLocationUri(fields["import_from"]).value;
    var fetched := GetImageData(remote, remoteFailure, container, obj);
    GetImageDataOutcomes(remote, remoteFailure, container, obj);
    RunReachesImport(fields, remote, remoteFailure, setDataFailure, freshId, now);
    ImportImageAfterCreate(JObj(fields), fetched, setDataFailure, freshId, now);
  }

  /** An input with the three keys and a location the parser accepts goes on to `import_image`. */
  lemma RunReachesImport(fields: map<string, Value>, remote: map<string, map<string, seq<bv8>>>, remoteFailure: Option<int>,
                         setDataFailure: Option<Error>, freshId: Value, now: Value)
    requires forall k :: k in ImportInputKeys ==> k in fields
    requires FormatLocationUri(fields["import_from"]).Ok?
    ensures var (container, obj) := FormatLocationUri(fields["import_from"]).value;
      Run(JObj(fields), remote, remoteFailure, setDataFailure, freshId, now)
      == ImportImageRun(JObj(fields), GetImageData(remote, remoteFailure, container, obj), setDataFailure, freshId, now)
  {
    UnpackTaskInputChecksKeys(fields);
    assert GetOrNone(JObj(fields), "import_from") == Ok(fields["import_from"]);
  }

  class SwiftImportScript {
    const context: Domain.Context
    const taskRepo: Repos.TaskRepo
    const imageRepo: Repos.ImageRepo
    /** The source swift's objects, by container and object name. */
    const remote: map<string, map<string, seq<bv8>>>
    /** The HTTP status of a ClientException the source connection raises, if it does. */
    const remoteFailure: Option<int>

    constructor (context: Domain.Context, taskRepo: Repos.TaskRepo, imageRepo: Repos.ImageRepo,
                 remote: map<string, map<string, seq<bv8>>>, remoteFailure: Option<int>)
      ensures this.context == context && this.taskRepo == taskRepo && this.imageRepo == imageRepo
      ensures this.remote == remote && this.remoteFailure == remoteFailure
    {
      this.context, this.taskRepo, this.imageRepo := context, taskRepo, imageRepo;
      this.remote, this.remoteFailure := remote, remoteFailure;
    }

    /** `set_image_data`: hand the bytes to the image; an error of `set_data` is re-raised. */
    method SetImageData(image: Domain.Image, bytes: seq<bv8>) returns (o: Outcome<Error>)
      modifies imageRepo`data
      ensures imageRepo.setDataFailure.Some? ==> o == Fail(imageRepo.setDataFailure.value) && imageRepo.data == old(imageRepo.data)
      ensures imageRepo.setDataFailure.None? ==> o == Pass && imageRepo.data == old(imageRepo.data)[image.imageId := bytes]
    {
      o := imageRepo.SetData(image, bytes);
    }

    /** The part of `import_image` after the data is downloaded: set it, then fetch and save the image. */
    method StoreAndSave(image: Domain.Image, bytes: seq<bv8>) returns (r: Result<Value, Error>)
      requires image.imageId in imageRepo.images && imageRepo.images[image.imageId] == image
      modifies imageRepo`saved, imageRepo`data
      ensures imageRepo.setDataFailure.Some? ==>
        && r == Err(imageRepo.setDataFailure.value)
        && imageRepo.saved == old(imageRepo.saved) && imageRepo.data == old(imageRepo.data)
      ensures imageRepo.setDataFailure.None? ==>
        && r == Ok(image.imageId)
        && imageRepo.saved == old(imageRepo.saved) + [image.imageId]
        && imageRepo.data == old(imageRepo.data)[image.imageId := bytes]
    {
      var o := SetImageData(image, bytes);
      if o.Fail? {
        return Err(o.error);
      }
      var id := image.imageId;
      var found := imageRepo.Get(id);
      if found.Err? {
        assert false;
        return Err(NotFound("No image found"));
      }
      imageRepo.Save(found.value);
      return Ok(id);
    }

    /**
     * The part of `import_image` after `create_image` returned the image or
     * raised: download the object, then store it and save the image.
     */
    method FinishImport(created: Result<Domain.Image, Error>, ghost cid: Result<Value, Error>,
                        container: string, obj: string, ghost after: Value) returns (r: Result<Value, Error>)
      requires cid == if created.Ok? then Ok(created.value.imageId) else Err(created.error)
      requires created.Ok? ==>
        created.value.imageId in imageRepo.images && imageRepo.images[created.value.imageId] == created.value
      modifies imageRepo`saved, imageRepo`data
      ensures var run := ImportSteps(after, cid, GetImageData(remote, remoteFailure, container, obj), imageRepo.setDataFailure);
        && r == run.result
        && CreatedIds(run) == (if created.Ok? then [created.value.imageId] else [])
        && imageRepo.saved == old(imageRepo.saved) + SavedIds(run)
        && imageRepo.data == DataAfter(old(imageRepo.data), run)
    {
      if created.Err? {
        return Err(created.error);
      }
      var data := GetImageData(remote, remoteFailure, container, obj);
      if data.Err? {
        return Err(data.error);
      }
      r := StoreAndSave(created.value, data.value);
    }

    /** `import_image(task_input, container, obj)`: create the image, then download and store its data. */
    method ImportImage(input: Value, container: string, obj: string, freshId: Value, now: Value)
      returns (r: Result<Value, Error>, inputAfter: Value)
      requires input.JObj?
      modifies imageRepo`images, imageRepo`added, imageRepo`saved, imageRepo`data
      ensures inputAfter == InputAfterCreate(input)
      ensures var run := ImportImageRun(input, GetImageData(remote, remoteFailure, container, obj), imageRepo.setDataFailure, freshId, now);
        && r == run.result
        && imageRepo.added == old(imageRepo.added) + CreatedIds(run)
        && imageRepo.saved == old(imageRepo.saved) + SavedIds(run)
        && imageRepo.data == DataAfter(old(imageRepo.data), run)
    {
      ghost var fetched := GetImageData(remote, remoteFailure, container, obj);
      ghost var cid := CreatedImageId(Lookup(input.fields, "image_properties"), freshId, now);
      assert ImportImageRun(input, fetched, imageRepo.setDataFailure, freshId, now)
        == ImportSteps(InputAfterCreate(input), cid, fetched, imageRepo.setDataFailure);
      var created;
      created, inputAfter := CreateImageFor(input, imageRepo, freshId, now);
      r := FinishImport(created, cid, container, obj, inputAfter);
    }

    /**
     * `execute(task_id)`: a task that is not found is left alone; a found
     * task records the run's success or failure and is saved exactly once,
     * and the image repository changes as the run says.
     */
    method Execute(taskId: Value, freshId: Value, now: Value)
      requires taskRepo.Valid()
      modifies taskRepo, imageRepo`images, imageRepo`added, imageRepo`saved, imageRepo`data
      ensures taskRepo.Valid()
      ensures taskId !in old(taskRepo.tasks) ==>
        && taskRepo.tasks == old(taskRepo.tasks) && taskRepo.saved == old(taskRepo.saved)
        && imageRepo.added == old(imageRepo.added) && imageRepo.saved == old(imageRepo.saved)
        && imageRepo.data == old(imageRepo.data)
      ensures taskId in old(taskRepo.tasks) ==>
        var t := old(taskRepo.tasks)[taskId];
        var run := Run(t.input, remote, remoteFailure, imageRepo.setDataFailure, freshId, now);
        var done := t.(input := run.input).Perform(OutcomeCall(run.result));
        && taskRepo.saved == old(taskRepo.saved) + [done]
        && taskRepo.tasks == old(taskRepo.tasks)[taskId := done]
        && imageRepo.added == old(imageRepo.added) + CreatedIds(run)
        && imageRepo.saved == old(imageRepo.saved) + SavedIds(run)
        && imageRepo.data == DataAfter(old(imageRepo.data), run)
    {
      var found := GetTask(taskRepo, taskId);
      if found.None? {
        return;
      }
      var task := found.value;
      var input := task.input;
      var outcome: Result<Value, Error>;
      var unpacked := UnpackTaskInput(input);
      if unpacked.Err? {
        outcome := Err(unpacked.error);
      } else {
        var location := GetOrNone(input, "import_from");
        if location.Err? {
          outcome := Err(location.error);
        } else {
          var parts := FormatLocationUri(location.value);
          if parts.Err? {
            outcome := Err(parts.error);
          } else {
            outcome, input := ImportImage(input, parts.value.0, parts.value.1, freshId, now);
          }
        }
      }
      task := task.(input := input).Perform(OutcomeCall(outcome));
      taskRepo.Save(task);
    }
  }
}
