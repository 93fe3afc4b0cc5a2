/**
 * The filesystem import script: the task input names a `file:///` location;
 * the script creates the image from the requested properties, stores the
 * file's bytes as the image's data, saves the image and marks the task
 * succeeded, or marks it failed with the error's description.  Either way
 * the fetched task is saved exactly once.
 */
module ImportFilesystem {
  import opened Values
  import Domain
  import Repos
  import opened ImportCommon

  const FileScheme: string := "file://"

  /**
   * `format_location_uri`: a falsy location or a string not starting with
   * `file:///` is a BadStoreUri; anything else that is truthy but not a
   * string has no `startswith`; a good location loses its scheme.
   */
  function FormatLocationUri(location: Value): (r: Result<string, Error>)
    ensures r.Ok? <==> location.JStr? && IsPrefix("file:///", location.s)
    ensures r.Ok? ==> FileScheme + r.value == location.s && IsPrefix("/", r.value)
    ensures r.Err? && (!Truthy(location) || location.JStr?) ==> r.error.BadStoreUri?
    ensures r.Err? && Truthy(location) && !location.JStr? ==> r.error == AttributeError(TypeName(location), "startswith")
  {
    if !Truthy(location) then Err(BadStoreUri("Invalid location: " + PyStr(location)))
    else if !location.JStr? then Err(AttributeError(TypeName(location), "startswith"))
    else if !IsPrefix("file:///", location.s) then Err(BadStoreUri("Invalid location: " + PyStr(location)))
    else
      assert location.s[..7] + location.s[7..] == location.s;
      Ok(location.s[7..])
  }

  /**
   * `execute` after the task was found: unpack the input, format the
   * location, then `import_image`: create the image, read the file (IOError
   * when it does not exist), hand its bytes to the image, fetch and save the
   * image.  `files` is the filesystem, `setDataFailure` what the store
   * raises.
   */
  function Run(input: Value, files: map<string, seq<bv8>>, setDataFailure: Option<Error>, freshId: Value, now: Value)
    : ImportRun
  {
    match UnpackTaskInput(input)
    case Err(e) => ImportRun(Err(e), input, None, None)
    case Ok(_) =>
      match GetOrNone(input, "import_from")
      case Err(e) => ImportRun(Err(e), input, None, None)
      case Ok(location) =>
        match FormatLocationUri(location)
        case Err(e) => ImportRun(Err(e), input, None, None)
        case Ok(uri) => ImportImageRun(input, ReadFile(files, uri), setDataFailure, freshId, now)
  }

  /** `open(uri)` followed by reading the whole file: its bytes, or IOError when it does not exist. */
  function ReadFile(files: map<string, seq<bv8>>, uri: string): Result<seq<bv8>, Error>
  {
    if uri in files then Ok(files[uri]) else Err(IOError(uri))
  }

  /** Only a dictionary input can import anything: any other input fails before an image exists. */
  lemma RunNeedsDictionary(input: Value, files: map<string, seq<bv8>>, setDataFailure: Option<Error>, freshId: Value, now: Value)
    requires !input.JObj?
    ensures Run(input, files, setDataFailure, freshId, now).result.Err?
    ensures Run(input, files, setDataFailure, freshId, now).created.None?
    ensures Run(input, files, setDataFailure, freshId, now).input == input
  {
  }

  /** A dictionary input lacking a required key fails with Invalid and touches nothing. */
  lemma RunMissingKey(fields: map<string, Value>, files: map<string, seq<bv8>>, setDataFailure: Option<Error>, freshId: Value, now: Value)
    requires exists k :: k in ImportInputKeys && k !in fields
    ensures Run(JObj(fields), files, setDataFailure, freshId, now).result.Err?
    ensures Run(JObj(fields), files, setDataFailure, freshId, now).result.error.Invalid?
    ensures Run(JObj(fields), files, setDataFailure, freshId, now).created.None?
    ensures Run(JObj(fields), files, setDataFailure, freshId, now).input == JObj(fields)
  {
    UnpackTaskInputChecksKeys(fields);
  }

  /**
   * Once the image is created the import succeeds exactly when the file
   * exists and the store accepts it; the task's result is then the fresh id
   * and the file's bytes are the image's data.  The created image stays in
   * the repository whether or not the import succeeds.
   */
  lemma RunAfterCreate(fields: map<string, Value>, files: map<string, seq<bv8>>, setDataFailure: Option<Error>, freshId: Value, now: Value)
    requires forall k :: k in ImportInputKeys ==> k in fields
    requires FormatLocationUri(fields["import_from"]).Ok?
    requires CreateImageResult(Lookup(fields, "image_properties"), freshId, now).Ok?
    ensures var run := Run(JObj(fields), files, setDataFailure, freshId, now);
      var uri := FormatLocationUri(fields["import_from"]).value;
      && run.created == Some(freshId)
      && (run.result.Ok? <==> uri in files && setDataFailure.None?)
      && (run.result.Ok? ==> run.result.value == freshId && run.stored == Some(files[uri]))
      && (run.result.Err? ==> run.stored.None?)
      && run.input == InputAfterCreate(JObj(fields))
  {
    RunReachesImport(fields, files, setDataFailure, freshId, now);
    ImportImageAfterCreate(JObj(fields), ReadFile(files, FormatLocationUri(fields["import_from"]).value), setDataFailure, freshId, now);
  }

  /** An input with the three keys and a file location goes on to `import_image`. */
  lemma RunReachesImport(fields: map<string, Value>, files: map<string, seq<bv8>>, setDataFailure: Option<Error>, freshId: Value, now: Value)
    requires forall k :: k in ImportInputKeys ==> k in fields
    requires FormatLocationUri(fields["import_from"]).Ok?
    ensures Run(JObj(fields), files, setDataFailure, freshId, now)
      == ImportImageRun(JObj(fields), ReadFile(files, FormatLocationUri(fields["import_from"]).value), setDataFailure, freshId, now)
  {
    UnpackTaskInputChecksKeys(fields);
    assert GetOrNone(JObj(fields), "import_from") == Ok(fields["import_from"]);
  }

  class FilesystemImportScript {
    const context: Domain.Context
    const taskRepo: Repos.TaskRepo
    const imageRepo: Repos.ImageRepo
    /** The files `open` can read, by path. */
    const files: map<string, seq<bv8>>

    constructor (context: Domain.Context, taskRepo: Repos.TaskRepo, imageRepo: Repos.ImageRepo, files: map<string, seq<bv8>>)
      ensures this.context == context && this.taskRepo == taskRepo && this.imageRepo == imageRepo && this.files == files
    {
      this.context, this.taskRepo, this.imageRepo, this.files := context, taskRepo, imageRepo, files;
    }

    /** `set_image_data`: open the file (IOError when it is missing) and store its bytes. */
    method SetImageData(image: Domain.Image, uri: string) returns (o: Outcome<Error>)
      modifies imageRepo`data
      ensures uri !in files ==> o == Fail(IOError(uri)) && imageRepo.data == old(imageRepo.data)
      ensures uri in files && imageRepo.setDataFailure.Some? ==>
        o == Fail(imageRepo.setDataFailure.value) && imageRepo.data == old(imageRepo.data)
      ensures uri in files && imageRepo.setDataFailure.None? ==>
        o == Pass && imageRepo.data == old(imageRepo.data)[image.imageId := files[uri]]
    {
      if uri !in files {
        return Fail(IOError(uri));
      }
      o := imageRepo.SetData(image, files[uri]);
    }

    /**
     * `import_image(task_input, uri)`: create the image, set its data,
     * fetch it back and save it; the id of the image is the result.
     */
    method ImportImage(input: Value, uri: string, freshId: Value, now: Value) returns (r: Result<Value, Error>, inputAfter: Value)
      requires input.JObj?
      modifies imageRepo`images, imageRepo`added, imageRepo`saved, imageRepo`data
      ensures inputAfter == InputAfterCreate(input)
      ensures var run := ImportImageRun(input, ReadFile(files, uri), imageRepo.setDataFailure, freshId, now);
        && r == run.result
        && imageRepo.added == old(imageRepo.added) + CreatedIds(run)
        && imageRepo.saved == old(imageRepo.saved) + SavedIds(run)
        && imageRepo.data == DataAfter(old(imageRepo.data), run)
    {
      ghost var fetched := ReadFile(files, uri);
      ghost var cid := CreatedImageId(Lookup(input.fields, "image_properties"), freshId, now);
      assert ImportImageRun(input, fetched, imageRepo.setDataFailure, freshId, now)
          == ImportSteps(InputAfterCreate(input), cid, fetched, imageRepo.setDataFailure);
      var created;
      created, inputAfter := CreateImageFor(input, imageRepo, freshId, now);
      r := FinishImport(created, cid, uri, inputAfter);
    }

    /** The part of `import_image` after `create_image` returned the image or raised. */
    method FinishImport(created: Result<Domain.Image, Error>, ghost cid: Result<Value, Error>, uri: string, ghost after: Value)
      returns (r: Result<Value, Error>)
      requires cid == if created.Ok? then Ok(created.value.imageId) else Err(created.error)
      requires created.Ok? ==>
        created.value.imageId in imageRepo.images && imageRepo.images[created.value.imageId] == created.value
      modifies imageRepo`saved, imageRepo`data
      ensures var run := ImportSteps(after, cid, ReadFile(files, uri), imageRepo.setDataFailure);
        && r == run.result
        && CreatedIds(run) == (if created.Ok? then [created.value.imageId] else [])
        && imageRepo.saved == old(imageRepo.saved) + SavedIds(run)
        && imageRepo.data == DataAfter(old(imageRepo.data), run)
    {
      if created.Err? {
        return Err(created.error);
      }
      r := StoreAndSave(created.value, uri, after);
    }

    /** The part of `import_image` after the image exists: set its data, then fetch and save it. */
    method StoreAndSave(image: Domain.Image, uri: string, ghost after: Value) returns (r: Result<Value, Error>)
      requires image.imageId in imageRepo.images && imageRepo.images[image.imageId] == image
      modifies imageRepo`saved, imageRepo`data
      ensures var run := ImportSteps(after, Ok(image.imageId), ReadFile(files, uri), imageRepo.setDataFailure);
        && r == run.result
        && imageRepo.saved == old(imageRepo.saved) + SavedIds(run)
        && imageRepo.data == DataAfter(old(imageRepo.data), run)
    {
      var o := SetImageData(image, uri);
      if o.Fail? {
        return Err(o.error);
      }
      var id := image.imageId;
      var fetched := imageRepo.Get(id);
      if fetched.Err? {
        assert false;
        return Err(NotFound("No image found"));
      }
      imageRepo.Save(fetched.value);
      return Ok(id);
    }

    /**
     * `execute(task_id)`: a task that is not found is left alone; a found
     * task records the run's success or failure and is saved exactly once,
     * and the image repository changes as the run says.
     */
    method Execute(taskId: Value, freshId: Value, now: Value)
      requires taskRepo.Valid()
      modifies taskRepo, imageRepo`images, imageRepo`added, imageRepo`saved, imageRepo`data
      ensures taskRepo.Valid()
      ensures taskId !in old(taskRepo.tasks) ==>
        && taskRepo.tasks == old(taskRepo.tasks) && taskRepo.saved == old(taskRepo.saved)
        && imageRepo.added == old(imageRepo.added) && imageRepo.saved == old(imageRepo.saved)
        && imageRepo.data == old(imageRepo.data)
      ensures taskId in old(taskRepo.tasks) ==>
        var t := old(taskRepo.tasks)[taskId];
        var run := Run(t.input, files, imageRepo.setDataFailure, freshId, now);
        var done := t.(input := run.input).Perform(OutcomeCall(run.result));
        && taskRepo.saved == old(taskRepo.saved) + [done]
        && taskRepo.tasks == old(taskRepo.tasks)[taskId := done]
        && imageRepo.added == old(imageRepo.added) + CreatedIds(run)
        && imageRepo.saved == old(imageRepo.saved) + SavedIds(run)
        && imageRepo.data == DataAfter(old(imageRepo.data), run)
    {
      var found := GetTask(taskRepo, taskId);
      if found.None? {
        return;
      }
      var task := found.value;
      var input := task.input;
      var outcome: Result<Value, Error>;
      var unpacked := UnpackTaskInput(input);
      if unpacked.Err? {
        outcome := Err(unpacked.error);
      } else {
        var location := GetOrNone(input, "import_from");
        if location.Err? {
          outcome := Err(location.error);
        } else {
          var uri := FormatLocationUri(location.value);
          if uri.Err? {
            outcome := Err(uri.error);
          } else {
            outcome, input := ImportImage(input, uri.value, freshId, now);
          }
        }
      }
      task := task.(input := input).Perform(OutcomeCall(outcome));
      taskRepo.Save(task);
    }
  }
}
