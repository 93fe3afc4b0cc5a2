/**
 * What the two import scripts share, line for line: fetching the task,
 * checking the task input for its required keys, and `create_image`, which
 * splits the requested image properties into the factory's keyword
 * arguments and extra properties.
 */
module ImportCommon {
  import opened Values
  import Domain
  import Repos

  /** `get_task`: NotFound from the repository becomes None. */
  method GetTask(taskRepo: Repos.TaskRepo, taskId: Value) returns (t: Option<Repos.TaskView>)
    requires taskRepo.Valid()
    ensures taskId in taskRepo.tasks ==> t == Some(taskRepo.tasks[taskId])
    ensures taskId !in taskRepo.tasks ==> t == None
    ensures t.Some? ==> t.value.taskId == taskId
  {
    var r := taskRepo.Get(taskId);
    if r.Err? {
      return None;
    }
    return Some(r.value);
  }

  /**
   * Index of the first of `keys` for which `key not in container` holds;
   * an error of the `in` operator propagates.
   */
  function FirstMissing(keys: seq<string>, container: Value): (r: Result<Option<nat>, Error>)
    ensures r.Ok? && r.value.Some? ==>
      && r.value.value < |keys|
      && Contains(container, keys[r.value.value]) == Ok(false)
      && forall j :: 0 <= j < r.value.value ==> Contains(container, keys[j]) == Ok(true)
    ensures r == Ok(None) <==> forall j :: 0 <= j < |keys| ==> Contains(container, keys[j]) == Ok(true)
    ensures r.Err? <==> keys != [] && Contains(container, keys[0]).Err?
    decreases |keys|
  {
    if keys == [] then Ok(None)
    else
      match Contains(container, keys[0])
      case Err(e) => Err(e)
      case Ok(found) =>
        if !found then Ok(Some(0))
        else
          var rest := FirstMissing(keys[1..], container);
          if rest.Ok? && rest.value.Some? then Ok(Some(rest.value.value + 1)) else rest
  }

  /** The keys an import task's input must have. */
  const ImportInputKeys: seq<string> := ["import_from", "import_from_format", "image_properties"]

  /**
   * `unpack_task_input`: Invalid naming the first required key that `in`
   * does not find; otherwise the input itself.
   */
  function UnpackTaskInput(input: Value): Result<Value, Error>
  {
    match FirstMissing(ImportInputKeys, input)
    case Err(e) => Err(e)
    case Ok(Some(i)) => Err(Invalid("Input does not contain '" + ImportInputKeys[i] + "' field"))
    case Ok(None) => Ok(input)
  }

  /** For a dictionary input: Invalid exactly when a required key is absent, else the input unchanged. */
  lemma UnpackTaskInputChecksKeys(fields: map<string, Value>)
    ensures UnpackTaskInput(JObj(fields)).Ok? <==> forall k :: k in ImportInputKeys ==> k in fields
    ensures UnpackTaskInput(JObj(fields)).Ok? ==> UnpackTaskInput(JObj(fields)).value == JObj(fields)
    ensures UnpackTaskInput(JObj(fields)).Err? ==> UnpackTaskInput(JObj(fields)).error.Invalid?
  {
    var r := FirstMissing(ImportInputKeys, JObj(fields));
    if forall k :: k in ImportInputKeys ==> k in fields {
      assert forall j :: 0 <= j < |ImportInputKeys| ==> Contains(JObj(fields), ImportInputKeys[j]) == Ok(true);
    } else {
      var k :| k in ImportInputKeys && k !in fields;
      var j :| 0 <= j < |ImportInputKeys| && ImportInputKeys[j] == k;
      assert Contains(JObj(fields), ImportInputKeys[j]) == Ok(false);
    }
  }

  /** The keys `create_image` hands to the factory as keyword arguments, besides `tags`. */
  const BaseProperties: seq<string> :=
    ["checksum", "created_at", "container_format", "disk_format", "id", "min_disk", "min_ram",
     "name", "size", "status", "tags", "updated_at", "visibility", "protected"]

  /**
   * The loop of `create_image`: each base property present is popped out of
   * the properties into the keyword dictionary.
   */
  method SplitProperties(props: map<string, Value>) returns (image: map<string, Value>, rest: map<string, Value>)
    ensures forall k :: k in image <==> k in props && k in BaseProperties
    ensures forall k :: k in image ==> image[k] == props[k]
    ensures forall k :: k in rest <==> k in props && k !in BaseProperties
    ensures forall k :: k in rest ==> rest[k] == props[k]
  {
    image, rest := map[], props;
    for i := 0 to |BaseProperties|
      invariant forall k :: k in image <==> k in props && k in BaseProperties[..i]
      invariant forall k :: k in image ==> image[k] == props[k]
      invariant forall k :: k in rest <==> k in props && k !in BaseProperties[..i]
      invariant forall k :: k in rest ==> rest[k] == props[k]
    {
      var key := BaseProperties[i];
      assert BaseProperties[..i + 1] == BaseProperties[..i] + [key];
      if key in rest {
        image := image[key := rest[key]];
        rest := rest - {key};
      }
    }
    assert BaseProperties[..|BaseProperties|] == BaseProperties;
  }

  /** What `create_image` leaves in the properties dictionary it pops from: the extra properties. */
  function ExtraProperties(fields: map<string, Value>): (r: map<string, Value>)
    ensures forall k :: k in r <==> k in fields && k !in BaseProperties
  {
    map k | k in fields && k !in BaseProperties :: fields[k]
  }

  /**
   * The keyword arguments of `new_image` in `create_image`: the base
   * properties present, `tags` (None when absent), and the remaining
   * properties as `extra_properties`.
   */
  function CreateKwargs(fields: map<string, Value>): map<string, Value>
  {
    var image := map k | k in fields && k in BaseProperties && k != "tags" :: fields[k];
    image["tags" := Lookup(fields, "tags")]["extra_properties" := JObj(ExtraProperties(fields))]
  }

  /** Every requested property reaches the factory exactly once: as a keyword or as an extra property. */
  lemma CreateKwargsSplit(fields: map<string, Value>, k: string)
    requires k in fields
    ensures k in BaseProperties ==> k in CreateKwargs(fields) && CreateKwargs(fields)[k] == fields[k]
    ensures k !in BaseProperties ==> k in ExtraProperties(fields) && ExtraProperties(fields)[k] == fields[k]
    ensures k !in BaseProperties && k != "extra_properties" ==> k !in CreateKwargs(fields)
  {
  }

  /**
   * The outcome of `create_image` on the requested properties: the factory's
   * result, or the TypeError of `pop` on something that is not a dictionary.
   */
  function CreateImageResult(props: Value, freshId: Value, now: Value): Result<Domain.ImageState, Error>
  {
    match props
    case JObj(fields) => Domain.NewImageResult(CreateKwargs(fields), freshId, now)
    case JList(_) => Err(TypeError("pop expected at most 1 arguments, got 2"))
    case _ => Err(AttributeError(TypeName(props), "pop"))
  }

  /** The properties dictionary after `create_image` popped from it, whatever the factory then did. */
  function PropertiesAfterCreate(props: Value): (r: Value)
    ensures props.JObj? ==> r == JObj(ExtraProperties(props.fields))
    ensures !props.JObj? ==> r == props
  {
    if props.JObj? then JObj(ExtraProperties(props.fields)) else props
  }

  /**
   * The image never receives the id of the task input: `id` is a base
   * property and lands among `new_image`'s unexpected keywords, so a request
   * that names it and no read-only key fails with TypeError.
   */
  lemma CreateImageRefusesId(fields: map<string, Value>, freshId: Value, now: Value)
    requires "id" in fields
    requires forall k :: k in Domain.ReadonlyProperties ==> k !in fields
    ensures CreateImageResult(JObj(fields), freshId, now).Err?
    ensures CreateImageResult(JObj(fields), freshId, now).error.TypeError?
  {
    assert "id" in CreateKwargs(fields);
    ReadonlyKeywordsComeFromFields(fields);
    Domain.NewImageUnexpectedKeyword(CreateKwargs(fields), freshId, now, "id");
    assert CreateImageResult(JObj(fields), freshId, now) == Domain.NewImageResult(CreateKwargs(fields), freshId, now);
  }

  /** A read-only keyword of `create_image`'s call is one of the requested properties. */
  lemma ReadonlyKeywordsComeFromFields(fields: map<string, Value>)
    ensures forall k :: k in Domain.ReadonlyProperties && k in CreateKwargs(fields) ==> k in fields
  {
    assert forall k :: k in Domain.ReadonlyProperties ==> k != "tags" && k != "extra_properties";
  }

  /** `image_id` is neither a base property nor one of the two keywords `create_image` adds. */
  lemma ImageIdNotAKeyword(fields: map<string, Value>)
    ensures "image_id" !in CreateKwargs(fields)
  {
    assert "image_id" !in BaseProperties;
  }

  /**
   * `create_image` never passes `image_id` (it is not a base property), so
   * every image it creates gets the freshly generated id.
   */
  lemma CreateImageUsesFreshId(props: Value, freshId: Value, now: Value)
    requires CreateImageResult(props, freshId, now).Ok?
    ensures CreateImageResult(props, freshId, now).value.imageId == freshId
    ensures CreateImageResult(props, freshId, now).value.status == JStr("queued")
  {
    ImageIdNotAKeyword(props.fields);
    Domain.NewImageIdentity(CreateKwargs(props.fields), freshId, now);
  }

  /** A read-only key among the requested properties fails the creation with ReadonlyProperty. */
  lemma CreateImageRefusesReadonly(fields: map<string, Value>, freshId: Value, now: Value, key: string)
    requires key in Domain.ReadonlyProperties && key in fields
    ensures CreateImageResult(JObj(fields), freshId, now).Err?
    ensures CreateImageResult(JObj(fields), freshId, now).error.ReadonlyProperty?
  {
    assert key in BaseProperties && key != "tags";
    assert key in CreateKwargs(fields);
    Domain.NewImageReadonlyFirst(CreateKwargs(fields), freshId, now, key);
  }

  /** What the loop of `create_image` leaves gives the extra properties and the keywords of `CreateKwargs`. */
  lemma SplitGivesKwargs(fields: map<string, Value>, image: map<string, Value>, rest: map<string, Value>)
    requires forall k :: k in image <==> k in fields && k != "tags" && k in BaseProperties
    requires forall k :: k in image ==> image[k] == fields[k]
    requires forall k :: k in rest <==> k in fields && k != "tags" && k !in BaseProperties
    requires forall k :: k in rest ==> rest[k] == fields[k]
    ensures rest == ExtraProperties(fields)
    ensures image["tags" := Lookup(fields, "tags")]["extra_properties" := JObj(rest)] == CreateKwargs(fields)
  {
    RestIsExtra(fields, rest);
    ImageIsPicked(fields, image);
  }

  lemma RestIsExtra(fields: map<string, Value>, rest: map<string, Value>)
    requires forall k :: k in rest <==> k in fields && k != "tags" && k !in BaseProperties
    requires forall k :: k in rest ==> rest[k] == fields[k]
    ensures rest == ExtraProperties(fields)
  {
    assert "tags" in BaseProperties;
  }

  lemma ImageIsPicked(fields: map<string, Value>, image: map<string, Value>)
    requires forall k :: k in image <==> k in fields && k != "tags" && k in BaseProperties
    requires forall k :: k in image ==> image[k] == fields[k]
    ensures image == map k | k in fields && k in BaseProperties && k != "tags" :: fields[k]
  {
  }

  /**
   * `create_image(image_properties)`: pop `tags` and the base properties,
   * call the factory, and add the new image to the repository once.  The
   * pops happen before the factory is called, so the properties dictionary
   * loses its base keys even when the factory refuses them; `remaining` is
   * that dictionary afterwards.
   */
  method CreateImage(props: Value, imageRepo: Repos.ImageRepo, freshId: Value, now: Value)
    returns (r: Result<Domain.Image, Error>, remaining: Value)
    modifies imageRepo`images, imageRepo`added
    ensures remaining == PropertiesAfterCreate(props)
    ensures CreateImageResult(props, freshId, now) == if r.Ok? then Ok(r.value.State()) else Err(r.error)
    ensures r.Err? ==> imageRepo.images == old(imageRepo.images) && imageRepo.added == old(imageRepo.added)
    ensures r.Ok? ==>
      && fresh(r.value)
      && imageRepo.images == old(imageRepo.images)[r.value.imageId := r.value]
      && imageRepo.added == old(imageRepo.added) + [r.value.imageId]
  {
    if !props.JObj? {
      remaining := props;
      if props.JList? {
        return Err(TypeError("pop expected at most 1 arguments, got 2")), remaining;
      }
      return Err(AttributeError(TypeName(props), "pop")), remaining;
    }
    var fields := props.fields;
    var tags := Lookup(fields, "tags");
    var image, rest := SplitProperties(fields - {"tags"});
    SplitGivesKwargs(fields, image, rest);
    remaining := JObj(rest);
    var kwargs := image["tags" := tags]["extra_properties" := JObj(rest)];
    var created := Domain.NewImage(kwargs, freshId, now);
    r := AddCreated(imageRepo, created);
  }

  /** `image_repo.add(image)` once the factory returned an image; a raised error passes through. */
  method AddCreated(imageRepo: Repos.ImageRepo, created: Result<Domain.Image, Error>) returns (r: Result<Domain.Image, Error>)
    modifies imageRepo`images, imageRepo`added
    ensures r == created
    ensures r.Err? ==> imageRepo.images == old(imageRepo.images) && imageRepo.added == old(imageRepo.added)
    ensures r.Ok? ==>
      && imageRepo.images == old(imageRepo.images)[r.value.imageId := r.value]
      && imageRepo.added == old(imageRepo.added) + [r.value.imageId]
  {
    if created.Ok? {
      imageRepo.Add(created.value);
    }
    return created;
  }

  /**
   * `create_image` as `import_image` sees it: the task input with its
   * properties popped, and the id of the image now in the repository.
   */
  method CreateImageFor(input: Value, imageRepo: Repos.ImageRepo, freshId: Value, now: Value)
    returns (r: Result<Domain.Image, Error>, inputAfter: Value)
    requires input.JObj?
    modifies imageRepo`images, imageRepo`added
    ensures inputAfter == InputAfterCreate(input)
    ensures CreatedImageId(Lookup(input.fields, "image_properties"), freshId, now)
      == if r.Ok? then Ok(r.value.imageId) else Err(r.error)
    ensures r.Ok? ==> r.value.imageId in imageRepo.images && imageRepo.images[r.value.imageId] == r.value
    ensures imageRepo.added == old(imageRepo.added) + if r.Ok? then [r.value.imageId] else []
  {
    var props := Lookup(input.fields, "image_properties");
    var remaining;
    r, remaining := CreateImage(props, imageRepo, freshId, now);
    inputAfter := WithProperties(input, remaining);
  }

  /**
   * The task input once the dictionary under `image_properties` has become
   * `props`: the input holds that dictionary itself, so the pops in
   * `create_image` show in the task that is saved.
   */
  function WithProperties(input: Value, props: Value): Value
  {
    if input.JObj? && "image_properties" in input.fields then JObj(input.fields["image_properties" := props])
    else input
  }

  /** The task input after `create_image` popped from its `image_properties`. */
  function InputAfterCreate(input: Value): Value
  {
    if input.JObj? then WithProperties(input, PropertiesAfterCreate(Lookup(input.fields, "image_properties"))) else input
  }

  /** The `fail` message of both import scripts: `{'error': "<type>: <text>"}`. */
  function FailureMessage(e: Error): Value
  {
    JObj(map["error" := JStr(Describe(e))])
  }

  /** The `success` result of both import scripts: `{'image_id': id}`. */
  function SuccessResult(imageId: Value): Value
  {
    JObj(map["image_id" := imageId])
  }

  /** The one call `execute` makes on the task before saving it. */
  function OutcomeCall(r: Result<Value, Error>): (c: Repos.TaskCall)
    ensures r.Ok? <==> c.SuccessCall?
    ensures r.Ok? ==> c == Repos.SuccessCall(SuccessResult(r.value))
    ensures r.Err? ==> c == Repos.FailCall(FailureMessage(r.error))
  {
    match r
    case Ok(id) => Repos.SuccessCall(SuccessResult(id))
    case Err(e) => Repos.FailCall(FailureMessage(e))
  }

  /** What one run of `execute` on a fetched task does. */
  datatype ImportRun = ImportRun(
    /** The image id, or the error that failed the task. */
    result: Result<Value, Error>,
    /** The task input afterwards (`create_image` pops from it). */
    input: Value,
    /** The id of the image added to the repository, if one was. */
    created: Option<Value>,
    /** The bytes stored as the image's data, if they were. */
    stored: Option<seq<bv8>>)

  /** The image data after a run: the stored bytes under the new image's id, if any were stored. */
  function DataAfter(data: map<Value, seq<bv8>>, run: ImportRun): map<Value, seq<bv8>>
  {
    if run.stored.Some? && run.created.Some? then data[run.created.value := run.stored.value] else data
  }

  /** The ids a run adds to, or saves in, the image repository. */
  function CreatedIds(run: ImportRun): seq<Value>
  {
    if run.created.Some? then [run.created.value] else []
  }

  function SavedIds(run: ImportRun): seq<Value>
  {
    if run.result.Ok? then [run.result.value] else []
  }

  /**
   * `import_image` after the location is known, on a dictionary input:
   * create the image, then obtain its bytes (`fetched`: the file read, or the
   * object downloaded), hand them to the image's `set_data`, and fetch and
   * save the image.  The image exists from the first step on, whatever
   * fails afterwards.
   */
  function ImportImageRun(input: Value, fetched: Result<seq<bv8>, Error>, setDataFailure: Option<Error>,
                          freshId: Value, now: Value): (run: ImportRun)
    requires input.JObj?
    ensures run.input == InputAfterCreate(input)
  {
    ImportSteps(InputAfterCreate(input), CreatedImageId(Lookup(input.fields, "image_properties"), freshId, now),
                fetched, setDataFailure)
  }

  /** The id of the image `create_image` creates, or the error it raises. */
  function CreatedImageId(props: Value, freshId: Value, now: Value): (r: Result<Value, Error>)
    ensures r.Ok? <==> CreateImageResult(props, freshId, now).Ok?
    ensures r.Ok? ==> r.value == CreateImageResult(props, freshId, now).value.imageId
    ensures r.Err? ==> r.error == CreateImageResult(props, freshId, now).error
  {
    match CreateImageResult(props, freshId, now)
    case Ok(s) => Ok(s.imageId)
    case Err(e) => Err(e)
  }

  /** The steps of `import_image` once the creation's outcome and the bytes are known. */
  function ImportSteps(after: Value, created: Result<Value, Error>, fetched: Result<seq<bv8>, Error>,
                       setDataFailure: Option<Error>): (run: ImportRun)
    ensures run.input == after
  {
    match created
    case Err(e) => ImportRun(Err(e), after, None, None)
    case Ok(id) =>
      match fetched
      case Err(e) => ImportRun(Err(e), after, Some(id), None)
      case Ok(bytes) =>
        if setDataFailure.Some? then ImportRun(Err(setDataFailure.value), after, Some(id), None)
        else ImportRun(Ok(id), after, Some(id), Some(bytes))
  }

  /**
   * Once the image is created, the import succeeds exactly when the bytes
   * were obtained and the store took them; the result is then the fresh id
   * and the bytes are the image's data.
   */
  lemma ImportImageAfterCreate(input: Value, fetched: Result<seq<bv8>, Error>, setDataFailure: Option<Error>,
                               freshId: Value, now: Value)
    requires input.JObj?
    requires CreateImageResult(Lookup(input.fields, "image_properties"), freshId, now).Ok?
    ensures var run := ImportImageRun(input, fetched, setDataFailure, freshId, now);
      && run.created == Some(freshId)
      && (run.result.Ok? <==> fetched.Ok? && setDataFailure.None?)
      && (run.result.Ok? ==> run.result.value == freshId && run.stored == Some(fetched.value))
      && (run.result.Err? ==> run.stored.None?)
      && (fetched.Err? ==> run.result == Err(fetched.error))
  {
    var props := Lookup(input.fields, "image_properties");
    CreateImageUsesFreshId(props, freshId, now);
    assert CreatedImageId(props, freshId, now) == Ok(freshId);
    ImportStepsAfterCreate(InputAfterCreate(input), freshId, fetched, setDataFailure);
  }

  /** The steps after a successful creation, whatever the input. */
  lemma ImportStepsAfterCreate(after: Value, id: Value, fetched: Result<seq<bv8>, Error>, setDataFailure: Option<Error>)
    ensures var run := ImportSteps(after, Ok(id), fetched, setDataFailure);
      && run.created == Some(id)
      && (run.result.Ok? <==> fetched.Ok? && setDataFailure.None?)
      && (run.result.Ok? ==> run.result.value == id && run.stored == Some(fetched.value))
      && (run.result.Err? ==> run.stored.None?)
      && (fetched.Err? ==> run.result == Err(fetched.error))
  {
  }
}

