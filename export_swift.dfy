/**
 * The swift export script: a task names an image and a receiving
 * container; the script marks the task as processing, checks the input and
 * uploads the image's data with `SwiftStore.add`.  Its `save_task` is a
 * stub that stores nothing, so the final status and info reach only the
 * record of `save_task` calls kept here.
 */
module ExportSwift {
  import opened Values
  import Domain
  import Repos
  import ImportCommon
  import opened ObjectStore
  import opened SwiftChunks
  import opened SwiftUtils

  /** The keys an export task's input must have, in the order they are checked. */
  const ExportInputKeys: seq<string> := ["image_uuid", "receiving_swift_container"]

  /** A character the container check bans: `/`, `?` or `.`. */
  predicate Banned(ch: char)
  {
    ch == '/' || ch == '?' || ch == '.'
  }

  /** `str(container) == '' or re.search(r'[/?.]', str(container))`. */
  predicate BadContainerName(s: string)
  {
    s == "" || exists i :: 0 <= i < |s| && Banned(s[i])
  }

  /** The Invalid of a task input without `key`. */
  function MissingKey(taskId: Value, key: string): Error
  {
    Invalid("Task " + PyStr(taskId) + " input has missing key " + key)
  }

  /**
   * `validate_task_input(task)`: Invalid for the first missing key, then
   * for an image id that is not uuid-like, then for a container name that
   * is empty or holds a banned character.
   */
  function ValidateTaskInput(taskId: Value, input: Value): (o: Outcome<Error>)
    ensures o == Pass ==> input.JObj?
    ensures input.JObj? ==>
      (o == Pass <==>
        && "image_uuid" in input.fields && "receiving_swift_container" in input.fields
        && IsUuidLikeValue(input.fields["image_uuid"])
        && !BadContainerName(PyStr(input.fields["receiving_swift_container"])))
  {
    match ImportCommon.FirstMissing(ExportInputKeys, input)
    case Err(e) => Fail(e)
    case Ok(Some(i)) => Fail(MissingKey(taskId, ExportInputKeys[i]))
    case Ok(None) =>
      match GetItem(input, "image_uuid")
      case Err(e) => Fail(e)
      case Ok(imageId) =>
        if !IsUuidLikeValue(imageId) then
          Fail(Invalid("The specified image id " + PyStr(imageId) + " for task " + PyStr(taskId) + " is not a uuid."))
        else
          match GetItem(input, "receiving_swift_container")
          case Err(e) => Fail(e)
          case Ok(container) =>
            if BadContainerName(PyStr(container)) then
              Fail(Invalid("Invalid value for receiving_swift_container for task " + PyStr(taskId) + ". Given value is ''."))
            else Pass
  }

  /** A missing key is Invalid, and `image_uuid` is checked first. */
  lemma ValidateRefusesMissingKey(taskId: Value, fields: map<string, Value>)
    requires "image_uuid" !in fields || "receiving_swift_container" !in fields
    ensures ValidateTaskInput(taskId, JObj(fields)).Fail?
    ensures ValidateTaskInput(taskId, JObj(fields)).error.Invalid?
    ensures "image_uuid" !in fields ==>
      ValidateTaskInput(taskId, JObj(fields)) == Fail(MissingKey(taskId, "image_uuid"))
  {
    assert ExportInputKeys[0] == "image_uuid" && ExportInputKeys[1] == "receiving_swift_container";
    if "image_uuid" in fields {
      assert ExportInputKeys[1..] == ["receiving_swift_container"];
      assert ImportCommon.FirstMissing(ExportInputKeys[1..], JObj(fields)) == Ok(Some(0));
      assert ImportCommon.FirstMissing(ExportInputKeys, JObj(fields)) == Ok(Some(1));
    } else {
      assert ImportCommon.FirstMissing(ExportInputKeys, JObj(fields)) == Ok(Some(0));
    }
  }

  /** With both keys present, an image id that is not uuid-like is Invalid, whatever the container. */
  lemma ValidateRefusesNonUuid(taskId: Value, fields: map<string, Value>)
    requires "image_uuid" in fields && "receiving_swift_container" in fields
    requires !IsUuidLikeValue(fields["image_uuid"])
    ensures ValidateTaskInput(taskId, JObj(fields))
         == Fail(Invalid("The specified image id " + PyStr(fields["image_uuid"]) + " for task " + PyStr(taskId) + " is not a uuid."))
  {
    assert ExportInputKeys[0] == "image_uuid" && ExportInputKeys[1] == "receiving_swift_container";
  }

  /** A container name passes exactly when it is not empty and holds none of `/`, `?` and `.`. */
  lemma ContainerNameRule(s: string)
    ensures !BadContainerName(s) <==> s != "" && '/' !in s && '?' !in s && '.' !in s
  {
    if s != "" && ('/' in s || '?' in s || '.' in s) {
      var i :| 0 <= i < |s| && (s[i] == '/' || s[i] == '?' || s[i] == '.');
      assert Banned(s[i]);
    }
  }

  /**
   * A list is a container name like any other value: its `str()` is
   * checked, so `[]` passes and gives the export location `[]/<uuid>`.
   */
  lemma ValidateAcceptsEmptyList(taskId: Value, u: string)
    requires IsUuidLike(u)
    ensures ValidateTaskInput(taskId, JObj(map["image_uuid" := JStr(u), "receiving_swift_container" := JList([])])) == Pass
    ensures ExportLocation(JStr(u), JList([])).fields["export_location"] == JStr("[]/" + u)
  {
    EmptyListName();
    ValidateAccepts(taskId, u, JList([]));
  }

  /** `str([])` is `[]`, a good container name. */
  lemma EmptyListName()
    ensures PyStr(JList([])) == "[]"
    ensures !BadContainerName("[]")
  {
    PyStrOfEmptyList();
    GoodName("[]");
  }

  /** So is a dictionary: `{'a': 'b'}` passes and gives the export location `{'a': 'b'}/<uuid>`. */
  lemma ValidateAcceptsDictionary(taskId: Value, u: string)
    requires IsUuidLike(u)
    ensures ValidateTaskInput(taskId, JObj(map["image_uuid" := JStr(u), "receiving_swift_container" := JObj(map["a" := JStr("b")])])) == Pass
    ensures ExportLocation(JStr(u), JObj(map["a" := JStr("b")])).fields["export_location"] == JStr("{'a': 'b'}/" + u)
  {
    var container := JObj(map["a" := JStr("b")]);
    DictionaryName();
    ValidateAccepts(taskId, u, container);
    assert ExportLocation(JStr(u), container).fields["export_location"] == JStr(PyStr(container) + "/" + u);
  }

  /** `str({'a': 'b'})` is `{'a': 'b'}`, a good container name. */
  lemma DictionaryName()
    ensures PyStr(JObj(map["a" := JStr("b")])) == "{'a': 'b'}"
    ensures !BadContainerName("{'a': 'b'}")
  {
    PyStrOfSingleItem("a", "b");
    GoodName("{'a': 'b'}");
  }

  /** A text of brackets, braces, quotes, colons, commas, spaces and letters is a good name. */
  lemma GoodName(s: string)
    requires s != ""
    requires forall i :: 0 <= i < |s| ==> s[i] in "[]{}': ab"
    ensures !BadContainerName(s)
  {
    forall i | 0 <= i < |s| ensures !Banned(s[i]) {
      assert s[i] in "[]{}': ab";
    }
  }

  /** Both keys present, a uuid, and a container whose text is a good name: validation passes. */
  lemma ValidateAccepts(taskId: Value, u: string, container: Value)
    requires IsUuidLike(u)
    requires !BadContainerName(PyStr(container))
    ensures ValidateTaskInput(taskId, JObj(map["image_uuid" := JStr(u), "receiving_swift_container" := container])) == Pass
  {
    var fields := map["image_uuid" := JStr(u), "receiving_swift_container" := container];
    assert "image_uuid" in fields && "receiving_swift_container" in fields;
    assert fields["image_uuid"] == JStr(u) && fields["receiving_swift_container"] == container;
  }

  /** The size `add` is given: `image.size` when it is a non-negative integer, else None. */
  function ImageSize(v: Value): (s: Option<nat>)
    ensures s.Some? <==> v.JInt? && v.i >= 0
    ensures s.Some? ==> s.value == v.i
  {
    if v.JInt? && v.i >= 0 then Some(v.i) else None
  }

  /** A call of the `save_task` stub: task id, info and status. */
  datatype SaveTaskCall = SaveTaskCall(taskId: Value, info: Value, status: string)

  /** The `{'export_location': '<container>/<image_uuid>'}` result of a successful export. */
  function ExportLocation(imageId: Value, container: Value): (r: Value)
    ensures r.JObj? && r.fields.Keys == {"export_location"} && Truthy(r)
    ensures r.fields["export_location"] == JStr(PyStr(container) + "/" + PyStr(imageId))
  {
    JObj(map["export_location" := JStr(PyStr(container) + "/" + PyStr(imageId))])
  }

  /** The message of a failed export. */
  const FailureInfo: Value := JStr("Foo Bar")

  class ExportScript {
    const context: Domain.Context
    /** `gateway.get_task_repo(context)` */
    const taskRepo: Repos.TaskRepo
    /** `gateway.get_repo(context)` */
    const imageRepo: Repos.ImageRepo
    const swiftStore: SwiftStore
    /** The connection `swift_store.get_connection` opens with the context's `auth_tok`. */
    const connection: Connection
    /** The calls of `save_task`, in order. */
    var saveTaskCalls: seq<SaveTaskCall>

    constructor (context: Domain.Context, taskRepo: Repos.TaskRepo, imageRepo: Repos.ImageRepo,
                 swiftStore: SwiftStore, connection: Connection)
      ensures this.context == context && this.taskRepo == taskRepo && this.imageRepo == imageRepo
      ensures this.swiftStore == swiftStore && this.connection == connection && saveTaskCalls == []
    {
      this.context, this.taskRepo, this.imageRepo := context, taskRepo, imageRepo;
      this.swiftStore, this.connection := swiftStore, connection;
      saveTaskCalls := [];
    }

    /**
     * What `transfer_image_data(image_id, container)` does to the store:
     * None when the image or its data is not found (NotFound, nothing
     * written), else the outcome of `add` with the image's size.
     */
    function TransferEnd(imageId: Value, container: Value): Option<AddEnd>
      reads imageRepo, imageRepo.images.Values, connection
    {
      if imageId !in imageRepo.images then None
      else
        var image := imageRepo.images[imageId];
        if image.imageId !in imageRepo.data then None
        else Some(AddSpec(connection.containers, connection.refused, PyStr(imageId), imageRepo.data[image.imageId],
                          ImageSize(image.size), PyStr(container),
                          swiftStore.largeObjectSize, swiftStore.largeObjectChunkSize))
    }

    /** `_set_task_processing`: a found task gets `begin_processing` and is saved once; a missing one gives None. */
    method SetTaskProcessing(taskId: Value) returns (t: Option<Repos.TaskView>)
      requires taskRepo.Valid()
      modifies taskRepo
      ensures taskRepo.Valid()
      ensures taskId !in old(taskRepo.tasks) ==>
        t == None && taskRepo.tasks == old(taskRepo.tasks) && taskRepo.saved == old(taskRepo.saved)
      ensures taskId in old(taskRepo.tasks) ==>
        var begun := old(taskRepo.tasks)[taskId].Perform(Repos.BeginProcessingCall);
        && t == Some(begun)
        && taskRepo.tasks == old(taskRepo.tasks)[taskId := begun]
        && taskRepo.saved == old(taskRepo.saved) + [begun]
    {
      var found := ImportCommon.GetTask(taskRepo, taskId);
      if found.None? {
        return None;
      }
      var task := found.value.Perform(Repos.BeginProcessingCall);
      taskRepo.Save(task);
      return Some(task);
    }

    /**
     * `transfer_image_data` with `upload_image_data`: fetch the image and
     * its data, then `add` it under the image id; NotFound and the errors
     * of `add` propagate.
     */
    method TransferImageData(imageId: Value, container: Value) returns (o: Outcome<Error>)
      modifies connection`containers
      ensures old(TransferEnd(imageId, container)).None? ==>
        o.Fail? && o.error.NotFound? && connection.containers == old(connection.containers)
      ensures old(TransferEnd(imageId, container)).Some? ==>
        var end := old(TransferEnd(imageId, container)).value;
        && connection.containers == end.store
        && (end.result.Ok? <==> o.Pass?)
        && (end.result.Err? ==> o == Fail(end.result.error))
    {
      var image := imageRepo.Get(imageId);
      if image.Err? {
        return Fail(image.error);
      }
      var size := ImageSize(image.value.size);
      var bytes := imageRepo.GetData(image.value);
      if bytes.Err? {
        return Fail(bytes.error);
      }
      var stream := new Stream(bytes.value);
      var r := swiftStore.Add(connection, PyStr(imageId), stream, size, PyStr(container));
      if r.Err? {
        return Fail(r.error);
      }
      return Pass;
    }

    /**
     * `execute(task_id)`: a missing task ends the run with nothing saved;
     * a found task is marked as processing and saved, and `save_task` is
     * called once with "success" and the export location, or with
     * "failure" and "Foo Bar" when validation or the transfer raised.
     */
    method Execute(taskId: Value)
      requires taskRepo.Valid()
      modifies taskRepo, this`saveTaskCalls, connection`containers
      ensures taskRepo.Valid()
      ensures taskId !in old(taskRepo.tasks) ==>
        && taskRepo.tasks == old(taskRepo.tasks) && taskRepo.saved == old(taskRepo.saved)
        && saveTaskCalls == old(saveTaskCalls) && connection.containers == old(connection.containers)
      ensures taskId in old(taskRepo.tasks) ==>
        var begun := old(taskRepo.tasks)[taskId].Perform(Repos.BeginProcessingCall);
        var input := begun.input;
        && taskRepo.tasks == old(taskRepo.tasks)[taskId := begun]
        && taskRepo.saved == old(taskRepo.saved) + [begun]
        && (ValidateTaskInput(taskId, input).Fail? ==>
              && saveTaskCalls == old(saveTaskCalls) + [SaveTaskCall(taskId, FailureInfo, "failure")]
              && connection.containers == old(connection.containers))
        && (ValidateTaskInput(taskId, input).Pass? ==>
              var imageId := input.fields["image_uuid"];
              var container := input.fields["receiving_swift_container"];
              var end := old(TransferEnd(imageId, container));
              var exported := end.Some? && end.value.result.Ok?;
              && saveTaskCalls == old(saveTaskCalls) +
                   [if exported then SaveTaskCall(taskId, ExportLocation(imageId, container), "success")
                    else SaveTaskCall(taskId, FailureInfo, "failure")]
              && (end.Some? ==> connection.containers == end.value.store)
              && (end.None? ==> connection.containers == old(connection.containers)))
    {
      var found := SetTaskProcessing(taskId);
      if found.None? {
        return;
      }
      var task := found.value;
      var status := "failure";
      var result := JNull;
      var message := JNull;
      var outcome := ValidateTaskInput(taskId, task.input);
      if outcome.Pass? {
        var imageId := task.input.fields["image_uuid"];
        var container := task.input.fields["receiving_swift_container"];
        outcome := TransferImageData(imageId, container);
        if outcome.Pass? {
          status := "success";
          result := ExportLocation(imageId, container);
        }
      }
      if outcome.Fail? {
        message := FailureInfo;
      }
      var info := if Truthy(result) then result else message;
      saveTaskCalls := saveTaskCalls + [SaveTaskCall(taskId, info, status)];
    }
  }
}
