/**
 * The repositories the executors and scripts work against.
 *
 * A task fetched from the task repository is a value: the scripts call
 * `begin_processing`, `success` and `fail` on it, which the model records in
 * the task's call log, and `save` stores it back.  The image repository
 * holds the images the factory creates; the image data their store-backed
 * `set_data` and `get_data` reach is a map the repository keeps beside them.
 */
module Repos {
  import opened Values
  import Domain

  /** A call the scripts make on a task they fetched. */
  datatype TaskCall =
    | BeginProcessingCall
    | SuccessCall(result: Value)
    | FailCall(message: Value)

  /** A task as the repository hands it out. */
  datatype TaskView = TaskView(taskId: Value, taskType: Value, input: Value, calls: seq<TaskCall>)
  {
    /** The task after one more call on it. */
    function Perform(c: TaskCall): (t: TaskView)
      ensures t.taskId == taskId && t.taskType == taskType && t.input == input
      ensures t.calls == calls + [c]
    {
      this.(calls := calls + [c])
    }
  }

  class TaskRepo {
    /** The stored tasks, by id. */
    var tasks: map<Value, TaskView>
    /** Every task passed to `save`, in order. */
    var saved: seq<TaskView>

    predicate Valid()
      reads this
    {
      forall id :: id in tasks ==> tasks[id].taskId == id
    }

    constructor (tasks: map<Value, TaskView>)
      requires forall id :: id in tasks ==> tasks[id].taskId == id
      ensures Valid() && this.tasks == tasks && saved == []
    {
      this.tasks := tasks;
      saved := [];
    }

    /** `task_repo.get(task_id)`: the stored task, or NotFound. */
    method Get(taskId: Value) returns (r: Result<TaskView, Error>)
      requires Valid()
      ensures taskId in tasks ==> r == Ok(tasks[taskId]) && r.value.taskId == taskId
      ensures taskId !in tasks ==> r.Err? && r.error.NotFound?
    {
      if taskId in tasks {
        return Ok(tasks[taskId]);
      }
      return Err(NotFound("Task not found"));
    }

    /** `task_repo.save(task)`: the task replaces the stored one and is logged. */
    method Save(t: TaskView)
      requires Valid()
      modifies this
      ensures Valid()
      ensures tasks == old(tasks)[t.taskId := t]
      ensures saved == old(saved) + [t]
    {
      tasks := tasks[t.taskId := t];
      saved := saved + [t];
    }
  }

  class ImageRepo {
    /** The stored images, by id. */
    var images: map<Value, Domain.Image>
    /** Ids passed to `add`, in order. */
    var added: seq<Value>
    /** Ids passed to `save`, in order. */
    var saved: seq<Value>
    /** The data behind each image, as its store-backed `set_data` leaves it. */
    var data: map<Value, seq<bv8>>
    /** What the store raises on `set_data`, if it fails. */
    const setDataFailure: Option<Error>

    constructor (images: map<Value, Domain.Image>, data: map<Value, seq<bv8>>, setDataFailure: Option<Error>)
      ensures this.images == images && this.data == data && this.setDataFailure == setDataFailure
      ensures added == [] && saved == []
    {
      this.images, this.data, this.setDataFailure := images, data, setDataFailure;
      added, saved := [], [];
    }

    /** `image_repo.add(image)` */
    method Add(image: Domain.Image)
      modifies this`images, this`added
      ensures images == old(images)[image.imageId := image]
      ensures added == old(added) + [image.imageId]
    {
      images := images[image.imageId := image];
      added := added + [image.imageId];
    }

    /** `image_repo.get(image_id)`: the stored image, or NotFound. */
    method Get(imageId: Value) returns (r: Result<Domain.Image, Error>)
      ensures imageId in images ==> r == Ok(images[imageId])
      ensures imageId !in images ==> r.Err? && r.error.NotFound?
    {
      if imageId in images {
        return Ok(images[imageId]);
      }
      return Err(NotFound("No image found"));
    }

    /** `image_repo.save(image)` */
    method Save(image: Domain.Image)
      modifies this`saved
      ensures saved == old(saved) + [image.imageId]
    {
      saved := saved + [image.imageId];
    }

    /** `image.set_data(data)` on an image of this repository: stored, or the store's error. */
    method SetData(image: Domain.Image, bytes: seq<bv8>) returns (o: Outcome<Error>)
      modifies this`data
      ensures setDataFailure.Some? ==> o == Fail(setDataFailure.value) && data == old(data)
      ensures setDataFailure.None? ==> o == Pass && data == old(data)[image.imageId := bytes]
    {
      if setDataFailure.Some? {
        return Fail(setDataFailure.value);
      }
      data := data[image.imageId := bytes];
      return Pass;
    }

    /** `image.get_data()` on an image of this repository: its data, or NotFound when it has none. */
    method GetData(image: Domain.Image) returns (r: Result<seq<bv8>, Error>)
      ensures image.imageId in data ==> r == Ok(data[image.imageId])
      ensures image.imageId !in data ==> r.Err? && r.error.NotFound?
    {
      if image.imageId in data {
        return Ok(data[image.imageId]);
      }
      return Err(NotFound("Image has no data"));
    }
  }
}
