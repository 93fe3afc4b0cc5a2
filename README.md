# Glance task subsystem — a Dafny model

This project models the core of Glance's asynchronous task subsystem:

- the image domain: `ImageFactory` with its keyword checks, and the `Image` and `ImageMembership` records with their validating setters;
- the two revisions of the `Task` entity and of its factory;
- the base task executor and the eventlet executor that dispatches a task to a script;
- the filesystem and swift import scripts and the swift export script;
- the swift utilities the export script uploads with (`SwiftStore.add` with its chunked upload, `_http_request`, the endpoint scan of `get_connection`, `get`, `ChunkReader`);
- the assembly of JSON schemas from base and custom image properties.

Python values are modelled as `Values.Value`: None, booleans, integers, strings, lists and dictionaries. Exceptions are `Values.Error`. A procedure that returns or raises yields an `Outcome` or a `Result`. The pieces of Python semantics the code relies on are written out, among them:

- truthiness;
- `in` on dictionaries, lists and strings;
- `d[k]` and `d.get(k)`;
- `str()` and `repr()`;
- `set()`;
- `int()`.

Objects the source updates in place are classes whose methods state their whole new state:

- `Image`, `ImageMembership` and both `Task` revisions;
- the executors and scripts;
- `SwiftStore`, `ChunkReader`, `Stream` and `Checksum`;
- the schema `API`.

What a mutating procedure computes is also stated as a function, and the properties are lemmas about that function. Examples:

- `SwiftChunks.ChunkLoop` for the chunk loop of `add`;
- `ImportCommon.ImportImageRun` for `import_image`;
- `Schema.CustomTable` for `set_custom_schema_properties`.

The surroundings the core talks to are classes in their own modules:

- The swiftclient connection is `ObjectStore.Connection`: containers of named objects. A table of refused requests says which request raises which HTTP status.
- The task and image repositories of the gateway are `Repos.TaskRepo` and `Repos.ImageRepo`. A task fetched from the task repository is a value. `begin_processing`, `success` and `fail` on it only append to its call log, so the scripts do not depend on either `Task` revision.
- Clocks and uuid generation are parameters (`now`, `freshId`).
- The MD5 digest is the datatype `SwiftChunks.Digest` of the bytes digested.
- `time.sleep` is a list of the back-off durations asked for.

## Model

| member | source | states |
|---|---|---|
| Values.SubstringAt | glance/domain/__init__.py:196 | the `in` test between two strings holds exactly when the first occurs at some index of the second |
| Values.PySet | glance/domain/__init__.py:143-145 | `set(v)`: a list gives the set of its elements; every element is hashable; TypeError exactly for None, a number, a boolean or a list holding an unhashable element |
| Values.Truthy | glance/domain/__init__.py:104-105 | Python's truth value: None, False, 0, the empty string, the empty list and the empty dictionary are false, everything else is true |
| Values.Contains | glance/common/scripts/image_import/import_swift_to_swift.py:90-91 | `key in container`: dictionary membership, list membership or substring search; TypeError exactly for a container that is none of the three |
| Values.GetItem | glance/common/scripts/image_export/export_swift_to_swift.py:104 | `d[k]` succeeds exactly on a dictionary holding the key and gives its value; KeyError for a missing key |
| Values.GetOrNone | glance/common/scripts/image_import/import_swift_to_swift.py:52 | `d.get(k)` works exactly on a dictionary and gives the value or None |
| Values.IsUuidLike | glance/common/scripts/image_export/export_swift_to_swift.py:106 | `uuidutils.is_uuid_like`: exactly the canonical text of a uuid, 36 characters of lower-case hex digits in groups 8-4-4-4-12 joined by hyphens; FormatLocationUriSound and FormatLocationUriDiffersOnlyOnBareUuid rest on this definition |
| Values.ErrorType | glance/common/scripts/image_import/import_filesystem_to_filesystem.py:65 | `unicode(type(e))`: `<type 'exceptions.X'>` for a built-in exception, `<class 'module.X'>` for glance's and swiftclient's |
| Values.ErrorText | glance/common/scripts/image_import/import_filesystem_to_filesystem.py:65 | `unicode(e)`: a KeyError is the key's repr, an AttributeError names the type that lacks the attribute, an IOError is `[Errno 2] No such file or directory: ` and the path's repr, a ZeroDivisionError its message; glance's exceptions give the detail they carry |
| Values.Describe | glance/common/scripts/image_import/import_swift_to_swift.py:80 | `unicode(type(e)) + ': ' + unicode(e)`, the text both import scripts save as the task's error; IOErrorText and KeyErrorText give whole texts |
| Values.IOErrorText | glance/common/scripts/image_import/import_filesystem_to_filesystem.py:113 | `open` of a missing plain path `p` fails with `[Errno 2] No such file or directory: 'p'` |
| Values.KeyErrorText | glance/domain/__init__.py:240-242 | the KeyError of a missing plain key `k` reads `'k'` |
| Values.SortedKeys | glance/common/scripts/image_export/export_swift_to_swift.py:69 | the keys of a dictionary, each once, in the order its `str()` writes them |
| Values.Repr | glance/common/scripts/image_export/export_swift_to_swift.py:112 | Python 2's `repr`, which `str` applies inside a list or dictionary: quoted and escaped strings, `L` on integers beyond a 64-bit `int`, `[a, b]` and `{k: v}`; never empty |
| Values.PyStr | glance/common/scripts/image_export/export_swift_to_swift.py:112 | Python's `str()`: a string is itself, a list or a dictionary is its `repr` |
| Values.PyStrOfEmptyList | glance/common/scripts/image_export/export_swift_to_swift.py:112 | `str([])` is `[]` |
| Values.PyStrOfSingleItem | glance/common/scripts/image_export/export_swift_to_swift.py:112 | a one-item dictionary of plain strings is written `{'k': 'v'}` |
| Domain.FirstContained | glance/domain/__init__.py:47-50 | the loop over the keys reports a key that `in` finds, with every earlier key absent; no report exactly when no key is found; an error of the first `in` propagates |
| Domain.FirstContainedIsFirst | glance/domain/__init__.py:47-50 | a hit preceded only by misses is the one the loop stops at |
| Domain.ReadonlyViolation | glance/domain/__init__.py:47-50 | what `_check_readonly` raises: ReadonlyProperty for the first read-only key among the keywords; ReadonlyViolationNamesAKey states its meaning |
| Domain.ReservedViolation | glance/domain/__init__.py:57-61 | what `_check_reserved` raises: nothing for None, the error of `in`, or ReservedProperty for the first reserved key; ReservedViolationNamesAKey states its meaning |
| Domain.CheckReadonly | glance/domain/__init__.py:47-50 | `_check_readonly` passes exactly when none of the read-only properties is among the keywords |
| Domain.ReadonlyViolationNamesAKey | glance/domain/__init__.py:47-50 | passes iff no read-only key is present; a refusal is ReadonlyProperty naming a read-only key that is present |
| Domain.CheckReserved | glance/domain/__init__.py:57-61 | `_check_reserved` agrees with its specification: nothing is checked for None, otherwise the first reserved key found is refused |
| Domain.ReservedViolationNamesAKey | glance/domain/__init__.py:57-61 | a reserved key among the extra properties is refused with ReservedProperty naming a reserved key that is present |
| Domain.CheckUnexpected | glance/domain/__init__.py:52-55 | any keyword left over raises TypeError naming them as `str(kwargs.keys())`, and none left passes |
| Domain.KeysText | glance/domain/__init__.py:55 | `str(kwargs.keys())`: the leftover keyword names as a Python list of string reprs |
| Domain.UnexpectedKeywordText | glance/domain/__init__.py:52-55 | one leftover plain keyword `k` raises TypeError "new_image() got unexpected keywords ['k']" |
| Domain.NoViolationWithoutKeywords | glance/domain/__init__.py:47-55 | with no keywords left over neither the read-only check nor the unexpected-keyword check raises |
| Domain.ImageInit | glance/domain/__init__.py:88-108 | `Image.__init__` keeps the id, status and timestamps; visibility other than public or private is ValueError; falsy tags become the empty set; extra properties default to `{}` |
| Domain.OtherArgs | glance/domain/__init__.py:63-69 | the keywords that land in `other_args` are exactly those `new_image` does not name |
| Domain.NewImageResult | glance/domain/__init__.py:63-83 | the factory specification: the read-only, unexpected-keyword and reserved checks in that order, then the image `__init__` builds; the NewImage lemmas below state its properties |
| Domain.NewImageReadonlyFirst | glance/domain/__init__.py:63-83 | a read-only keyword is refused with ReadonlyProperty before the unexpected-keyword check, naming a key that was passed |
| Domain.NewImageUnexpectedKeyword | glance/domain/__init__.py:63-83 | with no read-only keyword, a keyword `new_image` does not name raises TypeError |
| Domain.NewImageReservedExtra | glance/domain/__init__.py:63-83 | with only known keywords, a reserved key in `extra_properties` raises ReservedProperty naming a key of the dictionary |
| Domain.NewImageDefaults | glance/domain/__init__.py:63-83 | `new_image()` gives a queued private image with the generated id, equal creation and update times, zero minimums, no tags and `{}` extra properties |
| Domain.NewImageIdentity | glance/domain/__init__.py:63-83 | every new image is queued, created and updated at the same instant, and has the supplied id or else the generated one |
| Domain.NewImageKeepsIdAndTags | glance/domain/__init__.py:63-83 | a supplied id survives, and a list of tags becomes the set of its elements |
| Domain.NewImage | glance/domain/__init__.py:63-83 | the method returns a fresh valid image whose attributes are the ones the factory specification gives, or the same error |
| Domain.MissingFormats | glance/domain/__init__.py:114-127 | the list of unset formats is empty iff both formats are set, and names each unset one |
| Domain.StatusChangeError | glance/domain/__init__.py:114-127 | an error exactly when a queued image moves to saving or active with a format unset; the error is ValueError |
| Domain.Image.constructor | glance/domain/__init__.py:88-108 | the new image holds the given attributes and is valid |
| Domain.Image.SetStatus | glance/domain/__init__.py:114-127 | the status changes unless StatusChangeError refuses, whatever the old status; nothing else changes |
| Domain.Image.SetVisibility | glance/domain/__init__.py:133-137 | public or private is stored; anything else is ValueError with the state unchanged |
| Domain.Image.SetTags | glance/domain/__init__.py:143-145 | the tags become `set(v)`; an error of `set` leaves the state unchanged |
| Domain.Image.Delete | glance/domain/__init__.py:147-150 | a protected image raises ProtectedImageDelete and is unchanged; any other becomes deleted |
| Domain.Image.GetData | glance/domain/__init__.py:152-153 | always NotImplementedError |
| Domain.Image.SetData | glance/domain/__init__.py:155-156 | always NotImplementedError |
| Domain.ImageMembership.constructor | glance/domain/__init__.py:161-168 | the membership holds the given attributes |
| Domain.ImageMembership.SetStatus | glance/domain/__init__.py:174-179 | pending, accepted or rejected is stored; anything else is ValueError with the status unchanged |
| Domain.NewMembership | glance/domain/__init__.py:161-179 | construction fails with ValueError exactly when the status is not one of the three; otherwise the membership holds the arguments |
| Domain.NewImageMember | glance/domain/__init__.py:184-190 | a pending membership of the image for the member, created and updated at the same instant, without an id |
| Domain.TaskCheck | glance/domain/__init__.py:196-200 | the constructor passes iff the type is a string occurring in "import" and the status is one of the four; which error is raised otherwise |
| Domain.TaskTypeIsSubstringTest | glance/domain/__init__.py:196-197 | the type test accepts exactly the substrings of "import", so also "" and "port" |
| Domain.TaskRefusesExport | glance/domain/__init__.py:196-197 | an export task is refused with InvalidTaskType |
| Domain.NewTaskResult | glance/domain/__init__.py:234-251 | the task factory specification: TypeError without a request, KeyError for a missing `type` or `input`, the constructor's checks, else a pending task; NewTaskDefaults and NewTaskErrors state its properties |
| Domain.TaskRunnerInterface.Run | glance/domain/__init__.py:255-256 | the default runner's `run` does nothing; the ghost counter records one run |
| Domain.TaskRunnerInterface.Kill | glance/domain/__init__.py:258-259 | the default runner's `kill` does nothing; the ghost counter records one kill |
| Domain.Task.constructor | glance/domain/__init__.py:194-211 | a task passing the checks holds exactly the given attributes and runner |
| Domain.Task.Run | glance/domain/__init__.py:217-219 | the status becomes processing from any status, then the runner runs once; without a runner AttributeError after the status change |
| Domain.Task.Kill | glance/domain/__init__.py:221-222 | nothing changes |
| Domain.Task.Complete | glance/domain/__init__.py:224-226 | status success and the result, from any status; nothing else changes |
| Domain.Task.Fail | glance/domain/__init__.py:228-230 | status failure and the message, from any status; nothing else changes |
| Domain.NewTaskObject | glance/domain/__init__.py:194-211 | `Task(...)` raises the check's error, or gives a task holding the arguments |
| Domain.NewTaskDefaults | glance/domain/__init__.py:234-251 | a new task is pending, owned by the request's owner, with no result, message or expiry, and created and updated at the same instant |
| Domain.NewTaskErrors | glance/domain/__init__.py:234-251 | no request is TypeError; a missing `type` or `input` is KeyError; an export type is InvalidTaskType |
| Domain.NewTask | glance/domain/__init__.py:234-251 | the factory method raises the specification's error or gives a task with its attributes and a fresh default runner |
| DomainAsync.StatusCheck | glance/domain/async.py:23-24 | passes iff the status is one of the four task statuses, else InvalidTaskStatus of that status |
| DomainAsync.Runner.Run | glance/domain/async.py:41-44 | the runner's `run` is called once per `start` and `kill` is not |
| DomainAsync.Runner.Kill | glance/domain/async.py:46-49 | the runner's `kill` is called once per `kill` and `run` is not |
| DomainAsync.Task.constructor | glance/domain/async.py:20-35 | a task passing the check holds exactly the given attributes and runner |
| DomainAsync.Task.Start | glance/domain/async.py:41-44 | status inprogress and `started_at` stamped, then the runner runs once; without a runner AttributeError after both changes |
| DomainAsync.Task.Kill | glance/domain/async.py:46-49 | status failure from any state; the message, or the forced-quit message when it is falsy; the runner kills once; timestamps untouched |
| DomainAsync.Task.Complete | glance/domain/async.py:51-54 | status success, the result and `stopped_at`; `started_at` kept |
| DomainAsync.Task.Fail | glance/domain/async.py:56-59 | status failure, the message and `stopped_at`; `started_at` kept |
| DomainAsync.NewTaskObject | glance/domain/async.py:20-35 | `Task(...)` raises InvalidTaskStatus for a status outside the four, or gives a task holding the arguments |
| DomainAsync.NewTaskAsWritten | glance/domain/async.py:63-78 | the factory as written: TypeError without a request, and the TypeError of a constructor call one argument short otherwise; NewTaskAsWrittenAlwaysFails states that no call yields a task |
| DomainAsync.NewTaskResult | glance/domain/async.py:63-78 | the factory as intended: the given id unless falsy, pending, parameters defaulting to `{}`, created and updated at one instant; NewTaskDefaults states these |
| DomainAsync.NewTaskAsWrittenAlwaysFails | glance/domain/async.py:77-78 | the factory as written raises TypeError on every call |
| DomainAsync.NewTaskDefaults | glance/domain/async.py:63-76 | fails iff there is no request; otherwise keeps a truthy id or generates one, is pending, parameters default to `{}`, no result, message or start and stop times, created and updated at the same instant |
| DomainAsync.NewTask | glance/domain/async.py:63-78 | the intended factory method raises TypeError without a request, or gives a task with the specified attributes |
| AsyncExecutor.TaskExecutor.constructor | glance/async/__init__.py:25-29 | the executor keeps the context and both repositories |
| AsyncExecutor.TaskExecutor.BeginProcessing | glance/async/__init__.py:31-37 | a missing task raises NotFound and saves nothing; a found task is saved twice: first after `begin_processing`, then failed with the internal-error message |
| AsyncExecutor.TaskExecutor.Run | glance/async/__init__.py:39-46 | `_run` re-fetches the task, fails it with the internal-error message and saves it once; NotFound for a missing task |
| EventletExecutor.LoadScript | glance/async/eventlet_executor.py:43-49 | the importer exactly for "import", the exporter exactly for "export", nothing for any other type |
| EventletExecutor.DefaultTypesAllHaveScripts | glance/async/eventlet_executor.py:29-35 | every type of the default allowlist has a script |
| EventletExecutor.TaskEventletExecutor.Run | glance/async/eventlet_executor.py:51-65 | a type outside the allowlist raises InvalidTaskType before anything is submitted; an allowed type with a script submits exactly one job; one without passes and submits nothing; this is the evident intent, since the module as written cannot be imported |
| ImportCommon.UnpackTaskInput | glance/common/scripts/image_import/import_swift_to_swift.py:87-96 | `unpack_task_input`: Invalid naming the first required key `in` misses, the error of `in` itself, else the input; UnpackTaskInputChecksKeys states its meaning for dictionaries; the filesystem script's `unpack_task_input` is the same code |
| ImportCommon.CreateImageResult | glance/common/scripts/image_import/import_swift_to_swift.py:112-132 | the outcome of `create_image`: the factory's result on the split keywords, or the error of `pop` on a non-dictionary; the CreateImage lemmas state its properties |
| ImportCommon.FailureMessage | glance/common/scripts/image_import/import_swift_to_swift.py:80-83 | the `fail` message `{'error': "<type>: <text>"}`, as OutcomeCall states |
| ImportCommon.GetTask | glance/common/scripts/image_import/import_swift_to_swift.py:41-49 | the stored task, or None instead of NotFound; the filesystem script's `get_task` and the export script's are the same code |
| ImportCommon.FirstMissing | glance/common/scripts/image_import/import_swift_to_swift.py:90-94 | reports a key that `in` does not find, with every earlier key found; no report exactly when every key is found; an error of the first `in` propagates |
| ImportCommon.UnpackTaskInputChecksKeys | glance/common/scripts/image_import/import_swift_to_swift.py:87-96 | for a dictionary, Invalid exactly when a required key is absent; otherwise the input unchanged; the filesystem script's `unpack_task_input` is the same code |
| ImportCommon.SplitProperties | glance/common/scripts/image_import/import_swift_to_swift.py:123-127 | the pop loop moves exactly the base properties present into the keywords, keeping their values, and leaves exactly the others |
| ImportCommon.ExtraProperties | glance/common/scripts/image_import/import_swift_to_swift.py:120-127 | the extra properties are exactly the requested keys that are not base properties |
| ImportCommon.CreateKwargsSplit | glance/common/scripts/image_import/import_swift_to_swift.py:112-132 | every requested property reaches the factory once, as a keyword if it is a base property and as an extra property otherwise |
| ImportCommon.PropertiesAfterCreate | glance/common/scripts/image_import/import_swift_to_swift.py:120-128 | the popped dictionary keeps exactly its extra properties; a value that is not a dictionary is untouched |
| ImportCommon.CreateImageRefusesId | glance/common/scripts/image_import/import_swift_to_swift.py:113-130 | a requested `id` lands among the factory's unexpected keywords, so the creation fails with TypeError |
| ImportCommon.ReadonlyKeywordsComeFromFields | glance/common/scripts/image_import/import_swift_to_swift.py:112-130 | any read-only keyword of the factory call was one of the requested properties |
| ImportCommon.ImageIdNotAKeyword | glance/common/scripts/image_import/import_swift_to_swift.py:128-130 | `image_id` is never passed to the factory |
| ImportCommon.CreateImageUsesFreshId | glance/common/scripts/image_import/import_swift_to_swift.py:128-130 | every image `create_image` makes is queued and has the generated id |
| ImportCommon.CreateImageRefusesReadonly | glance/common/scripts/image_import/import_swift_to_swift.py:123-130 | a requested read-only property fails the creation with ReadonlyProperty |
| ImportCommon.SplitGivesKwargs | glance/common/scripts/image_import/import_swift_to_swift.py:120-130 | what the pop loop leaves is the extra properties, and with tags the factory's keywords |
| ImportCommon.CreateImage | glance/common/scripts/image_import/import_swift_to_swift.py:112-132 | the factory's result on the split properties; on success the image is added to the repository exactly once; on failure the repository is unchanged; the dictionary loses its base keys either way; the filesystem script's `create_image` is the same code |
| ImportCommon.AddCreated | glance/common/scripts/image_import/import_swift_to_swift.py:131 | a created image is added once; a raised error adds nothing |
| ImportCommon.CreateImageFor | glance/common/scripts/image_import/import_swift_to_swift.py:51-52 | `create_image` on the task input's properties: the input shows the pops, and the new image is in the repository under its id |
| ImportCommon.OutcomeCall | glance/common/scripts/image_import/import_swift_to_swift.py:76-83 | success with `{'image_id': id}` exactly when the run succeeded, else fail with `{'error': "<type>: <text>"}` |
| ImportCommon.ImportImageRun | glance/common/scripts/image_import/import_swift_to_swift.py:51-59 | the task input after a run is the input with its properties popped |
| ImportCommon.CreatedImageId | glance/common/scripts/image_import/import_swift_to_swift.py:52-56 | the id of the created image, or the creation's error |
| ImportCommon.ImportSteps | glance/common/scripts/image_import/import_swift_to_swift.py:53-59 | the steps after creation keep the input as it was left |
| ImportCommon.ImportImageAfterCreate | glance/common/scripts/image_import/import_swift_to_swift.py:51-59 | once the image exists the import succeeds iff the bytes were obtained and the store took them; the result is the generated id and the bytes become its data; the image stays either way |
| ImportCommon.ImportStepsAfterCreate | glance/common/scripts/image_import/import_swift_to_swift.py:53-59 | the same for any input once an image id exists |
| ImportFilesystem.FormatLocationUri | glance/common/scripts/image_import/import_filesystem_to_filesystem.py:83-87 | accepted iff a string starting with `file:///`; the result is the location without its 7-character scheme and starts with `/`; otherwise BadStoreUri, or AttributeError for a truthy non-string |
| ImportFilesystem.ReadFile | glance/common/scripts/image_import/import_filesystem_to_filesystem.py:111-114 | `open(uri)`: the file's bytes, or IOError when there is no such file |
| ImportFilesystem.Run | glance/common/scripts/image_import/import_filesystem_to_filesystem.py:55-58 | the run after the task is found: unpack, format the location, then `import_image` on the file; the RunNeedsDictionary, RunMissingKey, RunReachesImport and RunAfterCreate lemmas state its properties |
| ImportFilesystem.RunNeedsDictionary | glance/common/scripts/image_import/import_filesystem_to_filesystem.py:55-58 | an input that is not a dictionary fails before any image exists |
| ImportFilesystem.RunMissingKey | glance/common/scripts/image_import/import_filesystem_to_filesystem.py:72-81 | an input lacking a required key fails with Invalid and creates nothing |
| ImportFilesystem.RunAfterCreate | glance/common/scripts/image_import/import_filesystem_to_filesystem.py:38-45 | once created, the import succeeds with the image's id iff the file exists and the store takes its bytes; the created image stays regardless |
| ImportFilesystem.RunReachesImport | glance/common/scripts/image_import/import_filesystem_to_filesystem.py:55-59 | an input with the three keys and a file location runs `import_image` on the stripped path |
| ImportFilesystem.FilesystemImportScript.SetImageData | glance/common/scripts/image_import/import_filesystem_to_filesystem.py:111-122 | a missing file is IOError; otherwise the store's error is re-raised or the file's bytes become the image's data |
| ImportFilesystem.FilesystemImportScript.ImportImage | glance/common/scripts/image_import/import_filesystem_to_filesystem.py:38-45 | the method does what the import-run specification says to the result, the input, the repository and the data |
| ImportFilesystem.FilesystemImportScript.FinishImport | glance/common/scripts/image_import/import_filesystem_to_filesystem.py:40-45 | the steps after creation, as specified |
| ImportFilesystem.FilesystemImportScript.StoreAndSave | glance/common/scripts/image_import/import_filesystem_to_filesystem.py:40-45 | set the data, fetch and save the image, as specified |
| ImportFilesystem.FilesystemImportScript.Execute | glance/common/scripts/image_import/import_filesystem_to_filesystem.py:47-70 | a missing task is left alone and nothing is saved; a found task gets one success or fail call for the run and is saved exactly once |
| ImportSwift.SliceError | glance/common/scripts/image_import/import_swift_to_swift.py:99-101 | slicing a dictionary raises TypeError "unhashable type"; slicing None, a number or a boolean raises TypeError "'T' object has no attribute '__getitem__'" with T its type |
| ImportSwift.FormatLocationUriAsWritten | glance/common/scripts/image_import/import_swift_to_swift.py:98-110 | `format_location_uri` as written, with `location[36]` outside the `try`; FormatLocationUriAsWrittenBareUuid and FormatLocationUriDiffersOnlyOnBareUuid state where it goes wrong |
| ImportSwift.FormatLocationUriAsWrittenBareUuid | glance/common/scripts/image_import/import_swift_to_swift.py:98-110 | a bare uuid location makes the parser as written raise IndexError |
| ImportSwift.FormatLocationUri | glance/common/scripts/image_import/import_swift_to_swift.py:98-110 | the corrected parser raises only BadStoreUri, or TypeError for a value that cannot be sliced |
| ImportSwift.FormatLocationUriSplits | glance/common/scripts/image_import/import_swift_to_swift.py:98-110 | `<uuid>/<uuid>` is split back into its two uuids by both parsers |
| ImportSwift.FormatLocationUriSound | glance/common/scripts/image_import/import_swift_to_swift.py:105-110 | everything accepted is `<uuid>/<uuid>` of the two parts returned |
| ImportSwift.FormatLocationUriDiffersOnlyOnBareUuid | glance/common/scripts/image_import/import_swift_to_swift.py:98-110 | the two parsers disagree only on a location that is one uuid |
| ImportSwift.GetImageDataOutcomes | glance/common/scripts/image_import/import_swift_to_swift.py:198-213 | the stored object when nothing fails; a 404 or an absent object is NotFound; any other ClientException propagates |
| ImportSwift.GetImageDataAsWritten | glance/common/scripts/image_import/import_swift_to_swift.py:134-136 | `_get_image_data` as written: the unbound `SwiftStore.get` raises TypeError on every call |
| ImportSwift.GetImageData | glance/common/scripts/image_import/import_swift_to_swift.py:198-213 | `_get_image_data` as intended, through the script's own store `get`; GetImageDataOutcomes states its outcomes |
| ImportSwift.RunAsWritten | glance/common/scripts/image_import/import_swift_to_swift.py:68-72 | the run as written after the task is found; RunAsWrittenNeverSucceeds states that it always fails |
| ImportSwift.Run | glance/common/scripts/image_import/import_swift_to_swift.py:68-72 | the run with both corrections of the Findings; RunReachesImport and RunImportsTheObject state its properties |
| ImportSwift.RunAsWrittenNeverSucceeds | glance/common/scripts/image_import/import_swift_to_swift.py:134-136 | the script as written fails every run and never stores data |
| ImportSwift.RunImportsTheObject | glance/common/scripts/image_import/import_swift_to_swift.py:51-59 | with an accepted location and image, the import succeeds iff the object downloads and the store takes it, and its bytes become the data |
| ImportSwift.RunReachesImport | glance/common/scripts/image_import/import_swift_to_swift.py:69-74 | an input with the three keys and an accepted location runs `import_image` on the two parts |
| ImportSwift.SwiftImportScript.SetImageData | glance/common/scripts/image_import/import_swift_to_swift.py:138-150 | the store's error is re-raised, or the bytes become the image's data; the class is the corrected half of Findings rows 2 and 3, its download being `GetImageData` |
| ImportSwift.SwiftImportScript.StoreAndSave | glance/common/scripts/image_import/import_swift_to_swift.py:54-58 | set the data, then fetch and save the image, as specified; the class is the corrected half of Findings rows 2 and 3, its download being `GetImageData` |
| ImportSwift.SwiftImportScript.FinishImport | glance/common/scripts/image_import/import_swift_to_swift.py:53-58 | the steps after creation, as specified; the class is the corrected half of Findings rows 2 and 3, its download being `GetImageData` |
| ImportSwift.SwiftImportScript.ImportImage | glance/common/scripts/image_import/import_swift_to_swift.py:51-59 | the method does what the import-run specification says; the class is the corrected half of Findings rows 2 and 3, its download being `GetImageData` |
| ImportSwift.SwiftImportScript.Execute | glance/common/scripts/image_import/import_swift_to_swift.py:61-85 | a missing task is left alone; a found task gets one success or fail call for the run and is saved exactly once; the class is the corrected half of Findings rows 2 and 3, its download being `GetImageData` |
| ExportSwift.ValidateTaskInput | glance/common/scripts/image_export/export_swift_to_swift.py:96-117 | for a dictionary input, passes iff both keys are present, the image id is uuid-like and `str()` of the container, lists and dictionaries included, is an acceptable name |
| ExportSwift.ValidateRefusesMissingKey | glance/common/scripts/image_export/export_swift_to_swift.py:98-102 | a missing key is Invalid, and `image_uuid` is checked first |
| ExportSwift.ValidateRefusesNonUuid | glance/common/scripts/image_export/export_swift_to_swift.py:104-110 | with both keys present, a non-uuid image id is Invalid whatever the container |
| ExportSwift.ValidateAcceptsEmptyList | glance/common/scripts/image_export/export_swift_to_swift.py:112-117 | a `[]` container passes, since `str([])` has no banned character, and the export location is `[]/<uuid>` |
| ExportSwift.ValidateAcceptsDictionary | glance/common/scripts/image_export/export_swift_to_swift.py:112-117 | a `{'a': 'b'}` container passes too, with the export location `{'a': 'b'}/<uuid>` |
| ExportSwift.ValidateAccepts | glance/common/scripts/image_export/export_swift_to_swift.py:98-117 | both keys, a uuid and a container whose `str()` is a good name pass validation |
| ExportSwift.ContainerNameRule | glance/common/scripts/image_export/export_swift_to_swift.py:112-117 | a container name passes iff non-empty and free of `/`, `?` and `.` |
| ExportSwift.BadContainerName | glance/common/scripts/image_export/export_swift_to_swift.py:113 | `str(container) == '' or re.search(r'[/?.]', ...)`; ContainerNameRule states its meaning |
| ExportSwift.ImageSize | glance/common/scripts/image_export/export_swift_to_swift.py:121 | the size handed to `add`: the image's size exactly when it is a non-negative integer |
| ExportSwift.ExportLocation | glance/common/scripts/image_export/export_swift_to_swift.py:68-70 | a truthy dictionary with the one key `export_location`, holding `str(container) + '/' + str(image_uuid)` |
| ExportSwift.ExportScript.SetTaskProcessing | glance/common/scripts/image_export/export_swift_to_swift.py:37-49 | a missing task gives None with nothing saved; a found task gets `begin_processing` and is saved once |
| ExportSwift.ExportScript.TransferEnd | glance/common/scripts/image_export/export_swift_to_swift.py:119-130 | what the transfer does to the store: nothing for a missing image or data, else `add`'s specification on the image's data and size; TransferImageData and Execute are proved against it |
| ExportSwift.ExportScript.TransferImageData | glance/common/scripts/image_export/export_swift_to_swift.py:119-130 | a missing image or missing data is NotFound with nothing written; otherwise the store ends as `add` leaves it and the outcome is its result |
| ExportSwift.ExportScript.Execute | glance/common/scripts/image_export/export_swift_to_swift.py:51-81 | a missing task ends the run with no `save_task`; otherwise one `save_task` with success and the export location iff validation and transfer both passed, else failure and "Foo Bar"; the location is `str(container) + "/" + image_uuid`, so a list or dictionary container exports too (ValidateAcceptsEmptyList, ValidateAcceptsDictionary) |
| SwiftChunks.ParseLeadingZero | glance/common/scripts/utils.py:363 | a leading zero does not change the number a chunk name carries |
| SwiftChunks.ParsePadLeft | glance/common/scripts/utils.py:363 | zero padding does not change the number |
| SwiftChunks.ParseChunkNumber | glance/common/scripts/utils.py:363 | the chunk number is read back from the name's suffix |
| SwiftChunks.ChunkName | glance/common/scripts/utils.py:363 | `"%s-%05d" % (image_id, chunk_id)`; ParseChunkNumber, ChunkNamesDiffer and ChunkNameIsNotTheId state its properties |
| SwiftChunks.ChunkNamesDiffer | glance/common/scripts/utils.py:363 | different chunk numbers give different names |
| SwiftChunks.ChunkNameIsNotTheId | glance/common/scripts/utils.py:363 | no chunk name is the image id, so the manifest never overwrites a chunk |
| SwiftChunks.ChunkNames | glance/common/scripts/utils.py:363 | the list of consecutive chunk names has the requested length |
| SwiftChunks.ChunkNamesAt | glance/common/scripts/utils.py:363 | name `i` of the list is the name of chunk `n + i` |
| SwiftChunks.LaterChunksDiffer | glance/common/scripts/utils.py:363 | a chunk name differs from every later one |
| SwiftChunks.SlicesCount | glance/common/scripts/utils.py:352-361 | the pieces cover the data with the least number of chunk-sized pieces; none iff the data is empty |
| SwiftChunks.SliceAt | glance/common/scripts/utils.py:352-361 | piece `i` is bytes `i*c` up to `(i+1)*c`, or to the end for the last |
| SwiftChunks.DeleteAll | glance/common/scripts/utils.py:239-246 | `_delete_stale_chunks`, one delete per name with failures passed over; DeleteAllRemoves states what it removes |
| SwiftChunks.DeleteAllRemoves | glance/common/scripts/utils.py:239-246 | `_delete_stale_chunks` removes exactly the listed chunks whose delete is not refused and nothing else |
| SwiftChunks.RemoveNothing | glance/common/scripts/utils.py:239-246 | removing no names leaves the store unchanged |
| SwiftChunks.DeleteOneRemoves | glance/common/scripts/utils.py:242-246 | one delete of the clean-up removes its chunk, or leaves the store when refused |
| SwiftChunks.Turn | glance/common/scripts/utils.py:351-401 | one pass of the chunk loop keeps a known size unexceeded and, going on, consumes input |
| SwiftChunks.TurnNames | glance/common/scripts/utils.py:363-370 | each pass writes chunk `n`, and going on moves to chunk `n + 1` |
| SwiftChunks.TurnUnrefused | glance/common/scripts/utils.py:351-401 | with nothing refused, a pass writes the next piece under the next chunk name, or ends at the size or at an empty chunk |
| SwiftChunks.ChunkLoop | glance/common/scripts/utils.py:351-401 | the chunk loop of `add`, turn after turn from a cursor to its end; the ChunkLoop lemmas state its properties |
| SwiftChunks.ChunkLoopNames | glance/common/scripts/utils.py:363-370 | `written_chunks` grows by consecutively numbered chunk names on every path |
| SwiftChunks.NumberedStep | glance/common/scripts/utils.py:400 | numbering from `n + 1` after chunk `n` is numbering from `n` |
| SwiftChunks.NumberedEnd | glance/common/scripts/utils.py:370 | no names, or one chunk's name, are correctly numbered |
| SwiftChunks.ChunkLoopReads | glance/common/scripts/utils.py:351-401 | with nothing refused the loop raises nothing and reads all the data for an unknown size, the first `size` bytes for a known one |
| SwiftChunks.TurnReads | glance/common/scripts/utils.py:351-401 | each pass keeps bytes read plus bytes left constant |
| SwiftChunks.ChunkLoopKeepsOthers | glance/common/scripts/utils.py:351-401 | the loop touches only the container's chunk objects of this upload |
| SwiftChunks.HoldsPieceAt | glance/common/scripts/utils.py:363-370 | chunk `n + i` holds piece `i` |
| SwiftChunks.HoldsPiecesBesideId | glance/common/scripts/utils.py:419-421 | writing the manifest under the image id keeps the chunks |
| SwiftChunks.PiecesStep | glance/common/scripts/utils.py:352-361 | after one chunk's piece, the rest of what is read is cut into the remaining pieces |
| SwiftChunks.ChunkLoopStores | glance/common/scripts/utils.py:351-401 | with nothing refused, chunk `n + i` holds piece `i` of the bytes read |
| SwiftChunks.ChunkLoopDropsEmptyChunk | glance/common/scripts/utils.py:392-398 | the final zero-length chunk is deleted again |
| SwiftChunks.TurnDropsEmptyChunk | glance/common/scripts/utils.py:392-398 | one pass of that argument: one piece fewer, one chunk further |
| SwiftChunks.ChunkLoopCleansUp | glance/common/scripts/utils.py:366-378 | when a chunk PUT is refused and no delete, the store is as before the loop, minus every chunk written |
| SwiftChunks.Wrap | glance/common/scripts/utils.py:433-440 | a 409 becomes Duplicate, anything else BackendException |
| SwiftChunks.SingleAdd | glance/common/scripts/utils.py:326-332 | the single PUT of `add`; AddSmallImage and FetchAfterSmallAdd state its result |
| SwiftChunks.ChunkedAdd | glance/common/scripts/utils.py:335-422 | the chunk loop from chunk 1 and the manifest under the id; ChunkedAddUnrefused and AddCleansUpAfterFailedChunk state its result |
| SwiftChunks.AddSpec | glance/common/scripts/utils.py:285-440 | `add`: the container and object checks, then the single PUT, the ZeroDivisionError of counting chunks of size 0, or the chunked branch; the Add lemmas below state its promises |
| SwiftChunks.AddRefusesMissingContainer | glance/common/scripts/utils.py:291-298 | a missing container is NotFound with nothing written |
| SwiftChunks.AddRefusesExistingObject | glance/common/scripts/utils.py:305-312 | an existing object under the image id is Duplicate with nothing written |
| SwiftChunks.AddRefusesZeroChunkSize | glance/common/scripts/utils.py:333-339 | a known size at least the large-object size with chunk size 0 raises ZeroDivisionError "float division by zero", nothing written; only `ClientException` is caught at :433 |
| SwiftChunks.AddSmallImage | glance/common/scripts/utils.py:326-332 | a known size below the large-object size is one PUT of those bytes under the image id, and no chunk exists |
| SwiftChunks.AddLargeImage | glance/common/scripts/utils.py:333-422 | chunked with nothing refused: the digest covers every byte read, chunk `i` holds piece `i`, and the id holds the manifest |
| SwiftChunks.ChunkedAddUnrefused | glance/common/scripts/utils.py:335-422 | the chunked branch: digest, manifest and chunks as above |
| SwiftChunks.AddCleansUpAfterFailedChunk | glance/common/scripts/utils.py:366-378 | a refused chunk PUT makes `add` raise, with every chunk written deleted and nothing else changed |
| SwiftUtils.Stream.Read | glance/common/scripts/utils.py:454 | `read(n)` returns up to `n` bytes from the position, fewer only at the end |
| SwiftUtils.Checksum.Update | glance/common/scripts/utils.py:456 | the checksum takes in the bytes, in order |
| SwiftUtils.ChunkReader.constructor | glance/common/scripts/utils.py:444-448 | the reader starts with nothing read |
| SwiftUtils.ChunkReader.Read | glance/common/scripts/utils.py:450-457 | the request is clamped to what is left of `total`; `bytes_read` grows by the bytes returned and never exceeds `total`; the checksum takes them in |
| SwiftUtils.SendBody | glance/common/scripts/utils.py:367-369 | sending a reader as a body reads the rest of its `total`, or of the stream if shorter |
| SwiftUtils.HttpConnection.Exchange | glance/common/scripts/utils.py:114-116 | one attempt fails with the next failure or gets the response |
| SwiftUtils.Pow2 | glance/common/scripts/utils.py:124 | `2 ** n`, from which the back-off is computed |
| SwiftUtils.Backoff | glance/common/scripts/utils.py:124 | the sleep before retry `n + 1`: `2.0 ** n / 2` seconds |
| SwiftUtils.BackoffDoubles | glance/common/scripts/utils.py:124 | the back-off starts at half a second and doubles before each further retry |
| SwiftUtils.ScanEndpoints | glance/common/scripts/utils.py:212-222 | the `for endpoint in ...` scan over a list; ScanStopsAtFirst, ScanFindsNothing and ScanFindsWanted state its meaning |
| SwiftUtils.AuthUrl | glance/common/scripts/utils.py:212-222 | the URL `get_connection` finds: the scan over a list, the iteration of a dictionary or string, TypeError for a value that cannot be iterated |
| SwiftUtils.ScanStopsAtFirst | glance/common/scripts/utils.py:212-222 | the first endpoint not passed over decides the URL: its `publicURL`, or AttributeError for a non-dictionary |
| SwiftUtils.ScanFindsNothing | glance/common/scripts/utils.py:212-222 | when every endpoint is passed over the URL is None |
| SwiftUtils.ScanFindsWanted | glance/common/scripts/utils.py:212-222 | a URL that is found is the `publicURL` of an object-store cloudFiles endpoint of the configured region |
| SwiftUtils.Fetch | glance/common/scripts/utils.py:257-283 | `get` returns the object's bytes exactly when not refused and present; None for an empty object; NotFound exactly for a 404 |
| SwiftUtils.FetchAfterSmallAdd | glance/common/scripts/utils.py:326-332 | what a single-PUT `add` writes, `get` reads back |
| SwiftUtils.SwiftStore.constructor | glance/common/scripts/utils.py:62-74 | the large-object sizes are the options times `ONE_MB` |
| SwiftUtils.SwiftStore.HttpRequest | glance/common/scripts/utils.py:97-129 | at most 6 attempts, each closed; the response once an attempt succeeds, else the sixth error; back-off `2.0**i/2` before retry `i + 1`, starting at half a second and doubling |
| SwiftUtils.SwiftStore.FindAuthUrl | glance/common/scripts/utils.py:212-222 | the loop finds the URL the endpoint scan specifies |
| SwiftUtils.SwiftStore.DeleteStaleChunks | glance/common/scripts/utils.py:239-246 | the store ends as the clean-up function says |
| SwiftUtils.SwiftStore.Get | glance/common/scripts/utils.py:248-283 | returns what `Fetch` specifies |
| SwiftUtils.SwiftStore.Add | glance/common/scripts/utils.py:285-440 | the result and final store are those of the `add` specification on the stream's remaining bytes, the ZeroDivisionError for chunk size 0 included |
| SwiftUtils.SwiftStore.AddChunked | glance/common/scripts/utils.py:335-422 | the result and store are those of the chunked-branch specification |
| SwiftUtils.SwiftStore.WriteChunks | glance/common/scripts/utils.py:348-401 | the loop ends where the chunk-loop specification ends |
| SwiftUtils.SwiftStore.WriteChunk | glance/common/scripts/utils.py:352-401 | one pass does what one turn specifies |
| Schema.PythonInt | glance/schema.py:65-66 | `int()` keeps an integer, reads a string iff it is all digits, raises TypeError for None, a list or a dictionary |
| Schema.NewPropertyString | glance/schema.py:60-69 | no `max_length` stays unset; a given one goes through `int()` and its error propagates |
| Schema.AddIf | glance/schema.py:71-79 | a key is set only when it is to be present |
| Schema.PropertySchema | glance/schema.py:71-119 | type and description; enum options; `maxLength` iff given; `optional: True` iff not required; `default` iff not None; no other keys |
| Schema.AdditionalProperties | glance/schema.py:129-132 | `{'type': 'string'}` exactly for `image` with the option on, else False |
| Schema.Conflicts | glance/schema.py:144-148 | exactly the keys both define with different definitions |
| Schema.CustomTable | glance/schema.py:139-156 | KeyError for an unknown name, AttributeError for a non-dictionary, SchemaLoadError iff conflicts, else the merge |
| Schema.CustomTableMerges | glance/schema.py:155 | the merge has exactly the keys of both and agrees with each wherever it defines a key |
| Schema.IdenticalRedefinitionAllowed | glance/schema.py:143-153 | identical redefinitions are accepted |
| Schema.NoCustomProperties | glance/schema.py:141-156 | no custom properties gives the base table |
| Schema.API.constructor | glance/schema.py:123-126 | the current tables start as the base tables |
| Schema.API.GetSchema | glance/schema.py:128-137 | the name, the current properties and the additional-properties rule; KeyError for an unknown name |
| Schema.API.SetCustomSchemaProperties | glance/schema.py:139-156 | on success only that schema's table becomes base merged with custom, replacing earlier custom properties; base and other schemas stay; on error nothing changes |

## Left out

- Keystone access is not modelled: `_request_admin_token`, `_json_request`, `_get_http_connection`, and the `swiftclient.Connection` that `get_connection` builds. The connection is a parameter, and only the endpoint scan and the retry loop are modelled.
- The swiftclient and keystone wire protocols are not modelled; the object store is a map of containers.
- `CooperativeReader` and eventlet scheduling: the data is read as one stream.
- MD5 itself, because hashing is not the subject; a digest is the bytes digested.
- Logging and `time.sleep`: the sleeps are recorded as their durations, and real numbers stand for Python floats.
- `eventlet.spawn_n` runs nothing; a submitted job is recorded in a list.
- The `ObjectStore` and `Repos` modules stand in for swiftclient and the gateway repositories, which are not part of this model.
- SwiftChunks.ChunkLoopReads: the lemmas about the chunk loop assume a positive chunk size. A chunk size of 0 with a known size raises ZeroDivisionError before the loop, which AddRefusesZeroChunkSize states; with an unknown size (0) the loop runs, its first chunk reads nothing and the loop ends. The function models that case, but the lemmas do not cover it.
- Values.ErrorText: only the texts Python 2 itself fixes are exact: KeyError, AttributeError, IOError, the TypeErrors of indexing, iterating, slicing and `int()`, and ZeroDivisionError. The message templates of glance/common/exception.py are not part of this model, so a glance exception's text is the detail it carries (the property, the task type, the message), and swiftclient's `ClientException` text is reduced to its HTTP status. The keyword list of Domain.CheckUnexpected is written in key order, while Python 2 uses the dictionary's hash order.
- ExportSwift.ImageSize: a negative or non-integer image size is handed to `add` as None, which only matters where Python would compare or subtract it.
- SwiftUtils.SwiftStore.Add: an unknown image size is the size 0, as in the source; the size `add` fills in is not returned because `add` returns only the digest.
- SwiftUtils.SendBody: the body is assumed to be read in blocks of 65536 bytes until a read yields nothing; swiftclient's own chunking is not part of this model.
- SwiftUtils.Fetch: the returned length is the object's byte count; Swift's assembly of a large object from its manifest on download is not modelled.
- Python's equality between `1` and `True` is not modelled: values are compared structurally.
- Floats are not modelled: `Value` has no float, so JSON task input such as `1.5` is outside the model. Only the back-off durations and the chunk count's division use floats, and those are written out where they matter.
- Strings are Python 2 byte strings throughout. In Python 2 the JSON-decoded task input is `unicode`, which the model does not distinguish. The consequences are below.
- ImportSwift.FormatLocationUriAsWritten: `location[36] is not '/'` is read as `!=`. On a `unicode` location the identity test is always true, so the parser as written would refuse every location, not only a bare uuid. FormatLocationUriDiffersOnlyOnBareUuid holds for byte strings only.
- ExportSwift.ValidateTaskInput: `str()` of a `unicode` value or container is taken to succeed. Python 2 raises UnicodeEncodeError for one holding non-ASCII characters, and `repr` would write `u'...'` inside a list or dictionary.
- ExportSwift.ExportLocation: a dictionary container's items are written in key order. Python 2 writes them in the order of their hashes, which the model does not fix. The same characters appear in any order, so whether a dictionary passes validation does not depend on it, but the exact export location text does.
- ImportSwift.SwiftImportScript: the class runs the corrected script of Findings rows 2 and 3. It parses with `FormatLocationUri` and downloads with `GetImageData`. The script as written fails every run, which RunAsWrittenNeverSucceeds states; its `Execute` therefore never reaches the success branch.
- AsyncExecutor.TaskExecutor.constructor: the `image_factory` argument is not kept. No method of the executor uses it, and the factory, which has no state, is the functions of `Domain`.
- Schema.PythonInt: `int()` of a string with a sign or surrounding whitespace is treated as a ValueError.
- `jsonschema.validate`, `API.validate`, `read_schema_properties_file` and `load_custom_schema_properties`, because they are file I/O and a third-party validator.
- ExportSwift.ExportScript.Execute: the UnboundLocalError the source would raise at `save_task` when `get_task_repo` itself raises is not modelled; gateway calls never fail.
- The `SwiftStore` class of the swift import script (glance/common/scripts/image_import/import_swift_to_swift.py:153-223) duplicates the utilities' store. Only its `get` mapping of 404 to NotFound is modelled, in `ImportSwift.GetImageData`.
- glance/domain/async.py `TaskRunnerInterface`, because it refers to names the module does not define.
- glance/domain/async/eventlet_executor.py and glance/domain/async/import_executor.py, because neither is valid or complete Python.
- The `main.py` modules of the scripts, the v2 tasks API and the database models: wiring, HTTP and persistence.
- EventletExecutor.TaskEventletExecutor: glance/async/eventlet_executor.py:41 subclasses `glance.async.TaskExecutorInterface`, but glance/async/__init__.py defines only `TaskExecutor` (:23). Importing the module as written therefore raises AttributeError, the executor can never be constructed, and the `self.context` that `run` passes at :60 is never set. The class models the evident intent instead: its constructor takes the context and the `valid_tasks_type` list, and `Run` is `run` at :51-65.

## Findings

| source | as written | input that shows it | evidently intended | confidence | as-written member | corrected member |
|---|---|---|---|---|---|---|
| glance/domain/async.py:77-78 | `new_task` calls the eleven-parameter `Task` constructor with ten arguments | any request, e.g. a request with any context | the task is built with a runner | not executed | DomainAsync.NewTaskAsWrittenAlwaysFails | DomainAsync.NewTask |
| glance/common/scripts/image_import/import_swift_to_swift.py:98-110 | `location[36]` is outside the `try`, and slicing never raises IndexError | the location `"0123abcd-0123-abcd-0123-0123456789ab"`, a bare uuid | BadStoreUri for every malformed location | not executed | ImportSwift.FormatLocationUriAsWrittenBareUuid | ImportSwift.FormatLocationUri |
| glance/common/scripts/image_import/import_swift_to_swift.py:134-136 | `_get_image_data` calls `SwiftStore.get` on the class, unbound, which raises TypeError | any task input with a valid location | the object is downloaded through a store instance | not executed | ImportSwift.RunAsWrittenNeverSucceeds | ImportSwift.RunImportsTheObject |
