/**
 * The image domain: the image factory's keyword checks, the `Image` and
 * `ImageMembership` records with their validating setters, and the current
 * revision of `Task` with its factory.
 *
 * Timestamps and generated uuids are parameters (`now`, `freshId`): the
 * model does not read a clock or a random source.
 */
module Domain {
  import opened Values

  // ----- the image factory's keyword checks --------------------------------

  /** Keywords `new_image` refuses because the store fills them in. */
  const ReadonlyProperties: seq<string> := ["created_at", "updated_at", "status", "checksum", "size"]

  /** Keywords `new_image` refuses inside `extra_properties`. */
  const ReservedProperties: seq<string> :=
    ["owner", "is_public", "locations", "deleted", "deleted_at", "direct_url", "self", "file", "schema"]

  /**
   * Index of the first of `keys` for which `key in container` holds, as a
   * `for` loop over `keys` that stops at the first hit finds it; an error of
   * the `in` operator propagates.
   */
  function FirstContained(keys: seq<string>, container: Value): (r: Result<Option<nat>, Error>)
    ensures r.Ok? && r.value.Some? ==>
      && r.value.value < |keys|
      && Contains(container, keys[r.value.value]) == Ok(true)
      && forall j :: 0 <= j < r.value.value ==> Contains(container, keys[j]) == Ok(false)
    ensures r == Ok(None) <==> forall j :: 0 <= j < |keys| ==> Contains(container, keys[j]) == Ok(false)
    ensures r.Err? <==> keys != [] && Contains(container, keys[0]).Err?
    decreases |keys|
  {
    if keys == [] then Ok(None)
    else
      match Contains(container, keys[0])
      case Err(e) => Err(e)
      case Ok(found) =>
        if found then Ok(Some(0))
        else
          match FirstContained(keys[1..], container)
          case Err(e) => Err(e)
          case Ok(None) => Ok(None)
          case Ok(Some(i)) => Ok(Some(i + 1))
  }
  /** When `in` itself fails on the container, the key loop raises that error at its first key. */
  lemma FirstContainedError(keys: seq<string>, container: Value)
    requires keys != [] && Contains(container, keys[0]).Err?
    ensures FirstContained(keys, container) == Err(Contains(container, keys[0]).error)
  {
  }


  /** What `_check_readonly(kwargs)` raises, if anything. */
  function ReadonlyViolation(kwargs: map<string, Value>): Outcome<Error>
  {
    match FirstContained(ReadonlyProperties, JObj(kwargs))
    case Ok(Some(i)) => Fail(ReadonlyProperty(ReadonlyProperties[i]))
    case _ => Pass
  }

  /** What `_check_reserved(properties)` raises, if anything. */
  function ReservedViolation(properties: Value): Outcome<Error>
  {
    if properties == JNull then Pass
    else
      match FirstContained(ReservedProperties, properties)
      case Err(e) => Fail(e)
      case Ok(Some(i)) => Fail(ReservedProperty(ReservedProperties[i]))
      case Ok(None) => Pass
  }

  /** `_check_readonly`: the first read-only key present among the extra keywords is refused. */
  method CheckReadonly(kwargs: map<string, Value>) returns (o: Outcome<Error>)
    ensures o == ReadonlyViolation(kwargs)
    ensures o == Pass <==> forall k :: k in ReadonlyProperties ==> k !in kwargs
  {
    for i := 0 to |ReadonlyProperties|
      invariant forall j :: 0 <= j < i ==> ReadonlyProperties[j] !in kwargs
    {
      var key := ReadonlyProperties[i];
      if key in kwargs {
        FirstContainedIsFirst(ReadonlyProperties, JObj(kwargs), i);
        return Fail(ReadonlyProperty(key));
      }
    }
    assert forall j :: 0 <= j < |ReadonlyProperties| ==> Contains(JObj(kwargs), ReadonlyProperties[j]) == Ok(false);
    return Pass;
  }

  /**
   * `_check_reserved`: nothing is checked for `None`; otherwise the first
   * reserved key that `in` finds in `properties` is refused.
   */
  method CheckReserved(properties: Value) returns (o: Outcome<Error>)
    ensures o == ReservedViolation(properties)
  {
    if properties != JNull {
      for i := 0 to |ReservedProperties|
        invariant forall j :: 0 <= j < i ==> Contains(properties, ReservedProperties[j]) == Ok(false)
      {
        var key := ReservedProperties[i];
        var found := Contains(properties, key);
        if found.Err? {
          assert Contains(properties, ReservedProperties[0]) == found;
          FirstContainedError(ReservedProperties, properties);
          return Fail(found.error);
        }
        if found.value {
          FirstContainedIsFirst(ReservedProperties, properties, i);
          return Fail(ReservedProperty(key));
        }
      }
    }
    return Pass;
  }

  /** A hit at `i` preceded only by misses is the index FirstContained reports. */
  lemma FirstContainedIsFirst(keys: seq<string>, container: Value, i: nat)
    requires i < |keys|
    requires Contains(container, keys[i]) == Ok(true)
    requires forall j :: 0 <= j < i ==> Contains(container, keys[j]) == Ok(false)
    ensures FirstContained(keys, container) == Ok(Some(i))
  {
  }

  /**
   * `_check_readonly` passes exactly when no read-only key is among the
   * keywords, and otherwise names one of them that is present.
   */
  lemma ReadonlyViolationNamesAKey(kwargs: map<string, Value>)
    ensures ReadonlyViolation(kwargs) == Pass <==> forall k :: k in ReadonlyProperties ==> k !in kwargs
    ensures ReadonlyViolation(kwargs).Fail? ==>
      && ReadonlyViolation(kwargs).error.ReadonlyProperty?
      && ReadonlyViolation(kwargs).error.property in ReadonlyProperties
      && ReadonlyViolation(kwargs).error.property in kwargs
  {
  }

  /** A reserved key in a dictionary of extra properties is refused, and the one named is in the dictionary. */
  lemma ReservedViolationNamesAKey(props: map<string, Value>, key: string)
    requires key in ReservedProperties && key in props
    ensures ReservedViolation(JObj(props)).Fail?
    ensures ReservedViolation(JObj(props)).error.ReservedProperty?
    ensures ReservedViolation(JObj(props)).error.property in ReservedProperties
    ensures ReservedViolation(JObj(props)).error.property in props
  {
  }

  /** `str(kwargs.keys())`: the keyword names as a Python list display of strings. */
  function KeysText(kwargs: map<string, Value>): string
  {
    var ks := SortedKeys(kwargs.Keys);
    Repr(JList(seq(|ks|, i requires 0 <= i < |ks| => JStr(ks[i]))))
  }

  /** `_check_unexpected`: any keyword left after binding raises TypeError. */
  function CheckUnexpected(kwargs: map<string, Value>): (o: Outcome<Error>)
    ensures o.Fail? <==> kwargs != map[]
    ensures o.Fail? ==> o.error.TypeError?
  {
    if kwargs != map[] then Fail(TypeError("new_image() got unexpected keywords " + KeysText(kwargs))) else Pass
  }

  /** One unexpected keyword `k` gives "new_image() got unexpected keywords ['k']". */
  lemma UnexpectedKeywordText(k: string, v: Value)
    requires forall i :: 0 <= i < |k| ==> ' ' <= k[i] <= '~' && k[i] != '\\' && k[i] != '\''
    ensures CheckUnexpected(map[k := v]) == Fail(TypeError("new_image() got unexpected keywords " + ("['" + k + "']")))
  {
    var kwargs := map[k := v];
    assert k in kwargs;
    SingleKeyText(k, v);
    assert CheckUnexpected(kwargs) == Fail(TypeError("new_image() got unexpected keywords " + KeysText(kwargs)));
  }

  /** The keyword list of one plain keyword is `['k']`. */
  lemma SingleKeyText(k: string, v: Value)
    requires forall i :: 0 <= i < |k| ==> ' ' <= k[i] <= '~' && k[i] != '\\' && k[i] != '\''
    ensures KeysText(map[k := v]) == "['" + k + "']"
  {
    var kwargs := map[k := v];
    assert kwargs.Keys == {k};
    SortedSingleton(k);
    var ks := SortedKeys(kwargs.Keys);
    var names := seq(|ks|, i requires 0 <= i < |ks| => JStr(ks[i]));
    assert names == [JStr(k)];
    var items := seq(|names|, i requires 0 <= i < |names| => Repr(names[i]));
    assert items == [StrRepr(k)];
    assert Join(", ", items) == StrRepr(k);
    PlainEscape(k);
    assert KeysText(kwargs) == "[" + ("'" + k + "'") + "]";
    assert "['" == "[" + "'" && "']" == "'" + "]";
  }

  // ----- images ---------------------------------------------------------------

  /** The attributes of an `Image`, as a value. */
  datatype ImageState = ImageState(
    imageId: Value,
    name: Value,
    status: Value,
    createdAt: Value,
    updatedAt: Value,
    visibility: Value,
    minDisk: Value,
    minRam: Value,
    protected: Value,
    locations: Value,
    checksum: Value,
    owner: Value,
    diskFormat: Value,
    containerFormat: Value,
    size: Value,
    extraProperties: Value,
    tags: set<Value>)

  predicate ValidVisibility(v: Value)
  {
    v == JStr("public") || v == JStr("private")
  }

  /** `kwargs.pop(name, default)`, looked up without the pop. */
  function Arg(kwargs: map<string, Value>, name: string, default: Value): (r: Value)
    ensures name in kwargs ==> r == kwargs[name]
    ensures name !in kwargs ==> r == default
  {
    if name in kwargs then kwargs[name] else default
  }

  /** The keyword arguments of `Image.__init__` besides its four positional ones. */
  datatype ImageArgs = ImageArgs(
    name: Value,
    visibility: Value,
    minDisk: Value,
    minRam: Value,
    protected: Value,
    locations: Value,
    checksum: Value,
    owner: Value,
    diskFormat: Value,
    containerFormat: Value,
    size: Value,
    extraProperties: Value,
    tags: Value)

  /**
   * `Image.__init__`: the attributes are assigned in order; the visibility
   * setter refuses anything but public or private, and the tags setter stores
   * `set(tags or [])`, which refuses a value that is not iterable.  The status
   * setter has nothing to compare with yet, so no status is refused.
   */
  function ImageInit(imageId: Value, status: Value, createdAt: Value, updatedAt: Value, args: ImageArgs)
    : (r: Result<ImageState, Error>)
    ensures r.Ok? ==> ValidVisibility(r.value.visibility) && r.value.status == status
    ensures r.Ok? ==> r.value.imageId == imageId && r.value.createdAt == createdAt && r.value.updatedAt == updatedAt
    ensures !ValidVisibility(args.visibility) ==> r.Err? && r.error.ValueError?
    ensures ValidVisibility(args.visibility) && !Truthy(args.tags) ==> r.Ok? && r.value.tags == {}
    ensures r.Ok? ==> Truthy(r.value.extraProperties) || r.value.extraProperties == JObj(map[])
  {
    if !ValidVisibility(args.visibility) then
      Err(ValueError("Visibility must be either \"public\" or \"private\""))
    else
      match PySet(Or(args.tags, JList([])))
      case Err(e) => Err(e)
      case Ok(tags) =>
        Ok(ImageState(
          imageId := imageId,
          name := args.name,
          status := status,
          createdAt := createdAt,
          updatedAt := updatedAt,
          visibility := args.visibility,
          minDisk := args.minDisk,
          minRam := args.minRam,
          protected := args.protected,
          locations := args.locations,
          checksum := args.checksum,
          owner := args.owner,
          diskFormat := args.diskFormat,
          containerFormat := args.containerFormat,
          size := args.size,
          extraProperties := Or(args.extraProperties, JObj(map[])),
          tags := tags))
  }

  /** The named parameters of `new_image`; any other keyword lands in `other_args`. */
  const NewImageParameters: set<string> :=
    {"image_id", "name", "visibility", "min_disk", "min_ram", "protected", "owner",
     "disk_format", "container_format", "extra_properties", "tags"}

  function OtherArgs(kwargs: map<string, Value>): (r: map<string, Value>)
    ensures forall k :: k in r <==> k in kwargs && k !in NewImageParameters
  {
    map k | k in kwargs && k !in NewImageParameters :: kwargs[k]
  }

  /**
   * The keywords `new_image` hands to `Image`, each with `new_image`'s
   * default; locations, checksum and size are never passed.
   */
  function ImageArgsOf(kwargs: map<string, Value>): ImageArgs
  {
    ImageArgs(
      name := Arg(kwargs, "name", JNull),
      visibility := Arg(kwargs, "visibility", JStr("private")),
      minDisk := Arg(kwargs, "min_disk", JInt(0)),
      minRam := Arg(kwargs, "min_ram", JInt(0)),
      protected := Arg(kwargs, "protected", JBool(false)),
      locations := JList([]),
      checksum := JNull,
      owner := Arg(kwargs, "owner", JNull),
      diskFormat := Arg(kwargs, "disk_format", JNull),
      containerFormat := Arg(kwargs, "container_format", JNull),
      size := JNull,
      extraProperties := Arg(kwargs, "extra_properties", JNull),
      tags := Arg(kwargs, "tags", JNull))
  }

  /**
   * `ImageFactory.new_image(**kwargs)`: read-only keywords, then unexpected
   * ones, then reserved extra properties are refused; the image is queued,
   * created and updated at `now`, and gets `freshId` unless an id is given.
   */
  function NewImageResult(kwargs: map<string, Value>, freshId: Value, now: Value): Result<ImageState, Error>
  {
    match ReadonlyViolation(OtherArgs(kwargs))
    case Fail(e) => Err(e)
    case Pass =>
      match CheckUnexpected(OtherArgs(kwargs))
      case Fail(e) => Err(e)
      case Pass =>
        match ReservedViolation(Arg(kwargs, "extra_properties", JNull))
        case Fail(e) => Err(e)
        case Pass =>
          var id := Arg(kwargs, "image_id", JNull);
          ImageInit(if id == JNull then freshId else id, JStr("queued"), now, now, ImageArgsOf(kwargs))
  }

  /** A read-only keyword is refused, whatever unexpected keywords accompany it. */
  lemma NewImageReadonlyFirst(kwargs: map<string, Value>, freshId: Value, now: Value, key: string)
    requires key in ReadonlyProperties && key in kwargs
    ensures NewImageResult(kwargs, freshId, now).Err?
    ensures NewImageResult(kwargs, freshId, now).error.ReadonlyProperty?
    ensures NewImageResult(kwargs, freshId, now).error.property in ReadonlyProperties
    ensures NewImageResult(kwargs, freshId, now).error.property in kwargs
  {
    assert key in OtherArgs(kwargs);
    ReadonlyViolationNamesAKey(OtherArgs(kwargs));
  }

  /** With no read-only keyword, a keyword `new_image` does not name raises TypeError. */
  lemma NewImageUnexpectedKeyword(kwargs: map<string, Value>, freshId: Value, now: Value, key: string)
    requires forall k :: k in ReadonlyProperties ==> k !in kwargs
    requires key in kwargs && key !in NewImageParameters
    ensures NewImageResult(kwargs, freshId, now).Err?
    ensures NewImageResult(kwargs, freshId, now).error.TypeError?
  {
  }

  /** With only known keywords, a reserved key in `extra_properties` raises ReservedProperty. */
  lemma NewImageReservedExtra(kwargs: map<string, Value>, freshId: Value, now: Value, props: map<string, Value>, key: string)
    requires kwargs.Keys <= NewImageParameters
    requires "extra_properties" in kwargs && kwargs["extra_properties"] == JObj(props)
    requires key in ReservedProperties && key in props
    ensures NewImageResult(kwargs, freshId, now).Err?
    ensures NewImageResult(kwargs, freshId, now).error.ReservedProperty?
    ensures NewImageResult(kwargs, freshId, now).error.property in props
  {
    assert OtherArgs(kwargs) == map[];
    NoViolationWithoutKeywords();
    assert Arg(kwargs, "extra_properties", JNull) == JObj(props);
    ReservedViolationNamesAKey(props, key);
  }

  /** With no keywords left over, neither the read-only nor the unexpected-keyword check refuses. */
  lemma NoViolationWithoutKeywords()
    ensures ReadonlyViolation(map[]) == Pass
    ensures CheckUnexpected(map[]) == Pass
  {
  }

  /**
   * `new_image()` with no arguments: a queued private image with the
   * generated id, equal creation and update times, zero minimums, no tags and
   * no extra properties.
   */
  lemma NewImageDefaults(freshId: Value, now: Value)
    ensures NewImageResult(map[], freshId, now).Ok?
    ensures var s := NewImageResult(map[], freshId, now).value;
      && s.imageId == freshId && s.status == JStr("queued")
      && s.createdAt == now && s.updatedAt == now
      && s.visibility == JStr("private") && s.minDisk == JInt(0) && s.minRam == JInt(0)
      && s.protected == JBool(false) && s.tags == {} && s.extraProperties == JObj(map[])
      && s.locations == JList([]) && s.checksum == JNull && s.size == JNull
  {
  }

  /** A new image is queued, created and updated at `now`, with the supplied id or, if none, the fresh one. */
  lemma NewImageIdentity(kwargs: map<string, Value>, freshId: Value, now: Value)
    requires NewImageResult(kwargs, freshId, now).Ok?
    ensures var s := NewImageResult(kwargs, freshId, now).value;
      && s.status == JStr("queued") && s.createdAt == now && s.updatedAt == now
      && s.imageId == (if "image_id" in kwargs && kwargs["image_id"] != JNull then kwargs["image_id"] else freshId)
  {
  }

  /** A supplied id survives `new_image`, and the tags become the set of the given list. */
  lemma NewImageKeepsIdAndTags(kwargs: map<string, Value>, freshId: Value, now: Value)
    requires NewImageResult(kwargs, freshId, now).Ok?
    requires "image_id" in kwargs && kwargs["image_id"] != JNull
    requires "tags" in kwargs && kwargs["tags"].JList?
    ensures NewImageResult(kwargs, freshId, now).value.imageId == kwargs["image_id"]
    ensures NewImageResult(kwargs, freshId, now).value.tags == set x | x in kwargs["tags"].items
  {
    var tags := kwargs["tags"];
    if tags.items == [] {
      assert PySet(Or(tags, JList([]))) == PySet(JList([]));
    } else {
      assert Truthy(tags);
      assert PySet(Or(tags, JList([]))) == PySet(tags);
    }
  }

  /** The formats the status setter finds unset, in the order it lists them. */
  function MissingFormats(diskFormat: Value, containerFormat: Value): (r: seq<string>)
    ensures (r == []) <==> Truthy(diskFormat) && Truthy(containerFormat)
    ensures |r| <= 2
    ensures "disk_format" in r <==> !Truthy(diskFormat)
    ensures "container_format" in r <==> !Truthy(containerFormat)
  {
    (if Truthy(diskFormat) then [] else ["disk_format"])
      + (if Truthy(containerFormat) then [] else ["container_format"])
  }

  /** `', '.join(names)` */
  function JoinComma(names: seq<string>): string
    decreases |names|
  {
    if names == [] then ""
    else if |names| == 1 then names[0]
    else names[0] + ", " + JoinComma(names[1..])
  }

  /**
   * The status setter's check: leaving `queued` for `saving` or `active`
   * needs both formats set; no other assignment is checked.
   */
  function StatusChangeError(current: Value, next: Value, diskFormat: Value, containerFormat: Value)
    : (r: Option<Error>)
    ensures r.Some? <==>
      current == JStr("queued") && (next == JStr("saving") || next == JStr("active"))
      && !(Truthy(diskFormat) && Truthy(containerFormat))
    ensures r.Some? ==> r.value.ValueError?
  {
    if current == JStr("queued") && (next == JStr("saving") || next == JStr("active")) then
      var missing := MissingFormats(diskFormat, containerFormat);
      if |missing| == 0 then None
      else if |missing| == 1 then
        Some(ValueError("Property " + missing[0] + " must be set prior to saving data."))
      else
        Some(ValueError("Properties " + JoinComma(missing) + " must be set prior to saving data."))
    else None
  }

  /** An image whose attributes the setters validate as they are assigned. */
  class Image {
    var imageId: Value
    var name: Value
    var status: Value
    var createdAt: Value
    var updatedAt: Value
    var visibility: Value
    var minDisk: Value
    var minRam: Value
    var protected: Value
    var locations: Value
    var checksum: Value
    var owner: Value
    var diskFormat: Value
    var containerFormat: Value
    var size: Value
    var extraProperties: Value
    var tags: set<Value>

    predicate Valid()
      reads this
    {
      ValidVisibility(visibility)
    }

    function State(): ImageState
      reads this
    {
      ImageState(imageId, name, status, createdAt, updatedAt, visibility, minDisk, minRam, protected,
                 locations, checksum, owner, diskFormat, containerFormat, size, extraProperties, tags)
    }

    constructor (s: ImageState)
      requires ValidVisibility(s.visibility)
      ensures Valid() && State() == s
    {
      imageId, name, status, createdAt, updatedAt := s.imageId, s.name, s.status, s.createdAt, s.updatedAt;
      visibility, minDisk, minRam, protected, locations := s.visibility, s.minDisk, s.minRam, s.protected, s.locations;
      checksum, owner, diskFormat, containerFormat := s.checksum, s.owner, s.diskFormat, s.containerFormat;
      size, extraProperties, tags := s.size, s.extraProperties, s.tags;
    }

    /** `image.status = next`, refused only by StatusChangeError; the old status is otherwise ignored. */
    method SetStatus(next: Value) returns (o: Outcome<Error>)
      modifies this
      ensures var err := StatusChangeError(old(status), next, old(diskFormat), old(containerFormat));
        if err.Some? then o == Fail(err.value) && State() == old(State())
        else o == Pass && State() == old(State()).(status := next)
    {
      var err := StatusChangeError(status, next, diskFormat, containerFormat);
      if err.Some? {
        return Fail(err.value);
      }
      status := next;
      return Pass;
    }

    /** `image.visibility = v`: only public and private are accepted. */
    method SetVisibility(v: Value) returns (o: Outcome<Error>)
      requires Valid()
      modifies this
      ensures Valid()
      ensures ValidVisibility(v) ==> o == Pass && State() == old(State()).(visibility := v)
      ensures !ValidVisibility(v) ==> o.Fail? && o.error.ValueError? && State() == old(State())
    {
      if !ValidVisibility(v) {
        return Fail(ValueError("Visibility must be either \"public\" or \"private\""));
      }
      visibility := v;
      return Pass;
    }

    /** `image.tags = v` stores `set(v)`, so duplicates collapse and order is lost. */
    method SetTags(v: Value) returns (o: Outcome<Error>)
      modifies this
      ensures PySet(v).Ok? ==> o == Pass && State() == old(State()).(tags := PySet(v).value)
      ensures PySet(v).Err? ==> o == Fail(PySet(v).error) && State() == old(State())
    {
      var s := PySet(v);
      if s.Err? {
        return Fail(s.error);
      }
      tags := s.value;
      return Pass;
    }

    /** `delete`: a protected image raises ProtectedImageDelete, any other becomes `deleted`. */
    method Delete() returns (o: Outcome<Error>)
      modifies this
      ensures Truthy(old(protected)) ==> o == Fail(ProtectedImageDelete(old(imageId))) && State() == old(State())
      ensures !Truthy(old(protected)) ==> o == Pass && State() == old(State()).(status := JStr("deleted"))
    {
      if Truthy(protected) {
        return Fail(ProtectedImageDelete(imageId));
      }
      var r := SetStatus(JStr("deleted"));
      assert r == Pass;
      return Pass;
    }

    /** The domain image holds no data: `get_data` raises NotImplementedError. */
    method GetData() returns (r: Result<seq<bv8>, Error>)
      ensures r == Err(NotImplementedError)
    {
      return Err(NotImplementedError);
    }

    /** The domain image stores no data: `set_data` raises NotImplementedError. */
    method SetData(data: seq<bv8>, size: Value) returns (o: Outcome<Error>)
      ensures o == Fail(NotImplementedError)
    {
      return Fail(NotImplementedError);
    }
  }

  /**
   * `ImageFactory.new_image`: the three checks in their order, then the new
   * image, whose attributes are those NewImageResult describes.
   */
  method NewImage(kwargs: map<string, Value>, freshId: Value, now: Value) returns (r: Result<Image, Error>)
    ensures NewImageResult(kwargs, freshId, now) == if r.Ok? then Ok(r.value.State()) else Err(r.error)
    ensures r.Ok? ==> fresh(r.value) && r.value.Valid()
  {
    var other := OtherArgs(kwargs);
    var o := CheckReadonly(other);
    if o.Fail? {
      return Err(o.error);
    }
    o := CheckUnexpected(other);
    if o.Fail? {
      return Err(o.error);
    }
    o := CheckReserved(Arg(kwargs, "extra_properties", JNull));
    if o.Fail? {
      return Err(o.error);
    }
    var imageId := Arg(kwargs, "image_id", JNull);
    if imageId == JNull {
      imageId := freshId;
    }
    var init := ImageInit(imageId, JStr("queued"), now, now, ImageArgsOf(kwargs));
    assert NewImageResult(kwargs, freshId, now) == init;
    if init.Err? {
      return Err(init.error);
    }
    var image := new Image(init.value);
    return Ok(image);
  }

  // ----- image membership --------------------------------------------------

  predicate ValidMemberStatus(status: Value)
  {
    status == JStr("pending") || status == JStr("accepted") || status == JStr("rejected")
  }

  /** A tenant's membership of an image; its status setter accepts only three values. */
  class ImageMembership {
    var id: Value
    var imageId: Value
    var memberId: Value
    var createdAt: Value
    var updatedAt: Value
    var status: Value

    predicate Valid()
      reads this
    {
      ValidMemberStatus(status)
    }

    constructor (imageId: Value, memberId: Value, createdAt: Value, updatedAt: Value, id: Value, status: Value)
      requires ValidMemberStatus(status)
      ensures Valid()
      ensures this.id == id && this.imageId == imageId && this.memberId == memberId
      ensures this.createdAt == createdAt && this.updatedAt == updatedAt && this.status == status
    {
      this.id := id;
      this.imageId := imageId;
      this.memberId := memberId;
      this.createdAt := createdAt;
      this.updatedAt := updatedAt;
      this.status := status;
    }

    /** `membership.status = s`: anything but pending, accepted or rejected raises ValueError. */
    method SetStatus(s: Value) returns (o: Outcome<Error>)
      requires Valid()
      modifies this`status
      ensures Valid()
      ensures ValidMemberStatus(s) ==> o == Pass && status == s
      ensures !ValidMemberStatus(s) ==> o.Fail? && o.error.ValueError? && status == old(status)
    {
      if !ValidMemberStatus(s) {
        return Fail(ValueError("Status must be \"pending\", \"accepted\" or \"rejected\"."));
      }
      status := s;
      return Pass;
    }
  }

  /**
   * `ImageMembership(...)`: the constructor runs the status setter, so a
   * status outside the three values (the default None included) raises
   * ValueError and no membership exists.
   */
  method NewMembership(imageId: Value, memberId: Value, createdAt: Value, updatedAt: Value, id: Value, status: Value)
    returns (r: Result<ImageMembership, Error>)
    ensures r.Err? <==> !ValidMemberStatus(status)
    ensures r.Err? ==> r.error.ValueError?
    ensures r.Ok? ==>
      && fresh(r.value) && r.value.Valid() && r.value.status == status
      && r.value.imageId == imageId && r.value.memberId == memberId && r.value.id == id
  {
    if !ValidMemberStatus(status) {
      return Err(ValueError("Status must be \"pending\", \"accepted\" or \"rejected\"."));
    }
    var m := new ImageMembership(imageId, memberId, createdAt, updatedAt, id, status);
    return Ok(m);
  }

  /** `ImageMemberFactory.new_image_member`: a pending membership of `image`, created and updated at `now`. */
  method NewImageMember(image: Image, memberId: Value, now: Value) returns (m: ImageMembership)
    ensures fresh(m) && m.Valid()
    ensures m.status == JStr("pending") && m.imageId == image.imageId && m.memberId == memberId
    ensures m.createdAt == now && m.updatedAt == now && m.id == JNull
  {
    m := new ImageMembership(image.imageId, memberId, now, now, JNull, JStr("pending"));
  }

  // ----- tasks ----------------------------------------------------------------

  /** The statuses the `Task` constructor accepts. */
  const TaskStatuses: set<Value> := {JStr("pending"), JStr("success"), JStr("failure"), JStr("inprogress")}

  /**
   * The `Task` constructor's checks.  `('import')` is the string `'import'`,
   * not a tuple, so the type test is a substring test: a string type is
   * accepted when it occurs in "import", and any other value makes the `in`
   * operator raise TypeError.
   */
  function TaskCheck(taskType: Value, status: Value): (o: Outcome<Error>)
    ensures o == Pass <==> taskType.JStr? && IsSubstring(taskType.s, "import") && status in TaskStatuses
    ensures taskType.JStr? && !IsSubstring(taskType.s, "import") ==> o == Fail(InvalidTaskType(taskType))
    ensures taskType.JStr? && IsSubstring(taskType.s, "import") && status !in TaskStatuses
      ==> o == Fail(InvalidTaskStatus(status))
  {
    if !taskType.JStr? then Fail(TypeError("'in <string>' requires string as left operand"))
    else if !IsSubstring(taskType.s, "import") then Fail(InvalidTaskType(taskType))
    else if status !in TaskStatuses then Fail(InvalidTaskStatus(status))
    else Pass
  }

  /** The type test accepts exactly the strings occurring in "import", so also "", "imp" and "port". */
  lemma TaskTypeIsSubstringTest(t: string)
    ensures TaskCheck(JStr(t), JStr("pending")) == Pass <==> exists i :: OccursAt(t, "import", i)
    ensures TaskCheck(JStr("port"), JStr("pending")) == Pass
    ensures TaskCheck(JStr(""), JStr("pending")) == Pass
  {
    SubstringAt(t, "import");
    assert OccursAt("port", "import", 2);
    SubstringAt("port", "import");
    assert OccursAt("", "import", 0);
    SubstringAt("", "import");
  }

  /** "export" does not occur in "import", so the current Task refuses export tasks. */
  lemma TaskRefusesExport(status: Value)
    ensures TaskCheck(JStr("export"), status) == Fail(InvalidTaskType(JStr("export")))
  {
    assert !OccursAt("export", "import", 0) by {
      assert "import"[0..6][0] == 'i';
    }
    SubstringAt("export", "import");
  }

  /** The attributes of a `Task`, as a value. */
  datatype TaskRecord = TaskRecord(
    taskId: Value,
    taskType: Value,
    status: Value,
    input: Value,
    result: Value,
    owner: Value,
    message: Value,
    expiresAt: Value,
    createdAt: Value,
    updatedAt: Value)

  /** The default runner: its `run` and `kill` do nothing; the ghost counters record the calls. */
  class TaskRunnerInterface {
    ghost var runs: nat
    ghost var kills: nat

    constructor ()
      ensures runs == 0 && kills == 0
    {
      runs, kills := 0, 0;
    }

    method Run(task: Task)
      modifies this
      ensures runs == old(runs) + 1 && kills == old(kills)
    {
      runs := runs + 1;
    }

    method Kill(task: Task)
      modifies this
      ensures kills == old(kills) + 1 && runs == old(runs)
    {
      kills := kills + 1;
    }
  }

  /** The current task entity.  No transition looks at the status it leaves. */
  class Task {
    var taskId: Value
    var taskType: Value
    var status: Value
    var input: Value
    var result: Value
    var owner: Value
    var message: Value
    var expiresAt: Value
    var createdAt: Value
    var updatedAt: Value
    var runner: TaskRunnerInterface?

    function State(): TaskRecord
      reads this
    {
      TaskRecord(taskId, taskType, status, input, result, owner, message, expiresAt, createdAt, updatedAt)
    }

    constructor (init: TaskRecord, runner: TaskRunnerInterface?)
      requires TaskCheck(init.taskType, init.status) == Pass
      ensures State() == init && this.runner == runner
    {
      taskId, taskType, status, input, result := init.taskId, init.taskType, init.status, init.input, init.result;
      owner, message, expiresAt, createdAt, updatedAt := init.owner, init.message, init.expiresAt, init.createdAt, init.updatedAt;
      this.runner := runner;
    }

    /**
     * `run`: the status becomes `processing` first, then the runner runs the
     * task; without a runner the call raises AttributeError after the status
     * has changed.
     */
    method Run() returns (o: Outcome<Error>)
      modifies this, runner
      ensures State() == old(State()).(status := JStr("processing")) && runner == old(runner)
      ensures old(runner) == null ==> o == Outcome.Fail(AttributeError("NoneType", "run"))
      ensures old(runner) != null ==> o == Pass && runner.runs == old(runner.runs) + 1 && runner.kills == old(runner.kills)
    {
      status := JStr("processing");
      if runner == null {
        return Outcome.Fail(AttributeError("NoneType", "run"));
      }
      runner.Run(this);
      return Pass;
    }

    /** `kill` does nothing at all. */
    method Kill(message: Value)
      ensures State() == old(State())
    {
    }

    /** `complete`: status `success` and the given result, whatever the status was. */
    method Complete(result: Value)
      modifies this`status, this`result
      ensures State() == old(State()).(status := JStr("success"), result := result)
    {
      status := JStr("success");
      this.result := result;
    }

    /** `fail`: status `failure` and the given message, whatever the status was. */
    method Fail(message: Value)
      modifies this`status, this`message
      ensures State() == old(State()).(status := JStr("failure"), message := message)
    {
      status := JStr("failure");
      this.message := message;
    }
  }

  /** `Task(...)`: the constructor's checks, then the task. */
  method NewTaskObject(init: TaskRecord, runner: TaskRunnerInterface?) returns (r: Result<Task, Error>)
    ensures TaskCheck(init.taskType, init.status).Fail? ==> r == Err(TaskCheck(init.taskType, init.status).error)
    ensures TaskCheck(init.taskType, init.status) == Pass ==>
      r.Ok? && fresh(r.value) && r.value.State() == init && r.value.runner == runner
  {
    var check := TaskCheck(init.taskType, init.status);
    if check.Fail? {
      return Err(check.error);
    }
    var t := new Task(init, runner);
    return Ok(t);
  }

  /** The caller's security context. */
  datatype Context = Context(owner: Value, authTok: Value)

  /** An API request; only its context is read. */
  datatype Request = Request(context: Context)

  /**
   * `TaskFactory.new_task(request, task)`: a missing request raises TypeError;
   * `task['type']` and `task['input']` must exist; the task is pending, owned
   * by the request's owner, with no result, message or expiry, and created
   * and updated at `now`.
   */
  function NewTaskResult(request: Option<Request>, task: Value, freshId: Value, now: Value): Result<TaskRecord, Error>
  {
    if request.None? then Err(TypeError("new_task() takes at least one argument ('request')"))
    else
      match GetItem(task, "type")
      case Err(e) => Err(e)
      case Ok(taskType) =>
        match GetItem(task, "input")
        case Err(e) => Err(e)
        case Ok(input) =>
          var init := TaskRecord(freshId, taskType, JStr("pending"), input, JNull,
                                 request.value.context.owner, JNull, JNull, now, now);
          match TaskCheck(taskType, JStr("pending"))
          case Fail(e) => Err(e)
          case Pass => Ok(init)
  }

  /** What every task the factory makes starts with. */
  lemma NewTaskDefaults(request: Option<Request>, task: Value, freshId: Value, now: Value)
    requires NewTaskResult(request, task, freshId, now).Ok?
    ensures var t := NewTaskResult(request, task, freshId, now).value;
      && request.Some? && task.JObj? && "type" in task.fields && "input" in task.fields
      && t.status == JStr("pending") && t.taskId == freshId
      && t.result == JNull && t.message == JNull && t.expiresAt == JNull
      && t.createdAt == t.updatedAt
      && t.owner == request.value.context.owner
      && t.taskType == task.fields["type"] && t.input == task.fields["input"]
  {
  }

  /** The factory's failures: no request, a missing key, a refused type. */
  lemma NewTaskErrors(request: Option<Request>, task: map<string, Value>, freshId: Value, now: Value)
    ensures request.None? ==>
      && NewTaskResult(request, JObj(task), freshId, now).Err?
      && NewTaskResult(request, JObj(task), freshId, now).error.TypeError?
    ensures request.Some? && "type" !in task ==> NewTaskResult(request, JObj(task), freshId, now) == Err(KeyError("type"))
    ensures request.Some? && "type" in task && "input" !in task ==>
      NewTaskResult(request, JObj(task), freshId, now) == Err(KeyError("input"))
    ensures request.Some? && "type" in task && "input" in task && task["type"] == JStr("export") ==>
      NewTaskResult(request, JObj(task), freshId, now) == Err(InvalidTaskType(JStr("export")))
  {
    TaskRefusesExport(JStr("pending"));
  }

  /** `TaskFactory.new_task`: the task NewTaskResult describes, with a fresh default runner. */
  method NewTask(request: Option<Request>, task: Value, freshId: Value, now: Value) returns (r: Result<Task, Error>)
    ensures NewTaskResult(request, task, freshId, now).Err? ==> r == Err(NewTaskResult(request, task, freshId, now).error)
    ensures NewTaskResult(request, task, freshId, now).Ok? ==>
      && r.Ok? && fresh(r.value) && r.value.State() == NewTaskResult(request, task, freshId, now).value
      && r.value.runner != null && fresh(r.value.runner)
  {
    if request.None? {
      return Err(TypeError("new_task() takes at least one argument ('request')"));
    }
    var taskType := GetItem(task, "type");
    if taskType.Err? {
      return Err(taskType.error);
    }
    var input := GetItem(task, "input");
    if input.Err? {
      return Err(input.error);
    }
    var runner := new TaskRunnerInterface();
    var init := TaskRecord(freshId, taskType.value, JStr("pending"), input.value, JNull,
                           request.value.context.owner, JNull, JNull, now, now);
    r := NewTaskObject(init, runner);
  }
}
