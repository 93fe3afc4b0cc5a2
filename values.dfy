/**
 * Python values and exceptions as the task scripts and domain objects see them.
 *
 * Task input, task results, image properties and schema definitions are
 * JSON-like Python values; `Value` models them, with Python's `None` as
 * `JNull`.  The functions below spell out the pieces of Python semantics the
 * glance code relies on: truthiness, the `in` operator, `d[k]`, `d.get(k)`,
 * Python 2's `str()` and `repr()` of any value, and the textual uuid check of `uuidutils`.
 */
module Values {

  datatype Option<+T> = None | Some(value: T)

  datatype Result<+T, +E> = Ok(value: T) | Err(error: E)

  /** A procedure that either returns normally or raises `error`. */
  datatype Outcome<+E> = Pass | Fail(error: E)

  datatype Value =
    | JNull
    | JBool(b: bool)
    | JInt(i: int)
    | JStr(s: string)
    | JList(items: seq<Value>)
    | JObj(fields: map<string, Value>)

  /** The exceptions raised by the modelled code, with the detail each carries. */
  datatype Error =
    | TypeError(msg: string)
    | KeyError(key: string)
    | AttributeError(typeName: string, attr: string)
    | IndexError(msg: string)
    | ValueError(msg: string)
    | ZeroDivisionError(msg: string)
    | IOError(path: string)
    | NotImplementedError
    | NotFound(msg: string)
    | Duplicate(msg: string)
    | Invalid(msg: string)
    | BadStoreUri(msg: string)
    | InvalidTaskType(taskType: Value)
    | InvalidTaskStatus(status: Value)
    | ReadonlyProperty(property: string)
    | ReservedProperty(property: string)
    | ProtectedImageDelete(imageId: Value)
    | SchemaLoadError(conflicts: set<string>)
    | BackendException(msg: string)
    | ClientException(httpStatus: int)

  /** Python's truth value of `v` (`if v:`, `v or default`). */
  predicate Truthy(v: Value)
  {
    match v
    case JNull => false
    case JBool(b) => b
    case JInt(i) => i != 0
    case JStr(s) => s != ""
    case JList(xs) => xs != []
    case JObj(m) => m != map[]
  }

  /** Python's `None`-defaulting lookup `d.get(key)` on a dictionary. */
  function Lookup(m: map<string, Value>, key: string): Value
  {
    if key in m then m[key] else JNull
  }

  // ----- strings ---------------------------------------------------------

  predicate IsPrefix(p: string, s: string)
  {
    |p| <= |s| && s[..|p|] == p
  }

  /** `a in b` for two Python strings: `a` occurs somewhere in `b`. */
  predicate IsSubstring(a: string, b: string)
    decreases |b|
  {
    IsPrefix(a, b) || (b != [] && IsSubstring(a, b[1..]))
  }

  /** `a` occurs in `b` starting at index `i`. */
  predicate OccursAt(a: string, b: string, i: int)
  {
    0 <= i && i + |a| <= |b| && b[i..i + |a|] == a
  }

  /** IsSubstring agrees with the positional definition of "occurs in". */
  lemma {:induction false} SubstringAt(a: string, b: string)
    ensures IsSubstring(a, b) <==> exists i :: OccursAt(a, b, i)
    decreases |b|
  {
    if IsSubstring(a, b) {
      if IsPrefix(a, b) {
        assert OccursAt(a, b, 0);
      } else {
        SubstringAt(a, b[1..]);
        var i :| OccursAt(a, b[1..], i);
        assert OccursAt(a, b, i + 1) by {
          assert forall k :: 0 <= k < |a| ==> a[k] == b[i + 1 + k];
        }
      }
    }
    if exists i :: OccursAt(a, b, i) {
      var i :| OccursAt(a, b, i);
      if i > 0 {
        SubstringAt(a, b[1..]);
        assert OccursAt(a, b[1..], i - 1) by {
          assert forall k :: 0 <= k < |a| ==> a[k] == b[1..][i - 1 + k];
        }
      }
    }
  }

  function DigitChar(d: nat): char
    requires d < 10
  {
    "0123456789"[d]
  }

  /** Decimal digits of `n`, most significant first, without leading zeros. */
  function NatToString(n: nat): (s: string)
    ensures |s| >= 1
    decreases n
  {
    if n < 10 then [DigitChar(n)] else NatToString(n / 10) + [DigitChar(n % 10)]
  }

  /** The value of a decimal digit. */
  function DigitValue(c: char): nat
  {
    if '0' <= c <= '9' then c as int - '0' as int else 0
  }

  /** The number a string of decimal digits denotes; leading zeros are allowed. */
  function ParseDecimal(s: string): nat
    decreases |s|
  {
    if s == [] then 0 else ParseDecimal(s[..|s| - 1]) * 10 + DigitValue(s[|s| - 1])
  }

  lemma DigitRoundTrip(d: nat)
    requires d < 10
    ensures DigitValue(DigitChar(d)) == d
  {
    if d == 0 { assert DigitChar(0) == '0'; }
    else if d == 1 { assert DigitChar(1) == '1'; }
    else if d == 2 { assert DigitChar(2) == '2'; }
    else if d == 3 { assert DigitChar(3) == '3'; }
    else if d == 4 { assert DigitChar(4) == '4'; }
    else if d == 5 { assert DigitChar(5) == '5'; }
    else if d == 6 { assert DigitChar(6) == '6'; }
    else if d == 7 { assert DigitChar(7) == '7'; }
    else if d == 8 { assert DigitChar(8) == '8'; }
    else { assert DigitChar(9) == '9'; }
  }

  /** Reading back the decimal text of a number gives the number. */
  lemma {:induction false} ParseNatToString(n: nat)
    ensures ParseDecimal(NatToString(n)) == n
    decreases n
  {
    if n < 10 {
      DigitRoundTrip(n);
      assert NatToString(n)[..0] == [];
    } else {
      var s := NatToString(n);
      assert s == NatToString(n / 10) + [DigitChar(n % 10)];
      assert s[..|s| - 1] == NatToString(n / 10);
      ParseNatToString(n / 10);
      DigitRoundTrip(n % 10);
    }
  }

  /** Python's `str(i)` for an integer. */
  function IntToString(i: int): string
  {
    if i < 0 then "-" + NatToString(-i) else NatToString(i)
  }

  // ----- str() and repr() ---------------------------------------------

  /** The largest Python 2 `int` of a 64-bit build; integers beyond it are `long`s. */
  const MaxInt: int := 0x7FFF_FFFF_FFFF_FFFF

  function HexDigit(d: nat): char
    requires d < 16
  {
    "0123456789abcdef"[d]
  }

  /**
   * How Python 2's `repr` writes one character of a byte string quoted with
   * `q`: backslash, the quote, tab, newline and carriage return are escaped,
   * any other character outside the printable ASCII range becomes `\xhh`.
   */
  function EscapeChar(ch: char, q: char): string
  {
    if ch == '\\' then "\\\\"
    else if ch == q then ['\\', q]
    else if ch == '\t' then "\\t"
    else if ch == '\n' then "\\n"
    else if ch == '\r' then "\\r"
    else if ch as int < 0x20 || ch as int >= 0x7f then
      var b := ch as int % 256;
      "\\x" + [HexDigit(b / 16), HexDigit(b % 16)]
    else [ch]
  }

  function EscapeAll(s: string, q: char): string
    decreases |s|
  {
    if s == [] then [] else EscapeChar(s[0], q) + EscapeAll(s[1..], q)
  }

  /**
   * Python 2's `repr` of a byte string: quoted with `'`, or with `"` when the
   * text holds a `'` and no `"`.
   */
  function StrRepr(s: string): (r: string)
    ensures |r| >= 2
  {
    var q := if '\'' in s && '"' !in s then '"' else '\'';
    [q] + EscapeAll(s, q) + [q]
  }

  /** `sep.join(parts)`. */
  function Join(sep: string, parts: seq<string>): string
    decreases |parts|
  {
    if parts == [] then "" else if |parts| == 1 then parts[0] else parts[0] + sep + Join(sep, parts[1..])
  }

  /** Lexicographic order on strings. */
  predicate LexLe(a: string, b: string)
    decreases |a|
  {
    a == [] || (b != [] && (a[0] < b[0] || (a[0] == b[0] && LexLe(a[1..], b[1..]))))
  }

  lemma {:induction false} LexTotal(a: string, b: string)
    ensures LexLe(a, b) || LexLe(b, a)
    decreases |a|
  {
    if a != [] && b != [] && a[0] == b[0] {
      LexTotal(a[1..], b[1..]);
    }
  }

  lemma {:induction false} LexAntisymmetric(a: string, b: string)
    requires LexLe(a, b) && LexLe(b, a)
    ensures a == b
    decreases |a|
  {
    if a != [] {
      LexAntisymmetric(a[1..], b[1..]);
      assert a == [a[0]] + a[1..] && b == [b[0]] + b[1..];
    }
  }

  lemma {:induction false} LexTransitive(a: string, b: string, c: string)
    requires LexLe(a, b) && LexLe(b, c)
    ensures LexLe(a, c)
    decreases |a|
  {
    if a != [] && a[0] == b[0] && b[0] == c[0] {
      LexTransitive(a[1..], b[1..], c[1..]);
    }
  }

  /** The least of a set of strings. */
  predicate IsLeast(x: string, s: set<string>)
  {
    x in s && forall y :: y in s ==> LexLe(x, y)
  }

  lemma {:induction false} LeastExists(s: set<string>)
    requires s != {}
    ensures exists x :: IsLeast(x, s)
    decreases |s|
  {
    var x :| x in s;
    if s - {x} == {} {
      assert s == {x};
      LexTotal(x, x);
      assert IsLeast(x, s);
    } else {
      LeastExists(s - {x});
      var m :| IsLeast(m, s - {x});
      LexTotal(x, m);
      if LexLe(x, m) {
        forall y | y in s ensures LexLe(x, y) {
          if y != x {
            LexTransitive(x, m, y);
          } else {
            LexTotal(x, x);
          }
        }
        assert IsLeast(x, s);
      } else {
        assert IsLeast(m, s);
      }
    }
  }

  lemma LeastUnique(x: string, y: string, s: set<string>)
    requires IsLeast(x, s) && IsLeast(y, s)
    ensures x == y
  {
    LexAntisymmetric(x, y);
  }

  /** The keys of a dictionary in lexicographic order. */
  function SortedKeys(s: set<string>): (r: seq<string>)
    ensures |r| == |s|
    ensures forall k :: 0 <= k < |r| ==> r[k] in s
    decreases |s|
  {
    if s == {} then []
    else
      LeastExists(s);
      assert forall x, y :: IsLeast(x, s) && IsLeast(y, s) ==> x == y by {
        forall x, y | IsLeast(x, s) && IsLeast(y, s) ensures x == y {
          LeastUnique(x, y, s);
        }
      }
      var x :| IsLeast(x, s);
      [x] + SortedKeys(s - {x})
  }

  /**
   * Python 2's `repr(v)`, which `str` applies to the elements of a list or
   * dictionary: integers beyond `MaxInt` are `long`s and get an `L`, strings
   * are quoted, and a dictionary's items are written in key order.
   */
  function Repr(v: Value): (r: string)
    ensures r != ""
    decreases v
  {
    match v
    case JNull => "None"
    case JBool(b) => if b then "True" else "False"
    case JInt(i) => if i > MaxInt || i < -MaxInt - 1 then IntToString(i) + "L" else IntToString(i)
    case JStr(s) => StrRepr(s)
    case JList(xs) => "[" + Join(", ", seq(|xs|, k requires 0 <= k < |xs| => Repr(xs[k]))) + "]"
    case JObj(m) =>
      var keys := SortedKeys(m.Keys);
      "{" + Join(", ", seq(|keys|, k requires 0 <= k < |keys| => StrRepr(keys[k]) + ": " + Repr(m[keys[k]]))) + "}"
  }

  /**
   * Python's `str(v)`: the text of None, a boolean or an integer, the
   * string itself (strings are Python 2 byte strings), and `repr` for a list
   * or a dictionary.
   */
  function PyStr(v: Value): (r: string)
    ensures v.JList? || v.JObj? ==> r == Repr(v)
    ensures v.JStr? ==> r == v.s
  {
    match v
    case JNull => "None"
    case JBool(b) => if b then "True" else "False"
    case JInt(i) => IntToString(i)
    case JStr(s) => s
    case JList(_) => Repr(v)
    case JObj(_) => Repr(v)
  }

  /** `str([])` is `[]`. */
  lemma PyStrOfEmptyList()
    ensures PyStr(JList([])) == "[]"
  {
  }

  /** A one-item dictionary of plain strings is written `{'k': 'v'}`. */
  lemma PyStrOfSingleItem(k: string, x: string)
    requires forall i :: 0 <= i < |k| ==> ' ' <= k[i] <= '~' && k[i] != '\\' && k[i] != '\''
    requires forall i :: 0 <= i < |x| ==> ' ' <= x[i] <= '~' && x[i] != '\\' && x[i] != '\''
    ensures PyStr(JObj(map[k := JStr(x)])) == "{'" + k + "': '" + x + "'}"
  {
    var m := map[k := JStr(x)];
    PlainEscape(k);
    PlainEscape(x);
    SingleItemRepr(k, JStr(x));
    assert PyStr(JObj(m)) == "{" + StrRepr(k) + ": " + StrRepr(x) + "}";
    QuotedPair(k, x);
  }

  /** The quotes and separators of a one-item dictionary, regrouped. */
  lemma QuotedPair(k: string, x: string)
    ensures "{" + ("'" + k + "'") + ": " + ("'" + x + "'") + "}" == "{'" + k + "': '" + x + "'}"
  {
    assert "{'" == "{" + "'" && "': '" == "'" + ": " + "'" && "'}" == "'" + "}";
  }

  /** A one-item dictionary is written `{<key repr>: <value repr>}`. */
  lemma SingleItemRepr(k: string, v: Value)
    ensures Repr(JObj(map[k := v])) == "{" + StrRepr(k) + ": " + Repr(v) + "}"
  {
    var m := map[k := v];
    assert m.Keys == {k};
    SortedSingleton(k);
    var keys := SortedKeys(m.Keys);
    var items := seq(|keys|, i requires 0 <= i < |keys| => StrRepr(keys[i]) + ": " + Repr(m[keys[i]]));
    assert items == [StrRepr(k) + ": " + Repr(v)];
    assert Join(", ", items) == StrRepr(k) + ": " + Repr(v);
  }

  /** A single key is its own sorted order. */
  lemma SortedSingleton(k: string)
    ensures SortedKeys({k}) == [k]
  {
    var keys := SortedKeys({k});
    assert |keys| == 1 && keys[0] in {k};
  }

  /** Printable text without a backslash or a single quote is written as it is. */
  lemma {:induction false} PlainEscape(s: string)
    requires forall i :: 0 <= i < |s| ==> ' ' <= s[i] <= '~' && s[i] != '\\' && s[i] != '\''
    ensures EscapeAll(s, '\'') == s
    ensures StrRepr(s) == "'" + s + "'"
    decreases |s|
  {
    if s != [] {
      PlainEscape(s[1..]);
      assert s == [s[0]] + s[1..];
    }
    assert '\'' !in s;
  }

  // ----- Python operators on dynamic values -------------------------------

  /** `type(v).__name__` in Python 2; an integer beyond a machine word is a `long`. */
  function TypeName(v: Value): (r: string)
    ensures r != ""
  {
    match v
    case JNull => "NoneType"
    case JBool(_) => "bool"
    case JInt(i) => if i > MaxInt || i < -MaxInt - 1 then "long" else "int"
    case JStr(_) => "str"
    case JList(_) => "list"
    case JObj(_) => "dict"
  }

  /** The text of the AttributeError, or of the TypeError Python 2 raises in its place, for `v.attr`. */
  function NoAttributeText(v: Value, attr: string): string
  {
    "'" + TypeName(v) + "' object has no attribute '" + attr + "'"
  }

  /**
   * `key in container` for a string `key`: dictionary membership, list
   * membership, or substring search in a string; any other container raises
   * TypeError ("argument of type ... is not iterable").
   */
  function Contains(container: Value, key: string): (r: Result<bool, Error>)
    ensures container.JObj? ==> r == Ok(key in container.fields)
    ensures container.JStr? ==> r == Ok(IsSubstring(key, container.s))
    ensures container.JList? ==> r == Ok(JStr(key) in container.items)
    ensures r.Err? <==> !(container.JObj? || container.JStr? || container.JList?)
  {
    match container
    case JObj(m) => Ok(key in m)
    case JStr(s) => Ok(IsSubstring(key, s))
    case JList(xs) => Ok(JStr(key) in xs)
    case _ => Err(TypeError("argument of type '" + TypeName(container) + "' is not iterable"))
  }

  /** `container[key]` for a string `key`. */
  function GetItem(container: Value, key: string): (r: Result<Value, Error>)
    ensures r.Ok? <==> container.JObj? && key in container.fields
    ensures r.Ok? ==> r.value == container.fields[key]
    ensures container.JObj? && key !in container.fields ==> r == Err(KeyError(key))
  {
    match container
    case JObj(m) => if key in m then Ok(m[key]) else Err(KeyError(key))
    case JStr(_) => Err(TypeError("string indices must be integers, not str"))
    case JList(_) => Err(TypeError("list indices must be integers, not str"))
    case _ => Err(TypeError(NoAttributeText(container, "__getitem__")))
  }

  /** `container.get(key, None)`: only dictionaries have `get`. */
  function GetOrNone(container: Value, key: string): (r: Result<Value, Error>)
    ensures r.Ok? <==> container.JObj?
    ensures r.Ok? ==> r.value == Lookup(container.fields, key)
  {
    match container
    case JObj(m) => Ok(Lookup(m, key))
    case _ => Err(AttributeError(TypeName(container), "get"))
  }

  /** Values Python can put in a set or use as a dictionary key. */
  predicate Hashable(v: Value)
  {
    !(v.JList? || v.JObj?)
  }

  /** The type name of the first element `set()` cannot hash, or "" when there is none. */
  function UnhashableName(xs: seq<Value>): string
  {
    if xs == [] then "" else if !Hashable(xs[0]) then TypeName(xs[0]) else UnhashableName(xs[1..])
  }

  /** Python's `a or b`. */
  function Or(a: Value, b: Value): (r: Value)
    ensures Truthy(a) ==> r == a
    ensures !Truthy(a) ==> r == b
  {
    if Truthy(a) then a else b
  }

  /**
   * Python's `set(v)`: a list gives its elements, a string its characters,
   * a dictionary its keys.  None, a number or a boolean is not iterable, and
   * a list holding a list or a dictionary is not hashable: both raise
   * TypeError.
   */
  function PySet(v: Value): (r: Result<set<Value>, Error>)
    ensures v.JList? && (forall x :: x in v.items ==> Hashable(x)) ==> r == Ok(set x | x in v.items)
    ensures r.Ok? ==> forall x :: x in r.value ==> Hashable(x)
    ensures r.Err? <==> v.JNull? || v.JInt? || v.JBool? || (v.JList? && exists x :: x in v.items && !Hashable(x))
  {
    match v
    case JList(xs) =>
      if forall x :: x in xs ==> Hashable(x) then Ok(set x | x in xs)
      else Err(TypeError("unhashable type: '" + UnhashableName(xs) + "'"))
    case JStr(s) => Ok(set i | 0 <= i < |s| :: JStr([s[i]]))
    case JObj(m) => Ok(set k | k in m :: JStr(k))
    case _ => Err(TypeError("'" + TypeName(v) + "' object is not iterable"))
  }

  // ----- uuids ----------------------------------------------------------

  predicate IsLowerHex(c: char)
  {
    ('0' <= c <= '9') || ('a' <= c <= 'f')
  }

  /**
   * `uuidutils.is_uuid_like(s)`, which holds when `str(uuid.UUID(s)) == s`:
   * exactly the canonical form, 32 lower-case hex digits in groups of
   * 8-4-4-4-12 separated by hyphens.
   */
  predicate IsUuidLike(s: string)
  {
    && |s| == 36
    && (forall i :: 0 <= i < 36 && (i == 8 || i == 13 || i == 18 || i == 23) ==> s[i] == '-')
    && (forall i :: 0 <= i < 36 && !(i == 8 || i == 13 || i == 18 || i == 23) ==> IsLowerHex(s[i]))
  }

  /** `is_uuid_like` of an arbitrary value: anything but a string is rejected. */
  predicate IsUuidLikeValue(v: Value)
  {
    v.JStr? && IsUuidLike(v.s)
  }

  /** A canonical uuid has no slash, so it cannot straddle the `/` of `<uuid>/<uuid>`. */
  lemma UuidHasNoSlash(s: string)
    requires IsUuidLike(s)
    ensures forall i :: 0 <= i < |s| ==> s[i] != '/'
  {
    forall i | 0 <= i < |s| ensures s[i] != '/' {
      if i == 8 || i == 13 || i == 18 || i == 23 {
        assert s[i] == '-';
      } else {
        assert IsLowerHex(s[i]);
      }
    }
  }

  // ----- exception rendering --------------------------------------------

  /** `unicode(type(e))`. */
  function ErrorType(e: Error): string
  {
    match e
    case TypeError(_) => "<type 'exceptions.TypeError'>"
    case KeyError(_) => "<type 'exceptions.KeyError'>"
    case AttributeError(_, _) => "<type 'exceptions.AttributeError'>"
    case IndexError(_) => "<type 'exceptions.IndexError'>"
    case ValueError(_) => "<type 'exceptions.ValueError'>"
    case ZeroDivisionError(_) => "<type 'exceptions.ZeroDivisionError'>"
    case IOError(_) => "<type 'exceptions.IOError'>"
    case NotImplementedError => "<type 'exceptions.NotImplementedError'>"
    case ClientException(_) => "<class 'swiftclient.exceptions.ClientException'>"
    case NotFound(_) => "<class 'glance.common.exception.NotFound'>"
    case Duplicate(_) => "<class 'glance.common.exception.Duplicate'>"
    case Invalid(_) => "<class 'glance.common.exception.Invalid'>"
    case BadStoreUri(_) => "<class 'glance.common.exception.BadStoreUri'>"
    case InvalidTaskType(_) => "<class 'glance.common.exception.InvalidTaskType'>"
    case InvalidTaskStatus(_) => "<class 'glance.common.exception.InvalidTaskStatus'>"
    case ReadonlyProperty(_) => "<class 'glance.common.exception.ReadonlyProperty'>"
    case ReservedProperty(_) => "<class 'glance.common.exception.ReservedProperty'>"
    case ProtectedImageDelete(_) => "<class 'glance.common.exception.ProtectedImageDelete'>"
    case SchemaLoadError(_) => "<class 'glance.common.exception.SchemaLoadError'>"
    case BackendException(_) => "<class 'glance.store.BackendException'>"
  }

  /** `unicode(e)`: the detail the exception carries. */
  function ErrorText(e: Error): string
  {
    match e
    case TypeError(m) => m
    case KeyError(k) => StrRepr(k)
    case AttributeError(t, a) => "'" + t + "' object has no attribute '" + a + "'"
    case IndexError(m) => m
    case ValueError(m) => m
    case ZeroDivisionError(m) => m
    case IOError(p) => "[Errno 2] No such file or directory: " + StrRepr(p)
    case NotImplementedError => ""
    case ClientException(st) => "HTTP status " + IntToString(st)
    case NotFound(m) => m
    case Duplicate(m) => m
    case Invalid(m) => m
    case BadStoreUri(m) => m
    case InvalidTaskType(t) => PyStr(t)
    case InvalidTaskStatus(s) => PyStr(s)
    case ReadonlyProperty(p) => p
    case ReservedProperty(p) => p
    case ProtectedImageDelete(id) => PyStr(id)
    case SchemaLoadError(_) => "custom properties conflict with base properties"
    case BackendException(m) => m
  }

  /** The import scripts' failure text, `unicode(type(e)) + ': ' + unicode(e)`. */
  function Describe(e: Error): string
  {
    ErrorType(e) + ": " + ErrorText(e)
  }

  /** A missing file carries errno 2 and the repr of its path. */
  lemma IOErrorText(p: string)
    requires forall i :: 0 <= i < |p| ==> ' ' <= p[i] <= '~' && p[i] != '\\' && p[i] != '\''
    ensures ErrorText(IOError(p)) == "[Errno 2] No such file or directory: " + "'" + p + "'"
  {
    PlainEscape(p);
  }

  /** A missing key is written as its repr, quoted. */
  lemma KeyErrorText(k: string)
    requires forall i :: 0 <= i < |k| ==> ' ' <= k[i] <= '~' && k[i] != '\\' && k[i] != '\''
    ensures ErrorText(KeyError(k)) == "'" + k + "'"
  {
    PlainEscape(k);
  }
}
