/**
 * The Python values that cross the core's boundaries: request JSON, Celery
 * task metadata and results, Django settings, and the chat model's reply
 * content; together with Python's truthiness, `str()` and `dict.get`.
 */
module PyValues {
  import opened Wrappers
  import opened Text

  /** The exception classes the core raises or tells apart. */
  datatype ExcClass =
    | ValueError
    | JSONDecodeError          // a subclass of ValueError
    | AttributeError
    | TypeError
    | ImproperlyConfigured     // Django's configuration error
    | Exception                // the plain base class
    | OtherException(name: string, subclassOfValueError: bool)

  /** An exception object: its class and the text `str(e)` gives. */
  datatype Exc = Exc(cls: ExcClass, message: string)

  /** `isinstance(e, ValueError)`. */
  predicate IsValueError(e: Exc) {
    match e.cls
    case ValueError => true
    case JSONDecodeError => true
    case OtherException(_, sub) => sub
    case _ => false
  }

  /**
   * A Python value. Dictionaries keep their insertion order as a sequence of
   * entries; numbers are integers (floats are not modelled); `Raised` is an
   * exception object stored as a value, as Celery stores a failed task's
   * result.
   */
  datatype Value =
    | NoneValue
    | Bool(b: bool)
    | Int(i: int)
    | Str(s: string)
    | List(items: seq<Value>)
    | Dict(entries: seq<Entry>)
    | Raised(exc: Exc)

  datatype Entry = Entry(key: string, val: Value)

  /** Python truthiness (`bool(v)`). */
  predicate Truthy(v: Value) {
    match v
    case NoneValue => false
    case Bool(b) => b
    case Int(i) => i != 0
    case Str(s) => s != ""
    case List(items) => items != []
    case Dict(entries) => entries != []
    case Raised(_) => true
  }

  /** `d.get(key)` on a dictionary's entries: the value stored under `key`, if any. */
  function Get(entries: seq<Entry>, key: string): (r: Option<Value>)
    ensures r.Some? <==> exists i :: 0 <= i < |entries| && entries[i].key == key
    ensures r.Some? ==> exists i :: 0 <= i < |entries| && entries[i].key == key && entries[i].val == r.value
  {
    if |entries| == 0 then None
    else if entries[0].key == key then Some(entries[0].val)
    else
      var r := Get(entries[1..], key);
      assert forall i :: 1 <= i < |entries| ==> entries[i] == entries[1..][i - 1];
      r
  }

  /** The value found is the one under the first entry with that key. */
  lemma {:induction false} GetFirst(entries: seq<Entry>, key: string, i: nat)
    requires i < |entries| && entries[i].key == key
    requires forall j :: 0 <= j < i ==> entries[j].key != key
    ensures Get(entries, key) == Some(entries[i].val)
    decreases i
  {
    if i > 0 {
      assert entries[1..][i - 1] == entries[i];
      GetFirst(entries[1..], key, i - 1);
    }
  }

  /** `d.get(key, default)`. */
  function GetOr(entries: seq<Entry>, key: string, default: Value): Value {
    match Get(entries, key)
    case Some(v) => v
    case None => default
  }

  /** The name `type(v).__name__` gives, as it appears in Python's error messages. */
  function TypeName(v: Value): string {
    match v
    case NoneValue => "NoneType"
    case Bool(_) => "bool"
    case Int(_) => "int"
    case Str(_) => "str"
    case List(_) => "list"
    case Dict(_) => "dict"
    case Raised(e) => ExcName(e.cls)
  }

  function ExcName(c: ExcClass): string {
    match c
    case ValueError => "ValueError"
    case JSONDecodeError => "JSONDecodeError"
    case AttributeError => "AttributeError"
    case TypeError => "TypeError"
    case ImproperlyConfigured => "ImproperlyConfigured"
    case Exception => "Exception"
    case OtherException(name, _) => name
  }

  /** The error Python raises for `v.attr` when `v`'s type has no such attribute. */
  function NoAttribute(v: Value, attr: string): Exc {
    Exc(AttributeError, "'" + TypeName(v) + "' object has no attribute '" + attr + "'")
  }

  /** `str(n)` for an integer: its decimal digits, with a leading `-` when negative. */
  function IntText(n: int): (r: string)
    ensures |r| >= 1
    ensures n < 0 <==> r[0] == '-'
  {
    if n < 0 then "-" + NatText(-n) else NatText(n)
  }

  function NatText(n: nat): (r: string)
    ensures |r| >= 1 && forall k :: 0 <= k < |r| ==> '0' <= r[k] <= '9'
  {
    if n < 10 then [DigitChar(n)] else NatText(n / 10) + [DigitChar(n % 10)]
  }

  function DigitChar(d: nat): (c: char)
    requires d < 10
    ensures '0' <= c <= '9'
  {
    ['0', '1', '2', '3', '4', '5', '6', '7', '8', '9'][d]
  }

  /**
   * `str(v)`. Strings are themselves; lists and dictionaries print their
   * elements' `repr` (quotes around strings, without escaping); an exception
   * prints its message.
   */
  function PyStr(v: Value): string {
    match v
    case Str(s) => s
    case Raised(e) => e.message
    case _ => Repr(v)
  }

  /** `repr(v)`, without the escaping of quotes, backslashes and unprintable characters. */
  function Repr(v: Value): string
    decreases v, 1
  {
    match v
    case NoneValue => "None"
    case Bool(b) => if b then "True" else "False"
    case Int(i) => IntText(i)
    case Str(s) => "'" + s + "'"
    case List(items) => "[" + ReprItems(items) + "]"
    case Dict(entries) => "{" + ReprEntries(entries) + "}"
    case Raised(e) => ExcName(e.cls) + "('" + e.message + "')"
  }

  function ReprItems(items: seq<Value>): string
    decreases items, 0
  {
    if |items| == 0 then ""
    else if |items| == 1 then Repr(items[0])
    else Repr(items[0]) + ", " + ReprItems(items[1..])
  }

  function ReprEntries(entries: seq<Entry>): string
    decreases entries, 0
  {
    if |entries| == 0 then ""
    else
      var e := entries[0];
      var one := "'" + e.key + "': " + Repr(e.val);
      if |entries| == 1 then one else one + ", " + ReprEntries(entries[1..])
  }
}
