/**
 * The dynamically typed values the agents pass around: what `json.loads`
 * produces and what the agents put into task inputs and outputs. Python
 * dictionaries keep insertion order, so an object is an ordered list of
 * key/value pairs. The module also gives the Python operations the agents
 * apply to such values: `in`, `.get`, truthiness, `str()` and `repr()`.
 */
module PyJson {
  import opened Basics
  import opened Text

  datatype Json =
    | JNull
    | JBool(b: bool)
    | JInt(i: int)
      /** A float with the text Python's `repr` gives it (`0.5`, `1e-07`). */
    | JFloat(value: real, text: string)
    | JStr(s: string)
    | JArr(items: seq<Json>)
    | JObj(fields: Dict)

  /** A Python dictionary with string keys, in insertion order. */
  type Dict = seq<(string, Json)>

  predicate HasKey(d: Dict, key: string) {
    exists i :: 0 <= i < |d| && d[i].0 == key
  }

  /** `d.get(key)`: the value stored under `key`. */
  function Get(d: Dict, key: string): (r: Option<Json>)
    ensures r.Some? <==> HasKey(d, key)
    ensures r.Some? ==> exists i :: 0 <= i < |d| && d[i] == (key, r.value)
  {
    if |d| == 0 then None
    else if d[0].0 == key then Some(d[0].1)
    else
      var r := Get(d[1..], key);
      assert HasKey(d, key) ==> d[0].0 == key || HasKey(d[1..], key) by {
        if HasKey(d, key) {
          var i :| 0 <= i < |d| && d[i].0 == key;
          if i > 0 { assert d[1..][i - 1].0 == key; }
        }
      }
      assert r.Some? ==> exists i :: 0 <= i < |d| && d[i] == (key, r.value) by {
        if r.Some? {
          var i :| 0 <= i < |d[1..]| && d[1..][i] == (key, r.value);
          assert d[i + 1] == (key, r.value);
        }
      }
      r
  }

  /** `d.get(key, default)`. */
  function GetOr(d: Dict, key: string, default: Json): (r: Json)
    ensures HasKey(d, key) ==> Some(r) == Get(d, key)
    ensures !HasKey(d, key) ==> r == default
  {
    match Get(d, key)
    case Some(v) => v
    case None => default
  }

  /**
   * Python's `key in container` for a string key: membership of the key in a
   * dictionary, substring in a string, element equality in a list. Any other
   * value raises `TypeError`, reported as `None`.
   */
  function PyIn(key: string, container: Json): (r: Option<bool>)
    ensures r.None? <==> !(container.JObj? || container.JStr? || container.JArr?)
    ensures container.JObj? ==> r == Some(HasKey(container.fields, key))
  {
    match container
    case JObj(fields) => Some(HasKey(fields, key))
    case JStr(s) => Some(Contains(s, key))
    case JArr(items) => Some(JStr(key) in items)
    case _ => None
  }

  /**
   * `all(key in v for key in keys)`, stopping at the first key that
   * is absent; `None` where `in` raises `TypeError` (a decoded number,
   * boolean or `null`).
   */
  function AllIn(keys: seq<string>, v: Json): (r: Option<bool>)
    ensures r.None? <==> |keys| > 0 && !(v.JObj? || v.JStr? || v.JArr?)
    ensures v.JObj? ==> r == Some(forall k :: 0 <= k < |keys| ==> HasKey(v.fields, keys[k]))
  {
    if keys == [] then Some(true)
    else match PyIn(keys[0], v)
      case None => None
      case Some(false) => Some(false)
      case Some(true) =>
        var rest := AllIn(keys[1..], v);
        assert v.JObj? ==> ((forall k :: 0 <= k < |keys| ==> HasKey(v.fields, keys[k]))
          == (forall k :: 0 <= k < |keys[1..]| ==> HasKey(v.fields, keys[1..][k]))) by {
          if v.JObj? && forall k :: 0 <= k < |keys[1..]| ==> HasKey(v.fields, keys[1..][k]) {
            forall k | 0 < k < |keys| ensures HasKey(v.fields, keys[k]) {
              assert keys[k] == keys[1..][k - 1];
            }
          }
        }
        rest
  }

  /** Python's `bool(v)`. */
  predicate Truthy(v: Json) {
    match v
    case JNull => false
    case JBool(b) => b
    case JInt(i) => i != 0
    case JFloat(x, _) => x != 0.0
    case JStr(s) => s != ""
    case JArr(items) => items != []
    case JObj(fields) => fields != []
  }

  /** The name of the Python type of a value, as error messages print it. */
  function TypeName(v: Json): string {
    match v
    case JNull => "NoneType"
    case JBool(_) => "bool"
    case JInt(_) => "int"
    case JFloat(_, _) => "float"
    case JStr(_) => "str"
    case JArr(_) => "list"
    case JObj(_) => "dict"
  }

  /** The number a value stands for in Python arithmetic and comparisons (`bool` is a subtype of `int`). */
  function Numeric(v: Json): (r: Option<real>)
    ensures r.Some? <==> (v.JBool? || v.JInt? || v.JFloat?)
  {
    match v
    case JBool(b) => Some(if b then 1.0 else 0.0)
    case JInt(i) => Some(i as real)
    case JFloat(x, _) => Some(x)
    case _ => None
  }

  /** The text of the `AttributeError` raised by `v.attr` on a value that lacks the attribute. */
  function NoAttribute(v: Json, attr: string): string {
    "'" + TypeName(v) + "' object has no attribute '" + attr + "'"
  }

  function HexDigit(d: nat): char
    requires d < 16
  {
    if d < 10 then ('0' as int + d) as char else ('a' as int + d - 10) as char
  }

  function Hex(n: nat, width: nat): (r: string)
  {
    if width == 0 then "" else Hex(n / 16, width - 1) + [HexDigit(n - 16 * (n / 16))]
  }

  /** Characters `repr` escapes: controls, DEL, the Latin-1 controls and non-breaking space, the soft hyphen, Unicode separators and invisible format characters. */
  predicate Unprintable(c: char) {
    c < ' ' || ('\U{7f}' <= c <= '\U{a0}') || c == '\U{ad}' || c == '\U{1680}'
    || ('\U{2000}' <= c <= '\U{200f}') || ('\U{2028}' <= c <= '\U{202f}')
    || ('\U{205f}' <= c <= '\U{2064}') || c == '\U{3000}' || c == '\U{feff}'
  }

  /** How `repr` writes one character of a string quoted with `quote`. */
  function EscapeChar(c: char, quote: char): string {
    if c == quote || c == '\\' then ['\\', c]
    else if c == '\t' then "\\t"
    else if c == '\n' then "\\n"
    else if c == '\r' then "\\r"
    else if Unprintable(c) then
      if c as int < 0x100 then "\\x" + Hex(c as int, 2)
      else if c as int < 0x10000 then "\\u" + Hex(c as int, 4)
      else "\\U" + Hex(c as int, 8)
    else [c]
  }

  function EscapeAll(s: string, quote: char): string {
    if |s| == 0 then "" else EscapeChar(s[0], quote) + EscapeAll(s[1..], quote)
  }

  /** Python's `repr` of a string: double quotes when it holds a single quote and no double quote, single quotes otherwise. */
  function ReprStr(s: string): string {
    var quote := if '\'' in s && '"' !in s then '"' else '\'';
    [quote] + EscapeAll(s, quote) + [quote]
  }

  /** Python's `repr` of a value. */
  function Repr(v: Json): string {
    match v
    case JNull => "None"
    case JBool(b) => if b then "True" else "False"
    case JInt(i) => IntToString(i)
    case JFloat(_, text) => text
    case JStr(s) => ReprStr(s)
    case JArr(items) => "[" + ReprItems(items) + "]"
    case JObj(fields) => "{" + ReprFields(fields) + "}"
  }

  /** The items of a list, each as `repr` gives it, separated by ", ". */
  function ReprItems(items: seq<Json>): string {
    if |items| == 0 then ""
    else if |items| == 1 then Repr(items[0])
    else Repr(items[0]) + ", " + ReprItems(items[1..])
  }

  /** The entries of a dictionary as `'key': value`, separated by ", ". */
  function ReprEntry(entry: (string, Json)): string {
    ReprStr(entry.0) + ": " + Repr(entry.1)
  }

  function ReprFields(fields: Dict): string {
    if |fields| == 0 then ""
    else
      if |fields| == 1 then ReprEntry(fields[0]) else ReprEntry(fields[0]) + ", " + ReprFields(fields[1..])
  }

  /** Python's `str` of a value, which is what an f-string interpolates: a string is itself, anything else its `repr`. */
  function Str(v: Json): (r: string)
    ensures v.JStr? ==> r == v.s
  {
    if v.JStr? then v.s else Repr(v)
  }
}
