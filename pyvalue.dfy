/**
 * Python values as the engine's free-form dictionaries hold them (intents, style
 * contexts, YAML and JSON payloads), with Python's truthiness and `dict.get`.
 */
module PyValue {
  import opened Wrappers
  import opened Text

  datatype Value =
    | VNone
    | VBool(b: bool)
    | VInt(i: int)
    | VFloat(x: real)
    | VStr(s: string)
    | VList(items: seq<Value>)
    | VDict(entries: map<string, Value>)

  type Dict = map<string, Value>

  /** Python's `bool(v)`. */
  predicate Truthy(v: Value)
  {
    match v
    case VNone => false
    case VBool(b) => b
    case VInt(i) => i != 0
    case VFloat(x) => x != 0.0
    case VStr(s) => s != ""
    case VList(items) => |items| > 0
    case VDict(entries) => |entries| > 0
  }

  /** `d.get(k, default)` */
  function Get(d: Dict, k: string, default: Value): (v: Value)
    ensures k in d ==> v == d[k]
    ensures k !in d ==> v == default
  {
    if k in d then d[k] else default
  }

  /**
   * Python's `str(v)`. Strings, ints, booleans and None are written out; for floats,
   * lists and dicts Python's own formatting is passed in as `repr`.
   */
  function Str(v: Value, repr: Value -> string): string
  {
    match v
    case VNone => "None"
    case VBool(b) => if b then "True" else "False"
    case VInt(i) => IntToString(i)
    case VStr(s) => s
    case _ => repr(v)
  }

  /** The number a bool, int or float stands for in Python's comparisons. */
  function NumValue(v: Value): Option<real>
  {
    match v
    case VBool(b) => Some(if b then 1.0 else 0.0)
    case VInt(i) => Some(i as real)
    case VFloat(x) => Some(x)
    case _ => None
  }

  /** Python's `a == b`: numbers by value (`1 == 1.0 == True`), lists item by item, dicts key by key. */
  predicate PyEq(a: Value, b: Value)
    decreases a
  {
    match a
    case VList(xs) => b.VList? && |xs| == |b.items| && forall i :: 0 <= i < |xs| ==> PyEq(xs[i], b.items[i])
    case VDict(m) => b.VDict? && m.Keys == b.entries.Keys && forall k :: k in m ==> PyEq(m[k], b.entries[k])
    case _ => if NumValue(a).Some? then NumValue(b) == NumValue(a) else a == b
  }

  /** `v in items` for a Python list: some item equals `v`. */
  predicate PyMember(v: Value, items: seq<Value>)
  {
    exists i :: 0 <= i < |items| && PyEq(v, items[i])
  }

  /** Python's equality is an equivalence that extends structural equality. */
  lemma {:induction false} PyEqRefl(a: Value)
    ensures PyEq(a, a)
    decreases a
  {
    match a
    case VList(xs) =>
      forall i | 0 <= i < |xs| ensures PyEq(xs[i], xs[i]) {
        PyEqRefl(xs[i]);
      }
    case VDict(m) =>
      forall k | k in m ensures PyEq(m[k], m[k]) {
        PyEqRefl(m[k]);
      }
    case _ =>
  }

  /** Members of a list are members in Python's sense; for strings and None the two agree. */
  lemma PyMemberProps(v: Value, items: seq<Value>)
    ensures v in items ==> PyMember(v, items)
    ensures (v.VStr? || v.VNone?) ==> (PyMember(v, items) <==> v in items)
    ensures PyMember(VInt(1), [VFloat(1.0)]) && PyMember(VBool(true), [VInt(1)]) && !PyMember(VStr("1"), [VInt(1)])
  {
    if v in items {
      var i :| 0 <= i < |items| && items[i] == v;
      PyEqRefl(v);
    }
    assert PyEq(VInt(1), [VFloat(1.0)][0]);
    assert PyEq(VBool(true), [VInt(1)][0]);
  }

  /** Python's `key in v`: a dict key, a substring, a list member; a TypeError for anything else. */
  function PyIn(key: string, v: Value): Result<bool>
  {
    match v
    case VDict(m) => Ok(key in m)
    case VStr(s) => Ok(Contains(s, key))
    case VList(items) => Ok(VStr(key) in items)
    case _ => Err("TypeError")
  }
}
