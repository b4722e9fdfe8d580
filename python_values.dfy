/** The slice of Python's value semantics that the option checks depend on:
    which values are None, their truth value, `<` on numbers (bool is a
    subclass of int), `str.upper()`, and what a `for` loop iterates over. */
module PyValues {
  import opened Outcomes

  /** A value as the option checks see it: produced by click or read from a
      parsed TOML table. Tuples only come from click (`multiple=True`). */
  datatype Value =
    | PyNone
    | PyBool(b: bool)
    | PyInt(i: int)
    | PyStr(s: string)
    | PyList(items: seq<Value>)
    | PyTuple(elems: seq<Value>)

  /** Python's truth value (`if v:`). */
  predicate Truthy(v: Value) {
    match v
    case PyNone => false
    case PyBool(b) => b
    case PyInt(i) => i != 0
    case PyStr(s) => s != ""
    case PyList(xs) => xs != []
    case PyTuple(xs) => xs != []
  }

  /** The integer a value stands for in `v < 1`, or None when Python
      raises TypeError for that comparison. */
  function AsNumber(v: Value): (r: Option<int>)
    ensures r.Some? <==> v.PyInt? || v.PyBool?
    ensures v.PyBool? ==> r == Some(if v.b then 1 else 0)
    ensures v.PyInt? ==> r == Some(v.i)
  {
    match v
    case PyInt(i) => Some(i)
    case PyBool(b) => Some(if b then 1 else 0)
    case _ => None
  }

  function UpperChar(c: char): (u: char)
    ensures 'a' <= c <= 'z' ==> 'A' <= u <= 'Z' && u as int - c as int == 'A' as int - 'a' as int
    ensures !('a' <= c <= 'z') ==> u == c
  {
    if 'a' <= c <= 'z' then (c as int - 'a' as int + 'A' as int) as char else c
  }

  /** `s.upper()` restricted to ASCII letters. */
  function Upper(s: string): (u: string)
    ensures |u| == |s|
    ensures forall k :: 0 <= k < |s| ==> u[k] == UpperChar(s[k])
  {
    seq(|s|, k requires 0 <= k < |s| => UpperChar(s[k]))
  }

  /** What `for i in v` visits: the characters of a string (as one-character
      strings), the items of a list or tuple; None when `v` is not iterable. */
  function Iterate(v: Value): (r: Option<seq<Value>>)
    ensures r.Some? <==> v.PyStr? || v.PyList? || v.PyTuple?
    ensures v.PyStr? ==> |r.value| == |v.s| && forall k :: 0 <= k < |v.s| ==> r.value[k] == PyStr([v.s[k]])
    ensures v.PyList? ==> r.value == v.items
    ensures v.PyTuple? ==> r.value == v.elems
  {
    match v
    case PyStr(s) => Some(seq(|s|, k requires 0 <= k < |s| => PyStr([s[k]])))
    case PyList(xs) => Some(xs)
    case PyTuple(xs) => Some(xs)
    case _ => None
  }
}
