/** Python values as they travel through the system: event records, request
    bodies and the metadata maps built by the detectors and the dispatcher. */
module PyValues {

  datatype Option<T> = None | Some(value: T)

  /** A Python value that can appear in an event record or a JSON body.
      Tuples are represented as lists: the only tuple the core builds
      (a cursor position) is serialised as a JSON array like a list. */
  datatype Value =
    | VNone
    | VBool(b: bool)
    | VInt(i: int)
    | VFloat(f: real)
    | VStr(s: string)
    | VList(items: seq<Value>)
    | VDict(entries: map<string, Value>)

  /** A Python dict with string keys. */
  type Dict = map<string, Value>

  /** Events are plain dicts. */
  type Event = Dict

  /** Python's `bool(v)`. */
  predicate Truthy(v: Value) {
    match v
    case VNone => false
    case VBool(b) => b
    case VInt(i) => i != 0
    case VFloat(f) => f != 0.0
    case VStr(s) => s != ""
    case VList(xs) => xs != []
    case VDict(d) => d != map[]
  }

  /** `d.get(k, default)`. */
  function Get(d: Dict, k: string, default: Value): Value {
    if k in d then d[k] else default
  }

  /** `d.setdefault(k, v)`, seen as the resulting dict: an existing value is
      kept, an absent key is added with `v`, and nothing else changes. */
  function SetDefault(d: Dict, k: string, v: Value): (r: Dict)
    ensures r.Keys == d.Keys + {k}
    ensures r[k] == (if k in d then d[k] else v)
    ensures forall j :: j in d ==> r[j] == d[j]
  {
    if k in d then d else d[k := v]
  }

  function Min(a: int, b: int): int {
    if a <= b then a else b
  }

  /** The start index Python uses for the slice `s[k:]` of a sequence of
      length `len`: a negative `k` counts from the end, and both ends clamp. */
  function SliceStart(len: nat, k: int): (i: nat)
    ensures i <= len
    ensures 0 <= k ==> i == Min(k, len)
    ensures k < 0 ==> i == (if len + k < 0 then 0 else len + k)
  {
    if k < 0 then (if len + k < 0 then 0 else len + k)
    else if k > len then len
    else k
  }

  /** Python's `s[k:]`. */
  function SliceFrom<T>(s: seq<T>, k: int): seq<T> {
    s[SliceStart(|s|, k)..]
  }

  ghost predicate IsSuffix<T>(a: seq<T>, b: seq<T>) {
    |a| <= |b| && a == b[|b| - |a|..]
  }
}
