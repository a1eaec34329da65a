/**
 The values that travel between the ClouDNS client and its HTTP transport:
 the Python values a caller hands to an operation, the two shapes of
 parameter set (a dictionary or an ordered list of key/value pairs), and the
 decoded JSON of a response.
 */
module Wire {

  datatype Option<+T> = None | Some(value: T)

  /** A Python value as it appears in a parameter set: `None`, a boolean, an
      integer or a string. */
  datatype Value = VNone | VBool(b: bool) | VInt(i: int) | VStr(s: string)

  /** Python truthiness of a parameter value, as tested by `if x:` and
      `1 if x else 0`. */
  predicate Truthy(v: Value) {
    match v
    case VNone => false
    case VBool(b) => b
    case VInt(i) => i != 0
    case VStr(s) => |s| > 0
  }

  /** The `1 if flag else 0` encoding of a flag parameter. */
  function FlagValue(flag: Value): Value {
    VInt(if Truthy(flag) then 1 else 0)
  }

  /** Python truthiness of an optional list argument such as `ns` or
      `record_types` (`None` and `[]` are both false). */
  predicate ListTruthy(xs: Option<seq<Value>>) {
    xs.Some? && |xs.value| > 0
  }

  /** The elements of an optional list argument, `None` read as empty. */
  function Elements(xs: Option<seq<Value>>): seq<Value> {
    if xs.Some? then xs.value else []
  }

  type Pair = (string, Value)

  /** A parameter set: a dictionary, or a list of pairs in which a key such as
      `ns[]` may repeat. */
  datatype Params = Pairs(pairs: seq<Pair>) | Dict(entries: map<string, Value>)

  /** Python truthiness of a parameter set (`[] or {}` and `{} or {}` are
      both `{}`). */
  predicate ParamsTruthy(p: Params) {
    match p
    case Pairs(ps) => |ps| > 0
    case Dict(m) => |m| > 0
  }

  /** A JSON document as decoded from a response body. */
  datatype Json =
    | JNull
    | JBool(b: bool)
    | JNumber(n: int)
    | JString(s: string)
    | JArray(items: seq<Json>)
    | JObject(members: map<string, Json>)

  /** The number of pairs in `ps` whose key is `k`. */
  function KeyCount(ps: seq<Pair>, k: string): (n: nat)
    ensures n <= |ps|
    ensures n == 0 <==> forall i :: 0 <= i < |ps| ==> ps[i].0 != k
  {
    if ps == [] then 0
    else KeyCount(ps[..|ps| - 1], k) + (if ps[|ps| - 1].0 == k then 1 else 0)
  }

  /** A key held by exactly the pairs at positions `lo` to `hi - 1` occurs
      `hi - lo` times. */
  lemma {:induction false} KeyCountRange(ps: seq<Pair>, lo: nat, hi: nat, k: string)
    requires lo <= hi <= |ps|
    requires forall i :: 0 <= i < |ps| ==> (ps[i].0 == k <==> lo <= i < hi)
    ensures KeyCount(ps, k) == hi - lo
    decreases |ps|
  {
    if |ps| > 0 {
      var front := ps[..|ps| - 1];
      assert forall i :: 0 <= i < |front| ==> front[i] == ps[i];
      if |ps| > hi {
        KeyCountRange(front, lo, hi, k);
      } else if lo < hi {
        KeyCountRange(front, lo, hi - 1, k);
      }
    }
  }
}
