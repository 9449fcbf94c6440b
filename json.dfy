/** JSON values as the Python code sees them after `json.loads`: objects keep
    their fields in insertion order, as Python dicts do. Numbers are integers. */
module Json {
  import opened Wrappers
  import Strings

  datatype Json =
    | JNull
    | JBool(b: bool)
    | JNum(n: int)
    | JStr(s: string)
    | JArr(items: seq<Json>)
    | JObj(fields: seq<(string, Json)>)

  /** The keys of an object's fields, in order. */
  function Keys(fields: seq<(string, Json)>): (ks: seq<string>)
    ensures |ks| == |fields|
    ensures forall i :: 0 <= i < |fields| ==> ks[i] == fields[i].0
  {
    if fields == [] then [] else [fields[0].0] + Keys(fields[1..])
  }

  /** `d.get(key)`: the value stored under `key` (the first field of that name;
      Python dicts never hold two). */
  function Lookup(fields: seq<(string, Json)>, key: string): (r: Option<Json>)
    ensures r.None? <==> key !in Keys(fields)
    ensures r.Some? ==> (key, r.value) in fields
  {
    if fields == [] then None
    else if fields[0].0 == key then Some(fields[0].1)
    else Lookup(fields[1..], key)
  }

  /** `d.get(key)` on a value known to be an object, reading `None` (Python's
      missing value) for anything else. */
  function Get(j: Json, key: string): Option<Json>
  {
    if j.JObj? then Lookup(j.fields, key) else None
  }

  /** `d.get(key) is not None`: the key is present and its value is not JSON null. */
  predicate HasNonNull(j: Json, key: string)
  {
    var v := Get(j, key); v.Some? && v.value != JNull
  }

  /** Python's truth value of a decoded JSON value (`if x:`). */
  predicate Truthy(j: Json)
  {
    match j
    case JNull => false
    case JBool(b) => b
    case JNum(n) => n != 0
    case JStr(s) => s != ""
    case JArr(xs) => xs != []
    case JObj(fs) => fs != []
  }

  /** Values Python can put in a set: everything but lists and dicts. */
  predicate Hashable(j: Json)
  {
    !j.JArr? && !j.JObj?
  }

  /** Python's `str(x)` of a decoded JSON value. */
  function PyStr(j: Json): string
  {
    if j.JStr? then j.s else Repr(j)
  }

  /** Python's `repr` of a string: single quotes unless the text holds a single
      quote and no double quote. */
  function QuoteRepr(s: string): string
  {
    if '\'' in s && '"' !in s then "\"" + s + "\"" else "'" + s + "'"
  }

  /** Python's `repr(x)` of a decoded JSON value. */
  function Repr(j: Json): string
    decreases j, 1
  {
    match j
    case JNull => "None"
    case JBool(b) => if b then "True" else "False"
    case JNum(n) => Strings.IntToString(n)
    case JStr(s) => QuoteRepr(s)
    case JArr(xs) => "[" + ReprItems(j, 0) + "]"
    case JObj(fs) => "{" + ReprFields(j, 0) + "}"
  }

  function ReprItems(j: Json, i: nat): string
    requires j.JArr? && i <= |j.items|
    decreases j, 0, |j.items| - i
  {
    if i == |j.items| then ""
    else (if i == 0 then "" else ", ") + Repr(j.items[i]) + ReprItems(j, i + 1)
  }

  function ReprFields(j: Json, i: nat): string
    requires j.JObj? && i <= |j.fields|
    decreases j, 0, |j.fields| - i
  {
    if i == |j.fields| then ""
    else (if i == 0 then "" else ", ") + QuoteRepr(j.fields[i].0) + ": " + Repr(j.fields[i].1)
         + ReprFields(j, i + 1)
  }

  /** The dict comprehension `{k: v for k, v in d.items() if k != key}`. */
  function RemoveField(fields: seq<(string, Json)>, key: string): (r: seq<(string, Json)>)
    ensures forall k :: Lookup(r, k) == if k == key then None else Lookup(fields, k)
  {
    if fields == [] then []
    else if fields[0].0 == key then RemoveField(fields[1..], key)
    else [fields[0]] + RemoveField(fields[1..], key)
  }

  /** What `json.dumps(x, sort_keys=True)` depends on: objects as maps from key
      to value, so field order is forgotten; lists keep their order. */
  datatype Canonical =
    | CNull
    | CBool(b: bool)
    | CNum(n: int)
    | CStr(s: string)
    | CArr(items: seq<Canonical>)
    | CObj(m: map<string, Canonical>)

  function Canon(j: Json): Canonical
    decreases j, 1
  {
    match j
    case JNull => CNull
    case JBool(b) => CBool(b)
    case JNum(n) => CNum(n)
    case JStr(s) => CStr(s)
    case JArr(xs) => CArr(seq(|xs|, i requires 0 <= i < |xs| => Canon(xs[i])))
    case JObj(fs) => CObj(CanonFields(j, 0))
  }

  function CanonFields(j: Json, i: nat): map<string, Canonical>
    requires j.JObj? && i <= |j.fields|
    decreases j, 0, |j.fields| - i
  {
    if i == |j.fields| then map[]
    else CanonFields(j, i + 1)[j.fields[i].0 := Canon(j.fields[i].1)]
  }

  /** The canonical form of the value stored under `key`, if any. */
  function CanonLookup(fields: seq<(string, Json)>, key: string): Option<Canonical>
  {
    var v := Lookup(fields, key);
    if v.Some? then Some(Canon(v.value)) else None
  }

  /** The canonical map of an object holds exactly its keys, each with the
      canonical form of its value. */
  lemma {:induction false} CanonFieldsLookup(j: Json, i: nat, key: string)
    requires j.JObj? && i <= |j.fields|
    ensures key in CanonFields(j, i) <==> CanonLookup(j.fields[i..], key).Some?
    ensures key in CanonFields(j, i) ==> CanonFields(j, i)[key] == CanonLookup(j.fields[i..], key).value
    decreases |j.fields| - i
  {
    if i < |j.fields| {
      CanonFieldsLookup(j, i + 1, key);
      assert j.fields[i..][1..] == j.fields[i + 1..];
    }
  }

  /** Two objects have the same canonical form exactly when every key maps to
      values with the same canonical form: field order does not matter. */
  lemma CanonObjectIff(a: seq<(string, Json)>, b: seq<(string, Json)>)
    ensures Canon(JObj(a)) == Canon(JObj(b)) <==>
            forall k :: CanonLookup(a, k) == CanonLookup(b, k)
  {
    var ma, mb := CanonFields(JObj(a), 0), CanonFields(JObj(b), 0);
    assert a[0..] == a && b[0..] == b;
    if forall k :: CanonLookup(a, k) == CanonLookup(b, k) {
      forall k ensures (k in ma <==> k in mb) && (k in ma ==> ma[k] == mb[k]) {
        CanonFieldsLookup(JObj(a), 0, k);
        CanonFieldsLookup(JObj(b), 0, k);
      }
      assert ma == mb;
    }
    if ma == mb {
      forall k ensures CanonLookup(a, k) == CanonLookup(b, k) {
        CanonFieldsLookup(JObj(a), 0, k);
        CanonFieldsLookup(JObj(b), 0, k);
      }
    }
  }
}
