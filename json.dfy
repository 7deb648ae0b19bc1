/** Parsed JSON documents as the Python code sees them after `json.loads` /
    `ujson.loads`, and the few Python operations applied to them: `d[k]`,
    `k in d.keys()`, `list(d.keys())[0]`, iteration, `str(v)` and `int(v)`. */
module Json {
  import opened Wrappers
  import opened Text

  /** An object keeps its members in document order; `Get` follows the dict
      that `json.loads` builds (a repeated key keeps its last value). */
  datatype Json =
    | Null
    | Bool(b: bool)
    | Int(i: int)
    | Str(s: string)
    | Arr(items: seq<Json>)
    | Obj(fields: seq<(string, Json)>)

  predicate HasField(fields: seq<(string, Json)>, k: string)
  {
    exists i :: 0 <= i < |fields| && fields[i].0 == k
  }

  /** The value of the last member named `k`. */
  function LastValue(fields: seq<(string, Json)>, k: string): (r: Option<Json>)
    ensures r.Some? <==> HasField(fields, k)
    ensures r.Some? ==> exists i :: 0 <= i < |fields| && fields[i] == (k, r.value) &&
                                    forall j :: i < j < |fields| ==> fields[j].0 != k
    decreases |fields|
  {
    if fields == [] then None
    else if fields[|fields| - 1].0 == k then Some(fields[|fields| - 1].1)
    else
      var r := LastValue(fields[..|fields| - 1], k);
      assert HasField(fields, k) ==> HasField(fields[..|fields| - 1], k) by {
        if HasField(fields, k) {
          var i :| 0 <= i < |fields| && fields[i].0 == k;
          assert i < |fields| - 1 && fields[..|fields| - 1][i].0 == k;
        }
      }
      r
  }

  /** `v[k]` on a parsed document: `None` where Python raises (a missing key,
      or `v` not a dict). */
  function Get(v: Json, k: string): (r: Option<Json>)
    ensures r.Some? <==> v.Obj? && HasField(v.fields, k)
  {
    if v.Obj? then LastValue(v.fields, k) else None
  }

  /** `k in v.keys()` */
  predicate HasKey(v: Json, k: string)
  {
    v.Obj? && HasField(v.fields, k)
  }

  /** `list(v.keys())[0]`: `None` where Python raises (not a dict, or empty). */
  function FirstKey(v: Json): Option<string>
  {
    if v.Obj? && |v.fields| > 0 then Some(v.fields[0].0) else None
  }

  /** The distinct member names in order of first appearance: `list(d.keys())`. */
  function Keys(fields: seq<(string, Json)>): (r: seq<string>)
    ensures forall k :: k in r <==> HasField(fields, k)
    decreases |fields|
  {
    if fields == [] then []
    else
      var ks := Keys(fields[..|fields| - 1]);
      var k := fields[|fields| - 1].0;
      assert forall k' :: HasField(fields, k') <==> HasField(fields[..|fields| - 1], k') || k' == k by {
        forall k' | HasField(fields, k')
          ensures HasField(fields[..|fields| - 1], k') || k' == k
        {
          var i :| 0 <= i < |fields| && fields[i].0 == k';
          if i < |fields| - 1 {
            assert fields[..|fields| - 1][i].0 == k';
          }
        }
        forall k' | HasField(fields[..|fields| - 1], k')
          ensures HasField(fields, k')
        {
          var i :| 0 <= i < |fields| - 1 && fields[..|fields| - 1][i].0 == k';
          assert fields[i].0 == k';
        }
      }
      if k in ks then ks else ks + [k]
  }

  /** `for x in v`: a list yields its items, a dict its keys, a string its
      characters; `None` where Python raises TypeError (None, bools, numbers). */
  function Iterate(v: Json): Option<seq<Json>>
  {
    match v
    case Arr(items) => Some(items)
    case Obj(fields) =>
      var ks := Keys(fields);
      Some(seq(|ks|, i requires 0 <= i < |ks| => Str(ks[i])))
    case Str(s) => Some(seq(|s|, i requires 0 <= i < |s| => Str([s[i]])))
    case _ => None
  }

  /** `str(v)`: the text Python prints for a parsed value. */
  function PyStr(v: Json): string
    decreases v, 0
  {
    match v
    case Null => "None"
    case Bool(b) => if b then "True" else "False"
    case Int(i) => IntToDecimal(i)
    case Str(s) => s
    case Arr(items) =>
      "[" + Join(", ", seq(|items|, i requires 0 <= i < |items| => PyRepr(items[i]))) + "]"
    case Obj(fields) =>
      "{" + Join(", ", seq(|fields|, i requires 0 <= i < |fields| =>
                             "'" + fields[i].0 + "': " + PyRepr(fields[i].1))) + "}"
  }

  /** `repr(v)` as used inside containers: strings are quoted. */
  function PyRepr(v: Json): string
    decreases v, 1
  {
    if v.Str? then "'" + v.s + "'" else PyStr(v)
  }

  /** `int(v)`: `None` where Python raises (None, containers, non-numeric text). */
  function PyInt(v: Json): Option<int>
  {
    match v
    case Int(i) => Some(i)
    case Bool(b) => Some(if b then 1 else 0)
    case Str(s) => ParseInt(s)
    case _ => None
  }
}
