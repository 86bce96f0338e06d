/**
 * Decoded JSON as the Python code sees it, the few built-ins the clients apply to it
 * (`dict.get`, `len`, `isinstance`, iteration) and the stand-in for `json.dumps`.
 */
module Json {
  import opened Wrappers

  /** `None`, `bool`, `int`, `str`, `list` and `dict` values decoded from JSON. */
  datatype Json =
    | JNull
    | JBool(b: bool)
    | JInt(i: int)
    | JStr(s: string)
    | JArr(items: seq<Json>)
    | JObj(fields: map<string, Json>)

  /** The text `json.dumps(value)` produces; the encoding itself is not modelled. */
  datatype JsonText = Dumps(value: Json)

  /** `d.get(key, default)`: the default is used only when the key is absent. */
  function GetOr(d: Json, key: string, default: Json): Json
    requires d.JObj?
  {
    if key in d.fields then d.fields[key] else default
  }

  /** `d.get(key)` */
  function Get(d: Json, key: string): Json
    requires d.JObj?
  {
    GetOr(d, key, JNull)
  }

  /** `isinstance(j, int)`, which in Python also holds for `True` and `False`. */
  predicate IsInstanceInt(j: Json) {
    j.JInt? || j.JBool?
  }

  /** `len(j)`; None where Python raises TypeError. */
  function Len(j: Json): Option<nat> {
    match j
    case JStr(s) => Some(|s|)
    case JArr(items) => Some(|items|)
    case JObj(fields) => Some(|fields|)
    case _ => None
  }

  /** The strings of a list, or None when one of its elements is not a string. */
  function StringsOf(items: seq<Json>): (r: Option<seq<string>>)
    ensures r.Some? <==> forall i :: 0 <= i < |items| ==> items[i].JStr?
    ensures r.Some? ==> |r.value| == |items| && forall i :: 0 <= i < |items| ==> r.value[i] == items[i].s
    decreases |items|
  {
    if |items| == 0 then Some([])
    else match StringsOf(items[1..])
      case None => None
      case Some(rest) => if items[0].JStr? then Some([items[0].s] + rest) else None
  }

  /**
   * `[m for m in j]` where every `m` must then be a string: the elements of a list, or the
   * one-character strings of a string. None where Python fails (a non-iterable value, a
   * non-string element) and for a dict, whose keys come in insertion order, which a map does not keep.
   */
  function IterStrings(j: Json): (r: Option<seq<string>>)
    ensures j.JStr? ==> r.Some? && |r.value| == |j.s| && forall i :: 0 <= i < |j.s| ==> r.value[i] == [j.s[i]]
    ensures j.JArr? ==> r == StringsOf(j.items)
    ensures r.Some? ==> j.JStr? || j.JArr?
  {
    match j
    case JArr(items) => StringsOf(items)
    case JStr(s) => Some(seq(|s|, i requires 0 <= i < |s| => [s[i]]))
    case _ => None
  }

  /** `d` after `if v is not None: d[key] = v` */
  function PutIfPresent(d: map<string, Json>, key: string, v: Json): map<string, Json> {
    if v == JNull then d else d[key := v]
  }

  /** `if v is not None: d[key] = v` on the dict `d`; every other key keeps its entry. */
  method SetIfPresent(d: map<string, Json>, key: string, v: Json) returns (r: map<string, Json>)
    ensures r == PutIfPresent(d, key, v)
    ensures key in r <==> key in d || v != JNull
    ensures r.Keys <= d.Keys + {key}
  {
    r := d;
    if v != JNull {
      r := r[key := v];
    }
  }

  /** `d` after `if v is not None: d[key] = v` for each `(key, v)` of `entries`, in order. */
  function WithOptionals(d: map<string, Json>, entries: seq<(string, Json)>): map<string, Json>
    decreases |entries|
  {
    if |entries| == 0 then d
    else WithOptionals(PutIfPresent(d, entries[0].0, entries[0].1), entries[1..])
  }

  /** The keys of `entries`, none of them already in `d`, and no key twice. */
  predicate FreshKeys(d: map<string, Json>, entries: seq<(string, Json)>) {
    && (forall i :: 0 <= i < |entries| ==> entries[i].0 !in d)
    && (forall i, j :: 0 <= i < j < |entries| ==> entries[i].0 != entries[j].0)
  }

  /**
   * The conditional insertions keep what `d` holds, add each entry exactly when its value is not
   * None, with that value, and add nothing else.
   */
  lemma {:induction false} WithOptionalsLookup(d: map<string, Json>, entries: seq<(string, Json)>)
    requires FreshKeys(d, entries)
    ensures var r := WithOptionals(d, entries);
            && (forall k :: k in d ==> k in r && r[k] == d[k])
            && (forall i :: 0 <= i < |entries| ==> (entries[i].0 in r <==> entries[i].1 != JNull))
            && (forall i :: 0 <= i < |entries| && entries[i].1 != JNull ==> r[entries[i].0] == entries[i].1)
            && (forall k :: k in r ==> k in d || exists i :: 0 <= i < |entries| && entries[i].0 == k)
    decreases |entries|
  {
    if |entries| > 0 {
      var (key, v) := entries[0];
      var next := PutIfPresent(d, key, v);
      var rest := entries[1..];
      assert FreshKeys(next, rest) by {
        forall i | 0 <= i < |rest| ensures rest[i].0 !in next {
          assert rest[i] == entries[i + 1];
        }
        forall i, j | 0 <= i < j < |rest| ensures rest[i].0 != rest[j].0 {
          assert rest[i] == entries[i + 1] && rest[j] == entries[j + 1];
        }
      }
      WithOptionalsLookup(next, rest);
      var r := WithOptionals(d, entries);
      forall i | 0 < i < |entries|
        ensures (entries[i].0 in r <==> entries[i].1 != JNull)
        ensures entries[i].1 != JNull ==> r[entries[i].0] == entries[i].1
      {
        assert entries[i] == rest[i - 1];
      }
      forall k | k in r ensures k in d || exists i :: 0 <= i < |entries| && entries[i].0 == k {
        if k !in d && k != key {
          assert k !in next;
          var i :| 0 <= i < |rest| && rest[i].0 == k;
          assert entries[i + 1].0 == k;
        }
      }
    }
  }
}
