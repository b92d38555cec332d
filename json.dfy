/**
 * A JSON-like tree: the parsed `data` of a log entry, the `payment_info`
 * blob of an order and the content of every export file. Objects keep
 * their members in order, as Python dictionaries do; JSON text encoding
 * is not modelled.
 */
module Json {
  import opened Wrappers

  datatype Json =
    | JNull
    | JBool(b: bool)
    | JInt(i: int)
    | JStr(s: string)
    | JArr(items: seq<Json>)
    | JObj(members: seq<Member>)

  datatype Member = Member(key: string, value: Json)

  /** The redaction marker: the single character U+2588 (FULL BLOCK). */
  const Marker: string := "\U{2588}"

  const Redacted: Json := JStr(Marker)

  /** Index of the first member named `k`, or -1 when there is none. */
  function Find(ms: seq<Member>, k: string): (r: int)
    ensures -1 <= r < |ms|
    ensures r >= 0 ==> ms[r].key == k && forall i :: 0 <= i < r ==> ms[i].key != k
    ensures r < 0 ==> forall i :: 0 <= i < |ms| ==> ms[i].key != k
  {
    if ms == [] then -1
    else if ms[0].key == k then 0
    else
      var r := Find(ms[1..], k);
      if r < 0 then -1 else r + 1
  }

  /** Python's `d.get(k)` on a dictionary read from JSON. */
  function Get(ms: seq<Member>, k: string): Option<Json> {
    var i := Find(ms, k);
    if i < 0 then None else Some(ms[i].value)
  }

  /** Two member lists with the same key at every index find every key at the same index. */
  lemma FindSameKeys(ms: seq<Member>, ns: seq<Member>, k: string)
    requires |ms| == |ns|
    requires forall i :: 0 <= i < |ms| ==> ms[i].key == ns[i].key
    ensures Find(ms, k) == Find(ns, k)
  {
  }

  /** No two members share a key, as in any object decoded from JSON text. */
  predicate UniqueKeys(ms: seq<Member>) {
    forall i, j :: 0 <= i < j < |ms| ==> ms[i].key != ms[j].key
  }

  /** `t` is one of the string values (not keys) of the tree. */
  predicate Occurs(t: string, j: Json)
    decreases j
  {
    match j
    case JStr(s) => s == t
    case JArr(items) => exists i :: 0 <= i < |items| && Occurs(t, items[i])
    case JObj(ms) => exists i :: 0 <= i < |ms| && Occurs(t, ms[i].value)
    case _ => false
  }

  /** Neither a key nor a string value of the tree contains `c`. */
  predicate NoCharAnywhere(j: Json, c: char)
    decreases j
  {
    match j
    case JStr(s) => c !in s
    case JArr(items) => forall i :: 0 <= i < |items| ==> NoCharAnywhere(items[i], c)
    case JObj(ms) => forall i :: 0 <= i < |ms| ==> c !in ms[i].key && NoCharAnywhere(ms[i].value, c)
    case _ => true
  }
}
