/**
  JSON values as the Python service sees them after `json.loads`, together with
  the few pieces of Python dictionary and string behaviour the adapter relies on:
  lookup (`d.get(k)`, `d[k]`), assignment (`d[k] = v`), truthiness, `str()` as used
  by f-strings, and the type names that appear in Python's exception messages.
*/
module Json {
  import opened Wrappers

  /** A JSON value. Objects keep their members in order, as Python dicts do. */
  datatype Json =
    | JNull
    | JBool(b: bool)
    | JInt(i: int)
    | JStr(s: string)
    | JArr(items: seq<Json>)
    | JObj(fields: seq<(string, Json)>)

  /** The members of a JSON object, in insertion order. */
  type Dict = seq<(string, Json)>

  /** The keys of a dictionary. */
  function Keys(d: Dict): set<string> {
    if d == [] then {} else {d[0].0} + Keys(d[1..])
  }

  /** `d.get(k)`: the value stored under `k`, or None when `k` is absent. */
  function Get(d: Dict, k: string): (r: Option<Json>)
    ensures r.Some? <==> k in Keys(d)
  {
    if d == [] then None
    else if d[0].0 == k then Some(d[0].1)
    else Get(d[1..], k)
  }

  /** The value `d.get(k)` finds is the one stored with the first member whose key is `k`. */
  lemma {:induction false} GetFindsFirst(d: Dict, k: string)
    requires k in Keys(d)
    ensures exists i :: 0 <= i < |d| && d[i] == (k, Get(d, k).value) && forall j :: 0 <= j < i ==> d[j].0 != k
  {
    if d[0].0 != k {
      GetFindsFirst(d[1..], k);
      var i :| 0 <= i < |d[1..]| && d[1..][i] == (k, Get(d, k).value) && forall j :: 0 <= j < i ==> d[1..][j].0 != k;
      assert d[i + 1] == (k, Get(d, k).value);
      forall j | 0 <= j < i + 1 ensures d[j].0 != k {
        if j > 0 { assert d[j] == d[1..][j - 1]; }
      }
    } else {
      assert d[0] == (k, Get(d, k).value);
    }
  }

  /**
    `d[k] = v`: a key already present keeps its position and takes the new value;
    a new key is appended at the end.
  */
  function Put(d: Dict, k: string, v: Json): (r: Dict)
    ensures Get(r, k) == Some(v)
    ensures forall k' :: k' != k ==> Get(r, k') == Get(d, k')
    ensures Keys(r) == Keys(d) + {k}
    ensures k in Keys(d) ==> |r| == |d| && forall i :: 0 <= i < |d| ==> r[i].0 == d[i].0
    ensures k !in Keys(d) ==> r == d + [(k, v)]
  {
    if d == [] then [(k, v)]
    else if d[0].0 == k then [(k, v)] + d[1..]
    else [d[0]] + Put(d[1..], k, v)
  }

  /** One step of lookup in a non-empty dictionary: its first member, then the rest. */
  lemma Unfold(d: Dict)
    requires d != []
    ensures Keys(d) == {d[0].0} + Keys(d[1..])
    ensures forall x :: Get(d, x) == if x == d[0].0 then Some(d[0].1) else Get(d[1..], x)
  {
  }

  /** Python truthiness of a JSON value: null, false, 0, "", [] and {} are false. */
  function Truthy(j: Json): (b: bool)
    ensures b <==> j != JNull && j != JBool(false) && j != JInt(0) && j != JStr("") && j != JArr([]) && j != JObj([])
  {
    match j
    case JNull => false
    case JBool(b) => b
    case JInt(i) => i != 0
    case JStr(s) => s != ""
    case JArr(items) => items != []
    case JObj(fields) => fields != []
  }

  /** The name of the Python type `json.loads` produces for a value. */
  function TypeName(j: Json): string {
    match j
    case JNull => "NoneType"
    case JBool(_) => "bool"
    case JInt(_) => "int"
    case JStr(_) => "str"
    case JArr(_) => "list"
    case JObj(_) => "dict"
  }

  /** The message of the AttributeError raised by `x.get(...)` on a value that is not a dict. */
  function NoGetMessage(typeName: string): string {
    "'" + typeName + "' object has no attribute 'get'"
  }

  /** Decimal digits of a natural number. */
  function NatText(n: nat): (r: string)
    ensures |r| >= 1
    ensures forall c :: c in r ==> '0' <= c <= '9'
  {
    if n < 10 then ["0123456789"[n]]
    else NatText(n / 10) + ["0123456789"[n % 10]]
  }

  /** Whether a string is a non-empty run of decimal digits. */
  predicate Digits(s: string) {
    |s| >= 1 && forall i :: 0 <= i < |s| ==> '0' <= s[i] <= '9'
  }

  /** The number a run of decimal digits spells, most significant digit first. */
  function DigitsValue(s: string): nat
    requires Digits(s)
    decreases |s|
  {
    var last := (s[|s| - 1] as int - '0' as int) as nat;
    if |s| == 1 then last
    else DigitsValue(s[..|s| - 1]) * 10 + last
  }

  /** `"0123456789"[d]` is the digit whose value is `d`. */
  lemma DigitOf(d: nat)
    requires d < 10
    ensures "0123456789"[d] as int - '0' as int == d
  {
  }

  /** The digits of `str(n)` spell `n`. */
  lemma {:induction false} NatTextValue(n: nat)
    ensures Digits(NatText(n)) && DigitsValue(NatText(n)) == n
    decreases n
  {
    var s := NatText(n);
    assert Digits(s) by {
      forall i | 0 <= i < |s| ensures '0' <= s[i] <= '9' {
        assert s[i] in s;
      }
    }
    if n < 10 {
      DigitOf(n);
    } else {
      NatTextValue(n / 10);
      DigitOf(n % 10);
      assert s[..|s| - 1] == NatText(n / 10);
      assert s[|s| - 1] == "0123456789"[n % 10];
    }
  }

  /** `str(i)` for an int. */
  function IntText(i: int): string {
    if i < 0 then "-" + NatText(-i) else NatText(i)
  }

  /** Comma-separated concatenation, as in Python's `", ".join(parts)`. */
  function Join(parts: seq<string>): string {
    if parts == [] then ""
    else if |parts| == 1 then parts[0]
    else parts[0] + ", " + Join(parts[1..])
  }

  /** `repr(j)` for the parsed value (strings are quoted but not escaped). */
  function Repr(j: Json): string
    decreases j
  {
    match j
    case JNull => "None"
    case JBool(b) => if b then "True" else "False"
    case JInt(i) => IntText(i)
    case JStr(s) => "'" + s + "'"
    case JArr(items) =>
      "[" + Join(seq(|items|, n requires 0 <= n < |items| => Repr(items[n]))) + "]"
    case JObj(fields) =>
      "{" + Join(seq(|fields|, n requires 0 <= n < |fields| =>
                       "'" + fields[n].0 + "': " + Repr(fields[n].1))) + "}"
  }

  /** `str(j)`, which is what an f-string interpolates: a string is inserted as it is. */
  function Str(j: Json): (r: string)
    ensures j.JStr? ==> r == j.s
    ensures j.JInt? ==> r == IntText(j.i)
    ensures j.JNull? ==> r == "None"
    ensures j.JBool? ==> r == if j.b then "True" else "False"
  {
    match j
    case JStr(s) => s
    case _ => Repr(j)
  }
}
