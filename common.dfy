/** Values shared by every module: an Option type, the dynamically typed
    values that Python property dictionaries hold, and Python's truthiness
    and `str()` on them. */
module Common {

  datatype Option<+T> = None | Some(value: T) {
    function GetOr(default: T): T {
      match this
      case Some(v) => v
      case None => default
    }
  }

  /** A value stored in a property dictionary (graph properties, vector-store
      metadata). Floats and booleans are not modelled. */
  datatype Value = VNull | VInt(i: int) | VStr(s: string) | VList(items: seq<string>)

  type Props = map<string, Value>

  /** Python truthiness of a stored value: None, 0, "" and [] are falsy. */
  predicate Truthy(v: Value) {
    match v
    case VNull => false
    case VInt(i) => i != 0
    case VStr(s) => s != ""
    case VList(items) => items != []
  }

  /** `d.get(key)`: a missing key reads as None. */
  function Get(d: Props, key: string): (r: Value)
    ensures key !in d ==> r == VNull
    ensures key in d ==> r == d[key]
  {
    if key in d then d[key] else VNull
  }

  /** `d.get(key, default)` */
  function GetOr(d: Props, key: string, default: Value): (r: Value)
    ensures key !in d ==> r == default
    ensures key in d ==> r == d[key]
  {
    if key in d then d[key] else default
  }

  /** `d.get(key) or other`: the first operand when it is truthy. */
  function OrElse(a: Value, b: Value): Value {
    if Truthy(a) then a else b
  }

  function DigitChar(d: nat): char
    requires d < 10
  {
    "0123456789"[d]
  }

  function NatToString(n: nat): (r: string)
    ensures r != []
    decreases n
  {
    if n < 10 then [DigitChar(n)] else NatToString(n / 10) + [DigitChar(n % 10)]
  }

  function IntToString(i: int): string {
    if i < 0 then "-" + NatToString(-i) else NatToString(i)
  }

  function QuoteAll(items: seq<string>): string {
    if items == [] then ""
    else if |items| == 1 then "'" + items[0] + "'"
    else "'" + items[0] + "', " + QuoteAll(items[1..])
  }

  /** Python's `str()` of a stored value (string escaping inside a list's
      repr is not modelled). */
  function PyStr(v: Value): string {
    match v
    case VNull => "None"
    case VInt(i) => IntToString(i)
    case VStr(s) => s
    case VList(items) => "[" + QuoteAll(items) + "]"
  }

  /** Iterating a value as a list of items: a list yields its elements,
      a string its characters; other values are treated as empty. */
  function AsItems(v: Value): seq<string> {
    match v
    case VList(items) => items
    case VStr(s) => seq(|s|, i requires 0 <= i < |s| => [s[i]])
    case _ => []
  }

  predicate NoDuplicates<T(==)>(s: seq<T>) {
    forall i, j :: 0 <= i < j < |s| ==> s[i] != s[j]
  }

  /** A sequence without repeats has as many elements as its set. */
  lemma {:induction false} DistinctCardinality<T>(s: seq<T>)
    requires NoDuplicates(s)
    ensures |set x | x in s| == |s|
  {
    if s != [] {
      var init := s[..|s| - 1];
      var last := s[|s| - 1];
      assert s == init + [last];
      DistinctCardinality(init);
      assert last !in init by {
        forall i | 0 <= i < |init| ensures init[i] != last {
          assert init[i] == s[i];
        }
      }
      assert (set x | x in s) == (set x | x in init) + {last};
    }
  }

  /** The distinct elements of `s`, each at its first occurrence. */
  function Dedup<T(==,!new)>(s: seq<T>): (r: seq<T>)
    ensures forall x :: x in r <==> x in s
    ensures NoDuplicates(r)
    ensures |r| <= |s|
  {
    if s == [] then []
    else
      var init := s[..|s| - 1];
      var last := s[|s| - 1];
      assert s == init + [last];
      var d := Dedup(init);
      if last in init then d else d + [last]
  }

  /** Concatenation regroups freely. A proof step for the lemmas about
      joined strings; it models nothing of the program. */
  lemma AppendAssoc<T>(a: seq<T>, b: seq<T>, c: seq<T>)
    ensures a + b + c == a + (b + c)
  {
  }

  /** A dictionary's values in its insertion order, the dictionary being
      a map together with its keys in the order they were inserted. */
  function ValuesInOrder<K, V>(m: map<K, V>, order: seq<K>): (r: seq<V>)
    requires forall k :: k in order ==> k in m
    ensures |r| == |order| && forall i :: 0 <= i < |order| ==> r[i] == m[order[i]]
  {
    seq(|order|, i requires 0 <= i < |order| => m[order[i]])
  }

  /** Inserting a new key appends its value. */
  lemma ValuesInOrderAppend<K, V>(m: map<K, V>, order: seq<K>, k: K, v: V)
    requires forall x :: x in order ==> x in m
    requires k !in order
    ensures ValuesInOrder(m[k := v], order + [k]) == ValuesInOrder(m, order) + [v]
  {
  }
}
