/**
 * The JSON values the model's responses decode to (`json.loads` output),
 * and the Python dict operations the agent applies to decoded objects.
 * An object is its list of (key, value) pairs in insertion order; the
 * objects `json.loads` produces have distinct keys.
 */
module Json {

  datatype Option<T> = None | Some(value: T)

  datatype Value =
    | Null
    | Bool(b: bool)
    | Num(n: int)
    | Str(s: string)
    | Arr(items: seq<Value>)
    | Obj(fields: seq<(string, Value)>)

  type Fields = seq<(string, Value)>

  /** `k in d` for a dict. */
  predicate HasKey(d: Fields, k: string) {
    exists j :: 0 <= j < |d| && d[j].0 == k
  }

  /** `d.get(k)`: the value stored under `k`. */
  function Get(d: Fields, k: string): (r: Option<Value>)
    ensures r.Some? <==> HasKey(d, k)
    ensures r.Some? ==> (k, r.value) in d
    decreases |d|
  {
    if d == [] then None
    else if d[0].0 == k then Some(d[0].1)
    else
      TailHasKey(d, k);
      Get(d[1..], k)
  }

  lemma TailHasKey(d: Fields, k: string)
    requires d != [] && d[0].0 != k
    ensures HasKey(d, k) <==> HasKey(d[1..], k)
  {
    if HasKey(d, k) {
      var j :| 0 <= j < |d| && d[j].0 == k;
      assert d[1..][j - 1].0 == k;
    }
    if HasKey(d[1..], k) {
      var j :| 0 <= j < |d[1..]| && d[1..][j].0 == k;
      assert d[j + 1].0 == k;
    }
  }

  /**
   * `d[k] = v`: replaces the value in place when `k` is present, otherwise
   * appends the pair at the end.
   */
  function SetField(d: Fields, k: string, v: Value): (r: Fields)
    ensures Get(r, k) == Some(v)
    ensures forall k' :: k' != k ==> Get(r, k') == Get(d, k')
    ensures !HasKey(d, k) ==> r == d + [(k, v)]
    decreases |d|
  {
    if d == [] then [(k, v)]
    else if d[0].0 == k then [(k, v)] + d[1..]
    else
      TailHasKey(d, k);
      [d[0]] + SetField(d[1..], k, v)
  }
}
