/** Small value wrappers shared by every module of the model. */
module Base {

  /** Python's `None`-or-value. */
  datatype Option<T> = None | Some(value: T)

  /** A value, or the exception the source would raise instead. */
  datatype Result<T, E> = Ok(value: T) | Err(error: E)

  /** Python's `KeyError` on a dictionary read. */
  datatype KeyError = KeyError(key: string)

  /** A Python dict literal from strings to strings: its entries in insertion order. */
  type Dict = seq<(string, string)>

  /** `list(d.keys())`: the keys in insertion order. */
  function Keys(d: Dict): (ks: seq<string>)
    ensures |ks| == |d|
    ensures forall i :: 0 <= i < |d| ==> ks[i] == d[i].0
  {
    seq(|d|, i requires 0 <= i < |d| => d[i].0)
  }

  /** `d.get(key)`: the value of the first entry with that key, None when there is none. */
  function Get(d: Dict, key: string): (r: Option<string>)
    ensures r.None? <==> key !in Keys(d)
    ensures r.Some? ==> (key, r.value) in d
  {
    if d == [] then None
    else if d[0].0 == key then Some(d[0].1)
    else
      assert Keys(d) == [d[0].0] + Keys(d[1..]);
      Get(d[1..], key)
  }

  /** The entry found by `Get` is the first one carrying the key. */
  lemma {:induction false} GetFindsFirst(d: Dict, key: string, i: nat)
    requires i < |d| && d[i].0 == key
    requires forall j :: 0 <= j < i ==> d[j].0 != key
    ensures Get(d, key) == Some(d[i].1)
  {
    if i > 0 {
      GetFindsFirst(d[1..], key, i - 1);
    }
  }
}

