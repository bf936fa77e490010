/** Python values and insertion-ordered Python dictionaries, as the entity adapters
    build and read them: attribute updates handed to `set_state`, `**kwargs` of the
    platform commands and the payloads handed to the device's `write`. */
module Dicts {

  datatype Option<T> = None | Some(value: T)

  /** A Python value. `Null` is Python's `None`. Floats (transition durations) and
      other values the adapters pass along without looking inside are `Opaque`: only
      an identity and their Python truthiness are kept. */
  datatype Value = Null | Bool(b: bool) | Int(i: int) | Str(s: string) | Opaque(id: int, truthy: bool)

  /** Python's `bool(v)`: `None`, `False`, `0` and `""` are false, every other
      built-in value is true, and an opaque value keeps its own truthiness. */
  function Truthy(v: Value): (r: bool)
    ensures v.Opaque? ==> r == v.truthy
    ensures !v.Opaque? ==> (!r <==> v in {Null, Bool(false), Int(0), Str("")})
  {
    match v
    case Null => false
    case Bool(b) => b
    case Int(i) => i != 0
    case Str(s) => s != ""
    case Opaque(_, t) => t
  }

  /** A dictionary in insertion order. */
  type Dict = seq<(string, Value)>

  function Keys(d: Dict): seq<string> {
    seq(|d|, i requires 0 <= i < |d| => d[i].0)
  }

  lemma KeysAppend(a: Dict, b: Dict)
    ensures Keys(a + b) == Keys(a) + Keys(b)
  {
    assert forall i :: 0 <= i < |a + b| ==> Keys(a + b)[i] == (Keys(a) + Keys(b))[i];
  }

  /** `k in d` */
  predicate Has(d: Dict, k: string) {
    exists i :: 0 <= i < |d| && d[i].0 == k
  }

  /** `Has` in terms of the key list. */
  lemma HasKeys(d: Dict, k: string)
    ensures Has(d, k) <==> k in Keys(d)
  {
    if k in Keys(d) {
      var i :| 0 <= i < |d| && Keys(d)[i] == k;
      assert d[i].0 == k;
    }
    if Has(d, k) {
      var i :| 0 <= i < |d| && d[i].0 == k;
      assert Keys(d)[i] == k;
    }
  }

  /** What every Python dictionary satisfies: no key occurs twice. */
  predicate KeysUnique(d: Dict) {
    forall i, j :: 0 <= i < j < |d| ==> d[i].0 != d[j].0
  }

  /** `d[k]` */
  function Get(d: Dict, k: string): (v: Value)
    requires Has(d, k)
    ensures (k, v) in d
  {
    if d[0].0 == k then d[0].1
    else
      assert Has(d[1..], k) by {
        var i :| 0 <= i < |d| && d[i].0 == k;
        assert d[1..][i - 1].0 == k;
      }
      Get(d[1..], k)
  }

  /** In a dictionary without repeated keys, `d[k]` is the value stored beside `k`. */
  lemma {:induction false} GetAt(d: Dict, i: nat)
    requires KeysUnique(d) && i < |d|
    ensures Has(d, d[i].0) && Get(d, d[i].0) == d[i].1
  {
    assert Has(d, d[i].0) by { assert d[i].0 == d[i].0; }
    if i > 0 {
      assert d[0].0 != d[i].0;
      assert d[1..][i - 1] == d[i];
      GetAt(d[1..], i - 1);
    }
  }

  /** Appending entries does not change what an existing key looks up. */
  lemma {:induction false} GetPrefix(d: Dict, e: Dict, k: string)
    requires Has(d, k)
    ensures Has(d + e, k) && Get(d + e, k) == Get(d, k)
  {
    var i :| 0 <= i < |d| && d[i].0 == k;
    assert (d + e)[i].0 == k;
    if d[0].0 != k {
      assert (d + e)[1..] == d[1..] + e;
      assert d[1..][i - 1].0 == k;
      GetPrefix(d[1..], e, k);
    }
  }

  /** `d.get(k, dflt)`: the stored value when `k` is present, `dflt` otherwise. */
  function GetOr(d: Dict, k: string, dflt: Value): (r: Value)
    ensures Has(d, k) ==> (k, r) in d && r == Get(d, k)
    ensures !Has(d, k) ==> r == dflt
  {
    if Has(d, k) then Get(d, k) else dflt
  }

  /** `d.setdefault(k, v)`: a missing key is appended at the end with `v`; a present
      key keeps its value and its place. */
  function SetDefault(d: Dict, k: string, v: Value): (r: Dict)
    ensures |d| <= |r| <= |d| + 1 && r[..|d|] == d
    ensures Has(r, k) && Get(r, k) == (if Has(d, k) then Get(d, k) else v)
    ensures Keys(r) == if Has(d, k) then Keys(d) else Keys(d) + [k]
    ensures KeysUnique(d) ==> KeysUnique(r)
  {
    if Has(d, k) then d
    else
      GetMissing(d, k, v);
      d + [(k, v)]
  }

  /** `setdefault` leaves every other key, and its value, as it was. */
  lemma SetDefaultKeeps(d: Dict, k: string, v: Value, j: string)
    ensures Has(d, j) ==> Has(SetDefault(d, k, v), j) && Get(SetDefault(d, k, v), j) == Get(d, j)
    ensures j != k ==> (Has(SetDefault(d, k, v), j) <==> Has(d, j))
  {
    if !Has(d, k) {
      if Has(d, j) {
        GetPrefix(d, [(k, v)], j);
      }
      if j != k && Has(d + [(k, v)], j) {
        var i :| 0 <= i < |d + [(k, v)]| && (d + [(k, v)])[i].0 == j;
        assert d[i].0 == j;
      }
    }
  }

  /** A dictionary that is not empty has `k` exactly when its first key is `k` or its
      remainder has `k`. */
  lemma HasTail(d: Dict, k: string)
    requires d != []
    ensures Has(d, k) <==> d[0].0 == k || Has(d[1..], k)
  {
    if Has(d, k) && d[0].0 != k {
      var i :| 0 <= i < |d| && d[i].0 == k;
      assert d[1..][i - 1].0 == k;
    }
    if Has(d[1..], k) {
      var i :| 0 <= i < |d[1..]| && d[1..][i].0 == k;
      assert d[i + 1].0 == k;
    }
  }

  /** Looking up a key that was missing before it was appended finds the appended value. */
  lemma {:induction false} GetMissing(d: Dict, k: string, v: Value)
    requires !Has(d, k)
    ensures Has(d + [(k, v)], k) && Get(d + [(k, v)], k) == v
  {
    assert (d + [(k, v)])[|d|].0 == k;
    if d != [] {
      HasTail(d, k);
      assert (d + [(k, v)])[1..] == d[1..] + [(k, v)];
      GetMissing(d[1..], k, v);
    }
  }

  /** `d[k] = v`: a present key keeps its place and takes the new value; a missing
      key is appended at the end. PutKeys, PutGet and PutUnique state this. */
  function Put(d: Dict, k: string, v: Value): Dict
    decreases |d|
  {
    if d == [] then [(k, v)]
    else if d[0].0 == k then [(k, v)] + d[1..]
    else [d[0]] + Put(d[1..], k, v)
  }

  lemma {:induction false} PutKeys(d: Dict, k: string, v: Value)
    ensures Keys(Put(d, k, v)) == if Has(d, k) then Keys(d) else Keys(d) + [k]
  {
    if d != [] {
      HasTail(d, k);
      assert d == [d[0]] + d[1..];
      KeysAppend([d[0]], d[1..]);
      if d[0].0 == k {
        KeysAppend([(k, v)], d[1..]);
      } else {
        PutKeys(d[1..], k, v);
        KeysAppend([d[0]], Put(d[1..], k, v));
      }
    }
  }

  lemma {:induction false} PutGet(d: Dict, k: string, v: Value, j: string)
    requires j == k || Has(d, j)
    ensures Has(Put(d, k, v), j)
    ensures Get(Put(d, k, v), j) == if j == k then v else Get(d, j)
  {
    var r := Put(d, k, v);
    if d == [] {
      assert r[0].0 == k;
    } else {
      HasTail(d, j);
      HasTail(r, j);
      if d[0].0 == k {
        assert r[0].0 == k && r[1..] == d[1..];
      } else {
        assert r[0] == d[0] && r[1..] == Put(d[1..], k, v);
        if d[0].0 != j {
          PutGet(d[1..], k, v, j);
        }
      }
    }
  }

  lemma PutUnique(d: Dict, k: string, v: Value)
    requires KeysUnique(d)
    ensures KeysUnique(Put(d, k, v))
  {
    var r := Put(d, k, v);
    PutKeys(d, k, v);
    assert |r| == |Keys(r)|;
    forall i, j | 0 <= i < j < |r| ensures r[i].0 != r[j].0 {
      assert r[i].0 == Keys(r)[i] && r[j].0 == Keys(r)[j];
      if Has(d, k) {
        assert Keys(d)[i] == d[i].0 && Keys(d)[j] == d[j].0;
      } else if j < |d| {
        assert Keys(d)[i] == d[i].0 && Keys(d)[j] == d[j].0;
      } else {
        assert r[j].0 == k && Keys(d)[i] == d[i].0;
        assert d[i].0 != k;
      }
    }
  }

  /** The dictionary comprehension `{k: d[k] for k in order if k in d}`, for a key list
      `order` without repeats (with a repeated key Python keeps one entry, this keeps
      both). SelectOne and SelectAppend state what it gives. */
  function Select(d: Dict, order: seq<string>): Dict {
    if order == [] then []
    else (if Has(d, order[0]) then [(order[0], Get(d, order[0]))] else []) + Select(d, order[1..])
  }

  /** The comprehension keeps the order of `order`: selecting along a concatenation
      concatenates the selections. */
  lemma {:induction false} SelectAppend(d: Dict, o1: seq<string>, o2: seq<string>)
    ensures Select(d, o1 + o2) == Select(d, o1) + Select(d, o2)
  {
    if o1 == [] {
      assert o1 + o2 == o2;
    } else {
      var head := if Has(d, o1[0]) then [(o1[0], Get(d, o1[0]))] else [];
      assert (o1 + o2)[0] == o1[0];
      assert (o1 + o2)[1..] == o1[1..] + o2;
      assert Select(d, o1 + o2) == head + Select(d, o1[1..] + o2);
      SelectAppend(d, o1[1..], o2);
      assert head + (Select(d, o1[1..]) + Select(d, o2)) == (head + Select(d, o1[1..])) + Select(d, o2);
    }
  }

  /** Selecting a single key gives that key with its value, or nothing when it is missing. */
  lemma SelectOne(d: Dict, k: string)
    ensures Select(d, [k]) == if Has(d, k) then [(k, Get(d, k))] else []
  {
    assert [k][1..] == [];
  }
}
