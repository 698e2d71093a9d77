/**
 * PHP values and arrays as the library handles them: configuration trees,
 * connection details, entity attributes and message properties are all PHP
 * arrays with string keys, whose iteration order is the insertion order.
 */
module Php {

  datatype Option<+T> = None | Some(value: T)

  datatype Result<+T, +E> = Ok(value: T) | Err(error: E) {
    predicate IsFailure() { Err? }
    function PropagateFailure<U>(): Result<U, E>
      requires Err?
    {
      Err(error)
    }
    function Extract(): T
      requires Ok?
    {
      value
    }
  }

  /**
   * An associative PHP array with string keys. `keys` is the iteration
   * (insertion) order and `items` the contents; `Wf` ties the two together.
   */
  datatype Array<+V> = Array(keys: seq<string>, items: map<string, V>)

  /** A PHP value as it occurs in the configuration. */
  datatype Value = Null | Bool(b: bool) | Int(i: int) | Str(s: string) | Arr(a: Array<Value>)

  /** No string occurs twice: each element is absent from the elements before it. */
  predicate Distinct(s: seq<string>)
    decreases |s|
  {
    |s| == 0 || (s[|s| - 1] !in s[..|s| - 1] && Distinct(s[..|s| - 1]))
  }

  /** Distinct elements at distinct positions. */
  lemma {:induction false} DistinctAt(s: seq<string>, i: nat, j: nat)
    requires Distinct(s) && i < j < |s|
    ensures s[i] != s[j]
    decreases |s|
  {
    var front := s[..|s| - 1];
    if j == |s| - 1 {
      assert s[i] == front[i];
    } else {
      assert s[i] == front[i] && s[j] == front[j];
      DistinctAt(front, i, j);
    }
  }

  /** An element of a distinct sequence does not occur before its position. */
  lemma DistinctPrefix(s: seq<string>, i: nat)
    requires Distinct(s) && i < |s|
    ensures s[i] !in s[..i]
  {
    forall j | 0 <= j < i
      ensures s[..i][j] != s[i]
    {
      DistinctAt(s, j, i);
    }
  }

  /** A sequence whose elements differ pairwise is distinct. */
  lemma {:induction false} PairwiseDistinct(s: seq<string>)
    requires forall i, j :: 0 <= i < j < |s| ==> s[i] != s[j]
    ensures Distinct(s)
    decreases |s|
  {
    if |s| > 0 {
      var front := s[..|s| - 1];
      assert forall i, j :: 0 <= i < j < |front| ==> front[i] != front[j] by {
        forall i, j | 0 <= i < j < |front|
          ensures front[i] != front[j]
        {
          assert front[i] == s[i] && front[j] == s[j];
        }
      }
      PairwiseDistinct(front);
      assert forall j :: 0 <= j < |front| ==> front[j] != s[|s| - 1];
    }
  }

  /** The key order lists every key of the contents exactly once. */
  ghost predicate Wf<V>(a: Array<V>) {
    && Distinct(a.keys)
    && (forall k :: k in a.items ==> k in a.keys)
    && (forall k :: k in a.keys ==> k in a.items)
  }

  function Empty<V>(): (r: Array<V>)
    ensures Wf(r) && r.items == map[] && r.keys == []
  {
    Array([], map[])
  }

  /** `$a[$k]`: a missing key reads as null (PHP raises only a notice). */
  function Get(a: Array<Value>, k: string): Value {
    if k in a.items then a.items[k] else Null
  }

  /** `isset($a[$k])`: present and not null. */
  predicate IsSet(a: Array<Value>, k: string) {
    k in a.items && a.items[k] != Null
  }

  /** The position of a key of a well-formed array in its iteration order. */
  lemma KeyIndex<V>(a: Array<V>, k: string) returns (i: nat)
    requires Wf(a) && k in a.items
    ensures i < |a.keys| && a.keys[i] == k
  {
    assert k in a.keys;
    i :| 0 <= i < |a.keys| && a.keys[i] == k;
  }

  /** Well-formed arrays with the same key order have the same keys. */
  lemma SameKeys<V, W>(a: Array<V>, b: Array<W>)
    requires Wf(a) && Wf(b) && a.keys == b.keys
    ensures forall k :: k in a.items <==> k in b.items
  {
  }

  /** Two arrays with the same keys in the same order and the same entries are the same array. */
  lemma SameArray<V>(a: Array<V>, b: Array<V>)
    requires a.keys == b.keys
    requires forall k :: (k in a.items <==> k in b.items) && (k in a.items ==> a.items[k] == b.items[k])
    ensures a == b
  {
    assert a.items == b.items;
  }

  /**
   * `$a[$k] = $v`: an existing key keeps its place in the iteration order,
   * a new key is appended.
   */
  function Set<V>(a: Array<V>, k: string, v: V): (r: Array<V>)
    ensures r.items == a.items[k := v]
    ensures Wf(a) ==> Wf(r)
    ensures Wf(a) && k in a.items ==> r.keys == a.keys
    ensures Wf(a) && k !in a.items ==> r.keys == a.keys + [k]
  {
    if k in a.items then Array(a.keys, a.items[k := v]) else Array(a.keys + [k], a.items[k := v])
  }

  /**
   * `array_merge($a, $b)` for string keys: the entries of `b`, in order,
   * overwrite or extend `a`.
   */
  function Merge<V>(a: Array<V>, b: Array<V>): (r: Array<V>)
    requires Wf(b)
    ensures r.items == a.items + b.items
    ensures Wf(a) ==> Wf(r)
    ensures Wf(a) && (forall k :: k in b.items ==> k in a.items) ==> r.keys == a.keys
  {
    var r := MergeEntries(a, b.keys, b.items);
    assert r.items == a.items + b.items by {
      forall k | k in r.items ensures k in a.items + b.items && r.items[k] == (a.items + b.items)[k] {
        if k in b.keys {
          assert k in b.items;
        }
      }
      forall k | k in a.items + b.items ensures k in r.items {
        if k in b.items {
          assert k in b.keys;
        }
      }
    }
    r
  }

  /** The entries of `items` under `keys`, written into `a` one after the other. */
  function MergeEntries<V>(a: Array<V>, keys: seq<string>, items: map<string, V>): (r: Array<V>)
    requires forall k :: k in keys ==> k in items
    ensures forall k :: k in keys ==> k in r.items && r.items[k] == items[k]
    ensures forall k :: k !in keys ==> (k in r.items <==> k in a.items) && (k in a.items ==> r.items[k] == a.items[k])
    ensures Wf(a) ==> Wf(r)
    ensures Wf(a) && (forall k :: k in keys ==> k in a.items) ==> r.keys == a.keys
    decreases |keys|
  {
    if keys == [] then a
    else
      assert forall k :: k in keys ==> k == keys[0] || k in keys[1..];
      MergeEntries(Set(a, keys[0], items[keys[0]]), keys[1..], items)
  }

  /** Merging into an empty array gives back the (well-formed) array itself. */
  lemma MergeIntoEmpty<V>(b: Array<V>)
    requires Wf(b)
    ensures Merge(Empty(), b) == b
  {
    assert b.keys[0..] == b.keys;
    MergeRest(Empty(), b, 0);
  }

  /** Writing the entries of `b` after position `i` into its first `i` entries gives back `b`. */
  lemma {:induction false} MergeRest<V>(a: Array<V>, b: Array<V>, i: nat)
    requires Wf(b) && i <= |b.keys| && a.keys == b.keys[..i]
    requires forall k :: k in a.items <==> k in b.keys[..i]
    requires forall k :: k in a.items ==> a.items[k] == b.items[k]
    ensures MergeEntries(a, b.keys[i..], b.items) == b
    decreases |b.keys| - i
  {
    if i == |b.keys| {
      assert b.keys[..i] == b.keys;
      assert a.items == b.items;
    } else {
      var k := b.keys[i];
      DistinctPrefix(b.keys, i);
      assert b.keys[..i + 1] == b.keys[..i] + [k];
      assert b.keys[i..][1..] == b.keys[i + 1..];
      MergeRest(Set(a, k, b.items[k]), b, i + 1);
    }
  }

  function DigitChar(d: nat): (c: char)
    requires d < 10
    ensures '0' <= c <= '9' && (c as int) - ('0' as int) == d
  {
    "0123456789"[d]
  }

  predicate AllDigits(s: string) {
    forall i :: 0 <= i < |s| ==> '0' <= s[i] <= '9'
  }

  /** Decimal notation of a natural number, most significant digit first. */
  function Digits(n: nat): (s: string)
    ensures 0 < |s| && AllDigits(s)
    decreases n
  {
    if n < 10 then [DigitChar(n)] else Digits(n / 10) + [DigitChar(n % 10)]
  }

  function ParseDigits(s: string): nat
    requires AllDigits(s)
    decreases |s|
  {
    if s == [] then 0
    else ParseDigits(s[..|s| - 1]) * 10 + ((s[|s| - 1] as int) - ('0' as int))
  }

  /** Decimal notation is faithful: reading it back gives the number. */
  lemma {:induction false} DigitsRoundTrip(n: nat)
    ensures ParseDigits(Digits(n)) == n
    decreases n
  {
    if n >= 10 {
      DigitsRoundTrip(n / 10);
      var s := Digits(n);
      assert s[..|s| - 1] == Digits(n / 10);
    }
  }

  /** PHP's decimal conversion of an integer. */
  function IntToString(i: int): string {
    if i < 0 then "-" + Digits(-i) else Digits(i)
  }

  /** `(string)$v`: null and false print as "", true as "1", arrays as "Array". */
  function ToString(v: Value): string {
    match v
    case Null => ""
    case Bool(b) => if b then "1" else ""
    case Int(i) => IntToString(i)
    case Str(s) => s
    case Arr(_) => "Array"
  }

  /** `implode($sep, $parts)`. */
  function Join(parts: seq<string>, sep: string): string {
    if |parts| == 0 then ""
    else if |parts| == 1 then parts[0]
    else Join(parts[..|parts| - 1], sep) + sep + parts[|parts| - 1]
  }
}
