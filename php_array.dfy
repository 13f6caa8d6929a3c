/**
 * PHP values as the source manipulates them: decoded JSON, query parameters,
 * tool schemas and cached arrays are all PHP arrays, that is ordered maps from
 * integer or string keys to values.  Lookup finds the entry with the key,
 * assignment `$a[$k] = $v` replaces that entry in place or appends a new one.
 * Truthiness (`if ($x)`, `empty`), `isset`, `??` and `array_merge` are
 * written out here once.
 */
module PhpArray {
  import opened Wrappers

  datatype Key = IntKey(n: int) | StrKey(s: string)

  datatype Value =
    | Null
    | Bool(b: bool)
    | Int(i: int)
    | Str(s: string)
    | Arr(entries: seq<(Key, Value)>)

  type Entries = seq<(Key, Value)>

  /** `$a[$k]` on an array: the value of the first entry with key `k`. */
  function Lookup(e: Entries, k: Key): (r: Option<Value>)
    ensures r.Some? <==> k in Keys(e)
  {
    if e == [] then None
    else if e[0].0 == k then Some(e[0].1)
    else
      KeysCons(e[0], e[1..]);
      assert e == [e[0]] + e[1..];
      Lookup(e[1..], k)
  }

  /** The set of keys of an array. */
  function Keys(e: Entries): set<Key> {
    set i | 0 <= i < |e| :: e[i].0
  }

  lemma KeysCons(x: (Key, Value), r: Entries)
    ensures Keys([x] + r) == {x.0} + Keys(r)
  {
    var e := [x] + r;
    forall k | k in Keys(e) ensures k in {x.0} + Keys(r) {
      var i :| 0 <= i < |e| && e[i].0 == k;
      if i > 0 { assert r[i - 1].0 == k; }
    }
    forall k | k in Keys(r) ensures k in Keys(e) {
      var i :| 0 <= i < |r| && r[i].0 == k;
      assert e[i + 1].0 == k;
    }
    assert e[0].0 == x.0;
  }

  /** `$a[$k] = $v`: replaces the first entry with key `k`, or appends one. */
  function Set(e: Entries, k: Key, v: Value): (r: Entries)
    ensures |r| == if k in Keys(e) then |e| else |e| + 1
    ensures forall i :: 0 <= i < |e| ==> r[i].0 == e[i].0
    ensures k !in Keys(e) ==> r[|e|] == (k, v)
  {
    if e == [] then [(k, v)]
    else if e[0].0 == k then [(k, v)] + e[1..]
    else
      KeysCons(e[0], e[1..]);
      assert e == [e[0]] + e[1..];
      [e[0]] + Set(e[1..], k, v)
  }

  lemma {:induction false} LookupSet(e: Entries, k: Key, v: Value, k': Key)
    ensures Lookup(Set(e, k, v), k') == if k' == k then Some(v) else Lookup(e, k')
  {
    if e != [] && e[0].0 != k {
      LookupSet(e[1..], k, v, k');
    }
  }

  /** `LookupSet` for every key at once. */
  lemma LookupSetAll(e: Entries, k: Key, v: Value)
    ensures forall k' :: Lookup(Set(e, k, v), k') == if k' == k then Some(v) else Lookup(e, k')
  {
    forall k' ensures Lookup(Set(e, k, v), k') == if k' == k then Some(v) else Lookup(e, k') {
      LookupSet(e, k, v, k');
    }
  }

  /** Assignment adds the assigned key and removes none. */
  lemma KeysSet(e: Entries, k: Key, v: Value)
    ensures Keys(Set(e, k, v)) == Keys(e) + {k}
  {
    LookupSetAll(e, k, v);
    forall k' ensures k' in Keys(Set(e, k, v)) <==> k' in Keys(e) + {k} {
      assert Lookup(Set(e, k, v), k').Some? <==> k' in Keys(Set(e, k, v));
    }
  }

  /** Assigning a new key appends it. */
  lemma {:induction false} SetFresh(e: Entries, k: Key, v: Value)
    requires k !in Keys(e)
    ensures Set(e, k, v) == e + [(k, v)]
  {
    if e != [] {
      KeysCons(e[0], e[1..]);
      assert e == [e[0]] + e[1..];
      SetFresh(e[1..], k, v);
    }
  }

  lemma {:induction false} SetExisting(e: Entries, k: Key, v: Value)
    requires Lookup(e, k) == Some(v)
    ensures Set(e, k, v) == e
  {
    if e[0].0 != k {
      SetExisting(e[1..], k, v);
    }
  }

  lemma {:induction false} SetTwice(e: Entries, k: Key, v: Value, w: Value)
    ensures Set(Set(e, k, v), k, w) == Set(e, k, w)
  {
    if e != [] && e[0].0 != k {
      SetTwice(e[1..], k, v, w);
    }
  }

  /** `$v[$k]` on any value: only arrays have entries. */
  function Get(v: Value, k: Key): Option<Value> {
    if v.Arr? then Lookup(v.entries, k) else None
  }

  /** PHP's `$x ?? $default` where `$x` may be missing or null. */
  function Coalesce(o: Option<Value>, default: Value): (r: Value)
    ensures r == default || o == Some(r)
    ensures o.Some? && o.value != Null ==> r == o.value
  {
    if o.Some? && o.value != Null then o.value else default
  }

  /** `isset($v[$k])`. */
  predicate IsSet(v: Value, k: Key) {
    Get(v, k).Some? && Get(v, k).value != Null
  }

  /** PHP's conversion to bool: null, false, 0, "", "0" and [] are false. */
  predicate Truthy(v: Value) {
    match v
    case Null => false
    case Bool(b) => b
    case Int(i) => i != 0
    case Str(s) => s != "" && s != "0"
    case Arr(e) => e != []
  }

  /** The warning PHP gives when an array is used as a string; the framework
      raises it as an exception. */
  const ArrayToString := "Array to string conversion"

  /** A PHP list: keys 0, 1, 2, ... in order. */
  function List(vs: seq<Value>): (r: Entries)
    ensures |r| == |vs|
    ensures forall i :: 0 <= i < |vs| ==> r[i] == (IntKey(i), vs[i])
  {
    seq(|vs|, i requires 0 <= i < |vs| => (IntKey(i), vs[i]))
  }

  /** `Arr::whereNotNull`: drops the null entries and keeps the order of the rest. */
  function WhereNotNull(e: Entries): (r: Entries)
    ensures forall k :: Lookup(r, k).Some? ==> Lookup(r, k).value != Null
    ensures forall k :: Lookup(e, k).Some? && Lookup(e, k).value != Null ==> Lookup(r, k) == Lookup(e, k)
    ensures forall k :: k in Keys(r) ==> k in Keys(e)
  {
    if e == [] then []
    else if e[0].1 == Null then WhereNotNull(e[1..])
    else
      var rest := WhereNotNull(e[1..]);
      KeysCons(e[0], rest);
      KeysCons(e[0], e[1..]);
      assert e == [e[0]] + e[1..];
      [e[0]] + rest
  }

  /** No key occurs twice, as in an array literal. */
  predicate DistinctKeys(e: Entries) {
    forall i, j :: 0 <= i < j < |e| ==> e[i].0 != e[j].0
  }

  /** In an array without repeated keys, each entry is the one found by its key. */
  lemma {:induction false} LookupDistinct(e: Entries, i: nat)
    requires DistinctKeys(e) && i < |e|
    ensures Lookup(e, e[i].0) == Some(e[i].1)
  {
    if i > 0 {
      LookupDistinct(e[1..], i - 1);
      assert e[1..][i - 1] == e[i];
    }
  }

  /** Lookup in a concatenation: the first array's entry when it has the key. */
  lemma {:induction false} LookupAppend(a: Entries, b: Entries, k: Key)
    ensures Lookup(a + b, k) == if k in Keys(a) then Lookup(a, k) else Lookup(b, k)
  {
    if a != [] {
      KeysCons(a[0], a[1..]);
      assert a == [a[0]] + a[1..];
      assert (a + b)[0] == a[0];
      assert (a + b)[1..] == a[1..] + b;
      LookupAppend(a[1..], b, k);
    } else {
      assert a + b == b;
    }
  }

  /** The value of the last entry with key `k`. */
  function LookupLast(e: Entries, k: Key): (r: Option<Value>)
    ensures r.Some? <==> k in Keys(e)
  {
    if e == [] then None
    else
      KeysCons(e[0], e[1..]);
      assert e == [e[0]] + e[1..];
      var later := LookupLast(e[1..], k);
      if later.Some? then later else if e[0].0 == k then Some(e[0].1) else None
  }

  /** The last entry of a concatenation with key `k` is the second part's, if it has one. */
  lemma {:induction false} LookupLastAppend(a: Entries, b: Entries, k: Key)
    ensures LookupLast(a + b, k) == if LookupLast(b, k).Some? then LookupLast(b, k) else LookupLast(a, k)
  {
    if a == [] {
      assert a + b == b;
    } else {
      assert (a + b)[0] == a[0];
      assert (a + b)[1..] == a[1..] + b;
      LookupLastAppend(a[1..], b, k);
    }
  }

  /** Without repeated keys, the first and the last entry with a key are the same. */
  lemma {:induction false} LookupLastDistinct(e: Entries, k: Key)
    requires DistinctKeys(e)
    ensures LookupLast(e, k) == Lookup(e, k)
  {
    if e != [] {
      LookupLastDistinct(e[1..], k);
      HeadKeyFresh(e);
    }
  }

  /** In an array without repeated keys, the first key does not occur again. */
  lemma HeadKeyFresh(e: Entries)
    requires DistinctKeys(e) && e != []
    ensures e[0].0 !in Keys(e[1..])
  {
    forall m | 0 <= m < |e[1..]| ensures e[1..][m].0 != e[0].0 {
      assert e[1..][m] == e[m + 1];
    }
  }

  /** `array_merge` over the entries `e`, in order, into `acc`, whose integer
      keys so far are `0 .. next - 1`: an integer key is renumbered to the next
      index, a string key overwrites its entry in place or is appended. */
  function MergeFrom(acc: Entries, next: int, e: Entries): Entries
    decreases |e|
  {
    if e == [] then acc
    else if e[0].0.IntKey? then MergeFrom(acc + [(IntKey(next), e[0].1)], next + 1, e[1..])
    else MergeFrom(Set(acc, e[0].0, e[0].1), next, e[1..])
  }

  /** `array_merge($a, $b)`. */
  function ArrayMerge(a: Entries, b: Entries): Entries {
    MergeFrom([], 0, a + b)
  }

  lemma {:induction false} MergeFromLookup(acc: Entries, next: int, e: Entries, k: Key)
    requires k.StrKey?
    ensures Lookup(MergeFrom(acc, next, e), k) == if LookupLast(e, k).Some? then LookupLast(e, k) else Lookup(acc, k)
    decreases |e|
  {
    if e != [] {
      assert e == [e[0]] + e[1..];
      if e[0].0.IntKey? {
        var acc' := acc + [(IntKey(next), e[0].1)];
        MergeFromLookup(acc', next + 1, e[1..], k);
        LookupAppend(acc, [(IntKey(next), e[0].1)], k);
        assert Lookup(acc', k) == Lookup(acc, k);
      } else {
        MergeFromLookup(Set(acc, e[0].0, e[0].1), next, e[1..], k);
        LookupSet(acc, e[0].0, e[0].1, k);
      }
    }
  }

  /** `array_merge` with a string key: the last entry with it wins, so a later
      array overrides an earlier one. */
  lemma ArrayMergeLookup(a: Entries, b: Entries, k: Key)
    requires k.StrKey?
    ensures Lookup(ArrayMerge(a, b), k) == if LookupLast(b, k).Some? then LookupLast(b, k) else LookupLast(a, k)
  {
    MergeFromLookup([], 0, a + b, k);
    LookupLastAppend(a, b, k);
  }

  /** `Arr::whereNotNull` keeps keys distinct. */
  lemma {:induction false} WhereNotNullDistinct(e: Entries)
    requires DistinctKeys(e)
    ensures DistinctKeys(WhereNotNull(e))
  {
    if e != [] {
      DistinctTail(e);
      WhereNotNullDistinct(e[1..]);
      if e[0].1 != Null {
        var rest := WhereNotNull(e[1..]);
        assert WhereNotNull(e) == [e[0]] + rest;
        HeadKeyFresh(e);
        DistinctCons(e[0], rest);
      }
    }
  }

  lemma DistinctTail(e: Entries)
    requires DistinctKeys(e) && e != []
    ensures DistinctKeys(e[1..])
  {
    forall i, j | 0 <= i < j < |e[1..]| ensures e[1..][i].0 != e[1..][j].0 {
      assert e[1..][i] == e[i + 1] && e[1..][j] == e[j + 1];
    }
  }

  /** A fresh key in front of an array without repeated keys repeats none. */
  lemma DistinctCons(x: (Key, Value), r: Entries)
    requires DistinctKeys(r) && x.0 !in Keys(r)
    ensures DistinctKeys([x] + r)
  {
    var e := [x] + r;
    forall j | 0 < j < |e| ensures e[0].0 != e[j].0 {
      assert e[j] == r[j - 1];
      assert r[j - 1].0 in Keys(r);
    }
    forall i, j | 0 < i < j < |e| ensures e[i].0 != e[j].0 {
      assert e[i] == r[i - 1] && e[j] == r[j - 1];
    }
  }

  /** A key whose only entry is null is gone after `Arr::whereNotNull`. */
  lemma {:induction false} WhereNotNullDropsNull(e: Entries, k: Key)
    requires DistinctKeys(e) && Lookup(e, k) == Some(Null)
    ensures Lookup(WhereNotNull(e), k).None?
  {
    KeysCons(e[0], e[1..]);
    assert e == [e[0]] + e[1..];
    if e[0].0 != k {
      WhereNotNullDropsNull(e[1..], k);
      var rest := WhereNotNull(e[1..]);
      if e[0].1 != Null {
        assert WhereNotNull(e) == [e[0]] + rest;
      }
    }
  }

  /** A size measure, used for termination of recursion through nested arrays. */
  function Size(v: Value): nat
    decreases v, if v.Arr? then |v.entries| + 1 else 0
  {
    match v
    case Arr(e) => 1 + SizeFrom(v, 0)
    case _ => 1
  }

  /** The total size of the values held at indices `i` and above of array `v`. */
  function SizeFrom(v: Value, i: nat): nat
    requires v.Arr? && i <= |v.entries|
    decreases v, |v.entries| - i
  {
    if i == |v.entries| then 0 else Size(v.entries[i].1) + SizeFrom(v, i + 1)
  }

  function EntriesSize(e: Entries): nat {
    SizeFrom(Arr(e), 0)
  }

  lemma {:induction false} SizeFromShift(e: Entries, i: nat)
    requires e != [] && i < |e|
    ensures SizeFrom(Arr(e), i + 1) == SizeFrom(Arr(e[1..]), i)
    decreases |e| - i
  {
    if i + 1 < |e| {
      SizeFromShift(e, i + 1);
      assert e[1..][i] == e[i + 1];
    }
  }

  lemma EntriesSizeCons(e: Entries)
    requires e != []
    ensures EntriesSize(e) == Size(e[0].1) + EntriesSize(e[1..])
  {
    SizeFromShift(e, 0);
  }

  /** A nested array is strictly smaller than the array that holds it. */
  lemma {:induction false} LookupSmaller(e: Entries, k: Key)
    requires Lookup(e, k).Some? && Lookup(e, k).value.Arr?
    ensures EntriesSize(Lookup(e, k).value.entries) < EntriesSize(e)
  {
    EntriesSizeCons(e);
    if e[0].0 != k {
      LookupSmaller(e[1..], k);
    }
  }
}
