/**
 * PHP arrays as the builder produces and consumes them. A PHP array is an
 * ordered dictionary whose keys are integers or strings; here it is a sequence
 * of entries in insertion order. The operations are the array operations the
 * builder relies on: `$a[$k] = $v` (`Put`), `$a + $b` (`Union`),
 * `unset($a[$k])` (`Remove`), `array_values` (`Values`), `isset` and `??`.
 */
module Wire {
  import opened Outcomes

  datatype Key = Idx(i: int) | Name(s: string)

  /** A decoded JSON value, as `json_decode($json, true)` produces it. */
  datatype Value =
    | Null
    | Bool(b: bool)
    | Int(i: int)
    | Str(s: string)
    | Arr(entries: seq<Entry<Value>>)

  datatype Entry<V> = Entry(key: Key, val: V)

  type Dict<V> = seq<Entry<V>>

  function Keys<V>(d: Dict<V>): (ks: seq<Key>)
    ensures |ks| == |d|
    ensures forall i :: 0 <= i < |d| ==> ks[i] == d[i].key
  {
    if d == [] then [] else [d[0].key] + Keys(d[1..])
  }

  predicate HasKey<V>(d: Dict<V>, k: Key) {
    k in Keys(d)
  }

  /** `$d[$k] ?? null` for a key that may hold any value: the first entry with key k. */
  function Lookup<V>(d: Dict<V>, k: Key): (r: Option<V>)
    ensures r.None? <==> !HasKey(d, k)
    ensures r.Some? ==> exists i :: 0 <= i < |d| && d[i] == Entry(k, r.value)
  {
    if d == [] then None
    else if d[0].key == k then Some(d[0].val)
    else Lookup(d[1..], k)
  }

  /** `isset($d[$k])`: the key is present and its value is not null. */
  predicate IsSet(d: Dict<Value>, k: Key) {
    Lookup(d, k).Some? && !Lookup(d, k).value.Null?
  }

  /** `$d[$k] ?? $default`. */
  function GetOr(d: Dict<Value>, k: Key, default: Value): (r: Value)
    ensures IsSet(d, k) ==> r == Lookup(d, k).value
    ensures !IsSet(d, k) ==> r == default
  {
    match Lookup(d, k)
    case Some(v) => if v.Null? then default else v
    case None => default
  }

  /** `$d[$k] = $v`: an existing key keeps its position, a new key goes last. */
  function Put<V>(d: Dict<V>, k: Key, v: V): (r: Dict<V>)
    ensures HasKey(d, k) ==> |r| == |d|
    ensures !HasKey(d, k) ==> r == d + [Entry(k, v)]
  {
    if d == [] then [Entry(k, v)]
    else if d[0].key == k then [Entry(k, v)] + d[1..]
    else [d[0]] + Put(d[1..], k, v)
  }

  /** A key that no entry carries is absent. */
  lemma AbsentKey<V>(d: Dict<V>, k: Key, keys: set<Key>)
    requires forall i :: 0 <= i < |d| ==> d[i].key in keys
    requires k !in keys
    ensures Lookup(d, k) == None
  {
  }

  /** After `$d[$k] = $v`, k holds v and every other key holds what it held. */
  lemma {:induction false} PutLookup<V>(d: Dict<V>, k: Key, v: V, k': Key)
    ensures Lookup(Put(d, k, v), k') == if k' == k then Some(v) else Lookup(d, k')
    decreases |d|
  {
    if d != [] && d[0].key != k {
      PutLookup(d[1..], k, v, k');
    }
  }

  lemma PutLookupAll<V>(d: Dict<V>, k: Key, v: V)
    ensures forall k' :: Lookup(Put(d, k, v), k') == if k' == k then Some(v) else Lookup(d, k')
  {
    forall k' ensures Lookup(Put(d, k, v), k') == if k' == k then Some(v) else Lookup(d, k') {
      PutLookup(d, k, v, k');
    }
  }

  /** No key occurs twice, as in every array PHP builds. */
  predicate Distinct<V>(d: Dict<V>) {
    d == [] || (!HasKey(d[1..], d[0].key) && Distinct(d[1..]))
  }

  lemma {:induction false} PutHasKey<V>(d: Dict<V>, k: Key, v: V, k': Key)
    ensures HasKey(Put(d, k, v), k') <==> HasKey(d, k') || k' == k
    decreases |d|
  {
    if d != [] {
      assert Keys(d) == [d[0].key] + Keys(d[1..]);
      if d[0].key != k {
        PutHasKey(d[1..], k, v, k');
        assert Keys(Put(d, k, v)) == [d[0].key] + Keys(Put(d[1..], k, v));
      } else {
        assert Keys(Put(d, k, v)) == [k] + Keys(d[1..]);
      }
    }
  }

  /** `$d[$k] = $v` never duplicates a key. */
  lemma {:induction false} PutDistinct<V>(d: Dict<V>, k: Key, v: V)
    requires Distinct(d)
    ensures Distinct(Put(d, k, v))
    decreases |d|
  {
    if d != [] && d[0].key != k {
      PutDistinct(d[1..], k, v);
      PutHasKey(d[1..], k, v, d[0].key);
      assert Put(d, k, v)[1..] == Put(d[1..], k, v);
    }
  }

  /** `unset($d[$k])`. */
  function Remove<V>(d: Dict<V>, k: Key): (r: Dict<V>)
    ensures Lookup(r, k).None?
    ensures forall k' :: k' != k ==> Lookup(r, k') == Lookup(d, k')
    ensures |r| <= |d|
  {
    if d == [] then []
    else if d[0].key == k then Remove(d[1..], k)
    else [d[0]] + Remove(d[1..], k)
  }

  /** `$a + $b`: the entries of a, then those of b whose key a lacks. */
  function Union<V>(a: Dict<V>, b: Dict<V>): (r: Dict<V>)
    ensures |r| >= |a| && r[..|a|] == a
    decreases |b|
  {
    if b == [] then a
    else if HasKey(a, b[0].key) then Union(a, b[1..])
    else Union(a + [b[0]], b[1..])
  }

  lemma {:induction false} LookupAppend<V>(a: Dict<V>, e: Entry<V>, k: Key)
    ensures Lookup(a + [e], k) == if HasKey(a, k) then Lookup(a, k) else if k == e.key then Some(e.val) else None
    decreases |a|
  {
    if a != [] {
      assert (a + [e])[1..] == a[1..] + [e];
      assert Keys(a) == [a[0].key] + Keys(a[1..]);
      LookupAppend(a[1..], e, k);
    }
  }

  /** Looking a key up in two dictionaries laid end to end. */
  lemma {:induction false} LookupConcat<V>(a: Dict<V>, b: Dict<V>, k: Key)
    ensures Lookup(a + b, k) == if Lookup(a, k).Some? then Lookup(a, k) else Lookup(b, k)
    decreases |a|
  {
    if a == [] {
      assert a + b == b;
    } else {
      assert (a + b)[0] == a[0] && (a + b)[1..] == a[1..] + b;
      LookupConcat(a[1..], b, k);
    }
  }

  /** The key of every entry is a key of the dictionary. */
  lemma KeyOfEntry<V>(d: Dict<V>, e: Entry<V>)
    requires e in d
    ensures HasKey(d, e.key)
  {
    var i :| 0 <= i < |d| && d[i] == e;
    assert Keys(d)[i] == e.key;
  }

  /** `$a + $b` where b has no key of a and none twice: b is simply appended. */
  lemma {:induction false} UnionFresh<V>(a: Dict<V>, b: Dict<V>)
    requires Distinct(b)
    requires forall i :: 0 <= i < |b| ==> !HasKey(a, b[i].key)
    ensures Union(a, b) == a + b
    decreases |b|
  {
    if b != [] {
      UnionFreshStep(a, b);
      FreshTail(a, b);
      UnionFresh(a + [b[0]], b[1..]);
      assert a + [b[0]] + b[1..] == a + b;
    }
  }

  /** One step of `$a + $b` when b's first key is not in a. */
  lemma {:induction false} UnionFreshStep<V>(a: Dict<V>, b: Dict<V>)
    requires b != [] && Distinct(b)
    requires forall i :: 0 <= i < |b| ==> !HasKey(a, b[i].key)
    ensures Union(a, b) == Union(a + [b[0]], b[1..]) && Distinct(b[1..])
  {
    assert !HasKey(a, b[0].key);
  }

  /** After that step, the rest of b is still fresh. */
  lemma {:induction false} FreshTail<V>(a: Dict<V>, b: Dict<V>)
    requires b != [] && Distinct(b)
    requires forall i :: 0 <= i < |b| ==> !HasKey(a, b[i].key)
    ensures forall i :: 0 <= i < |b[1..]| ==> !HasKey(a + [b[0]], b[1..][i].key)
  {
    var a', rest := a + [b[0]], b[1..];
    assert Keys(a') == Keys(a) + [b[0].key];
    forall i | 0 <= i < |rest|
      ensures !HasKey(a', rest[i].key)
    {
      assert rest[i] == b[i + 1];
      assert Keys(rest)[i] == rest[i].key;
    }
  }

  /** `$a + $b` holds only entries of a and of b. */
  lemma {:induction false} UnionMembers<V>(a: Dict<V>, b: Dict<V>, e: Entry<V>)
    requires e in Union(a, b)
    ensures e in a || e in b
    decreases |b|
  {
    if b != [] {
      if HasKey(a, b[0].key) {
        UnionMembers(a, b[1..], e);
      } else {
        UnionMembers(a + [b[0]], b[1..], e);
      }
    }
  }

  /** `$a + $b` uses only keys that a or b uses. */
  lemma UnionKeys<V>(a: Dict<V>, b: Dict<V>, keys: set<Key>)
    requires forall e :: e in a ==> e.key in keys
    requires forall e :: e in b ==> e.key in keys
    ensures forall i :: 0 <= i < |Union(a, b)| ==> Union(a, b)[i].key in keys
  {
    forall i | 0 <= i < |Union(a, b)|
      ensures Union(a, b)[i].key in keys
    {
      UnionMembers(a, b, Union(a, b)[i]);
    }
  }

  /** `$a + $b` looks a key up in a first, and in b only when a lacks it. */
  lemma {:induction false} UnionLookup<V>(a: Dict<V>, b: Dict<V>, k: Key)
    ensures Lookup(Union(a, b), k) == if HasKey(a, k) then Lookup(a, k) else Lookup(b, k)
    decreases |b|
  {
    if b != [] {
      if HasKey(a, b[0].key) {
        UnionLookup(a, b[1..], k);
        if !HasKey(a, k) && k == b[0].key {
          assert false;
        }
      } else {
        UnionLookup(a + [b[0]], b[1..], k);
        LookupAppend(a, b[0], k);
        assert Keys(a + [b[0]]) == Keys(a) + [b[0].key];
      }
    }
  }

  /** Every key of a is kept, with its value, by `$a + $b`, whatever b holds. */
  lemma UnionLeftWins<V>(a: Dict<V>, b: Dict<V>, k: Key)
    requires HasKey(a, k)
    ensures Lookup(Union(a, b), k) == Lookup(a, k)
  {
    UnionLookup(a, b, k);
  }

  /** `array_values($d)`. */
  function Values<V>(d: Dict<V>): (vs: seq<V>)
    ensures |vs| == |d|
    ensures forall i :: 0 <= i < |d| ==> vs[i] == d[i].val
  {
    if d == [] then [] else [d[0].val] + Values(d[1..])
  }

  /** A list `[v0, v1, ...]`: keys 0, 1, ... in order. */
  function ListFrom<V>(vs: seq<V>, start: int): (d: Dict<V>)
    ensures |d| == |vs|
    ensures forall i :: 0 <= i < |vs| ==> d[i] == Entry(Idx(start + i), vs[i])
    decreases |vs|
  {
    if vs == [] then [] else [Entry(Idx(start), vs[0])] + ListFrom(vs[1..], start + 1)
  }

  /** A list never repeats a key. */
  lemma {:induction false} ListDistinct<V>(vs: seq<V>, start: int)
    ensures Distinct(ListFrom(vs, start))
    decreases |vs|
  {
    if vs != [] {
      var d := ListFrom(vs, start);
      assert d[1..] == ListFrom(vs[1..], start + 1);
      ListDistinct(vs[1..], start + 1);
      AbsentKey(d[1..], Idx(start), set i | start + 1 <= i < start + 1 + |vs[1..]| :: Idx(i));
    }
  }

  function List<V>(vs: seq<V>): (d: Dict<V>)
    ensures Values(d) == vs
  {
    ListFrom(vs, 0)
  }

  /** PHP's `empty()`: null, false, 0, "", "0" and [] are empty. */
  predicate IsEmpty(v: Value) {
    match v
    case Null => true
    case Bool(b) => !b
    case Int(i) => i == 0
    case Str(s) => s == "" || s == "0"
    case Arr(es) => es == []
  }

  /** `empty()` on a string property that may be unset. */
  predicate EmptyString(s: Option<string>) {
    s.None? || s.value == "" || s.value == "0"
  }

  function DigitChar(d: nat): char
    requires d < 10
  {
    "0123456789"[d]
  }

  /** Decimal representation of a natural number, as PHP interpolates it. */
  function NatToString(n: nat): (s: string)
    ensures |s| >= 1
    ensures forall i :: 0 <= i < |s| ==> '0' <= s[i] <= '9'
    decreases n
  {
    if n < 10 then [DigitChar(n)] else NatToString(n / 10) + [DigitChar(n % 10)]
  }

  /** `(string)$i` for any integer. */
  function IntToString(i: int): (s: string)
    ensures |s| >= 1
  {
    if i < 0 then "-" + NatToString(-i) else NatToString(i)
  }

  /** `(string)$key`: either kind of array key as a string. */
  function KeyText(k: Key): (s: string)
    ensures k.Name? ==> s == k.s
  {
    match k
    case Name(s) => s
    case Idx(i) => IntToString(i)
  }

  lemma DigitCharInjective(a: nat, b: nat)
    requires a < 10 && b < 10 && DigitChar(a) == DigitChar(b)
    ensures a == b
  {
  }

  /** Different numbers never print the same. */
  lemma {:induction false} NatToStringInjective(a: nat, b: nat)
    requires NatToString(a) == NatToString(b)
    ensures a == b
    decreases a
  {
    if a < 10 && b < 10 {
      DigitCharInjective(a, b);
    } else if a >= 10 && b >= 10 {
      var sa, sb := NatToString(a), NatToString(b);
      var pa, pb := NatToString(a / 10), NatToString(b / 10);
      assert pa == sa[..|sa| - 1] && pb == sb[..|sb| - 1];
      NatToStringInjective(a / 10, b / 10);
      DigitCharInjective(a % 10, b % 10);
    }
  }

  /** `$data[$key] = $part->toArray()` for a part that may be absent. */
  function PutPart(d: Dict<Value>, key: string, part: Option<Result<Value>>): (r: Result<Dict<Value>>)
    ensures part.None? ==> r == Ok(d)
    ensures part.Some? && part.value.Err? ==> r == Err(part.value.error)
    ensures part.Some? && part.value.Ok? ==> r == Ok(Put(d, Name(key), part.value.value))
  {
    if part.None? then Ok(d)
    else
      var v :- part.value;
      Ok(Put(d, Name(key), v))
  }

  /** `$data[$key] = $value` when the condition holds. */
  function PutIf(d: Dict<Value>, cond: bool, key: string, v: Value): (r: Dict<Value>)
    ensures cond ==> r == Put(d, Name(key), v)
    ensures !cond ==> r == d
  {
    if cond then Put(d, Name(key), v) else d
  }

  /** Looking up a key after `PutPart`. */
  lemma PutPartLookup(d: Dict<Value>, key: string, part: Option<Result<Value>>, k: Key)
    requires PutPart(d, key, part).Ok?
    ensures Lookup(PutPart(d, key, part).value, k) ==
      if part.Some? && k == Name(key) then Some(part.value.value) else Lookup(d, k)
    ensures HasKey(PutPart(d, key, part).value, k) <==> HasKey(d, k) || (part.Some? && k == Name(key))
  {
    if part.Some? {
      PutLookup(d, Name(key), part.value.value, k);
      PutHasKey(d, Name(key), part.value.value, k);
    }
  }

  /** Looking up a key after `PutIf`. */
  lemma PutIfLookup(d: Dict<Value>, cond: bool, key: string, v: Value, k: Key)
    ensures Lookup(PutIf(d, cond, key, v), k) == if cond && k == Name(key) then Some(v) else Lookup(d, k)
    ensures HasKey(PutIf(d, cond, key, v), k) <==> HasKey(d, k) || (cond && k == Name(key))
  {
    if cond {
      PutLookup(d, Name(key), v, k);
      PutHasKey(d, Name(key), v, k);
    }
  }
}
