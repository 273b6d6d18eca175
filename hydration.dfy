/**
 * The key-consumption tracker used while hydrating an element from an array
 * (src/HydrationData.php). The input array never changes; every `use*` call
 * records the key it read, and the keys nobody read are the "extra" fields
 * the element echoes back when serialised.
 */
module Hydration {
  import opened Outcomes
  import opened Wire

  /** The entries of d whose key is not in gone, in their original order (`array_diff_key`). */
  function Without<V>(d: Dict<V>, gone: set<Key>): (r: Dict<V>)
    ensures |r| <= |d|
    ensures forall e :: e in r ==> e in d && e.key !in gone
  {
    if d == [] then []
    else if d[0].key in gone then Without(d[1..], gone)
    else [d[0]] + Without(d[1..], gone)
  }

  /** `array_diff_key` keeps exactly the keys not consumed, each with its value. */
  lemma {:induction false} WithoutLookup<V>(d: Dict<V>, gone: set<Key>, k: Key)
    ensures Lookup(Without(d, gone), k) == if k in gone then None else Lookup(d, k)
    decreases |d|
  {
    if d != [] {
      WithoutLookup(d[1..], gone, k);
    }
  }

  /** Dropping every key a dictionary has leaves nothing. */
  lemma {:induction false} WithoutAll<V>(d: Dict<V>, gone: set<Key>)
    requires forall i :: 0 <= i < |d| ==> d[i].key in gone
    ensures Without(d, gone) == []
    decreases |d|
  {
    if d != [] {
      assert forall i :: 0 <= i < |d[1..]| ==> d[1..][i] == d[i + 1];
      WithoutAll(d[1..], gone);
    }
  }

  /** Dropping keys never duplicates one. */
  lemma {:induction false} WithoutDistinct<V>(d: Dict<V>, gone: set<Key>)
    requires Distinct(d)
    ensures Distinct(Without(d, gone))
    decreases |d|
  {
    if d != [] {
      WithoutDistinct(d[1..], gone);
      if d[0].key !in gone && HasKey(Without(d[1..], gone), d[0].key) {
        WithoutLookup(d[1..], gone, d[0].key);
      }
    }
  }

  /** The key as a set of one when `has` finds it, otherwise nothing: what `if ($data->has($key)) $data->use...($key)` consumes. */
  function KeyIfSet(data: Dict<Value>, key: string): set<Key> {
    if IsSet(data, Name(key)) then {Name(key)} else {}
  }

  /** `$data->useValue($key)` handed to a `string` parameter, when the key is set. */
  function ReadString(data: Dict<Value>, key: string): (r: Result<Option<string>>)
    ensures !IsSet(data, Name(key)) ==> r == Ok(None)
    ensures IsSet(data, Name(key)) && GetOr(data, Name(key), Null).Str? ==> r == Ok(Some(GetOr(data, Name(key), Null).s))
    ensures IsSet(data, Name(key)) && !GetOr(data, Name(key), Null).Str? ==> r == Err(TypeError)
  {
    if !IsSet(data, Name(key)) then Ok(None)
    else match GetOr(data, Name(key), Null)
      case Str(s) => Ok(Some(s))
      case _ => Err(TypeError)
  }

  /** `$data->useValue($key)` handed to a `bool` parameter, when the key is set. */
  function ReadBool(data: Dict<Value>, key: string): (r: Result<Option<bool>>)
    ensures !IsSet(data, Name(key)) ==> r == Ok(None)
    ensures IsSet(data, Name(key)) && GetOr(data, Name(key), Null).Bool? ==> r == Ok(Some(GetOr(data, Name(key), Null).b))
    ensures IsSet(data, Name(key)) && !GetOr(data, Name(key), Null).Bool? ==> r == Err(TypeError)
  {
    if !IsSet(data, Name(key)) then Ok(None)
    else match GetOr(data, Name(key), Null)
      case Bool(b) => Ok(Some(b))
      case _ => Err(TypeError)
  }

  /**
   * `$data->useValue($key)` handed to an `int` setter that throws err below
   * least, when the key is set: anything but an integer fails the parameter,
   * then the setter's guard applies.
   */
  function IntUnder(data: Dict<Value>, key: string, least: int, err: Error): (r: Result<Option<int>>)
    ensures !IsSet(data, Name(key)) ==> r == Ok(None)
    ensures IsSet(data, Name(key)) && !GetOr(data, Name(key), Null).Int? ==> r == Err(TypeError)
    ensures IsSet(data, Name(key)) && GetOr(data, Name(key), Null).Int? ==>
      r == if GetOr(data, Name(key), Null).i < least then Err(err) else Ok(Some(GetOr(data, Name(key), Null).i))
  {
    if !IsSet(data, Name(key)) then Ok(None)
    else match GetOr(data, Name(key), Null)
      case Int(n) => if n < least then Err(err) else Ok(Some(n))
      case _ => Err(TypeError)
  }

  class HydrationData {
    /** The array being hydrated; it is never modified. */
    const data: Dict<Value>
    /** Keys read so far. */
    var consumed: set<Key>

    constructor(data: Dict<Value>)
      ensures this.data == data && consumed == {}
    {
      this.data := data;
      consumed := {};
    }

    /** `has`: `isset` semantics, so a key holding null counts as absent. */
    function Has(key: string): (r: bool)
      ensures !HasKey(data, Name(key)) ==> !r
      ensures Lookup(data, Name(key)) == Some(Null) ==> !r
      ensures r <==> Lookup(data, Name(key)).Some? && !Lookup(data, Name(key)).value.Null?
    {
      IsSet(data, Name(key))
    }

    /** `get`: the value under key, or default when it is absent or null. */
    function Get(key: string, default: Value): (r: Value)
      ensures Has(key) ==> Some(r) == Lookup(data, Name(key))
      ensures !Has(key) ==> r == default
    {
      GetOr(data, Name(key), default)
    }

    /** `useValue`: marks key consumed and returns `get(key, default)`. */
    method UseValue(key: string, default: Value) returns (r: Value)
      modifies this
      ensures consumed == old(consumed) + {Name(key)}
      ensures r == Get(key, default)
    {
      consumed := consumed + {Name(key)};
      r := Get(key, default);
    }

    /**
     * `useArray`: with a key, marks it consumed and returns the array under it,
     * or [] when absent; a scalar under the key violates the declared `array`
     * return type. Without a key, marks every key consumed and returns the
     * values as a list.
     */
    method UseArray(key: Option<string>) returns (r: Result<Dict<Value>>)
      modifies this
      ensures key.None? ==> consumed == old(consumed) + (set e | e in data :: e.key)
      ensures key.None? ==> r == Ok(List(Values(data)))
      ensures key.Some? ==> consumed == old(consumed) + {Name(key.value)}
      ensures key.Some? && !Has(key.value) ==> r == Ok([])
      ensures key.Some? && Has(key.value) ==>
        r == (match Get(key.value, Null) case Arr(es) => Ok(es) case _ => Err(TypeError))
    {
      if key.None? {
        consumed := consumed + (set e | e in data :: e.key);
        return Ok(List(Values(data)));
      }
      consumed := consumed + {Name(key.value)};
      match Get(key.value, Arr([]))
      case Arr(es) => r := Ok(es);
      case _ => r := Err(TypeError);
    }

    /** `useElements` is `useArray`. */
    method UseElements(key: Option<string>) returns (r: Result<Dict<Value>>)
      modifies this
      ensures key.None? ==> consumed == old(consumed) + (set e | e in data :: e.key)
      ensures key.None? ==> r == Ok(List(Values(data)))
      ensures key.Some? ==> consumed == old(consumed) + {Name(key.value)}
      ensures key.Some? && !Has(key.value) ==> r == Ok([])
      ensures key.Some? && Has(key.value) ==>
        r == (match Get(key.value, Null) case Arr(es) => Ok(es) case _ => Err(TypeError))
    {
      r := UseArray(key);
    }

    /**
     * `useElement`: marks key consumed and returns the array under it, or
     * null when absent; a scalar violates the declared `?array` return type.
     */
    method UseElement(key: string) returns (r: Result<Option<Dict<Value>>>)
      modifies this
      ensures consumed == old(consumed) + {Name(key)}
      ensures !Has(key) ==> r == Ok(None)
      ensures Has(key) ==> r == (match Get(key, Null) case Arr(es) => Ok(Some(es)) case _ => Err(TypeError))
    {
      consumed := consumed + {Name(key)};
      if !Has(key) {
        return Ok(None);
      }
      match Get(key, Null)
      case Arr(es) => r := Ok(Some(es));
      case _ => r := Err(TypeError);
    }

    /** `getExtra`: the input restricted to the keys not consumed, in input order. */
    function GetExtra(): (r: Dict<Value>)
      reads this
      ensures forall e :: e in r ==> e in data && e.key !in consumed
      ensures forall e :: e in data && e.key !in consumed ==> e in r
    {
      ExtraComplete(data, consumed);
      Without(data, consumed)
    }
  }

  lemma {:induction false} ExtraComplete<V>(d: Dict<V>, gone: set<Key>)
    ensures forall e :: e in d && e.key !in gone ==> e in Without(d, gone)
    decreases |d|
  {
    if d != [] {
      ExtraComplete(d[1..], gone);
      assert forall e :: e in d ==> e == d[0] || e in d[1..];
    }
  }

  /** `if ($data->has($key)) ... $data->useValue($key)` into a `string` parameter. */
  method UseString(h: HydrationData, key: string) returns (r: Result<Option<string>>)
    modifies h
    ensures r == ReadString(h.data, key)
    ensures h.consumed == old(h.consumed) + KeyIfSet(h.data, key)
  {
    if !h.Has(key) {
      return Ok(None);
    }
    var v := h.UseValue(key, Null);
    if !v.Str? {
      return Err(TypeError);
    }
    return Ok(Some(v.s));
  }

  /** `if ($data->has($key)) ... $data->useValue($key)` into a `bool` parameter. */
  method UseBool(h: HydrationData, key: string) returns (r: Result<Option<bool>>)
    modifies h
    ensures r == ReadBool(h.data, key)
    ensures h.consumed == old(h.consumed) + KeyIfSet(h.data, key)
  {
    if !h.Has(key) {
      return Ok(None);
    }
    var v := h.UseValue(key, Null);
    if !v.Bool? {
      return Err(TypeError);
    }
    return Ok(Some(v.b));
  }
}
