/**
 * What every element shares (src/Element.php): a parent link, a dictionary of
 * extra fields, serialisation that validates first and emits the wire type,
 * class resolution for `fromArray`, and the base `hydrate` that checks the
 * type tag and keeps the unread keys as extras.
 *
 * PHP inheritance is composition here: each modelled element class owns an
 * `ElementBase` holding the Element fields, and its own `toArray` starts from
 * `ElementBase.ToArray`. A child element whose class may vary (a block, an
 * accessory, an option group) is held by its container as a `Child`: its
 * class, its ids, its validation outcome and a function from its block id to
 * its serialised form.
 */
module Elements {
  import opened Classes
  import opened Outcomes
  import opened Wire
  import opened Types
  import opened Hydration

  /** An extra field: a plain value, or an element, serialised with `toArray`. */
  datatype ExtraValue = Plain(v: Value) | Nested(out: Result<Dict<Value>>)

  type Extras = Dict<ExtraValue>

  /** The output value of one extra field. */
  function Emit(x: ExtraValue): (r: Result<Value>)
    ensures x.Plain? ==> r == Ok(x.v)
    ensures x.Nested? && x.out.Ok? ==> r == Ok(Arr(x.out.value))
    ensures x.Nested? && x.out.Err? ==> r == Err(x.out.error)
  {
    match x
    case Plain(v) => Ok(v)
    case Nested(out) => (var d :- out; Ok(Arr(d)))
  }

  /**
   * `foreach ($extra as $key => $value) $data[$key] = ...`, in order; a
   * failure is the failure of one of the extras.
   */
  function WriteExtras(d: Dict<Value>, extra: Extras): (r: Result<Dict<Value>>)
    ensures r.Err? ==> exists i :: 0 <= i < |extra| && Emit(extra[i].val) == Err(r.error)
    decreases |extra|
  {
    if extra == [] then Ok(d)
    else
      var v :- Emit(extra[0].val);
      assert forall i :: 1 <= i < |extra| ==> extra[i] == extra[1..][i - 1];
      WriteExtras(Put(d, extra[0].key, v), extra[1..])
  }

  /** Writing extras fails exactly when one of them is an element that fails. */
  lemma {:induction false} WriteExtrasFails(d: Dict<Value>, extra: Extras)
    ensures WriteExtras(d, extra).Ok? <==> forall i :: 0 <= i < |extra| ==> Emit(extra[i].val).Ok?
    decreases |extra|
  {
    if extra != [] && Emit(extra[0].val).Ok? {
      WriteExtrasFails(Put(d, extra[0].key, Emit(extra[0].val).value), extra[1..]);
      assert forall i :: 1 <= i < |extra| ==> extra[i] == extra[1..][i - 1];
    }
  }

  /** Every extra lands in the output under its own key; other keys keep their value. */
  lemma {:induction false} WriteExtrasLookup(d: Dict<Value>, extra: Extras, k: Key)
    requires Distinct(extra)
    requires WriteExtras(d, extra).Ok?
    ensures HasKey(extra, k) ==>
      (Lookup(WriteExtras(d, extra).value, k).Some? &&
       Emit(Lookup(extra, k).value) == Ok(Lookup(WriteExtras(d, extra).value, k).value))
    ensures !HasKey(extra, k) ==> Lookup(WriteExtras(d, extra).value, k) == Lookup(d, k)
    decreases |extra|
  {
    if extra != [] {
      var v := Emit(extra[0].val).value;
      WriteExtrasLookup(Put(d, extra[0].key, v), extra[1..], k);
      PutLookup(d, extra[0].key, v, k);
      assert Keys(extra) == [extra[0].key] + Keys(extra[1..]);
    }
  }

  /**
   * `Element::toArray`: validate first, then the wire type unless it is
   * hidden, then the extras.
   */
  function BaseArray(cls: Class, valid: Outcome, extra: Extras): (r: Result<Dict<Value>>)
    ensures valid.Fail? ==> r == Err(valid.error)
    ensures valid.Pass? && !Registered(cls) ==> r == Err(NoTypeForClass(cls))
  {
    if valid.Fail? then Err(valid.error)
    else
      var t :- MapClass(cls);
      var head := if Hidden(t) then [] else [Entry(Name("type"), Str(t))];
      WriteExtras(head, extra)
  }

  /**
   * The serialised element carries 'type' exactly when its tag is not hidden
   * (unless an extra named 'type' overrides it).
   */
  lemma TypeKeyUnlessHidden(cls: Class, valid: Outcome, extra: Extras)
    requires Distinct(extra)
    requires BaseArray(cls, valid, extra).Ok?
    requires !HasKey(extra, Name("type"))
    ensures valid.Pass? && Registered(cls)
    ensures HasKey(BaseArray(cls, valid, extra).value, Name("type")) <==> !Hidden(MapClass(cls).value)
  {
    var t := MapClass(cls).value;
    var head: Dict<Value> := if Hidden(t) then [] else [Entry(Name("type"), Str(t))];
    WriteExtrasLookup(head, extra, Name("type"));
  }

  /** Every extra is copied into the output under its key; an element extra as its own `toArray()`. */
  lemma ExtrasCopied(cls: Class, valid: Outcome, extra: Extras, k: Key)
    requires Distinct(extra)
    requires BaseArray(cls, valid, extra).Ok?
    requires HasKey(extra, k)
    ensures Lookup(BaseArray(cls, valid, extra).value, k).Some?
    ensures Emit(Lookup(extra, k).value) == Ok(Lookup(BaseArray(cls, valid, extra).value, k).value)
  {
    var t := MapClass(cls).value;
    var head: Dict<Value> := if Hidden(t) then [] else [Entry(Name("type"), Str(t))];
    WriteExtrasLookup(head, extra, k);
  }

  /** What a callable passed to `tap` does to an element: new Element fields from the old ones. */
  type Tapper = (Option<Class>, Extras) -> (Option<Class>, Extras)

  /** The Element fields: the late-static-bound class, the parent and the extras. */
  class ElementBase {
    const cls: Class
    var parent: Option<Class>
    var extra: Extras

    predicate Valid()
      reads this
    {
      Distinct(extra)
    }

    constructor(cls: Class)
      ensures this.cls == cls && parent == None && extra == []
      ensures Valid()
    {
      this.cls := cls;
      parent := None;
      extra := [];
    }

    /** `getType`. */
    function Tag(): (r: Result<string>)
      ensures r == MapClass(cls)
    {
      MapClass(cls)
    }

    /** `setParent`: only the parent changes. */
    method SetParent(p: Class)
      modifies this
      ensures parent == Some(p) && extra == old(extra)
      ensures Valid() == old(Valid())
    {
      parent := Some(p);
    }

    /** `setExtra`: key now holds v, every other extra is untouched. */
    method SetExtra(key: string, v: ExtraValue)
      requires Valid()
      modifies this
      ensures parent == old(parent)
      ensures extra == Put(old(extra), Name(key), v)
      ensures Lookup(extra, Name(key)) == Some(v)
      ensures forall k :: k != Name(key) ==> Lookup(extra, k) == Lookup(old(extra), k)
      ensures Valid()
    {
      forall k ensures Lookup(Put(extra, Name(key), v), k) == if k == Name(key) then Some(v) else Lookup(extra, k) {
        PutLookup(extra, Name(key), v, k);
      }
      PutDistinct(extra, Name(key), v);
      extra := Put(extra, Name(key), v);
    }

    /** `tap`: runs the callback on the element and returns the element itself. */
    method Tap(tap: Tapper) returns (r: ElementBase)
      modifies this
      ensures r == this
      ensures (parent, extra) == tap(old(parent), old(extra))
    {
      parent, extra := tap(parent, extra).0, tap(parent, extra).1;
      r := this;
    }

    /** `tapIf`: runs the callback only when the condition holds, and returns the element itself. */
    method TapIf(condition: bool, tap: Tapper) returns (r: ElementBase)
      modifies this
      ensures r == this
      ensures condition ==> (parent, extra) == tap(old(parent), old(extra))
      ensures !condition ==> parent == old(parent) && extra == old(extra)
    {
      if condition {
        r := Tap(tap);
      } else {
        r := this;
      }
    }

    /** The part of `toArray` that Element contributes, given the subclass's validation outcome. */
    function ToArray(valid: Outcome): (r: Result<Dict<Value>>)
      reads this
      ensures valid.Fail? ==> r == Err(valid.error)
    {
      BaseArray(cls, valid, extra)
    }

    /**
     * `Element::hydrate` up to the final `validate()`, which the subclass
     * runs: a string 'type' must map to exactly this class; every unread key
     * becomes an extra (an integer key fails the `string $key` parameter).
     */
    method Hydrate(h: HydrationData) returns (r: Outcome)
      requires Valid()
      modifies this, h
      ensures h.consumed == old(h.consumed) + {Name("type")}
      ensures parent == old(parent)
      ensures r == HydrateOutcome(cls, h.Get("type", Null), old(extra), Without(h.data, h.consumed))
      ensures r.Pass? ==> extra == AddExtras(old(extra), Without(h.data, h.consumed)).value
      ensures Valid()
    {
      var t := h.UseValue("type", Null);
      var checked := TagCheck(cls, t);
      if checked.Fail? {
        return checked;
      }
      var ex := h.GetExtra();
      r := SetExtras(ex);
    }

    /** The `foreach` of `hydrate`: `setExtra($key, $value)` for each entry, in order. */
    method SetExtras(ex: Dict<Value>) returns (r: Outcome)
      requires Valid()
      modifies this
      ensures parent == old(parent) && Valid()
      ensures r.Pass? <==> AddExtras(old(extra), ex).Ok?
      ensures r.Fail? ==> r.error == TypeError
      ensures r.Pass? ==> extra == AddExtras(old(extra), ex).value
    {
      var i := 0;
      while i < |ex|
        invariant 0 <= i <= |ex|
        invariant Valid() && parent == old(parent)
        invariant AddExtras(old(extra), ex) == AddExtras(extra, ex[i..])
      {
        if ex[i].key.Idx? {
          return Fail(TypeError);
        }
        SetExtra(ex[i].key.s, Plain(ex[i].val));
        assert ex[i..][1..] == ex[i + 1..];
        i := i + 1;
      }
      return Pass;
    }
  }

  /** The extras after `setExtra($key, $value)` for each unread entry, in order. */
  function AddExtras(extra: Extras, entries: Dict<Value>): (r: Result<Extras>)
    ensures r.Err? ==> r.error == TypeError
    decreases |entries|
  {
    if entries == [] then Ok(extra)
    else if entries[0].key.Idx? then Err(TypeError)
    else AddExtras(Put(extra, entries[0].key, Plain(entries[0].val)), entries[1..])
  }

  /** What the base `hydrate` concludes from the tag it read and the unread entries. */
  function HydrateOutcome(cls: Class, tag: Value, extra: Extras, unread: Dict<Value>): Outcome {
    if TagCheck(cls, tag).Fail? then TagCheck(cls, tag)
    else if AddExtras(extra, unread).Err? then Fail(TypeError)
    else Pass
  }

  /** A string tag must name exactly cls; a missing or non-string tag is not checked. */
  function TagCheck(cls: Class, tag: Value): (r: Outcome)
    ensures !tag.Str? ==> r == Pass
    ensures tag.Str? && MapType(tag.s).Err? ==> r == Fail(NoClassForType(tag.s))
    ensures r.Pass? <==> !tag.Str? || MapType(tag.s) == Ok(cls)
  {
    if !tag.Str? then Pass
    else match MapType(tag.s)
      case Err(e) => Fail(e)
      case Ok(c) => if c == cls then Pass else Fail(TypeDoesNotMapToClass(tag.s, cls))
  }

  /** Hydrated extras hold exactly the unread entries, each as a plain value. */
  lemma {:induction false} AddExtrasLookup(extra: Extras, entries: Dict<Value>, k: Key)
    requires Distinct(entries)
    requires AddExtras(extra, entries).Ok?
    ensures Lookup(AddExtras(extra, entries).value, k) ==
      if HasKey(entries, k) then Some(Plain(Lookup(entries, k).value)) else Lookup(extra, k)
    decreases |entries|
  {
    if entries != [] {
      var e := entries[0];
      AddExtrasLookup(Put(extra, e.key, Plain(e.val)), entries[1..], k);
      PutLookup(extra, e.key, Plain(e.val), k);
      assert Keys(entries) == [e.key] + Keys(entries[1..]);
    }
  }

  /** `(string)$value` for the scalar found under 'type'. */
  function CastToString(v: Value): (s: string)
    ensures v.Str? ==> s == v.s
  {
    match v
    case Null => ""
    case Bool(b) => if b then "1" else ""
    case Int(i) => IntToString(i)
    case Str(s) => s
    case Arr(_) => "Array"
  }

  /**
   * The class `fromArray` instantiates when called on `expected`: the class
   * mapped from the 'type' tag if there is one, which must be expected or a
   * subclass of it, otherwise expected itself; `new` on an abstract class fails.
   */
  function ResolveClass(expected: Class, data: Dict<Value>): (r: Result<Class>)
    ensures r.Ok? ==> IsA(r.value, expected) && !IsAbstract(r.value)
    ensures !IsSet(data, Name("type")) ==>
      r == if IsAbstract(expected) then Err(AbstractClass(expected)) else Ok(expected)
    ensures IsSet(data, Name("type")) && r.Ok? ==>
      MapType(CastToString(GetOr(data, Name("type"), Null))) == Ok(r.value)
  {
    var c :-
      if IsSet(data, Name("type")) then
        var tc :- MapType(CastToString(GetOr(data, Name("type"), Null)));
        if IsA(tc, expected) then Ok(tc) else Err(ClassMismatch(tc, expected))
      else Ok(expected);
    if IsAbstract(c) then Err(AbstractClass(c)) else Ok(c)
  }

  /** A tag naming a class outside the expected hierarchy is rejected. */
  lemma ResolveClassMismatch(expected: Class, data: Dict<Value>)
    requires IsSet(data, Name("type"))
    requires MapType(CastToString(GetOr(data, Name("type"), Null))).Ok?
    requires !IsA(MapType(CastToString(GetOr(data, Name("type"), Null))).value, expected)
    ensures ResolveClass(expected, data) ==
      Err(ClassMismatch(MapType(CastToString(GetOr(data, Name("type"), Null))).value, expected))
  {
  }

  /**
   * A child element as its container holds it: its class, its block id (for
   * blocks) or action id (for inputs), the outcome of its `validate()`, and
   * its `toArray()` as a function of the block id, so a container that
   * renames its blocks sees the new ids in the output.
   */
  datatype Child = Child(
    cls: Class,
    blockId: Option<string>,
    actionId: Option<string>,
    valid: Outcome,
    render: Option<string> -> Result<Dict<Value>>)
  {
    function ToArray(): Result<Dict<Value>> {
      render(blockId)
    }

    function Tag(): Result<string> {
      MapClass(cls)
    }

    function WithBlockId(id: string): Child {
      this.(blockId := Some(id))
    }
  }

  /** The `foreach (...) $child->validate()` loop: the first failure, if any. */
  function ChildrenVerdict(cs: seq<Child>): (r: Outcome)
    ensures r.Pass? <==> forall i :: 0 <= i < |cs| ==> cs[i].valid.Pass?
    ensures r.Fail? ==> exists i :: 0 <= i < |cs| && cs[i].valid == r
  {
    if cs == [] then Pass
    else if cs[0].valid.Fail? then cs[0].valid
    else
      assert forall i :: 1 <= i < |cs| ==> cs[i] == cs[1..][i - 1];
      ChildrenVerdict(cs[1..])
  }

  /** Each child validated in turn; the first exception propagates. */
  method ValidateChildren(cs: seq<Child>) returns (r: Outcome)
    ensures r == ChildrenVerdict(cs)
  {
    var i := 0;
    while i < |cs|
      invariant 0 <= i <= |cs|
      invariant ChildrenVerdict(cs) == ChildrenVerdict(cs[i..])
    {
      if cs[i].valid.Fail? {
        return cs[i].valid;
      }
      assert cs[i..][1..] == cs[i + 1..];
      i := i + 1;
    }
    return Pass;
  }

  /** A child's `toArray`, as a list element. */
  function ChildValue(c: Child): (r: Result<Value>)
    ensures c.ToArray().Err? ==> r == Err(c.ToArray().error)
    ensures c.ToArray().Ok? ==> r == Ok(Arr(c.ToArray().value))
  {
    var d :- c.ToArray();
    Ok(Arr(d))
  }

  /** `BlockElement::toArray` adds 'block_id' when the id is a non-empty string. */
  function WithBlockIdKey(d: Dict<Value>, blockId: Option<string>): (r: Dict<Value>)
    ensures blockId.Some? && blockId.value != "" ==> r == Put(d, Name("block_id"), Str(blockId.value))
    ensures blockId.None? || blockId.value == "" ==> r == d
  {
    if blockId.Some? && blockId.value != "" then Put(d, Name("block_id"), Str(blockId.value)) else d
  }

  /** `InputElement::toArray` adds 'action_id' unless the id is `empty()` (so "0" is dropped too). */
  function WithActionIdKey(d: Dict<Value>, actionId: Option<string>): (r: Dict<Value>)
    ensures !EmptyString(actionId) ==> r == Put(d, Name("action_id"), Str(actionId.value))
    ensures EmptyString(actionId) ==> r == d
  {
    if !EmptyString(actionId) then Put(d, Name("action_id"), Str(actionId.value)) else d
  }

  /** The value a PHP `?bool` parameter accepts from hydration data. */
  function AsOptBool(v: Value): (r: Result<Option<bool>>)
    ensures v.Null? ==> r == Ok(None)
    ensures v.Bool? ==> r == Ok(Some(v.b))
    ensures !v.Null? && !v.Bool? ==> r == Err(TypeError)
  {
    match v
    case Null => Ok(None)
    case Bool(b) => Ok(Some(b))
    case _ => Err(TypeError)
  }
}
