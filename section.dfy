/**
 * The section block (src/Blocks/Section.php): a text, a fields list, or
 * both, plus at most one accessory element from the accessory allow-list.
 * Its text is a value; its fields are a `FieldList` object it shares with
 * whoever built it; its accessory is a `Child` summary.
 */
module Sections {
  import opened Classes
  import opened Outcomes
  import opened Wire
  import opened Types
  import opened Elements
  import opened Texts
  import opened FieldLists

  /**
   * The check of `setAccessory`: there must be no accessory yet (the message
   * names the one already there), and the new one's tag must be on the
   * accessory list. `getType` on an unregistered class fails first.
   */
  function AccessoryCheck(current: Option<Child>, a: Child): (r: Outcome)
    ensures current.Some? ==> r.Fail?
    ensures current.Some? && current.value.Tag().Ok? ==> r == Fail(AccessoryAlreadySet(current.value.Tag().value))
    ensures current.None? && a.Tag().Ok? && a.Tag().value !in ACCESSORY_ELEMENTS ==> r == Fail(InvalidAccessory(a.Tag().value))
    ensures r.Pass? <==> current.None? && a.Tag().Ok? && a.Tag().value in ACCESSORY_ELEMENTS
  {
    if current.Some? then
      match current.value.Tag()
      case Err(e) => Fail(e)
      case Ok(t) => Fail(AccessoryAlreadySet(t))
    else
      match a.Tag()
      case Err(e) => Fail(e)
      case Ok(t) => if t in ACCESSORY_ELEMENTS then Pass else Fail(InvalidAccessory(t))
  }

  /**
   * `Section::validate`: a text or fields must be there; then the text, the
   * fields and the accessory are validated in that order.
   */
  function SectionVerdict(text: Option<TextObject>, fields: Option<seq<TextObject>>, accessory: Option<Child>): (r: Outcome)
    ensures text.None? && fields.None? ==> r == Fail(SectionEmpty)
    ensures text.Some? && text.value.Validate().Fail? ==> r == text.value.Validate()
    ensures (text.Some? || fields.Some?) && (text.Some? ==> text.value.Validate().Pass?)
      && fields.Some? && FieldsVerdict(fields.value).Fail?
      ==> r == FieldsVerdict(fields.value)
    ensures (text.Some? || fields.Some?) && (text.Some? ==> text.value.Validate().Pass?)
      && (fields.Some? ==> FieldsVerdict(fields.value).Pass?) && accessory.Some?
      ==> r == accessory.value.valid
    ensures r.Pass? <==>
      && (text.Some? || fields.Some?)
      && (text.Some? ==> text.value.Validate().Pass?)
      && (fields.Some? ==> FieldsVerdict(fields.value).Pass?)
      && (accessory.Some? ==> accessory.value.valid.Pass?)
  {
    if text.None? && fields.None? then Fail(SectionEmpty)
    else if text.Some? && text.value.Validate().Fail? then text.value.Validate()
    else if fields.Some? && FieldsVerdict(fields.value).Fail? then FieldsVerdict(fields.value)
    else if accessory.Some? then accessory.value.valid
    else Pass
  }

  /**
   * A section is valid exactly when it has a text or fields, its text is
   * not empty, it has at least one field and every field is valid, and its
   * accessory is valid, each part when present.
   */
  lemma SectionPasses(text: Option<TextObject>, fields: Option<seq<TextObject>>, accessory: Option<Child>)
    ensures SectionVerdict(text, fields, accessory).Pass? <==>
      && (text.Some? || fields.Some?)
      && (text.Some? ==> text.value.text.Some? && text.value.text.value != "")
      && (fields.Some? ==> 1 <= |fields.value| && forall i :: 0 <= i < |fields.value| ==> fields.value[i].Validate().Pass?)
      && (accessory.Some? ==> accessory.value.valid.Pass?)
  {
  }

  /** The fields' `toArray`, as the value under 'fields'. */
  function FieldsValue(fields: seq<TextObject>, extra: Extras): (r: Result<Value>)
    ensures FieldsArray(fields, extra).Ok? ==> r == Ok(Arr(FieldsArray(fields, extra).value))
    ensures FieldsArray(fields, extra).Err? ==> r == Err(FieldsArray(fields, extra).error)
  {
    var d :- FieldsArray(fields, extra);
    Ok(Arr(d))
  }

  /** The parts of a section, as the values `toArray` writes (None when absent). */
  function FieldsPart(fields: Option<(seq<TextObject>, Extras)>): Option<Result<Value>> {
    if fields.Some? then Some(FieldsValue(fields.value.0, fields.value.1)) else None
  }

  function AccessoryPart(accessory: Option<Child>): Option<Result<Value>> {
    if accessory.Some? then Some(ChildValue(accessory.value)) else None
  }

  /** The texts of the fields, when there are fields. */
  function FieldTexts(fields: Option<(seq<TextObject>, Extras)>): Option<seq<TextObject>> {
    if fields.Some? then Some(fields.value.0) else None
  }

  /**
   * `Section::toArray`: the base output of the block (validated, typed,
   * extras, 'block_id'), then 'text', 'fields' and 'accessory' for the parts
   * that are present.
   */
  function SectionArray(blockId: Option<string>, text: Option<TextObject>, fields: Option<(seq<TextObject>, Extras)>,
                        accessory: Option<Child>, extra: Extras): (r: Result<Dict<Value>>)
    ensures SectionVerdict(text, FieldTexts(fields), accessory).Fail? ==>
      r == Err(SectionVerdict(text, FieldTexts(fields), accessory).error)
  {
    var d :- BaseArray(Section, SectionVerdict(text, FieldTexts(fields), accessory), extra);
    var withText :- PutPart(WithBlockIdKey(d, blockId), "text", TextPart(text));
    var withFields :- PutPart(withText, "fields", FieldsPart(fields));
    PutPart(withFields, "accessory", AccessoryPart(accessory))
  }

  /** The output keys a section writes are different keys. */
  lemma PartKeysDiffer()
    ensures Name("text") != Name("fields") && Name("text") != Name("accessory") && Name("fields") != Name("accessory")
  {
    assert "text"[0] != "fields"[0] && "text"[0] != "accessory"[0] && "fields"[0] != "accessory"[0];
  }

  /** Each part present is written under its own key as its own array, and nothing later overwrites it. */
  lemma SectionArrayParts(blockId: Option<string>, text: Option<TextObject>, fields: Option<(seq<TextObject>, Extras)>,
                          accessory: Option<Child>, extra: Extras)
    requires SectionArray(blockId, text, fields, accessory, extra).Ok?
    ensures text.Some? ==> (text.value.ToArray().Ok? &&
      Lookup(SectionArray(blockId, text, fields, accessory, extra).value, Name("text")) == Some(Arr(text.value.ToArray().value)))
    ensures fields.Some? ==> (FieldsArray(fields.value.0, fields.value.1).Ok? &&
      Lookup(SectionArray(blockId, text, fields, accessory, extra).value, Name("fields")) ==
        Some(Arr(FieldsArray(fields.value.0, fields.value.1).value)))
    ensures accessory.Some? ==> (accessory.value.ToArray().Ok? &&
      Lookup(SectionArray(blockId, text, fields, accessory, extra).value, Name("accessory")) ==
        Some(Arr(accessory.value.ToArray().value)))
  {
    PartKeysDiffer();
    var d := BaseArray(Section, SectionVerdict(text, FieldTexts(fields), accessory), extra).value;
    var withText := PutPart(WithBlockIdKey(d, blockId), "text", TextPart(text)).value;
    var withFields := PutPart(withText, "fields", FieldsPart(fields)).value;
    if text.Some? {
      PutLookup(WithBlockIdKey(d, blockId), Name("text"), TextPart(text).value.value, Name("text"));
    }
    if fields.Some? {
      PutLookup(withText, Name("fields"), FieldsPart(fields).value.value, Name("fields"));
      PutLookup(withText, Name("fields"), FieldsPart(fields).value.value, Name("text"));
    }
    if accessory.Some? {
      PutLookup(withFields, Name("accessory"), AccessoryPart(accessory).value.value, Name("accessory"));
      PutLookup(withFields, Name("accessory"), AccessoryPart(accessory).value.value, Name("text"));
      PutLookup(withFields, Name("accessory"), AccessoryPart(accessory).value.value, Name("fields"));
    }
  }

  /**
   * `fieldMap` as intended: for each pair a label field made from the key,
   * then a field made from the value, both mrkdwn, each through `add`.
   */
  function FieldMapped(fields: seq<TextObject>, pairs: Dict<Value>, dv: Option<bool>): (r: Result<seq<TextObject>>)
    ensures r.Ok? ==> |r.value| == |fields| + 2 * |pairs|
    ensures r.Ok? && pairs != [] ==> |r.value| <= MAX_FIELDS
    ensures pairs != [] && |fields| + 2 * |pairs| > MAX_FIELDS ==> r.Err?
    decreases |pairs|
  {
    if pairs == [] then Ok(fields)
    else if |fields| >= MAX_FIELDS then Err(TooManyFields)
    else
      var v :- Wrap(Scalar(pairs[0].val), dv);
      if |fields| + 1 >= MAX_FIELDS then Err(TooManyFields)
      else FieldMapped(fields + [NewMrkdwn(Some(KeyText(pairs[0].key)), None, dv), v], pairs[1..], dv)
  }

  /**
   * `fieldMap` as written: `new MrkdwnText($key)` under `strict_types`
   * rejects an integer key, and PHP stores every decimal string key such
   * as "1" or "2024" as an integer.
   */
  function FieldMappedAsWritten(fields: seq<TextObject>, pairs: Dict<Value>, dv: Option<bool>): (r: Result<seq<TextObject>>)
    ensures r.Ok? ==> forall i :: 0 <= i < |pairs| ==> pairs[i].key.Name?
    ensures r.Ok? ==> |r.value| == |fields| + 2 * |pairs|
    decreases |pairs|
  {
    if pairs == [] then Ok(fields)
    else if pairs[0].key.Idx? then Err(TypeError)
    else if |fields| >= MAX_FIELDS then Err(TooManyFields)
    else
      var v :- Wrap(Scalar(pairs[0].val), dv);
      if |fields| + 1 >= MAX_FIELDS then Err(TooManyFields)
      else
        assert forall i :: 1 <= i < |pairs| ==> pairs[i] == pairs[1..][i - 1];
        FieldMappedAsWritten(fields + [NewMrkdwn(Some(pairs[0].key.s), None, dv), v], pairs[1..], dv)
  }

  /** The label "1" reaches the map as the integer key 1, and the map is turned away. */
  lemma NumericLabelRejected(dv: Option<bool>)
    ensures FieldMappedAsWritten([], [Entry(Idx(1), Str("one"))], dv) == Err(TypeError)
    ensures FieldMapped([], [Entry(Idx(1), Str("one"))], dv) ==
      Ok([NewMrkdwn(Some("1"), None, dv), NewMrkdwn(Some("one"), None, dv)])
  {
    var pairs := [Entry(Idx(1), Str("one"))];
    assert NatToString(1) == "1";
    assert KeyText(Idx(1)) == "1";
    var k, v := NewMrkdwn(Some("1"), None, dv), NewMrkdwn(Some("one"), None, dv);
    assert Wrap(Scalar(pairs[0].val), dv) == Ok(v);
    assert KeyText(pairs[0].key) == "1" && pairs[1..] == [];
    assert [] + [k, v] == [k, v];
    assert FieldMapped([], pairs, dv) == FieldMapped([k, v], [], dv);
  }

  /** With string keys only, the code as written and as intended agree. */
  lemma {:induction false} NamedKeysAgree(fields: seq<TextObject>, pairs: Dict<Value>, dv: Option<bool>)
    requires forall i :: 0 <= i < |pairs| ==> pairs[i].key.Name?
    ensures FieldMappedAsWritten(fields, pairs, dv) == FieldMapped(fields, pairs, dv)
    decreases |pairs|
  {
    if pairs != [] && |fields| + 1 < MAX_FIELDS && Wrap(Scalar(pairs[0].val), dv).Ok? {
      var v := Wrap(Scalar(pairs[0].val), dv).value;
      var k := NewMrkdwn(Some(pairs[0].key.s), None, dv);
      assert KeyText(pairs[0].key) == pairs[0].key.s;
      assert FieldMapped(fields, pairs, dv) == FieldMapped(fields + [k, v], pairs[1..], dv);
      assert FieldMappedAsWritten(fields, pairs, dv) == FieldMappedAsWritten(fields + [k, v], pairs[1..], dv);
      assert forall i :: 0 <= i < |pairs[1..]| ==> pairs[1..][i] == pairs[i + 1];
      NamedKeysAgree(fields + [k, v], pairs[1..], dv);
    }
  }

  /** Every value of the map is a string or null, the only values `new MrkdwnText` accepts. */
  ghost predicate AllLabelled(pairs: Dict<Value>) {
    forall i :: 0 <= i < |pairs| ==> pairs[i].val.Str? || pairs[i].val.Null?
  }

  lemma AllLabelledStep(pairs: Dict<Value>)
    requires pairs != []
    ensures AllLabelled(pairs) <==> (pairs[0].val.Str? || pairs[0].val.Null?) && AllLabelled(pairs[1..])
  {
    assert forall i :: 1 <= i < |pairs| ==> pairs[i] == pairs[1..][i - 1];
  }

  /** `fieldMap` succeeds exactly when the pairs fit in the ten fields and every value can be wrapped. */
  lemma {:induction false} FieldMappedSucceeds(fields: seq<TextObject>, pairs: Dict<Value>, dv: Option<bool>)
    requires |fields| <= MAX_FIELDS
    ensures FieldMapped(fields, pairs, dv).Ok? <==> |fields| + 2 * |pairs| <= MAX_FIELDS && AllLabelled(pairs)
    decreases |pairs|
  {
    if pairs != [] {
      AllLabelledStep(pairs);
      if |fields| + 1 < MAX_FIELDS && Wrap(Scalar(pairs[0].val), dv).Ok? {
        var v := Wrap(Scalar(pairs[0].val), dv).value;
        var k := NewMrkdwn(Some(KeyText(pairs[0].key)), None, dv);
        assert FieldMapped(fields, pairs, dv) == FieldMapped(fields + [k, v], pairs[1..], dv);
        FieldMappedSucceeds(fields + [k, v], pairs[1..], dv);
      }
    }
  }

  /**
   * After a successful `fieldMap` the fields already there are kept and,
   * pair by pair, the key's label and the value's text follow them.
   */
  lemma {:induction false} FieldMappedOrder(fields: seq<TextObject>, pairs: Dict<Value>, dv: Option<bool>)
    requires FieldMapped(fields, pairs, dv).Ok?
    ensures |FieldMapped(fields, pairs, dv).value| == |fields| + 2 * |pairs|
    ensures FieldMapped(fields, pairs, dv).value[..|fields|] == fields
    ensures forall i :: 0 <= i < |pairs| ==>
      FieldMapped(fields, pairs, dv).value[|fields| + 2 * i] == NewMrkdwn(Some(KeyText(pairs[i].key)), None, dv) &&
      Wrap(Scalar(pairs[i].val), dv) == Ok(FieldMapped(fields, pairs, dv).value[|fields| + 2 * i + 1])
    decreases |pairs|
  {
    if pairs != [] {
      var v := Wrap(Scalar(pairs[0].val), dv).value;
      var k := NewMrkdwn(Some(KeyText(pairs[0].key)), None, dv);
      var rest := pairs[1..];
      var f2 := fields + [k, v];
      assert FieldMapped(fields, pairs, dv) == FieldMapped(f2, rest, dv);
      FieldMappedOrder(f2, rest, dv);
      var r := FieldMapped(f2, rest, dv).value;
      assert r[..|f2|] == f2;
      assert r[..|fields|] == f2[..|fields|];
      forall i | 0 <= i < |pairs|
        ensures r[|fields| + 2 * i] == NewMrkdwn(Some(KeyText(pairs[i].key)), None, dv)
        ensures Wrap(Scalar(pairs[i].val), dv) == Ok(r[|fields| + 2 * i + 1])
      {
        if i == 0 {
          assert r[|fields|] == f2[|fields|];
          assert r[|fields| + 1] == f2[|fields| + 1];
        } else {
          assert pairs[i] == rest[i - 1];
          assert |fields| + 2 * i == |f2| + 2 * (i - 1);
        }
      }
    }
  }


  class SectionBlock {
    const base: ElementBase
    var blockId: Option<string>
    var text: Option<TextObject>
    var fields: Option<FieldList>
    var accessory: Option<Child>

    /** The fields list and its Element part, when there is one. */
    function FieldsRepr(): set<object>
      reads this
    {
      if fields.Some? then {fields.value, fields.value.base} else {}
    }

    /** The texts and extras of the fields, when there are fields. */
    function FieldsState(): Option<(seq<TextObject>, Extras)>
      reads this, FieldsRepr()
    {
      if fields.Some? then Some((fields.value.fields, fields.value.base.extra)) else None
    }

    /** A section's accessory, once set, came through the accessory allow-list. */
    ghost predicate Valid()
      reads this, base, FieldsRepr()
    {
      base.cls == Section && base.Valid() &&
      (fields.Some? ==> fields.value.Valid()) &&
      (accessory.Some? ==> accessory.value.Tag().Ok? && accessory.value.Tag().value in ACCESSORY_ELEMENTS)
    }

    /** `new Section($blockId, $text)`: an empty block id or text is not set; a text becomes mrkdwn. */
    constructor(blockId: Option<string>, text: Option<string>, defaultVerbatim: Option<bool>)
      ensures this.blockId == (if blockId == Some("") then None else blockId)
      ensures this.text == (if text.None? || text == Some("") then None else Some(NewMrkdwn(text, None, defaultVerbatim)))
      ensures fields.None? && accessory.None? && fresh(base) && base.extra == []
      ensures Valid()
    {
      base := new ElementBase(Section);
      this.blockId := if blockId == Some("") then None else blockId;
      this.text := if text.None? || text == Some("") then None else Some(NewMrkdwn(text, None, defaultVerbatim));
      fields := None;
      accessory := None;
    }

    /** `setText`. */
    method SetText(t: TextObject)
      requires Valid()
      modifies this
      ensures text == Some(t) && fields == old(fields) && accessory == old(accessory) && blockId == old(blockId)
      ensures Valid()
    {
      text := Some(t);
    }

    /** `setFields`: the list is shared, and its parent becomes the section. */
    method SetFields(f: FieldList)
      requires Valid() && f.Valid()
      modifies this, f.base
      ensures fields == Some(f) && f.base.parent == Some(Section) && f.fields == old(f.fields)
      ensures f.base.extra == old(f.base.extra)
      ensures text == old(text) && accessory == old(accessory) && blockId == old(blockId)
      ensures Valid()
    {
      f.base.SetParent(Section);
      fields := Some(f);
    }

    /** `setAccessory`: only once, and only for an element from the accessory list. */
    method SetAccessory(a: Child) returns (r: Outcome)
      requires Valid()
      modifies this
      ensures r == AccessoryCheck(old(accessory), a)
      ensures r.Pass? ==> accessory == Some(a)
      ensures r.Fail? ==> accessory == old(accessory)
      ensures text == old(text) && fields == old(fields) && blockId == old(blockId)
      ensures Valid()
    {
      r := AccessoryCheck(accessory, a);
      if r.Pass? {
        accessory := Some(a);
      }
    }

    /** `fieldMap`: a new fields list from the pairs, set only when every `add` succeeded. */
    method FieldMap(pairs: Dict<Value>, defaultVerbatim: Option<bool>) returns (r: Outcome)
      requires Valid()
      modifies this
      ensures r.Pass? <==> FieldMapped([], pairs, defaultVerbatim).Ok?
      ensures r.Fail? ==> FieldMapped([], pairs, defaultVerbatim) == Err(r.error) && fields == old(fields)
      ensures r.Pass? ==> fields.Some? && fresh(fields.value) && fields.value.fields == FieldMapped([], pairs, defaultVerbatim).value
      ensures r.Pass? ==> fields.value.base.parent == Some(Section) && fields.value.base.extra == []
      ensures text == old(text) && accessory == old(accessory) && blockId == old(blockId)
      ensures Valid()
    {
      var f := new FieldList();
      r := AddPairs(f, pairs, defaultVerbatim);
      if r.Fail? {
        return;
      }
      SetFields(f);
    }

    /** `validate`. */
    method Validate() returns (r: Outcome)
      ensures r == SectionVerdict(text, FieldTexts(FieldsState()), accessory)
    {
      if text.None? && fields.None? {
        return Fail(SectionEmpty);
      }
      if text.Some? && text.value.Validate().Fail? {
        return text.value.Validate();
      }
      if fields.Some? {
        r := fields.value.Validate();
        if r.Fail? {
          return;
        }
      }
      if accessory.Some? {
        return accessory.value.valid;
      }
      return Pass;
    }

    /** `toArray`. */
    function ToArray(): (r: Result<Dict<Value>>)
      reads this, base, FieldsRepr()
      ensures r == SectionArray(blockId, text, FieldsState(), accessory, base.extra)
    {
      SectionArray(blockId, text, FieldsState(), accessory, base.extra)
    }
  }

  /** The loop of `fieldMap` on a new fields list. */
  method AddPairs(f: FieldList, pairs: Dict<Value>, dv: Option<bool>) returns (r: Outcome)
    requires f.Valid() && f.fields == []
    modifies f
    ensures f.Valid() && f.base.parent == old(f.base.parent) && f.base.extra == old(f.base.extra)
    ensures r.Pass? <==> FieldMapped([], pairs, dv).Ok?
    ensures r.Pass? ==> f.fields == FieldMapped([], pairs, dv).value
    ensures r.Fail? ==> FieldMapped([], pairs, dv) == Err(r.error)
  {
    var i := 0;
    while i < |pairs|
      invariant 0 <= i <= |pairs| && f.Valid()
      invariant FieldMapped([], pairs, dv) == FieldMapped(f.fields, pairs[i..], dv)
    {
      var before := f.fields;
      var k := NewMrkdwn(Some(KeyText(pairs[i].key)), None, dv);
      r := f.Add(k);
      if r.Fail? {
        return;
      }
      var w := Wrap(Scalar(pairs[i].val), dv);
      if w.Err? {
        return Fail(w.error);
      }
      r := f.Add(w.value);
      if r.Fail? {
        return;
      }
      assert pairs[i..][1..] == pairs[i + 1..];
      assert f.fields == before + [k, w.value];
      i := i + 1;
    }
    return Pass;
  }
}
