/**
 * The fields of a section (src/Partials/Fields.php): up to ten text objects,
 * shown in two columns. Plain strings handed to `populate` become mrkdwn
 * texts. The 'fields' tag is hidden, so the wire form is the list of the
 * texts' arrays after any extras.
 */
module FieldLists {
  import opened Classes
  import opened Outcomes
  import opened Wire
  import opened Types
  import opened Hydration
  import opened Elements
  import opened Texts

  const MAX_FIELDS := 10

  /** An entry of the array given to `populate`: a text object, or any other PHP value. */
  datatype FieldItem = TextItem(t: TextObject) | Scalar(v: Value)

  /**
   * `$field instanceof Text ? $field : new MrkdwnText($field)`: the constructor
   * takes a `?string`, so only a string or null can be wrapped.
   */
  function Wrap(item: FieldItem, defaultVerbatim: Option<bool>): (r: Result<TextObject>)
    ensures item.TextItem? ==> r == Ok(item.t)
    ensures item.Scalar? && item.v.Str? ==> r == Ok(NewMrkdwn(Some(item.v.s), None, defaultVerbatim))
    ensures item.Scalar? && item.v.Null? ==> r == Ok(NewMrkdwn(None, None, defaultVerbatim))
    ensures r.Err? <==> item.Scalar? && !item.v.Str? && !item.v.Null?
  {
    match item
    case TextItem(t) => Ok(t)
    case Scalar(Str(s)) => Ok(NewMrkdwn(Some(s), None, defaultVerbatim))
    case Scalar(Null) => Ok(NewMrkdwn(None, None, defaultVerbatim))
    case Scalar(_) => Err(TypeError)
  }

  /**
   * `populate`: each item is wrapped and added in turn; the first failure
   * stops the loop, and what was added before it stays. The pair is the
   * field list after the call and the outcome.
   */
  function Populated(fields: seq<TextObject>, items: seq<FieldItem>, dv: Option<bool>): (r: (seq<TextObject>, Outcome))
    ensures |fields| <= |r.0| <= |fields| + |items|
    ensures r.1.Pass? ==> |r.0| == |fields| + |items|
    ensures r.1.Fail? && |fields| <= MAX_FIELDS ==> |r.0| < |fields| + |items|
    decreases |items|
  {
    if items == [] then (fields, Pass)
    else match Wrap(items[0], dv)
      case Err(e) => (fields, Fail(e))
      case Ok(t) =>
        if |fields| >= MAX_FIELDS then (fields, Fail(TooManyFields))
        else Populated(fields + [t], items[1..], dv)
  }

  /**
   * `populate` keeps the fields already there, appends the wrapped items in
   * order, never exceeds ten fields, and succeeds exactly when every item
   * can be wrapped and all of them fit.
   */
  lemma {:induction false} PopulatedMeaning(fields: seq<TextObject>, items: seq<FieldItem>, dv: Option<bool>)
    requires |fields| <= MAX_FIELDS
    ensures |fields| <= |Populated(fields, items, dv).0| <= MAX_FIELDS
    ensures |Populated(fields, items, dv).0| <= |fields| + |items|
    ensures Populated(fields, items, dv).0[..|fields|] == fields
    ensures forall i :: |fields| <= i < |Populated(fields, items, dv).0| ==>
      Wrap(items[i - |fields|], dv) == Ok(Populated(fields, items, dv).0[i])
    ensures Populated(fields, items, dv).1.Pass? <==> |fields| + |items| <= MAX_FIELDS && AllWrap(items, dv)
    ensures Populated(fields, items, dv).1.Pass? ==> |Populated(fields, items, dv).0| == |fields| + |items|
    decreases |items|
  {
    if items == [] {
    } else if Wrap(items[0], dv).Err? || |fields| >= MAX_FIELDS {
      assert !AllWrap(items, dv) || |fields| + |items| > MAX_FIELDS;
    } else {
      var t := Wrap(items[0], dv).value;
      var rest := items[1..];
      assert Populated(fields, items, dv) == Populated(fields + [t], rest, dv);
      PopulatedMeaning(fields + [t], rest, dv);
      AllWrapStep(items, dv);
      var r := Populated(fields + [t], rest, dv).0;
      assert r[..|fields|] == (r[..|fields| + 1])[..|fields|];
      forall i | |fields| <= i < |r|
        ensures Wrap(items[i - |fields|], dv) == Ok(r[i])
      {
        if i == |fields| {
          assert r[i] == (r[..|fields| + 1])[i];
        } else {
          assert items[i - |fields|] == rest[i - (|fields| + 1)];
        }
      }
    }
  }

  /** Every item can be wrapped. */
  ghost predicate AllWrap(items: seq<FieldItem>, dv: Option<bool>) {
    forall i :: 0 <= i < |items| ==> Wrap(items[i], dv).Ok?
  }

  /** All items wrap exactly when the first does and all the others do. */
  lemma AllWrapStep(items: seq<FieldItem>, dv: Option<bool>)
    requires items != []
    ensures AllWrap(items, dv) <==> Wrap(items[0], dv).Ok? && AllWrap(items[1..], dv)
  {
    assert forall i :: 1 <= i < |items| ==> items[i] == items[1..][i - 1];
  }

  /** The first text whose `validate` fails, or `Pass`. */
  function TextsVerdict(fs: seq<TextObject>): (r: Outcome)
    ensures r.Pass? <==> forall i :: 0 <= i < |fs| ==> fs[i].Validate().Pass?
    ensures r.Fail? ==> exists i :: 0 <= i < |fs| && fs[i].Validate() == r
    decreases |fs|
  {
    if fs == [] then Pass
    else if fs[0].Validate().Fail? then fs[0].Validate()
    else
      var rest := TextsVerdict(fs[1..]);
      assert forall i :: 1 <= i < |fs| ==> fs[i] == fs[1..][i - 1];
      assert rest.Fail? ==> exists i :: 1 <= i < |fs| && fs[i].Validate() == rest;
      rest
  }

  /** `Fields::validate`: at least one field, then each field. */
  function FieldsVerdict(fs: seq<TextObject>): (r: Outcome)
    ensures r.Pass? <==> fs != [] && forall i :: 0 <= i < |fs| ==> fs[i].Validate().Pass?
    ensures fs == [] ==> r == Fail(NoFields)
    ensures fs != [] ==> r == TextsVerdict(fs)
  {
    if fs == [] then Fail(NoFields) else TextsVerdict(fs)
  }

  /**
   * `toArray`: the fields' arrays (each validating its own text first), then
   * the base output, which validates the whole list; the list is appended
   * with `+`, so an extra under an integer key would win over that field.
   */
  function FieldsArray(fs: seq<TextObject>, extra: Extras): (r: Result<Dict<Value>>)
    ensures r.Ok? ==> FieldsVerdict(fs).Pass? && MapAll(fs, TextValue).Ok?
    ensures fs == [] ==> r == Err(NoFields)
    ensures TextsVerdict(fs).Fail? ==> r.Err?
  {
    var vs :- MapAll(fs, TextValue);
    var d :- BaseArray(Fields, FieldsVerdict(fs), extra);
    Ok(Union(d, List(vs)))
  }

  /** Without extras the output is exactly the list of the fields' arrays, in order. */
  lemma FieldsArrayIsList(fs: seq<TextObject>)
    requires FieldsArray(fs, []).Ok?
    ensures FieldsArray(fs, []).value == List(MapAll(fs, TextValue).value)
    ensures |FieldsArray(fs, []).value| == |fs|
    ensures forall i :: 0 <= i < |fs| ==> FieldsArray(fs, []).value[i] == Entry(Idx(i), Arr(fs[i].ToArray().value))
  {
    var vs := MapAll(fs, TextValue).value;
    HiddenBase();
    ListUnion(vs);
    forall i | 0 <= i < |fs|
      ensures List(vs)[i] == Entry(Idx(i), Arr(fs[i].ToArray().value))
    {
      assert TextValue(fs[i]) == Ok(vs[i]);
    }
  }

  /** The 'fields' tag is hidden: a valid list without extras contributes no base entry. */
  lemma HiddenBase()
    ensures BaseArray(Fields, Pass, []) == Ok([])
  {
    assert MapClass(Fields) == Ok(FIELDS) && Hidden(FIELDS);
  }

  /** `[] + $list` is the list. */
  lemma ListUnion<V>(vs: seq<V>)
    ensures Union([], List(vs)) == List(vs)
  {
    ListDistinct(vs, 0);
    UnionFresh([], List(vs));
  }

  /** A list has no 'type' key. */
  lemma ListUntyped(vs: seq<Value>)
    ensures !IsSet(List(vs), Name("type")) && GetOr(List(vs), Name("type"), Null) == Null
  {
    AbsentKey(List(vs), Name("type"), set i | 0 <= i < |vs| :: Idx(i));
  }

  /** A field read back from an element of the list: `Text::fromArray`, whose parameter is an `array`. */
  function FieldFromValue(v: Value): (r: Result<TextObject>)
    ensures !v.Arr? ==> r == Err(TypeError)
    ensures v.Arr? ==> r == FromData(Classes.Text, v.entries)
    ensures r.Ok? ==> r.value.Validate().Pass?
  {
    match v
    case Arr(es) => FromData(Classes.Text, es)
    case _ => Err(TypeError)
  }

  /** The `foreach` of `hydrate`: read a field, then `add` it; the first failure stops. */
  function ReadFields(read: Value -> Result<TextObject>, fields: seq<TextObject>, vs: seq<Value>): (r: Result<seq<TextObject>>)
    decreases |vs|
  {
    if vs == [] then Ok(fields)
    else
      var t :- read(vs[0]);
      if |fields| >= MAX_FIELDS then Err(TooManyFields)
      else ReadFields(read, fields + [t], vs[1..])
  }

  /** Every value reads as a text. */
  ghost predicate AllRead(read: Value -> Result<TextObject>, vs: seq<Value>) {
    forall i :: 0 <= i < |vs| ==> read(vs[i]).Ok?
  }

  /** All values read exactly when the first does and all the others do. */
  lemma AllReadStep(read: Value -> Result<TextObject>, vs: seq<Value>)
    requires vs != []
    ensures AllRead(read, vs) <==> read(vs[0]).Ok? && AllRead(read, vs[1..])
  {
    assert forall i :: 1 <= i < |vs| ==> vs[i] == vs[1..][i - 1];
  }

  /** Reading succeeds exactly when every value is a text and they fit; the texts are appended in order. */
  lemma {:induction false} ReadFieldsMeaning(read: Value -> Result<TextObject>, fields: seq<TextObject>, vs: seq<Value>)
    requires |fields| <= MAX_FIELDS
    ensures ReadFields(read, fields, vs).Ok? <==> |fields| + |vs| <= MAX_FIELDS && AllRead(read, vs)
    ensures ReadFields(read, fields, vs).Ok? ==>
      |ReadFields(read, fields, vs).value| == |fields| + |vs| && ReadFields(read, fields, vs).value[..|fields|] == fields
    ensures ReadFields(read, fields, vs).Ok? ==>
      forall i :: 0 <= i < |vs| ==> read(vs[i]) == Ok(ReadFields(read, fields, vs).value[|fields| + i])
    decreases |vs|
  {
    if vs == [] {
    } else if read(vs[0]).Err? || |fields| >= MAX_FIELDS {
      assert !AllRead(read, vs) || |fields| + |vs| > MAX_FIELDS;
    } else {
      var t := read(vs[0]).value;
      var rest := vs[1..];
      assert ReadFields(read, fields, vs) == ReadFields(read, fields + [t], rest);
      ReadFieldsMeaning(read, fields + [t], rest);
      AllReadStep(read, vs);
      if ReadFields(read, fields, vs).Ok? {
        var r := ReadFields(read, fields, vs).value;
        assert r[..|fields|] == (r[..|fields| + 1])[..|fields|];
        forall i | 0 <= i < |vs|
          ensures read(vs[i]) == Ok(r[|fields| + i])
        {
          if i == 0 {
            assert r[|fields|] == (r[..|fields| + 1])[|fields|];
          } else {
            assert vs[i] == rest[i - 1];
          }
        }
      }
    }
  }

  /**
   * `Fields::fromArray` after the class check: every element of the list is
   * read and added, the base `hydrate` (whose keys were all read already)
   * checks the tag, and `validate` runs last.
   */
  function FieldsFromData(data: Dict<Value>): (r: Result<seq<TextObject>>)
    ensures r.Ok? ==> ReadFields(FieldFromValue, [], Values(data)) == Ok(r.value) && FieldsVerdict(r.value).Pass?
  {
    var fs :- ReadFields(FieldFromValue, [], Values(data));
    var base := HydrateOutcome(Fields, GetOr(data, Name("type"), Null), [], []);
    if base.Fail? then Err(base.error)
    else if FieldsVerdict(fs).Fail? then Err(FieldsVerdict(fs).error)
    else Ok(fs)
  }

  /** `Fields::fromArray`: resolve the class (only Fields itself), then hydrate. */
  function FieldsFromArray(data: Dict<Value>): (r: Result<seq<TextObject>>)
    ensures ResolveClass(Fields, data).Err? ==> r == Err(ResolveClass(Fields, data).error)
    ensures ResolveClass(Fields, data).Ok? ==> r == FieldsFromData(data)
  {
    var _ :- ResolveClass(Fields, data);
    FieldsFromData(data)
  }

  /** Ten or fewer valid texts without extras, as their serialised arrays. */
  ghost predicate SerialisedList(fs: seq<TextObject>, vs: seq<Value>) {
    |fs| == |vs| <= MAX_FIELDS &&
    forall i :: 0 <= i < |fs| ==> fs[i].extra == [] && fs[i].Validate().Pass? && vs[i] == Arr(Serialised(fs[i]))
  }

  /** The arrays of such texts are read back as the texts. */
  lemma ReadBack(fs: seq<TextObject>, vs: seq<Value>)
    requires SerialisedList(fs, vs)
    ensures ReadFields(FieldFromValue, [], vs) == Ok(fs)
  {
    forall i | 0 <= i < |vs|
      ensures FieldFromValue(vs[i]) == Ok(fs[i])
    {
      SerialisedRoundTrip(fs[i]);
    }
    ReadsEach(FieldFromValue, fs, vs);
  }

  /** Values that each read as the matching text are read as the whole list. */
  lemma ReadsEach(read: Value -> Result<TextObject>, fs: seq<TextObject>, vs: seq<Value>)
    requires |fs| == |vs| <= MAX_FIELDS
    requires forall i :: 0 <= i < |vs| ==> read(vs[i]) == Ok(fs[i])
    ensures ReadFields(read, [], vs) == Ok(fs)
  {
    ReadFieldsMeaning(read, [], vs);
    assert AllRead(read, vs);
    var r := ReadFields(read, [], vs).value;
    assert forall i :: 0 <= i < |vs| ==> read(vs[i]) == Ok(r[i]);
    assert r == fs;
  }

  /** The output of such a list is the list of their serialised arrays. */
  lemma WrittenOut(fs: seq<TextObject>) returns (vs: seq<Value>)
    requires 1 <= |fs| <= MAX_FIELDS
    requires forall i :: 0 <= i < |fs| ==> fs[i].extra == [] && fs[i].Validate().Pass?
    ensures FieldsArray(fs, []) == Ok(List(vs))
    ensures SerialisedList(fs, vs)
  {
    forall i | 0 <= i < |fs|
      ensures TextValue(fs[i]) == Ok(Arr(Serialised(fs[i])))
    {
      ToArrayShape(fs[i]);
    }
    assert FieldsVerdict(fs) == Pass;
    assert MapAll(fs, TextValue).Ok?;
    vs := MapAll(fs, TextValue).value;
    HiddenBase();
    ListUnion(vs);
  }

  /** A list with one to ten valid texts, written out and read back, gives the same texts. */
  lemma RoundTrip(fs: seq<TextObject>)
    requires 1 <= |fs| <= MAX_FIELDS
    requires forall i :: 0 <= i < |fs| ==> fs[i].extra == [] && fs[i].Validate().Pass?
    ensures FieldsArray(fs, []).Ok?
    ensures FieldsFromArray(FieldsArray(fs, []).value) == Ok(fs)
  {
    var vs := WrittenOut(fs);
    HydratesList(fs, vs);
    ListUntyped(vs);
    assert ResolveClass(Fields, List(vs)) == Ok(Fields);
  }

  /** Hydrating the list of such arrays gives the texts back. */
  lemma HydratesList(fs: seq<TextObject>, vs: seq<Value>)
    requires 1 <= |fs| && SerialisedList(fs, vs)
    ensures FieldsFromData(List(vs)) == Ok(fs)
  {
    ReadBack(fs, vs);
    ListUntyped(vs);
    assert Values(List(vs)) == vs;
    assert FieldsVerdict(fs) == Pass;
  }

  /** The fields block: its texts and its Element part. */
  class FieldList {
    const base: ElementBase
    var fields: seq<TextObject>

    /** At most ten fields: `add` turns away the eleventh. */
    ghost predicate Valid()
      reads this, base
    {
      base.cls == Fields && base.Valid() && |fields| <= MAX_FIELDS
    }

    /** `new Fields()` with no fields. */
    constructor()
      ensures fields == [] && fresh(base) && base.extra == [] && base.parent == None
      ensures Valid()
    {
      base := new ElementBase(Fields);
      fields := [];
    }

    /** `add`: the field is appended while there are fewer than ten; otherwise nothing changes. */
    method Add(t: TextObject) returns (r: Outcome)
      requires Valid()
      modifies this
      ensures r == Need(|old(fields)| < MAX_FIELDS, TooManyFields)
      ensures r.Pass? ==> fields == old(fields) + [t]
      ensures r.Fail? ==> fields == old(fields)
      ensures Valid()
    {
      if |fields| >= MAX_FIELDS {
        return Fail(TooManyFields);
      }
      fields := fields + [t];
      return Pass;
    }

    /** `populate`. */
    method Populate(items: seq<FieldItem>, defaultVerbatim: Option<bool>) returns (r: Outcome)
      requires Valid()
      modifies this
      ensures (fields, r) == Populated(old(fields), items, defaultVerbatim)
      ensures Valid()
    {
      var i := 0;
      while i < |items|
        invariant 0 <= i <= |items| && Valid()
        invariant Populated(old(fields), items, defaultVerbatim) == Populated(fields, items[i..], defaultVerbatim)
      {
        var w := Wrap(items[i], defaultVerbatim);
        if w.Err? {
          return Fail(w.error);
        }
        r := Add(w.value);
        if r.Fail? {
          return;
        }
        assert items[i..][1..] == items[i + 1..];
        i := i + 1;
      }
      return Pass;
    }

    /** `validate`: at least one field, then each field in turn. */
    method Validate() returns (r: Outcome)
      ensures r == FieldsVerdict(fields)
    {
      if fields == [] {
        return Fail(NoFields);
      }
      var i := 0;
      while i < |fields|
        invariant 0 <= i <= |fields|
        invariant TextsVerdict(fields) == TextsVerdict(fields[i..])
      {
        var v := fields[i].Validate();
        if v.Fail? {
          return v;
        }
        assert fields[i..][1..] == fields[i + 1..];
        i := i + 1;
      }
      return Pass;
    }

    /** `toArray`. */
    function ToArray(): (r: Result<Dict<Value>>)
      reads this, base
      ensures r == FieldsArray(fields, base.extra)
    {
      FieldsArray(fields, base.extra)
    }

    /** `hydrate` of a new Fields, followed by the `validate` that ends it. */
    method Hydrate(h: HydrationData) returns (r: Outcome)
      requires Valid() && fields == [] && base.extra == []
      modifies this, base, h
      ensures (set e | e in h.data :: e.key) <= h.consumed
      ensures r.Pass? ==> h.consumed == old(h.consumed) + (set e | e in h.data :: e.key) + {Name("type")}
      ensures r.Fail? ==> FieldsFromData(h.data) == Err(r.error)
      ensures r.Pass? ==> FieldsFromData(h.data) == Ok(fields) && base.extra == []
      ensures Valid()
    {
      var es := h.UseElements(None);
      var vs := Values(es.value);
      assert vs == Values(h.data);
      r := AddRead(vs);
      if r.Fail? {
        return;
      }
      var o := base.Hydrate(h);
      WithoutAll(h.data, h.consumed);
      if o.Fail? {
        return o;
      }
      r := Validate();
    }

    /** The `foreach` of `hydrate`: `add(Text::fromArray($field))` for each element. */
    method AddRead(vs: seq<Value>) returns (r: Outcome)
      requires Valid()
      modifies this
      ensures r.Pass? <==> ReadFields(FieldFromValue, old(fields), vs).Ok?
      ensures r.Pass? ==> fields == ReadFields(FieldFromValue, old(fields), vs).value
      ensures r.Fail? ==> ReadFields(FieldFromValue, old(fields), vs) == Err(r.error)
      ensures Valid()
    {
      var i := 0;
      while i < |vs|
        invariant 0 <= i <= |vs| && Valid()
        invariant ReadFields(FieldFromValue, old(fields), vs) == ReadFields(FieldFromValue, fields, vs[i..])
      {
        var t := ReadField(vs[i]);
        if t.Err? {
          return Fail(t.error);
        }
        r := Add(t.value);
        if r.Fail? {
          return;
        }
        assert vs[i..][1..] == vs[i + 1..];
        i := i + 1;
      }
      return Pass;
    }
  }

  /** `Text::fromArray($field)` on one element of the list. */
  method ReadField(v: Value) returns (r: Result<TextObject>)
    ensures r == FieldFromValue(v)
  {
    if !v.Arr? {
      return Err(TypeError);
    }
    r := Texts.FromArray(Classes.Text, v.entries);
  }

  /** `Fields::fromArray` on a fresh element. */
  method FromArray(data: Dict<Value>) returns (r: Result<FieldList>)
    ensures r.Err? <==> FieldsFromArray(data).Err?
    ensures r.Err? ==> r.error == FieldsFromArray(data).error
    ensures r.Ok? ==> fresh(r.value) && r.value.fields == FieldsFromArray(data).value
  {
    var c := ResolveClass(Fields, data);
    if c.Err? {
      return Err(c.error);
    }
    var f := new FieldList();
    var h := new HydrationData(data);
    var o := f.Hydrate(h);
    if o.Fail? {
      return Err(o.error);
    }
    return Ok(f);
  }
}
