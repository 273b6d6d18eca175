/**
 * The plain-text input element (src/Inputs/TextInput.php), with the
 * placeholder of src/Inputs/HasPlaceholder.php and the action id of
 * src/Inputs/InputElement.php: its setters and their guards, `validate`,
 * `toArray`, and `hydrate` read as a function of the array it is given.
 * The dispatch-action configuration is a child element whose own reading
 * is a parameter of the model.
 */
module TextInputs {
  import opened Classes
  import opened Outcomes
  import opened Wire
  import opened Types
  import opened Hydration
  import opened Elements
  import opened Texts

  /** The largest minimum length `validate` accepts. */
  const MAX_MIN_LENGTH := 3000
  /** The longest placeholder `placeholder()` accepts, in characters. */
  const MAX_PLACEHOLDER := 150

  /** A text input's state as a value. */
  datatype TextInputFields = TextInputFields(
    actionId: Option<string>,
    placeholder: Option<TextObject>,
    initialValue: Option<string>,
    multiline: Option<bool>,
    minLength: Option<int>,
    maxLength: Option<int>,
    dispatch: Option<Child>,
    extra: Extras)

  /** What the setters guarantee: a minimum length of at least 0, a maximum of at least 1, a plain-text placeholder. */
  predicate Settable(f: TextInputFields) {
    && (f.minLength.Some? ==> f.minLength.value >= 0)
    && (f.maxLength.Some? ==> f.maxLength.value >= 1)
    && (f.placeholder.Some? ==> f.placeholder.value.format == PlainFormat)
  }

  /** The guard of `minLength`. */
  function MinLengthCheck(n: int): (r: Outcome)
    ensures r.Pass? <==> n >= 0
    ensures r.Fail? ==> r.error == MinLengthNegative
  {
    Need(n >= 0, MinLengthNegative)
  }

  /** The guard of `maxLength`. */
  function MaxLengthCheck(n: int): (r: Outcome)
    ensures r.Pass? <==> n >= 1
    ensures r.Fail? ==> r.error == MaxLengthTooSmall
  {
    Need(n >= 1, MaxLengthTooSmall)
  }

  /** The guard of `placeholder($string)`, on the length in code points. */
  function PlaceholderCheck(s: string): (r: Outcome)
    ensures r.Pass? <==> |s| <= MAX_PLACEHOLDER
    ensures r.Fail? ==> r.error == PlaceholderTooLong
  {
    Need(|s| <= MAX_PLACEHOLDER, PlaceholderTooLong)
  }

  /**
   * `validate`: the placeholder when set; a set minimum length must not
   * exceed 3000 and must be below a set maximum; the dispatch configuration
   * when set. A maximum without a minimum is not checked.
   */
  function TextInputVerdict(f: TextInputFields): (r: Outcome)
    ensures r.Pass? <==>
      && (f.placeholder.Some? ==> f.placeholder.value.Validate().Pass?)
      && (f.minLength.Some? ==> f.minLength.value <= MAX_MIN_LENGTH &&
                                (f.maxLength.Some? ==> f.minLength.value < f.maxLength.value))
      && (f.dispatch.Some? ==> f.dispatch.value.valid.Pass?)
    ensures f.placeholder.Some? && f.placeholder.value.Validate().Fail? ==> r == f.placeholder.value.Validate()
    ensures (f.placeholder.Some? ==> f.placeholder.value.Validate().Pass?) && f.minLength.Some? ==>
      r == if f.minLength.value > MAX_MIN_LENGTH then Fail(MinLengthTooLarge(MAX_MIN_LENGTH))
           else if f.maxLength.Some? && f.maxLength.value <= f.minLength.value then Fail(MaxNotAboveMin)
           else if f.dispatch.Some? then f.dispatch.value.valid
           else Pass
  {
    if f.placeholder.Some? && f.placeholder.value.Validate().Fail? then f.placeholder.value.Validate()
    else if f.minLength.Some? && f.minLength.value > MAX_MIN_LENGTH then Fail(MinLengthTooLarge(MAX_MIN_LENGTH))
    else if f.minLength.Some? && f.maxLength.Some? && f.maxLength.value <= f.minLength.value then Fail(MaxNotAboveMin)
    else if f.dispatch.Some? then f.dispatch.value.valid
    else Pass
  }

  /** A string field as `toArray` writes it: only when not `empty()`. */
  function StrPart(s: Option<string>): Option<Result<Value>> {
    if EmptyString(s) then None else Some(Ok(Str(s.value)))
  }

  /** A boolean field as `toArray` writes it: whenever it is set. */
  function BoolPart(b: Option<bool>): Option<Result<Value>> {
    if b.Some? then Some(Ok(Bool(b.value))) else None
  }

  /** An integer field as `toArray` writes it: whenever it is set. */
  function IntPart(n: Option<int>): Option<Result<Value>> {
    if n.Some? then Some(Ok(Int(n.value))) else None
  }

  /** The dispatch configuration as `toArray` writes it: its own `toArray()`, whenever it is set. */
  function ConfigPart(c: Option<Child>): Option<Result<Value>> {
    if c.Some? then Some(ChildValue(c.value)) else None
  }

  /**
   * `toArray`: `Element::toArray` (which validates first), the action id,
   * then placeholder, initial value, multiline flag, the two lengths and
   * the dispatch configuration, each only when set.
   */
  function TextInputArray(f: TextInputFields): (r: Result<Dict<Value>>)
    ensures TextInputVerdict(f).Fail? ==> r == Err(TextInputVerdict(f).error)
    ensures r.Ok? ==> TextInputVerdict(f).Pass?
  {
    var base :- BaseArray(TextInput, TextInputVerdict(f), f.extra);
    var front :- FrontPart(WithActionIdKey(base, f.actionId), f);
    BackPart(front, f)
  }

  /** The placeholder, the initial value and the multiline flag, written onto d. */
  function FrontPart(d: Dict<Value>, f: TextInputFields): Result<Dict<Value>> {
    var d1 :- PutPart(d, "placeholder", TextPart(f.placeholder));
    var d2 :- PutPart(d1, "initial_value", StrPart(f.initialValue));
    PutPart(d2, "multiline", BoolPart(f.multiline))
  }

  /** The two lengths and the dispatch configuration, written onto d. */
  function BackPart(d: Dict<Value>, f: TextInputFields): Result<Dict<Value>> {
    var d1 :- PutPart(d, "min_length", IntPart(f.minLength));
    var d2 :- PutPart(d1, "max_length", IntPart(f.maxLength));
    PutPart(d2, "dispatch_action_config", ConfigPart(f.dispatch))
  }

  /** The seven keys a text input writes besides 'type' and the extras. */
  function OwnKeys(): set<Key> {
    {Name("action_id"), Name("placeholder"), Name("initial_value"), Name("multiline"),
     Name("min_length"), Name("max_length"), Name("dispatch_action_config")}
  }

  /** The part `toArray` writes under one of the seven keys, if any. */
  function FieldPart(f: TextInputFields, k: Key): (r: Option<Result<Value>>)
    ensures k !in OwnKeys() ==> r.None?
  {
    if k == Name("action_id") then StrPart(f.actionId)
    else if k == Name("placeholder") then TextPart(f.placeholder)
    else if k == Name("initial_value") then StrPart(f.initialValue)
    else if k == Name("multiline") then BoolPart(f.multiline)
    else if k == Name("min_length") then IntPart(f.minLength)
    else if k == Name("max_length") then IntPart(f.maxLength)
    else if k == Name("dispatch_action_config") then ConfigPart(f.dispatch)
    else None
  }

  /** How a key's lookup passes through the first three writes. */
  lemma FrontLookup(d: Dict<Value>, f: TextInputFields, k: Key)
    requires FrontPart(d, f).Ok?
    ensures Lookup(FrontPart(d, f).value, k) ==
      if BoolPart(f.multiline).Some? && k == Name("multiline") then Some(BoolPart(f.multiline).value.value)
      else if StrPart(f.initialValue).Some? && k == Name("initial_value") then Some(StrPart(f.initialValue).value.value)
      else if TextPart(f.placeholder).Some? && k == Name("placeholder") then Some(TextPart(f.placeholder).value.value)
      else Lookup(d, k)
  {
    var d1 := PutPart(d, "placeholder", TextPart(f.placeholder)).value;
    var d2 := PutPart(d1, "initial_value", StrPart(f.initialValue)).value;
    PutPartLookup(d, "placeholder", TextPart(f.placeholder), k);
    PutPartLookup(d1, "initial_value", StrPart(f.initialValue), k);
    PutPartLookup(d2, "multiline", BoolPart(f.multiline), k);
  }

  /** How a key's lookup passes through the last three writes. */
  lemma BackLookup(d: Dict<Value>, f: TextInputFields, k: Key)
    requires BackPart(d, f).Ok?
    ensures Lookup(BackPart(d, f).value, k) ==
      if ConfigPart(f.dispatch).Some? && k == Name("dispatch_action_config") then Some(ConfigPart(f.dispatch).value.value)
      else if IntPart(f.maxLength).Some? && k == Name("max_length") then Some(IntPart(f.maxLength).value.value)
      else if IntPart(f.minLength).Some? && k == Name("min_length") then Some(IntPart(f.minLength).value.value)
      else Lookup(d, k)
  {
    var d1 := PutPart(d, "min_length", IntPart(f.minLength)).value;
    var d2 := PutPart(d1, "max_length", IntPart(f.maxLength)).value;
    PutPartLookup(d, "min_length", IntPart(f.minLength), k);
    PutPartLookup(d1, "max_length", IntPart(f.maxLength), k);
    PutPartLookup(d2, "dispatch_action_config", ConfigPart(f.dispatch), k);
  }

  /** The eight keys of a text input's output are distinct. */
  lemma KeysDiffer()
    ensures |OwnKeys()| == 7 && Name("type") !in OwnKeys()
  {
    assert "action_id"[0] == 'a' && "placeholder"[0] == 'p' && "initial_value"[0] == 'i';
    assert "dispatch_action_config"[0] == 'd' && "type"[0] == 't';
    assert "multiline"[1] == 'u' && "min_length"[1] == 'i' && "max_length"[1] == 'a';
  }

  /**
   * What `toArray` wrote: under each of the seven keys whose field is set
   * (a string field only when not `empty()`) that field's value, over any
   * extra of the same name; under every other key, what `Element::toArray`
   * wrote (the type tag and the extras).
   */
  lemma TextInputArrayParts(f: TextInputFields, k: Key)
    requires TextInputArray(f).Ok?
    ensures FieldPart(f, k).Some? ==>
      FieldPart(f, k).value.Ok? && Lookup(TextInputArray(f).value, k) == Some(FieldPart(f, k).value.value)
    ensures FieldPart(f, k).None? ==>
      Lookup(TextInputArray(f).value, k) == Lookup(BaseArray(TextInput, Pass, f.extra).value, k)
  {
    var base := BaseArray(TextInput, Pass, f.extra).value;
    var head := WithActionIdKey(base, f.actionId);
    FrontLookup(head, f, k);
    BackLookup(FrontPart(head, f).value, f, k);
    if !EmptyString(f.actionId) {
      PutLookup(base, Name("action_id"), Str(f.actionId.value), k);
    }
    if k !in OwnKeys() {
      assert FieldPart(f, k).None?;
    } else {
      KeysDiffer();
    }
  }

  /** The array of a text input with no extras holds its type tag under 'type'. */
  lemma BaseIsTag(f: TextInputFields)
    requires TextInputArray(f).Ok? && f.extra == []
    ensures BaseArray(TextInput, Pass, f.extra) == Ok([Entry(Name("type"), Str(TEXT_INPUT))])
  {
    assert MapClass(TextInput) == Ok(TEXT_INPUT) && !Hidden(TEXT_INPUT);
    assert WriteExtras([Entry(Name("type"), Str(TEXT_INPUT))], []) == Ok([Entry(Name("type"), Str(TEXT_INPUT))]);
  }

  // Hydration

  /**
   * `DispatchActionConfig::fromArray($data->useElement(...))` when the key
   * is set: a scalar fails, an array is read by readConfig.
   */
  function ConfigUnder(data: Dict<Value>, readConfig: Dict<Value> -> Result<Child>): (r: Result<Option<Child>>)
    ensures !IsSet(data, Name("dispatch_action_config")) ==> r == Ok(None)
    ensures IsSet(data, Name("dispatch_action_config")) && !GetOr(data, Name("dispatch_action_config"), Null).Arr? ==>
      r == Err(TypeError)
  {
    if !IsSet(data, Name("dispatch_action_config")) then Ok(None)
    else match GetOr(data, Name("dispatch_action_config"), Null)
      case Arr(es) => (var c :- readConfig(es); Ok(Some(c)))
      case _ => Err(TypeError)
  }

  /** The two length reads of `hydrate`, minimum first. */
  function LengthsUnder(data: Dict<Value>): (r: Result<(Option<int>, Option<int>)>)
    ensures r.Ok? ==> IntUnder(data, "min_length", 0, MinLengthNegative) == Ok(r.value.0)
    ensures r.Ok? ==> IntUnder(data, "max_length", 1, MaxLengthTooSmall) == Ok(r.value.1)
  {
    var minLength :- IntUnder(data, "min_length", 0, MinLengthNegative);
    var maxLength :- IntUnder(data, "max_length", 1, MaxLengthTooSmall);
    Ok((minLength, maxLength))
  }

  /**
   * The reads after the initial value and the multiline flag, in the order
   * `hydrate` makes them: the lengths, the placeholder, the dispatch
   * configuration, then (in `InputElement::hydrate`) the action id.
   */
  function ReadRest(data: Dict<Value>, readConfig: Dict<Value> -> Result<Child>,
                    initialValue: Option<string>, multiline: Option<bool>): (r: Result<TextInputFields>)
    ensures r.Ok? ==> r.value.initialValue == initialValue && r.value.multiline == multiline && r.value.extra == []
    ensures r.Ok? ==> Settable(r.value)
    ensures r.Ok? ==> IntUnder(data, "min_length", 0, MinLengthNegative) == Ok(r.value.minLength)
    ensures r.Ok? ==> IntUnder(data, "max_length", 1, MaxLengthTooSmall) == Ok(r.value.maxLength)
    ensures r.Ok? ==> TextUnder(data, "placeholder", PlainText) == Ok(r.value.placeholder)
    ensures r.Ok? ==> ConfigUnder(data, readConfig) == Ok(r.value.dispatch)
    ensures r.Ok? ==> ReadString(data, "action_id") == Ok(r.value.actionId)
  {
    var (minLength, maxLength) :- LengthsUnder(data);
    var (placeholder, dispatch, actionId) :- ElementsUnder(data, readConfig);
    Ok(TextInputFields(actionId, placeholder, initialValue, multiline, minLength, maxLength, dispatch, []))
  }

  /** The placeholder, configuration and action-id reads of `hydrate`, in that order. */
  function ElementsUnder(data: Dict<Value>, readConfig: Dict<Value> -> Result<Child>):
    (r: Result<(Option<TextObject>, Option<Child>, Option<string>)>)
    ensures r.Ok? ==> TextUnder(data, "placeholder", PlainText) == Ok(r.value.0)
    ensures r.Ok? ==> ConfigUnder(data, readConfig) == Ok(r.value.1)
    ensures r.Ok? ==> ReadString(data, "action_id") == Ok(r.value.2)
  {
    var placeholder :- TextUnder(data, "placeholder", PlainText);
    var dispatch :- ConfigUnder(data, readConfig);
    var actionId :- ReadString(data, "action_id");
    Ok((placeholder, dispatch, actionId))
  }

  /** The first two reads of `hydrate`: the initial value, then the multiline flag. */
  function FrontUnder(data: Dict<Value>): (r: Result<(Option<string>, Option<bool>)>)
    ensures r.Ok? ==> ReadString(data, "initial_value") == Ok(r.value.0)
    ensures r.Ok? ==> ReadBool(data, "multiline") == Ok(r.value.1)
  {
    var initialValue :- ReadString(data, "initial_value");
    var multiline :- ReadBool(data, "multiline");
    Ok((initialValue, multiline))
  }

  /** The reads of `hydrate` with the 'multiline' entry read into the multiline flag. */
  function ReadFields(data: Dict<Value>, readConfig: Dict<Value> -> Result<Child>): (r: Result<TextInputFields>)
    ensures r.Ok? ==> ReadString(data, "initial_value") == Ok(r.value.initialValue)
    ensures r.Ok? ==> ReadBool(data, "multiline") == Ok(r.value.multiline)
    ensures r.Ok? ==> ReadRest(data, readConfig, r.value.initialValue, r.value.multiline) == Ok(r.value)
    ensures r.Ok? ==> Settable(r.value)
  {
    var (initialValue, multiline) :- FrontUnder(data);
    ReadRest(data, readConfig, initialValue, multiline)
  }

  /**
   * The reads of `hydrate` as the source writes them: the 'multiline'
   * entry is handed to `initialValue()`, so a boolean fails the `string`
   * parameter, a string replaces the initial value, and the flag is never set.
   */
  function ReadFieldsAsWritten(data: Dict<Value>, readConfig: Dict<Value> -> Result<Child>): (r: Result<TextInputFields>)
    ensures r.Ok? ==> r.value.multiline.None?
    ensures ReadString(data, "initial_value").Ok? && IsSet(data, Name("multiline")) ==>
      (r == Err(TypeError) <== !GetOr(data, Name("multiline"), Null).Str?)
  {
    var initialValue :- ReadString(data, "initial_value");
    var replaced :- ReadString(data, "multiline");
    ReadRest(data, readConfig, if replaced.Some? then replaced else initialValue, None)
  }

  /** The keys `hydrate` reads: each of its seven fields that is set, and 'type'. */
  function ReadKeys(data: Dict<Value>): set<Key> {
    FieldKeys(data) + {Name("type")}
  }

  /** The keys of the seven fields that are set. */
  function FieldKeys(data: Dict<Value>): set<Key> {
    KeyIfSet(data, "initial_value") + KeyIfSet(data, "multiline") + RestKeys(data)
  }

  /** The keys read after the initial value and the flag, when set. */
  function RestKeys(data: Dict<Value>): set<Key> {
    KeyIfSet(data, "min_length") + KeyIfSet(data, "max_length") + KeyIfSet(data, "placeholder") +
    KeyIfSet(data, "dispatch_action_config") + KeyIfSet(data, "action_id")
  }

  /** `Element::hydrate` over the keys not read, then `validate`. */
  function TextInputCompleted(f: TextInputFields, data: Dict<Value>): (r: Result<TextInputFields>)
    ensures r.Ok? ==> r.value == f.(extra := r.value.extra) && TextInputVerdict(r.value).Pass?
    ensures r.Ok? ==> TagCheck(TextInput, GetOr(data, Name("type"), Null)).Pass?
    ensures r.Ok? ==> AddExtras(f.extra, Without(data, ReadKeys(data))) == Ok(r.value.extra)
  {
    var unread := Without(data, ReadKeys(data));
    var base := HydrateOutcome(TextInput, GetOr(data, Name("type"), Null), f.extra, unread);
    if base.Fail? then Err(base.error)
    else
      var f' := f.(extra := AddExtras(f.extra, unread).value);
      var v := TextInputVerdict(f');
      if v.Fail? then Err(v.error) else Ok(f')
  }

  /** `hydrate` of a new text input, with the multiline flag read into the flag. */
  function TextInputHydrated(data: Dict<Value>, readConfig: Dict<Value> -> Result<Child>): (r: Result<TextInputFields>)
    ensures r.Ok? ==> TextInputVerdict(r.value).Pass? && Settable(r.value)
    ensures r.Ok? ==> ReadBool(data, "multiline") == Ok(r.value.multiline)
    ensures r.Ok? ==> ReadString(data, "initial_value") == Ok(r.value.initialValue)
  {
    var f :- ReadFields(data, readConfig);
    TextInputCompleted(f, data)
  }

  /** `hydrate` as the source writes it. */
  function HydratedAsWritten(data: Dict<Value>, readConfig: Dict<Value> -> Result<Child>): (r: Result<TextInputFields>)
    ensures r.Ok? ==> r.value.multiline.None?
  {
    var f :- ReadFieldsAsWritten(data, readConfig);
    TextInputCompleted(f, data)
  }

  /** `TextInput::fromArray`: resolve the class (only TextInput fits), then hydrate. */
  function TextInputFromData(data: Dict<Value>, readConfig: Dict<Value> -> Result<Child>): (r: Result<TextInputFields>)
    ensures ResolveClass(TextInput, data).Err? ==> r == Err(ResolveClass(TextInput, data).error)
    ensures ResolveClass(TextInput, data).Ok? ==> r == TextInputHydrated(data, readConfig)
  {
    var c :- ResolveClass(TextInput, data);
    TextInputHydrated(data, readConfig)
  }

  /**
   * Whenever the corrected `hydrate` accepts an array carrying 'multiline',
   * the code as written rejects it: the flag is a boolean, which
   * `initialValue(string $text)` refuses.
   */
  lemma MultilineRejectedAsWritten(data: Dict<Value>, readConfig: Dict<Value> -> Result<Child>)
    requires TextInputHydrated(data, readConfig).Ok? && IsSet(data, Name("multiline"))
    ensures TextInputHydrated(data, readConfig).value.multiline.Some?
    ensures HydratedAsWritten(data, readConfig) == Err(TypeError)
  {
  }

  // Round trip

  /** The state `hydrate` rebuilds: an `empty()` action id or initial value is not written, so it comes back unset. */
  function Normalised(f: TextInputFields): (g: TextInputFields)
    ensures g.actionId.Some? ==> !EmptyString(g.actionId)
    ensures g.initialValue.Some? ==> !EmptyString(g.initialValue)
  {
    f.(actionId := if EmptyString(f.actionId) then None else f.actionId,
       initialValue := if EmptyString(f.initialValue) then None else f.initialValue)
  }

  /** The dispatch configuration's array is read back by readConfig as the same configuration. */
  ghost predicate ConfigReadsBack(c: Child, readConfig: Dict<Value> -> Result<Child>) {
    c.ToArray().Ok? && readConfig(c.ToArray().value) == Ok(c)
  }

  /** What the round trip asks of a text input: serialisable, built through the setters, no extras, plain parts. */
  ghost predicate RoundTrippable(f: TextInputFields, readConfig: Dict<Value> -> Result<Child>) {
    && TextInputArray(f).Ok? && Settable(f) && f.extra == []
    && (f.placeholder.Some? ==> f.placeholder.value.extra == [])
    && (f.dispatch.Some? ==> ConfigReadsBack(f.dispatch.value, readConfig))
  }

  /**
   * A serialisable text input built through its setters, without extras,
   * whose dispatch configuration (if any) reads back, is hydrated from its
   * array to itself, up to the `empty()` strings `toArray` drops.
   */
  lemma RoundTrip(f: TextInputFields, readConfig: Dict<Value> -> Result<Child>)
    requires RoundTrippable(f, readConfig)
    ensures TextInputFromData(TextInputArray(f).value, readConfig) == Ok(Normalised(f))
  {
    var d := TextInputArray(f).value;
    TagAndNothingElse(f);
    ResolvesToTextInput(d);
    ReadsBack(f, readConfig);
    Completes(f);
  }

  /** The value a part holds once written, if it is written. */
  function PartValue(p: Option<Result<Value>>): Option<Value> {
    if p.Some? && p.value.Ok? then Some(p.value.value) else None
  }

  /** The array of a text input without extras holds its tag under 'type' and nothing outside its own keys. */
  lemma TagAndNothingElse(f: TextInputFields)
    requires TextInputArray(f).Ok? && f.extra == []
    ensures Lookup(TextInputArray(f).value, Name("type")) == Some(Str(TEXT_INPUT))
    ensures forall k :: k !in OwnKeys() && k != Name("type") ==> Lookup(TextInputArray(f).value, k) == None
  {
    KeysDiffer();
    BaseIsTag(f);
    forall k | k !in OwnKeys()
      ensures Lookup(TextInputArray(f).value, k) == if k == Name("type") then Some(Str(TEXT_INPUT)) else None
    {
      TextInputArrayParts(f, k);
    }
  }

  /** Under each of its own keys, the array of a text input without extras holds that field's part or nothing. */
  lemma OwnLookup(f: TextInputFields, k: Key)
    requires TextInputArray(f).Ok? && f.extra == [] && k in OwnKeys()
    ensures Lookup(TextInputArray(f).value, k) == PartValue(FieldPart(f, k))
  {
    KeysDiffer();
    BaseIsTag(f);
    TextInputArrayParts(f, k);
  }

  /** None of a text input's own keys holds null in its array. */
  lemma NoneNull(f: TextInputFields)
    requires TextInputArray(f).Ok? && f.extra == []
    ensures forall k :: k in OwnKeys() ==> Lookup(TextInputArray(f).value, k) != Some(Null)
  {
    forall k | k in OwnKeys()
      ensures Lookup(TextInputArray(f).value, k) != Some(Null)
    {
      OwnLookup(f, k);
      PartNotNull(f, k);
    }
  }

  /** No part holds null. */
  lemma PartNotNull(f: TextInputFields, k: Key)
    ensures PartValue(FieldPart(f, k)) != Some(Null)
  {
  }

  /** An array tagged as a text input resolves to TextInput. */
  lemma ResolvesToTextInput(d: Dict<Value>)
    requires Lookup(d, Name("type")) == Some(Str(TEXT_INPUT))
    ensures ResolveClass(TextInput, d) == Ok(TextInput)
  {
    TypesAsTextInput(d);
    assert CastToString(GetOr(d, Name("type"), Null)) == TEXT_INPUT;
  }

  /** The text-input tag maps to TextInput, so the base hydration's type check passes. */
  lemma TypesAsTextInput(d: Dict<Value>)
    requires Lookup(d, Name("type")) == Some(Str(TEXT_INPUT))
    ensures MapType(TEXT_INPUT) == Ok(TextInput)
    ensures TagCheck(TextInput, GetOr(d, Name("type"), Null)).Pass?
  {
    TextInputTag();
  }

  /** `plain_text_input` is the tag of TextInput, and only of it. */
  lemma TextInputTag()
    ensures MapType(TEXT_INPUT) == Ok(TextInput) && MapClass(TextInput) == Ok(TEXT_INPUT)
  {
    InvertsInputs(TextInput);
  }

  /** The seven fields read from a text input's array are its own, normalised. */
  lemma ReadsBack(f: TextInputFields, readConfig: Dict<Value> -> Result<Child>)
    requires RoundTrippable(f, readConfig)
    ensures ReadFields(TextInputArray(f).value, readConfig) == Ok(Normalised(f))
  {
    var d := TextInputArray(f).value;
    var g := Normalised(f);
    ReadsStrings(f);
    ReadsScalars(f);
    ReadsParts(f, readConfig);
    assert ReadRest(d, readConfig, g.initialValue, g.multiline) == Ok(g);
  }

  /** The action id and the initial value are read back unless `empty()`. */
  lemma ReadsStrings(f: TextInputFields)
    requires TextInputArray(f).Ok? && f.extra == []
    ensures ReadString(TextInputArray(f).value, "action_id") == Ok(Normalised(f).actionId)
    ensures ReadString(TextInputArray(f).value, "initial_value") == Ok(Normalised(f).initialValue)
  {
    StringParts(f);
    ReadsString(f, "action_id", f.actionId);
    ReadsString(f, "initial_value", f.initialValue);
  }

  /** A string field is read back unless `empty()`. */
  lemma ReadsString(f: TextInputFields, key: string, s: Option<string>)
    requires TextInputArray(f).Ok? && f.extra == [] && Name(key) in OwnKeys()
    requires FieldPart(f, Name(key)) == StrPart(s)
    ensures ReadString(TextInputArray(f).value, key) == Ok(if EmptyString(s) then None else s)
  {
    OwnLookup(f, Name(key));
  }

  /** The multiline flag and the two lengths are read back as set. */
  lemma ReadsScalars(f: TextInputFields)
    requires TextInputArray(f).Ok? && f.extra == [] && Settable(f)
    ensures ReadBool(TextInputArray(f).value, "multiline") == Ok(f.multiline)
    ensures IntUnder(TextInputArray(f).value, "min_length", 0, MinLengthNegative) == Ok(f.minLength)
    ensures IntUnder(TextInputArray(f).value, "max_length", 1, MaxLengthTooSmall) == Ok(f.maxLength)
  {
    ScalarParts(f);
    OwnLookup(f, Name("multiline"));
    ReadsLength(f, "min_length", 0, MinLengthNegative, f.minLength);
    ReadsLength(f, "max_length", 1, MaxLengthTooSmall, f.maxLength);
  }

  /** A length at or above its least value is read back as set. */
  lemma ReadsLength(f: TextInputFields, key: string, least: int, err: Error, n: Option<int>)
    requires TextInputArray(f).Ok? && f.extra == [] && Name(key) in OwnKeys()
    requires FieldPart(f, Name(key)) == IntPart(n) && (n.Some? ==> n.value >= least)
    ensures IntUnder(TextInputArray(f).value, key, least, err) == Ok(n)
  {
    OwnLookup(f, Name(key));
  }

  /** The parts of the two string fields. */
  lemma StringParts(f: TextInputFields)
    ensures FieldPart(f, Name("action_id")) == StrPart(f.actionId)
    ensures FieldPart(f, Name("initial_value")) == StrPart(f.initialValue)
  {
    assert |"initial_value"| != |"action_id"| && |"initial_value"| != |"placeholder"|;
  }

  /** The parts of the flag and the two lengths. */
  lemma ScalarParts(f: TextInputFields)
    ensures FieldPart(f, Name("multiline")) == BoolPart(f.multiline)
    ensures FieldPart(f, Name("min_length")) == IntPart(f.minLength)
    ensures FieldPart(f, Name("max_length")) == IntPart(f.maxLength)
  {
    assert "multiline"[0] != "action_id"[0] && "max_length"[1] != "min_length"[1] && "max_length"[1] != "multiline"[1];
    assert |"multiline"| != |"placeholder"| && |"multiline"| != |"initial_value"|;
    assert |"min_length"| != |"placeholder"| && |"min_length"| != |"initial_value"| && |"min_length"| != |"action_id"|;
  }

  /** The placeholder and the dispatch configuration are read back as set. */
  lemma ReadsParts(f: TextInputFields, readConfig: Dict<Value> -> Result<Child>)
    requires RoundTrippable(f, readConfig)
    ensures TextUnder(TextInputArray(f).value, "placeholder", PlainText) == Ok(f.placeholder)
    ensures ConfigUnder(TextInputArray(f).value, readConfig) == Ok(f.dispatch)
  {
    ElementParts(f);
    ReadsPlaceholder(f);
    ReadsConfig(f, readConfig);
  }

  /** The parts of the placeholder and the dispatch configuration. */
  lemma ElementParts(f: TextInputFields)
    ensures FieldPart(f, Name("placeholder")) == TextPart(f.placeholder)
    ensures FieldPart(f, Name("dispatch_action_config")) == ConfigPart(f.dispatch)
  {
    assert |"placeholder"| != |"action_id"|;
  }

  lemma ReadsPlaceholder(f: TextInputFields)
    requires TextInputArray(f).Ok? && f.extra == [] && Settable(f)
    requires f.placeholder.Some? ==> f.placeholder.value.extra == []
    requires FieldPart(f, Name("placeholder")) == TextPart(f.placeholder)
    ensures TextUnder(TextInputArray(f).value, "placeholder", PlainText) == Ok(f.placeholder)
  {
    var d := TextInputArray(f).value;
    OwnLookup(f, Name("placeholder"));
    if f.placeholder.Some? {
      var t := f.placeholder.value;
      ToArrayShape(t);
      TextUnderReadsBack(t, d, "placeholder", PlainText);
    }
  }

  lemma ReadsConfig(f: TextInputFields, readConfig: Dict<Value> -> Result<Child>)
    requires TextInputArray(f).Ok? && f.extra == []
    requires f.dispatch.Some? ==> ConfigReadsBack(f.dispatch.value, readConfig)
    requires FieldPart(f, Name("dispatch_action_config")) == ConfigPart(f.dispatch)
    ensures ConfigUnder(TextInputArray(f).value, readConfig) == Ok(f.dispatch)
  {
    OwnLookup(f, Name("dispatch_action_config"));
  }

  /** With its own fields read, a text input's array leaves nothing unread and passes the base hydration and `validate`. */
  lemma Completes(f: TextInputFields)
    requires TextInputArray(f).Ok? && f.extra == []
    ensures TextInputCompleted(Normalised(f), TextInputArray(f).value) == Ok(Normalised(f))
  {
    var d := TextInputArray(f).value;
    TagAndNothingElse(f);
    NoneNull(f);
    EveryKeyRead(d);
    TypesAsTextInput(d);
    assert TextInputVerdict(Normalised(f)) == TextInputVerdict(f);
    CompletesWhenAllRead(Normalised(f), d);
  }

  /** With every key read and the tag matching, the base hydration adds nothing and `validate` decides. */
  lemma CompletesWhenAllRead(g: TextInputFields, d: Dict<Value>)
    requires Without(d, ReadKeys(d)) == [] && g.extra == []
    requires TagCheck(TextInput, GetOr(d, Name("type"), Null)).Pass? && TextInputVerdict(g).Pass?
    ensures TextInputCompleted(g, d) == Ok(g)
  {
    assert AddExtras([], []) == Ok([]);
  }

  /** When only the type and the seven keys occur, and none holds null, `hydrate` reads every key. */
  lemma EveryKeyRead(d: Dict<Value>)
    requires forall k :: k !in OwnKeys() && k != Name("type") ==> Lookup(d, k) == None
    requires forall k :: k in OwnKeys() ==> Lookup(d, k) != Some(Null)
    ensures Without(d, ReadKeys(d)) == []
  {
    forall i | 0 <= i < |d|
      ensures d[i].key in ReadKeys(d)
    {
      var k := d[i].key;
      assert HasKey(d, k);
      if k != Name("type") {
        assert IsSet(d, k);
      }
    }
    WithoutAll(d, ReadKeys(d));
  }

  /**
   * As written, the array of every serialisable text input that has its
   * multiline flag set, even one that the corrected `hydrate` reads back,
   * fails to hydrate.
   */
  lemma SerialisedMultilineRejectedAsWritten(f: TextInputFields, readConfig: Dict<Value> -> Result<Child>)
    requires RoundTrippable(f, readConfig) && f.multiline.Some?
    ensures TextInputHydrated(TextInputArray(f).value, readConfig) == Ok(Normalised(f))
    ensures HydratedAsWritten(TextInputArray(f).value, readConfig) == Err(TypeError)
  {
    var d := TextInputArray(f).value;
    RoundTrip(f, readConfig);
    TagAndNothingElse(f);
    ResolvesToTextInput(d);
    ReadsScalars(f);
    MultilineRejectedAsWritten(d, readConfig);
  }

  /** `TextInput::new()->multiline(true)`. */
  const MULTILINE_INPUT := TextInputFields(None, None, None, Some(true), None, None, None, [])

  /** Its array, `{"type": "plain_text_input", "multiline": true}`, hydrates back, except as written. */
  lemma MultilineInputExample(readConfig: Dict<Value> -> Result<Child>)
    ensures TextInputFromData(TextInputArray(MULTILINE_INPUT).value, readConfig) == Ok(MULTILINE_INPUT)
    ensures HydratedAsWritten(TextInputArray(MULTILINE_INPUT).value, readConfig) == Err(TypeError)
  {
    var f := MULTILINE_INPUT;
    assert TextInputVerdict(f) == Pass;
    TextInputTag();
    assert BaseArray(TextInput, Pass, []) == Ok([Entry(Name("type"), Str(TEXT_INPUT))]);
    SerialisedMultilineRejectedAsWritten(f, readConfig);
  }

  // The element

  /** A text input with nothing set. */
  const BLANK := TextInputFields(None, None, None, None, None, None, None, [])

  /** A plain-text input element. */
  class TextInputElement {
    const base: ElementBase
    var actionId: Option<string>
    var placeholder: Option<TextObject>
    var initialValue: Option<string>
    var multiline: Option<bool>
    var minLength: Option<int>
    var maxLength: Option<int>
    var dispatch: Option<Child>

    /** The element is a TextInput, and its lengths and placeholder came through the setters. */
    ghost predicate Valid()
      reads this, base
    {
      base.cls == TextInput && base.Valid() && Settable(Fields())
    }

    function Fields(): TextInputFields
      reads this, base
    {
      TextInputFields(actionId, placeholder, initialValue, multiline, minLength, maxLength, dispatch, base.extra)
    }

    /** `new TextInput($actionId)`: the id is kept unless `empty()`. */
    constructor(actionId: Option<string>)
      ensures Valid() && fresh(base) && base.parent.None?
      ensures Fields() == BLANK.(actionId := if EmptyString(actionId) then None else actionId)
    {
      base := new ElementBase(TextInput);
      this.actionId := if EmptyString(actionId) then None else actionId;
      placeholder := None;
      initialValue := None;
      multiline := None;
      minLength := None;
      maxLength := None;
      dispatch := None;
    }

    /** `actionId`. */
    method ActionId(id: string)
      requires Valid()
      modifies this
      ensures Valid() && Fields() == old(Fields()).(actionId := Some(id))
    {
      actionId := Some(id);
    }

    /** `initialValue`. */
    method InitialValue(text: string)
      requires Valid()
      modifies this
      ensures Valid() && Fields() == old(Fields()).(initialValue := Some(text))
    {
      initialValue := Some(text);
    }

    /** `multiline`. */
    method Multiline(flag: bool)
      requires Valid()
      modifies this
      ensures Valid() && Fields() == old(Fields()).(multiline := Some(flag))
    {
      multiline := Some(flag);
    }

    /** `minLength`: a negative length is refused and nothing changes. */
    method MinLength(n: int) returns (r: Outcome)
      requires Valid()
      modifies this
      ensures r == MinLengthCheck(n)
      ensures Valid() && Fields() == if r.Pass? then old(Fields()).(minLength := Some(n)) else old(Fields())
    {
      r := MinLengthCheck(n);
      if r.Pass? {
        minLength := Some(n);
      }
    }

    /** `maxLength`: a length below 1 is refused and nothing changes. */
    method MaxLength(n: int) returns (r: Outcome)
      requires Valid()
      modifies this
      ensures r == MaxLengthCheck(n)
      ensures Valid() && Fields() == if r.Pass? then old(Fields()).(maxLength := Some(n)) else old(Fields())
    {
      r := MaxLengthCheck(n);
      if r.Pass? {
        maxLength := Some(n);
      }
    }

    /** `setPlaceholder`, which takes a PlainText only. */
    method SetPlaceholder(t: TextObject)
      requires Valid() && t.format == PlainFormat
      modifies this
      ensures Valid() && Fields() == old(Fields()).(placeholder := Some(t))
    {
      placeholder := Some(t);
    }

    /** `placeholder($string)`: over 150 characters is refused and nothing changes. */
    method Placeholder(s: string, defaultEmoji: Option<bool>) returns (r: Outcome)
      requires Valid()
      modifies this
      ensures r == PlaceholderCheck(s)
      ensures Valid()
      ensures Fields() == if r.Pass? then old(Fields()).(placeholder := Some(NewPlain(Some(s), None, defaultEmoji)))
                          else old(Fields())
    {
      r := PlaceholderCheck(s);
      if r.Pass? {
        SetPlaceholder(NewPlain(Some(s), None, defaultEmoji));
      }
    }

    /** `setDispatchActionConfig`. */
    method SetDispatchActionConfig(c: Child)
      requires Valid()
      modifies this
      ensures Valid() && Fields() == old(Fields()).(dispatch := Some(c))
    {
      dispatch := Some(c);
    }

    /** `validate`. */
    method Validate() returns (r: Outcome)
      ensures r == TextInputVerdict(Fields())
    {
      if placeholder.Some? {
        r := placeholder.value.Validate();
        if r.Fail? {
          return;
        }
      }
      if minLength.Some? {
        if minLength.value > MAX_MIN_LENGTH {
          return Fail(MinLengthTooLarge(MAX_MIN_LENGTH));
        }
        if maxLength.Some? && maxLength.value <= minLength.value {
          return Fail(MaxNotAboveMin);
        }
      }
      if dispatch.Some? {
        return dispatch.value.valid;
      }
      return Pass;
    }

    /** `toArray`; it fails unless `validate` passes. */
    function ToArray(): (r: Result<Dict<Value>>)
      reads this, base
      ensures r == TextInputArray(Fields())
      ensures r.Ok? ==> TextInputVerdict(Fields()).Pass?
    {
      TextInputArray(Fields())
    }

    /** `hydrate` of a new text input: its own reads, the action id, then `Element::hydrate` and `validate`. */
    method Hydrate(h: HydrationData, readConfig: Dict<Value> -> Result<Child>) returns (r: Outcome)
      requires Valid() && h.consumed == {} && Fields() == BLANK
      modifies this, base, h
      ensures Valid()
      ensures r.Fail? ==> TextInputHydrated(h.data, readConfig) == Err(r.error)
      ensures r.Pass? ==> TextInputHydrated(h.data, readConfig) == Ok(Fields())
    {
      r := HydrateReads(h, readConfig);
      if r.Fail? {
        return;
      }
      r := HydrateFinish(h);
    }

    /** The reads of `hydrate` before `Element::hydrate`. */
    method HydrateReads(h: HydrationData, readConfig: Dict<Value> -> Result<Child>) returns (r: Outcome)
      requires Valid() && h.consumed == {} && Fields() == BLANK
      modifies this, h
      ensures Valid() && base.extra == []
      ensures r.Fail? ==> ReadFields(h.data, readConfig) == Err(r.error)
      ensures r.Pass? ==> ReadFields(h.data, readConfig) == Ok(Fields()) && h.consumed == FieldKeys(h.data)
    {
      r := HydrateFront(h);
      if r.Fail? {
        return;
      }
      ghost var front := (initialValue, multiline);
      assert FrontUnder(h.data) == Ok(front);
      r := HydrateRest(h, readConfig);
      assert ReadFields(h.data, readConfig) == ReadRest(h.data, readConfig, front.0, front.1);
    }

    /** The initial-value and multiline reads, through their setters. */
    method HydrateFront(h: HydrationData) returns (r: Outcome)
      requires Valid() && initialValue.None? && multiline.None?
      modifies this, h
      ensures Valid() && Fields() == old(Fields()).(initialValue := initialValue, multiline := multiline)
      ensures r.Fail? ==> FrontUnder(h.data) == Err(r.error)
      ensures r.Pass? ==> FrontUnder(h.data) == Ok((initialValue, multiline))
      ensures r.Pass? ==> h.consumed == old(h.consumed) + KeyIfSet(h.data, "initial_value") + KeyIfSet(h.data, "multiline")
    {
      var iv := UseString(h, "initial_value");
      if iv.Err? {
        return Fail(iv.error);
      }
      if iv.value.Some? {
        InitialValue(iv.value.value);
      }
      var ml := UseBool(h, "multiline");
      if ml.Err? {
        return Fail(ml.error);
      }
      if ml.value.Some? {
        Multiline(ml.value.value);
      }
      r := Pass;
    }

    /** The reads after the initial value and the flag. */
    method HydrateRest(h: HydrationData, readConfig: Dict<Value> -> Result<Child>) returns (r: Outcome)
      requires Valid() && Fields() == BLANK.(initialValue := initialValue, multiline := multiline)
      modifies this, h
      ensures Valid() && base.extra == [] && initialValue == old(initialValue) && multiline == old(multiline)
      ensures r.Fail? ==> ReadRest(h.data, readConfig, initialValue, multiline) == Err(r.error)
      ensures r.Pass? ==> ReadRest(h.data, readConfig, initialValue, multiline) == Ok(Fields())
      ensures r.Pass? ==> h.consumed == old(h.consumed) + RestKeys(h.data)
    {
      r := HydrateMin(h);
      if r.Fail? {
        return;
      }
      r := HydrateMax(h);
      if r.Fail? {
        return;
      }
      r := HydrateElements(h, readConfig);
    }

    /** The minimum-length read, through the guarded setter. */
    method HydrateMin(h: HydrationData) returns (r: Outcome)
      requires Valid() && minLength.None?
      modifies this, h
      ensures Valid() && Fields() == old(Fields()).(minLength := minLength)
      ensures r.Fail? ==> IntUnder(h.data, "min_length", 0, MinLengthNegative) == Err(r.error)
      ensures r.Pass? ==> IntUnder(h.data, "min_length", 0, MinLengthNegative) == Ok(minLength)
      ensures h.consumed == old(h.consumed) + KeyIfSet(h.data, "min_length")
    {
      r := Pass;
      if h.Has("min_length") {
        var v := h.UseValue("min_length", Null);
        if !v.Int? {
          return Fail(TypeError);
        }
        r := MinLength(v.i);
      }
    }

    /** The maximum-length read, through the guarded setter. */
    method HydrateMax(h: HydrationData) returns (r: Outcome)
      requires Valid() && maxLength.None?
      modifies this, h
      ensures Valid() && Fields() == old(Fields()).(maxLength := maxLength)
      ensures r.Fail? ==> IntUnder(h.data, "max_length", 1, MaxLengthTooSmall) == Err(r.error)
      ensures r.Pass? ==> IntUnder(h.data, "max_length", 1, MaxLengthTooSmall) == Ok(maxLength)
      ensures h.consumed == old(h.consumed) + KeyIfSet(h.data, "max_length")
    {
      r := Pass;
      if h.Has("max_length") {
        var v := h.UseValue("max_length", Null);
        if !v.Int? {
          return Fail(TypeError);
        }
        r := MaxLength(v.i);
      }
    }

    /** The placeholder, configuration and action-id reads. */
    method HydrateElements(h: HydrationData, readConfig: Dict<Value> -> Result<Child>) returns (r: Outcome)
      requires Valid() && placeholder.None? && dispatch.None? && actionId.None?
      modifies this, h
      ensures Valid() && Fields() == old(Fields()).(placeholder := placeholder, dispatch := dispatch, actionId := actionId)
      ensures r.Fail? ==> ElementsUnder(h.data, readConfig) == Err(r.error)
      ensures r.Pass? ==> ElementsUnder(h.data, readConfig) == Ok((placeholder, dispatch, actionId))
      ensures r.Pass? ==> h.consumed == old(h.consumed) + KeyIfSet(h.data, "placeholder") +
                                       KeyIfSet(h.data, "dispatch_action_config") + KeyIfSet(h.data, "action_id")
    {
      var p := Texts.UseText(h, "placeholder", PlainText);
      if p.Err? {
        return Fail(p.error);
      }
      if p.value.Some? {
        SetPlaceholder(p.value.value);
      }
      assert TextUnder(h.data, "placeholder", PlainText) == Ok(placeholder);
      var c := UseConfig(h, readConfig);
      if c.Err? {
        return Fail(c.error);
      }
      if c.value.Some? {
        SetDispatchActionConfig(c.value.value);
      }
      assert ConfigUnder(h.data, readConfig) == Ok(dispatch);
      var id := UseString(h, "action_id");
      if id.Err? {
        return Fail(id.error);
      }
      if id.value.Some? {
        ActionId(id.value.value);
      }
      r := Pass;
    }

    /** `Element::hydrate` and `validate`, once the element's own reads succeeded. */
    method HydrateFinish(h: HydrationData) returns (r: Outcome)
      requires Valid() && base.extra == [] && h.consumed == FieldKeys(h.data)
      modifies base, h
      ensures Valid()
      ensures r.Fail? ==> TextInputCompleted(old(Fields()), h.data) == Err(r.error)
      ensures r.Pass? ==> TextInputCompleted(old(Fields()), h.data) == Ok(Fields())
    {
      var outcome := base.Hydrate(h);
      assert h.consumed == ReadKeys(h.data);
      if outcome.Fail? {
        return outcome;
      }
      r := Validate();
    }
  }

  /** The configuration read of `hydrate`. */
  method UseConfig(h: HydrationData, readConfig: Dict<Value> -> Result<Child>) returns (r: Result<Option<Child>>)
    modifies h
    ensures r == ConfigUnder(h.data, readConfig)
    ensures h.consumed == old(h.consumed) + KeyIfSet(h.data, "dispatch_action_config")
  {
    if !h.Has("dispatch_action_config") {
      return Ok(None);
    }
    var e := h.UseElement("dispatch_action_config");
    if e.Err? {
      return Err(e.error);
    }
    var c :- readConfig(e.value.value);
    return Ok(Some(c));
  }

  /** `TextInput::fromArray`, with the reads recorded in a `HydrationData`. */
  method FromArray(data: Dict<Value>, readConfig: Dict<Value> -> Result<Child>) returns (r: Result<TextInputElement>)
    ensures r.Ok? <==> TextInputFromData(data, readConfig).Ok?
    ensures r.Err? ==> r.error == TextInputFromData(data, readConfig).error
    ensures r.Ok? ==> fresh(r.value) && r.value.Valid() && r.value.Fields() == TextInputFromData(data, readConfig).value
  {
    var rc := ResolveClass(TextInput, data);
    if rc.Err? {
      return Err(rc.error);
    }
    var e := new TextInputElement(None);
    var h := new HydrationData(data);
    var o := e.Hydrate(h, readConfig);
    if o.Fail? {
      return Err(o.error);
    }
    return Ok(e);
  }
}
