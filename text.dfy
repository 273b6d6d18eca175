/**
 * Text composition objects (src/Partials/Text.php and its two concrete
 * subclasses PlainText and MrkdwnText): a string checked for length, plus
 * the `emoji` (plain) or `verbatim` (mrkdwn) flag. Texts are values: their
 * containers replace them rather than change them.
 *
 * The constructor default for the flag comes from the global Kit
 * configuration; here it is a parameter.
 */
module Texts {
  import opened Classes
  import opened Outcomes
  import opened Wire
  import opened Hydration
  import opened Types
  import opened Elements

  /**
   * `Text::validateString`: the text must be present, at least min characters
   * long, and at most max characters long when max is given.
   */
  function ValidateString(text: Option<string>, max: Option<int>, min: int): (r: Outcome)
    ensures text.None? ==> r == Fail(TextMissing)
    ensures text.Some? && |text.value| < min ==> r == Fail(TextTooShort(min))
    ensures text.Some? && |text.value| >= min && max.Some? && |text.value| > max.value ==>
      r == Fail(TextTooLong(max.value))
    ensures r.Pass? <==> text.Some? && min <= |text.value| && (max.None? || |text.value| <= max.value)
  {
    if text.None? then Fail(TextMissing)
    else if |text.value| < min then Fail(TextTooShort(min))
    else if max.Some? && |text.value| > max.value then Fail(TextTooLong(max.value))
    else Pass
  }

  /** The two concrete text classes. */
  datatype Format = PlainFormat | MrkdwnFormat

  datatype TextObject = TextObject(format: Format, text: Option<string>, flag: Option<bool>, extra: Extras)
  {
    function Cls(): (c: Class)
      ensures IsA(c, Classes.Text) && !IsAbstract(c)
    {
      if format.PlainFormat? then PlainText else MrkdwnText
    }

    /** The key the flag is written under: 'emoji' or 'verbatim'. */
    function FlagKey(): string {
      if format.PlainFormat? then "emoji" else "verbatim"
    }

    /** `validate`: `validateString` with no maximum and a minimum of 1. */
    function Validate(): (r: Outcome)
      ensures r == ValidateWithLength(None, 1)
      ensures r.Pass? <==> text.Some? && text.value != ""
    {
      ValidateString(text, None, 1)
    }

    /** `validateWithLength`. */
    function ValidateWithLength(max: Option<int>, min: int): (r: Outcome)
      ensures r == ValidateString(text, max, min)
    {
      ValidateString(text, max, min)
    }

    /** `text()`: sets the string and nothing else. */
    function WithText(s: string): (t: TextObject)
      ensures t.text == Some(s) && t.format == format && t.flag == flag && t.extra == extra
    {
      this.(text := Some(s))
    }

    /**
     * `toArray`: the base output (validated, typed, extras) + ['text' => ...],
     * then the flag when it is set.
     */
    function ToArray(): (r: Result<Dict<Value>>)
      ensures Validate().Fail? ==> r == Err(Validate().error)
      ensures r.Ok? ==> Validate().Pass?
    {
      var base :- BaseArray(Cls(), Validate(), extra);
      var d := Union(base, [Entry(Name("text"), Str(text.value))]);
      Ok(if flag.Some? then Put(d, Name(FlagKey()), Bool(flag.value)) else d)
    }
  }

  /** The 'text' entry holds the string unless an extra named 'text' came first. */
  lemma TextKeyInOutput(t: TextObject)
    requires t.ToArray().Ok?
    ensures t.text.Some?
    ensures !HasKey(t.extra, Name("text")) && Distinct(t.extra) ==>
      Lookup(t.ToArray().value, Name("text")) == Some(Str(t.text.value))
  {
    var base := BaseArray(t.Cls(), t.Validate(), t.extra).value;
    var d := Union(base, [Entry(Name("text"), Str(t.text.value))]);
    if !HasKey(t.extra, Name("text")) && Distinct(t.extra) {
      var tag := MapClass(t.Cls()).value;
      var head: Dict<Value> := if Hidden(tag) then [] else [Entry(Name("type"), Str(tag))];
      WriteExtrasLookup(head, t.extra, Name("text"));
      UnionLookup(base, [Entry(Name("text"), Str(t.text.value))], Name("text"));
      if t.flag.Some? {
        PutLookup(d, Name(t.FlagKey()), Bool(t.flag.value), Name("text"));
      }
    }
  }

  /** `new PlainText($text, $emoji)`: an absent emoji flag takes the configured default. */
  function NewPlain(text: Option<string>, emoji: Option<bool>, defaultEmoji: Option<bool>): (t: TextObject)
    ensures t.format == PlainFormat && t.text == text && t.extra == []
    ensures t.flag == if emoji.Some? then emoji else defaultEmoji
  {
    TextObject(PlainFormat, text, if emoji.Some? then emoji else defaultEmoji, [])
  }

  /** `new MrkdwnText($text, $verbatim)`: an absent verbatim flag takes the configured default. */
  function NewMrkdwn(text: Option<string>, verbatim: Option<bool>, defaultVerbatim: Option<bool>): (t: TextObject)
    ensures t.format == MrkdwnFormat && t.text == text && t.extra == []
    ensures t.flag == if verbatim.Some? then verbatim else defaultVerbatim
  {
    TextObject(MrkdwnFormat, text, if verbatim.Some? then verbatim else defaultVerbatim, [])
  }

  /** The classes `fromArray` may be called on for a text. */
  predicate TextEntry(c: Class) {
    c == Classes.Text || c == PlainText || c == MrkdwnText
  }

  /** A concrete class under one of the text entry classes is PlainText or MrkdwnText. */
  lemma ConcreteTextClass(expected: Class, c: Class)
    requires TextEntry(expected) && IsA(c, expected) && !IsAbstract(c)
    ensures c == PlainText || c == MrkdwnText
    ensures expected != Classes.Text ==> c == expected
  {
    if expected != Classes.Text {
      ConcreteHasNoSubclass(c, expected);
    } else {
      TextFamily(c);
    }
  }

  /**
   * `PlainText::fromArray`, `MrkdwnText::fromArray` or `Text::fromArray`
   * (expected is the class it is called on): resolve the class, then hydrate.
   */
  function FromData(expected: Class, data: Dict<Value>): (r: Result<TextObject>)
    requires TextEntry(expected)
    ensures ResolveClass(expected, data).Err? ==> r == Err(ResolveClass(expected, data).error)
    ensures r.Ok? ==> ResolveClass(expected, data) == Ok(r.value.Cls())
    ensures r.Ok? && expected == PlainText ==> r.value.format == PlainFormat
    ensures r.Ok? && expected == MrkdwnText ==> r.value.format == MrkdwnFormat
    ensures r.Ok? ==> r.value.Validate().Pass?
  {
    var c :- ResolveClass(expected, data);
    ConcreteTextClass(expected, c);
    Hydrated(if c == PlainText then PlainFormat else MrkdwnFormat, data)
  }

  /**
   * `X::fromArray($data->useElement($key))` behind `$data->has($key)`, for
   * a text class X: nothing when the key is not set, a failure when it
   * holds a scalar, otherwise the text read from the array under it.
   */
  function TextUnder(data: Dict<Value>, key: string, expected: Class): (r: Result<Option<TextObject>>)
    requires TextEntry(expected)
    ensures !IsSet(data, Name(key)) ==> r == Ok(None)
    ensures IsSet(data, Name(key)) && !GetOr(data, Name(key), Null).Arr? ==> r == Err(TypeError)
    ensures r.Ok? && r.value.Some? ==>
      IsSet(data, Name(key)) && GetOr(data, Name(key), Null) == Arr(GetOr(data, Name(key), Null).entries) &&
      FromData(expected, GetOr(data, Name(key), Null).entries) == Ok(r.value.value)
    ensures r.Ok? && r.value.Some? ==> r.value.value.Validate().Pass?
    ensures r.Ok? && r.value.Some? && expected == PlainText ==> r.value.value.format == PlainFormat
  {
    if !IsSet(data, Name(key)) then Ok(None)
    else match GetOr(data, Name(key), Null)
      case Arr(es) => (var t :- FromData(expected, es); Ok(Some(t)))
      case _ => Err(TypeError)
  }

  /** A serialised text under a key is read back as that text, through its own class or through Text. */
  lemma {:induction false} TextUnderReadsBack(t: TextObject, d: Dict<Value>, key: string, expected: Class)
    requires t.extra == [] && t.Validate().Pass?
    requires expected == t.Cls() || expected == Classes.Text
    requires Lookup(d, Name(key)) == Some(Arr(Serialised(t)))
    ensures TextEntry(expected)
    ensures TextUnder(d, key, expected) == Ok(Some(t))
  {
    SerialisedRoundTrip(t);
    assert IsSet(d, Name(key)) && GetOr(d, Name(key), Null) == Arr(Serialised(t));
    assert FromData(expected, Serialised(t)) == Ok(t);
  }

  /** The reads of `TextUnder`, recorded in a `HydrationData`. */
  method UseText(h: HydrationData, key: string, expected: Class) returns (r: Result<Option<TextObject>>)
    requires TextEntry(expected)
    modifies h
    ensures r == TextUnder(h.data, key, expected)
    ensures h.consumed == old(h.consumed) + KeyIfSet(h.data, key)
  {
    if !h.Has(key) {
      return Ok(None);
    }
    var e :- h.UseElement(key);
    var t :- FromArray(expected, e.value);
    return Ok(Some(t));
  }

  /** The keys a text's `hydrate` reads. */
  function TextKeys(format: Format): set<Key> {
    {Name(if format.PlainFormat? then "emoji" else "verbatim"), Name("text"), Name("type")}
  }

  /**
   * What `hydrate` makes of a new text of the given format: the flag (a
   * `?bool`), then the text (a `string`, so a missing text fails too), then
   * the rest in `Completed`.
   */
  function Hydrated(format: Format, data: Dict<Value>): (r: Result<TextObject>)
    ensures r.Ok? ==> r.value.format == format && r.value.Validate().Pass?
    ensures r.Ok? ==> Lookup(data, Name("text")) == Some(Str(r.value.text.value))
    ensures r.Ok? ==> AsOptBool(GetOr(data, Name(r.value.FlagKey()), Null)) == Ok(r.value.flag)
    ensures r.Ok? ==> AddExtras([], Without(data, TextKeys(format))) == Ok(r.value.extra)
  {
    var flag :- AsOptBool(GetOr(data, Name(if format.PlainFormat? then "emoji" else "verbatim"), Null));
    var tv := GetOr(data, Name("text"), Null);
    if !tv.Str? then Err(TypeError) else Completed(format, flag, tv.s, data)
  }

  /** The base hydration over the keys not read, then `validate`. */
  function Completed(format: Format, flag: Option<bool>, text: string, data: Dict<Value>): (r: Result<TextObject>)
    ensures r.Ok? ==> AddExtras([], Without(data, TextKeys(format))) == Ok(r.value.extra)
    ensures r.Ok? ==> r.value == TextObject(format, Some(text), flag, r.value.extra)
    ensures r.Ok? ==> text != ""
  {
    var unread := Without(data, TextKeys(format));
    var base := HydrateOutcome(if format.PlainFormat? then PlainText else MrkdwnText, GetOr(data, Name("type"), Null), [], unread);
    if base.Fail? then Err(base.error)
    else
      var t := TextObject(format, Some(text), flag, AddExtras([], unread).value);
      if t.Validate().Fail? then Err(t.Validate().error) else Ok(t)
  }

  /** A hydrated text keeps no extra under a key it read. */
  lemma HydratedExtras(format: Format, data: Dict<Value>)
    requires Hydrated(format, data).Ok?
    ensures forall k :: k in TextKeys(format) ==> !HasKey(Hydrated(format, data).value.extra, k)
  {
    var t := Hydrated(format, data).value;
    forall k | k in TextKeys(format)
      ensures !HasKey(t.extra, k)
    {
      ExtrasAvoidConsumed(data, TextKeys(format), k);
    }
  }

  /** `fromArray` on a text class, with the reads recorded in a `HydrationData`. */
  method FromArray(expected: Class, data: Dict<Value>) returns (r: Result<TextObject>)
    requires TextEntry(expected)
    ensures r == FromData(expected, data)
  {
    var rc := ResolveClass(expected, data);
    if rc.Err? {
      return Err(rc.error);
    }
    ConcreteTextClass(expected, rc.value);
    r := Hydrate(if rc.value == PlainText then PlainFormat else MrkdwnFormat, data);
  }

  /** `hydrate` of a new text of the given format. */
  method Hydrate(format: Format, data: Dict<Value>) returns (r: Result<TextObject>)
    ensures r == Hydrated(format, data)
  {
    var h := new HydrationData(data);
    var flagValue := h.UseValue(if format.PlainFormat? then "emoji" else "verbatim", Null);
    var flag :- AsOptBool(flagValue);
    var textValue := h.UseValue("text", Null);
    if !textValue.Str? {
      return Err(TypeError);
    }
    r := Complete(format, flag, textValue.s, h);
  }

  /** The end of `hydrate`, once the flag and the text have been read. */
  method Complete(format: Format, flag: Option<bool>, text: string, h: HydrationData) returns (r: Result<TextObject>)
    requires h.consumed == TextKeys(format) - {Name("type")}
    modifies h
    ensures r == Completed(format, flag, text, h.data)
  {
    var b := new ElementBase(if format.PlainFormat? then PlainText else MrkdwnText);
    var o := b.Hydrate(h);
    assert h.consumed == TextKeys(format);
    if o.Fail? {
      return Err(o.error);
    }
    var t := TextObject(format, Some(text), flag, b.extra);
    if t.Validate().Fail? {
      return Err(t.Validate().error);
    }
    return Ok(t);
  }

  /** An extra gathered by hydration never carries a key that was read. */
  lemma ExtrasAvoidConsumed(data: Dict<Value>, consumed: set<Key>, k: Key)
    requires k in consumed
    requires AddExtras([], Without(data, consumed)).Ok?
    ensures !HasKey(AddExtras([], Without(data, consumed)).value, k)
  {
    AddExtrasKeys([], Without(data, consumed), k);
    WithoutLookup(data, consumed, k);
  }

  lemma {:induction false} AddExtrasKeys(extra: Extras, entries: Dict<Value>, k: Key)
    requires AddExtras(extra, entries).Ok?
    ensures HasKey(AddExtras(extra, entries).value, k) <==> HasKey(extra, k) || HasKey(entries, k)
    decreases |entries|
  {
    if entries != [] {
      AddExtrasKeys(Put(extra, entries[0].key, Plain(entries[0].val)), entries[1..], k);
      PutHasKey(extra, entries[0].key, Plain(entries[0].val), k);
      assert Keys(entries) == [entries[0].key] + Keys(entries[1..]);
    }
  }

  /** The serialised form of a valid text without extras: its type, its text, then its flag. */
  function Serialised(t: TextObject): Dict<Value>
    requires t.text.Some?
  {
    var tag := FormatTag(t.format);
    if t.flag.Some? then
      [Entry(Name("type"), Str(tag)), Entry(Name("text"), Str(t.text.value)), Entry(Name(t.FlagKey()), Bool(t.flag.value))]
    else
      [Entry(Name("type"), Str(tag)), Entry(Name("text"), Str(t.text.value))]
  }

  /** The three keys of a text's output are distinct. */
  lemma OwnKeysDiffer(flagKey: string)
    requires flagKey == "emoji" || flagKey == "verbatim"
    ensures Name("type") != Name("text") && Name(flagKey) != Name("type") && Name(flagKey) != Name("text")
  {
    assert "type"[1] != "text"[1];
    assert flagKey[0] != "type"[0];
  }

  lemma ToArrayShape(t: TextObject)
    requires t.extra == [] && t.Validate().Pass?
    ensures t.ToArray() == Ok(Serialised(t))
  {
    var head := [Entry(Name("type"), Str(FormatTag(t.format)))];
    TextBase(t);
    var e := Entry(Name("text"), Str(t.text.value));
    OwnKeysDiffer(t.FlagKey());
    assert !HasKey(head, e.key);
    assert Union(head, [e]) == head + [e];
    if t.flag.Some? {
      var f := Entry(Name(t.FlagKey()), Bool(t.flag.value));
      assert !HasKey(head + [e], f.key);
      assert head + [e] + [f] == Serialised(t);
    } else {
      assert head + [e] == Serialised(t);
    }
  }

  /** A valid text without extras starts its output with its type tag only. */
  lemma TextBase(t: TextObject)
    requires t.extra == [] && t.Validate().Pass?
    ensures BaseArray(t.Cls(), t.Validate(), t.extra) == Ok([Entry(Name("type"), Str(FormatTag(t.format)))])
  {
    FormatTagMaps(t.format);
    var tag := FormatTag(t.format);
    assert !Hidden(tag);
    assert WriteExtras([Entry(Name("type"), Str(tag))], []) == Ok([Entry(Name("type"), Str(tag))]);
  }

  /**
   * A valid text without extras survives serialisation and hydration, both
   * through its own class and through the abstract Text, which the type
   * tag resolves.
   */
  lemma RoundTrip(t: TextObject)
    requires t.extra == [] && t.Validate().Pass?
    ensures t.ToArray().Ok?
    ensures FromData(t.Cls(), t.ToArray().value) == Ok(t)
    ensures FromData(Classes.Text, t.ToArray().value) == Ok(t)
  {
    ToArrayShape(t);
    SerialisedRoundTrip(t);
  }

  /** The serialised form of a valid text without extras hydrates back to it. */
  lemma SerialisedRoundTrip(t: TextObject)
    requires t.extra == [] && t.Validate().Pass?
    ensures FromData(t.Cls(), Serialised(t)) == Ok(t)
    ensures FromData(Classes.Text, Serialised(t)) == Ok(t)
  {
    ResolvesToOwnClass(t, t.Cls());
    ResolvesToOwnClass(t, Classes.Text);
    HydratesBack(t);
  }

  lemma ResolvesToOwnClass(t: TextObject, expected: Class)
    requires t.text.Some? && (expected == t.Cls() || expected == Classes.Text)
    ensures ResolveClass(expected, Serialised(t)) == Ok(t.Cls())
  {
    SerialisedEntries(t);
    FormatTagMaps(t.format);
    assert IsSet(Serialised(t), Name("type"));
    assert CastToString(Str(FormatTag(t.format))) == FormatTag(t.format);
  }

  /** The wire tag of each text format. */
  function FormatTag(format: Format): string {
    if format.PlainFormat? then PLAINTEXT else MRKDWNTEXT
  }

  /** What each key a text's `hydrate` reads holds in the serialised form. */
  lemma SerialisedEntries(t: TextObject)
    requires t.text.Some?
    ensures GetOr(Serialised(t), Name("type"), Null) == Str(FormatTag(t.format))
    ensures GetOr(Serialised(t), Name("text"), Null) == Str(t.text.value)
    ensures GetOr(Serialised(t), Name(t.FlagKey()), Null) == if t.flag.Some? then Bool(t.flag.value) else Null
    ensures Without(Serialised(t), TextKeys(t.format)) == []
  {
    var d := Serialised(t);
    if t.flag.Some? {
      assert d[2..] == [Entry(Name(t.FlagKey()), Bool(t.flag.value))];
      assert Without(d[2..], TextKeys(t.format)) == [];
    } else {
      assert d[2..] == [];
    }
  }

  lemma HydratesBack(t: TextObject)
    requires t.extra == [] && t.Validate().Pass?
    ensures Hydrated(t.format, Serialised(t)) == Ok(t)
  {
    SerialisedEntries(t);
    FormatTagMaps(t.format);
  }

  /** Each format's tag names its class, and the class maps back to it. */
  lemma FormatTagMaps(format: Format)
    ensures MapType(FormatTag(format)) == Ok(if format.PlainFormat? then PlainText else MrkdwnText)
    ensures MapClass(if format.PlainFormat? then PlainText else MrkdwnText) == Ok(FormatTag(format))
  {
    if format.PlainFormat? {
      assert MapType(PLAINTEXT) == Ok(PlainText);
    } else {
      assert MapType(MRKDWNTEXT) == Ok(MrkdwnText);
    }
  }

  /** A text's array, as a value in its container's output. */
  function TextValue(t: TextObject): (r: Result<Value>)
    ensures r.Ok? <==> t.ToArray().Ok?
    ensures r.Ok? ==> r.value == Arr(t.ToArray().value)
  {
    var d :- t.ToArray();
    Ok(Arr(d))
  }

  /** A text that may be absent, as the value `toArray` writes (None when absent). */
  function TextPart(text: Option<TextObject>): Option<Result<Value>> {
    if text.Some? then Some(TextValue(text.value)) else None
  }
}
