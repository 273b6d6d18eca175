/**
 * The option composition object (src/Partials/Option.php): a plain-text
 * label, the value sent back when the option is chosen, and optionally a
 * description (checkbox and radio groups only) and a url (overflow menus
 * only). Options are values here; the container that adds one records
 * itself as the option's parent.
 */
module Options {
  import opened Classes
  import opened Outcomes
  import opened Wire
  import opened Hydration
  import opened Types
  import opened Elements
  import opened Texts

  datatype OptionObject = OptionObject(
    text: Option<TextObject>,
    value: Option<string>,
    description: Option<TextObject>,
    url: Option<string>,
    parent: Option<Class>,
    extra: Extras)
  {
    /** A url is emitted and checked only when it is set and not the empty string. */
    predicate HasUrl() {
      url.Some? && url.value != ""
    }

    /**
     * The rules `validate` enforces, stated on their own: a label and a
     * value of 1 to 75 characters, a description of 1 to 75 characters
     * that only a checkbox or radio group may carry, and a url of at most
     * 3000 characters that only an overflow menu may carry.
     */
    predicate Acceptable() {
      && text.Some? && text.value.text.Some? && 1 <= |text.value.text.value| <= 75
      && value.Some? && 1 <= |value.value| <= 75
      && (description.Some? ==>
            && description.value.text.Some? && 1 <= |description.value.text.value| <= 75
            && (parent.Some? ==> MapClass(parent.value) in {Ok(CHECKBOXES), Ok(RADIO_BUTTONS)}))
      && (HasUrl() ==>
            && |url.value| <= 3000
            && (parent.Some? ==> MapClass(parent.value) == Ok(OVERFLOW_MENU)))
    }

    /** `validate`, with its checks in the order the source makes them. */
    function Validate(): (r: Outcome)
      ensures text.None? ==> r == Fail(OptionTextMissing)
      ensures text.Some? && text.value.ValidateWithLength(Some(75), 1).Pass? && value.None? ==>
        r == Fail(OptionValueMissing)
      ensures r.Pass? <==> Acceptable()
    {
      if text.None? then Fail(OptionTextMissing)
      else if text.value.ValidateWithLength(Some(75), 1).Fail? then text.value.ValidateWithLength(Some(75), 1)
      else if value.None? then Fail(OptionValueMissing)
      else if ValidateString(value, Some(75), 1).Fail? then ValidateString(value, Some(75), 1)
      else if description.Some? && description.value.ValidateWithLength(Some(75), 1).Fail? then
        description.value.ValidateWithLength(Some(75), 1)
      else if description.Some? && parent.Some? && MapClass(parent.value).Err? then Fail(MapClass(parent.value).error)
      else if description.Some? && parent.Some? && MapClass(parent.value).value !in [CHECKBOXES, RADIO_BUTTONS] then
        Fail(DescriptionNotAllowed)
      else if HasUrl() && ValidateString(url, Some(3000), 1).Fail? then ValidateString(url, Some(3000), 1)
      else if HasUrl() && parent.Some? && MapClass(parent.value).Err? then Fail(MapClass(parent.value).error)
      else if HasUrl() && parent.Some? && MapClass(parent.value).value != OVERFLOW_MENU then Fail(UrlNotAllowed)
      else Pass
    }

    /** The description, serialised, when there is one. */
    function DescriptionArray(): (r: Result<Option<Dict<Value>>>)
      ensures description.None? ==> r == Ok(None)
      ensures description.Some? ==> r == (var d :- description.value.ToArray(); Ok(Some(d)))
    {
      if description.None? then Ok(None)
      else
        var d :- description.value.ToArray();
        Ok(Some(d))
    }

    /**
     * The option's own entries, given its serialised label and description:
     * 'text', 'value', then 'description' and 'url' when present (each
     * assignment adds a new key, so it appends).
     */
    function Entries(caption: Dict<Value>, shown: Option<Dict<Value>>): Dict<Value> {
      [Entry(Name("text"), Arr(caption)), Entry(Name("value"), if value.Some? then Str(value.value) else Null)]
      + ((if shown.Some? then [Entry(Name("description"), Arr(shown.value))] else [])
         + (if HasUrl() then [Entry(Name("url"), Str(url.value))] else []))
    }

    /**
     * `toArray`: the label is serialised first (a missing label is a call on
     * null), then the description, then the base output, to which the
     * option's own entries are added.
     */
    function ToArray(): (r: Result<Dict<Value>>)
      ensures text.None? ==> r == Err(NullMethodCall)
      ensures r.Ok? ==> Acceptable()
    {
      if text.None? then Err(NullMethodCall)
      else
        var caption :- text.value.ToArray();
        var shown :- DescriptionArray();
        var base :- BaseArray(Classes.Option, Validate(), extra);
        Ok(Union(base, Entries(caption, shown)))
    }
  }

  /** The keys an option writes itself. */
  const OWN_KEYS: set<Key> := {Name("text"), Name("value"), Name("description"), Name("url")}

  /** Where each of the option's own keys is found among its entries. */
  lemma EntriesLookup(o: OptionObject, caption: Dict<Value>, shown: Option<Dict<Value>>)
    ensures Lookup(o.Entries(caption, shown), Name("text")) == Some(Arr(caption))
    ensures Lookup(o.Entries(caption, shown), Name("value")) == Some(if o.value.Some? then Str(o.value.value) else Null)
    ensures Lookup(o.Entries(caption, shown), Name("description")) == if shown.Some? then Some(Arr(shown.value)) else None
    ensures Lookup(o.Entries(caption, shown), Name("url")) == if o.HasUrl() then Some(Str(o.url.value)) else None
  {
    var head := [Entry(Name("text"), Arr(caption)), Entry(Name("value"), if o.value.Some? then Str(o.value.value) else Null)];
    var described := if shown.Some? then [Entry(Name("description"), Arr(shown.value))] else [];
    var linked := if o.HasUrl() then [Entry(Name("url"), Str(o.url.value))] else [];
    assert o.Entries(caption, shown) == head + (described + linked);
    LookupConcat(head, described + linked, Name("text"));
    LookupConcat(head, described + linked, Name("value"));
    LookupConcat(head, described + linked, Name("description"));
    LookupConcat(head, described + linked, Name("url"));
    LookupConcat(described, linked, Name("description"));
    LookupConcat(described, linked, Name("url"));
  }

  /** An option writes no key but its own four. */
  lemma EntriesKeys(o: OptionObject, caption: Dict<Value>, shown: Option<Dict<Value>>)
    ensures forall e :: e in o.Entries(caption, shown) ==> e.key in OWN_KEYS
  {
    var head := [Entry(Name("text"), Arr(caption)), Entry(Name("value"), if o.value.Some? then Str(o.value.value) else Null)];
    var described := if shown.Some? then [Entry(Name("description"), Arr(shown.value))] else [];
    var linked := if o.HasUrl() then [Entry(Name("url"), Str(o.url.value))] else [];
    assert o.Entries(caption, shown) == head + (described + linked);
    assert forall e :: e in head ==> e.key in OWN_KEYS;
    assert forall e :: e in described ==> e.key == Name("description");
    assert forall e :: e in linked ==> e.key == Name("url");
  }

  /** `Option::new($text, $value)`: the label takes the configured emoji default. */
  function NewOption(text: Option<string>, value: Option<string>, defaultEmoji: Option<bool>): (o: OptionObject)
    ensures o.text.Some? <==> text.Some?
    ensures text.Some? ==> o.text.value == NewPlain(text, None, defaultEmoji)
    ensures o.value == value && o.description.None? && o.url.None? && o.parent.None? && o.extra == []
  {
    OptionObject(if text.Some? then Some(NewPlain(text, None, defaultEmoji)) else None, value, None, None, None, [])
  }

  /**
   * The serialised option carries its label, its value, its url exactly
   * when it has one, and its description exactly when it has one (extras
   * of those names aside).
   */
  lemma ToArrayEntries(o: OptionObject)
    requires o.ToArray().Ok?
    requires Distinct(o.extra)
    requires forall n :: n in ["text", "value", "description", "url"] ==> !HasKey(o.extra, Name(n))
    ensures o.text.Some? && o.text.value.ToArray().Ok?
    ensures Lookup(o.ToArray().value, Name("text")) == Some(Arr(o.text.value.ToArray().value))
    ensures Lookup(o.ToArray().value, Name("value")) == Some(Str(o.value.value))
    ensures Lookup(o.ToArray().value, Name("url")) == if o.HasUrl() then Some(Str(o.url.value)) else None
    ensures o.description.Some? ==>
      (o.description.value.ToArray().Ok? &&
       Lookup(o.ToArray().value, Name("description")) == Some(Arr(o.description.value.ToArray().value)))
    ensures o.description.None? ==> !HasKey(o.ToArray().value, Name("description"))
  {
    var caption := o.text.value.ToArray().value;
    var shown := o.DescriptionArray().value;
    var base := BaseArray(Classes.Option, o.Validate(), o.extra).value;
    var own := o.Entries(caption, shown);
    EntriesLookup(o, caption, shown);
    assert o.ToArray().value == Union(base, own);
    OwnKeyLookup(o, base, own, Name("text"));
    OwnKeyLookup(o, base, own, Name("value"));
    OwnKeyLookup(o, base, own, Name("description"));
    OwnKeyLookup(o, base, own, Name("url"));
  }

  /** A key no extra uses is looked up among the option's own entries. */
  lemma OwnKeyLookup(o: OptionObject, base: Dict<Value>, own: Dict<Value>, k: Key)
    requires BaseArray(Classes.Option, o.Validate(), o.extra) == Ok(base)
    requires Distinct(o.extra) && !HasKey(o.extra, k) && k != Name("type")
    ensures Lookup(Union(base, own), k) == Lookup(own, k)
  {
    NotInBase(o, k);
    UnionLookup(base, own, k);
  }

  /** The base output of an option holds none of its own keys unless an extra does. */
  lemma NotInBase(o: OptionObject, k: Key)
    requires Distinct(o.extra) && !HasKey(o.extra, k) && k != Name("type")
    requires BaseArray(Classes.Option, o.Validate(), o.extra).Ok?
    ensures !HasKey(BaseArray(Classes.Option, o.Validate(), o.extra).value, k)
  {
    var t := MapClass(Classes.Option).value;
    var head: Dict<Value> := if Hidden(t) then [] else [Entry(Name("type"), Str(t))];
    WriteExtrasLookup(head, o.extra, k);
  }

  /** The label and the description are plain texts without extras, as `text()` and `description()` make them. */
  predicate PlainParts(o: OptionObject) {
    && o.text.Some? && o.text.value.format == PlainFormat && o.text.value.extra == []
    && (o.description.Some? ==> o.description.value.format == PlainFormat && o.description.value.extra == [])
  }

  /**
   * An option as built and validated before it is added to a container
   * (no parent yet, no extras, a url either absent or not empty) is
   * serialised and hydrated back to itself.
   */
  lemma RoundTrip(o: OptionObject)
    requires o.Acceptable() && o.parent.None? && o.extra == [] && PlainParts(o)
    requires o.url.Some? ==> o.HasUrl()
    ensures o.ToArray().Ok?
    ensures Hydrated(o.ToArray().value) == Ok(o)
  {
    SerialisesToOwnEntries(o);
    HydratesOwnEntries(o, Union([], OwnEntries(o)));
  }

  /** The serialised label and description of an option with plain parts. */
  function OwnEntries(o: OptionObject): Dict<Value>
    requires PlainParts(o) && o.text.value.text.Some?
    requires o.description.Some? ==> o.description.value.text.Some?
  {
    o.Entries(Serialised(o.text.value), if o.description.Some? then Some(Serialised(o.description.value)) else None)
  }

  /** An option has no type tag, so with no extras its output is its own entries. */
  lemma SerialisesToOwnEntries(o: OptionObject)
    requires o.Acceptable() && o.extra == [] && PlainParts(o)
    ensures o.ToArray() == Ok(Union([], OwnEntries(o)))
  {
    Texts.ToArrayShape(o.text.value);
    if o.description.Some? {
      Texts.ToArrayShape(o.description.value);
    }
    OptionBaseIsEmpty(o);
  }

  lemma OptionBaseIsEmpty(o: OptionObject)
    requires o.Acceptable() && o.extra == []
    ensures BaseArray(Classes.Option, o.Validate(), o.extra) == Ok([])
  {
    assert MapClass(Classes.Option) == Ok(OPTION) && Hidden(OPTION);
  }

  /** Hydrating an option's own entries gives the option back. */
  lemma HydratesOwnEntries(o: OptionObject, d: Dict<Value>)
    requires o.Acceptable() && o.parent.None? && o.extra == [] && PlainParts(o)
    requires o.url.Some? ==> o.HasUrl()
    requires d == Union([], OwnEntries(o))
    ensures Hydrated(d) == Ok(o)
  {
    OwnLookups(o, d);
    ReadsBack(o, d);
    OwnEntriesKeys(o);
    OnlyOwnKeys(OwnEntries(o), d);
    EveryKeyRead(d);
    NothingLeftToHydrate(o, d);
  }

  /** When every entry uses one of the four keys and none of them holds null, hydrate reads them all. */
  lemma {:induction false} EveryKeyRead(d: Dict<Value>)
    requires forall i :: 0 <= i < |d| ==> d[i].key in OWN_KEYS
    requires Lookup(d, Name("text")) != Some(Null) && Lookup(d, Name("value")) != Some(Null)
    requires Lookup(d, Name("description")) != Some(Null) && Lookup(d, Name("url")) != Some(Null)
    ensures Without(d, ReadKeys(d)) == []
  {
    forall i | 0 <= i < |d|
      ensures d[i].key in ReadKeys(d)
    {
      assert HasKey(d, d[i].key);
      OwnKeyRead(d, d[i].key);
    }
    WithoutAll(d, ReadKeys(d));
  }

  /** One of the four keys, present, is read when none of the four holds null. */
  lemma OwnKeyRead(d: Dict<Value>, k: Key)
    requires k in OWN_KEYS && HasKey(d, k)
    requires Lookup(d, Name("text")) != Some(Null) && Lookup(d, Name("value")) != Some(Null)
    requires Lookup(d, Name("description")) != Some(Null) && Lookup(d, Name("url")) != Some(Null)
    ensures k in FieldKeys(d)
  {
    if k == Name("text") {
      KeyRead(d, "text");
    } else if k == Name("value") {
      KeyRead(d, "value");
    } else if k == Name("description") {
      KeyRead(d, "description");
    } else {
      KeyRead(d, "url");
    }
  }

  lemma KeyRead(d: Dict<Value>, key: string)
    requires HasKey(d, Name(key)) && Lookup(d, Name(key)) != Some(Null)
    ensures KeyIfSet(d, key) == {Name(key)}
  {
  }

  /** An option's own entries use its four keys only. */
  lemma OwnEntriesKeys(o: OptionObject)
    requires PlainParts(o) && o.text.value.text.Some?
    requires o.description.Some? ==> o.description.value.text.Some?
    ensures forall e :: e in OwnEntries(o) ==> e.key in OWN_KEYS
  {
    var shown := if o.description.Some? then Some(Serialised(o.description.value)) else None;
    EntriesKeys(o, Serialised(o.text.value), shown);
  }

  /** An option's output with no extras uses its four keys only, and no 'type'. */
  lemma OnlyOwnKeys(own: Dict<Value>, d: Dict<Value>)
    requires forall e :: e in own ==> e.key in OWN_KEYS
    requires d == Union([], own)
    ensures forall i :: 0 <= i < |d| ==> d[i].key in OWN_KEYS
    ensures Lookup(d, Name("type")) == None
  {
    UnionKeys([], own, OWN_KEYS);
    AbsentKey(d, Name("type"), OWN_KEYS);
  }

  /** What each of the four keys holds in an option's own entries. */
  lemma OwnLookups(o: OptionObject, d: Dict<Value>)
    requires o.Acceptable() && PlainParts(o)
    requires d == Union([], OwnEntries(o))
    ensures Lookup(d, Name("text")) == Some(Arr(Serialised(o.text.value)))
    ensures Lookup(d, Name("value")) == Some(Str(o.value.value))
    ensures Lookup(d, Name("description")) ==
      if o.description.Some? then Some(Arr(Serialised(o.description.value))) else None
    ensures Lookup(d, Name("url")) == if o.HasUrl() then Some(Str(o.url.value)) else None
  {
    var shown := if o.description.Some? then Some(Serialised(o.description.value)) else None;
    EntriesLookup(o, Serialised(o.text.value), shown);
    UnionLookup([], OwnEntries(o), Name("text"));
    UnionLookup([], OwnEntries(o), Name("value"));
    UnionLookup([], OwnEntries(o), Name("description"));
    UnionLookup([], OwnEntries(o), Name("url"));
  }

  /** The four fields read from an option's own entries are the option's. */
  lemma ReadsBack(o: OptionObject, d: Dict<Value>)
    requires o.Acceptable() && o.parent.None? && o.extra == [] && PlainParts(o)
    requires o.url.Some? ==> o.HasUrl()
    requires Lookup(d, Name("text")) == Some(Arr(Serialised(o.text.value)))
    requires Lookup(d, Name("value")) == Some(Str(o.value.value))
    requires Lookup(d, Name("description")) ==
      if o.description.Some? then Some(Arr(Serialised(o.description.value))) else None
    requires Lookup(d, Name("url")) == if o.HasUrl() then Some(Str(o.url.value)) else None
    ensures ReadFields(d) == Ok(o)
  {
    ReadsBackText(o.text.value, d, "text");
    if o.description.Some? {
      ReadsBackText(o.description.value, d, "description");
    }
    ReadsBackString(d, "value", o.value);
    ReadsBackString(d, "url", o.url);
    assert ReadFields(d) == Ok(OptionObject(o.text, o.value, o.description, o.url, None, []));
  }

  /** A string under a key, or no key at all, is read back as itself. */
  lemma ReadsBackString(d: Dict<Value>, key: string, s: Option<string>)
    requires Lookup(d, Name(key)) == if s.Some? then Some(Str(s.value)) else None
    ensures ReadString(d, key) == Ok(s)
  {
  }

  /** A serialised plain text under a key is read back as that text. */
  lemma ReadsBackText(t: TextObject, d: Dict<Value>, key: string)
    requires t.format == PlainFormat && t.extra == [] && t.Validate().Pass?
    requires Lookup(d, Name(key)) == Some(Arr(Serialised(t)))
    ensures ReadText(d, key) == Ok(Some(t))
  {
    TextUnderReadsBack(t, d, key, PlainText);
  }

  /** `Option::fromArray`: resolve the class (only Option itself fits), then hydrate. */
  function FromData(data: Dict<Value>): (r: Result<OptionObject>)
    ensures ResolveClass(Classes.Option, data).Err? ==> r == Err(ResolveClass(Classes.Option, data).error)
    ensures ResolveClass(Classes.Option, data).Ok? ==> r == Hydrated(data)
  {
    var c :- ResolveClass(Classes.Option, data);
    Hydrated(data)
  }

  /** The keys `hydrate` reads: each of its four fields that is set, and 'type'. */
  function ReadKeys(data: Dict<Value>): set<Key> {
    FieldKeys(data) + {Name("type")}
  }

  /** The keys of the four fields that are set. */
  function FieldKeys(data: Dict<Value>): set<Key> {
    KeyIfSet(data, "text") + KeyIfSet(data, "value") + KeyIfSet(data, "description") + KeyIfSet(data, "url")
  }

  /** `PlainText::fromArray($data->useElement($key))`, when the key is set. */
  function ReadText(data: Dict<Value>, key: string): (r: Result<Option<TextObject>>)
    ensures !IsSet(data, Name(key)) ==> r == Ok(None)
    ensures r.Ok? && r.value.Some? ==> r.value.value.format == PlainFormat && r.value.value.Validate().Pass?
  {
    TextUnder(data, key, PlainText)
  }

  /**
   * `hydrate` as the source writes it: the 'url' entry is handed to
   * `value()`, so it overwrites the value and the url is never set.
   */
  function HydratedAsWritten(data: Dict<Value>): (r: Result<OptionObject>)
    ensures r.Ok? ==> r.value.url.None?
    ensures r.Ok? && IsSet(data, Name("url")) ==> ReadString(data, "url") == Ok(r.value.value)
  {
    var o :- ReadFields(data);
    Completed(o.(value := if o.url.Some? then o.url else o.value, url := None), data)
  }

  /** Whenever a hydrated option has a url, the code as written hydrates something else. */
  lemma UrlLostAsWritten(data: Dict<Value>)
    requires Hydrated(data).Ok? && IsSet(data, Name("url"))
    ensures Hydrated(data).value.url.Some?
    ensures HydratedAsWritten(data) != Hydrated(data)
  {
  }

  /** An overflow-menu option with a url, as a request would carry it. */
  const LINK_OPTION: Dict<Value> := [
    Entry(Name("text"), Arr([Entry(Name("text"), Str("Docs"))])),
    Entry(Name("value"), Str("docs")),
    Entry(Name("url"), Str("https://example.com"))]

  /** The link option's fields, read. */
  const LINK_FIELDS := OptionObject(
    Some(TextObject(PlainFormat, Some("Docs"), None, [])), Some("docs"), None, Some("https://example.com"), None, [])

  /**
   * The link option hydrates with its value and url; as written, the url
   * replaces the value and is itself dropped.
   */
  lemma LinkOptionHydration()
    ensures Hydrated(LINK_OPTION) == Ok(LINK_FIELDS)
    ensures HydratedAsWritten(LINK_OPTION) == Ok(LINK_FIELDS.(value := Some("https://example.com"), url := None))
  {
    LinkFieldsRead();
    LinkCompleted(LINK_FIELDS);
    LinkCompleted(LINK_FIELDS.(value := Some("https://example.com"), url := None));
  }

  lemma LinkFieldsRead()
    ensures ReadFields(LINK_OPTION) == Ok(LINK_FIELDS)
  {
    LinkLabel();
    LinkStrings();
    LinkNoDescription();
  }

  lemma LinkStrings()
    ensures ReadString(LINK_OPTION, "value") == Ok(Some("docs"))
    ensures ReadString(LINK_OPTION, "url") == Ok(Some("https://example.com"))
  {
    assert GetOr(LINK_OPTION, Name("value"), Null) == Str("docs");
    assert GetOr(LINK_OPTION, Name("url"), Null) == Str("https://example.com");
  }

  lemma LinkNoDescription()
    ensures ReadText(LINK_OPTION, "description") == Ok(None)
  {
    assert !IsSet(LINK_OPTION, Name("description"));
  }

  lemma LinkLabel()
    ensures ReadText(LINK_OPTION, "text") == Ok(LINK_FIELDS.text)
  {
    var caption := [Entry(Name("text"), Str("Docs"))];
    assert GetOr(LINK_OPTION, Name("text"), Null) == Arr(caption);
    LinkCaption(caption);
  }

  lemma {:induction false} LinkCaption(caption: Dict<Value>)
    requires caption == [Entry(Name("text"), Str("Docs"))]
    ensures Texts.FromData(PlainText, caption) == Ok(LINK_FIELDS.text.value)
  {
    assert !IsSet(caption, Name("type"));
    assert ResolveClass(PlainText, caption) == Ok(PlainText);
    assert GetOr(caption, Name("emoji"), Null) == Null;
    LinkCaptionUnread(caption);
  }

  lemma LinkCaptionUnread(caption: Dict<Value>)
    requires caption == [Entry(Name("text"), Str("Docs"))]
    ensures Without(caption, TextKeys(PlainFormat)) == []
  {
    assert Name("text") in TextKeys(PlainFormat);
  }

  lemma LinkNothingUnread()
    ensures Without(LINK_OPTION, ReadKeys(LINK_OPTION)) == []
  {
    assert IsSet(LINK_OPTION, Name("text")) && IsSet(LINK_OPTION, Name("value")) && IsSet(LINK_OPTION, Name("url"));
    var keys := ReadKeys(LINK_OPTION);
    assert Without(LINK_OPTION[2..], keys) == [];
    assert Without(LINK_OPTION[1..], keys) == [];
  }

  /** Both readings of the link option pass the base hydration and `validate`. */
  lemma LinkCompleted(o: OptionObject)
    requires o == LINK_FIELDS || o == LINK_FIELDS.(value := Some("https://example.com"), url := None)
    ensures Completed(o, LINK_OPTION) == Ok(o)
  {
    LinkNothingUnread();
    assert GetOr(LINK_OPTION, Name("type"), Null) == Null;
    assert o.Acceptable();
    NothingLeftToHydrate(o, LINK_OPTION);
  }

  /** With no type and nothing unread, an acceptable option is hydrated as it is. */
  lemma NothingLeftToHydrate(o: OptionObject, data: Dict<Value>)
    requires o.extra == [] && o.Acceptable()
    requires GetOr(data, Name("type"), Null) == Null && Without(data, ReadKeys(data)) == []
    ensures Completed(o, data) == Ok(o)
  {
  }

  /**
   * `hydrate` with the url read into the url: label, value, description
   * and url, each only when set, then the base hydration and `validate`.
   */
  function Hydrated(data: Dict<Value>): (r: Result<OptionObject>)
    ensures r.Ok? ==> ReadText(data, "text") == Ok(r.value.text)
    ensures r.Ok? ==> ReadString(data, "value") == Ok(r.value.value)
    ensures r.Ok? ==> ReadText(data, "description") == Ok(r.value.description)
    ensures r.Ok? ==> ReadString(data, "url") == Ok(r.value.url)
    ensures r.Ok? ==> r.value.parent.None? && r.value.Acceptable()
  {
    var o :- ReadFields(data);
    Completed(o, data)
  }

  /** The four fields, each read only when set, in the order `hydrate` reads them. */
  function ReadFields(data: Dict<Value>): (r: Result<OptionObject>)
    ensures r.Ok? ==> r.value.extra == [] && r.value.parent.None?
    ensures r.Ok? ==> ReadText(data, "text") == Ok(r.value.text) && ReadString(data, "value") == Ok(r.value.value)
    ensures r.Ok? ==> ReadText(data, "description") == Ok(r.value.description) && ReadString(data, "url") == Ok(r.value.url)
  {
    var text :- ReadText(data, "text");
    var value :- ReadString(data, "value");
    var description :- ReadText(data, "description");
    var url :- ReadString(data, "url");
    Ok(OptionObject(text, value, description, url, None, []))
  }

  /** The base hydration over the keys not read, then `validate`. */
  function Completed(o: OptionObject, data: Dict<Value>): (r: Result<OptionObject>)
    ensures r.Ok? ==> r.value == o.(extra := r.value.extra) && r.value.Acceptable()
    ensures r.Ok? ==> AddExtras(o.extra, Without(data, ReadKeys(data))) == Ok(r.value.extra)
  {
    var unread := Without(data, ReadKeys(data));
    var base := HydrateOutcome(Classes.Option, GetOr(data, Name("type"), Null), o.extra, unread);
    if base.Fail? then Err(base.error)
    else
      var o' := o.(extra := AddExtras(o.extra, unread).value);
      if o'.Validate().Fail? then Err(o'.Validate().error) else Ok(o')
  }

  /** `Option::fromArray`, with the reads recorded in a `HydrationData`. */
  method FromArray(data: Dict<Value>) returns (r: Result<OptionObject>)
    ensures r == FromData(data)
  {
    var rc := ResolveClass(Classes.Option, data);
    if rc.Err? {
      return Err(rc.error);
    }
    r := Hydrate(data);
  }

  /** `hydrate` of a new option (with the url read into the url). */
  method Hydrate(data: Dict<Value>) returns (r: Result<OptionObject>)
    ensures r == Hydrated(data)
  {
    var h := new HydrationData(data);
    var o :- UseFields(h);
    r := Complete(o, h);
  }

  /** The four `has`/`use*` reads of `hydrate`. */
  method UseFields(h: HydrationData) returns (r: Result<OptionObject>)
    requires h.consumed == {}
    modifies h
    ensures r == ReadFields(h.data)
    ensures r.Ok? ==> h.consumed == FieldKeys(h.data)
  {
    var text :- Texts.UseText(h, "text", PlainText);
    var value :- UseString(h, "value");
    var description :- Texts.UseText(h, "description", PlainText);
    var url :- UseString(h, "url");
    return Ok(OptionObject(text, value, description, url, None, []));
  }

  /** The end of `hydrate`: the base hydration, then `validate`. */
  method Complete(o: OptionObject, h: HydrationData) returns (r: Result<OptionObject>)
    requires o.extra == [] && h.consumed == FieldKeys(h.data)
    modifies h
    ensures r == Completed(o, h.data)
  {
    var b := new ElementBase(Classes.Option);
    var outcome := b.Hydrate(h);
    assert h.consumed == ReadKeys(h.data);
    if outcome.Fail? {
      return Err(outcome.error);
    }
    var o' := o.(extra := b.extra);
    if o'.Validate().Fail? {
      return Err(o'.Validate().error);
    }
    return Ok(o');
  }
}
