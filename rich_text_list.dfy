/**
 * The rich-text list (src/Partials/RichTextElements/RichTextList.php): a
 * bullet or ordered list of rich-text sections with an optional indent and
 * border, its guarded setters, `validate`, `toArray` and `hydrate`.
 *
 * RichTextList has no entry in the type map, so `Element::toArray` ends in
 * 'No type for class' as soon as `validate` passes; what `toArray` writes
 * after it is stated as a function of the array it would have been given.
 * Rich-text sections are outside the model: they are `Child` summaries,
 * and the reading of a section's array is the parameter readSection.
 */
module RichTextLists {
  import opened Classes
  import opened Outcomes
  import opened Wire
  import opened Types
  import opened Hydration
  import opened Elements

  /** A list's state as a value. */
  datatype ListFields = ListFields(
    elements: seq<Child>,
    style: Option<string>,
    indent: Option<int>,
    border: Option<int>,
    extra: Extras)

  /** A list with nothing set. */
  const EMPTY_LIST := ListFields([], None, None, None, [])

  /** The two styles `setStyle` accepts. */
  predicate ListStyle(s: string) {
    s == "bullet" || s == "ordered"
  }

  /** What the guarded setters let through. */
  predicate Settable(f: ListFields) {
    && (f.style.Some? ==> ListStyle(f.style.value))
    && (f.indent.Some? ==> f.indent.value >= 0)
    && (f.border.Some? ==> f.border.value >= 0)
  }

  /** The guard of `setStyle`. */
  function StyleCheck(s: string): (r: Outcome)
    ensures r.Pass? <==> ListStyle(s)
    ensures r.Fail? ==> r.error == InvalidListStyle(s)
  {
    Need(ListStyle(s), InvalidListStyle(s))
  }

  /** The guard of `setIndent`. */
  function IndentCheck(n: int): (r: Outcome)
    ensures r.Pass? <==> n >= 0
    ensures r.Fail? ==> r.error == NegativeIndent
  {
    Need(n >= 0, NegativeIndent)
  }

  /** The guard of `setBorder`. */
  function BorderCheck(n: int): (r: Outcome)
    ensures r.Pass? <==> n >= 0
    ensures r.Fail? ==> r.error == NegativeBorder
  {
    Need(n >= 0, NegativeBorder)
  }

  /**
   * `validate`: a style and at least one element are required, then each
   * element is validated in order.
   */
  function ListVerdict(f: ListFields): (r: Outcome)
    ensures r.Pass? <==>
      f.style.Some? && f.elements != [] && forall i :: 0 <= i < |f.elements| ==> f.elements[i].valid.Pass?
    ensures f.style.None? ==> r == Fail(ListStyleMissing)
    ensures f.style.Some? && f.elements == [] ==> r == Fail(ListElementsMissing)
    ensures f.style.Some? && f.elements != [] && r.Fail? ==>
      exists i :: 0 <= i < |f.elements| && f.elements[i].valid == r
  {
    if f.style.None? then Fail(ListStyleMissing)
    else if f.elements == [] then Fail(ListElementsMissing)
    else ChildrenVerdict(f.elements)
  }

  // Output

  /** The style as written: `$data['style'] = $this->style`, null when unset. */
  function StyleValue(s: Option<string>): Value {
    if s.Some? then Str(s.value) else Null
  }

  /**
   * What `RichTextElement::toArray` and then `RichTextList::toArray` write
   * over the array `Element::toArray` returns: the type, the elements in
   * order, the style, then the indent and the border when set.
   */
  function ListPayload(base: Dict<Value>, f: ListFields): (r: Result<Dict<Value>>)
    ensures r.Ok? <==> forall i :: 0 <= i < |f.elements| ==> ChildValue(f.elements[i]).Ok?
  {
    var vs :- MapAll(f.elements, ChildValue);
    var typed := Put(base, Name("type"), Str("rich_text_list"));
    var listed := Put(Put(typed, Name("elements"), Arr(List(vs))), Name("style"), StyleValue(f.style));
    var indented := PutIf(listed, f.indent.Some?, "indent", if f.indent.Some? then Int(f.indent.value) else Null);
    Ok(PutIf(indented, f.border.Some?, "border", if f.border.Some? then Int(f.border.value) else Null))
  }

  /**
   * `toArray` as the code stands: validation decides first, and a valid
   * list then fails in `Element::getType`, since its class has no tag.
   */
  function ListArray(f: ListFields): (r: Result<Dict<Value>>)
    ensures ListVerdict(f).Fail? ==> r == Err(ListVerdict(f).error)
    ensures ListVerdict(f).Pass? ==> r == Err(NoTypeForClass(RichTextList))
  {
    assert !Registered(RichTextList);
    match BaseArray(RichTextList, ListVerdict(f), f.extra)
    case Err(e) => Err(e)
    case Ok(base) => ListPayload(base, f)
  }

  /**
   * Over an array without them, the payload carries 'indent' and 'border'
   * exactly when they are set, and always the style and the elements.
   */
  lemma PayloadKeys(base: Dict<Value>, f: ListFields)
    requires ListPayload(base, f).Ok?
    requires !HasKey(base, Name("indent")) && !HasKey(base, Name("border"))
    ensures HasKey(ListPayload(base, f).value, Name("indent")) <==> f.indent.Some?
    ensures HasKey(ListPayload(base, f).value, Name("border")) <==> f.border.Some?
    ensures HasKey(ListPayload(base, f).value, Name("style")) && HasKey(ListPayload(base, f).value, Name("elements"))
  {
    var vs := MapAll(f.elements, ChildValue).value;
    var typed := Put(base, Name("type"), Str("rich_text_list"));
    var withElements := Put(typed, Name("elements"), Arr(List(vs)));
    var listed := Put(withElements, Name("style"), StyleValue(f.style));
    var indented := PutIf(listed, f.indent.Some?, "indent", if f.indent.Some? then Int(f.indent.value) else Null);
    PayloadKeysDiffer();
    PutHasKey(base, Name("type"), Str("rich_text_list"), Name("indent"));
    PutHasKey(base, Name("type"), Str("rich_text_list"), Name("border"));
    PutHasKey(typed, Name("elements"), Arr(List(vs)), Name("indent"));
    PutHasKey(typed, Name("elements"), Arr(List(vs)), Name("border"));
    PutHasKey(withElements, Name("style"), StyleValue(f.style), Name("indent"));
    PutHasKey(withElements, Name("style"), StyleValue(f.style), Name("border"));
    PutHasKey(withElements, Name("style"), StyleValue(f.style), Name("elements"));
    PutHasKey(typed, Name("elements"), Arr(List(vs)), Name("elements"));
    PutHasKey(withElements, Name("style"), StyleValue(f.style), Name("style"));
    PutIfLookup(listed, f.indent.Some?, "indent", if f.indent.Some? then Int(f.indent.value) else Null, Name("indent"));
    PutIfLookup(listed, f.indent.Some?, "indent", if f.indent.Some? then Int(f.indent.value) else Null, Name("border"));
    PutIfLookup(listed, f.indent.Some?, "indent", if f.indent.Some? then Int(f.indent.value) else Null, Name("style"));
    PutIfLookup(listed, f.indent.Some?, "indent", if f.indent.Some? then Int(f.indent.value) else Null, Name("elements"));
    PutIfLookup(indented, f.border.Some?, "border", if f.border.Some? then Int(f.border.value) else Null, Name("indent"));
    PutIfLookup(indented, f.border.Some?, "border", if f.border.Some? then Int(f.border.value) else Null, Name("border"));
    PutIfLookup(indented, f.border.Some?, "border", if f.border.Some? then Int(f.border.value) else Null, Name("style"));
    PutIfLookup(indented, f.border.Some?, "border", if f.border.Some? then Int(f.border.value) else Null, Name("elements"));
  }

  /** The keys the payload writes are distinct. */
  lemma PayloadKeysDiffer()
    ensures Name("indent") != Name("border") && Name("indent") != Name("type") && Name("border") != Name("type")
    ensures Name("indent") != Name("elements") && Name("border") != Name("elements")
    ensures Name("indent") != Name("style") && Name("border") != Name("style")
  {
    assert "indent"[0] == 'i' && "border"[0] == 'b' && "type"[0] == 't' && "elements"[0] == 'e' && "style"[0] == 's';
  }

  // Hydration

  /** `setStyle($data->useValue('style'))` when 'style' is set. */
  function StyleUnder(data: Dict<Value>): (r: Result<Option<string>>)
    ensures r.Ok? && r.value.Some? ==> ListStyle(r.value.value)
    ensures ReadString(data, "style").Err? ==> r == Err(ReadString(data, "style").error)
    ensures ReadString(data, "style").Ok? && ReadString(data, "style").value.Some? ==>
      r == (var s := ReadString(data, "style").value.value; if ListStyle(s) then Ok(Some(s)) else Err(InvalidListStyle(s)))
    ensures ReadString(data, "style") == Ok(None) ==> r == Ok(None)
  {
    var s :- ReadString(data, "style");
    if s.Some? && !ListStyle(s.value) then Err(InvalidListStyle(s.value)) else Ok(s)
  }

  /**
   * One value of the 'elements' list: an array whose 'type' is set and is
   * 'rich_text_section' is read by readSection; anything else is refused.
   */
  function SectionUnder(v: Value, readSection: Dict<Value> -> Result<Child>): (r: Result<Child>)
    ensures !v.Arr? || !IsSet(v.entries, Name("type")) ==> r == Err(ListElementTypeMissing)
    ensures v.Arr? && IsSet(v.entries, Name("type")) && GetOr(v.entries, Name("type"), Null) != Str("rich_text_section") ==>
      r == Err(ListElementNotSection)
    ensures r.Ok? ==> SectionTyped(v) && readSection(v.entries) == r
  {
    if !v.Arr? || !IsSet(v.entries, Name("type")) then Err(ListElementTypeMissing)
    else if GetOr(v.entries, Name("type"), Null) != Str("rich_text_section") then Err(ListElementNotSection)
    else readSection(v.entries)
  }

  /** An array whose 'type' is 'rich_text_section'. */
  predicate SectionTyped(v: Value) {
    v.Arr? && GetOr(v.entries, Name("type"), Null) == Str("rich_text_section")
  }

  /** SectionUnder with its reader fixed, once. */
  function SectionReader(readSection: Dict<Value> -> Result<Child>): Value -> Result<Child> {
    v => SectionUnder(v, readSection)
  }

  /**
   * The 'elements' read of `hydrate`: when set, it must be an array, and
   * each of its values, in order, must be a section.
   */
  function SectionsUnder(data: Dict<Value>, readSection: Dict<Value> -> Result<Child>): (r: Result<seq<Child>>)
    ensures !IsSet(data, Name("elements")) ==> r == Ok([])
    ensures IsSet(data, Name("elements")) && !GetOr(data, Name("elements"), Null).Arr? ==> r == Err(TypeError)
    ensures IsSet(data, Name("elements")) && GetOr(data, Name("elements"), Null).Arr? ==>
      r == MapAll(Values(GetOr(data, Name("elements"), Null).entries), SectionReader(readSection))
  {
    if !IsSet(data, Name("elements")) then Ok([])
    else match GetOr(data, Name("elements"), Null)
      case Arr(es) => MapAll(Values(es), SectionReader(readSection))
      case _ => Err(TypeError)
  }

  /**
   * Hydration keeps a value of the 'elements' list only when it is an array
   * typed 'rich_text_section', and rejects the whole list otherwise.
   */
  lemma SectionsAreSections(data: Dict<Value>, readSection: Dict<Value> -> Result<Child>)
    requires IsSet(data, Name("elements")) && GetOr(data, Name("elements"), Null).Arr?
    ensures var vs := Values(GetOr(data, Name("elements"), Null).entries);
      SectionsUnder(data, readSection).Ok? ==>
        |SectionsUnder(data, readSection).value| == |vs| &&
        forall i :: 0 <= i < |vs| ==>
          SectionTyped(vs[i]) && readSection(vs[i].entries) == Ok(SectionsUnder(data, readSection).value[i])
    ensures var vs := Values(GetOr(data, Name("elements"), Null).entries);
      (exists i :: 0 <= i < |vs| && !SectionTyped(vs[i])) ==> SectionsUnder(data, readSection).Err?
  {
    var vs := Values(GetOr(data, Name("elements"), Null).entries);
    var reader := SectionReader(readSection);
    if exists i :: 0 <= i < |vs| && !SectionTyped(vs[i]) {
      var i :| 0 <= i < |vs| && !SectionTyped(vs[i]);
      assert reader(vs[i]).Err?;
    }
    if SectionsUnder(data, readSection).Ok? {
      forall i | 0 <= i < |vs|
        ensures SectionTyped(vs[i]) && readSection(vs[i].entries) == Ok(SectionsUnder(data, readSection).value[i])
      {
        assert reader(vs[i]) == Ok(SectionsUnder(data, readSection).value[i]);
      }
    }
  }

  /** The reads of `hydrate` on a new list: style, indent, border, then the sections. */
  function ListReads(data: Dict<Value>, readSection: Dict<Value> -> Result<Child>): (r: Result<ListFields>)
    ensures r.Ok? ==> Settable(r.value) && r.value.extra == []
    ensures r.Ok? ==> StyleUnder(data) == Ok(r.value.style)
    ensures r.Ok? ==> IntUnder(data, "indent", 0, NegativeIndent) == Ok(r.value.indent)
    ensures r.Ok? ==> IntUnder(data, "border", 0, NegativeBorder) == Ok(r.value.border)
    ensures r.Ok? ==> SectionsUnder(data, readSection) == Ok(r.value.elements)
  {
    var (style, indent, border) :- ScalarsUnder(data);
    var elements :- SectionsUnder(data, readSection);
    Ok(ListFields(elements, style, indent, border, []))
  }

  /** The style, indent and border reads of `hydrate`, in that order. */
  function ScalarsUnder(data: Dict<Value>): (r: Result<(Option<string>, Option<int>, Option<int>)>)
    ensures r.Ok? ==> StyleUnder(data) == Ok(r.value.0)
    ensures r.Ok? ==> IntUnder(data, "indent", 0, NegativeIndent) == Ok(r.value.1)
    ensures r.Ok? ==> IntUnder(data, "border", 0, NegativeBorder) == Ok(r.value.2)
  {
    var style :- StyleUnder(data);
    var indent :- IntUnder(data, "indent", 0, NegativeIndent);
    var border :- IntUnder(data, "border", 0, NegativeBorder);
    Ok((style, indent, border))
  }

  /** The indent and border keys, when set. */
  function ScalarKeys(data: Dict<Value>): set<Key> {
    KeyIfSet(data, "indent") + KeyIfSet(data, "border")
  }

  /** The keys the reads of `hydrate` consume, and 'type'. */
  function ListReadKeys(data: Dict<Value>): set<Key> {
    {Name("type")} + KeyIfSet(data, "style") + KeyIfSet(data, "indent") + KeyIfSet(data, "border") +
    KeyIfSet(data, "elements")
  }

  /** `Element::hydrate` over the keys not read, then `validate`. */
  function ListCompleted(f: ListFields, data: Dict<Value>): (r: Result<ListFields>)
    ensures r.Ok? ==> r.value == f.(extra := r.value.extra) && ListVerdict(r.value).Pass?
    ensures r.Ok? ==> TagCheck(RichTextList, GetOr(data, Name("type"), Null)).Pass?
    ensures r.Ok? ==> AddExtras(f.extra, Without(data, ListReadKeys(data))) == Ok(r.value.extra)
  {
    var unread := Without(data, ListReadKeys(data));
    var base := HydrateOutcome(RichTextList, GetOr(data, Name("type"), Null), f.extra, unread);
    if base.Fail? then Err(base.error)
    else
      var f' := f.(extra := AddExtras(f.extra, unread).value);
      var v := ListVerdict(f');
      if v.Fail? then Err(v.error) else Ok(f')
  }

  /**
   * `hydrate` of a new list with `Element::hydrate` after the list's own
   * reads: the list that comes out is valid, styled 'bullet' or 'ordered',
   * and its sections are those of the input, in order.
   */
  function ListHydrated(data: Dict<Value>, readSection: Dict<Value> -> Result<Child>): (r: Result<ListFields>)
    ensures r.Ok? ==> ListVerdict(r.value).Pass? && Settable(r.value)
    ensures r.Ok? ==> r.value.style.Some? && ListStyle(r.value.style.value) && r.value.elements != []
    ensures r.Ok? ==> SectionsUnder(data, readSection) == Ok(r.value.elements)
  {
    var f :- ListReads(data, readSection);
    ListCompleted(f, data)
  }

  /**
   * `hydrate` as the source writes it: `Element::hydrate` first, which
   * turns every key but 'type' into an extra and validates the still empty
   * list, and only then the list's own reads.
   */
  function ListHydratedAsWritten(data: Dict<Value>, readSection: Dict<Value> -> Result<Child>): (r: Result<ListFields>)
    ensures r.Err?
  {
    var unread := Without(data, {Name("type")});
    var base := HydrateOutcome(RichTextList, GetOr(data, Name("type"), Null), [], unread);
    if base.Fail? then Err(base.error)
    else
      var f := EMPTY_LIST.(extra := AddExtras([], unread).value);
      var v := ListVerdict(f);
      if v.Fail? then Err(v.error)
      else
        match ListReads(data, readSection)
        case Err(e) => Err(e)
        case Ok(g) => Ok(g.(extra := f.extra))
  }

  /**
   * As written, `hydrate` of a new list never succeeds: past the type check
   * and the extras, `validate` finds no style.
   */
  lemma HydrateNeverSucceedsAsWritten(data: Dict<Value>, readSection: Dict<Value> -> Result<Child>)
    ensures ListHydratedAsWritten(data, readSection).Err?
    ensures HydrateOutcome(RichTextList, GetOr(data, Name("type"), Null), [], Without(data, {Name("type")})).Pass? ==>
      ListHydratedAsWritten(data, readSection) == Err(ListStyleMissing)
  {
  }

  /** `{"style": "bullet", "elements": [{"type": "rich_text_section"}]}`. */
  const BULLET_LIST: Dict<Value> := [
    Entry(Name("style"), Str("bullet")),
    Entry(Name("elements"), Arr([Entry(Idx(0), Arr([Entry(Name("type"), Str("rich_text_section"))]))]))]

  /**
   * When its one section reads as a valid section, the bullet list above
   * hydrates to a one-section bullet list, except as written.
   */
  lemma BulletListExample(readSection: Dict<Value> -> Result<Child>)
    requires readSection([Entry(Name("type"), Str("rich_text_section"))]).Ok?
    requires readSection([Entry(Name("type"), Str("rich_text_section"))]).value.valid.Pass?
    ensures ListHydrated(BULLET_LIST, readSection) ==
      Ok(ListFields([readSection([Entry(Name("type"), Str("rich_text_section"))]).value], Some("bullet"), None, None, []))
    ensures ListHydratedAsWritten(BULLET_LIST, readSection) == Err(ListStyleMissing)
  {
    var section := [Entry(Name("type"), Str("rich_text_section"))];
    var c := readSection(section).value;
    BulletListKeys();
    BulletListReads(readSection);
    assert ListReads(BULLET_LIST, readSection) == Ok(ListFields([c], Some("bullet"), None, None, []));
    assert ListReadKeys(BULLET_LIST) == {Name("type"), Name("style"), Name("elements")};
    assert Without(BULLET_LIST, ListReadKeys(BULLET_LIST)) == [];
    assert ChildrenVerdict([c]) == Pass;
  }

  /**
   * The one section reader of this library, `new RichTextSection()` then its
   * `hydrate`, starts with `Element::hydrate`, whose type check maps the
   * section's own type: no class is registered under 'rich_text_section', so
   * the check fails, whatever class does the reading.
   */
  lemma SectionTypeUnmapped(cls: Class)
    ensures TagCheck(cls, Str("rich_text_section")) == Fail(NoClassForType("rich_text_section"))
  {
    MapTypeRejectsUnknownTags("rich_text_section");
  }

  /**
   * With a section reader that refuses every array typed
   * 'rich_text_section', as this library's does, no list hydrates, even with
   * the reads in the intended order: a hydrated list holds a section, and
   * every section it holds was read from such an array.
   */
  lemma NoListWithRefusingReader(data: Dict<Value>, readSection: Dict<Value> -> Result<Child>)
    requires forall e: Dict<Value> :: GetOr(e, Name("type"), Null) == Str("rich_text_section") ==> readSection(e).Err?
    ensures ListHydrated(data, readSection).Err?
  {
    HydratedListReadASection(data, readSection);
  }

  /** A hydrated list read at least one array typed 'rich_text_section' successfully. */
  lemma HydratedListReadASection(data: Dict<Value>, readSection: Dict<Value> -> Result<Child>)
    ensures ListHydrated(data, readSection).Ok? ==>
      exists e: Dict<Value> :: GetOr(e, Name("type"), Null) == Str("rich_text_section") && readSection(e).Ok?
  {
    if ListHydrated(data, readSection).Ok? {
      var elements := ListHydrated(data, readSection).value.elements;
      assert SectionsUnder(data, readSection) == Ok(elements) && elements != [];
      SectionsAreSections(data, readSection);
      var vs := Values(GetOr(data, Name("elements"), Null).entries);
      assert SectionTyped(vs[0]) && readSection(vs[0].entries).Ok?;
    }
  }

  /** The reads of the example list. */
  lemma BulletListReads(readSection: Dict<Value> -> Result<Child>)
    requires readSection([Entry(Name("type"), Str("rich_text_section"))]).Ok?
    ensures ScalarsUnder(BULLET_LIST) == Ok((Some("bullet"), None, None))
    ensures SectionsUnder(BULLET_LIST, readSection) == Ok([readSection([Entry(Name("type"), Str("rich_text_section"))]).value])
  {
    var section := [Entry(Name("type"), Str("rich_text_section"))];
    BulletListKeys();
    assert Values([Entry(Idx(0), Arr(section))]) == [Arr(section)];
    SectionRead(readSection);
    assert GetOr(BULLET_LIST, Name("elements"), Null) == Arr([Entry(Idx(0), Arr(section))]);
  }

  /** A one-section list reads as that section. */
  lemma SectionRead(readSection: Dict<Value> -> Result<Child>)
    requires readSection([Entry(Name("type"), Str("rich_text_section"))]).Ok?
    ensures var section := [Entry(Name("type"), Str("rich_text_section"))];
      MapAll([Arr(section)], SectionReader(readSection)) == Ok([readSection(section).value])
  {
    var section := [Entry(Name("type"), Str("rich_text_section"))];
    assert IsSet(section, Name("type")) && GetOr(section, Name("type"), Null) == Str("rich_text_section");
    assert SectionReader(readSection)(Arr(section)) == readSection(section);
    assert [Arr(section)][..0] == [];
    var xs := [Arr(section)];
    var empty: seq<Child> := [];
    assert xs[0] == Arr(section) && xs[..0] == [] && xs[..1] == xs;
    MapAllStep(xs, SectionReader(readSection), 0);
    assert empty + [readSection(section).value] == [readSection(section).value];
  }

  /** The lookups of the example list. */
  lemma BulletListKeys()
    ensures Lookup(BULLET_LIST, Name("style")) == Some(Str("bullet"))
    ensures Lookup(BULLET_LIST, Name("type")) == None
    ensures Lookup(BULLET_LIST, Name("indent")) == None && Lookup(BULLET_LIST, Name("border")) == None
    ensures Lookup(BULLET_LIST, Name("elements")) == Some(BULLET_LIST[1].val)
    ensures Lookup([Entry(Name("type"), Str("rich_text_section"))], Name("type")) == Some(Str("rich_text_section"))
  {
    PayloadKeysDiffer();
    assert "style"[0] != "type"[0] && "elements"[0] != "type"[0];
  }

  // The element

  /** A rich-text list element. */
  class RichTextListElement {
    const base: ElementBase
    var elements: seq<Child>
    var style: Option<string>
    var indent: Option<int>
    var border: Option<int>

    /** A list of class RichTextList whose guarded fields hold what their setters allow. */
    ghost predicate Valid()
      reads this, base
    {
      base.cls == RichTextList && base.Valid() && Settable(Fields())
    }

    function Fields(): ListFields
      reads this, base
    {
      ListFields(elements, style, indent, border, base.extra)
    }

    /** `new RichTextList()`: nothing set. */
    constructor()
      ensures Valid() && fresh(base) && Fields() == EMPTY_LIST
    {
      base := new ElementBase(RichTextList);
      elements := [];
      style := None;
      indent := None;
      border := None;
    }

    /** `addElement`: the section goes last. */
    method AddElement(c: Child)
      requires Valid()
      modifies this
      ensures Valid() && Fields() == old(Fields()).(elements := old(elements) + [c])
    {
      elements := elements + [c];
    }

    /** `setElements`: the list is emptied, then each section is added in order. */
    method SetElements(cs: seq<Child>)
      requires Valid()
      modifies this
      ensures Valid() && Fields() == old(Fields()).(elements := cs)
    {
      elements := [];
      var i := 0;
      while i < |cs|
        invariant 0 <= i <= |cs|
        invariant Valid() && Fields() == old(Fields()).(elements := cs[..i])
      {
        AddElement(cs[i]);
        assert cs[..i + 1] == cs[..i] + [cs[i]];
        i := i + 1;
      }
      assert cs[..i] == cs;
    }

    /** `setStyle`: only 'bullet' and 'ordered' are taken; otherwise nothing changes. */
    method SetStyle(s: string) returns (r: Outcome)
      requires Valid()
      modifies this
      ensures r == StyleCheck(s)
      ensures Valid() && Fields() == if r.Pass? then old(Fields()).(style := Some(s)) else old(Fields())
    {
      r := StyleCheck(s);
      if r.Pass? {
        style := Some(s);
      }
    }

    /** `bullet`. */
    method Bullet()
      requires Valid()
      modifies this
      ensures Valid() && Fields() == old(Fields()).(style := Some("bullet"))
    {
      var r := SetStyle("bullet");
    }

    /** `ordered`. */
    method Ordered()
      requires Valid()
      modifies this
      ensures Valid() && Fields() == old(Fields()).(style := Some("ordered"))
    {
      var r := SetStyle("ordered");
    }

    /** `setIndent`: a negative indent is refused and nothing changes. */
    method SetIndent(n: int) returns (r: Outcome)
      requires Valid()
      modifies this
      ensures r == IndentCheck(n)
      ensures Valid() && Fields() == if r.Pass? then old(Fields()).(indent := Some(n)) else old(Fields())
    {
      r := IndentCheck(n);
      if r.Pass? {
        indent := Some(n);
      }
    }

    /** `setBorder`: a negative border is refused and nothing changes. */
    method SetBorder(n: int) returns (r: Outcome)
      requires Valid()
      modifies this
      ensures r == BorderCheck(n)
      ensures Valid() && Fields() == if r.Pass? then old(Fields()).(border := Some(n)) else old(Fields())
    {
      r := BorderCheck(n);
      if r.Pass? {
        border := Some(n);
      }
    }

    /** `validate`. */
    method Validate() returns (r: Outcome)
      requires Valid()
      ensures r == ListVerdict(Fields())
    {
      if style.None? {
        return Fail(ListStyleMissing);
      }
      if elements == [] {
        return Fail(ListElementsMissing);
      }
      r := ValidateChildren(elements);
    }

    /** `toArray`. */
    function ToArray(): (r: Result<Dict<Value>>)
      reads this, base
      ensures r == ListArray(Fields())
    {
      ListArray(Fields())
    }

    /**
     * `hydrate` of a new list, with the list's own reads before
     * `Element::hydrate`.
     */
    method Hydrate(h: HydrationData, readSection: Dict<Value> -> Result<Child>) returns (r: Outcome)
      requires Valid() && h.consumed == {} && Fields() == EMPTY_LIST
      modifies this, base, h
      ensures Valid()
      ensures r.Fail? ==> ListHydrated(h.data, readSection) == Err(r.error)
      ensures r.Pass? ==> ListHydrated(h.data, readSection) == Ok(Fields())
    {
      r := HydrateReads(h, readSection);
      if r.Fail? {
        return;
      }
      r := HydrateFinish(h);
    }

    /** Style, indent, border and sections, each through its setter. */
    method HydrateReads(h: HydrationData, readSection: Dict<Value> -> Result<Child>) returns (r: Outcome)
      requires Valid() && h.consumed == {} && Fields() == EMPTY_LIST
      modifies this, h
      ensures Valid() && base.extra == []
      ensures r.Fail? ==> ListReads(h.data, readSection) == Err(r.error)
      ensures r.Pass? ==> ListReads(h.data, readSection) == Ok(Fields())
      ensures r.Pass? ==> h.consumed == ListReadKeys(h.data) - {Name("type")}
    {
      r := HydrateScalars(h);
      if r.Fail? {
        return;
      }
      ghost var scalars := (style, indent, border);
      assert ScalarsUnder(h.data) == Ok(scalars);
      r := HydrateSections(h, readSection);
      if r.Pass? {
        assert h.consumed == ListReadKeys(h.data) - {Name("type")};
      }
    }

    /** Style, indent and border, each through its setter. */
    method HydrateScalars(h: HydrationData) returns (r: Outcome)
      requires Valid() && style.None? && indent.None? && border.None?
      modifies this, h
      ensures Valid() && Fields() == old(Fields()).(style := style, indent := indent, border := border)
      ensures r.Fail? ==> ScalarsUnder(h.data) == Err(r.error)
      ensures r.Pass? ==> ScalarsUnder(h.data) == Ok((style, indent, border))
      ensures r.Pass? ==> h.consumed == old(h.consumed) + KeyIfSet(h.data, "style") + ScalarKeys(h.data)
    {
      var s := HydrateStyle(h);
      if s.Err? {
        return Fail(s.error);
      }
      assert StyleUnder(h.data) == Ok(style);
      r := HydrateIndent(h);
      if r.Fail? {
        return;
      }
      r := HydrateBorder(h);
    }

    /** The style read, through `setStyle`. */
    method HydrateStyle(h: HydrationData) returns (r: Result<Option<string>>)
      requires Valid() && style.None?
      modifies this, h
      ensures r == StyleUnder(h.data)
      ensures Valid() && Fields() == old(Fields()).(style := if r.Ok? then r.value else None)
      ensures h.consumed == old(h.consumed) + KeyIfSet(h.data, "style")
    {
      var s := UseString(h, "style");
      if s.Err? {
        return Err(s.error);
      }
      if s.value.None? {
        return Ok(None);
      }
      var checked := SetStyle(s.value.value);
      if checked.Fail? {
        return Err(checked.error);
      }
      return Ok(s.value);
    }

    /** The indent read, through `setIndent`. */
    method HydrateIndent(h: HydrationData) returns (r: Outcome)
      requires Valid() && indent.None?
      modifies this, h
      ensures Valid() && Fields() == old(Fields()).(indent := indent)
      ensures r.Fail? ==> IntUnder(h.data, "indent", 0, NegativeIndent) == Err(r.error)
      ensures r.Pass? ==> IntUnder(h.data, "indent", 0, NegativeIndent) == Ok(indent)
      ensures h.consumed == old(h.consumed) + KeyIfSet(h.data, "indent")
    {
      r := Pass;
      if h.Has("indent") {
        var v := h.UseValue("indent", Null);
        if !v.Int? {
          return Fail(TypeError);
        }
        r := SetIndent(v.i);
      }
    }

    /** The border read, through `setBorder`. */
    method HydrateBorder(h: HydrationData) returns (r: Outcome)
      requires Valid() && border.None?
      modifies this, h
      ensures Valid() && Fields() == old(Fields()).(border := border)
      ensures r.Fail? ==> IntUnder(h.data, "border", 0, NegativeBorder) == Err(r.error)
      ensures r.Pass? ==> IntUnder(h.data, "border", 0, NegativeBorder) == Ok(border)
      ensures h.consumed == old(h.consumed) + KeyIfSet(h.data, "border")
    {
      r := Pass;
      if h.Has("border") {
        var v := h.UseValue("border", Null);
        if !v.Int? {
          return Fail(TypeError);
        }
        r := SetBorder(v.i);
      }
    }

    /** The 'elements' read: each value checked, read and added in order. */
    method HydrateSections(h: HydrationData, readSection: Dict<Value> -> Result<Child>) returns (r: Outcome)
      requires Valid() && elements == []
      modifies this, h
      ensures Valid() && Fields() == old(Fields()).(elements := elements)
      ensures r.Fail? ==> SectionsUnder(h.data, readSection) == Err(r.error)
      ensures r.Pass? ==> SectionsUnder(h.data, readSection) == Ok(elements)
      ensures h.consumed == old(h.consumed) + KeyIfSet(h.data, "elements")
    {
      if !h.Has("elements") {
        return Pass;
      }
      var list := h.UseArray(Some("elements"));
      if list.Err? {
        return Fail(list.error);
      }
      var vs := Values(list.value);
      var reader := SectionReader(readSection);
      var i := 0;
      while i < |vs|
        invariant 0 <= i <= |vs|
        invariant Valid() && Fields() == old(Fields()).(elements := elements)
        invariant h.consumed == old(h.consumed) + {Name("elements")}
        invariant MapAll(vs[..i], reader) == Ok(elements)
      {
        MapAllStep(vs, reader, i);
        var c := SectionUnder(vs[i], readSection);
        if c.Err? {
          MapAllStops(vs, reader, i + 1);
          return Fail(c.error);
        }
        AddElement(c.value);
        i := i + 1;
      }
      assert vs[..i] == vs;
      r := Pass;
    }

    /** `Element::hydrate` and `validate`, once the list's own reads succeeded. */
    method HydrateFinish(h: HydrationData) returns (r: Outcome)
      requires Valid() && base.extra == [] && h.consumed == ListReadKeys(h.data) - {Name("type")}
      modifies base, h
      ensures Valid()
      ensures r.Fail? ==> ListCompleted(old(Fields()), h.data) == Err(r.error)
      ensures r.Pass? ==> ListCompleted(old(Fields()), h.data) == Ok(Fields())
    {
      var outcome := base.Hydrate(h);
      assert h.consumed == ListReadKeys(h.data);
      if outcome.Fail? {
        return outcome;
      }
      r := Validate();
    }
  }

  /** `RichTextList::fromArray`: resolve the class (only RichTextList fits), then hydrate. */
  function ListFromData(data: Dict<Value>, readSection: Dict<Value> -> Result<Child>): (r: Result<ListFields>)
    ensures ResolveClass(RichTextList, data).Err? ==> r == Err(ResolveClass(RichTextList, data).error)
    ensures ResolveClass(RichTextList, data).Ok? ==> r == ListHydrated(data, readSection)
  {
    var c :- ResolveClass(RichTextList, data);
    ListHydrated(data, readSection)
  }

  /** `RichTextList::fromArray`, with `hydrate` reading before `Element::hydrate`. */
  method FromArray(data: Dict<Value>, readSection: Dict<Value> -> Result<Child>) returns (r: Result<RichTextListElement>)
    ensures r.Err? ==> ListFromData(data, readSection) == Err(r.error)
    ensures r.Ok? ==> ListFromData(data, readSection) == Ok(r.value.Fields()) && r.value.Valid()
  {
    var c := ResolveClass(RichTextList, data);
    if c.Err? {
      return Err(c.error);
    }
    var list := new RichTextListElement();
    var h := new HydrationData(data);
    var outcome := list.Hydrate(h, readSection);
    if outcome.Fail? {
      return Err(outcome.error);
    }
    return Ok(list);
  }
}
