/**
 * The styled text run of rich text
 * (src/Partials/RichTextElements/TextElements/Text.php): its text, its
 * style map of boolean flags, `setStyle` and the four flag setters,
 * `validate` and `toArray`.
 *
 * Like the rich-text list, the class has no entry in the type map, so
 * `Element::toArray` ends in 'No type for class' once `validate` passes;
 * what `toArray` writes after it is stated as a function of the array it
 * would have been given.
 */
module RichTextTexts {
  import opened Classes
  import opened Outcomes
  import opened Wire
  import opened Types
  import opened Elements

  /** A style map: the keys and values as given, in order. */
  type Style = Dict<Value>

  /** A text run's state as a value. */
  datatype RunFields = RunFields(text: Option<string>, style: Option<Style>, extra: Extras)

  /** The keys a style may have. */
  predicate StyleKey(k: Key) {
    k == Name("bold") || k == Name("italic") || k == Name("strike") || k == Name("code")
  }

  /** One entry of the style check: the key must be a style key, then the value a boolean. */
  function EntryCheck(e: Entry<Value>): (r: Outcome)
    ensures r.Pass? <==> StyleKey(e.key) && e.val.Bool?
    ensures !StyleKey(e.key) ==> r == Fail(InvalidStyleKey(KeyText(e.key)))
    ensures StyleKey(e.key) && !e.val.Bool? ==> r == Fail(StyleNotBoolean(KeyText(e.key)))
  {
    if !StyleKey(e.key) then Fail(InvalidStyleKey(KeyText(e.key)))
    else if !e.val.Bool? then Fail(StyleNotBoolean(KeyText(e.key)))
    else Pass
  }

  /** A style whose every key is a style key holding a boolean. */
  predicate WellStyled(s: Style) {
    forall i :: 0 <= i < |s| ==> StyleKey(s[i].key) && s[i].val.Bool?
  }

  /**
   * The `foreach` of `setStyle` and of `validate`: the first entry that
   * fails, if any.
   */
  function StyleVerdict(s: Style): (r: Outcome)
    ensures r.Pass? <==> WellStyled(s)
    ensures r.Fail? ==> exists i :: 0 <= i < |s| && EntryCheck(s[i]) == r && forall j :: 0 <= j < i ==> EntryCheck(s[j]).Pass?
  {
    if s == [] then Pass
    else if EntryCheck(s[0]).Fail? then EntryCheck(s[0])
    else
      var r := StyleVerdict(s[1..]);
      assert forall i :: 1 <= i < |s| ==> s[i] == s[1..][i - 1];
      if r.Fail? then
        var i :| 0 <= i < |s[1..]| && EntryCheck(s[1..][i]) == r && forall j :: 0 <= j < i ==> EntryCheck(s[1..][j]).Pass?;
        assert EntryCheck(s[i + 1]) == r;
        r
      else r
  }

  /** The loop that checks a style, entry by entry. */
  method CheckStyle(s: Style) returns (r: Outcome)
    ensures r == StyleVerdict(s)
  {
    var i := 0;
    while i < |s|
      invariant 0 <= i <= |s|
      invariant StyleVerdict(s) == StyleVerdict(s[i..])
    {
      var e := EntryCheck(s[i]);
      if e.Fail? {
        return e;
      }
      assert s[i..][1..] == s[i + 1..];
      i := i + 1;
    }
    return Pass;
  }

  /**
   * Setting one flag keeps a well-formed style well-formed: the flag
   * setters never produce what `setStyle` would refuse.
   */
  lemma {:induction false} FlagKeepsWellStyled(s: Style, k: Key, b: bool)
    requires WellStyled(s) && StyleKey(k)
    ensures WellStyled(Put(s, k, Bool(b)))
    decreases |s|
  {
    if s != [] && s[0].key != k {
      assert WellStyled(s[1..]) by {
        assert forall i :: 0 <= i < |s[1..]| ==> s[1..][i] == s[i + 1];
      }
      FlagKeepsWellStyled(s[1..], k, b);
      var r := [s[0]] + Put(s[1..], k, Bool(b));
      assert forall i :: 1 <= i < |r| ==> r[i] == Put(s[1..], k, Bool(b))[i - 1];
    }
  }

  /** `validate`: a text that is neither unset nor empty, and a style that passes the check. */
  function RunVerdict(f: RunFields): (r: Outcome)
    ensures r.Pass? <==> f.text.Some? && f.text.value != "" && (f.style.Some? ==> WellStyled(f.style.value))
    ensures f.text.None? || f.text.value == "" ==> r == Fail(RichTextEmpty)
    ensures f.text.Some? && f.text.value != "" && f.style.Some? ==> r == StyleVerdict(f.style.value)
  {
    if f.text.None? || f.text.value == "" then Fail(RichTextEmpty)
    else if f.style.Some? then StyleVerdict(f.style.value)
    else Pass
  }

  /** The style `??=` starts from: the current one, or an empty map. */
  function StyleOrEmpty(s: Option<Style>): Style {
    if s.Some? then s.value else []
  }

  /** The style after a flag setter: key k holds b, every other key is as before. */
  function Flagged(s: Option<Style>, k: Key, b: bool): (r: Style)
    ensures Lookup(r, k) == Some(Bool(b))
    ensures forall k' :: k' != k ==> Lookup(r, k') == Lookup(StyleOrEmpty(s), k')
  {
    PutLookupAll(StyleOrEmpty(s), k, Bool(b));
    Put(StyleOrEmpty(s), k, Bool(b))
  }

  // Output

  /** The text as written: `$data['text'] = $this->text`, null when unset. */
  function TextValue(t: Option<string>): Value {
    if t.Some? then Str(t.value) else Null
  }

  /**
   * What `TextElement::toArray` and then `Text::toArray` write over the
   * array `Element::toArray` returns: the type 'text', the text, then the
   * style when it is set and not empty.
   */
  function RunPayload(base: Dict<Value>, f: RunFields): (r: Dict<Value>) {
    var texted := Put(Put(base, Name("type"), Str("text")), Name("text"), TextValue(f.text));
    var styled := f.style.Some? && f.style.value != [];
    PutIf(texted, styled, "style", if styled then Arr(f.style.value) else Null)
  }

  /**
   * `toArray` as the code stands: validation decides first, and a valid
   * run then fails in `Element::getType`, since its class has no tag.
   */
  function RunArray(f: RunFields): (r: Result<Dict<Value>>)
    ensures RunVerdict(f).Fail? ==> r == Err(RunVerdict(f).error)
    ensures RunVerdict(f).Pass? ==> r == Err(NoTypeForClass(RichTextText))
  {
    assert !Registered(RichTextText);
    match BaseArray(RichTextText, RunVerdict(f), f.extra)
    case Err(e) => Err(e)
    case Ok(base) => Ok(RunPayload(base, f))
  }

  /**
   * Over an array without a style, the payload carries 'style' exactly when
   * the style is set and not empty, and then holds it; it always carries
   * the text.
   */
  lemma PayloadStyle(base: Dict<Value>, f: RunFields)
    requires !HasKey(base, Name("style"))
    ensures HasKey(RunPayload(base, f), Name("style")) <==> f.style.Some? && f.style.value != []
    ensures f.style.Some? && f.style.value != [] ==> Lookup(RunPayload(base, f), Name("style")) == Some(Arr(f.style.value))
    ensures Lookup(RunPayload(base, f), Name("text")) == Some(TextValue(f.text))
  {
    var typed := Put(base, Name("type"), Str("text"));
    var texted := Put(typed, Name("text"), TextValue(f.text));
    var styled := f.style.Some? && f.style.value != [];
    RunKeysDiffer();
    PutHasKey(base, Name("type"), Str("text"), Name("style"));
    PutHasKey(typed, Name("text"), TextValue(f.text), Name("style"));
    PutLookup(typed, Name("text"), TextValue(f.text), Name("text"));
    PutIfLookup(texted, styled, "style", if styled then Arr(f.style.value) else Null, Name("style"));
    PutIfLookup(texted, styled, "style", if styled then Arr(f.style.value) else Null, Name("text"));
  }

  /** The keys the payload writes are distinct. */
  lemma RunKeysDiffer()
    ensures Name("style") != Name("type") && Name("style") != Name("text")
  {
    assert "style"[0] != "type"[0] && "style"[0] != "text"[0];
  }

  // The element

  /** A rich-text text run. */
  class RichTextRun {
    const base: ElementBase
    var text: Option<string>
    var style: Option<Style>

    /** A run of class RichTextText whose style, when set, is one `setStyle` would accept. */
    ghost predicate Valid()
      reads this, base
    {
      base.cls == RichTextText && base.Valid() && (style.Some? ==> WellStyled(style.value))
    }

    function Fields(): RunFields
      reads this, base
    {
      RunFields(text, style, base.extra)
    }

    /** `new Text()`: no text and no style. */
    constructor()
      ensures Valid() && fresh(base) && Fields() == RunFields(None, None, [])
    {
      base := new ElementBase(RichTextText);
      text := None;
      style := None;
    }

    /** `text`. */
    method Text(t: string)
      requires Valid()
      modifies this
      ensures Valid() && Fields() == old(Fields()).(text := Some(t))
    {
      text := Some(t);
    }

    /** `setStyle`: the style replaces the old one only when every entry passes the check. */
    method SetStyle(s: Style) returns (r: Outcome)
      requires Valid()
      modifies this
      ensures r == StyleVerdict(s)
      ensures Valid() && Fields() == if r.Pass? then old(Fields()).(style := Some(s)) else old(Fields())
    {
      r := CheckStyle(s);
      if r.Pass? {
        style := Some(s);
      }
    }

    /** The shared body of the flag setters: `$this->style ??= []; $this->style[$k] = $flag`. */
    method SetFlag(k: Key, flag: bool)
      requires Valid() && StyleKey(k)
      modifies this
      ensures Valid() && Fields() == old(Fields()).(style := Some(Flagged(old(style), k, flag)))
    {
      FlagKeepsWellStyled(StyleOrEmpty(style), k, flag);
      style := Some(Flagged(style, k, flag));
    }

    /** `bold`. */
    method Bold(flag: bool)
      requires Valid()
      modifies this
      ensures Valid() && Fields() == old(Fields()).(style := Some(Flagged(old(style), Name("bold"), flag)))
    {
      SetFlag(Name("bold"), flag);
    }

    /** `italic`. */
    method Italic(flag: bool)
      requires Valid()
      modifies this
      ensures Valid() && Fields() == old(Fields()).(style := Some(Flagged(old(style), Name("italic"), flag)))
    {
      SetFlag(Name("italic"), flag);
    }

    /** `strike`. */
    method Strike(flag: bool)
      requires Valid()
      modifies this
      ensures Valid() && Fields() == old(Fields()).(style := Some(Flagged(old(style), Name("strike"), flag)))
    {
      SetFlag(Name("strike"), flag);
    }

    /** `code`. */
    method Code(flag: bool)
      requires Valid()
      modifies this
      ensures Valid() && Fields() == old(Fields()).(style := Some(Flagged(old(style), Name("code"), flag)))
    {
      SetFlag(Name("code"), flag);
    }

    /** `validate`. */
    method Validate() returns (r: Outcome)
      requires Valid()
      ensures r == RunVerdict(Fields())
    {
      if text.None? || text.value == "" {
        return Fail(RichTextEmpty);
      }
      if style.Some? {
        r := CheckStyle(style.value);
        return;
      }
      return Pass;
    }

    /** `toArray`. */
    function ToArray(): (r: Result<Dict<Value>>)
      reads this, base
      ensures r == RunArray(Fields())
    {
      RunArray(Fields())
    }
  }
}
