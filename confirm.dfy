/**
 * The confirmation dialog composition object (src/Partials/Confirm.php): a
 * plain-text title, a text of either format, and plain-text labels for the
 * confirm and deny buttons, which default to "OK" and "Cancel".
 *
 * The texts are values; the dialog is an object whose setters replace them.
 * The configured emoji and verbatim defaults of new texts are parameters.
 */
module Confirms {
  import opened Classes
  import opened Outcomes
  import opened Wire
  import opened Hydration
  import opened Types
  import opened Elements
  import opened Texts

  /** The dialog's state: its four texts and its extras. */
  datatype ConfirmFields = ConfirmFields(
    title: Option<TextObject>,
    text: Option<TextObject>,
    confirm: Option<TextObject>,
    deny: Option<TextObject>,
    extra: Extras)
  {
    /** The rules `validate` enforces: all four texts present and none empty. */
    predicate Acceptable() {
      && title.Some? && title.value.text.Some? && title.value.text.value != ""
      && text.Some? && text.value.text.Some? && text.value.text.value != ""
      && confirm.Some? && confirm.value.text.Some? && confirm.value.text.value != ""
      && deny.Some? && deny.value.text.Some? && deny.value.text.value != ""
    }

    /** `validate`: presence of title, text, confirm and deny in that order, then each text's own check. */
    function Validate(): (r: Outcome)
      ensures title.None? ==> r == Fail(ConfirmTitleMissing)
      ensures title.Some? && text.None? ==> r == Fail(ConfirmTextMissing)
      ensures title.Some? && text.Some? && confirm.None? ==> r == Fail(ConfirmConfirmMissing)
      ensures title.Some? && text.Some? && confirm.Some? && deny.None? ==> r == Fail(ConfirmDenyMissing)
      ensures r.Pass? <==> Acceptable()
    {
      if title.None? then Fail(ConfirmTitleMissing)
      else if text.None? then Fail(ConfirmTextMissing)
      else if confirm.None? then Fail(ConfirmConfirmMissing)
      else if deny.None? then Fail(ConfirmDenyMissing)
      else if title.value.Validate().Fail? then title.value.Validate()
      else if text.value.Validate().Fail? then text.value.Validate()
      else if confirm.value.Validate().Fail? then confirm.value.Validate()
      else deny.value.Validate()
    }

    /** `toArray`: the base output (no type: confirm is a hidden type) + the four serialised texts. */
    function ToArray(): (r: Result<Dict<Value>>)
      ensures Validate().Fail? ==> r == Err(Validate().error)
      ensures r.Ok? ==> Acceptable()
    {
      var base :- BaseArray(Classes.Confirm, Validate(), extra);
      var t :- title.value.ToArray();
      var x :- text.value.ToArray();
      var c :- confirm.value.ToArray();
      var d :- deny.value.ToArray();
      Ok(Union(base, Entries(t, x, c, d)))
    }
  }

  /** The four entries a dialog writes, given its serialised texts. */
  function Entries(title: Dict<Value>, text: Dict<Value>, confirm: Dict<Value>, deny: Dict<Value>): Dict<Value> {
    [Entry(Name("title"), Arr(title)), Entry(Name("text"), Arr(text)),
     Entry(Name("confirm"), Arr(confirm)), Entry(Name("deny"), Arr(deny))]
  }

  /**
   * `new Confirm($title, $text, $confirm, $deny)`: an empty or missing title
   * or text is left unset; the button labels fall back to "OK" and "Cancel".
   */
  function NewFields(title: Option<string>, text: Option<string>, confirm: Option<string>, deny: Option<string>,
                     defaultEmoji: Option<bool>, defaultVerbatim: Option<bool>): (f: ConfirmFields)
    ensures f.title.Some? <==> title.Some? && title.value != ""
    ensures f.text.Some? <==> text.Some? && text.value != ""
    ensures f.title.Some? ==> f.title.value == NewPlain(title, None, defaultEmoji)
    ensures f.text.Some? ==> f.text.value == NewMrkdwn(text, None, defaultVerbatim)
    ensures f.confirm == Some(NewPlain(Some(if confirm.Some? then confirm.value else "OK"), None, defaultEmoji))
    ensures f.deny == Some(NewPlain(Some(if deny.Some? then deny.value else "Cancel"), None, defaultEmoji))
    ensures f.extra == []
  {
    ConfirmFields(
      if title.Some? && title.value != "" then Some(NewPlain(title, None, defaultEmoji)) else None,
      if text.Some? && text.value != "" then Some(NewMrkdwn(text, None, defaultVerbatim)) else None,
      Some(NewPlain(Some(if confirm.Some? then confirm.value else "OK"), None, defaultEmoji)),
      Some(NewPlain(Some(if deny.Some? then deny.value else "Cancel"), None, defaultEmoji)),
      [])
  }

  /** A dialog built with a non-empty title and text and default buttons passes validation. */
  lemma NewDialogIsValid(title: string, text: string, defaultEmoji: Option<bool>, defaultVerbatim: Option<bool>)
    requires title != "" && text != ""
    ensures NewFields(Some(title), Some(text), None, None, defaultEmoji, defaultVerbatim).Validate() == Pass
  {
  }

  /** A text read from the data when there is one, else the one held. */
  function OrElse(read: Option<TextObject>, held: Option<TextObject>): (r: Option<TextObject>)
    ensures read.Some? ==> r == read
    ensures read.None? ==> r == held
  {
    if read.Some? then read else held
  }

  /** The keys `hydrate` reads: each of the four texts that is set, and 'type'. */
  function ReadKeys(data: Dict<Value>): set<Key> {
    FieldKeys(data) + {Name("type")}
  }

  function FieldKeys(data: Dict<Value>): set<Key> {
    KeyIfSet(data, "title") + KeyIfSet(data, "text") + KeyIfSet(data, "confirm") + KeyIfSet(data, "deny")
  }

  /**
   * The four texts `hydrate` reads, each only when set and otherwise kept
   * from init: the title and the buttons as plain text, the text as either
   * format, chosen by its type tag.
   */
  function ReadFields(data: Dict<Value>, init: ConfirmFields): (r: Result<ConfirmFields>)
    ensures r.Ok? ==> r.value.extra == init.extra
  {
    var title :- TextUnder(data, "title", PlainText);
    var text :- TextUnder(data, "text", Classes.Text);
    var confirm :- TextUnder(data, "confirm", PlainText);
    var deny :- TextUnder(data, "deny", PlainText);
    Ok(ConfirmFields(OrElse(title, init.title), OrElse(text, init.text),
                     OrElse(confirm, init.confirm), OrElse(deny, init.deny), init.extra))
  }

  /** The base hydration over the keys not read, then `validate`. */
  function Completed(f: ConfirmFields, data: Dict<Value>): (r: Result<ConfirmFields>)
    ensures r.Ok? ==> r.value == f.(extra := r.value.extra) && r.value.Acceptable()
    ensures r.Ok? ==> AddExtras(f.extra, Without(data, ReadKeys(data))) == Ok(r.value.extra)
  {
    var unread := Without(data, ReadKeys(data));
    var base := HydrateOutcome(Classes.Confirm, GetOr(data, Name("type"), Null), f.extra, unread);
    if base.Fail? then Err(base.error)
    else
      var f' := f.(extra := AddExtras(f.extra, unread).value);
      if f'.Validate().Fail? then Err(f'.Validate().error) else Ok(f')
  }

  /** `hydrate` of a dialog holding init: the texts read over the held ones, then the base hydration. */
  function Rehydrated(data: Dict<Value>, init: ConfirmFields): (r: Result<ConfirmFields>)
    ensures r.Ok? ==> r.value.Acceptable()
  {
    var f :- ReadFields(data, init);
    Completed(f, data)
  }

  /**
   * `hydrate` of a dialog fresh from `new Confirm()`: the buttons keep
   * "OK" and "Cancel" unless the data replaces them.
   */
  function Hydrated(data: Dict<Value>, defaultEmoji: Option<bool>, defaultVerbatim: Option<bool>): (r: Result<ConfirmFields>)
    ensures r.Ok? ==> r.value.Acceptable()
    ensures r.Ok? && !IsSet(data, Name("confirm")) ==> r.value.confirm.Some? && r.value.confirm.value.text == Some("OK")
    ensures r.Ok? && !IsSet(data, Name("deny")) ==> r.value.deny.Some? && r.value.deny.value.text == Some("Cancel")
    ensures r.Ok? ==> TextUnder(data, "title", PlainText) == Ok(r.value.title)
  {
    Rehydrated(data, NewFields(None, None, None, None, defaultEmoji, defaultVerbatim))
  }

  /** `Confirm::fromArray`: resolve the class (only Confirm itself fits), then hydrate. */
  function FromData(data: Dict<Value>, defaultEmoji: Option<bool>, defaultVerbatim: Option<bool>): (r: Result<ConfirmFields>)
    ensures ResolveClass(Classes.Confirm, data).Err? ==> r == Err(ResolveClass(Classes.Confirm, data).error)
    ensures ResolveClass(Classes.Confirm, data).Ok? ==> r == Hydrated(data, defaultEmoji, defaultVerbatim)
  {
    var c :- ResolveClass(Classes.Confirm, data);
    Hydrated(data, defaultEmoji, defaultVerbatim)
  }

  /**
   * The texts as `title()`, `text()`, `confirm()` and `deny()` make them:
   * no extras, and plain text everywhere except the body text.
   */
  predicate PlainParts(f: ConfirmFields) {
    && f.title.Some? && f.title.value.format == PlainFormat && f.title.value.extra == []
    && f.text.Some? && f.text.value.extra == []
    && f.confirm.Some? && f.confirm.value.format == PlainFormat && f.confirm.value.extra == []
    && f.deny.Some? && f.deny.value.format == PlainFormat && f.deny.value.extra == []
  }

  /** The output of a dialog with plain parts and no extras: exactly its four texts, in order. */
  function OwnEntries(f: ConfirmFields): Dict<Value>
    requires f.Acceptable() && PlainParts(f)
  {
    Entries(Serialised(f.title.value), Serialised(f.text.value), Serialised(f.confirm.value), Serialised(f.deny.value))
  }

  /** The four keys are distinct, and each holds its text. */
  lemma EntriesLookup(title: Dict<Value>, text: Dict<Value>, confirm: Dict<Value>, deny: Dict<Value>)
    ensures Distinct(Entries(title, text, confirm, deny))
    ensures Lookup(Entries(title, text, confirm, deny), Name("title")) == Some(Arr(title))
    ensures Lookup(Entries(title, text, confirm, deny), Name("text")) == Some(Arr(text))
    ensures Lookup(Entries(title, text, confirm, deny), Name("confirm")) == Some(Arr(confirm))
    ensures Lookup(Entries(title, text, confirm, deny), Name("deny")) == Some(Arr(deny))
    ensures forall i :: 0 <= i < |Entries(title, text, confirm, deny)| ==>
      Entries(title, text, confirm, deny)[i].key in OWN_KEYS
  {
    var d := Entries(title, text, confirm, deny);
    assert Keys(d[3..]) == [Name("deny")];
    assert Keys(d[2..]) == [Name("confirm"), Name("deny")];
    assert Keys(d[1..]) == [Name("text"), Name("confirm"), Name("deny")];
    assert Distinct(d[3..]);
    assert Distinct(d[2..]);
    assert Distinct(d[1..]);
  }

  /** A valid dialog writes no 'type' (confirm is a hidden type) and no extras. */
  lemma BaseIsEmpty(f: ConfirmFields)
    requires f.Acceptable() && f.extra == []
    ensures BaseArray(Classes.Confirm, f.Validate(), f.extra) == Ok([])
  {
    assert MapClass(Classes.Confirm) == Ok(CONFIRM) && Hidden(CONFIRM);
  }

  /** A valid dialog writes exactly its four texts, in order. */
  lemma SerialisesToOwnEntries(f: ConfirmFields)
    requires f.Acceptable() && f.extra == [] && PlainParts(f)
    ensures f.ToArray() == Ok(OwnEntries(f))
  {
    BaseIsEmpty(f);
    ToArrayShape(f.title.value);
    ToArrayShape(f.text.value);
    ToArrayShape(f.confirm.value);
    ToArrayShape(f.deny.value);
    assert f.ToArray() == Ok(Union([], OwnEntries(f)));
    EntriesLookup(Serialised(f.title.value), Serialised(f.text.value), Serialised(f.confirm.value), Serialised(f.deny.value));
    UnionFresh([], OwnEntries(f));
  }

  /** Hydrating a dialog's output gives the dialog back. */
  lemma RoundTrip(f: ConfirmFields, defaultEmoji: Option<bool>, defaultVerbatim: Option<bool>)
    requires f.Acceptable() && f.extra == [] && PlainParts(f)
    ensures f.ToArray().Ok?
    ensures FromData(f.ToArray().value, defaultEmoji, defaultVerbatim) == Ok(f)
  {
    SerialisesToOwnEntries(f);
    var d := OwnEntries(f);
    OwnEntriesRead(f, NewFields(None, None, None, None, defaultEmoji, defaultVerbatim));
    NothingUnread(f);
    CompletesUnchanged(f, d);
    assert ResolveClass(Classes.Confirm, d) == Ok(Classes.Confirm);
  }

  /** With no 'type' and nothing unread, the base hydration keeps a valid dialog as it is. */
  lemma CompletesUnchanged(f: ConfirmFields, d: Dict<Value>)
    requires f.Acceptable() && f.extra == []
    requires !IsSet(d, Name("type")) && Without(d, ReadKeys(d)) == []
    ensures Completed(f, d) == Ok(f)
  {
    assert GetOr(d, Name("type"), Null) == Null;
    assert AddExtras([], []) == Ok([]);
  }

  /** A dialog's output has no 'type', and hydrate reads every key of it. */
  lemma NothingUnread(f: ConfirmFields)
    requires f.Acceptable() && PlainParts(f)
    ensures !IsSet(OwnEntries(f), Name("type"))
    ensures Without(OwnEntries(f), ReadKeys(OwnEntries(f))) == []
  {
    var t, x, c, n := Serialised(f.title.value), Serialised(f.text.value), Serialised(f.confirm.value), Serialised(f.deny.value);
    EntriesLookup(t, x, c, n);
    EntriesUnread(Entries(t, x, c, n));
  }

  /** Data holding the four texts and nothing else is read entirely. */
  lemma {:induction false} EntriesUnread(d: Dict<Value>)
    requires forall i :: 0 <= i < |d| ==> d[i].key in OWN_KEYS
    requires IsSet(d, Name("title")) && IsSet(d, Name("text")) && IsSet(d, Name("confirm")) && IsSet(d, Name("deny"))
    ensures !IsSet(d, Name("type"))
    ensures Without(d, ReadKeys(d)) == []
  {
    NoTypeKey(d);
    OwnKeysRead(d);
    var read := ReadKeys(d);
    assert forall i :: 0 <= i < |d| ==> d[i].key in read;
    WithoutAll(d, read);
  }

  /** A dialog's own keys do not include 'type'. */
  lemma {:induction false} NoTypeKey(d: Dict<Value>)
    requires forall i :: 0 <= i < |d| ==> d[i].key in OWN_KEYS
    ensures !IsSet(d, Name("type"))
  {
    assert "type"[1] != "text"[1] && "type"[0] != "deny"[0];
    AbsentKey(d, Name("type"), OWN_KEYS);
  }

  const OWN_KEYS: set<Key> := {Name("title"), Name("text"), Name("confirm"), Name("deny")}

  /** With all four texts set, hydrate reads each of their keys. */
  lemma OwnKeysRead(d: Dict<Value>)
    requires IsSet(d, Name("title")) && IsSet(d, Name("text")) && IsSet(d, Name("confirm")) && IsSet(d, Name("deny"))
    ensures OWN_KEYS <= ReadKeys(d)
  {
    assert KeyIfSet(d, "title") == {Name("title")};
    assert KeyIfSet(d, "text") == {Name("text")};
    assert KeyIfSet(d, "confirm") == {Name("confirm")};
    assert KeyIfSet(d, "deny") == {Name("deny")};
  }

  /** Each of the four texts reads back from a dialog's output, whatever the dialog held before. */
  lemma OwnEntriesRead(f: ConfirmFields, init: ConfirmFields)
    requires f.Acceptable() && f.extra == [] && init.extra == [] && PlainParts(f)
    ensures ReadFields(OwnEntries(f), init) == Ok(f)
  {
    var t, x, c, n := Serialised(f.title.value), Serialised(f.text.value), Serialised(f.confirm.value), Serialised(f.deny.value);
    EntriesLookup(t, x, c, n);
    var d := Entries(t, x, c, n);
    TextUnderReadsBack(f.title.value, d, "title", PlainText);
    TextUnderReadsBack(f.text.value, d, "text", Classes.Text);
    TextUnderReadsBack(f.confirm.value, d, "confirm", PlainText);
    TextUnderReadsBack(f.deny.value, d, "deny", PlainText);
    ReadsFrom(d, f, init);
  }

  /** When each text reads as the dialog's, the dialog is what is read. */
  lemma ReadsFrom(d: Dict<Value>, f: ConfirmFields, init: ConfirmFields)
    requires f.extra == init.extra
    requires TextUnder(d, "title", PlainText) == Ok(f.title) && f.title.Some?
    requires TextUnder(d, "text", Classes.Text) == Ok(f.text) && f.text.Some?
    requires TextUnder(d, "confirm", PlainText) == Ok(f.confirm) && f.confirm.Some?
    requires TextUnder(d, "deny", PlainText) == Ok(f.deny) && f.deny.Some?
    ensures ReadFields(d, init) == Ok(f)
  {
  }

  class ConfirmDialog {
    var title: Option<TextObject>
    var text: Option<TextObject>
    var confirm: Option<TextObject>
    var deny: Option<TextObject>
    var parent: Option<Class>
    var extra: Extras

    function Fields(): ConfirmFields
      reads this
    {
      ConfirmFields(title, text, confirm, deny, extra)
    }

    constructor(title: Option<string>, text: Option<string>, confirm: Option<string>, deny: Option<string>,
                defaultEmoji: Option<bool>, defaultVerbatim: Option<bool>)
      ensures Fields() == NewFields(title, text, confirm, deny, defaultEmoji, defaultVerbatim)
      ensures parent.None?
    {
      this.title := if title.Some? && title.value != "" then Some(NewPlain(title, None, defaultEmoji)) else None;
      this.text := if text.Some? && text.value != "" then Some(NewMrkdwn(text, None, defaultVerbatim)) else None;
      this.confirm := Some(NewPlain(Some(if confirm.Some? then confirm.value else "OK"), None, defaultEmoji));
      this.deny := Some(NewPlain(Some(if deny.Some? then deny.value else "Cancel"), None, defaultEmoji));
      parent := None;
      extra := [];
    }

    /** `setTitle` (a PlainText): only the title changes. */
    method SetTitle(t: TextObject)
      requires t.format == PlainFormat
      modifies this
      ensures Fields() == old(Fields()).(title := Some(t)) && parent == old(parent)
    {
      title := Some(t);
    }

    /** `setText` (a text of either format): only the text changes. */
    method SetText(t: TextObject)
      modifies this
      ensures Fields() == old(Fields()).(text := Some(t)) && parent == old(parent)
    {
      text := Some(t);
    }

    /** `setConfirm` (a PlainText): only the confirm label changes. */
    method SetConfirm(t: TextObject)
      requires t.format == PlainFormat
      modifies this
      ensures Fields() == old(Fields()).(confirm := Some(t)) && parent == old(parent)
    {
      confirm := Some(t);
    }

    /** `setDeny` (a PlainText): only the deny label changes. */
    method SetDeny(t: TextObject)
      requires t.format == PlainFormat
      modifies this
      ensures Fields() == old(Fields()).(deny := Some(t)) && parent == old(parent)
    {
      deny := Some(t);
    }

    /** `setParent`. */
    method SetParent(p: Class)
      modifies this
      ensures Fields() == old(Fields()) && parent == Some(p)
    {
      parent := Some(p);
    }

    /** `hydrate`: the four texts, each when set, then the base hydration and `validate`. */
    method Hydrate(h: HydrationData) returns (r: Outcome)
      requires h.consumed == {} && extra == []
      modifies this, h
      ensures r.Pass? <==> Rehydrated(h.data, old(Fields())).Ok?
      ensures r.Pass? ==> Fields() == Rehydrated(h.data, old(Fields())).value
      ensures r.Fail? ==> r.error == Rehydrated(h.data, old(Fields())).error
      ensures parent == old(parent)
    {
      var done := HydrateFields(h, Fields());
      if done.Err? {
        return Fail(done.error);
      }
      title, text, confirm, deny, extra := done.value.title, done.value.text, done.value.confirm, done.value.deny, done.value.extra;
      return Pass;
    }
  }

  /** `hydrate` of a dialog in state init. */
  method HydrateFields(h: HydrationData, init: ConfirmFields) returns (r: Result<ConfirmFields>)
    requires h.consumed == {} && init.extra == []
    modifies h
    ensures r == Rehydrated(h.data, init)
  {
    var read :- UseFields(h, init);
    r := Complete(read, h);
  }

  /** The four `has`/`useElement` reads of `hydrate`. */
  method UseFields(h: HydrationData, init: ConfirmFields) returns (r: Result<ConfirmFields>)
    requires h.consumed == {}
    modifies h
    ensures r == ReadFields(h.data, init)
    ensures r.Ok? ==> h.consumed == FieldKeys(h.data)
  {
    var title :- UseText(h, "title", PlainText);
    var text :- UseText(h, "text", Classes.Text);
    var confirm :- UseText(h, "confirm", PlainText);
    var deny :- UseText(h, "deny", PlainText);
    return Ok(ConfirmFields(OrElse(title, init.title), OrElse(text, init.text),
                            OrElse(confirm, init.confirm), OrElse(deny, init.deny), init.extra));
  }

  /** The end of `hydrate`: the base hydration, then `validate`. */
  method Complete(f: ConfirmFields, h: HydrationData) returns (r: Result<ConfirmFields>)
    requires f.extra == [] && h.consumed == FieldKeys(h.data)
    modifies h
    ensures r == Completed(f, h.data)
  {
    var b := new ElementBase(Classes.Confirm);
    var outcome := b.Hydrate(h);
    assert h.consumed == ReadKeys(h.data);
    if outcome.Fail? {
      return Err(outcome.error);
    }
    var f' := f.(extra := b.extra);
    if f'.Validate().Fail? {
      return Err(f'.Validate().error);
    }
    return Ok(f');
  }

  /** `Confirm::fromArray`, with the reads recorded in a `HydrationData`. */
  method FromArray(data: Dict<Value>, defaultEmoji: Option<bool>, defaultVerbatim: Option<bool>) returns (r: Result<ConfirmDialog>)
    ensures r.Ok? <==> FromData(data, defaultEmoji, defaultVerbatim).Ok?
    ensures r.Err? ==> r.error == FromData(data, defaultEmoji, defaultVerbatim).error
    ensures r.Ok? ==> fresh(r.value) && r.value.parent.None?
    ensures r.Ok? ==> r.value.Fields() == FromData(data, defaultEmoji, defaultVerbatim).value
  {
    var rc := ResolveClass(Classes.Confirm, data);
    if rc.Err? {
      return Err(rc.error);
    }
    var c := new ConfirmDialog(None, None, None, None, defaultEmoji, defaultVerbatim);
    var h := new HydrationData(data);
    var o := c.Hydrate(h);
    if o.Fail? {
      return Err(o.error);
    }
    return Ok(c);
  }
}
