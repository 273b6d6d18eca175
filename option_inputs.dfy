/**
 * The two interactive elements built on the option list: checkbox groups
 * (src/Inputs/Checkboxes.php) and overflow menus (src/Inputs/OverflowMenu.php).
 * Both are input elements (src/Inputs/InputElement.php: an optional action
 * id) with an optional confirmation dialog (src/Inputs/HasConfirm.php) and an
 * option list (src/Partials/HasOptions.php); they differ in their option
 * policy, in `validate` and in `toArray`, and only the overflow menu has
 * `urlOption`. One class models both, told apart by its class tag.
 */
module OptionInputs {
  import opened Classes
  import opened Outcomes
  import opened Wire
  import opened Types
  import opened Hydration
  import opened Elements
  import opened Texts
  import opened Options
  import opened OptionsConfigs
  import opened OptionLists
  import opened Confirms

  /** The two element classes this module models. */
  predicate OptionInputClass(cls: Class) {
    cls == Checkboxes || cls == OverflowMenu
  }

  /** An element's state as a value: action id, option lists, dialog and extras. */
  datatype InputFields = InputFields(
    actionId: Option<string>,
    options: seq<OptionObject>,
    initial: seq<OptionObject>,
    confirm: Option<ConfirmFields>,
    extra: Extras)

  /**
   * `Checkboxes::validate`: the option rules, the initial-option rules, and
   * the dialog only when there is one.
   */
  function CheckboxesVerdict(f: InputFields): (r: Outcome)
    ensures OptionsVerdict(PolicyOf(Checkboxes), f.options, f.initial).Fail? ==>
      r == OptionsVerdict(PolicyOf(Checkboxes), f.options, f.initial)
    ensures f.confirm.None? ==> r == OptionsVerdict(PolicyOf(Checkboxes), f.options, f.initial)
    ensures r.Pass? <==>
      && OptionsVerdict(PolicyOf(Checkboxes), f.options, f.initial).Pass?
      && (f.confirm.Some? ==> f.confirm.value.Acceptable())
  {
    var p := PolicyOf(Checkboxes);
    var o := OptionsVerdict(p, f.options, f.initial);
    if o.Fail? then o
    else
      var i := InitialVerdict(p, f.initial);
      if i.Fail? then i
      else if f.confirm.Some? then f.confirm.value.Validate()
      else Pass
  }

  /**
   * `OverflowMenu::validate`: the option rules, then `$this->confirm->validate()`
   * whether or not a dialog was set, so a menu without one always fails.
   */
  function OverflowMenuVerdict(f: InputFields): (r: Outcome)
    ensures OptionsVerdict(PolicyOf(OverflowMenu), f.options, f.initial).Fail? ==>
      r == OptionsVerdict(PolicyOf(OverflowMenu), f.options, f.initial)
    ensures OptionsVerdict(PolicyOf(OverflowMenu), f.options, f.initial).Pass? && f.confirm.None? ==>
      r == Fail(NullMethodCall)
    ensures r.Pass? <==>
      && OptionsVerdict(PolicyOf(OverflowMenu), f.options, f.initial).Pass?
      && f.confirm.Some? && f.confirm.value.Acceptable()
  {
    var o := OptionsVerdict(PolicyOf(OverflowMenu), f.options, f.initial);
    if o.Fail? then o
    else if f.confirm.None? then Fail(NullMethodCall)
    else f.confirm.value.Validate()
  }

  function Verdict(cls: Class, f: InputFields): Outcome
    requires OptionInputClass(cls)
  {
    if cls == Checkboxes then CheckboxesVerdict(f) else OverflowMenuVerdict(f)
  }

  /** A valid overflow menu has a dialog and no initial option. */
  lemma OverflowMenuNeeds(f: InputFields)
    requires OverflowMenuVerdict(f).Pass?
    ensures f.confirm.Some? && f.initial == []
    ensures 2 <= |f.options| <= 5
  {
    OptionsVerdictPasses(PolicyOf(OverflowMenu), f.options, f.initial);
  }

  /** A valid checkbox group holds 1 to 10 options and at most 10 initial ones. */
  lemma CheckboxesBounds(f: InputFields)
    requires CheckboxesVerdict(f).Pass?
    ensures 1 <= |f.options| <= 10 && |f.initial| <= 10
  {
    OptionsVerdictPasses(PolicyOf(Checkboxes), f.options, f.initial);
  }

  /** The dialog's output under 'confirm' when there is one (`$data['confirm'] = ...`). */
  function WithConfirm(d: Dict<Value>, confirm: Option<ConfirmFields>): (r: Result<Dict<Value>>)
    ensures confirm.None? ==> r == Ok(d)
    ensures confirm.Some? && confirm.value.ToArray().Err? ==> r == Err(confirm.value.ToArray().error)
    ensures confirm.Some? && confirm.value.ToArray().Ok? ==>
      r == Ok(Put(d, Name("confirm"), Arr(confirm.value.ToArray().value)))
    ensures confirm.Some? && r.Ok? ==> Lookup(r.value, Name("confirm")) == Some(Arr(confirm.value.ToArray().value))
  {
    if confirm.None? then Ok(d)
    else
      var c :- confirm.value.ToArray();
      PutLookup(d, Name("confirm"), Arr(c), Name("confirm"));
      Ok(Put(d, Name("confirm"), Arr(c)))
  }

  /**
   * The part of `toArray` before the dialog: the input element's output
   * (validation, then the type, the extras and a non-empty action id), then
   * + the options, then (checkbox groups only) + the initial options.
   */
  function ListsArray(cls: Class, f: InputFields): (r: Result<Dict<Value>>)
    requires OptionInputClass(cls)
    ensures Verdict(cls, f).Fail? ==> r == Err(Verdict(cls, f).error)
  {
    var base :- BaseArray(cls, Verdict(cls, f), f.extra);
    ListsOver(cls, f, WithActionIdKey(base, f.actionId))
  }

  /** `+ $this->getOptionsAsArray()`, then (checkbox groups only) `+ $this->getInitialOptionsAsArray()`. */
  function ListsOver(cls: Class, f: InputFields, head: Dict<Value>): Result<Dict<Value>>
    requires OptionInputClass(cls)
  {
    var listed :- ListUnder("options", f.options);
    var initial :- if cls == Checkboxes then InitialArray(PolicyOf(cls), f.initial) else Ok([]);
    Ok(Union(Union(head, listed), initial))
  }

  /** `toArray`: the lists, then the dialog under 'confirm' only when one is set. */
  function InputArray(cls: Class, f: InputFields): (r: Result<Dict<Value>>)
    requires OptionInputClass(cls)
    ensures Verdict(cls, f).Fail? ==> r == Err(Verdict(cls, f).error)
    ensures r.Ok? ==> Verdict(cls, f).Pass?
    ensures f.confirm.None? ==> r == ListsArray(cls, f)
    ensures r.Ok? && f.confirm.Some? ==>
      f.confirm.value.ToArray().Ok? &&
      Lookup(r.value, Name("confirm")) == Some(Arr(f.confirm.value.ToArray().value))
  {
    var d :- ListsArray(cls, f);
    WithConfirm(d, f.confirm)
  }

  /** The type tag of each of the two classes. */
  function InputTag(cls: Class): string
    requires OptionInputClass(cls)
  {
    if cls == Checkboxes then "checkboxes" else "overflow"
  }

  /** The keys the two elements write are distinct. */
  lemma InputKeysDiffer()
    ensures Name("type") != Name("action_id") && Name("type") != Name("options")
    ensures Name("type") != Name("initial_options") && Name("type") != Name("confirm")
    ensures Name("action_id") != Name("options") && Name("action_id") != Name("initial_options")
    ensures Name("action_id") != Name("confirm") && Name("options") != Name("initial_options")
    ensures Name("options") != Name("confirm") && Name("initial_options") != Name("confirm")
  {
    assert "type"[0] == 't' && "action_id"[0] == 'a' && "options"[0] == 'o';
    assert "initial_options"[0] == 'i' && "confirm"[0] == 'c';
  }

  /** Without extras, `Element::toArray` of a valid input is just its type tag. */
  lemma InputBase(cls: Class)
    requires OptionInputClass(cls)
    ensures BaseArray(cls, Pass, []) == Ok([Entry(Name("type"), Str(InputTag(cls)))])
  {
    assert MapClass(cls) == Ok(InputTag(cls)) && !Hidden(InputTag(cls));
    assert WriteExtras([Entry(Name("type"), Str(InputTag(cls)))], []) == Ok([Entry(Name("type"), Str(InputTag(cls)))]);
  }

  /**
   * What the part before the dialog holds under a key, for an input
   * without extras: the tag, the action id unless `empty()`, the options,
   * and a checkbox group's initial options when there are any.
   */
  function ListsPart(cls: Class, f: InputFields, k: Key): Option<Value>
    requires OptionInputClass(cls)
  {
    if k == Name("type") then Some(Str(InputTag(cls)))
    else if k == Name("action_id") then (if EmptyString(f.actionId) then None else Some(Str(f.actionId.value)))
    else ListedPart(cls, f, k)
  }

  /** What the option lists write under a key. */
  function ListedPart(cls: Class, f: InputFields, k: Key): Option<Value>
    requires OptionInputClass(cls)
  {
    if k == Name("options") && SerialiseAll(f.options).Ok? then Some(Arr(List(SerialiseAll(f.options).value)))
    else if k == Name("initial_options") && cls == Checkboxes && f.initial != [] && SerialiseAll(f.initial).Ok? then
      Some(Arr(List(SerialiseAll(f.initial).value)))
    else None
  }

  /** A list written under one key holds the list there and nothing elsewhere. */
  lemma ListUnderLookup(key: string, os: seq<OptionObject>, k: Key)
    requires ListUnder(key, os).Ok?
    ensures Lookup(ListUnder(key, os).value, k) == if k == Name(key) then Some(Arr(List(SerialiseAll(os).value))) else None
  {
  }

  /** The option lists, added with `+`, fill the keys the head leaves free. */
  lemma ListsOverLookup(cls: Class, f: InputFields, head: Dict<Value>, k: Key)
    requires OptionInputClass(cls) && ListsOver(cls, f, head).Ok?
    ensures SerialiseAll(f.options).Ok?
    ensures cls == Checkboxes && f.initial != [] ==> SerialiseAll(f.initial).Ok?
    ensures Lookup(ListsOver(cls, f, head).value, k) == if HasKey(head, k) then Lookup(head, k) else ListedPart(cls, f, k)
  {
    InputKeysDiffer();
    var listed := ListUnder("options", f.options).value;
    ListUnderLookup("options", f.options, k);
    var initial: Dict<Value> := [];
    if cls == Checkboxes && f.initial != [] {
      CheckboxesListInitialOptions(f.initial);
      initial := ListUnder("initial_options", f.initial).value;
      ListUnderLookup("initial_options", f.initial, k);
    }
    assert Lookup(initial, k) == if k == Name("initial_options") && cls == Checkboxes && f.initial != [] then
      Some(Arr(List(SerialiseAll(f.initial).value))) else None;
    assert ListsOver(cls, f, head) == Ok(Union(Union(head, listed), initial));
    UnionLookup(head, listed, k);
    UnionLookup(Union(head, listed), initial, k);
  }

  /** Without extras, the head of a serialised input is its tag and its action id unless `empty()`. */
  lemma ListsHead(cls: Class, f: InputFields)
    requires OptionInputClass(cls) && f.extra == [] && ListsArray(cls, f).Ok?
    ensures ListsArray(cls, f) == ListsOver(cls, f, WithActionIdKey([Entry(Name("type"), Str(InputTag(cls)))], f.actionId))
  {
    InputBase(cls);
  }

  /** The part before the dialog holds, under each key, what `ListsPart` says. */
  lemma ListsLookup(cls: Class, f: InputFields, k: Key)
    requires OptionInputClass(cls) && f.extra == [] && ListsArray(cls, f).Ok?
    ensures SerialiseAll(f.options).Ok?
    ensures cls == Checkboxes && f.initial != [] ==> SerialiseAll(f.initial).Ok?
    ensures Lookup(ListsArray(cls, f).value, k) == ListsPart(cls, f, k)
  {
    var base := [Entry(Name("type"), Str(InputTag(cls)))];
    var head := WithActionIdKey(base, f.actionId);
    HeadLookup(cls, f.actionId, k);
    ListsHead(cls, f);
    ListsOverLookup(cls, f, head, k);
  }

  /** The head holds the tag and the action id unless `empty()`, and nothing else. */
  lemma HeadLookup(cls: Class, actionId: Option<string>, k: Key)
    requires OptionInputClass(cls)
    ensures Lookup(WithActionIdKey([Entry(Name("type"), Str(InputTag(cls)))], actionId), k) ==
      if k == Name("type") then Some(Str(InputTag(cls)))
      else if k == Name("action_id") && !EmptyString(actionId) then Some(Str(actionId.value))
      else None
  {
    InputKeysDiffer();
    if !EmptyString(actionId) {
      PutLookup([Entry(Name("type"), Str(InputTag(cls)))], Name("action_id"), Str(actionId.value), k);
    }
  }

  /** What `toArray` writes under one key for an input without extras. */
  lemma InputLookup(cls: Class, f: InputFields, k: Key)
    requires OptionInputClass(cls) && f.extra == [] && InputArray(cls, f).Ok?
    ensures SerialiseAll(f.options).Ok?
    ensures cls == Checkboxes && f.initial != [] ==> SerialiseAll(f.initial).Ok?
    ensures f.confirm.Some? ==> f.confirm.value.ToArray().Ok?
    ensures Lookup(InputArray(cls, f).value, k) ==
      if k == Name("confirm") then (if f.confirm.Some? then Some(Arr(f.confirm.value.ToArray().value)) else None)
      else ListsPart(cls, f, k)
  {
    InputKeysDiffer();
    var d := ListsArray(cls, f).value;
    assert InputArray(cls, f) == WithConfirm(d, f.confirm);
    ListsLookup(cls, f, k);
    ListsLookup(cls, f, Name("confirm"));
    if f.confirm.Some? {
      PutLookup(d, Name("confirm"), Arr(f.confirm.value.ToArray().value), k);
    }
  }

  /**
   * What `toArray` writes for an input without extras: its type tag, the
   * action id unless `empty()`, the options' arrays in order under
   * 'options', and a checkbox group's initial options (when there are any)
   * under 'initial_options'.
   */
  lemma InputArrayParts(cls: Class, f: InputFields)
    requires OptionInputClass(cls) && f.extra == [] && InputArray(cls, f).Ok?
    ensures Lookup(InputArray(cls, f).value, Name("type")) == Some(Str(InputTag(cls)))
    ensures Lookup(InputArray(cls, f).value, Name("action_id")) ==
      if EmptyString(f.actionId) then None else Some(Str(f.actionId.value))
    ensures SerialiseAll(f.options).Ok?
    ensures Lookup(InputArray(cls, f).value, Name("options")) == Some(Arr(List(SerialiseAll(f.options).value)))
    ensures cls == Checkboxes && f.initial != [] ==>
      SerialiseAll(f.initial).Ok? &&
      Lookup(InputArray(cls, f).value, Name("initial_options")) == Some(Arr(List(SerialiseAll(f.initial).value)))
    ensures cls == OverflowMenu || f.initial == [] ==> !HasKey(InputArray(cls, f).value, Name("initial_options"))
  {
    InputKeysDiffer();
    InputLookup(cls, f, Name("type"));
    InputLookup(cls, f, Name("action_id"));
    InputLookup(cls, f, Name("options"));
    InputLookup(cls, f, Name("initial_options"));
  }

  /**
   * The dialog is written under 'confirm' exactly when one is set, and a
   * serialised input without extras has no key but the five it writes.
   */
  lemma InputArrayConfirm(cls: Class, f: InputFields, k: Key)
    requires OptionInputClass(cls) && f.extra == [] && InputArray(cls, f).Ok?
    ensures f.confirm.None? ==> !HasKey(InputArray(cls, f).value, Name("confirm"))
    ensures f.confirm.Some? ==>
      f.confirm.value.ToArray().Ok? &&
      Lookup(InputArray(cls, f).value, Name("confirm")) == Some(Arr(f.confirm.value.ToArray().value))
    ensures k !in {Name("type"), Name("action_id"), Name("options"), Name("initial_options"), Name("confirm")} ==>
      !HasKey(InputArray(cls, f).value, k)
  {
    InputLookup(cls, f, Name("confirm"));
    InputLookup(cls, f, k);
  }

  /**
   * `Confirm::fromArray($data->useElement('confirm'))` when 'confirm' is
   * set; a scalar fails the `array` parameter.
   */
  function ConfirmUnder(data: Dict<Value>, defaultEmoji: Option<bool>, defaultVerbatim: Option<bool>): (r: Result<Option<ConfirmFields>>)
    ensures !IsSet(data, Name("confirm")) ==> r == Ok(None)
    ensures IsSet(data, Name("confirm")) && !GetOr(data, Name("confirm"), Null).Arr? ==> r == Err(TypeError)
    ensures r.Ok? && r.value.Some? ==> r.value.value.Acceptable()
  {
    if !IsSet(data, Name("confirm")) then Ok(None)
    else match GetOr(data, Name("confirm"), Null)
      case Arr(es) => (var c :- Confirms.FromData(es, defaultEmoji, defaultVerbatim); Ok(Some(c)))
      case _ => Err(TypeError)
  }

  /**
   * `$this->actionId($data->useValue('action_id'))` when 'action_id' is
   * set; anything but a string fails the `string` parameter.
   */
  function ActionIdUnder(data: Dict<Value>): (r: Result<Option<string>>)
    ensures !IsSet(data, Name("action_id")) ==> r == Ok(None)
    ensures IsSet(data, Name("action_id")) && GetOr(data, Name("action_id"), Null).Str? ==>
      r == Ok(Some(GetOr(data, Name("action_id"), Null).s))
    ensures IsSet(data, Name("action_id")) && !GetOr(data, Name("action_id"), Null).Str? ==> r == Err(TypeError)
  {
    if !IsSet(data, Name("action_id")) then Ok(None)
    else match GetOr(data, Name("action_id"), Null)
      case Str(s) => Ok(Some(s))
      case _ => Err(TypeError)
  }

  /** The keys `hydrate` reads: the option lists, the dialog and the action id when set, and 'type'. */
  function InputKeys(data: Dict<Value>): set<Key> {
    InputFieldKeys(data) + {Name("type")}
  }

  function InputFieldKeys(data: Dict<Value>): set<Key> {
    OptionListKeys(data) + KeyIfSet(data, "confirm") + KeyIfSet(data, "action_id")
  }

  /**
   * The reads of `hydrate` on a new element: `hydrateOptions`, then the
   * dialog, then (in `InputElement::hydrate`) the action id. Listed options
   * are added, and so adopted; initial options are kept as read.
   */
  function ReadInput(cls: Class, data: Dict<Value>, defaultEmoji: Option<bool>, defaultVerbatim: Option<bool>): (r: Result<InputFields>)
    ensures r.Ok? ==> ReadOptionLists(data).Ok?
    ensures r.Ok? ==> r.value.options == AdoptAll(cls, ReadOptionLists(data).value.options)
    ensures r.Ok? ==> r.value.initial == ReadOptionLists(data).value.initial
    ensures r.Ok? ==> ConfirmUnder(data, defaultEmoji, defaultVerbatim) == Ok(r.value.confirm)
    ensures r.Ok? ==> ActionIdUnder(data) == Ok(r.value.actionId)
    ensures r.Ok? ==> r.value.extra == []
  {
    Assemble(cls, ReadOptionLists(data), RestUnder(data, defaultEmoji, defaultVerbatim))
  }

  /** The reads after the option lists: the dialog, then the action id. */
  function RestUnder(data: Dict<Value>, defaultEmoji: Option<bool>, defaultVerbatim: Option<bool>): (r: Result<(Option<ConfirmFields>, Option<string>)>)
    ensures r.Ok? ==> ConfirmUnder(data, defaultEmoji, defaultVerbatim) == Ok(r.value.0)
    ensures r.Ok? ==> ActionIdUnder(data) == Ok(r.value.1)
  {
    var confirm :- ConfirmUnder(data, defaultEmoji, defaultVerbatim);
    var actionId :- ActionIdUnder(data);
    Ok((confirm, actionId))
  }

  /** The element read from the option lists and the rest, or the first failure. */
  function Assemble(cls: Class, lists: Result<OptionLists>, rest: Result<(Option<ConfirmFields>, Option<string>)>): (r: Result<InputFields>)
    ensures lists.Err? ==> r == Err(lists.error)
    ensures lists.Ok? && rest.Err? ==> r == Err(rest.error)
    ensures lists.Ok? && rest.Ok? ==>
      r == Ok(InputFields(rest.value.1, AdoptAll(cls, lists.value.options), lists.value.initial, rest.value.0, []))
  {
    var l :- lists;
    var (c, id) :- rest;
    Ok(InputFields(id, AdoptAll(cls, l.options), l.initial, c, []))
  }

  /** `Element::hydrate` over the keys not read, then the element's own `validate`. */
  function InputCompleted(cls: Class, f: InputFields, data: Dict<Value>): (r: Result<InputFields>)
    requires OptionInputClass(cls)
    ensures r.Ok? ==> r.value == f.(extra := r.value.extra) && Verdict(cls, r.value).Pass?
    ensures r.Ok? ==> AddExtras(f.extra, Without(data, InputKeys(data))) == Ok(r.value.extra)
  {
    var unread := Without(data, InputKeys(data));
    var base := HydrateOutcome(cls, GetOr(data, Name("type"), Null), f.extra, unread);
    if base.Fail? then Err(base.error)
    else
      var f' := f.(extra := AddExtras(f.extra, unread).value);
      var v := Verdict(cls, f');
      if v.Fail? then Err(v.error) else Ok(f')
  }

  /** `hydrate` of a new checkbox group or overflow menu. */
  function InputHydrated(cls: Class, data: Dict<Value>, defaultEmoji: Option<bool>, defaultVerbatim: Option<bool>): (r: Result<InputFields>)
    requires OptionInputClass(cls)
    ensures r.Ok? ==> Verdict(cls, r.value).Pass?
    ensures r.Ok? ==> ReadOptionLists(data).Ok? && r.value.options == AdoptAll(cls, ReadOptionLists(data).value.options)
  {
    var f :- ReadInput(cls, data, defaultEmoji, defaultVerbatim);
    InputCompleted(cls, f, data)
  }

  /** `Checkboxes::fromArray` / `OverflowMenu::fromArray`: resolve the class, then hydrate. */
  function InputFromData(cls: Class, data: Dict<Value>, defaultEmoji: Option<bool>, defaultVerbatim: Option<bool>): (r: Result<InputFields>)
    requires OptionInputClass(cls)
    ensures ResolveClass(cls, data).Err? ==> r == Err(ResolveClass(cls, data).error)
    ensures ResolveClass(cls, data).Ok? ==> r == InputHydrated(cls, data, defaultEmoji, defaultVerbatim)
  {
    var c :- ResolveClass(cls, data);
    InputHydrated(cls, data, defaultEmoji, defaultVerbatim)
  }

  /** A checkbox group or an overflow menu. */
  class OptionInput {
    /** `static::class`: Checkboxes or OverflowMenu. */
    const cls: Class
    /** The option list, with this element's class as owner. */
    const opts: OptionSet
    var actionId: Option<string>
    var confirm: ConfirmDialog?
    var parent: Option<Class>
    var extra: Extras

    ghost predicate Valid()
      reads this, opts, opts.config
    {
      OptionInputClass(cls) && opts.owner == cls && opts.Valid()
    }

    function Fields(): InputFields
      reads this, opts, confirm
    {
      InputFields(actionId, opts.options, opts.initialOptions, if confirm == null then None else Some(confirm.Fields()), extra)
    }

    /** `new Checkboxes($actionId)` / `new OverflowMenu($actionId)`: the id is kept unless `empty()`. */
    constructor(cls: Class, actionId: Option<string>)
      requires OptionInputClass(cls)
      ensures this.cls == cls && Valid() && fresh(opts) && parent.None?
      ensures Fields() == InputFields(if EmptyString(actionId) then None else actionId, [], [], None, [])
    {
      this.cls := cls;
      opts := new OptionSet(cls);
      this.actionId := if EmptyString(actionId) then None else actionId;
      confirm := null;
      parent := None;
      extra := [];
    }

    /** `actionId`: only the id changes. */
    method SetActionId(id: string)
      modifies this
      ensures Fields() == old(Fields()).(actionId := Some(id)) && parent == old(parent) && confirm == old(confirm)
    {
      actionId := Some(id);
    }

    /** `setConfirm`: the dialog is held and gets this element as its parent. */
    method SetConfirm(c: ConfirmDialog)
      modifies this, c
      ensures confirm == c && c.parent == Some(cls) && parent == old(parent)
      ensures Fields() == old(Fields()).(confirm := Some(old(c.Fields())))
    {
      c.SetParent(cls);
      confirm := c;
    }

    /** `confirm($title, $text, $confirm, $deny)`: a new dialog from four strings. */
    method ConfirmWith(title: string, text: string, confirmLabel: string, deny: string,
                       defaultEmoji: Option<bool>, defaultVerbatim: Option<bool>)
      modifies this
      ensures confirm != null && fresh(confirm) && confirm.parent == Some(cls) && parent == old(parent)
      ensures Fields() == old(Fields()).(confirm := Some(NewFields(Some(title), Some(text), Some(confirmLabel), Some(deny),
                                                                   defaultEmoji, defaultVerbatim)))
    {
      var c := new ConfirmDialog(Some(title), Some(text), Some(confirmLabel), Some(deny), defaultEmoji, defaultVerbatim);
      SetConfirm(c);
    }

    /** `OverflowMenu::urlOption`: a new option carrying the url, appended to the options. */
    method UrlOption(text: string, value: string, url: string, defaultEmoji: Option<bool>)
      requires Valid() && cls == OverflowMenu
      modifies opts
      ensures Valid()
      ensures Fields() == old(Fields()).(options := old(Fields()).options +
                [Adopted(cls, NewOption(Some(text), Some(value), defaultEmoji).(url := Some(url)))])
    {
      opts.AddOption(NewOption(Some(text), Some(value), defaultEmoji).(url := Some(url)), false);
    }

    /** `validate`, through the cached policy. */
    method Validate() returns (r: Outcome)
      requires Valid()
      modifies opts
      ensures Valid() && Fields() == old(Fields())
      ensures r == Verdict(cls, Fields())
    {
      r := opts.ValidateOptions();
      if r.Fail? {
        return;
      }
      if cls == Checkboxes {
        r := opts.ValidateInitialOptions();
        if r.Fail? {
          return;
        }
        if confirm != null {
          r := confirm.Fields().Validate();
        }
      } else {
        if confirm == null {
          return Fail(NullMethodCall);
        }
        r := confirm.Fields().Validate();
      }
    }

    /** `toArray`. */
    function ToArray(): (r: Result<Dict<Value>>)
      reads this, opts, confirm
      requires OptionInputClass(cls)
      ensures r == InputArray(cls, Fields())
    {
      InputArray(cls, Fields())
    }

    /**
     * `hydrate` of a new element: `hydrateOptions`, the dialog, the action
     * id, then `Element::hydrate`, which ends with `validate`.
     */
    method Hydrate(h: HydrationData, defaultEmoji: Option<bool>, defaultVerbatim: Option<bool>) returns (r: Outcome)
      requires Valid() && h.consumed == {}
      requires Fields() == InputFields(None, [], [], None, [])
      modifies this, opts, h
      ensures Valid() && parent == old(parent)
      ensures r.Fail? ==> InputHydrated(cls, h.data, defaultEmoji, defaultVerbatim) == Err(r.error)
      ensures r.Pass? ==> InputHydrated(cls, h.data, defaultEmoji, defaultVerbatim) == Ok(Fields())
    {
      var read := HydrateReads(h, defaultEmoji, defaultVerbatim);
      if read.Fail? {
        return read;
      }
      ghost var f := Fields();
      assert InputHydrated(cls, h.data, defaultEmoji, defaultVerbatim) == InputCompleted(cls, f, h.data);
      r := HydrateFinish(h);
    }

    /** `Element::hydrate` and `validate`, once the element's own reads succeeded. */
    method HydrateFinish(h: HydrationData) returns (r: Outcome)
      requires Valid() && extra == []
      requires h.consumed == InputFieldKeys(h.data)
      modifies this, opts, h
      ensures Valid() && parent == old(parent)
      ensures r.Fail? ==> InputCompleted(cls, old(Fields()), h.data) == Err(r.error)
      ensures r.Pass? ==> InputCompleted(cls, old(Fields()), h.data) == Ok(Fields())
    {
      ghost var f := Fields();
      var outcome, ex := HydrateBase(cls, h);
      assert Valid() && Fields() == f;
      if outcome.Fail? {
        return outcome;
      }
      extra := ex;
      assert Fields() == f.(extra := ex);
      r := Validate();
    }

    /** The reads of `hydrate` before `Element::hydrate`. */
    method HydrateReads(h: HydrationData, defaultEmoji: Option<bool>, defaultVerbatim: Option<bool>) returns (r: Outcome)
      requires Valid() && h.consumed == {}
      requires opts.options == [] && opts.initialOptions == [] && confirm == null && actionId.None? && extra == []
      modifies this, opts, h
      ensures Valid() && parent == old(parent) && extra == []
      ensures r.Fail? ==> Assemble(cls, ReadOptionLists(h.data), RestUnder(h.data, defaultEmoji, defaultVerbatim)) == Err(r.error)
      ensures r.Pass? ==> Assemble(cls, ReadOptionLists(h.data), RestUnder(h.data, defaultEmoji, defaultVerbatim)) == Ok(Fields())
      ensures r.Pass? ==> h.consumed == InputFieldKeys(h.data)
    {
      r := opts.HydrateOptions(h);
      if r.Fail? {
        return;
      }
      ghost var lists := ReadOptionLists(h.data).value;
      assert opts.options == AdoptAll(cls, lists.options) && opts.initialOptions == lists.initial;
      assert h.consumed == OptionListKeys(h.data);
      r := HydrateRest(h, defaultEmoji, defaultVerbatim);
      if r.Pass? {
        ghost var rest := RestUnder(h.data, defaultEmoji, defaultVerbatim).value;
        assert Fields() == InputFields(rest.1, AdoptAll(cls, lists.options), lists.initial, rest.0, []);
      }
    }

    /** The dialog and action-id reads of `hydrate`, on an element holding neither. */
    method HydrateRest(h: HydrationData, defaultEmoji: Option<bool>, defaultVerbatim: Option<bool>) returns (r: Outcome)
      requires confirm == null && actionId.None?
      modifies this, h
      ensures parent == old(parent) && extra == old(extra)
      ensures r.Fail? ==> RestUnder(h.data, defaultEmoji, defaultVerbatim) == Err(r.error)
      ensures r.Pass? ==> RestUnder(h.data, defaultEmoji, defaultVerbatim) == Ok((Fields().confirm, actionId))
      ensures r.Pass? ==> h.consumed == old(h.consumed) + KeyIfSet(h.data, "confirm") + KeyIfSet(h.data, "action_id")
    {
      var c := UseConfirm(h, defaultEmoji, defaultVerbatim);
      if c.Err? {
        return Fail(c.error);
      }
      if c.value.Some? {
        SetConfirm(c.value.value);
      }
      var id := UseActionId(h);
      if id.Err? {
        return Fail(id.error);
      }
      actionId := id.value;
      r := Pass;
    }
  }

  /** `Element::hydrate` up to `validate`, after the element's own reads. */
  method HydrateBase(cls: Class, h: HydrationData) returns (r: Outcome, ex: Extras)
    requires h.consumed == InputFieldKeys(h.data)
    modifies h
    ensures r == HydrateOutcome(cls, GetOr(h.data, Name("type"), Null), [], Without(h.data, InputKeys(h.data)))
    ensures r.Pass? ==> AddExtras([], Without(h.data, InputKeys(h.data))) == Ok(ex)
  {
    var b := new ElementBase(cls);
    r := b.Hydrate(h);
    assert h.consumed == InputKeys(h.data);
    ex := b.extra;
  }

  /** The dialog read of `hydrate`. */
  method UseConfirm(h: HydrationData, defaultEmoji: Option<bool>, defaultVerbatim: Option<bool>) returns (r: Result<Option<ConfirmDialog>>)
    modifies h
    ensures r.Ok? <==> ConfirmUnder(h.data, defaultEmoji, defaultVerbatim).Ok?
    ensures r.Err? ==> r.error == ConfirmUnder(h.data, defaultEmoji, defaultVerbatim).error
    ensures r.Ok? ==> (r.value.Some? <==> ConfirmUnder(h.data, defaultEmoji, defaultVerbatim).value.Some?)
    ensures r.Ok? && r.value.Some? ==>
      fresh(r.value.value) && r.value.value.Fields() == ConfirmUnder(h.data, defaultEmoji, defaultVerbatim).value.value
    ensures h.consumed == old(h.consumed) + KeyIfSet(h.data, "confirm")
  {
    if !h.Has("confirm") {
      return Ok(None);
    }
    var e := h.UseElement("confirm");
    if e.Err? {
      return Err(e.error);
    }
    var c :- Confirms.FromArray(e.value.value, defaultEmoji, defaultVerbatim);
    return Ok(Some(c));
  }

  /** The action-id read of `InputElement::hydrate`. */
  method UseActionId(h: HydrationData) returns (r: Result<Option<string>>)
    modifies h
    ensures r == ActionIdUnder(h.data)
    ensures h.consumed == old(h.consumed) + KeyIfSet(h.data, "action_id")
  {
    if !h.Has("action_id") {
      return Ok(None);
    }
    var v := h.UseValue("action_id", Null);
    match v {
      case Str(s) => return Ok(Some(s));
      case _ => return Err(TypeError);
    }
  }

  /** `Checkboxes::fromArray` / `OverflowMenu::fromArray`, with the reads recorded in a `HydrationData`. */
  method FromArray(cls: Class, data: Dict<Value>, defaultEmoji: Option<bool>, defaultVerbatim: Option<bool>) returns (r: Result<OptionInput>)
    requires OptionInputClass(cls)
    ensures r.Ok? <==> InputFromData(cls, data, defaultEmoji, defaultVerbatim).Ok?
    ensures r.Err? ==> r.error == InputFromData(cls, data, defaultEmoji, defaultVerbatim).error
    ensures r.Ok? ==> fresh(r.value) && r.value.cls == cls && r.value.Valid()
    ensures r.Ok? ==> r.value.Fields() == InputFromData(cls, data, defaultEmoji, defaultVerbatim).value
  {
    var rc := ResolveClass(cls, data);
    if rc.Err? {
      return Err(rc.error);
    }
    var e := new OptionInput(cls, None);
    var h := new HydrationData(data);
    var o := e.Hydrate(h, defaultEmoji, defaultVerbatim);
    if o.Fail? {
      return Err(o.error);
    }
    return Ok(e);
  }
}
