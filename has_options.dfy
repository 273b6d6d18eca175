/**
 * The option list shared by checkbox groups, overflow menus and option
 * groups (src/Partials/HasOptions.php): the options, the initially
 * selected ones, and the count policy of the element that holds them,
 * fetched once and then kept.
 *
 * An option is a value here, so the element that adds one stores a copy
 * with itself as the parent; an option added as both an option and an
 * initial option is stored twice, as two equal copies.
 */
module OptionLists {
  import opened Classes
  import opened Outcomes
  import opened Wire
  import opened Hydration
  import opened Texts
  import opened Options
  import opened OptionsConfigs

  /**
   * What `getOptionsConfig` yields for each element using the option list:
   * the overrides of Checkboxes, OverflowMenu and OptionGroup, otherwise
   * the default policy.
   */
  function PolicyOf(owner: Class): Policy {
    match owner
    case Checkboxes => Policy(Some(1), Some(10), Some(10))
    case OverflowMenu => Policy(Some(2), Some(5), Some(0))
    case OptionGroup => Policy(Some(1), Some(100), None)
    case _ => Policy(Some(1), None, None)
  }

  /** `getOptionsConfig`: a new policy object, set up through its setters as each override does. */
  method GetOptionsConfig(owner: Class) returns (c: OptionsConfig)
    ensures fresh(c)
    ensures c.Limits() == PolicyOf(owner)
  {
    c := new OptionsConfig();
    match owner {
      case Checkboxes =>
        c := c.SetMinOptions(Some(1));
        c := c.SetMaxOptions(Some(10));
        c := c.SetMaxInitialOptions(Some(10));
      case OverflowMenu =>
        c := c.SetMinOptions(Some(2));
        c := c.SetMaxOptions(Some(5));
        c := c.SetMaxInitialOptions(Some(0));
      case OptionGroup =>
        c := c.SetMinOptions(Some(1));
        c := c.SetMaxOptions(Some(100));
      case _ =>
    }
  }

  /** An option as its holder stores it: with the holder as its parent. */
  function Adopted(owner: Class, o: OptionObject): OptionObject {
    o.(parent := Some(owner))
  }

  function AdoptAll(owner: Class, os: seq<OptionObject>): (r: seq<OptionObject>)
    ensures |r| == |os|
    ensures forall i :: 0 <= i < |os| ==> r[i] == Adopted(owner, os[i])
  {
    seq(|os|, i requires 0 <= i < |os| => Adopted(owner, os[i]))
  }

  /**
   * The option `options()` and `initialOptions()` build from one entry of
   * their argument: an integer key means a plain list, where the value
   * doubles as the label; otherwise the key is the label.
   */
  function PairOption(e: Entry<string>, defaultEmoji: Option<bool>): (o: OptionObject)
    ensures o.value == Some(e.val) && o.parent.None? && o.extra == []
    ensures o.description.None? && o.url.None?
    ensures o.text.Some? && o.text.value.format == PlainFormat
    ensures e.key.Idx? ==> o.text.value.text == o.value
    ensures e.key.Name? ==> o.text.value.text == Some(e.key.s)
  {
    NewOption(Some(if e.key.Idx? then e.val else e.key.s), Some(e.val), defaultEmoji)
  }

  function PairOptions(pairs: Dict<string>, defaultEmoji: Option<bool>): (r: seq<OptionObject>)
    ensures |r| == |pairs|
    ensures forall i :: 0 <= i < |pairs| ==> r[i] == PairOption(pairs[i], defaultEmoji)
  {
    seq(|pairs|, i requires 0 <= i < |pairs| => PairOption(pairs[i], defaultEmoji))
  }

  /**
   * The `foreach (...) $option->validate()` loops: the first failing
   * option's failure, or `Pass` when every option is acceptable.
   */
  function FirstFailure(os: seq<OptionObject>): (r: Outcome)
    ensures r.Pass? <==> forall i :: 0 <= i < |os| ==> os[i].Acceptable()
    ensures r.Fail? ==> exists i :: 0 <= i < |os| && os[i].Validate() == r && !os[i].Acceptable()
  {
    if os == [] then Pass
    else if os[0].Validate().Fail? then os[0].Validate()
    else
      assert forall i :: 1 <= i < |os| ==> os[i] == os[1..][i - 1];
      FirstFailure(os[1..])
  }

  /** `validateInitialOptions`: at most the allowed number of initial options, each acceptable. */
  function InitialVerdict(p: Policy, initial: seq<OptionObject>): (r: Outcome)
    ensures p.maxInitial.Some? && |initial| > p.maxInitial.value ==> r == Fail(TooManyInitialOptions(p.maxInitial.value))
    ensures r.Pass? <==>
      && (p.maxInitial.None? || |initial| <= p.maxInitial.value)
      && forall i :: 0 <= i < |initial| ==> initial[i].Acceptable()
  {
    if p.maxInitial.Some? && |initial| > p.maxInitial.value then Fail(TooManyInitialOptions(p.maxInitial.value))
    else FirstFailure(initial)
  }

  /**
   * `validateOptions`: at least one option and at least the minimum (an
   * unset minimum counts as 0), at most the maximum, each option
   * acceptable, then the initial-option rules.
   */
  function OptionsVerdict(p: Policy, options: seq<OptionObject>, initial: seq<OptionObject>): (r: Outcome)
    ensures options == [] ==> r == Fail(TooFewOptions(IntOf(p.min)))
    ensures |options| < IntOf(p.min) ==> r == Fail(TooFewOptions(IntOf(p.min)))
    ensures options != [] && |options| >= IntOf(p.min) && p.max.Some? && |options| > p.max.value ==>
      r == Fail(TooManyOptions(p.max.value))
  {
    var min := IntOf(p.min);
    if options == [] || |options| < min then Fail(TooFewOptions(min))
    else if p.max.Some? && |options| > p.max.value then Fail(TooManyOptions(p.max.value))
    else if FirstFailure(options).Fail? then FirstFailure(options)
    else InitialVerdict(p, initial)
  }

  /** `validateOptions` passes exactly when every one of its rules holds. */
  lemma OptionsVerdictPasses(p: Policy, options: seq<OptionObject>, initial: seq<OptionObject>)
    ensures OptionsVerdict(p, options, initial).Pass? <==>
      && 1 <= |options| && IntOf(p.min) <= |options|
      && (p.max.None? || |options| <= p.max.value)
      && (forall i :: 0 <= i < |options| ==> options[i].Acceptable())
      && (p.maxInitial.None? || |initial| <= p.maxInitial.value)
      && (forall i :: 0 <= i < |initial| ==> initial[i].Acceptable())
  {
  }

  /** An overflow menu may hold no initial option at all. */
  lemma OverflowMenuRejectsInitialOptions(initial: seq<OptionObject>)
    requires initial != []
    ensures InitialVerdict(PolicyOf(OverflowMenu), initial) == Fail(TooManyInitialOptions(0))
  {
  }

  /** `array_map(fn ($o) => $o->toArray(), ...)`: every option serialised, or the first failure. */
  function SerialiseAll(os: seq<OptionObject>): (r: Result<seq<Value>>)
    ensures r.Ok? <==> forall i :: 0 <= i < |os| ==> os[i].ToArray().Ok?
    ensures r.Ok? ==> |r.value| == |os|
    ensures r.Ok? ==> forall i :: 0 <= i < |os| ==> r.value[i] == Arr(os[i].ToArray().value)
  {
    if os == [] then Ok([])
    else
      var first :- os[0].ToArray();
      assert forall i :: 1 <= i < |os| ==> os[i] == os[1..][i - 1];
      var rest :- SerialiseAll(os[1..]);
      Ok([Arr(first)] + rest)
  }

  /** The options as a list under the given key. */
  function ListUnder(key: string, os: seq<OptionObject>): (r: Result<Dict<Value>>)
    ensures r.Ok? <==> SerialiseAll(os).Ok?
    ensures r.Ok? ==> r.value == [Entry(Name(key), Arr(List(SerialiseAll(os).value)))]
  {
    var vs :- SerialiseAll(os);
    Ok([Entry(Name(key), Arr(List(vs)))])
  }

  /** What `hydrateOptions` reads: the options, and the initial options singular and plural. */
  datatype OptionLists = OptionLists(options: seq<OptionObject>, initial: seq<OptionObject>)

  /** `Option::fromArray` on one element of a list; a scalar fails the `array` parameter. */
  function OptionFromValue(v: Value): (r: Result<OptionObject>)
    ensures !v.Arr? ==> r == Err(TypeError)
    ensures v.Arr? ==> r == Options.FromData(v.entries)
    ensures r.Ok? ==> r.value.parent.None? && r.value.Acceptable()
  {
    if v.Arr? then Options.FromData(v.entries) else Err(TypeError)
  }

  /** The list under key, which must be an array, hydrated element by element. */
  function OptionsUnder(data: Dict<Value>, key: string): (r: Result<seq<OptionObject>>)
    ensures !IsSet(data, Name(key)) ==> r == Ok([])
    ensures IsSet(data, Name(key)) && !GetOr(data, Name(key), Null).Arr? ==> r == Err(TypeError)
    ensures IsSet(data, Name(key)) && GetOr(data, Name(key), Null).Arr? ==>
      r == MapAll(Values(GetOr(data, Name(key), Null).entries), OptionFromValue)
  {
    if !IsSet(data, Name(key)) then Ok([])
    else match GetOr(data, Name(key), Null)
      case Arr(es) => MapAll(Values(es), OptionFromValue)
      case _ => Err(TypeError)
  }

  /** The single option under key, hydrated, when the key is set. */
  function OptionUnder(data: Dict<Value>, key: string): (r: Result<seq<OptionObject>>)
    ensures !IsSet(data, Name(key)) ==> r == Ok([])
    ensures IsSet(data, Name(key)) ==>
      r == (var o :- OptionFromValue(GetOr(data, Name(key), Null)); Ok([o]))
  {
    if !IsSet(data, Name(key)) then Ok([])
    else
      var o :- OptionFromValue(GetOr(data, Name(key), Null));
      Ok([o])
  }

  /** The initial options `hydrateOptions` reads: the singular one, then the plural list. */
  function InitialUnder(data: Dict<Value>): (r: Result<seq<OptionObject>>)
    ensures r.Ok? <==> OptionUnder(data, "initial_option").Ok? && OptionsUnder(data, "initial_options").Ok?
    ensures r.Ok? ==> r.value == OptionUnder(data, "initial_option").value + OptionsUnder(data, "initial_options").value
  {
    var single :- OptionUnder(data, "initial_option");
    var several :- OptionsUnder(data, "initial_options");
    Ok(single + several)
  }

  /** `hydrateOptions`: 'options', then 'initial_option', then 'initial_options'. */
  function ReadOptionLists(data: Dict<Value>): (r: Result<OptionLists>)
    ensures r.Ok? <==> OptionsUnder(data, "options").Ok? && InitialUnder(data).Ok?
    ensures r.Ok? ==> r.value == OptionLists(OptionsUnder(data, "options").value, InitialUnder(data).value)
  {
    var options :- OptionsUnder(data, "options");
    var initial :- InitialUnder(data);
    Ok(OptionLists(options, initial))
  }

  /** The keys `hydrateOptions` reads: those of the three that are set. */
  function OptionListKeys(data: Dict<Value>): set<Key> {
    KeyIfSet(data, "options") + (KeyIfSet(data, "initial_option") + KeyIfSet(data, "initial_options"))
  }

  /** The `foreach ... $option->validate()` loop. */
  method ValidateEach(os: seq<OptionObject>) returns (r: Outcome)
    ensures r == FirstFailure(os)
  {
    var i := 0;
    while i < |os|
      invariant 0 <= i <= |os|
      invariant FirstFailure(os) == FirstFailure(os[i..])
    {
      assert os[i..][1..] == os[i + 1..];
      var v := os[i].Validate();
      if v.Fail? {
        return v;
      }
      i := i + 1;
    }
    return Pass;
  }

  /** The `foreach (...) Option::fromArray($option)` loop over a list's values. */
  method FromValues(vs: seq<Value>) returns (r: Result<seq<OptionObject>>)
    ensures r == MapAll(vs, OptionFromValue)
  {
    var read: seq<OptionObject> := [];
    var i := 0;
    while i < |vs|
      invariant 0 <= i <= |vs|
      invariant MapAll(vs[..i], OptionFromValue) == Ok(read)
    {
      MapAllStep(vs, OptionFromValue, i);
      if !vs[i].Arr? {
        MapAllStops(vs, OptionFromValue, i + 1);
        return Err(TypeError);
      }
      var o := Options.FromArray(vs[i].entries);
      if o.Err? {
        MapAllStops(vs, OptionFromValue, i + 1);
        return Err(o.error);
      }
      read := read + [o.value];
      i := i + 1;
    }
    assert vs[..i] == vs;
    return Ok(read);
  }

  /**
   * `getInitialOptionsAsArray`: nothing without initial options; the first
   * one alone under 'initial_option' when at most one may be given;
   * otherwise the list under 'initial_options'.
   */
  function InitialArray(p: Policy, initial: seq<OptionObject>): (r: Result<Dict<Value>>)
    ensures initial == [] ==> r == Ok([])
    ensures initial != [] && IntOf(p.maxInitial) == 1 ==>
      r == (var d :- initial[0].ToArray(); Ok([Entry(Name("initial_option"), Arr(d))]))
    ensures initial != [] && IntOf(p.maxInitial) != 1 ==>
      r == ListUnder("initial_options", initial)
  {
    if initial == [] then Ok([])
    else if IntOf(p.maxInitial) == 1 then
      var d :- initial[0].ToArray();
      Ok([Entry(Name("initial_option"), Arr(d))])
    else ListUnder("initial_options", initial)
  }

  /** Checkbox groups list their initial options under the plural key. */
  lemma CheckboxesListInitialOptions(initial: seq<OptionObject>)
    requires initial != []
    ensures InitialArray(PolicyOf(Checkboxes), initial) == ListUnder("initial_options", initial)
  {
  }

  /** The option-list state of one element. */
  class OptionSet {
    /** The element holding the list (`static::class` and the options' parent). */
    const owner: Class
    var options: seq<OptionObject>
    var initialOptions: seq<OptionObject>
    /** The policy, once fetched. */
    var config: OptionsConfig?

    ghost predicate Valid()
      reads this, config
    {
      config != null ==> config.Limits() == PolicyOf(owner)
    }

    constructor(owner: Class)
      ensures this.owner == owner && options == [] && initialOptions == [] && config == null
      ensures Valid()
    {
      this.owner := owner;
      options := [];
      initialOptions := [];
      config := null;
    }

    /** `config()`: fetched on first use, the same object afterwards. */
    method Config() returns (c: OptionsConfig)
      requires Valid()
      modifies this
      ensures Valid() && config == c && c.Limits() == PolicyOf(owner)
      ensures old(config) != null ==> c == old(config)
      ensures old(config) == null ==> fresh(c)
      ensures options == old(options) && initialOptions == old(initialOptions)
    {
      if config == null {
        config := GetOptionsConfig(owner);
      }
      c := config;
    }

    /** `addOption`: the option, now a child of this element, is appended; also as initial when asked. */
    method AddOption(o: OptionObject, isInitial: bool)
      requires Valid()
      modifies this
      ensures options == old(options) + [Adopted(owner, o)]
      ensures initialOptions == if isInitial then old(initialOptions) + [Adopted(owner, o)] else old(initialOptions)
      ensures config == old(config) && Valid()
    {
      var adopted := Adopted(owner, o);
      options := options + [adopted];
      if isInitial {
        initialOptions := initialOptions + [adopted];
      }
    }

    /** `addOptions`: each option appended in order, none as initial. */
    method AddOptions(os: seq<OptionObject>)
      requires Valid()
      modifies this
      ensures options == old(options) + AdoptAll(owner, os)
      ensures initialOptions == old(initialOptions)
      ensures config == old(config) && Valid()
    {
      var i := 0;
      while i < |os|
        invariant 0 <= i <= |os|
        invariant options == old(options) + AdoptAll(owner, os[..i])
        invariant initialOptions == old(initialOptions)
        invariant config == old(config) && Valid()
      {
        AddOption(os[i], false);
        assert AdoptAll(owner, os[..i + 1]) == AdoptAll(owner, os[..i]) + [Adopted(owner, os[i])];
        i := i + 1;
      }
      assert os[..i] == os;
    }

    /** `option($text, $value, $isInitial)`. */
    method AddNewOption(text: string, value: string, isInitial: bool, defaultEmoji: Option<bool>)
      requires Valid()
      modifies this
      ensures options == old(options) + [Adopted(owner, NewOption(Some(text), Some(value), defaultEmoji))]
      ensures initialOptions == if isInitial then old(initialOptions) + [options[|options| - 1]] else old(initialOptions)
      ensures config == old(config) && Valid()
    {
      AddOption(NewOption(Some(text), Some(value), defaultEmoji), isInitial);
    }

    /** `options($options)`: one option per entry, labelled by its key unless the key is an integer. */
    method AddPairs(pairs: Dict<string>, defaultEmoji: Option<bool>)
      requires Valid()
      modifies this
      ensures options == old(options) + AdoptAll(owner, PairOptions(pairs, defaultEmoji))
      ensures initialOptions == old(initialOptions)
      ensures config == old(config) && Valid()
    {
      var i := 0;
      while i < |pairs|
        invariant 0 <= i <= |pairs|
        invariant options == old(options) + AdoptAll(owner, PairOptions(pairs[..i], defaultEmoji))
        invariant initialOptions == old(initialOptions)
        invariant config == old(config) && Valid()
      {
        var e := pairs[i];
        var text := if e.key.Idx? then e.val else e.key.s;
        AddOption(NewOption(Some(text), Some(e.val), defaultEmoji), false);
        assert PairOptions(pairs[..i + 1], defaultEmoji) == PairOptions(pairs[..i], defaultEmoji) + [PairOption(e, defaultEmoji)];
        i := i + 1;
      }
      assert pairs[..i] == pairs;
    }

    /** `initialOption($text, $value)`: a new option, a child of this element, selected but not listed. */
    method AddInitialOption(text: string, value: string, defaultEmoji: Option<bool>)
      requires Valid()
      modifies this
      ensures initialOptions == old(initialOptions) + [Adopted(owner, NewOption(Some(text), Some(value), defaultEmoji))]
      ensures options == old(options)
      ensures config == old(config) && Valid()
    {
      var o := NewOption(Some(text), Some(value), defaultEmoji);
      initialOptions := initialOptions + [Adopted(owner, o)];
    }

    /** `initialOptions($options)`: `initialOption` for each entry, labelled as `options()` labels. */
    method AddInitialPairs(pairs: Dict<string>, defaultEmoji: Option<bool>)
      requires Valid()
      modifies this
      ensures initialOptions == old(initialOptions) + AdoptAll(owner, PairOptions(pairs, defaultEmoji))
      ensures options == old(options)
      ensures config == old(config) && Valid()
    {
      var i := 0;
      while i < |pairs|
        invariant 0 <= i <= |pairs|
        invariant initialOptions == old(initialOptions) + AdoptAll(owner, PairOptions(pairs[..i], defaultEmoji))
        invariant options == old(options)
        invariant config == old(config) && Valid()
      {
        var e := pairs[i];
        AddInitialOption(if e.key.Idx? then e.val else e.key.s, e.val, defaultEmoji);
        assert PairOptions(pairs[..i + 1], defaultEmoji) == PairOptions(pairs[..i], defaultEmoji) + [PairOption(e, defaultEmoji)];
        i := i + 1;
      }
      assert pairs[..i] == pairs;
    }

    /** `validateOptions`, fetching the policy as the source does. */
    method ValidateOptions() returns (r: Outcome)
      requires Valid()
      modifies this
      ensures r == OptionsVerdict(PolicyOf(owner), options, initialOptions)
      ensures options == old(options) && initialOptions == old(initialOptions)
      ensures config != null && Valid()
    {
      var c := Config();
      var min := IntOf(c.minOptions);
      if |options| == 0 || |options| < min {
        return Fail(TooFewOptions(min));
      }
      c := Config();
      if c.maxOptions.Some? && |options| > c.maxOptions.value {
        return Fail(TooManyOptions(c.maxOptions.value));
      }
      r := ValidateEach(options);
      if r.Fail? {
        return r;
      }
      r := ValidateInitialOptions();
    }

    /** `validateInitialOptions`. */
    method ValidateInitialOptions() returns (r: Outcome)
      requires Valid()
      modifies this
      ensures r == InitialVerdict(PolicyOf(owner), initialOptions)
      ensures options == old(options) && initialOptions == old(initialOptions)
      ensures config != null && Valid()
    {
      var c := Config();
      if c.maxInitialOptions.Some? && |initialOptions| > c.maxInitialOptions.value {
        return Fail(TooManyInitialOptions(c.maxInitialOptions.value));
      }
      r := ValidateEach(initialOptions);
    }

    /** `getOptionsAsArray`: ['options' => the list of serialised options]. */
    function OptionsArray(): (r: Result<Dict<Value>>)
      reads this
      ensures r == ListUnder("options", options)
    {
      ListUnder("options", options)
    }

    /** `getInitialOptionsAsArray`. */
    function InitialOptionsArray(): (r: Result<Dict<Value>>)
      reads this
      ensures r == InitialArray(PolicyOf(owner), initialOptions)
    {
      InitialArray(PolicyOf(owner), initialOptions)
    }

    /**
     * `hydrateOptions`: every listed option is added (and so adopted);
     * initial options, singular or plural, are appended as read, without
     * a parent.
     */
    method HydrateOptions(h: HydrationData) returns (r: Outcome)
      requires Valid()
      modifies this, h
      ensures config == old(config) && Valid()
      ensures r.Pass? <==> ReadOptionLists(h.data).Ok?
      ensures r.Fail? ==> r.error == ReadOptionLists(h.data).error
      ensures r.Pass? ==> options == old(options) + AdoptAll(owner, ReadOptionLists(h.data).value.options)
      ensures r.Pass? ==> initialOptions == old(initialOptions) + ReadOptionLists(h.data).value.initial
      ensures r.Pass? ==> h.consumed == old(h.consumed) + OptionListKeys(h.data)
    {
      var listed := UseListed(h);
      if listed.Err? {
        return Fail(listed.error);
      }
      AddOptions(listed.value);
      var initial := UseInitial(h);
      if initial.Err? {
        return Fail(initial.error);
      }
      assert ReadOptionLists(h.data) == Ok(OptionLists(listed.value, initial.value));
      initialOptions := initialOptions + initial.value;
      return Pass;
    }
  }

  /** The initial-option half of `hydrateOptions`. */
  method UseInitial(h: HydrationData) returns (r: Result<seq<OptionObject>>)
    modifies h
    ensures r == InitialUnder(h.data)
    ensures r.Ok? ==>
      h.consumed == old(h.consumed) + (KeyIfSet(h.data, "initial_option") + KeyIfSet(h.data, "initial_options"))
  {
    var single := UseSingle(h, "initial_option");
    if single.Err? {
      return Err(single.error);
    }
    var several := UseInitialList(h);
    if several.Err? {
      return Err(several.error);
    }
    return Ok(single.value + several.value);
  }

  /** `if ($data->has('options')) foreach ($data->useElements('options') as $o) ... Option::fromArray($o)`. */
  method UseListed(h: HydrationData) returns (r: Result<seq<OptionObject>>)
    modifies h
    ensures r == OptionsUnder(h.data, "options")
    ensures h.consumed == old(h.consumed) + KeyIfSet(h.data, "options")
  {
    if !h.Has("options") {
      return Ok([]);
    }
    var es :- h.UseElements(Some("options"));
    r := FromValues(Values(es));
  }

  /** `if ($data->has($key)) ... Option::fromArray($data->useElement($key))`. */
  method UseSingle(h: HydrationData, key: string) returns (r: Result<seq<OptionObject>>)
    modifies h
    ensures r == OptionUnder(h.data, key)
    ensures h.consumed == old(h.consumed) + KeyIfSet(h.data, key)
  {
    if !h.Has(key) {
      return Ok([]);
    }
    var e :- h.UseElement(key);
    var o :- Options.FromArray(e.value);
    return Ok([o]);
  }

  /** `if ($data->has('initial_options')) foreach ($data->useElement('initial_options') as $o) ...`. */
  method UseInitialList(h: HydrationData) returns (r: Result<seq<OptionObject>>)
    modifies h
    ensures r == OptionsUnder(h.data, "initial_options")
    ensures h.consumed == old(h.consumed) + KeyIfSet(h.data, "initial_options")
  {
    if !h.Has("initial_options") {
      return Ok([]);
    }
    var es :- h.UseElement("initial_options");
    r := FromValues(Values(es.value));
  }
}
