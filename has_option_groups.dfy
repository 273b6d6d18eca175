/**
 * Option lists that may be split into groups (src/Partials/HasOptionGroups.php):
 * an element holds either plain options or option groups, never both. The
 * groups themselves (src/Partials/OptionGroup.php) are outside this model;
 * each is a `Child` summary, and `OptionGroup::fromArray` is a parameter.
 */
module OptionGroups {
  import opened Classes
  import opened Outcomes
  import opened Wire
  import opened Hydration
  import opened Elements
  import opened Options
  import opened OptionsConfigs
  import opened OptionLists

  /**
   * `validateOptionGroups`: exactly one of the two lists must be non-empty;
   * then only the groups are validated, or else only the options.
   */
  function GroupsVerdict(p: Policy, options: seq<OptionObject>, initial: seq<OptionObject>, groups: seq<Child>): (r: Outcome)
    ensures (options == []) == (groups == []) ==> r == Fail(OptionsXorGroups)
    ensures options == [] && groups != [] ==> r == ChildrenVerdict(groups)
    ensures options != [] && groups == [] ==> r == OptionsVerdict(p, options, initial)
  {
    if (options == []) == (groups == []) then Fail(OptionsXorGroups)
    else if groups != [] then ChildrenVerdict(groups)
    else OptionsVerdict(p, options, initial)
  }

  /** A list that passes holds options or groups, but not both, and every group is valid. */
  lemma GroupsVerdictPasses(p: Policy, options: seq<OptionObject>, initial: seq<OptionObject>, groups: seq<Child>)
    requires GroupsVerdict(p, options, initial, groups).Pass?
    ensures (options != []) != (groups != [])
    ensures forall i :: 0 <= i < |groups| ==> groups[i].valid.Pass?
    ensures groups == [] ==> OptionsVerdict(p, options, initial).Pass?
  {
  }

  /**
   * `getOptionGroupsAsArray`: ['option_groups' => [...]] when there are
   * groups, otherwise the options under 'options'.
   */
  function GroupsArray(options: seq<OptionObject>, groups: seq<Child>): (r: Result<Dict<Value>>)
    ensures groups == [] ==> r == ListUnder("options", options)
    ensures groups != [] && r.Ok? ==>
      MapAll(groups, ChildValue).Ok? && r.value == [Entry(Name("option_groups"), Arr(List(MapAll(groups, ChildValue).value)))]
    ensures groups != [] ==> (r.Ok? <==> forall i :: 0 <= i < |groups| ==> groups[i].ToArray().Ok?)
  {
    if groups != [] then
      var vs :- MapAll(groups, ChildValue);
      Ok([Entry(Name("option_groups"), Arr(List(vs)))])
    else ListUnder("options", options)
  }

  /** The output names exactly one of the two lists: 'option_groups' when there are groups, else 'options'. */
  lemma GroupsArrayKey(options: seq<OptionObject>, groups: seq<Child>)
    requires GroupsArray(options, groups).Ok?
    ensures Keys(GroupsArray(options, groups).value) == if groups != [] then [Name("option_groups")] else [Name("options")]
  {
  }

  /** `OptionGroup::fromArray` on one element of the list; a scalar fails the `array` parameter. */
  function GroupFromValue(v: Value, fromArray: Dict<Value> -> Result<Child>): (r: Result<Child>)
    ensures !v.Arr? ==> r == Err(TypeError)
    ensures v.Arr? ==> r == fromArray(v.entries)
  {
    match v
    case Arr(es) => fromArray(es)
    case _ => Err(TypeError)
  }

  /** `GroupFromValue` with `fromArray` fixed, as one function value. */
  function GroupReader(fromArray: Dict<Value> -> Result<Child>): Value -> Result<Child>
  {
    v => GroupFromValue(v, fromArray)
  }

  /** The groups under 'option_groups' when the key is set, each through `OptionGroup::fromArray`. */
  function GroupsUnder(data: Dict<Value>, fromArray: Dict<Value> -> Result<Child>): (r: Result<seq<Child>>)
    ensures !IsSet(data, Name("option_groups")) ==> r == Ok([])
    ensures IsSet(data, Name("option_groups")) && !GetOr(data, Name("option_groups"), Null).Arr? ==> r == Err(TypeError)
    ensures IsSet(data, Name("option_groups")) && GetOr(data, Name("option_groups"), Null).Arr? ==>
      r == MapAll(Values(GetOr(data, Name("option_groups"), Null).entries), GroupReader(fromArray))
  {
    if !IsSet(data, Name("option_groups")) then Ok([])
    else match GetOr(data, Name("option_groups"), Null)
      case Arr(es) => MapAll(Values(es), GroupReader(fromArray))
      case _ => Err(TypeError)
  }

  /** What `hydrateOptionGroups` reads: the groups, then the option lists. */
  function GroupedRead(data: Dict<Value>, fromArray: Dict<Value> -> Result<Child>): (r: Result<(seq<Child>, OptionLists)>)
    ensures r.Ok? ==> GroupsUnder(data, fromArray) == Ok(r.value.0) && ReadOptionLists(data) == Ok(r.value.1)
    ensures GroupsUnder(data, fromArray).Err? ==> r == Err(GroupsUnder(data, fromArray).error)
  {
    var groups :- GroupsUnder(data, fromArray);
    var lists :- ReadOptionLists(data);
    Ok((groups, lists))
  }

  /** An element with option groups: its option list and its groups. */
  class GroupedOptions {
    const opts: OptionSet
    var groups: seq<Child>

    ghost predicate Valid()
      reads this, opts, opts.config
    {
      opts.Valid()
    }

    constructor(owner: Class)
      ensures Valid() && fresh(opts) && opts.owner == owner
      ensures opts.options == [] && opts.initialOptions == [] && groups == []
    {
      opts := new OptionSet(owner);
      groups := [];
    }

    /** `addOptionGroup`: the group is appended. */
    method AddOptionGroup(g: Child)
      modifies this
      ensures groups == old(groups) + [g]
    {
      groups := groups + [g];
    }

    /** `optionGroups`: each group is added, in order. */
    method AddOptionGroups(gs: seq<Child>)
      modifies this
      ensures groups == old(groups) + gs
    {
      var i := 0;
      while i < |gs|
        invariant 0 <= i <= |gs|
        invariant groups == old(groups) + gs[..i]
      {
        AddOptionGroup(gs[i]);
        assert gs[..i + 1] == gs[..i] + [gs[i]];
        i := i + 1;
      }
      assert gs[..i] == gs;
    }

    /** `validateOptionGroups`, with the groups checked one by one. */
    method ValidateOptionGroups() returns (r: Outcome)
      requires Valid()
      modifies opts
      ensures Valid() && opts.options == old(opts.options) && opts.initialOptions == old(opts.initialOptions)
      ensures r == GroupsVerdict(PolicyOf(opts.owner), opts.options, opts.initialOptions, groups)
    {
      if (opts.options == []) == (groups == []) {
        return Fail(OptionsXorGroups);
      }
      if groups != [] {
        r := ValidateChildren(groups);
        return;
      }
      r := opts.ValidateOptions();
    }

    /** `getOptionGroupsAsArray`. */
    function OptionGroupsArray(): (r: Result<Dict<Value>>)
      reads this, opts
      ensures r == GroupsArray(opts.options, groups)
    {
      GroupsArray(opts.options, groups)
    }

    /** `hydrateOptionGroups` on an element holding no options and no groups. */
    method HydrateOptionGroups(h: HydrationData, fromArray: Dict<Value> -> Result<Child>) returns (r: Outcome)
      requires Valid() && groups == [] && opts.options == [] && opts.initialOptions == []
      modifies this, opts, h
      ensures Valid()
      ensures r.Fail? ==> GroupedRead(h.data, fromArray) == Err(r.error)
      ensures r.Pass? ==> GroupedRead(h.data, fromArray).Ok? && groups == GroupedRead(h.data, fromArray).value.0
      ensures r.Pass? ==> opts.options == AdoptAll(opts.owner, GroupedRead(h.data, fromArray).value.1.options)
      ensures r.Pass? ==> opts.initialOptions == GroupedRead(h.data, fromArray).value.1.initial
      ensures r.Pass? ==> h.consumed == old(h.consumed) + KeyIfSet(h.data, "option_groups") + OptionListKeys(h.data)
    {
      var gs := UseGroups(h, fromArray);
      if gs.Err? {
        return Fail(gs.error);
      }
      AddOptionGroups(gs.value);
      assert groups == gs.value;
      r := opts.HydrateOptions(h);
    }
  }

  /** The group reads of `hydrateOptionGroups`, in order. */
  method UseGroups(h: HydrationData, fromArray: Dict<Value> -> Result<Child>) returns (r: Result<seq<Child>>)
    modifies h
    ensures r == GroupsUnder(h.data, fromArray)
    ensures h.consumed == old(h.consumed) + KeyIfSet(h.data, "option_groups")
  {
    if !h.Has("option_groups") {
      return Ok([]);
    }
    var es :- h.UseElements(Some("option_groups"));
    r := GroupsFromValues(Values(es), fromArray);
  }

  /** `foreach (...) OptionGroup::fromArray($group)`: the first failure stops the loop. */
  method GroupsFromValues(vs: seq<Value>, fromArray: Dict<Value> -> Result<Child>) returns (r: Result<seq<Child>>)
    ensures r == MapAll(vs, GroupReader(fromArray))
  {
    var read: seq<Child> := [];
    var i := 0;
    while i < |vs|
      invariant 0 <= i <= |vs|
      invariant MapAll(vs[..i], GroupReader(fromArray)) == Ok(read)
    {
      MapAllStep(vs, GroupReader(fromArray), i);
      var g := GroupFromValue(vs[i], fromArray);
      assert g == GroupReader(fromArray)(vs[i]);
      if g.Err? {
        MapAllStops(vs, GroupReader(fromArray), i + 1);
        return Err(g.error);
      }
      read := read + [g.value];
      i := i + 1;
    }
    assert vs[..i] == vs;
    return Ok(read);
  }
}
