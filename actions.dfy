/**
 * The actions block (src/Blocks/Actions.php): at most five interactive
 * elements, each of a kind from the action allow-list, with no action id
 * used twice among its input elements.
 */
module ActionBlocks {
  import opened Classes
  import opened Outcomes
  import opened Wire
  import opened Types
  import opened Elements
  import opened Ids

  const MAX_ACTIONS := 5

  /** The check of `add`: a tag from the allow-list, and room for one more. */
  function AddCheck(count: int, e: Child): (r: Outcome)
    ensures r.Pass? <==> e.Tag().Ok? && e.Tag().value in ACTION_ELEMENTS && count < MAX_ACTIONS
    ensures e.Tag().Ok? && e.Tag().value !in ACTION_ELEMENTS ==> r == Fail(InvalidActionElement(e.Tag().value))
    ensures e.Tag().Ok? && e.Tag().value in ACTION_ELEMENTS && count >= MAX_ACTIONS ==> r == Fail(TooManyActions(MAX_ACTIONS))
  {
    match e.Tag()
    case Err(err) => Fail(err)
    case Ok(t) =>
      if t !in ACTION_ELEMENTS then Fail(InvalidActionElement(t))
      else if count >= MAX_ACTIONS then Fail(TooManyActions(MAX_ACTIONS))
      else Pass
  }

  /** The ids `validate` collects: the non-null action ids of the input elements, in order. */
  function ActionIds(es: seq<Child>): (r: seq<string>)
    ensures forall x :: x in r <==> exists i :: 0 <= i < |es| && IsA(es[i].cls, InputElement) && es[i].actionId == Some(x)
    decreases |es|
  {
    if es == [] then []
    else
      var front, last := es[..|es| - 1], es[|es| - 1];
      assert forall i :: 0 <= i < |front| ==> front[i] == es[i];
      ActionIds(front) + (if IsA(last.cls, InputElement) && last.actionId.Some? then [last.actionId.value] else [])
  }

  /** `add`'s check, as a value: the constructor's `foreach` is stated for any check. */
  const ADD: (int, Child) -> Outcome := (count: int, e: Child) => AddCheck(count, e)

  /**
   * How many of `es` the `foreach` of the constructor gets through when
   * `count` elements are already held: `check` accepts them one by one
   * until the first refusal.
   */
  function Taken(check: (int, Child) -> Outcome, count: int, es: seq<Child>): (n: nat)
    ensures n <= |es|
    decreases |es|
  {
    if es == [] || check(count, es[0]).Fail? then 0 else 1 + Taken(check, count + 1, es[1..])
  }

  /**
   * The `foreach` of the constructor: the element list afterwards and the
   * outcome. What was added before the first refusal stays, and the refusal
   * is the outcome.
   */
  function AddedAll(check: (int, Child) -> Outcome, elements: seq<Child>, es: seq<Child>): (seq<Child>, Outcome) {
    var n := Taken(check, |elements|, es);
    (elements + es[..n], if n == |es| then Pass else check(|elements| + n, es[n]))
  }

  /** Past an accepted element, the `foreach` goes on with the rest. */
  lemma TakenStep(check: (int, Child) -> Outcome, count: int, es: seq<Child>)
    requires es != []
    ensures check(count, es[0]).Pass? ==> Taken(check, count, es) == 1 + Taken(check, count + 1, es[1..])
    ensures check(count, es[0]).Fail? ==> Taken(check, count, es) == 0
  {
  }

  /** After `i` turns of the constructor's `foreach`, `held` is what it has built. */
  ghost predicate Progress(check: (int, Child) -> Outcome, start: seq<Child>, es: seq<Child>, i: nat, held: seq<Child>) {
    i <= |es| && held == start + es[..i] && Taken(check, |start|, es) == i + Taken(check, |held|, es[i..])
  }

  /** One turn of the constructor's `foreach`, in terms of `AddedAll`. */
  lemma AddEachStep(check: (int, Child) -> Outcome, start: seq<Child>, es: seq<Child>, i: nat, held: seq<Child>)
    requires i < |es| && Progress(check, start, es, i, held)
    ensures check(|held|, es[i]).Pass? ==> Progress(check, start, es, i + 1, held + [es[i]])
    ensures check(|held|, es[i]).Fail? ==> AddedAll(check, start, es) == (held, check(|held|, es[i]))
  {
    assert es[i..][0] == es[i] && es[i..][1..] == es[i + 1..];
    TakenStep(check, |held|, es[i..]);
    assert es[..i + 1] == es[..i] + [es[i]];
  }

  /** The constructor's `foreach` before the first turn and after the last. */
  lemma AddEachEnds(check: (int, Child) -> Outcome, start: seq<Child>, es: seq<Child>, held: seq<Child>)
    ensures Progress(check, start, es, 0, start)
    ensures Progress(check, start, es, |es|, held) ==> AddedAll(check, start, es) == (held, Pass)
  {
    assert es[..0] == [] && es[0..] == es && start + [] == start;
    assert es[..|es|] == es;
  }

  /** The check refuses the element at which the constructor's `foreach` stops. */
  lemma {:induction false} TakenStops(check: (int, Child) -> Outcome, count: int, es: seq<Child>)
    requires Taken(check, count, es) < |es|
    ensures check(count + Taken(check, count, es), es[Taken(check, count, es)]).Fail?
    decreases |es|
  {
    if check(count, es[0]).Pass? {
      TakenStops(check, count + 1, es[1..]);
    }
  }

  /** An element of a kind the actions block allows. */
  predicate Allowed(e: Child) {
    e.Tag().Ok? && e.Tag().value in ACTION_ELEMENTS
  }

  /** `add` accepts an allowed element while fewer than five are held. */
  lemma AddAccepts(count: int, e: Child)
    ensures ADD(count, e).Pass? <==> Allowed(e) && count < MAX_ACTIONS
  {
    assert ADD(count, e) == AddCheck(count, e);
  }

  /**
   * With at most five elements held, the `foreach` of `add` gets through
   * the whole list exactly when every element is of an allowed kind and
   * all of them fit.
   */
  lemma {:induction false} TakenAll(count: int, es: seq<Child>)
    requires count <= MAX_ACTIONS
    ensures Taken(ADD, count, es) == |es| <==>
      count + |es| <= MAX_ACTIONS && forall i :: 0 <= i < |es| ==> Allowed(es[i])
    decreases |es|
  {
    if es != [] {
      AddAccepts(count, es[0]);
      if ADD(count, es[0]).Pass? {
        TakenAll(count + 1, es[1..]);
        assert forall i :: 1 <= i < |es| ==> es[i] == es[1..][i - 1];
      }
    }
  }

  /**
   * The constructor's `foreach` keeps the elements held and appends a
   * prefix of the list. It passes exactly when it gets through the whole
   * list, and then the whole list is appended; otherwise the outcome is the
   * check refusing the first element past that prefix.
   */
  lemma AddedAllMeaning(check: (int, Child) -> Outcome, elements: seq<Child>, es: seq<Child>)
    ensures var n := |AddedAll(check, elements, es).0| - |elements|;
      n == Taken(check, |elements|, es) && AddedAll(check, elements, es).0 == elements + es[..n]
    ensures AddedAll(check, elements, es).1.Pass? <==> Taken(check, |elements|, es) == |es|
    ensures AddedAll(check, elements, es).1.Pass? ==> AddedAll(check, elements, es).0 == elements + es
    ensures AddedAll(check, elements, es).1.Fail? ==>
      var n := Taken(check, |elements|, es);
      n < |es| && AddedAll(check, elements, es).1 == check(|elements| + n, es[n])
  {
    var n := Taken(check, |elements|, es);
    if n < |es| {
      TakenStops(check, |elements|, es);
    } else {
      assert es[..n] == es;
    }
  }

  /** `Actions::validate`. */
  function ActionsVerdict(es: seq<Child>): (r: Outcome)
    ensures es == [] ==> r == Fail(NoActionElements)
    ensures es != [] && ChildrenVerdict(es).Fail? ==> r == ChildrenVerdict(es)
    ensures es != [] && ChildrenVerdict(es).Pass? && Duplicates(ActionIds(es)) != [] ==>
      r == Fail(DuplicateActionIds(Duplicates(ActionIds(es))))
  {
    if es == [] then Fail(NoActionElements)
    else if ChildrenVerdict(es).Fail? then ChildrenVerdict(es)
    else if Duplicates(ActionIds(es)) != [] then Fail(DuplicateActionIds(Duplicates(ActionIds(es))))
    else Pass
  }

  /** A valid actions block is non-empty, every element is valid, and the collected action ids are distinct. */
  lemma ActionsPasses(es: seq<Child>)
    requires ActionsVerdict(es).Pass?
    ensures es != []
    ensures forall i :: 0 <= i < |es| ==> es[i].valid.Pass?
    ensures forall i, j :: 0 <= i < j < |ActionIds(es)| ==> ActionIds(es)[i] != ActionIds(es)[j]
  {
    NoDuplicatesIff(ActionIds(es));
  }

  /** The actions block's fields. */
  class ActionsBlock {
    const base: ElementBase
    var blockId: Option<string>
    var elements: seq<Child>

    /** At most five elements, each of an allowed kind. */
    ghost predicate Valid()
      reads this, base
    {
      base.cls == Actions && base.Valid() && |elements| <= MAX_ACTIONS &&
      forall i :: 0 <= i < |elements| ==> elements[i].Tag().Ok? && elements[i].Tag().value in ACTION_ELEMENTS
    }

    /** `new Actions($blockId)`: an empty id is not kept. */
    constructor(blockId: Option<string>)
      ensures elements == [] && this.blockId == (if blockId == Some("") then None else blockId)
      ensures fresh(base) && base.extra == []
      ensures Valid()
    {
      base := new ElementBase(Actions);
      this.blockId := if blockId == Some("") then None else blockId;
      elements := [];
    }

    /** `add`: appends an allowed element while there is room; otherwise nothing changes. */
    method Add(e: Child) returns (r: Outcome)
      requires Valid()
      modifies this
      ensures r == AddCheck(|old(elements)|, e)
      ensures r.Pass? ==> elements == old(elements) + [e]
      ensures r.Fail? ==> elements == old(elements)
      ensures blockId == old(blockId) && Valid()
    {
      r := AddCheck(|elements|, e);
      if r.Pass? {
        elements := elements + [e];
      }
    }

    /**
     * The `foreach` of `new Actions($blockId, $elements)`: `add` for each
     * element, stopping at the first refusal.
     */
    method AddEach(es: seq<Child>) returns (r: Outcome)
      requires Valid()
      modifies this
      ensures (elements, r) == AddedAll(ADD, old(elements), es)
      ensures blockId == old(blockId) && Valid()
    {
      r := Pass;
      var i := 0;
      AddEachEnds(ADD, elements, es, elements);
      while i < |es|
        invariant r.Pass? && Progress(ADD, old(elements), es, i, elements)
        invariant Valid() && blockId == old(blockId)
      {
        AddEachStep(ADD, old(elements), es, i, elements);
        assert ADD(|elements|, es[i]) == AddCheck(|elements|, es[i]);
        r := Add(es[i]);
        if r.Fail? {
          return;
        }
        i := i + 1;
      }
      AddEachEnds(ADD, old(elements), es, elements);
    }

    /** `validate`: each element in turn while the action ids are gathered, then duplicates. */
    method Validate() returns (r: Outcome)
      ensures r == ActionsVerdict(elements)
    {
      if elements == [] {
        return Fail(NoActionElements);
      }
      var ids: seq<string> := [];
      var i := 0;
      while i < |elements|
        invariant 0 <= i <= |elements|
        invariant ChildrenVerdict(elements) == ChildrenVerdict(elements[i..])
        invariant ids == ActionIds(elements[..i])
      {
        var e := elements[i];
        if e.valid.Fail? {
          return e.valid;
        }
        assert elements[i..][1..] == elements[i + 1..];
        assert elements[..i + 1][..i] == elements[..i];
        if IsA(e.cls, InputElement) && e.actionId.Some? {
          ids := ids + [e.actionId.value];
        }
        i := i + 1;
      }
      assert elements[..i] == elements;
      var dups := DuplicateIds(ids);
      if dups != [] {
        return Fail(DuplicateActionIds(dups));
      }
      return Pass;
    }

    /** `toArray`: the base output, 'block_id', then 'elements' in order. */
    function ToArray(): (r: Result<Dict<Value>>)
      reads this, base
      ensures ActionsVerdict(elements).Fail? ==> r == Err(ActionsVerdict(elements).error)
      ensures r.Ok? ==> MapAll(elements, ChildValue).Ok?
      ensures r.Ok? ==> Lookup(r.value, Name("elements")) == Some(Arr(List(MapAll(elements, ChildValue).value)))
    {
      var d :- BaseArray(Actions, ActionsVerdict(elements), base.extra);
      var vs :- MapAll(elements, ChildValue);
      var withId := WithBlockIdKey(d, blockId);
      PutLookup(withId, Name("elements"), Arr(List(vs)), Name("elements"));
      Ok(Put(withId, Name("elements"), Arr(List(vs))))
    }
  }
}
