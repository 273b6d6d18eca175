/**
 * Failure-compatible wrappers and the exceptions the builder throws. Every
 * `throw new Exception(...)` of the modelled code is one `Error` constructor,
 * carrying the parameters its message is formatted with; a PHP `TypeError`
 * (a scalar of the wrong type passed to a typed parameter under
 * `strict_types=1`, or a method called on null) is `TypeError`.
 */
module Outcomes {
  import opened Classes

  datatype Option<+T> = None | Some(value: T)

  datatype Result<+T> = Ok(value: T) | Err(error: Error) {
    predicate IsFailure() { Err? }
    function PropagateFailure<U>(): Result<U> requires Err? { Err(error) }
    function Extract(): T requires Ok? { value }
  }

  datatype Outcome = Pass | Fail(error: Error) {
    predicate IsFailure() { Fail? }
    function PropagateFailure(): Outcome requires Fail? { this }
  }

  /** `Pass` when c holds, otherwise `Fail(e)`. */
  function Need(c: bool, e: Error): (r: Outcome)
    ensures r.Pass? <==> c
  {
    if c then Pass else Fail(e)
  }

  /**
   * f applied to each element in order, stopping at the first failure (a
   * `foreach` whose body may throw).
   */
  function MapAll<A, T>(xs: seq<A>, f: A -> Result<T>): (r: Result<seq<T>>)
    ensures r.Ok? ==> |r.value| == |xs|
    ensures r.Ok? ==> forall i :: 0 <= i < |xs| ==> f(xs[i]) == Ok(r.value[i])
    ensures r.Ok? <==> forall i :: 0 <= i < |xs| ==> f(xs[i]).Ok?
    decreases |xs|
  {
    if xs == [] then Ok([])
    else
      var front := xs[..|xs| - 1];
      assert forall i :: 0 <= i < |front| ==> front[i] == xs[i];
      var init :- MapAll(front, f);
      var y :- f(xs[|xs| - 1]);
      Ok(init + [y])
  }

  /** A failure within a prefix is the failure of the whole sequence. */
  lemma {:induction false} MapAllStops<A, T>(xs: seq<A>, f: A -> Result<T>, n: nat)
    requires n <= |xs|
    requires MapAll(xs[..n], f).Err?
    ensures MapAll(xs, f) == MapAll(xs[..n], f)
    decreases |xs| - n
  {
    if n < |xs| {
      var front := xs[..|xs| - 1];
      assert front[..n] == xs[..n];
      MapAllStops(front, f, n);
    } else {
      assert xs[..n] == xs;
    }
  }

  /** Extending a prefix that maps by one element. */
  lemma MapAllStep<A, T>(xs: seq<A>, f: A -> Result<T>, n: nat)
    requires n < |xs| && MapAll(xs[..n], f).Ok?
    ensures f(xs[n]).Err? ==> MapAll(xs[..n + 1], f) == Err(f(xs[n]).error)
    ensures f(xs[n]).Ok? ==> MapAll(xs[..n + 1], f) == Ok(MapAll(xs[..n], f).value + [f(xs[n]).value])
  {
    assert xs[..n + 1][..n] == xs[..n];
  }

  datatype Error =
    // PHP runtime
    | TypeError
    | NullMethodCall
    | AbstractClass(cls: Class)
    // Type registry and hydration (Type.php, Element.php)
    | NoTypeForClass(cls: Class)
    | NoClassForType(tag: string)
    | ClassMismatch(resolved: Class, expected: Class)
    | TypeDoesNotMapToClass(tag: string, cls: Class)
    | VirtualBlockNotHydratable
    // Partials/Text.php
    | TextMissing
    | TextTooShort(min: int)
    | TextTooLong(max: int)
    // Partials/HasOptions.php, HasOptionGroups.php
    | TooFewOptions(min: int)
    | TooManyOptions(max: int)
    | TooManyInitialOptions(maxInitial: int)
    | OptionsXorGroups
    // Partials/Option.php
    | OptionTextMissing
    | OptionValueMissing
    | DescriptionNotAllowed
    | UrlNotAllowed
    // Partials/Confirm.php
    | ConfirmTitleMissing
    | ConfirmTextMissing
    | ConfirmConfirmMissing
    | ConfirmDenyMissing
    // Partials/Fields.php
    | TooManyFields
    | NoFields
    // Surfaces/Surface.php
    | BlockNotAllowed(blockTag: string, surfaceTag: string)
    | NoBlocks
    | TooManyBlocks(max: int)
    | DuplicateBlockIds(ids: seq<string>)
    // Blocks/Actions.php
    | InvalidActionElement(tag: string)
    | TooManyActions(max: int)
    | NoActionElements
    | DuplicateActionIds(ids: seq<string>)
    // Blocks/Section.php
    | AccessoryAlreadySet(tag: string)
    | InvalidAccessory(tag: string)
    | SectionEmpty
    // Surfaces/Message.php
    | InvalidDirectives
    | EmptyMessage
    // Surfaces/Modal.php
    | ModalTitleMissing
    | ModalSubmitMissing
    // Inputs/TextInput.php, Inputs/HasPlaceholder.php
    | MinLengthNegative
    | MaxLengthTooSmall
    | MinLengthTooLarge(max: int)
    | MaxNotAboveMin
    | PlaceholderTooLong
    // Partials/RichTextElements/RichTextList.php
    | InvalidListStyle(style: string)
    | NegativeIndent
    | NegativeBorder
    | ListStyleMissing
    | ListElementsMissing
    | ListElementTypeMissing
    | ListElementNotSection
    // Partials/RichTextElements/TextElements/Text.php
    | InvalidStyleKey(key: string)
    | StyleNotBoolean(key: string)
    | RichTextEmpty
    // Formatter.php
    | InvalidPrefix
    | InvalidItems
}
