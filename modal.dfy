/**
 * The modal surface (src/Surfaces/Modal.php) and the view fields it
 * inherits (src/Surfaces/View.php). A modal is a surface of blocks with a
 * plain-text title of at most 24 characters, optional submit and close
 * buttons, two close flags, and the view ids. Its blocks live in a
 * `SurfaceBody` it owns.
 */
module Modals {
  import opened Classes
  import opened Outcomes
  import opened Wire
  import opened Types
  import opened Elements
  import opened Texts
  import opened Surfaces

  const MAX_LENGTH_TITLE := 24

  /** The view ids: kept as given, written only when not `empty()`. */
  datatype ViewFields = ViewFields(callbackId: Option<string>, externalId: Option<string>, privateMetadata: Option<string>)

  /** The modal's own fields. */
  datatype ModalFields = ModalFields(
    title: Option<TextObject>,
    submit: Option<TextObject>,
    close: Option<TextObject>,
    clearOnClose: bool,
    notifyOnClose: bool)

  /**
   * The `foreach` of `validate` that looks for an input block, stopping at
   * the first one; `getType()` fails on a block whose class has no tag.
   */
  function InputScan(bs: seq<Child>): (r: Result<bool>)
    ensures r.Err? ==> exists i :: 0 <= i < |bs| && bs[i].Tag() == Err(r.error)
    ensures r == Ok(true) ==> exists i :: 0 <= i < |bs| && bs[i].Tag() == Ok(INPUT)
    ensures r == Ok(false) ==> forall i :: 0 <= i < |bs| ==> bs[i].Tag().Ok? && bs[i].Tag().value != INPUT
    ensures (forall i :: 0 <= i < |bs| ==> bs[i].Tag().Ok?) ==> r.Ok?
    decreases |bs|
  {
    if bs == [] then Ok(false)
    else
      assert forall i :: 1 <= i < |bs| ==> bs[1..][i - 1] == bs[i];
      match bs[0].Tag()
      case Err(e) => Err(e)
      case Ok(t) => if t == INPUT then Ok(true) else InputScan(bs[1..])
  }

  /**
   * `Modal::validate`: the surface checks, then a title of 1 to 24
   * characters, then a submit button whenever some block is an input block.
   */
  function ModalVerdict(bs: seq<Child>, title: Option<TextObject>, submit: Option<TextObject>): (r: Outcome)
    ensures SurfaceVerdict(bs).Fail? ==> r == SurfaceVerdict(bs)
    ensures SurfaceVerdict(bs).Pass? && title.None? ==> r == Fail(ModalTitleMissing)
    ensures r.Pass? <==> (SurfaceVerdict(bs).Pass? && title.Some? &&
                          title.value.ValidateWithLength(Some(MAX_LENGTH_TITLE), 1).Pass? &&
                          InputScan(bs).Ok? && (InputScan(bs).value ==> submit.Some?))
  {
    if SurfaceVerdict(bs).Fail? then SurfaceVerdict(bs)
    else if title.None? then Fail(ModalTitleMissing)
    else if title.value.ValidateWithLength(Some(MAX_LENGTH_TITLE), 1).Fail? then
      title.value.ValidateWithLength(Some(MAX_LENGTH_TITLE), 1)
    else
      match InputScan(bs)
      case Err(e) => Fail(e)
      case Ok(hasInputs) => if hasInputs && submit.None? then Fail(ModalSubmitMissing) else Pass
  }

  /**
   * A valid modal has 1 to 49 blocks with distinct block ids, a title of 1
   * to 24 characters, and a submit button if any of its blocks is an input.
   */
  lemma ModalPasses(bs: seq<Child>, title: Option<TextObject>, submit: Option<TextObject>)
    requires ModalVerdict(bs, title, submit).Pass?
    ensures 1 <= |bs| < MAX_BLOCKS
    ensures forall i, j :: 0 <= i < j < |bs| && bs[i].blockId.Some? ==> bs[i].blockId != bs[j].blockId
    ensures title.Some? && title.value.text.Some? && 1 <= |title.value.text.value| <= MAX_LENGTH_TITLE
    ensures (exists i :: 0 <= i < |bs| && bs[i].Tag() == Ok(INPUT)) ==> submit.Some?
  {
    SurfacePasses(bs);
    if exists i :: 0 <= i < |bs| && bs[i].Tag() == Ok(INPUT) {
      var i :| 0 <= i < |bs| && bs[i].Tag() == Ok(INPUT);
      assert InputScan(bs) != Ok(false);
    }
  }

  /** Blocks that pass the surface checks under a good title, one of them an input, and no submit: refused. */
  lemma SubmitRequired(bs: seq<Child>, title: TextObject, i: int)
    requires SurfaceVerdict(bs).Pass? && title.ValidateWithLength(Some(MAX_LENGTH_TITLE), 1).Pass?
    requires forall j :: 0 <= j < |bs| ==> bs[j].Tag().Ok?
    requires 0 <= i < |bs| && bs[i].Tag() == Ok(INPUT)
    ensures ModalVerdict(bs, Some(title), None) == Fail(ModalSubmitMissing)
  {
    assert InputScan(bs) != Ok(false);
  }

  /** A view id as a value (only written when it is not `empty()`, so never null). */
  function IdValue(id: Option<string>): Value {
    if id.Some? then Str(id.value) else Null
  }

  /** The keys `View::toArray` writes before the surface's output. */
  function ViewPart(v: ViewFields): Dict<Value> {
    PutIf(PutIf(PutIf([], !EmptyString(v.callbackId), "callback_id", IdValue(v.callbackId)),
                !EmptyString(v.externalId), "external_id", IdValue(v.externalId)),
          !EmptyString(v.privateMetadata), "private_metadata", IdValue(v.privateMetadata))
  }

  /**
   * The keys `Modal::toArray` writes itself: the title first (a missing
   * title is a method call on null), then submit and close when set, and
   * the two flags only when true.
   */
  function ModalPart(m: ModalFields): (r: Result<Dict<Value>>)
    ensures m.title.None? ==> r == Err(NullMethodCall)
    ensures r.Ok? ==> m.title.Some? && m.title.value.ToArray().Ok?
  {
    if m.title.None? then Err(NullMethodCall)
    else
      var t :- TextValue(m.title.value);
      var withSubmit :- PutPart([Entry(Name("title"), t)], "submit", TextPart(m.submit));
      var withClose :- PutPart(withSubmit, "close", TextPart(m.close));
      Ok(PutIf(PutIf(withClose, m.clearOnClose, "clear_on_close", Bool(true)),
               m.notifyOnClose, "notify_on_close", Bool(true)))
  }

  /**
   * `Modal::toArray`: the modal's keys, then the view ids, then the
   * surface's own output (validated by `Modal::validate`), each part
   * counting only for keys the parts before it do not have.
   */
  function ModalArray(m: ModalFields, v: ViewFields, surface: Result<Dict<Value>>): (r: Result<Dict<Value>>)
    ensures m.title.None? ==> r == Err(NullMethodCall)
    ensures r.Ok? ==> surface.Ok? && ModalPart(m).Ok?
  {
    var d :- ModalPart(m);
    var s :- surface;
    Ok(Union(d, Union(ViewPart(v), s)))
  }

  /** The keys `Modal::toArray` and `View::toArray` may write. */
  function ModalKeys(): set<Key> {
    {Name("title"), Name("submit"), Name("close"), Name("clear_on_close"), Name("notify_on_close")}
  }

  function ViewKeys(): set<Key> {
    {Name("callback_id"), Name("external_id"), Name("private_metadata")}
  }

  /** The modal's keys are five different keys. */
  lemma ModalKeysDiffer()
    ensures Name("title") != Name("submit") && Name("title") != Name("close") && Name("submit") != Name("close")
    ensures Name("clear_on_close") !in {Name("title"), Name("submit"), Name("close")}
    ensures Name("notify_on_close") !in {Name("title"), Name("submit"), Name("close"), Name("clear_on_close")}
  {
    assert "title"[0] != "submit"[0] && "title"[0] != "close"[0] && "submit"[0] != "close"[0];
    assert "clear_on_close"[0] != "title"[0] && "clear_on_close"[0] != "submit"[0] && "clear_on_close"[2] != "close"[2];
    assert "notify_on_close"[0] != "title"[0] && "notify_on_close"[0] != "submit"[0];
    assert "notify_on_close"[0] != "close"[0] && "notify_on_close"[0] != "clear_on_close"[0];
  }

  /** The view's keys are three different keys, none of them a modal key. */
  lemma ViewKeysDiffer()
    ensures Name("callback_id") != Name("external_id") && Name("callback_id") != Name("private_metadata")
    ensures Name("external_id") != Name("private_metadata")
    ensures forall k :: k in ViewKeys() ==> k !in ModalKeys()
  {
    assert "callback_id"[1] != "title"[1] && "callback_id"[1] != "submit"[1] && "callback_id"[1] != "close"[1];
    assert "callback_id"[1] != "clear_on_close"[1] && "callback_id"[1] != "notify_on_close"[1];
    assert "callback_id"[0] != "external_id"[0] && "callback_id"[0] != "private_metadata"[0];
    assert "external_id"[0] != "private_metadata"[0];
    assert "external_id"[0] != "title"[0] && "external_id"[0] != "submit"[0] && "external_id"[0] != "close"[0];
    assert "external_id"[0] != "clear_on_close"[0] && "external_id"[0] != "notify_on_close"[0];
    assert "private_metadata"[0] != "title"[0] && "private_metadata"[0] != "submit"[0];
    assert "private_metadata"[0] != "close"[0] && "private_metadata"[0] != "clear_on_close"[0];
    assert "private_metadata"[0] != "notify_on_close"[0];
  }

  /** 'blocks' is neither a modal key nor a view key. */
  lemma BlocksKeyApart()
    ensures Name("blocks") !in ModalKeys() && Name("blocks") !in ViewKeys()
  {
    assert "blocks"[0] != "callback_id"[0] && "blocks"[0] != "external_id"[0] && "blocks"[0] != "private_metadata"[0];
    assert "blocks"[0] != "title"[0] && "blocks"[0] != "submit"[0] && "blocks"[0] != "close"[0];
    assert "blocks"[0] != "clear_on_close"[0] && "blocks"[0] != "notify_on_close"[0];
  }

  /** The value a set text part is written as, or None when the part is absent. */
  function TextAt(t: Option<TextObject>): Option<Value>
    requires t.Some? ==> t.value.ToArray().Ok?
  {
    if t.Some? then Some(Arr(t.value.ToArray().value)) else None
  }

  /** The intermediate arrays of `ModalPart`, the title's array first. */
  function ModalSteps(m: ModalFields): (r: seq<Dict<Value>>)
    requires ModalPart(m).Ok?
    ensures |r| == 5 && r[4] == ModalPart(m).value
  {
    var d0 := [Entry(Name("title"), TextValue(m.title.value).value)];
    var d1 := PutPart(d0, "submit", TextPart(m.submit)).value;
    var d2 := PutPart(d1, "close", TextPart(m.close)).value;
    var d3 := PutIf(d2, m.clearOnClose, "clear_on_close", Bool(true));
    [d0, d1, d2, d3, PutIf(d3, m.notifyOnClose, "notify_on_close", Bool(true))]
  }

  /** The first two steps of `ModalPart` write submit and close, when set. */
  lemma ModalFrontLookup(m: ModalFields, k: Key)
    requires ModalPart(m).Ok?
    ensures Lookup(ModalSteps(m)[2], k) ==
      if m.close.Some? && k == Name("close") then Some(TextValue(m.close.value).value)
      else if m.submit.Some? && k == Name("submit") then Some(TextValue(m.submit.value).value)
      else Lookup(ModalSteps(m)[0], k)
  {
    var ds := ModalSteps(m);
    PutPartLookup(ds[0], "submit", TextPart(m.submit), k);
    PutPartLookup(ds[1], "close", TextPart(m.close), k);
  }

  /** The first two steps of `ModalPart` add the keys submit and close, when set. */
  lemma ModalFrontHasKey(m: ModalFields, k: Key)
    requires ModalPart(m).Ok?
    ensures HasKey(ModalSteps(m)[2], k) <==>
      (m.close.Some? && k == Name("close")) || (m.submit.Some? && k == Name("submit")) || HasKey(ModalSteps(m)[0], k)
  {
    var ds := ModalSteps(m);
    PutPartLookup(ds[0], "submit", TextPart(m.submit), k);
    PutPartLookup(ds[1], "close", TextPart(m.close), k);
  }

  /** The last two steps of `ModalPart` write the flags, when true. */
  lemma ModalBackLookup(m: ModalFields, k: Key)
    requires ModalPart(m).Ok?
    ensures Lookup(ModalPart(m).value, k) ==
      if m.notifyOnClose && k == Name("notify_on_close") then Some(Bool(true))
      else if m.clearOnClose && k == Name("clear_on_close") then Some(Bool(true))
      else Lookup(ModalSteps(m)[2], k)
  {
    var ds := ModalSteps(m);
    PutIfLookup(ds[2], m.clearOnClose, "clear_on_close", Bool(true), k);
    PutIfLookup(ds[3], m.notifyOnClose, "notify_on_close", Bool(true), k);
  }

  /** The last two steps of `ModalPart` add the flags' keys, when true. */
  lemma ModalBackHasKey(m: ModalFields, k: Key)
    requires ModalPart(m).Ok?
    ensures HasKey(ModalPart(m).value, k) <==>
      (m.notifyOnClose && k == Name("notify_on_close")) || (m.clearOnClose && k == Name("clear_on_close")) ||
      HasKey(ModalSteps(m)[2], k)
  {
    var ds := ModalSteps(m);
    PutIfLookup(ds[2], m.clearOnClose, "clear_on_close", Bool(true), k);
    PutIfLookup(ds[3], m.notifyOnClose, "notify_on_close", Bool(true), k);
  }

  /** How a key's lookup passes through the steps of `ModalPart`. */
  lemma ModalStepsLookup(m: ModalFields, k: Key)
    requires ModalPart(m).Ok?
    ensures Lookup(ModalPart(m).value, k) ==
      if m.notifyOnClose && k == Name("notify_on_close") then Some(Bool(true))
      else if m.clearOnClose && k == Name("clear_on_close") then Some(Bool(true))
      else if m.close.Some? && k == Name("close") then Some(TextValue(m.close.value).value)
      else if m.submit.Some? && k == Name("submit") then Some(TextValue(m.submit.value).value)
      else Lookup(ModalSteps(m)[0], k)
  {
    ModalFrontLookup(m, k);
    ModalBackLookup(m, k);
  }

  /** Which keys the steps of `ModalPart` add. */
  lemma ModalStepsHasKey(m: ModalFields, k: Key)
    requires ModalPart(m).Ok?
    ensures HasKey(ModalPart(m).value, k) <==>
      ((m.notifyOnClose && k == Name("notify_on_close")) || (m.clearOnClose && k == Name("clear_on_close")) ||
       (m.close.Some? && k == Name("close")) || (m.submit.Some? && k == Name("submit")) || HasKey(ModalSteps(m)[0], k))
  {
    ModalFrontHasKey(m, k);
    ModalBackHasKey(m, k);
  }

  /**
   * What the modal part holds: the title; submit and close exactly when
   * set; each flag exactly when true; and no other key.
   */
  lemma ModalPartShape(m: ModalFields)
    requires ModalPart(m).Ok?
    ensures m.submit.Some? ==> m.submit.value.ToArray().Ok?
    ensures m.close.Some? ==> m.close.value.ToArray().Ok?
    ensures Lookup(ModalPart(m).value, Name("title")) == Some(Arr(m.title.value.ToArray().value))
    ensures Lookup(ModalPart(m).value, Name("submit")) == TextAt(m.submit)
    ensures Lookup(ModalPart(m).value, Name("close")) == TextAt(m.close)
    ensures Lookup(ModalPart(m).value, Name("clear_on_close")) == if m.clearOnClose then Some(Bool(true)) else None
    ensures Lookup(ModalPart(m).value, Name("notify_on_close")) == if m.notifyOnClose then Some(Bool(true)) else None
    ensures forall k :: k !in ModalKeys() ==> !HasKey(ModalPart(m).value, k)
  {
    ModalKeysDiffer();
    var d0 := ModalSteps(m)[0];
    assert Keys(d0) == [Name("title")];
    ModalStepsLookup(m, Name("title"));
    ModalStepsLookup(m, Name("submit"));
    ModalStepsLookup(m, Name("close"));
    ModalStepsLookup(m, Name("clear_on_close"));
    ModalStepsLookup(m, Name("notify_on_close"));
    ModalPartOnly(m);
  }

  /** The modal part writes no key but its own. */
  lemma ModalPartOnly(m: ModalFields)
    requires ModalPart(m).Ok?
    ensures forall k :: k !in ModalKeys() ==> !HasKey(ModalPart(m).value, k)
  {
    assert Keys(ModalSteps(m)[0]) == [Name("title")];
    forall k | k !in ModalKeys()
      ensures !HasKey(ModalPart(m).value, k)
    {
      ModalStepsHasKey(m, k);
    }
  }

  /** The value a view id is written as when it is not `empty()`. */
  function IdAt(id: Option<string>): Option<Value> {
    if EmptyString(id) then None else Some(Str(id.value))
  }

  /** Looking up a key in three conditional writes into an empty array. */
  lemma ThreeWritesLookup(c1: bool, k1: string, v1: Value, c2: bool, k2: string, v2: Value,
                          c3: bool, k3: string, v3: Value, k: Key)
    ensures Lookup(PutIf(PutIf(PutIf([], c1, k1, v1), c2, k2, v2), c3, k3, v3), k) ==
      if c3 && k == Name(k3) then Some(v3) else if c2 && k == Name(k2) then Some(v2)
      else if c1 && k == Name(k1) then Some(v1) else None
  {
    PutIfLookup([], c1, k1, v1, k);
    PutIfLookup(PutIf([], c1, k1, v1), c2, k2, v2, k);
    PutIfLookup(PutIf(PutIf([], c1, k1, v1), c2, k2, v2), c3, k3, v3, k);
  }

  /** What the view part holds: each id exactly when it is not `empty()`, and no other key. */
  lemma ViewPartShape(v: ViewFields)
    ensures Lookup(ViewPart(v), Name("callback_id")) == IdAt(v.callbackId)
    ensures Lookup(ViewPart(v), Name("external_id")) == IdAt(v.externalId)
    ensures Lookup(ViewPart(v), Name("private_metadata")) == IdAt(v.privateMetadata)
    ensures forall k :: k !in ViewKeys() ==> !HasKey(ViewPart(v), k)
  {
    ViewKeysDiffer();
    var c1, c2, c3 := !EmptyString(v.callbackId), !EmptyString(v.externalId), !EmptyString(v.privateMetadata);
    var v1, v2, v3 := IdValue(v.callbackId), IdValue(v.externalId), IdValue(v.privateMetadata);
    ThreeWritesLookup(c1, "callback_id", v1, c2, "external_id", v2, c3, "private_metadata", v3, Name("callback_id"));
    ThreeWritesLookup(c1, "callback_id", v1, c2, "external_id", v2, c3, "private_metadata", v3, Name("external_id"));
    ThreeWritesLookup(c1, "callback_id", v1, c2, "external_id", v2, c3, "private_metadata", v3, Name("private_metadata"));
    ViewPartOnly(v);
  }

  /** The view part writes no key but its own. */
  lemma ViewPartOnly(v: ViewFields)
    ensures forall k :: k !in ViewKeys() ==> !HasKey(ViewPart(v), k)
  {
    forall k | k !in ViewKeys()
      ensures !HasKey(ViewPart(v), k)
    {
      ThreeWritesLookup(!EmptyString(v.callbackId), "callback_id", IdValue(v.callbackId),
                        !EmptyString(v.externalId), "external_id", IdValue(v.externalId),
                        !EmptyString(v.privateMetadata), "private_metadata", IdValue(v.privateMetadata), k);
    }
  }

  /** Looking up a key in `$modal + ($view + $surface)`. */
  lemma LayeredLookup(d: Dict<Value>, w: Dict<Value>, s: Dict<Value>, k: Key)
    ensures Lookup(Union(d, Union(w, s)), k) ==
      if HasKey(d, k) then Lookup(d, k) else if HasKey(w, k) then Lookup(w, k) else Lookup(s, k)
  {
    UnionLookup(d, Union(w, s), k);
    UnionLookup(w, s, k);
  }

  /**
   * A serialised modal carries its title, its submit and close when set,
   * each flag when true and each view id when not `empty()`; a key the
   * modal or the view leaves out keeps the surface's value; every other
   * key is the surface's.
   */
  lemma ModalArrayParts(m: ModalFields, v: ViewFields, surface: Result<Dict<Value>>)
    requires ModalArray(m, v, surface).Ok?
    ensures m.title.Some? && m.title.value.ToArray().Ok?
    ensures Lookup(ModalArray(m, v, surface).value, Name("title")) == Some(Arr(m.title.value.ToArray().value))
    ensures m.submit.Some? ==> (m.submit.value.ToArray().Ok? &&
      Lookup(ModalArray(m, v, surface).value, Name("submit")) == Some(Arr(m.submit.value.ToArray().value)))
    ensures m.submit.None? ==> Lookup(ModalArray(m, v, surface).value, Name("submit")) == Lookup(surface.value, Name("submit"))
    ensures m.close.Some? ==> (m.close.value.ToArray().Ok? &&
      Lookup(ModalArray(m, v, surface).value, Name("close")) == Some(Arr(m.close.value.ToArray().value)))
    ensures m.close.None? ==> Lookup(ModalArray(m, v, surface).value, Name("close")) == Lookup(surface.value, Name("close"))
    ensures Lookup(ModalArray(m, v, surface).value, Name("clear_on_close")) ==
      if m.clearOnClose then Some(Bool(true)) else Lookup(surface.value, Name("clear_on_close"))
    ensures Lookup(ModalArray(m, v, surface).value, Name("notify_on_close")) ==
      if m.notifyOnClose then Some(Bool(true)) else Lookup(surface.value, Name("notify_on_close"))
    ensures Lookup(ModalArray(m, v, surface).value, Name("callback_id")) ==
      if EmptyString(v.callbackId) then Lookup(surface.value, Name("callback_id")) else Some(Str(v.callbackId.value))
    ensures Lookup(ModalArray(m, v, surface).value, Name("external_id")) ==
      if EmptyString(v.externalId) then Lookup(surface.value, Name("external_id")) else Some(Str(v.externalId.value))
    ensures Lookup(ModalArray(m, v, surface).value, Name("private_metadata")) ==
      if EmptyString(v.privateMetadata) then Lookup(surface.value, Name("private_metadata"))
      else Some(Str(v.privateMetadata.value))
    ensures forall k :: k !in ModalKeys() && k !in ViewKeys() ==>
      Lookup(ModalArray(m, v, surface).value, k) == Lookup(surface.value, k)
  {
    var d := ModalPart(m).value;
    ModalPartShape(m);
    ViewPartShape(v);
    ViewKeysDiffer();
    forall k
      ensures Lookup(ModalArray(m, v, surface).value, k) ==
        if HasKey(d, k) then Lookup(d, k) else if HasKey(ViewPart(v), k) then Lookup(ViewPart(v), k) else Lookup(surface.value, k)
    {
      LayeredLookup(d, ViewPart(v), surface.value, k);
    }
  }

  /**
   * A modal serialises only when it validates, and its 'blocks' are its
   * blocks' arrays in order.
   */
  lemma ModalArrayBlocks(m: ModalFields, v: ViewFields, extra: Extras, bs: seq<Child>)
    requires ModalArray(m, v, SurfaceArray(Modal, ModalVerdict(bs, m.title, m.submit), extra, bs)).Ok?
    ensures ModalVerdict(bs, m.title, m.submit).Pass?
    ensures MapAll(bs, ChildValue).Ok?
    ensures Lookup(ModalArray(m, v, SurfaceArray(Modal, ModalVerdict(bs, m.title, m.submit), extra, bs)).value, Name("blocks")) ==
      Some(Arr(List(MapAll(bs, ChildValue).value)))
  {
    var sa := SurfaceArray(Modal, ModalVerdict(bs, m.title, m.submit), extra, bs);
    BlocksKeyApart();
    ModalPartOnly(m);
    ViewPartOnly(v);
    LayeredLookup(ModalPart(m).value, ViewPart(v), sa.value, Name("blocks"));
  }

  /** The input-block `foreach` of `validate`, with its early `break`. */
  method ContainsInput(bs: seq<Child>) returns (r: Result<bool>)
    ensures r == InputScan(bs)
  {
    var hasInputs := false;
    var i := 0;
    while i < |bs|
      invariant 0 <= i <= |bs|
      invariant !hasInputs
      invariant InputScan(bs) == InputScan(bs[i..])
    {
      assert bs[i..][1..] == bs[i + 1..];
      var t := bs[i].Tag();
      if t.Err? {
        return Err(t.error);
      }
      if t.value == INPUT {
        hasInputs := true;
        break;
      }
      i := i + 1;
    }
    return Ok(hasInputs);
  }

  /** A modal: its blocks (a surface it owns), its own fields and the view ids. */
  class ModalView {
    const surface: SurfaceBody
    var title: Option<TextObject>
    var submit: Option<TextObject>
    var close: Option<TextObject>
    var clearOnClose: bool
    var notifyOnClose: bool
    var callbackId: Option<string>
    var externalId: Option<string>
    var privateMetadata: Option<string>

    ghost predicate Valid()
      reads this, surface, surface.base
    {
      surface.cls == Modal && surface.Valid()
    }

    /** `new Modal()`: no blocks, no title or buttons, both flags off, no ids. */
    constructor()
      ensures fresh(surface) && fresh(surface.base) && surface.held == [] && surface.base.extra == []
      ensures Fields() == ModalFields(None, None, None, false, false)
      ensures View() == ViewFields(None, None, None)
      ensures Valid()
    {
      surface := new SurfaceBody(Modal);
      title, submit, close := None, None, None;
      clearOnClose, notifyOnClose := false, false;
      callbackId, externalId, privateMetadata := None, None, None;
    }

    function Fields(): ModalFields
      reads this
    {
      ModalFields(title, submit, close, clearOnClose, notifyOnClose)
    }

    function View(): ViewFields
      reads this
    {
      ViewFields(callbackId, externalId, privateMetadata)
    }

    /** `setTitle`: only the title changes. */
    method SetTitle(t: TextObject)
      modifies this
      ensures Fields() == old(Fields()).(title := Some(t)) && View() == old(View())
    {
      title := Some(t);
    }

    /** `setSubmit`: only the submit button changes. */
    method SetSubmit(t: TextObject)
      modifies this
      ensures Fields() == old(Fields()).(submit := Some(t)) && View() == old(View())
    {
      submit := Some(t);
    }

    /** `setClose`: only the close button changes. */
    method SetClose(t: TextObject)
      modifies this
      ensures Fields() == old(Fields()).(close := Some(t)) && View() == old(View())
    {
      close := Some(t);
    }

    /** `title(string)`: a plain text with the configured emoji default. */
    method Title(text: string, defaultEmoji: Option<bool>)
      modifies this
      ensures Fields() == old(Fields()).(title := Some(NewPlain(Some(text), None, defaultEmoji))) && View() == old(View())
    {
      SetTitle(NewPlain(Some(text), None, defaultEmoji));
    }

    /** `submit(string)`. */
    method Submit(text: string, defaultEmoji: Option<bool>)
      modifies this
      ensures Fields() == old(Fields()).(submit := Some(NewPlain(Some(text), None, defaultEmoji))) && View() == old(View())
    {
      SetSubmit(NewPlain(Some(text), None, defaultEmoji));
    }

    /** `close(string)`. */
    method Close(text: string, defaultEmoji: Option<bool>)
      modifies this
      ensures Fields() == old(Fields()).(close := Some(NewPlain(Some(text), None, defaultEmoji))) && View() == old(View())
    {
      SetClose(NewPlain(Some(text), None, defaultEmoji));
    }

    /** `clearOnClose`. */
    method ClearOnClose(b: bool)
      modifies this
      ensures Fields() == old(Fields()).(clearOnClose := b) && View() == old(View())
    {
      clearOnClose := b;
    }

    /** `notifyOnClose`. */
    method NotifyOnClose(b: bool)
      modifies this
      ensures Fields() == old(Fields()).(notifyOnClose := b) && View() == old(View())
    {
      notifyOnClose := b;
    }

    /** `callbackId`. */
    method CallbackId(id: string)
      modifies this
      ensures View() == old(View()).(callbackId := Some(id)) && Fields() == old(Fields())
    {
      callbackId := Some(id);
    }

    /** `externalId`. */
    method ExternalId(id: string)
      modifies this
      ensures View() == old(View()).(externalId := Some(id)) && Fields() == old(Fields())
    {
      externalId := Some(id);
    }

    /** `privateMetadata`. */
    method PrivateMetadata(data: string)
      modifies this
      ensures View() == old(View()).(privateMetadata := Some(data)) && Fields() == old(Fields())
    {
      privateMetadata := Some(data);
    }

    /** `validate`: the surface's checks, the title, then the input scan over the blocks. */
    method Validate() returns (r: Outcome)
      ensures r == ModalVerdict(Flatten(surface.held), title, submit)
    {
      r := surface.Validate();
      if r.Fail? {
        return;
      }
      if title.None? {
        return Fail(ModalTitleMissing);
      }
      r := title.value.ValidateWithLength(Some(MAX_LENGTH_TITLE), 1);
      if r.Fail? {
        return;
      }
      var bs := surface.GetBlocks();
      var hasInputs := ContainsInput(bs);
      if hasInputs.Err? {
        return Fail(hasInputs.error);
      }
      if hasInputs.value && submit.None? {
        return Fail(ModalSubmitMissing);
      }
      return Pass;
    }

    /** `toArray`, with the surface part validated by `Modal::validate`. */
    function ToArray(): (r: Result<Dict<Value>>)
      reads this, surface, surface.base
      ensures r.Ok? ==> ModalVerdict(Flatten(surface.held), title, submit).Pass?
    {
      var bs := Flatten(surface.held);
      var out := ModalArray(Fields(), View(), SurfaceArray(Modal, ModalVerdict(bs, title, submit), surface.base.extra, bs));
      if out.Ok? then ModalArrayBlocks(Fields(), View(), surface.base.extra, bs); out else out
    }
  }
}
