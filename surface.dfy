/**
 * Surfaces (src/Surfaces/Surface.php): the top-level containers of blocks.
 * A surface accepts only the block kinds its tag allows, shows virtual
 * blocks as their sub-blocks, and validates that it has between 1 and 49
 * blocks, each valid, with no block id used twice.
 */
module Surfaces {
  import opened Classes
  import opened Outcomes
  import opened Wire
  import opened Types
  import opened Elements
  import opened Ids

  const MAX_BLOCKS := 50

  /** A block as a surface holds it: an ordinary block, or a virtual block with its sub-blocks. */
  datatype Held = Single(block: Child) | Virtual(cls: Class, blocks: seq<Child>)
  {
    /** `getType()` of the held block. */
    function Tag(): Result<string> {
      MapClass(if Single? then block.cls else cls)
    }

    /** What `getBlocks` puts in its place. */
    function Expanded(): seq<Child> {
      if Single? then [block] else blocks
    }
  }

  /**
   * `getBlocks`: every virtual block replaced by its sub-blocks, order kept;
   * a block comes out exactly when some held entry expands to it.
   */
  function Flatten(hs: seq<Held>): (r: seq<Child>)
    ensures forall c :: c in r <==> exists i :: 0 <= i < |hs| && c in hs[i].Expanded()
    decreases |hs|
  {
    if hs == [] then [] else Flatten(hs[..|hs| - 1]) + hs[|hs| - 1].Expanded()
  }

  /** Flattening works piecewise: blocks added later come later. */
  lemma {:induction false} FlattenConcat(a: seq<Held>, b: seq<Held>)
    ensures Flatten(a + b) == Flatten(a) + Flatten(b)
    decreases |b|
  {
    if b == [] {
      assert a + b == a;
    } else {
      var front := b[..|b| - 1];
      assert (a + b)[..|a + b| - 1] == a + front;
      assert (a + b)[|a + b| - 1] == b[|b| - 1];
      FlattenConcat(a, front);
      assert Flatten(a + b) == Flatten(a) + Flatten(front) + b[|b| - 1].Expanded();
    }
  }

  /** Without virtual blocks, `getBlocks` is the block list itself. */
  lemma {:induction false} FlattenSingles(hs: seq<Held>)
    requires forall i :: 0 <= i < |hs| ==> hs[i].Single?
    ensures |Flatten(hs)| == |hs|
    ensures forall i :: 0 <= i < |hs| ==> Flatten(hs)[i] == hs[i].block
    decreases |hs|
  {
    if hs != [] {
      FlattenSingles(hs[..|hs| - 1]);
    }
  }

  /** The check of `add`: the block's tag must be in the list for the surface's tag. */
  function AddCheck(surface: Class, h: Held): (r: Outcome)
    ensures r.Pass? <==> (h.Tag().Ok? && MapClass(surface).Ok? &&
                          SurfaceBlocks(MapClass(surface).value).Some? &&
                          h.Tag().value in SurfaceBlocks(MapClass(surface).value).value)
  {
    match h.Tag()
    case Err(e) => Fail(e)
    case Ok(bt) =>
      match MapClass(surface)
      case Err(e) => Fail(e)
      case Ok(st) =>
        match SurfaceBlocks(st)
        // `in_array` given the null of a missing table row
        case None => Fail(TypeError)
        case Some(allowed) => if bt in allowed then Pass else Fail(BlockNotAllowed(bt, st))
  }

  /** A home tab turns away input and file blocks; a message turns away input blocks. */
  lemma AddRejections(b: Child)
    requires b.cls == Input || b.cls == File
    ensures AddCheck(AppHome, Single(b)).Fail?
    ensures b.cls == Input ==> AddCheck(Message, Single(b)) == Fail(BlockNotAllowed(INPUT, MESSAGE))
  {
    SurfaceRestrictions();
    assert MapClass(AppHome) == Ok(APP_HOME) && MapClass(Message) == Ok(MESSAGE);
    assert MapClass(Input) == Ok(INPUT) && MapClass(File) == Ok(FILE);
  }

  /** The ids `validate` collects: every block id that is not null, in order. */
  function BlockIds(bs: seq<Child>): (r: seq<string>)
    ensures forall x :: x in r <==> exists i :: 0 <= i < |bs| && bs[i].blockId == Some(x)
    decreases |bs|
  {
    if bs == [] then []
    else
      var front := bs[..|bs| - 1];
      assert forall i :: 0 <= i < |front| ==> front[i] == bs[i];
      BlockIds(front) + (if bs[|bs| - 1].blockId.Some? then [bs[|bs| - 1].blockId.value] else [])
  }

  /** `Surface::validate` on the flattened blocks. */
  function SurfaceVerdict(bs: seq<Child>): (r: Outcome)
    ensures bs == [] ==> r == Fail(NoBlocks)
    ensures |bs| >= MAX_BLOCKS ==> r == Fail(TooManyBlocks(MAX_BLOCKS))
    ensures 0 < |bs| < MAX_BLOCKS && ChildrenVerdict(bs).Fail? ==> r == ChildrenVerdict(bs)
    ensures 0 < |bs| < MAX_BLOCKS && ChildrenVerdict(bs).Pass? && Duplicates(BlockIds(bs)) != [] ==>
      r == Fail(DuplicateBlockIds(Duplicates(BlockIds(bs))))
  {
    if bs == [] then Fail(NoBlocks)
    else if |bs| >= MAX_BLOCKS then Fail(TooManyBlocks(MAX_BLOCKS))
    else if ChildrenVerdict(bs).Fail? then ChildrenVerdict(bs)
    else if Duplicates(BlockIds(bs)) != [] then Fail(DuplicateBlockIds(Duplicates(BlockIds(bs))))
    else Pass
  }

  /** A surface that validates has 1 to 49 blocks, all valid, and no two share a block id. */
  lemma SurfacePasses(bs: seq<Child>)
    requires SurfaceVerdict(bs).Pass?
    ensures 1 <= |bs| < MAX_BLOCKS
    ensures forall i :: 0 <= i < |bs| ==> bs[i].valid.Pass?
    ensures forall i, j :: 0 <= i < j < |bs| && bs[i].blockId.Some? ==> bs[i].blockId != bs[j].blockId
  {
    NoDuplicatesIff(BlockIds(bs));
    forall i, j | 0 <= i < j < |bs| && bs[i].blockId.Some? && bs[i].blockId == bs[j].blockId
      ensures false
    {
      IdsPositions(bs, i, j);
    }
  }

  /** Two blocks with the same id put that id twice into the collected list. */
  lemma {:induction false} IdsPositions(bs: seq<Child>, i: int, j: int)
    requires 0 <= i < j < |bs| && bs[i].blockId.Some? && bs[i].blockId == bs[j].blockId
    ensures exists p, q :: 0 <= p < q < |BlockIds(bs)| && BlockIds(bs)[p] == BlockIds(bs)[q]
    decreases |bs|
  {
    var front := bs[..|bs| - 1];
    assert forall k :: 0 <= k < |front| ==> front[k] == bs[k];
    if j == |bs| - 1 {
      assert bs[i].blockId.value in BlockIds(front);
      var p :| 0 <= p < |BlockIds(front)| && BlockIds(front)[p] == bs[i].blockId.value;
      assert BlockIds(bs)[p] == BlockIds(bs)[|BlockIds(front)|];
    } else {
      IdsPositions(front, i, j);
      var p, q :| 0 <= p < q < |BlockIds(front)| && BlockIds(front)[p] == BlockIds(front)[q];
      assert BlockIds(bs)[p] == BlockIds(bs)[q];
    }
  }

  /** The surface's `toArray` once its `validate` has given valid: the base output plus 'blocks'. */
  function SurfaceArray(cls: Class, valid: Outcome, extra: Extras, bs: seq<Child>): (r: Result<Dict<Value>>)
    ensures valid.Fail? ==> r == Err(valid.error)
    ensures r.Ok? ==> MapAll(bs, ChildValue).Ok?
    ensures r.Ok? ==> Lookup(r.value, Name("blocks")) == Some(Arr(List(MapAll(bs, ChildValue).value)))
  {
    var d :- BaseArray(cls, valid, extra);
    var vs :- MapAll(bs, ChildValue);
    PutLookup(d, Name("blocks"), Arr(List(vs)), Name("blocks"));
    Ok(Put(d, Name("blocks"), Arr(List(vs))))
  }

  /** The blocks of a surface, and its Element part. */
  class SurfaceBody {
    const cls: Class
    const base: ElementBase
    var held: seq<Held>

    /** Every block held was accepted by `add`. */
    ghost predicate Valid()
      reads this, base
    {
      base.cls == cls && base.Valid() && forall i :: 0 <= i < |held| ==> AddCheck(cls, held[i]).Pass?
    }

    constructor(cls: Class)
      ensures this.cls == cls && held == [] && base.extra == [] && fresh(base)
      ensures Valid()
    {
      this.cls := cls;
      base := new ElementBase(cls);
      held := [];
    }

    /** `add`: the block is appended when its kind is allowed here; otherwise nothing changes. */
    method Add(h: Held) returns (r: Outcome)
      requires Valid()
      modifies this
      ensures r == AddCheck(cls, h)
      ensures r.Pass? ==> held == old(held) + [h]
      ensures r.Fail? ==> held == old(held)
      ensures Valid()
    {
      r := AddCheck(cls, h);
      if r.Pass? {
        held := held + [h];
      }
    }

    /** `getBlocks`, loop by loop. */
    method GetBlocks() returns (bs: seq<Child>)
      ensures bs == Flatten(held)
    {
      bs := [];
      var i := 0;
      while i < |held|
        invariant 0 <= i <= |held|
        invariant bs == Flatten(held[..i])
      {
        assert held[..i + 1][..i] == held[..i];
        var sub := held[i].Expanded();
        var k := 0;
        while k < |sub|
          invariant 0 <= k <= |sub|
          invariant bs == Flatten(held[..i]) + sub[..k]
        {
          assert sub[..k + 1] == sub[..k] + [sub[k]];
          bs := bs + [sub[k]];
          k := k + 1;
        }
        assert sub[..k] == sub;
        i := i + 1;
      }
      assert held[..i] == held;
    }

    /** `validate`: counts, then each block in turn while the ids are gathered, then duplicates. */
    method Validate() returns (r: Outcome)
      ensures r == SurfaceVerdict(Flatten(held))
    {
      var bs := GetBlocks();
      if bs == [] {
        return Fail(NoBlocks);
      }
      if |bs| >= MAX_BLOCKS {
        return Fail(TooManyBlocks(MAX_BLOCKS));
      }
      r := CheckBlocks(bs);
    }

    /** `toArray` given the outcome of the late-bound `validate`. */
    function ToArray(valid: Outcome): (r: Result<Dict<Value>>)
      reads this, base
      ensures valid.Fail? ==> r == Err(valid.error)
      ensures r.Ok? ==> MapAll(Flatten(held), ChildValue).Ok?
      ensures r.Ok? ==> Lookup(r.value, Name("blocks")) == Some(Arr(List(MapAll(Flatten(held), ChildValue).value)))
    {
      SurfaceArray(cls, valid, base.extra, Flatten(held))
    }

    /** A copy with the same blocks and extras (PHP `clone`). */
    method Copy() returns (c: SurfaceBody)
      ensures fresh(c) && fresh(c.base)
      ensures c.cls == cls && c.held == held && c.base.extra == base.extra && c.base.parent == base.parent
      ensures Valid() ==> c.Valid()
    {
      c := new SurfaceBody(cls);
      c.held := held;
      c.base.extra := base.extra;
      c.base.parent := base.parent;
    }
  }

  /** The `foreach` of `validate` and the duplicate check after it. */
  method CheckBlocks(bs: seq<Child>) returns (r: Outcome)
    requires 0 < |bs| < MAX_BLOCKS
    ensures r == SurfaceVerdict(bs)
  {
    var ids: seq<string> := [];
    var i := 0;
    while i < |bs|
      invariant 0 <= i <= |bs|
      invariant ChildrenVerdict(bs) == ChildrenVerdict(bs[i..])
      invariant ids == BlockIds(bs[..i])
    {
      if bs[i].valid.Fail? {
        return bs[i].valid;
      }
      assert bs[i..][1..] == bs[i + 1..];
      assert bs[..i + 1][..i] == bs[..i];
      if bs[i].blockId.Some? {
        ids := ids + [bs[i].blockId.value];
      }
      i := i + 1;
    }
    assert bs[..i] == bs;
    var dups := DuplicateIds(ids);
    if dups != [] {
      return Fail(DuplicateBlockIds(dups));
    }
    return Pass;
  }
}
