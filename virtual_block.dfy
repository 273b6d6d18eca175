/**
 * Virtual blocks (src/Blocks/Virtual/VirtualBlock.php): several blocks that
 * act as one. When the virtual block has a block id, each sub-block it takes
 * in is renamed "<id>.<n>" from a running counter; prepending restarts the
 * count at 1 and renames every block after the new head.
 */
module VirtualBlocks {
  import opened Classes
  import opened Outcomes
  import opened Wire
  import opened Hydration
  import opened Elements
  import opened Ids

  /** `"{$this->getBlockId()}.{$this->index}"`. */
  function SubId(id: string, n: nat): string {
    id + "." + NatToString(n)
  }

  /** Different counters give different sub-block ids. */
  lemma SubIdInjective(id: string, a: nat, b: nat)
    requires SubId(id, a) == SubId(id, b)
    ensures a == b
  {
    var p := id + ".";
    assert SubId(id, a)[|p|..] == NatToString(a);
    assert SubId(id, b)[|p|..] == NatToString(b);
    NatToStringInjective(a, b);
  }

  /** The k-th block carries the id SubId(id, start + k). */
  ghost predicate NumberedFrom(blocks: seq<Child>, id: string, start: nat) {
    forall k :: 0 <= k < |blocks| ==> blocks[k].blockId == Some(SubId(id, start + k))
  }

  /** Numbered blocks never share a block id. */
  lemma NumberedDistinct(blocks: seq<Child>, id: string, start: nat)
    requires NumberedFrom(blocks, id, start)
    ensures forall i, j :: 0 <= i < j < |blocks| ==> blocks[i].blockId != blocks[j].blockId
  {
    forall i, j | 0 <= i < j < |blocks| && blocks[i].blockId == blocks[j].blockId
      ensures false
    {
      SubIdInjective(id, start + i, start + j);
    }
  }

  /** The blocks of a virtual block, each renamed from the counter value start on. */
  function Renamed(blocks: seq<Child>, id: string, start: nat): (r: seq<Child>)
    ensures |r| == |blocks|
    ensures NumberedFrom(r, id, start)
    ensures forall k :: 0 <= k < |r| ==> r[k] == blocks[k].(blockId := r[k].blockId)
  {
    seq(|blocks|, k requires 0 <= k < |blocks| => blocks[k].WithBlockId(SubId(id, start + k)))
  }

  class VirtualBlock {
    const cls: Class
    var blockId: Option<string>
    var index: nat
    var blocks: seq<Child>

    /**
     * The numbering invariant the append and prepend operations keep while
     * the block id stays put: sub-blocks are "<id>.1", "<id>.2", ... and the
     * counter is one past the last.
     */
    ghost predicate Numbered()
      reads this
    {
      blockId.Some? ==> NumberedFrom(blocks, blockId.value, 1) && index == |blocks| + 1
    }

    /** `new`: the block id is kept only when it is a non-empty string; the counter starts at 1. */
    constructor(cls: Class, blockId: Option<string>)
      ensures this.cls == cls && blocks == [] && index == 1
      ensures this.blockId == if blockId == Some("") then None else blockId
      ensures Numbered()
    {
      this.cls := cls;
      this.blockId := if blockId == Some("") then None else blockId;
      index := 1;
      blocks := [];
    }

    /** `blockId()`: a later id is used for blocks added from then on. */
    method SetBlockId(id: string)
      modifies this
      ensures blockId == Some(id) && blocks == old(blocks) && index == old(index)
    {
      blockId := Some(id);
    }

    /** `assignBlockId` without an explicit index: the counter names the block, then advances. */
    method AssignBlockId(b: Child) returns (named: Child)
      modifies this
      ensures blockId == old(blockId) && blocks == old(blocks)
      ensures blockId.None? ==> named == b && index == old(index)
      ensures blockId.Some? ==> named == b.WithBlockId(SubId(blockId.value, old(index))) && index == old(index) + 1
    {
      named := b;
      if blockId.Some? {
        named := b.WithBlockId(SubId(blockId.value, index));
        index := index + 1;
      }
    }

    /** `appendBlock`: the block goes last, renamed when there is a block id. */
    method AppendBlock(b: Child)
      modifies this
      ensures blockId == old(blockId)
      ensures blockId.None? ==> blocks == old(blocks) + [b] && index == old(index)
      ensures blockId.Some? ==> blocks == old(blocks) + [b.WithBlockId(SubId(blockId.value, old(index)))]
      ensures blockId.Some? ==> index == old(index) + 1
      ensures old(Numbered()) ==> Numbered()
    {
      var named := AssignBlockId(b);
      blocks := blocks + [named];
    }

    /**
     * `prependBlock`: the block goes first as "<id>.1" and every earlier
     * block is renamed after it, in order; without a block id nothing is renamed.
     */
    method PrependBlock(b: Child)
      modifies this
      ensures blockId == old(blockId)
      ensures blockId.None? ==> blocks == [b] + old(blocks) && index == old(index)
      ensures blockId.Some? ==>
        blocks == [b.WithBlockId(SubId(blockId.value, 1))] + Renamed(old(blocks), blockId.value, 2)
      ensures Numbered()
    {
      if blockId.None? {
        blocks := [b] + blocks;
        return;
      }
      index := 1;
      var head := AssignBlockId(b);
      var rest: seq<Child> := [];
      var i := 0;
      while i < |blocks|
        invariant 0 <= i <= |blocks| && blockId == old(blockId) && blocks == old(blocks)
        invariant index == i + 2
        invariant rest == Renamed(blocks[..i], blockId.value, 2)
      {
        var named := AssignBlockId(blocks[i]);
        rest := rest + [named];
        i := i + 1;
      }
      assert blocks[..i] == blocks;
      blocks := [head] + rest;
    }

    /** `validate`: each sub-block in turn. */
    method Validate() returns (r: Outcome)
      ensures r == ChildrenVerdict(blocks)
    {
      r := ValidateChildren(blocks);
    }

    /** `toArray`: the list of the sub-blocks' arrays; the virtual block itself is not validated. */
    function ToArray(): (r: Result<Dict<Value>>)
      reads this
      ensures r.Ok? <==> forall i :: 0 <= i < |blocks| ==> blocks[i].ToArray().Ok?
      ensures r.Ok? ==> Values(r.value) == MapAll(blocks, ChildValue).value
    {
      var vs :- MapAll(blocks, ChildValue);
      Ok(List(vs))
    }

    /** `hydrate`: a virtual block has no wire form to be read from. */
    method Hydrate(h: HydrationData) returns (r: Outcome)
      ensures r == Fail(VirtualBlockNotHydratable)
    {
      r := Fail(VirtualBlockNotHydratable);
    }
  }

  /** Blocks gathered under a block id keep distinct sub-block ids. */
  lemma NumberedBlocksDistinct(v: VirtualBlock)
    requires v.Numbered() && v.blockId.Some?
    ensures forall i, j :: 0 <= i < j < |v.blocks| ==> v.blocks[i].blockId != v.blocks[j].blockId
  {
    NumberedDistinct(v.blocks, v.blockId.value, 1);
  }
}
