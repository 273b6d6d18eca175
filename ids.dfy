/**
 * The duplicate-id check that Surface::validate (block ids) and
 * Actions::validate (action ids) share: `array_count_values` over the ids,
 * then the ids whose count is above one, in order of first occurrence.
 */
module Ids {

  /** `array_keys(array_count_values($ids))`: each id once, in order of first occurrence. */
  function Firsts(ids: seq<string>): (r: seq<string>)
    ensures forall x :: x in r <==> x in ids
    ensures forall i, j :: 0 <= i < j < |r| ==> r[i] != r[j]
    decreases |ids|
  {
    if ids == [] then []
    else
      var front := ids[..|ids| - 1];
      assert ids == front + [ids[|ids| - 1]];
      var f := Firsts(front);
      if ids[|ids| - 1] in f then f else f + [ids[|ids| - 1]]
  }

  /** Those of keys that occur more than once in ids, in the order of keys. */
  function Repeated(keys: seq<string>, ids: seq<string>): (r: seq<string>)
    ensures forall x :: x in r <==> x in keys && multiset(ids)[x] > 1
    decreases |keys|
  {
    if keys == [] then []
    else
      var front, last := keys[..|keys| - 1], keys[|keys| - 1];
      assert keys == front + [last];
      Repeated(front, ids) + (if multiset(ids)[last] > 1 then [last] else [])
  }

  /** The ids named in the "duplicated" exception: every id that occurs twice or more. */
  function Duplicates(ids: seq<string>): (r: seq<string>)
    ensures forall x :: x in r <==> multiset(ids)[x] > 1
    ensures forall i, j :: 0 <= i < j < |r| ==> r[i] != r[j]
  {
    RepeatedDistinct(Firsts(ids), ids);
    Repeated(Firsts(ids), ids)
  }

  lemma {:induction false} RepeatedDistinct(keys: seq<string>, ids: seq<string>)
    requires forall i, j :: 0 <= i < j < |keys| ==> keys[i] != keys[j]
    ensures forall i, j :: 0 <= i < j < |Repeated(keys, ids)| ==> Repeated(keys, ids)[i] != Repeated(keys, ids)[j]
  {
    if keys != [] {
      var front, last := keys[..|keys| - 1], keys[|keys| - 1];
      RepeatedDistinct(front, ids);
      assert last !in front;
    }
  }

  /** An id counted twice sits at two different positions. */
  lemma {:induction false} TwoPositions(ids: seq<string>, x: string)
    requires multiset(ids)[x] > 1
    ensures exists i, j :: 0 <= i < j < |ids| && ids[i] == x && ids[j] == x
  {
    assert ids == [ids[0]] + ids[1..];
    if ids[0] == x {
      assert x in multiset(ids[1..]);
      var k :| 0 <= k < |ids[1..]| && ids[1..][k] == x;
      assert ids[0] == x && ids[k + 1] == x;
    } else {
      TwoPositions(ids[1..], x);
      var i, j :| 0 <= i < j < |ids[1..]| && ids[1..][i] == x && ids[1..][j] == x;
      assert ids[i + 1] == x && ids[j + 1] == x;
    }
  }

  /** An id at two different positions is counted twice. */
  lemma CountedTwice(ids: seq<string>, i: int, j: int)
    requires 0 <= i < j < |ids| && ids[i] == ids[j]
    ensures multiset(ids)[ids[i]] > 1
  {
    assert ids == ids[..j] + ids[j..];
    assert ids[i] == ids[..j][i];
    assert ids[j] == ids[j..][0];
  }

  /** The exception is raised exactly when two positions hold the same id. */
  lemma NoDuplicatesIff(ids: seq<string>)
    ensures Duplicates(ids) == [] <==> forall i, j :: 0 <= i < j < |ids| ==> ids[i] != ids[j]
  {
    if Duplicates(ids) != [] {
      TwoPositions(ids, Duplicates(ids)[0]);
    }
    forall i, j | 0 <= i < j < |ids| && ids[i] == ids[j]
      ensures ids[i] in Duplicates(ids)
    {
      CountedTwice(ids, i, j);
    }
  }

  /** One more id: the distinct ids gain it when it is new, and its count goes up by one. */
  lemma CountStep(ids: seq<string>, i: int)
    requires 0 <= i < |ids|
    ensures Firsts(ids[..i + 1]) == if ids[i] in ids[..i] then Firsts(ids[..i]) else Firsts(ids[..i]) + [ids[i]]
    ensures forall x :: x in ids[..i + 1] <==> x in ids[..i] || x == ids[i]
    ensures multiset(ids[..i + 1]) == multiset(ids[..i]) + multiset{ids[i]}
  {
    assert ids[..i + 1][..i] == ids[..i];
    assert ids[..i + 1] == ids[..i] + [ids[i]];
  }

  /** `array_count_values`: the distinct ids in order, and how often each occurs. */
  method CountValues(ids: seq<string>) returns (keys: seq<string>, counts: map<string, nat>)
    ensures keys == Firsts(ids)
    ensures forall x :: x in counts <==> x in ids
    ensures forall x :: x in counts ==> counts[x] == multiset(ids)[x]
  {
    keys := [];
    counts := map[];
    var i := 0;
    while i < |ids|
      invariant 0 <= i <= |ids|
      invariant keys == Firsts(ids[..i])
      invariant forall x :: x in counts <==> x in ids[..i]
      invariant forall x :: x in counts ==> counts[x] == multiset(ids[..i])[x]
    {
      var x := ids[i];
      CountStep(ids, i);
      if x in counts {
        counts := counts[x := counts[x] + 1];
      } else {
        counts := counts[x := 1];
        keys := keys + [x];
      }
      i := i + 1;
    }
    assert ids[..i] == ids;
  }

  /** The duplicate scan of `validate`: count, then keep the ids counted more than once. */
  method DuplicateIds(ids: seq<string>) returns (dups: seq<string>)
    ensures dups == Duplicates(ids)
  {
    var keys, counts := CountValues(ids);
    dups := KeepRepeated(keys, counts, ids);
  }

  /** The `foreach ($counts as $key => $value) if ($value > 1)` loop. */
  method KeepRepeated(keys: seq<string>, counts: map<string, nat>, ids: seq<string>) returns (dups: seq<string>)
    requires forall x :: x in keys ==> x in counts && counts[x] == multiset(ids)[x]
    ensures dups == Repeated(keys, ids)
  {
    dups := [];
    var j := 0;
    while j < |keys|
      invariant 0 <= j <= |keys|
      invariant dups == Repeated(keys[..j], ids)
    {
      assert keys[..j + 1][..j] == keys[..j];
      if counts[keys[j]] > 1 {
        dups := dups + [keys[j]];
      }
      j := j + 1;
    }
    assert keys[..j] == keys;
  }
}
