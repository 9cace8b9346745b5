/** A batch of lines dealt out to partitions and chunks in some way: the same lines, each exactly once. */
module Arrangement {
  import opened Documents
  import opened Confluence

  function Flatten<T>(parts: seq<seq<T>>): seq<T> {
    if parts == [] then [] else Flatten(parts[..|parts| - 1]) + parts[|parts| - 1]
  }

  /** Position `p` of part `c` is one definite position of the whole, after every position of an earlier part. */
  lemma {:induction false} FlatAt<T>(parts: seq<seq<T>>, c: nat, p: nat)
    requires c < |parts| && p < |parts[c]|
    ensures |Flatten(parts[..c])| + p < |Flatten(parts[..c + 1])| <= |Flatten(parts)|
    ensures Flatten(parts)[|Flatten(parts[..c])| + p] == parts[c][p]
    decreases |parts|
  {
    var k := |parts| - 1;
    if c == k {
      assert parts[..c + 1] == parts;
    } else {
      FlatAt(parts[..k], c, p);
      assert parts[..k][..c] == parts[..c];
      assert parts[..k][..c + 1] == parts[..c + 1];
    }
  }

  lemma {:induction false} FlatIn<T>(parts: seq<seq<T>>, i: nat) returns (c: nat, p: nat)
    requires i < |Flatten(parts)|
    ensures c < |parts| && p < |parts[c]| && parts[c][p] == Flatten(parts)[i]
  {
    var k := |parts| - 1;
    if i < |Flatten(parts[..k])| {
      c, p := FlatIn(parts[..k], i);
    } else {
      c, p := k, i - |Flatten(parts[..k])|;
    }
  }

  ghost predicate Deals(batch: seq<Line>, layout: seq<seq<Line>>) {
    multiset(Flatten(layout)) == multiset(batch)
  }

  lemma DealtLine(batch: seq<Line>, layout: seq<seq<Line>>, c: nat, p: nat)
    requires Deals(batch, layout) && Place(layout, c, p)
    ensures LineAt(layout, c, p) in batch
  {
    FlatAt(layout, c, p);
    var flat := Flatten(layout);
    assert flat[|Flatten(layout[..c])| + p] in multiset(flat);
    assert LineAt(layout, c, p) in multiset(batch);
  }

  /** However a batch is dealt out, its lines agree on their ids if they did before. */
  lemma DealtAgrees(batch: seq<Line>, layout: seq<seq<Line>>)
    requires AgreeingLines(batch) && Deals(batch, layout)
    ensures Agreeing(layout)
  {
    forall c, p | Place(layout, c, p) ensures LineAt(layout, c, p) in batch {
      DealtLine(batch, layout, c, p);
    }
  }

  lemma DealtArranges(batch: seq<Line>, layout: seq<seq<Line>>)
    requires Deals(batch, layout)
    ensures Arranges(batch, layout)
  {
    forall c, p | Place(layout, c, p) ensures LineAt(layout, c, p) in batch {
      DealtLine(batch, layout, c, p);
    }
    forall i | 0 <= i < |batch|
      ensures exists c: nat, p: nat :: Place(layout, c, p) && LineAt(layout, c, p) == batch[i]
    {
      assert batch[i] in multiset(batch);
      var flat := Flatten(layout);
      var j :| 0 <= j < |flat| && flat[j] == batch[i];
      var c, p := FlatIn(layout, j);
      assert Place(layout, c, p) && LineAt(layout, c, p) == batch[i];
    }
  }
}
