/**
 Reading a whole index through a point in time: each slice is paged with `search_after` until an empty page, and the
 slices together are the snapshot.

 The server is free to return any nonempty prefix of what remains of a slice, up to the size asked for, and to hand
 out a new id for the point in time with every page. The snapshot is in strictly increasing order of its sort key.
 */
module SliceReader {
  import opened Wrappers
  import opened Arrangement
  import ChunkProtocol

  datatype Hit = Hit(sort: int, doc: string)

  /** Slice `id` of `max`; no slice at all is the whole snapshot. */
  datatype Slice = Slice(id: nat, max: nat)

  datatype Request = Request(pit: string, after: Option<int>, slice: Option<Slice>, size: nat)

  predicate Ordered(hits: seq<Hit>) {
    forall i, j :: 0 <= i < j < |hits| ==> hits[i].sort < hits[j].sort
  }

  function Filter(hits: seq<Hit>, keep: Hit -> bool): seq<Hit> {
    if hits == [] then []
    else
      var last := hits[|hits| - 1];
      Filter(hits[..|hits| - 1], keep) + if keep(last) then [last] else []
  }

  /** Which slice a hit belongs to, for each number of slices. */
  type Slots = (Hit, nat) -> nat

  function InSlice(slots: Slots, slice: Slice): Hit -> bool {
    h => slots(h, slice.max) == slice.id
  }

  function SliceOf(snapshot: seq<Hit>, slots: Slots, slice: Option<Slice>): seq<Hit> {
    match slice
    case None => snapshot
    case Some(s) => Filter(snapshot, InSlice(slots, s))
  }

  function Beyond(key: int): Hit -> bool {
    (h: Hit) => h.sort > key
  }

  /** What remains after a sort key. */
  function Remaining(hits: seq<Hit>, after: Option<int>): seq<Hit> {
    match after
    case None => hits
    case Some(key) => Filter(hits, Beyond(key))
  }

  /** The id of the point in time after the pages lo..hi-1. */
  function Latest(pit: string, refresh: nat -> Option<string>, lo: nat, hi: nat): string
    requires lo <= hi
    decreases hi
  {
    if lo == hi then pit else refresh(hi - 1).GetOr(Latest(pit, refresh, lo, hi - 1))
  }

  class PitServer {
    const snapshot: seq<Hit>
    const slots: Slots
    const pageLength: nat -> nat
    const refresh: nat -> Option<string>
    var calls: nat
    var requests: seq<Request>

    constructor (snapshot: seq<Hit>, slots: Slots, pageLength: nat -> nat, refresh: nat -> Option<string>)
      ensures this.snapshot == snapshot && this.slots == slots
      ensures this.pageLength == pageLength && this.refresh == refresh
      ensures calls == 0 && requests == []
    {
      this.snapshot, this.slots, this.pageLength, this.refresh := snapshot, slots, pageLength, refresh;
      calls, requests := 0, [];
    }

    method Search(request: Request) returns (hits: seq<Hit>, pit: Option<string>)
      requires request.size > 0
      modifies this
      ensures calls == old(calls) + 1 && requests == old(requests) + [request] && pit == refresh(old(calls))
      ensures var rest := Remaining(SliceOf(snapshot, slots, request.slice), request.after);
        hits <= rest && |hits| <= request.size && (hits == [] <==> rest == [])
    {
      var rest := Remaining(SliceOf(snapshot, slots, request.slice), request.after);
      var n := pageLength(calls);
      n := if n < 1 then 1 else n;
      n := if n > request.size then request.size else n;
      hits := if n < |rest| then rest[..n] else rest;
      pit := refresh(calls);
      calls, requests := calls + 1, requests + [request];
    }
  }

  lemma {:induction false} FilterAll(hits: seq<Hit>, keep: Hit -> bool)
    requires forall i :: 0 <= i < |hits| ==> keep(hits[i])
    ensures Filter(hits, keep) == hits
  {
    if hits != [] {
      FilterAll(hits[..|hits| - 1], keep);
    }
  }

  lemma {:induction false} FilterNone(hits: seq<Hit>, keep: Hit -> bool)
    requires forall i :: 0 <= i < |hits| ==> !keep(hits[i])
    ensures Filter(hits, keep) == []
  {
    if hits != [] {
      FilterNone(hits[..|hits| - 1], keep);
    }
  }

  lemma {:induction false} FilterJoin(a: seq<Hit>, b: seq<Hit>, keep: Hit -> bool)
    ensures Filter(a + b, keep) == Filter(a, keep) + Filter(b, keep)
  {
    if b == [] {
      assert a + b == a;
    } else {
      assert (a + b)[..|a + b| - 1] == a + b[..|b| - 1];
      FilterJoin(a, b[..|b| - 1], keep);
    }
  }

  /** In an ordered list, what remains after the key of one hit is the list after that hit. */
  lemma RemainingAfter(hits: seq<Hit>, k: nat)
    requires Ordered(hits) && 0 < k <= |hits|
    ensures Remaining(hits, Some(hits[k - 1].sort)) == hits[k..]
  {
    var key := hits[k - 1].sort;
    var before, after := hits[..k], hits[k..];
    forall i | 0 <= i < |before| ensures !Beyond(key)(before[i]) {
      assert i == k - 1 || hits[i].sort < hits[k - 1].sort;
    }
    forall i | 0 <= i < |after| ensures Beyond(key)(after[i]) {
      assert hits[k - 1].sort < hits[k + i].sort;
    }
    assert hits == before + after;
    assert Remaining(hits, Some(key)) == Filter(hits, Beyond(key));
    hide *;
    FilterNone(before, Beyond(key));
    FilterAll(after, Beyond(key));
    FilterJoin(before, after, Beyond(key));
  }

  lemma {:induction false} FilterOrdered(hits: seq<Hit>, keep: Hit -> bool)
    requires Ordered(hits)
    ensures Ordered(Filter(hits, keep))
    ensures forall h :: h in Filter(hits, keep) ==> h in hits
  {
    if hits != [] {
      var k := |hits| - 1;
      FilterOrdered(hits[..k], keep);
      var front := Filter(hits[..k], keep);
      forall i | 0 <= i < |front| ensures front[i].sort < hits[k].sort {
        assert front[i] in hits[..k];
      }
    }
  }

  /** The requests from `before` on ask for pages of this slice, each under the latest id of the point in time. */
  ghost predicate Follows(requests: seq<Request>, before: nat, pit: string, refresh: nat -> Option<string>, lo: nat,
                          slice: Option<Slice>, size: nat)
  {
    forall k :: before <= k < |requests| ==>
      && requests[k].pit == Latest(pit, refresh, lo, lo + k - before)
      && requests[k].slice == slice && requests[k].size == size
  }

  lemma FollowsMore(requests: seq<Request>, before: nat, pit: string, refresh: nat -> Option<string>, lo: nat,
                    slice: Option<Slice>, size: nat, r: Request)
    requires before <= |requests| && Follows(requests, before, pit, refresh, lo, slice, size)
    requires r.pit == Latest(pit, refresh, lo, lo + |requests| - before) && r.slice == slice && r.size == size
    ensures Follows(requests + [r], before, pit, refresh, lo, slice, size)
  {
    hide Latest;
  }

  lemma LatestMore(pit: string, refresh: nat -> Option<string>, lo: nat, hi: nat)
    requires lo <= hi
    ensures Latest(pit, refresh, lo, hi + 1) == refresh(hi).GetOr(Latest(pit, refresh, lo, hi))
  {
  }

  /** Pages through one slice. It ends, yields the slice exactly once and in order, and every request names the id of
      the point in time that the page before it handed out. */
  method SliceHits(es: PitServer, pitId: string, batchSize: nat, slice: Option<Slice>) returns (yielded: seq<Hit>)
    requires Ordered(es.snapshot) && batchSize > 0
    modifies es
    ensures yielded == SliceOf(es.snapshot, es.slots, slice)
    ensures es.calls - old(es.calls) == |es.requests| - |old(es.requests)| > 0
    ensures Follows(es.requests, |old(es.requests)|, pitId, es.refresh, old(es.calls), slice, batchSize)
  {
    ghost var hits := SliceOf(es.snapshot, es.slots, slice);
    if slice.Some? {
      FilterOrdered(es.snapshot, InSlice(es.slots, slice.value));
    }
    ghost var lo, before := es.calls, |es.requests|;
    assert Ordered(hits) && Follows(es.requests, before, pitId, es.refresh, lo, slice, batchSize);
    assert Latest(pitId, es.refresh, lo, lo) == pitId;
    hide *;
    var pit, searchAfter := pitId, None;
    yielded := [];
    while true
      invariant yielded <= hits
      invariant searchAfter == if yielded == [] then None else Some(yielded[|yielded| - 1].sort)
      invariant es.calls - lo == |es.requests| - before >= 0
      invariant pit == Latest(pitId, es.refresh, lo, es.calls)
      invariant Follows(es.requests, before, pitId, es.refresh, lo, slice, batchSize)
      decreases |hits| - |yielded|
    {
      RemainingNow(hits, yielded, searchAfter);
      var request := Request(pit, searchAfter, slice, batchSize);
      FollowsMore(es.requests, before, pitId, es.refresh, lo, slice, batchSize, request);
      LatestMore(pitId, es.refresh, lo, es.calls);
      var page, refreshed := es.Search(request);
      if page == [] {
        return;
      }
      PageMore(hits, yielded, page);
      yielded := yielded + page;
      searchAfter := Some(page[|page| - 1].sort);
      pit := refreshed.GetOr(pit);
    }
  }

  lemma RemainingNow(hits: seq<Hit>, yielded: seq<Hit>, after: Option<int>)
    requires Ordered(hits) && yielded <= hits
    requires after == if yielded == [] then None else Some(yielded[|yielded| - 1].sort)
    ensures Remaining(hits, after) == hits[|yielded|..]
  {
    hide Filter;
    if yielded != [] {
      RemainingAfter(hits, |yielded|);
    }
  }

  lemma PageMore(hits: seq<Hit>, yielded: seq<Hit>, page: seq<Hit>)
    requires yielded <= hits && page <= hits[|yielded|..] && page != []
    ensures yielded + page <= hits
    ensures yielded + page != [] && (yielded + page)[|yielded + page| - 1] == page[|page| - 1]
  {
    assert hits == yielded + hits[|yielded|..];
  }

  /* ---- all slices ---- */

  /** The slice a task reads: with a single task there is no slicing. */
  function SpecFor(id: nat, numSlices: nat): Option<Slice> {
    if numSlices > 1 then Some(Slice(id, numSlices)) else None
  }

  /** The hits of the slices `ids`, one after the other. */
  function Gathered(snapshot: seq<Hit>, slots: Slots, numSlices: nat, ids: seq<nat>): seq<Hit> {
    if ids == [] then []
    else
      Gathered(snapshot, slots, numSlices, ids[..|ids| - 1]) +
      SliceOf(snapshot, slots, SpecFor(ids[|ids| - 1], numSlices))
  }

  lemma GatheredMore(snapshot: seq<Hit>, slots: Slots, numSlices: nat, ids: seq<nat>, id: nat)
    ensures Gathered(snapshot, slots, numSlices, ids + [id]) ==
            Gathered(snapshot, slots, numSlices, ids) + SliceOf(snapshot, slots, SpecFor(id, numSlices))
  {
    assert (ids + [id])[..|ids|] == ids;
  }

  /** One frame for each slice of `ids` that has rows, in order. */
  function Frames(snapshot: seq<Hit>, slots: Slots, numSlices: nat, ids: seq<nat>): seq<seq<Hit>> {
    if ids == [] then []
    else
      var rows := SliceOf(snapshot, slots, SpecFor(ids[|ids| - 1], numSlices));
      Frames(snapshot, slots, numSlices, ids[..|ids| - 1]) + if rows == [] then [] else [rows]
  }

  lemma FramesMore(snapshot: seq<Hit>, slots: Slots, numSlices: nat, done: seq<nat>, ids: seq<nat>, i: nat)
    requires i < |ids|
    ensures var rows := SliceOf(snapshot, slots, SpecFor(ids[i], numSlices));
      Frames(snapshot, slots, numSlices, done + ids[..i + 1]) ==
      Frames(snapshot, slots, numSlices, done + ids[..i]) + if rows == [] then [] else [rows]
  {
    hide SliceOf, SpecFor;
    var more := done + ids[..i + 1];
    assert more[..|more| - 1] == done + ids[..i];
  }

  lemma FlattenMore(frames: seq<seq<Hit>>, frame: seq<Hit>)
    ensures Flatten(frames + [frame]) == Flatten(frames) + frame
  {
    assert (frames + [frame])[..|frames|] == frames;
  }

  /** The frames hold all the hits of the slices, one slice after the other, and none of them is empty. */
  lemma {:induction false} FramesHoldAll(snapshot: seq<Hit>, slots: Slots, numSlices: nat, ids: seq<nat>)
    ensures Flatten(Frames(snapshot, slots, numSlices, ids)) == Gathered(snapshot, slots, numSlices, ids)
    ensures [] !in Frames(snapshot, slots, numSlices, ids)
  {
    if ids != [] {
      var k := |ids| - 1;
      FramesHoldAll(snapshot, slots, numSlices, ids[..k]);
      hide SliceOf;
      var frames := Frames(snapshot, slots, numSlices, ids[..k]);
      FlattenMore(frames, SliceOf(snapshot, slots, SpecFor(ids[k], numSlices)));
      assert frames + [] == frames;
    }
  }

  /** One task: every slice id it is given is read and yielded as a frame of its own, unless it has no rows. */
  method ReadSlices(es: PitServer, pitId: string, numSlices: nat, batchSize: nat, batches: seq<seq<nat>>)
    returns (frames: seq<seq<Hit>>)
    requires Ordered(es.snapshot) && batchSize > 0
    modifies es
    ensures frames == Frames(es.snapshot, es.slots, numSlices, Flatten(batches))
  {
    frames := [];
    for b := 0 to |batches|
      invariant frames == Frames(es.snapshot, es.slots, numSlices, Flatten(batches[..b]))
    {
      hide *;
      var ids := batches[b];
      ghost var done := Flatten(batches[..b]);
      FlattenStep(batches, b);
      assert done + ids[..0] == done;
      for i := 0 to |ids|
        invariant frames == Frames(es.snapshot, es.slots, numSlices, done + ids[..i])
      {
        var rows := SliceHits(es, pitId, batchSize, SpecFor(ids[i], numSlices));
        FramesMore(es.snapshot, es.slots, numSlices, done, ids, i);
        if rows != [] {
          frames := frames + [rows];
        }
      }
      assert ids[..|ids|] == ids;
    }
    assert batches[..|batches|] == batches;
  }

  lemma FlattenStep(batches: seq<seq<nat>>, b: nat)
    requires b < |batches|
    ensures Flatten(batches[..b + 1]) == Flatten(batches[..b]) + batches[b]
  {
    assert batches[..b + 1][..b] == batches[..b];
  }

  /* ---- the slices are the snapshot ---- */

  lemma {:induction false} FilterCount(hits: seq<Hit>, keep: Hit -> bool, h: Hit)
    ensures multiset(Filter(hits, keep))[h] == if keep(h) then multiset(hits)[h] else 0
  {
    if hits != [] {
      var k := |hits| - 1;
      FilterCount(hits[..k], keep, h);
      assert hits == hits[..k] + [hits[k]];
    }
  }

  /** The first `k` slices hold exactly the hits whose slot is below `k`. */
  lemma {:induction false} SlicesCount(snapshot: seq<Hit>, slots: Slots, numSlices: nat, k: nat, h: Hit)
    requires numSlices > 1
    ensures multiset(Gathered(snapshot, slots, numSlices, ChunkProtocol.All(k)))[h] ==
            if slots(h, numSlices) < k then multiset(snapshot)[h] else 0
  {
    if k > 0 {
      var before, keep := ChunkProtocol.All(k - 1), InSlice(slots, Slice(k - 1, numSlices));
      assert ChunkProtocol.All(k) == before + [k - 1];
      SlicesCount(snapshot, slots, numSlices, k - 1, h);
      GatheredMore(snapshot, slots, numSlices, before, k - 1);
      FilterCount(snapshot, keep, h);
      hide Filter, Gathered, ChunkProtocol.All;
      assert multiset(Gathered(snapshot, slots, numSlices, ChunkProtocol.All(k))) ==
             multiset(Gathered(snapshot, slots, numSlices, before)) + multiset(Filter(snapshot, keep));
    }
  }

  /** Reading all slices, or the one unsliced reader, gives every hit of the snapshot exactly as often as it is
      there, provided the server puts each hit in one of the slices. */
  lemma SlicesAreSnapshot(snapshot: seq<Hit>, slots: Slots, numSlices: nat)
    requires numSlices > 0 && forall h, n :: n > 0 ==> slots(h, n) < n
    ensures multiset(Gathered(snapshot, slots, numSlices, ChunkProtocol.All(numSlices))) == multiset(snapshot)
  {
    if numSlices == 1 {
      assert ChunkProtocol.All(1) == ChunkProtocol.All(0) + [0];
      GatheredMore(snapshot, slots, 1, ChunkProtocol.All(0), 0);
      assert [] + snapshot == snapshot;
    } else {
      forall h
        ensures multiset(Gathered(snapshot, slots, numSlices, ChunkProtocol.All(numSlices)))[h] == multiset(snapshot)[h]
      {
        SlicesCount(snapshot, slots, numSlices, numSlices, h);
      }
    }
  }

  /* ---- how many slices ---- */

  /** The number asked for, or else the shard count; `None` when the shard count is needed, cannot be read and the
      caller insists on it. */
  function ResolveNumSlices(configured: Option<int>, shards: Option<int>, strict: bool): Option<nat> {
    match configured
    case Some(n) => Some(if n > 1 then n else 1)
    case None =>
      match shards
      case Some(n) => Some(if n > 1 then n else 1)
      case None => if strict then None else Some(1)
  }

  /** Whatever number of slices comes out, the whole index is read once; the read is refused up front exactly when
      nothing says how many slices to use. */
  lemma WholeIndexOnce(configured: Option<int>, shards: Option<int>, strict: bool, snapshot: seq<Hit>, slots: Slots)
    requires forall h, n :: n > 0 ==> slots(h, n) < n
    ensures ResolveNumSlices(configured, shards, strict).None? <==> configured.None? && shards.None? && strict
    ensures match ResolveNumSlices(configured, shards, strict)
      case None => true
      case Some(n) => n > 0 && multiset(Gathered(snapshot, slots, n, ChunkProtocol.All(n))) == multiset(snapshot)
  {
    hide Gathered, ChunkProtocol.All;
    match ResolveNumSlices(configured, shards, strict)
    case None =>
    case Some(n) => SlicesAreSnapshot(snapshot, slots, n);
  }
}
