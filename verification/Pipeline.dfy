/** One partition of a write. */
module Pipeline {
  // Its lines are cut into chunks, and the chunks are shipped by a bounded pool of tasks.
  // A task owns private accounts, so what it gives back does not depend on when it runs. The order in which tasks
  // finish is left open: `DrainOne` lets any nonempty set of pending tasks be done, in any order. `scripts(t)` fixes
  // what the cluster answers to the calls made for chunk t, and is arbitrary.

  import opened Wrappers
  import opened ChunkProtocol
  import opened ChunkAccounts
  import opened ChunkShipper
  import opened Documents
  import opened Arrangement

  type Scripts = nat -> (nat -> Answer)

  /* ---- one chunk from start to end ---- */

  /** The end state of a chunk whose calls get the answers of `script`. */
  function Shipped(cfg: Config, lines: seq<Line>, script: nat -> Answer): Machine {
    RunTo(cfg, |lines|, script, 0, CallBudget(cfg))
  }

  lemma {:induction false} StaysEnded(cfg: Config, n: nat, script: nat -> Answer, hi: nat, hi': nat)
    requires hi <= hi' && !RunTo(cfg, n, script, 0, hi).Active()
    ensures RunTo(cfg, n, script, 0, hi') == RunTo(cfg, n, script, 0, hi)
  {
    hide Start;
    if hi < hi' {
      StaysEnded(cfg, n, script, hi, hi' - 1);
    }
  }

  lemma ShippedIs(cfg: Config, lines: seq<Line>, script: nat -> Answer, hi: nat)
    requires !RunTo(cfg, |lines|, script, 0, hi).Active()
    ensures Shipped(cfg, lines, script) == RunTo(cfg, |lines|, script, 0, hi)
  {
    hide RunTo, CallBudget;
    var budget := CallBudget(cfg);
    RetryBudget(cfg, |lines|, script, 0, budget);
    if hi <= budget {
      StaysEnded(cfg, |lines|, script, hi, budget);
    } else {
      StaysEnded(cfg, |lines|, script, budget, hi);
    }
  }

  /** The private accounts of one task. */
  method ShipOne(chunk: seq<Line>, script: nat -> Answer, cfg: Config) returns (local: Accounts, crashed: bool)
    ensures fresh(local)
    ensures var m := Shipped(cfg, chunk, script);
      && crashed == m.phase.Crashed?
      && (!crashed ==>
            && local.counts == m.counts && local.samples == Cap(m.failures)
            && local.stats == (if cfg.bulkStats then StatsOf(m.sends) else [])
            && local.diag == (if cfg.bulkStats then m.diag else NO_DIAG))
  {
    var es := new EsClient(script);
    local := new Accounts();
    ghost var m;
    hide RunTo, Cap, Shipped;
    crashed, m := ShipNdjsonChunk(es, chunk, cfg, local);
    ShippedIs(cfg, chunk, script, es.calls);
    assert [] + m.failures == m.failures;
    assert [] + StatsOf(m.sends) == StatsOf(m.sends);
  }

  /* ---- books: what a list of chunks adds to the accounts ---- */

  datatype Books = Books(counts: Counts, samples: seq<Sample>, stats: seq<SendStat>, diag: Diag)

  const NO_BOOKS := Books(NO_COUNTS, [], [], NO_DIAG)

  function BooksOf(acc: Accounts): Books
    reads acc
  {
    Books(acc.counts, acc.samples, acc.stats, acc.diag)
  }

  /** The books after one more chunk. */
  function Enter(b: Books, cfg: Config, m: Machine): Books {
    Books(b.counts.Plus(m.counts), Cap(b.samples + m.failures),
          if cfg.bulkStats then b.stats + StatsOf(m.sends) else b.stats,
          if cfg.bulkStats then b.diag.Plus(m.diag) else b.diag)
  }

  /** The end state of chunk `t`. */
  function End(cfg: Config, chunks: seq<seq<Line>>, scripts: Scripts, t: nat): Machine {
    Shipped(cfg, if t < |chunks| then chunks[t] else [], scripts(t))
  }

  /** The books after the chunks of `order`, one after the other. */
  function Booked(base: Books, cfg: Config, chunks: seq<seq<Line>>, scripts: Scripts, order: seq<nat>): Books {
    if order == [] then base
    else
      Enter(Booked(base, cfg, chunks, scripts, order[..|order| - 1]), cfg,
            End(cfg, chunks, scripts, order[|order| - 1]))
  }

  lemma MergeSamples(shared: seq<Sample>, failures: seq<Sample>)
    requires |shared| <= ERROR_SAMPLE_CAP
    ensures |shared| < ERROR_SAMPLE_CAP ==>
              var room := ERROR_SAMPLE_CAP - |shared|;
              var local := Cap(failures);
              shared + local[..if room < |local| then room else |local|] == Cap(shared + failures)
    ensures |shared| == ERROR_SAMPLE_CAP || failures == [] ==> Cap(shared + failures) == shared
  {
  }

  /** Whether shipping chunk `t` ends with an exception. */
  predicate Crashes(cfg: Config, chunks: seq<seq<Line>>, scripts: Scripts, t: nat) {
    t < |chunks| && End(cfg, chunks, scripts, t).phase.Crashed?
  }

  /** No task ends with an exception. */
  ghost predicate Clean(cfg: Config, chunks: seq<seq<Line>>, scripts: Scripts) {
    forall t :: !Crashes(cfg, chunks, scripts, t)
  }

  lemma CleanMore(cfg: Config, chunks: seq<seq<Line>>, scripts: Scripts, chunk: seq<Line>)
    requires Clean(cfg, chunks, scripts) && !Crashes(cfg, chunks + [chunk], scripts, |chunks|)
    ensures Clean(cfg, chunks + [chunk], scripts)
  {
    hide Shipped;
    forall t ensures !Crashes(cfg, chunks + [chunk], scripts, t) {
      assert !Crashes(cfg, chunks, scripts, t);
    }
  }

  lemma CleanLess(cfg: Config, chunks: seq<seq<Line>>, more: seq<seq<Line>>, scripts: Scripts)
    requires chunks <= more && Clean(cfg, more, scripts)
    ensures Clean(cfg, chunks, scripts)
  {
    hide Shipped;
    forall t ensures !Crashes(cfg, chunks, scripts, t) {
      assert !Crashes(cfg, more, scripts, t);
    }
  }

  ghost predicate NoneTwice(order: seq<nat>) {
    forall i, j :: 0 <= i < j < |order| ==> order[i] != order[j]
  }

  /* ---- cutting a batch ---- */

  /** The chunks that `range(i, len(lines), size)` cuts. A negative size cuts nothing at all. */
  function ChunksFrom(lines: seq<Line>, size: int, i: nat): seq<seq<Line>>
    decreases |lines| - i
  {
    if size <= 0 || i >= |lines| then []
    else [lines[i..Until(lines, size, i)]] + ChunksFrom(lines, size, i + size)
  }

  function Until(lines: seq<Line>, size: int, i: nat): (j: nat)
    requires size > 0 && i < |lines|
    ensures i < j <= |lines| && j - i <= size
  {
    if i + size <= |lines| then i + size else |lines|
  }

  lemma CutOne(chunks: seq<seq<Line>>, lines: seq<Line>, size: int, i: nat)
    requires 0 < size && i < |lines|
    ensures var chunk := lines[i..Until(lines, size, i)];
      chunks + ChunksFrom(lines, size, i) == (chunks + [chunk]) + ChunksFrom(lines, size, i + size)
  {
  }

  lemma CutDone(chunks: seq<seq<Line>>, lines: seq<Line>, size: int, i: nat)
    requires size <= 0 || |lines| <= i
    ensures chunks + ChunksFrom(lines, size, i) == chunks
  {
  }

  /** Each chunk is nonempty and no longer than asked for. */
  lemma {:induction false} ChunksSized(lines: seq<Line>, size: int, i: nat, chunk: seq<Line>)
    requires size > 0 && chunk in ChunksFrom(lines, size, i)
    ensures 0 < |chunk| <= size
    decreases |lines| - i
  {
    if i < |lines| && chunk != lines[i..Until(lines, size, i)] {
      ChunksSized(lines, size, i + size, chunk);
    }
  }

  /** The chunks of a batch are, in order, exactly its lines. */
  lemma {:induction false} ChunksCover(lines: seq<Line>, size: int, i: nat)
    requires size > 0 && i <= |lines|
    ensures Flatten(ChunksFrom(lines, size, i)) == lines[i..]
    decreases |lines| - i
  {
    if i < |lines| {
      var j := Until(lines, size, i);
      if i + size <= |lines| {
        ChunksCover(lines, size, i + size);
      }
      FlattenCons(lines[i..j], ChunksFrom(lines, size, i + size));
      assert lines[i..j] + lines[j..] == lines[i..];
    }
  }

  lemma FlattenCons<T>(part: seq<T>, rest: seq<seq<T>>)
    ensures Flatten([part] + rest) == part + Flatten(rest)
  {
    FlattenJoin([part], rest);
    assert [part][..0] == [];
  }

  lemma {:induction false} FlattenJoin<T>(a: seq<seq<T>>, b: seq<seq<T>>)
    ensures Flatten(a + b) == Flatten(a) + Flatten(b)
  {
    if b == [] {
      assert a + b == a;
    } else {
      FlattenJoin(a, b[..|b| - 1]);
      assert (a + b)[..|a + b| - 1] == a + b[..|b| - 1];
    }
  }

  /* ---- the pool ---- */

  /** Tasks 0..n-1 are each merged once, in the order `merged`, or still outstanding. */
  ghost predicate Split(n: nat, merged: seq<nat>, outstanding: set<nat>) {
    && NoneTwice(merged)
    && (forall t: nat :: t < n <==> t in merged || t in outstanding)
    && (forall t :: t in merged ==> t !in outstanding)
  }

  lemma SplitMerge(n: nat, merged: seq<nat>, outstanding: set<nat>, t: nat)
    requires Split(n, merged, outstanding) && t in outstanding
    ensures Split(n, merged + [t], outstanding - {t})
  {
  }

  lemma SplitSubmit(n: nat, merged: seq<nat>, outstanding: set<nat>)
    requires Split(n, merged, outstanding)
    ensures n !in outstanding && Split(n + 1, merged, outstanding + {n})
  {
  }

  /** Submitting one more chunk does not change what the chunks before it end in. */
  lemma {:induction false} BookedMore(
    base: Books, cfg: Config, chunks: seq<seq<Line>>, scripts: Scripts, order: seq<nat>, chunk: seq<Line>)
    requires forall t :: t in order ==> t < |chunks|
    ensures Booked(base, cfg, chunks + [chunk], scripts, order) == Booked(base, cfg, chunks, scripts, order)
  {
    hide Shipped, Enter;
    if order != [] {
      var k := |order| - 1;
      forall t | t in order[..k] ensures t < |chunks| {
        assert t in order;
      }
      BookedMore(base, cfg, chunks, scripts, order[..k], chunk);
      assert order[k] in order && (chunks + [chunk])[order[k]] == chunks[order[k]];
    }
  }

  class PipelinedShipper {
    const cfg: Config
    const chunkSize: int
    const maxInflight: nat
    const scripts: Scripts
    const acc: Accounts          // shared totals, touched by the producer only
    var chunks: seq<seq<Line>>   // what was submitted: task t ships chunks[t]
    var pending: set<nat>        // those not yet merged
    ghost var merged: seq<nat>
    ghost const base: Books

    /** The books hold exactly the merged tasks, and none of those crashed. */
    ghost predicate Tracks(outstanding: set<nat>)
      reads this, acc
    {
      && Split(|chunks|, merged, outstanding)
      && |acc.samples| <= ERROR_SAMPLE_CAP
      && BooksOf(acc) == Booked(base, cfg, chunks, scripts, merged)
      && (forall t :: t in merged ==> !Crashes(cfg, chunks, scripts, t))
    }

    ghost predicate Valid()
      reads this, acc
    {
      0 < maxInflight && |pending| <= maxInflight && Tracks(pending)
    }

    constructor (cfg: Config, chunkSize: int, maxInflight: nat, scripts: Scripts, acc: Accounts)
      requires 0 < maxInflight && |acc.samples| <= ERROR_SAMPLE_CAP
      ensures Valid() && chunks == [] && pending == {} && merged == []
      ensures this.cfg == cfg && this.chunkSize == chunkSize && this.maxInflight == maxInflight
      ensures this.scripts == scripts && this.acc == acc && base == BooksOf(acc)
    {
      this.cfg, this.chunkSize, this.maxInflight, this.scripts, this.acc := cfg, chunkSize, maxInflight, scripts, acc;
      chunks, pending, merged, base := [], {}, [], BooksOf(acc);
    }

    /** Folds the accounts of one finished task into the shared ones. */
    method Merge(local: Accounts, ghost m: Machine)
      requires local != acc && |acc.samples| <= ERROR_SAMPLE_CAP
      requires local.counts == m.counts && local.samples == Cap(m.failures)
      requires local.stats == (if cfg.bulkStats then StatsOf(m.sends) else [])
      requires local.diag == (if cfg.bulkStats then m.diag else NO_DIAG)
      modifies acc
      ensures BooksOf(acc) == Enter(old(BooksOf(acc)), cfg, m) && |acc.samples| <= ERROR_SAMPLE_CAP
    {
      MergeSamples(acc.samples, m.failures);
      acc.counts := acc.counts.Plus(local.counts);
      if |acc.samples| < ERROR_SAMPLE_CAP && local.samples != [] {
        var room := ERROR_SAMPLE_CAP - |acc.samples|;
        acc.samples := acc.samples + local.samples[..if room < |local.samples| then room else |local.samples|];
      }
      if cfg.bulkStats {
        if local.stats != [] {
          acc.stats := acc.stats + local.stats;
        }
        acc.diag := acc.diag.Plus(local.diag);
      }
    }

    /** Takes one finished task off the outstanding ones. */
    method Collect(t: nat, ghost outstanding: set<nat>) returns (raised: bool)
      requires Tracks(outstanding) && t in outstanding
      modifies this`merged, acc
      ensures raised ==> !Clean(cfg, chunks, scripts)
      ensures !raised ==> merged == old(merged) + [t] && Tracks(outstanding - {t})
    {
      hide Booked, Enter, Shipped, Split, NoneTwice;
      SplitBelow(|chunks|, merged, outstanding, t);
      var local;
      local, raised := ShipOne(chunks[t], scripts(t), cfg);
      if raised {
        assert Crashes(cfg, chunks, scripts, t);
        return;
      }
      Merge(local, End(cfg, chunks, scripts, t));
      SplitMerge(|chunks|, merged, outstanding, t);
      BookedStep(base, cfg, chunks, scripts, merged, t);
      merged := merged + [t];
    }

    /** Waits until some task is done and merges every task that is. A task that crashed raises here. */
    method DrainOne() returns (raised: bool)
      requires Valid() && pending != {}
      modifies this`pending, this`merged, acc
      ensures raised ==> !Clean(cfg, chunks, scripts)
      ensures !raised ==> Valid() && pending < old(pending) && old(merged) <= merged
    {
      var done :| done <= pending && done != {};
      SmallerSet(pending - done, pending);
      hide Tracks, Clean;
      assert pending - done + done == pending;
      pending := pending - done;
      raised := CollectAll(done);
    }

    /** Merges the tasks in `done`, in any order, up to the first that crashed. */
    method CollectAll(done: set<nat>) returns (raised: bool)
      requires Tracks(pending + done) && pending !! done
      modifies this`merged, acc
      ensures raised ==> !Clean(cfg, chunks, scripts)
      ensures !raised ==> Tracks(pending) && old(merged) <= merged
    {
      hide Tracks, Clean;
      var left := done;
      while left != {}
        invariant Tracks(pending + left) && pending !! left && old(merged) <= merged
        decreases |left|
      {
        var t :| t in left;
        assert pending + left - {t} == pending + (left - {t});
        raised := Collect(t, pending + left);
        if raised {
          return;
        }
        left := left - {t};
      }
      assert pending + left == pending;
      raised := false;
    }

    /** Submits the chunks of one batch, waiting for a free slot before each. */
    method Feed(lines: seq<Line>) returns (raised: bool)
      requires Valid()
      modifies this`chunks, this`pending, this`merged, acc
      ensures !raised ==> chunkSize != 0 && Valid() && chunks == old(chunks) + ChunksFrom(lines, chunkSize, 0)
      ensures raised && chunkSize != 0 ==>
        && chunks <= old(chunks) + ChunksFrom(lines, chunkSize, 0)
        && !Clean(cfg, chunks, scripts)
    {
      if chunkSize == 0 {
        return true;
      }
      hide Split, Booked, Clean, Until, Valid, ChunksFrom;
      var i := 0;
      while 0 < chunkSize && i < |lines|
        invariant Valid() && chunks + ChunksFrom(lines, chunkSize, i) == old(chunks) + ChunksFrom(lines, chunkSize, 0)
        decreases |lines| - i
      {
        raised := MakeRoom();
        if raised {
          return;
        }
        CutOne(chunks, lines, chunkSize, i);
        Submit(lines[i..Until(lines, chunkSize, i)]);
        i := i + chunkSize;
      }
      CutDone(chunks, lines, chunkSize, i);
      raised := false;
    }

    method MakeRoom() returns (raised: bool)
      requires Valid()
      modifies this`pending, this`merged, acc
      ensures raised ==> !Clean(cfg, chunks, scripts)
      ensures !raised ==> Valid() && |pending| < maxInflight
    {
      hide Tracks, Clean;
      while |pending| >= maxInflight
        invariant Valid()
        decreases pending
      {
        raised := DrainOne();
        if raised {
          return;
        }
      }
      raised := false;
    }

    method Submit(chunk: seq<Line>)
      requires Valid() && |pending| < maxInflight
      modifies this`chunks, this`pending
      ensures Valid() && chunks == old(chunks) + [chunk]
    {
      hide Split, Booked, Shipped;
      SplitSubmit(|chunks|, merged, pending);
      SplitMerged(|chunks|, merged, pending);
      BookedMore(base, cfg, chunks, scripts, merged, chunk);
      pending := pending + {|chunks|};
      chunks := chunks + [chunk];
    }

    /** Joins every outstanding task. */
    method Close() returns (raised: bool)
      requires Valid()
      modifies this`pending, this`merged, acc
      ensures raised ==> !Clean(cfg, chunks, scripts)
      ensures !raised ==> Valid() && pending == {}
    {
      hide Split, Booked, Clean;
      while pending != {}
        invariant Valid()
        decreases pending
      {
        raised := DrainOne();
        if raised {
          return;
        }
      }
      raised := false;
    }
  }

  lemma SplitBelow(n: nat, merged: seq<nat>, outstanding: set<nat>, t: nat)
    requires Split(n, merged, outstanding) && t in outstanding
    ensures t < n
  {
  }

  lemma SplitMerged(n: nat, merged: seq<nat>, outstanding: set<nat>)
    requires Split(n, merged, outstanding)
    ensures forall t :: t in merged ==> t < n
  {
  }

  lemma BookedStep(base: Books, cfg: Config, chunks: seq<seq<Line>>, scripts: Scripts, order: seq<nat>, t: nat)
    ensures Booked(base, cfg, chunks, scripts, order + [t]) ==
            Enter(Booked(base, cfg, chunks, scripts, order), cfg, End(cfg, chunks, scripts, t))
  {
    hide Enter, End;
    assert (order + [t])[..|order|] == order;
  }

  lemma {:induction false} SmallerSet(a: set<nat>, b: set<nat>)
    requires a <= b
    ensures |a| <= |b|
  {
    if a != {} {
      var x :| x in a;
      SmallerSet(a - {x}, b - {x});
    }
  }

  /* ---- the partition writer ---- */

  /** What a partition reports when it ends well. */
  datatype Summary = Summary(books: Books, totalInput: nat)

  /** The lines of an Arrow batch; a null line stands for a row whose id is null or not finite. */
  function LinesOf(batch: seq<Option<Line>>): seq<Line> {
    if batch == [] then []
    else LinesOf(batch[..|batch| - 1]) + match batch[|batch| - 1] case Some(line) => [line] case None => []
  }

  function AllChunks(batches: seq<seq<Option<Line>>>, size: int, k: nat): seq<seq<Line>>
    requires k <= |batches|
  {
    if k == 0 then []
    else AllChunks(batches, size, k - 1) + ChunksFrom(LinesOf(batches[k - 1]), size, 0)
  }

  function Rows(batches: seq<seq<Option<Line>>>, k: nat): nat
    requires k <= |batches|
  {
    if k == 0 then 0 else Rows(batches, k - 1) + |batches[k - 1]|
  }

  ghost predicate IsOrder(order: seq<nat>, n: nat) {
    NoneTwice(order) && forall t: nat :: t < n <==> t in order
  }

  /** No null line among the first `k` batches, and no chunk size of zero that meets a line. */
  predicate Sane(batches: seq<seq<Option<Line>>>, k: nat, size: int)
    requires k <= |batches|
  {
    forall b :: 0 <= b < k ==> None !in batches[b] && (size == 0 ==> batches[b] == [])
  }

  lemma {:induction false} ChunksGrow(batches: seq<seq<Option<Line>>>, size: int, k: nat, k': nat)
    requires k <= k' <= |batches|
    ensures AllChunks(batches, size, k) <= AllChunks(batches, size, k')
  {
    if k < k' {
      ChunksGrow(batches, size, k, k' - 1);
    }
  }

  lemma SickStays(batches: seq<seq<Option<Line>>>, cfg: Config, size: int, scripts: Scripts, k: nat,
                  chunks: seq<seq<Line>>)
    requires k <= |batches| && chunks <= AllChunks(batches, size, k) && !Clean(cfg, chunks, scripts)
    ensures !Clean(cfg, AllChunks(batches, size, |batches|), scripts)
  {
    hide AllChunks, Clean;
    ChunksGrow(batches, size, k, |batches|);
    if Clean(cfg, AllChunks(batches, size, |batches|), scripts) {
      CleanLess(cfg, chunks, AllChunks(batches, size, |batches|), scripts);
    }
  }

  lemma {:induction false} LinesOfLength(batch: seq<Option<Line>>)
    ensures |LinesOf(batch)| <= |batch|
    ensures None !in batch ==> |LinesOf(batch)| == |batch|
  {
    if batch != [] {
      var k := |batch| - 1;
      assert batch == batch[..k] + [batch[k]];
      LinesOfLength(batch[..k]);
    }
  }

  /** The accounts of a partition that ships one chunk after the other hold exactly `chunks`, and none crashed. */
  ghost predicate Serial(chunks: seq<seq<Line>>, cfg: Config, scripts: Scripts, next: nat, acc: Accounts)
    reads acc
  {
    && next == |chunks| && |acc.samples| <= ERROR_SAMPLE_CAP && Clean(cfg, chunks, scripts)
    && BooksOf(acc) == Booked(NO_BOOKS, cfg, chunks, scripts, All(next))
  }

  lemma SerialBooks(chunks: seq<seq<Line>>, cfg: Config, scripts: Scripts, next: nat, acc: Accounts)
    requires Serial(chunks, cfg, scripts, next, acc)
    ensures next == |chunks| && BooksOf(acc) == Booked(NO_BOOKS, cfg, chunks, scripts, All(next))
    ensures Clean(cfg, chunks, scripts)
  {
  }

  lemma SerialBegins(cfg: Config, scripts: Scripts, acc: Accounts)
    requires BooksOf(acc) == NO_BOOKS
    ensures Serial([], cfg, scripts, 0, acc)
  {
    NothingBooked(cfg, scripts);
    hide Clean;
  }

  lemma ChunksStep(batches: seq<seq<Option<Line>>>, size: int, k: nat)
    requires k < |batches|
    ensures AllChunks(batches, size, k + 1) ==
            AllChunks(batches, size, k) + ChunksFrom(LinesOf(batches[k]), size, 0)
    ensures Rows(batches, k + 1) == Rows(batches, k) + |batches[k]|
  {
  }

  lemma SaneStep(batches: seq<seq<Option<Line>>>, k: nat, size: int)
    requires k < |batches| && Sane(batches, k, size)
    ensures None in batches[k] ==> !Sane(batches, |batches|, size)
    ensures None !in batches[k] && LinesOf(batches[k]) != [] && size == 0 ==> !Sane(batches, |batches|, size)
    ensures None !in batches[k] && (size != 0 || LinesOf(batches[k]) == []) ==> Sane(batches, k + 1, size)
  {
    LinesOfLength(batches[k]);
    hide LinesOf;
  }

  lemma TrackedSerial(chunks: seq<seq<Line>>, cfg: Config, size: int, scripts: Scripts, acc: Accounts)
    requires chunks == [] && BooksOf(acc) == NO_BOOKS
    ensures Tracked(chunks, cfg, size, scripts, 0, null, acc)
  {
    SerialBegins(cfg, scripts, acc);
    hide Serial;
  }

  lemma TrackedPool(cfg: Config, size: int, scripts: Scripts, shipper: PipelinedShipper, acc: Accounts)
    requires Pooled([], cfg, size, scripts, shipper, acc)
    ensures Tracked([], cfg, size, scripts, 0, shipper, acc)
  {
    hide Pooled;
  }

  /** The path of `write_concurrency == 1`: one chunk after the other, straight into the shared accounts. */
  method ShipSerially(lines: seq<Line>, cfg: Config, size: int, scripts: Scripts, first: nat, acc: Accounts,
                      ghost before: seq<seq<Line>>)
    returns (raised: bool, next: nat)
    requires Serial(before, cfg, scripts, first, acc)
    modifies acc
    ensures raised ==> size == 0 || !Clean(cfg, before + ChunksFrom(lines, size, 0), scripts)
    ensures !raised ==> size != 0 && Serial(before + ChunksFrom(lines, size, 0), cfg, scripts, next, acc)
  {
    if size == 0 {
      return true, first;
    }
    hide Booked, Clean, Until, ChunksFrom, All;
    var i := 0;
    next := first;
    ghost var whole := before + ChunksFrom(lines, size, 0);
    ghost var chunks := before;
    while 0 < size && i < |lines|
      invariant chunks + ChunksFrom(lines, size, i) == whole
      invariant Serial(chunks, cfg, scripts, next, acc)
      decreases |lines| - i
    {
      CutOne(chunks, lines, size, i);
      var chunk := lines[i..Until(lines, size, i)];
      raised := ShipNext(chunk, cfg, scripts, next, acc, chunks);
      chunks := chunks + [chunk];
      if raised {
        if Clean(cfg, whole, scripts) {
          CleanLess(cfg, chunks, whole, scripts);
        }
        return;
      }
      i, next := i + size, next + 1;
    }
    CutDone(chunks, lines, size, i);
    raised := false;
  }

  method ShipNext(chunk: seq<Line>, cfg: Config, scripts: Scripts, t: nat, acc: Accounts,
                  ghost before: seq<seq<Line>>)
    returns (raised: bool)
    requires Serial(before, cfg, scripts, t, acc)
    modifies acc
    ensures raised ==> !Clean(cfg, before + [chunk], scripts)
    ensures !raised ==> Serial(before + [chunk], cfg, scripts, t + 1, acc)
  {
    hide RunTo, Booked, Shipped, NO_BOOKS;
    var es := new EsClient(scripts(t));
    ghost var m;
    raised, m := ShipNdjsonChunk(es, chunk, cfg, acc);
    ShippedIs(cfg, chunk, scripts(t), es.calls);
    assert m == End(cfg, before + [chunk], scripts, t);
    AllPositions(t);
    BookedMore(NO_BOOKS, cfg, before, scripts, All(t), chunk);
    BookedStep(NO_BOOKS, cfg, before + [chunk], scripts, All(t), t);
    assert All(t + 1) == All(t) + [t];
    if raised {
      assert Crashes(cfg, before + [chunk], scripts, t);
    } else {
      CleanMore(cfg, before, scripts, chunk);
    }
  }

  ghost predicate Pooled(chunks: seq<seq<Line>>, cfg: Config, size: int, scripts: Scripts,
                         shipper: PipelinedShipper, acc: Accounts)
    reads shipper, acc
  {
    && shipper.acc == acc && shipper.cfg == cfg && shipper.chunkSize == size && shipper.scripts == scripts
    && shipper.base == NO_BOOKS
    && shipper.Valid()
    && shipper.chunks == chunks
  }

  /** Either way of shipping keeps the accounts of exactly these chunks. */
  ghost predicate Tracked(chunks: seq<seq<Line>>, cfg: Config, size: int, scripts: Scripts, next: nat,
                          shipper: PipelinedShipper?, acc: Accounts)
    reads shipper, acc
  {
    if shipper == null then Serial(chunks, cfg, scripts, next, acc)
    else Pooled(chunks, cfg, size, scripts, shipper, acc)
  }

  /** The lines of one batch: fed to the pool, or shipped on the spot. If it raises over a chunk, `sick` is a list of
      chunks, submitted so far, that is not clean. */
  method ShipBatch(lines: seq<Line>, cfg: Config, size: int, scripts: Scripts, first: nat, acc: Accounts,
                   shipper: PipelinedShipper?, ghost before: seq<seq<Line>>)
    returns (raised: bool, next: nat, ghost sick: seq<seq<Line>>)
    requires Tracked(before, cfg, size, scripts, first, shipper, acc)
    modifies acc, if shipper == null then {} else {shipper}
    ensures raised ==> lines != []
    ensures raised && size != 0 ==>
      sick <= before + ChunksFrom(lines, size, 0) && !Clean(cfg, sick, scripts)
    ensures !raised ==>
      && (size != 0 || lines == [])
      && Tracked(before + ChunksFrom(lines, size, 0), cfg, size, scripts, next, shipper, acc)
  {
    hide Serial, Clean, ChunksFrom, Booked;
    raised, next, sick := false, first, [];
    if lines == [] {
      CutDone(before, lines, size, 0);
    } else if shipper != null {
      raised := shipper.Feed(lines);
      sick := shipper.chunks;
    } else {
      raised, next := ShipSerially(lines, cfg, size, scripts, first, acc, before);
      sick := before + ChunksFrom(lines, size, 0);
    }
  }

  lemma AllMerged(n: nat, merged: seq<nat>)
    requires Split(n, merged, {})
    ensures IsOrder(merged, n)
  {
  }

  lemma OrderAll(n: nat)
    ensures IsOrder(All(n), n)
  {
    AllPositions(n);
  }

  lemma ClosedIsClean(s: PipelinedShipper)
    requires s.Tracks({})
    ensures Clean(s.cfg, s.chunks, s.scripts)
  {
    hide Shipped, Booked;
  }

  /** Waits for whatever is still outstanding before the partition reports. */
  method Join(cfg: Config, size: int, scripts: Scripts, next: nat, acc: Accounts, shipper: PipelinedShipper?,
              ghost chunks: seq<seq<Line>>)
    returns (raised: bool, ghost order: seq<nat>)
    requires Tracked(chunks, cfg, size, scripts, next, shipper, acc)
    modifies acc, if shipper == null then {} else {shipper}
    ensures raised <==> !Clean(cfg, chunks, scripts)
    ensures !raised ==>
      IsOrder(order, |chunks|) && BooksOf(acc) == Booked(NO_BOOKS, cfg, chunks, scripts, order)
    ensures !raised && shipper == null ==> order == All(|chunks|)
  {
    hide Booked, Split, IsOrder, Clean, Shipped, All, Serial;
    raised, order := false, [];
    if shipper != null {
      raised := shipper.Close();
      if !raised {
        order := shipper.merged;
        AllMerged(|shipper.chunks|, order);
        ClosedIsClean(shipper);
      }
    } else {
      order := All(next);
      OrderAll(next);
      SerialBooks(chunks, cfg, scripts, next, acc);
    }
  }

  /** Batch `k` of the partition. If it raises, the partition cannot report. */
  method ShipArrowBatch(batches: seq<seq<Option<Line>>>, k: nat, cfg: Config, size: int, scripts: Scripts,
                        first: nat, acc: Accounts, shipper: PipelinedShipper?)
    returns (raised: bool, next: nat)
    requires k < |batches| && Sane(batches, k, size)
    requires Tracked(AllChunks(batches, size, k), cfg, size, scripts, first, shipper, acc)
    modifies acc, if shipper == null then {} else {shipper}
    ensures raised ==>
      !Sane(batches, |batches|, size) || !Clean(cfg, AllChunks(batches, size, |batches|), scripts)
    ensures !raised ==>
      && Sane(batches, k + 1, size)
      && Tracked(AllChunks(batches, size, k + 1), cfg, size, scripts, next, shipper, acc)
  {
    SaneStep(batches, k, size);
    ChunksStep(batches, size, k);
    hide *;
    if None in batches[k] {
      return true, first;
    }
    ghost var sick;
    raised, next, sick := ShipBatch(LinesOf(batches[k]), cfg, size, scripts, first, acc, shipper,
                                    AllChunks(batches, size, k));
    if raised && size != 0 {
      SickStays(batches, cfg, size, scripts, k + 1, sick);
    }
  }

  /** What a partition gives back when its tasks are merged in the order `order`. It reports exactly when nothing in
      it raises: no null line, no chunk size of zero, no crashed task. The report then covers every chunk once. */
  ghost predicate Reports(batches: seq<seq<Option<Line>>>, cfg: Config, size: int, scripts: Scripts, order: seq<nat>,
                          report: Option<Summary>)
  {
    var chunks := AllChunks(batches, size, |batches|);
    && (report.Some? <==> Sane(batches, |batches|, size) && Clean(cfg, chunks, scripts))
    && (report.Some? ==>
          && IsOrder(order, |chunks|)
          && report.value == Summary(Booked(NO_BOOKS, cfg, chunks, scripts, order), Rows(batches, |batches|)))
  }

  lemma NoReport(batches: seq<seq<Option<Line>>>, cfg: Config, size: int, scripts: Scripts)
    requires !Sane(batches, |batches|, size) || !Clean(cfg, AllChunks(batches, size, |batches|), scripts)
    ensures Reports(batches, cfg, size, scripts, [], None)
  {
    hide Sane, Clean, AllChunks;
  }

  lemma FullReport(batches: seq<seq<Option<Line>>>, cfg: Config, size: int, scripts: Scripts, order: seq<nat>,
                   books: Books)
    requires Sane(batches, |batches|, size) && Clean(cfg, AllChunks(batches, size, |batches|), scripts)
    requires IsOrder(order, |AllChunks(batches, size, |batches|)|)
    requires books == Booked(NO_BOOKS, cfg, AllChunks(batches, size, |batches|), scripts, order)
    ensures Reports(batches, cfg, size, scripts, order, Some(Summary(books, Rows(batches, |batches|))))
  {
    hide Sane, Clean, AllChunks, IsOrder, Booked, Rows;
  }

  /** Ships a partition and reports it. Without a pool, the tasks are merged in the order of submission. */
  method WritePartition(batches: seq<seq<Option<Line>>>, cfg: Config, writeConcurrency: nat, size: int,
                        scripts: Scripts)
    returns (report: Option<Summary>, ghost order: seq<nat>)
    ensures report.Some? <==>
      Sane(batches, |batches|, size) && Clean(cfg, AllChunks(batches, size, |batches|), scripts)
    ensures Reports(batches, cfg, size, scripts, order, report)
    ensures report.Some? && writeConcurrency <= 1 ==> order == All(|AllChunks(batches, size, |batches|)|)
  {
    var acc := new Accounts();
    var shipper: PipelinedShipper? := null;
    var next, totalInput := 0, 0;
    order := [];
    assert Rows(batches, 0) == 0 && AllChunks(batches, size, 0) == [] && Sane(batches, 0, size);
    assert BooksOf(acc) == NO_BOOKS;
    hide *;
    if writeConcurrency > 1 {
      shipper := new PipelinedShipper(cfg, size, writeConcurrency, scripts, acc);
      TrackedPool(cfg, size, scripts, shipper, acc);
    } else {
      TrackedSerial([], cfg, size, scripts, acc);
    }
    for k := 0 to |batches|
      invariant totalInput == Rows(batches, k) && Sane(batches, k, size)
      invariant Tracked(AllChunks(batches, size, k), cfg, size, scripts, next, shipper, acc)
      invariant fresh(acc) && (shipper != null ==> fresh(shipper))
    {
      totalInput := totalInput + |batches[k]|;
      ChunksStep(batches, size, k);
      var raised;
      raised, next := ShipArrowBatch(batches, k, cfg, size, scripts, next, acc, shipper);
      if raised {
        NoReport(batches, cfg, size, scripts);
        return None, [];
      }
    }
    var raised;
    raised, order := Join(cfg, size, scripts, next, acc, shipper, AllChunks(batches, size, |batches|));
    if raised {
      NoReport(batches, cfg, size, scripts);
      return None, [];
    }
    FullReport(batches, cfg, size, scripts, order, BooksOf(acc));
    report := Some(Summary(BooksOf(acc), totalInput));
  }

  lemma NothingBooked(cfg: Config, scripts: Scripts)
    ensures Booked(NO_BOOKS, cfg, [], scripts, All(0)) == NO_BOOKS && Clean(cfg, [], scripts)
  {
  }
}
