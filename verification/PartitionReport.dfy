/** What the report of one partition means. */
module PartitionReport {
  // The pool changes nothing but order, rows balance, and the diagnostics of the chunks add up.

  import opened Wrappers
  import opened ChunkProtocol
  import opened ChunkAccounts
  import opened ChunkShipper
  import opened Documents
  import opened Arrangement
  import opened Pipeline
  import Cluster
  import Stream
  import Verdict

  /* ---- the order of completion does not matter ---- */

  /** Two sets of books that agree on everything but the order of samples and send records. */
  ghost predicate SameButOrder(a: Books, b: Books) {
    a.counts == b.counts && a.diag == b.diag && multiset(a.stats) == multiset(b.stats)
  }

  lemma EnterAlike(a: Books, b: Books, cfg: Config, m: Machine)
    requires SameButOrder(a, b)
    ensures SameButOrder(Enter(a, cfg, m), Enter(b, cfg, m))
  {
    hide StatsOf, Cap;
  }

  lemma EnterSwaps(b: Books, cfg: Config, m: Machine, m': Machine)
    ensures SameButOrder(Enter(Enter(b, cfg, m), cfg, m'), Enter(Enter(b, cfg, m'), cfg, m))
  {
    hide StatsOf, Cap;
    StatsSwap(b.stats, StatsOf(m.sends), StatsOf(m'.sends));
  }

  lemma StatsSwap(s: seq<SendStat>, x: seq<SendStat>, y: seq<SendStat>)
    ensures multiset(s + x + y) == multiset(s + y + x)
  {
    assert multiset(s + x + y) == multiset(s) + multiset(x) + multiset(y);
    assert multiset(s + y + x) == multiset(s) + multiset(y) + multiset(x);
  }

  lemma {:induction false} BookedLast(
    cfg: Config, chunks: seq<seq<Line>>, scripts: Scripts, order: seq<nat>, i: nat)
    requires i < |order|
    ensures SameButOrder(
              Booked(NO_BOOKS, cfg, chunks, scripts, order),
              Booked(NO_BOOKS, cfg, chunks, scripts, order[..i] + order[i + 1..] + [order[i]]))
  {
    hide End, Enter, SameButOrder;
    var k := |order| - 1;
    var m, last := End(cfg, chunks, scripts, order[i]), End(cfg, chunks, scripts, order[k]);
    var without := order[..i] + order[i + 1..];
    BookedStep(NO_BOOKS, cfg, chunks, scripts, without, order[i]);
    if i == k {
      assert without == order[..k];
      Alike(Booked(NO_BOOKS, cfg, chunks, scripts, order));
    } else {
      var rest := order[..k][..i] + order[..k][i + 1..];
      BookedLast(cfg, chunks, scripts, order[..k], i);
      BookedStep(NO_BOOKS, cfg, chunks, scripts, rest, order[i]);
      BookedStep(NO_BOOKS, cfg, chunks, scripts, rest, order[k]);
      assert without == rest + [order[k]];
      var b := Booked(NO_BOOKS, cfg, chunks, scripts, rest);
      EnterAlike(Booked(NO_BOOKS, cfg, chunks, scripts, order[..k]), Enter(b, cfg, m), cfg, last);
      EnterSwaps(b, cfg, m, last);
      AlikeTrans(Booked(NO_BOOKS, cfg, chunks, scripts, order), Enter(Enter(b, cfg, m), cfg, last),
                 Enter(Enter(b, cfg, last), cfg, m));
    }
  }

  lemma Alike(b: Books)
    ensures SameButOrder(b, b)
  {
  }

  lemma AlikeTrans(a: Books, b: Books, c: Books)
    requires SameButOrder(a, b) && SameButOrder(b, c)
    ensures SameButOrder(a, c)
  {
  }

  lemma {:induction false} BookedPermutes(
    cfg: Config, chunks: seq<seq<Line>>, scripts: Scripts, order: seq<nat>, order': seq<nat>)
    requires multiset(order) == multiset(order')
    ensures SameButOrder(Booked(NO_BOOKS, cfg, chunks, scripts, order),
                         Booked(NO_BOOKS, cfg, chunks, scripts, order'))
  {
    hide End, Enter, SameButOrder;
    if order == [] {
      assert |multiset(order')| == 0;
      Alike(NO_BOOKS);
    } else {
      var k := |order| - 1;
      assert order[k] in multiset(order);
      var i :| 0 <= i < |order'| && order'[i] == order[k];
      var without := order'[..i] + order'[i + 1..];
      Verdict.Without(order, k);
      Verdict.Without(order', i);
      assert order[..k] + order[k + 1..] == order[..k];
      assert Booked(NO_BOOKS, cfg, chunks, scripts, order) ==
             Enter(Booked(NO_BOOKS, cfg, chunks, scripts, order[..k]), cfg, End(cfg, chunks, scripts, order[k]));
      hide Booked;
      BookedPermutes(cfg, chunks, scripts, order[..k], without);
      BookedLast(cfg, chunks, scripts, order', i);
      BookedStep(NO_BOOKS, cfg, chunks, scripts, without, order[k]);
      var b, b' := Booked(NO_BOOKS, cfg, chunks, scripts, order[..k]), Booked(NO_BOOKS, cfg, chunks, scripts, without);
      EnterAlike(b, b', cfg, End(cfg, chunks, scripts, order[k]));
      AlikeBack(Booked(NO_BOOKS, cfg, chunks, scripts, order'),
                Booked(NO_BOOKS, cfg, chunks, scripts, without + [order[k]]));
      AlikeTrans(Booked(NO_BOOKS, cfg, chunks, scripts, order),
                 Booked(NO_BOOKS, cfg, chunks, scripts, without + [order[k]]),
                 Booked(NO_BOOKS, cfg, chunks, scripts, order'));
    }
  }

  lemma AlikeBack(a: Books, b: Books)
    requires SameButOrder(a, b)
    ensures SameButOrder(b, a)
  {
  }

  lemma {:induction false} OrdersAgree(order: seq<nat>, order': seq<nat>)
    requires NoneTwice(order) && NoneTwice(order') && forall t :: t in order <==> t in order'
    ensures multiset(order) == multiset(order')
  {
    forall t: nat ensures multiset(order)[t] == multiset(order')[t] {
      OnceIn(order, t);
      OnceIn(order', t);
    }
  }

  lemma {:induction false} OnceIn(order: seq<nat>, t: nat)
    requires NoneTwice(order)
    ensures multiset(order)[t] == if t in order then 1 else 0
  {
    if order != [] {
      var k := |order| - 1;
      assert order == order[..k] + [order[k]];
      OnceIn(order[..k], t);
    }
  }

  /** The pool refines serial shipping: whatever order its tasks finish in, the counters and the diagnostics are those
      of the chunks shipped one after the other, and the send records are the same up to order. */
  lemma PoolIsSerial(cfg: Config, chunks: seq<seq<Line>>, scripts: Scripts, order: seq<nat>)
    requires IsOrder(order, |chunks|)
    ensures SameButOrder(Booked(NO_BOOKS, cfg, chunks, scripts, order),
                         Booked(NO_BOOKS, cfg, chunks, scripts, All(|chunks|)))
  {
    hide Booked, SameButOrder;
    OrderAll(|chunks|);
    OrdersAgree(order, All(|chunks|));
    BookedPermutes(cfg, chunks, scripts, order, All(|chunks|));
  }

  /* ---- rows balance ---- */

  function Skews(cfg: Config, chunks: seq<seq<Line>>, scripts: Scripts, n: nat): int {
    if n == 0 then 0 else Skews(cfg, chunks, scripts, n - 1) + End(cfg, chunks, scripts, n - 1).skew
  }

  lemma Ended(cfg: Config, chunk: seq<Line>, script: nat -> Answer)
    ensures !Shipped(cfg, chunk, script).Active()
  {
    hide RunTo, CallBudget;
    RetryBudget(cfg, |chunk|, script, 0, CallBudget(cfg));
  }

  lemma EndedConserved(cfg: Config, chunk: seq<Line>, script: nat -> Answer)
    ensures var m := Shipped(cfg, chunk, script);
      !m.phase.Crashed? ==> m.counts.Total() == |chunk| + m.skew
  {
    Ended(cfg, chunk, script);
    hide RunTo, CallBudget, Shaped;
    ChunkConservation(cfg, |chunk|, script, 0, CallBudget(cfg));
  }

  lemma EnteredTotal(b: Books, cfg: Config, m: Machine)
    ensures Enter(b, cfg, m).counts.Total() == b.counts.Total() + m.counts.Total()
  {
  }

  lemma AllMore(n: nat)
    ensures All(n + 1) == All(n) + [n]
  {
  }

  lemma {:induction false} SerialConserves(cfg: Config, chunks: seq<seq<Line>>, scripts: Scripts, n: nat)
    requires n <= |chunks| && Clean(cfg, chunks, scripts)
    ensures Booked(NO_BOOKS, cfg, chunks, scripts, All(n)).counts.Total() ==
            |Flatten(chunks[..n])| + Skews(cfg, chunks, scripts, n)
  {
    hide Shipped, Enter;
    if n > 0 {
      SerialConserves(cfg, chunks, scripts, n - 1);
      AllMore(n - 1);
      BookedStep(NO_BOOKS, cfg, chunks, scripts, All(n - 1), n - 1);
      EnteredTotal(Booked(NO_BOOKS, cfg, chunks, scripts, All(n - 1)), cfg, End(cfg, chunks, scripts, n - 1));
      assert !Crashes(cfg, chunks, scripts, n - 1);
      EndedConserved(cfg, chunks[n - 1], scripts(n - 1));
      assert chunks[..n][..n - 1] == chunks[..n - 1];
    }
  }

  lemma {:induction false} RowsCovered(batches: seq<seq<Option<Line>>>, size: int, k: nat)
    requires k <= |batches| && Sane(batches, k, size)
    ensures |Flatten(AllChunks(batches, size, k))| == if size > 0 then Rows(batches, k) else 0
  {
    if k > 0 {
      var lines := LinesOf(batches[k - 1]);
      RowsCovered(batches, size, k - 1);
      LinesOfLength(batches[k - 1]);
      FlattenJoin(AllChunks(batches, size, k - 1), ChunksFrom(lines, size, 0));
      if size > 0 {
        ChunksCover(lines, size, 0);
      }
    }
  }

  /** The outcomes of a reported partition are its rows plus the excess of items its replies had over the lines sent.
      A negative chunk size sends nothing, and reports its rows as lost. */
  lemma ReportConserves(batches: seq<seq<Option<Line>>>, cfg: Config, size: int, scripts: Scripts, order: seq<nat>)
    requires Sane(batches, |batches|, size) && Clean(cfg, AllChunks(batches, size, |batches|), scripts)
    requires IsOrder(order, |AllChunks(batches, size, |batches|)|)
    ensures var chunks := AllChunks(batches, size, |batches|);
      Booked(NO_BOOKS, cfg, chunks, scripts, order).counts.Total() ==
      (if size > 0 then Rows(batches, |batches|) else 0) + Skews(cfg, chunks, scripts, |chunks|)
  {
    var chunks := AllChunks(batches, size, |batches|);
    hide Booked, IsOrder, Clean, Skews, AllChunks, Sane;
    PoolIsSerial(cfg, chunks, scripts, order);
    SerialConserves(cfg, chunks, scripts, |chunks|);
    RowsCovered(batches, size, |batches|);
    assert chunks[..|chunks|] == chunks;
  }

  /** When every reply has one item per line, a partition that reports at all balances exactly when the chunk size is
      positive, or there was nothing to send. */
  lemma BalancedExactlyWhenCut(
    batches: seq<seq<Option<Line>>>, cfg: Config, size: int, scripts: Scripts, order: seq<nat>)
    requires Sane(batches, |batches|, size) && Clean(cfg, AllChunks(batches, size, |batches|), scripts)
    requires IsOrder(order, |AllChunks(batches, size, |batches|)|)
    requires forall t :: End(cfg, AllChunks(batches, size, |batches|), scripts, t).skew == 0
    ensures Booked(NO_BOOKS, cfg, AllChunks(batches, size, |batches|), scripts, order).counts.Total() ==
              Rows(batches, |batches|) <==>
            size > 0 || Rows(batches, |batches|) == 0
  {
    hide Booked, IsOrder, Clean, AllChunks, Sane, End;
    ReportConserves(batches, cfg, size, scripts, order);
    var chunks := AllChunks(batches, size, |batches|);
    NoSkew(cfg, chunks, scripts, |chunks|);
  }

  lemma {:induction false} NoSkew(cfg: Config, chunks: seq<seq<Line>>, scripts: Scripts, n: nat)
    requires forall t :: End(cfg, chunks, scripts, t).skew == 0
    ensures Skews(cfg, chunks, scripts, n) == 0
  {
    hide End;
    if n > 0 {
      NoSkew(cfg, chunks, scripts, n - 1);
    }
  }

  /* ---- the diagnostics of a partition ---- */

  function Drops(cfg: Config, chunks: seq<seq<Line>>, scripts: Scripts, order: seq<nat>): nat {
    if order == [] then 0
    else Drops(cfg, chunks, scripts, order[..|order| - 1]) + End(cfg, chunks, scripts, order[|order| - 1]).dropped
  }

  lemma EndedBalanced(cfg: Config, chunk: seq<Line>, script: nat -> Answer)
    ensures Balanced(|chunk|, Shipped(cfg, chunk, script))
  {
    hide RunTo, CallBudget, Balanced;
    RejectionLedger(cfg, |chunk|, script, 0, CallBudget(cfg));
  }

  /** Of all errors, `drops` are lines of requests that failed as a whole; the reject counters hold the others, and
      the documents retried. */
  ghost predicate Tallied(b: Books, drops: nat) {
    b.diag.Rejected() + drops == b.diag.docsRetried + b.counts.errors
  }

  lemma EnterTallied(b: Books, drops: nat, cfg: Config, n: nat, m: Machine)
    requires cfg.bulkStats && Tallied(b, drops) && Balanced(n, m) && !m.phase.Crashed?
    ensures Tallied(Enter(b, cfg, m), drops + m.dropped)
  {
    hide StatsOf, Cap;
  }

  lemma InFront(order: seq<nat>, t: nat)
    requires order != [] && t in order[..|order| - 1]
    ensures t in order
  {
  }

  lemma {:induction false} ReportRejections(cfg: Config, chunks: seq<seq<Line>>, scripts: Scripts, order: seq<nat>)
    requires cfg.bulkStats && Clean(cfg, chunks, scripts) && forall t :: t in order ==> t < |chunks|
    ensures Tallied(Booked(NO_BOOKS, cfg, chunks, scripts, order), Drops(cfg, chunks, scripts, order))
  {
    hide Shipped, Enter, Balanced;
    if order != [] {
      var k := |order| - 1;
      hide Tallied;
      forall x | x in order[..k] ensures x < |chunks| {
        InFront(order, x);
      }
      ReportRejections(cfg, chunks, scripts, order[..k]);
      var t := order[k];
      assert t in order && !Crashes(cfg, chunks, scripts, t);
      EndedBalanced(cfg, chunks[t], scripts(t));
      EnterTallied(Booked(NO_BOOKS, cfg, chunks, scripts, order[..k]), Drops(cfg, chunks, scripts, order[..k]), cfg,
                   |chunks[t]|, End(cfg, chunks, scripts, t));
    }
  }

  /** A partition that counted errors shows a diagnostic, and one that counted none shows none. */
  lemma {:induction false} ReportSamples(cfg: Config, chunks: seq<seq<Line>>, scripts: Scripts, order: seq<nat>)
    requires Clean(cfg, chunks, scripts) && forall t :: t in order ==> t < |chunks| && chunks[t] != []
    ensures var b := Booked(NO_BOOKS, cfg, chunks, scripts, order);
      b.samples == [] <==> b.counts.errors == 0
  {
    hide Shipped, StatsOf;
    if order != [] {
      var k := |order| - 1;
      forall x | x in order[..k] ensures x < |chunks| && chunks[x] != [] {
        InFront(order, x);
      }
      ReportSamples(cfg, chunks, scripts, order[..k]);
      var t := order[k];
      assert t in order && !Crashes(cfg, chunks, scripts, t);
      EndedBalanced(cfg, chunks[t], scripts(t));
    }
  }

  /* ---- the send records ---- */

  function Tagged(stats: seq<SendStat>, o: SendOutcome): nat {
    if stats == [] then 0
    else Tagged(stats[..|stats| - 1], o) + if stats[|stats| - 1].outcome == o then 1 else 0
  }

  function DocsTagged(stats: seq<SendStat>, o: SendOutcome): nat {
    if stats == [] then 0
    else
      var last := stats[|stats| - 1];
      DocsTagged(stats[..|stats| - 1], o) + if last.outcome == o then last.docs else 0
  }

  /** The columns derived from the send records, times and bytes left out. */
  datatype SendTotals = SendTotals(nSends: nat, docsSent: nat, timeoutSends: nat, errorSends: nat)

  function AggregateBulkStats(stats: seq<SendStat>): SendTotals {
    SendTotals(Tagged(stats, SendOk), DocsTagged(stats, SendOk), Tagged(stats, SendTimeout), Tagged(stats, SendError))
  }

  /** The calls a partition made, and the lines they carried again after a probe that was not clean. */
  function Calls(cfg: Config, chunks: seq<seq<Line>>, scripts: Scripts, order: seq<nat>): nat {
    if order == [] then 0
    else Calls(cfg, chunks, scripts, order[..|order| - 1]) + |End(cfg, chunks, scripts, order[|order| - 1]).sends|
  }

  function Reships(cfg: Config, chunks: seq<seq<Line>>, scripts: Scripts, order: seq<nat>): nat {
    if order == [] then 0
    else
      var t := order[|order| - 1];
      Reships(cfg, chunks, scripts, order[..|order| - 1]) +
      if t < |chunks| && Reshipped(cfg, End(cfg, chunks, scripts, t)) then |chunks[t]| else 0
  }

  function LinesIn(chunks: seq<seq<Line>>, order: seq<nat>): nat {
    if order == [] then 0
    else
      var t := order[|order| - 1];
      LinesIn(chunks, order[..|order| - 1]) + if t < |chunks| then |chunks[t]| else 0
  }

  lemma {:induction false} StatsLength(sends: seq<Send>)
    ensures |StatsOf(sends)| == |sends|
  {
    if sends != [] {
      StatsLength(sends[..|sends| - 1]);
    }
  }

  /** Every send record has one of the three tags. */
  lemma {:induction false} TagsCover(stats: seq<SendStat>)
    ensures Tagged(stats, SendOk) + Tagged(stats, SendTimeout) + Tagged(stats, SendError) == |stats|
  {
    if stats != [] {
      TagsCover(stats[..|stats| - 1]);
    }
  }

  lemma {:induction false} ReportCalls(cfg: Config, chunks: seq<seq<Line>>, scripts: Scripts, order: seq<nat>)
    requires cfg.bulkStats
    ensures var sums := AggregateBulkStats(Booked(NO_BOOKS, cfg, chunks, scripts, order).stats);
      sums.nSends + sums.timeoutSends + sums.errorSends == Calls(cfg, chunks, scripts, order)
  {
    hide Shipped, End;
    TagsCover(Booked(NO_BOOKS, cfg, chunks, scripts, order).stats);
    if order != [] {
      var k := |order| - 1;
      ReportCalls(cfg, chunks, scripts, order[..k]);
      TagsCover(Booked(NO_BOOKS, cfg, chunks, scripts, order[..k]).stats);
      StatsLength(End(cfg, chunks, scripts, order[k]).sends);
    }
  }

  lemma {:induction false} DocsTaggedJoin(a: seq<SendStat>, b: seq<SendStat>, o: SendOutcome)
    ensures DocsTagged(a + b, o) == DocsTagged(a, o) + DocsTagged(b, o)
    ensures Tagged(a + b, o) == Tagged(a, o) + Tagged(b, o)
  {
    if b == [] {
      assert a + b == a;
    } else {
      assert (a + b)[..|a + b| - 1] == a + b[..|b| - 1];
      DocsTaggedJoin(a, b[..|b| - 1], o);
    }
  }

  lemma {:induction false} AllSentOk(sends: seq<Send>)
    ensures Tagged(StatsOf(sends), SendTimeout) == 0 && Tagged(StatsOf(sends), SendError) == 0 <==> NoneRaised(sends)
    ensures NoneRaised(sends) ==> DocsTagged(StatsOf(sends), SendOk) == DocsSent(sends)
  {
    if sends != [] {
      var k := |sends| - 1;
      assert sends == sends[..k] + [sends[k]];
      AllSentOk(sends[..k]);
    }
  }

  lemma EndedCarriage(cfg: Config, chunk: seq<Line>, script: nat -> Answer)
    ensures var m := Shipped(cfg, chunk, script);
      NoneRaised(m.sends) && !m.phase.Crashed? ==>
        DocsSent(m.sends) == |chunk| + m.diag.docsRetried + if Reshipped(cfg, m) then |chunk| else 0
  {
    Ended(cfg, chunk, script);
    hide RunTo, CallBudget;
    DocumentsSent(cfg, |chunk|, script, 0, CallBudget(cfg));
  }

  /** With no raised call, the documents sent are the rows, once more the rows of every chunk whose probe did not come
      back clean, and the documents retried. */
  lemma {:induction false} ReportDocuments(cfg: Config, chunks: seq<seq<Line>>, scripts: Scripts, order: seq<nat>)
    requires cfg.bulkStats && Clean(cfg, chunks, scripts) && forall t :: t in order ==> t < |chunks|
    ensures var b := Booked(NO_BOOKS, cfg, chunks, scripts, order);
      var sums := AggregateBulkStats(b.stats);
      sums.timeoutSends == 0 && sums.errorSends == 0 ==>
        sums.docsSent == LinesIn(chunks, order) + Reships(cfg, chunks, scripts, order) + b.diag.docsRetried
  {
    if order != [] {
      hide Shipped, Reshipped, NoneRaised, Tagged, DocsTagged, Cap;
      var k := |order| - 1;
      var t := order[k];
      assert t in order && !Crashes(cfg, chunks, scripts, t);
      forall x | x in order[..k] ensures x < |chunks| {
        InFront(order, x);
      }
      ReportDocuments(cfg, chunks, scripts, order[..k]);
      var stats, sends := Booked(NO_BOOKS, cfg, chunks, scripts, order[..k]).stats, End(cfg, chunks, scripts, t).sends;
      DocsTaggedJoin(stats, StatsOf(sends), SendOk);
      DocsTaggedJoin(stats, StatsOf(sends), SendTimeout);
      DocsTaggedJoin(stats, StatsOf(sends), SendError);
      AllSentOk(sends);
      EndedCarriage(cfg, chunks[t], scripts(t));
    }
  }

  /** The length of each chunk, as a function of its number. */
  function Size(chunks: seq<seq<Line>>): nat -> int {
    (t: nat) => if t < |chunks| then |chunks[t]| else 0
  }

  lemma {:induction false} LinesInSum(chunks: seq<seq<Line>>, order: seq<nat>)
    ensures LinesIn(chunks, order) == Verdict.Sum(order, Size(chunks))
  {
    if order != [] {
      LinesInSum(chunks, order[..|order| - 1]);
    }
  }

  lemma {:induction false} LinesInSerial(chunks: seq<seq<Line>>, n: nat)
    requires n <= |chunks|
    ensures LinesIn(chunks, All(n)) == |Flatten(chunks[..n])|
  {
    if n > 0 {
      LinesInSerial(chunks, n - 1);
      AllMore(n - 1);
      assert All(n)[..n - 1] == All(n - 1);
      assert chunks[..n][..n - 1] == chunks[..n - 1];
    }
  }

  lemma LinesInAll(chunks: seq<seq<Line>>, order: seq<nat>)
    requires IsOrder(order, |chunks|)
    ensures LinesIn(chunks, order) == |Flatten(chunks)|
  {
    OrderAll(|chunks|);
    OrdersAgree(order, All(|chunks|));
    LinesInSum(chunks, order);
    LinesInSum(chunks, All(|chunks|));
    Verdict.SumPermutes(order, All(|chunks|), Size(chunks));
    LinesInSerial(chunks, |chunks|);
    assert chunks[..|chunks|] == chunks;
  }

  /** In terms of a whole reported partition: with no raised call, `docs_sent` is the rows that went in, plus the
      lines sent again after a probe, plus the documents retried. */
  lemma ReportDocsSent(batches: seq<seq<Option<Line>>>, cfg: Config, size: nat, scripts: Scripts, order: seq<nat>)
    requires cfg.bulkStats && size > 0 && Sane(batches, |batches|, size)
    requires Clean(cfg, AllChunks(batches, size, |batches|), scripts)
    requires IsOrder(order, |AllChunks(batches, size, |batches|)|)
    ensures var chunks := AllChunks(batches, size, |batches|);
      var b := Booked(NO_BOOKS, cfg, chunks, scripts, order);
      var sums := AggregateBulkStats(b.stats);
      sums.timeoutSends == 0 && sums.errorSends == 0 ==>
        sums.docsSent == Rows(batches, |batches|) + Reships(cfg, chunks, scripts, order) + b.diag.docsRetried
  {
    var chunks := AllChunks(batches, size, |batches|);
    RowsCovered(batches, size, |batches|);
    LinesInAll(chunks, order);
    hide Booked, Clean, AllChunks, Sane, Rows, AggregateBulkStats, Reships;
    ReportDocuments(cfg, chunks, scripts, order);
  }

  /* ---- the report as a row of the rollup ---- */

  /** The summary row of a report. */
  function RowFor(s: Summary): Verdict.Row {
    var c := s.books.counts;
    Verdict.Row(Some(c.written), Some(c.deleted), Some(c.errors), Some(c.ignored), Some(s.totalInput),
                Some(s.books.samples))
  }

  /** The chunk machines of a run are the ones the partition shipped, listed in the order they were merged. */
  ghost predicate Matches(procs: seq<Cluster.Proc>, layout: seq<seq<Line>>, cfg: Config, chunks: seq<seq<Line>>,
                          scripts: Scripts, order: seq<nat>)
  {
    && |procs| == |layout| == |order|
    && forall i :: 0 <= i < |order| ==>
         order[i] < |chunks| && layout[i] == chunks[order[i]] && procs[i].m == End(cfg, chunks, scripts, order[i])
  }

  lemma {:induction false} BooksAreSums(procs: seq<Cluster.Proc>, layout: seq<seq<Line>>, cfg: Config,
                                        chunks: seq<seq<Line>>, scripts: Scripts, order: seq<nat>)
    requires Matches(procs, layout, cfg, chunks, scripts, order)
    ensures var b := Booked(NO_BOOKS, cfg, chunks, scripts, order);
      && b.counts == Stream.SumCounts(procs)
      && b.samples == Cap(Stream.Failures(procs))
      && LinesIn(chunks, order) == |Flatten(layout)|
  {
    hide End, StatsOf;
    if order != [] {
      var k := |order| - 1;
      BooksAreSums(procs[..k], layout[..k], cfg, chunks, scripts, order[..k]);
      hide Cap;
      CapMore(Stream.Failures(procs[..k]), procs[k].m.failures);
    }
  }

  /** What a partition reports is the row that the verdict on the whole write is computed from. */
  lemma ReportIsRow(batches: seq<seq<Option<Line>>>, cfg: Config, size: nat, scripts: Scripts, order: seq<nat>,
                    procs: seq<Cluster.Proc>, layout: seq<seq<Line>>)
    requires size > 0 && Sane(batches, |batches|, size)
    requires IsOrder(order, |AllChunks(batches, size, |batches|)|)
    requires Matches(procs, layout, cfg, AllChunks(batches, size, |batches|), scripts, order)
    ensures var b := Booked(NO_BOOKS, cfg, AllChunks(batches, size, |batches|), scripts, order);
      RowFor(Summary(b, Rows(batches, |batches|))) == Stream.RowOf(procs, layout)
  {
    var chunks := AllChunks(batches, size, |batches|);
    hide Booked, AllChunks, IsOrder, Sane, Rows, Flatten, Matches, Stream.SumCounts, Stream.Failures, Cap;
    RowsCovered(batches, size, |batches|);
    LinesInAll(chunks, order);
    BooksAreSums(procs, layout, cfg, chunks, scripts, order);
  }
}
