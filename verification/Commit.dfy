/** The checkpoint theorem over the reports the partitions give back. */
module Commit {
  // The parts of a write meet here: the lines of a batch are split over partitions, each partition ships its chunks
  // and reports, the reports are rolled up into a verdict, and the verdict decides whether the batch commits. The
  // calls in the cluster and the calls of the partitions are the same calls: what the cluster answers to a chunk is
  // what the task that ships the chunk is told.

  import opened Wrappers
  import opened ChunkProtocol
  import opened Documents
  import opened Cluster
  import opened Confluence
  import opened Arrangement
  import opened Pipeline
  import opened PartitionReport
  import opened Stream
  import Verdict

  /* ---- a run of the cluster is what the tasks are told ---- */

  /** The answers the current attempt at chunk `c` has got, oldest first. */
  function AnswersOf(events: seq<Event>, c: nat): seq<Answer> {
    if events == [] then []
    else
      var before, last := AnswersOf(events[..|events| - 1], c), events[|events| - 1];
      if last.c != c then before
      else match last.act
        case Apply(_, _) => before
        case Returned(a) => before + [a]
        case Restart => []
  }

  /** The calls of a task have got these answers. */
  ghost predicate Answered(script: nat -> Answer, answers: seq<Answer>) {
    forall k: nat :: k < |answers| ==> script(k) == answers[k]
  }

  /** In every run, each chunk is where its task gets with the answers the cluster gave to it. */
  lemma {:induction false} RunIsScripted(job: Job, docs: Docs, events: seq<Event>, c: nat, script: nat -> Answer)
    requires Run(job, docs, events) && c < |job.layout| && Answered(script, AnswersOf(events, c))
    ensures |Exec(job, docs, events).procs| == |job.layout|
    ensures Exec(job, docs, events).procs[c].m ==
            RunTo(job.cfg, |job.layout[c]|, script, 0, |AnswersOf(events, c)|)
  {
    hide Start, Next, Truthful, Allows, Effect;
    if events != [] {
      var k := |events| - 1;
      var last, before := events[k], AnswersOf(events[..k], c);
      if last.c == c && last.act.Restart? {
        RunKeepsShape(job, docs, events[..k]);
      } else {
        assert before <= AnswersOf(events, c);
        RunIsScripted(job, docs, events[..k], c, script);
      }
    }
  }

  lemma {:induction false} RunKeepsShape(job: Job, docs: Docs, events: seq<Event>)
    ensures |Exec(job, docs, events).procs| == |job.layout|
  {
    hide Effect, Acted, Can;
    if events != [] {
      RunKeepsShape(job, docs, events[..|events| - 1]);
    }
  }

  /** A chunk whose task has made its last call is the chunk that task shipped. */
  lemma EndedIsShipped(job: Job, docs: Docs, events: seq<Event>, c: nat, script: nat -> Answer)
    requires Run(job, docs, events) && c < |job.layout| && Answered(script, AnswersOf(events, c))
    ensures var w := Exec(job, docs, events);
      && |w.procs| == |job.layout|
      && (!w.procs[c].m.Active() ==> w.procs[c].m == Shipped(job.cfg, job.layout[c], script))
  {
    hide Run, Exec, RunTo, Shipped;
    RunIsScripted(job, docs, events, c, script);
    if !Exec(job, docs, events).procs[c].m.Active() {
      ShippedIs(job.cfg, job.layout[c], script, |AnswersOf(events, c)|);
    }
  }

  /* ---- partitions ---- */

  /** The rows of a partition, what its tasks are told, and the order in which its chunks are merged. */
  datatype Partition = Partition(batches: seq<seq<Option<Line>>>, scripts: Scripts, order: seq<nat>)

  function ChunksOf(size: nat, part: Partition): seq<seq<Line>> {
    AllChunks(part.batches, size, |part.batches|)
  }

  function Pick(chunks: seq<seq<Line>>, order: seq<nat>): (picked: seq<seq<Line>>)
    ensures |picked| == |order|
    ensures forall i :: 0 <= i < |order| && order[i] < |chunks| ==> picked[i] == chunks[order[i]]
  {
    seq(|order|, i requires 0 <= i < |order| => if order[i] < |chunks| then chunks[order[i]] else [])
  }

  /** The chunks of a partition, in the order in which they are merged. */
  function Listed(size: nat, part: Partition): seq<seq<Line>> {
    Pick(ChunksOf(size, part), part.order)
  }

  function LayoutOf(size: nat, parts: seq<Partition>): seq<seq<Line>> {
    if parts == [] then [] else LayoutOf(size, parts[..|parts| - 1]) + Listed(size, parts[|parts| - 1])
  }

  function CutsOf(size: nat, parts: seq<Partition>): seq<nat> {
    if parts == [] then [0] else CutsOf(size, parts[..|parts| - 1]) + [|LayoutOf(size, parts)|]
  }

  /** The lines of the first `k` Arrow batches. */
  function LinesTo(batches: seq<seq<Option<Line>>>, k: nat): seq<Line>
    requires k <= |batches|
  {
    if k == 0 then [] else LinesTo(batches, k - 1) + LinesOf(batches[k - 1])
  }

  function LinesOfParts(parts: seq<Partition>): seq<Line> {
    if parts == [] then []
    else
      var last := parts[|parts| - 1];
      LinesOfParts(parts[..|parts| - 1]) + LinesTo(last.batches, |last.batches|)
  }

  ghost predicate Ordered(size: nat, parts: seq<Partition>) {
    forall k :: 0 <= k < |parts| ==> IsOrder(parts[k].order, |ChunksOf(size, parts[k])|)
  }

  /* ---- the chunks of all partitions hold the lines of all partitions ---- */

  lemma {:induction false} ChunksHold(batches: seq<seq<Option<Line>>>, size: nat, k: nat)
    requires size > 0 && k <= |batches|
    ensures Flatten(AllChunks(batches, size, k)) == LinesTo(batches, k)
  {
    if k > 0 {
      var lines := LinesOf(batches[k - 1]);
      ChunksHold(batches, size, k - 1);
      FlattenJoin(AllChunks(batches, size, k - 1), ChunksFrom(lines, size, 0));
      ChunksCover(lines, size, 0);
    }
  }

  /** How often a line occurs in chunk `t`. */
  function Occurs(chunks: seq<seq<Line>>, line: Line): nat -> int {
    (t: nat) => if t < |chunks| then multiset(chunks[t])[line] else 0
  }

  lemma {:induction false} PickCounts(chunks: seq<seq<Line>>, order: seq<nat>, line: Line)
    ensures multiset(Flatten(Pick(chunks, order)))[line] == Verdict.Sum(order, Occurs(chunks, line))
  {
    if order != [] {
      var k := |order| - 1;
      PickCounts(chunks, order[..k], line);
      assert Pick(chunks, order)[..k] == Pick(chunks, order[..k]);
    }
  }

  lemma PickAll(chunks: seq<seq<Line>>)
    ensures Pick(chunks, All(|chunks|)) == chunks
  {
    AllPositions(|chunks|);
  }

  lemma PickHolds(chunks: seq<seq<Line>>, order: seq<nat>)
    requires IsOrder(order, |chunks|)
    ensures multiset(Flatten(Pick(chunks, order))) == multiset(Flatten(chunks))
  {
    var all := All(|chunks|);
    OrderAll(|chunks|);
    OrdersAgree(order, all);
    PickAll(chunks);
    hide IsOrder, Flatten, Pick, All;
    forall line ensures multiset(Flatten(Pick(chunks, order)))[line] == multiset(Flatten(chunks))[line] {
      PickCounts(chunks, order, line);
      PickCounts(chunks, all, line);
      Verdict.SumPermutes(order, all, Occurs(chunks, line));
    }
  }

  lemma {:induction false} LayoutHolds(size: nat, parts: seq<Partition>)
    requires size > 0 && Ordered(size, parts)
    ensures multiset(Flatten(LayoutOf(size, parts))) == multiset(LinesOfParts(parts))
  {
    if parts != [] {
      var k := |parts| - 1;
      hide IsOrder, Flatten, Pick, AllChunks, LinesTo;
      LayoutHolds(size, parts[..k]);
      PickHolds(ChunksOf(size, parts[k]), parts[k].order);
      ChunksHold(parts[k].batches, size, |parts[k].batches|);
      FlattenJoin(LayoutOf(size, parts[..k]), Listed(size, parts[k]));
    }
  }

  /* ---- where the chunks of a partition are ---- */

  lemma {:induction false} CutsAre(size: nat, parts: seq<Partition>)
    ensures Cuts(CutsOf(size, parts), |LayoutOf(size, parts)|) && |CutsOf(size, parts)| == |parts| + 1
  {
    hide Listed;
    if parts != [] {
      CutsAre(size, parts[..|parts| - 1]);
    }
  }

  lemma {:induction false} PartAt(size: nat, parts: seq<Partition>, k: nat)
    requires k < |parts|
    ensures |CutsOf(size, parts)| == |parts| + 1
    ensures CutsOf(size, parts)[k] <= CutsOf(size, parts)[k + 1] <= |LayoutOf(size, parts)|
    ensures LayoutOf(size, parts)[CutsOf(size, parts)[k]..CutsOf(size, parts)[k + 1]] == Listed(size, parts[k])
  {
    hide Listed;
    var n := |parts| - 1;
    CutsAre(size, parts);
    CutsAre(size, parts[..n]);
    if k < n {
      PartAt(size, parts[..n], k);
    }
  }

  /* ---- one write ---- */

  /** One attempt at a batch: its partitions, what happened in the cluster, what the partitions reported, and whether
      the checkpoint advanced. */
  datatype Writing = Writing(
    parts: seq<Partition>, events: seq<Event>, reports: seq<Summary>, result: Verdict.Result, commits: bool)

  function RowsFor(reports: seq<Summary>): (rows: seq<Verdict.Row>)
    ensures |rows| == |reports| && forall k :: 0 <= k < |rows| ==> rows[k] == RowFor(reports[k])
  {
    seq(|reports|, k requires 0 <= k < |reports| => RowFor(reports[k]))
  }

  /** Every task has got the answers that the cluster gave to its chunk. */
  ghost predicate Told(size: nat, t: Writing) {
    var cuts := CutsOf(size, t.parts);
    forall k: nat, i: nat :: k < |t.parts| && k < |cuts| && i < |t.parts[k].order| ==>
      Answered(t.parts[k].scripts(t.parts[k].order[i]), AnswersOf(t.events, cuts[k] + i))
  }

  predicate AllEnded(w: World) {
    forall c :: 0 <= c < |w.procs| ==> !w.procs[c].m.Active()
  }

  /** The partitions have reported, and the batch function returned on the verdict. */
  ghost predicate Concludes(cfg: Config, size: nat, policy: OnError, t: Writing) {
    && |t.reports| == |t.parts|
    && (forall k :: 0 <= k < |t.parts| ==>
          Reports(t.parts[k].batches, cfg, size, t.parts[k].scripts, t.parts[k].order, Some(t.reports[k])))
    && Verdict.IsRollup(RowsFor(t.reports), t.result)
    && Returns(policy, Wrote(t.result))
  }

  /** The attempt is one that Spark can make. A report exists once every task of its partition has made its last call,
      so a batch commits only when no call is left to make. */
  ghost predicate CanWrite(
    cfg: Config, size: nat, policy: OnError, batches: seq<seq<Line>>, s: State, t: Writing)
  {
    && s.next < |batches|
    && Ordered(size, t.parts)
    && multiset(LinesOfParts(t.parts)) == multiset(batches[s.next])
    && Run(Job(cfg, LayoutOf(size, t.parts)), s.docs, t.events)
    && (t.commits ==>
          && AllEnded(Exec(Job(cfg, LayoutOf(size, t.parts)), s.docs, t.events))
          && Told(size, t)
          && Concludes(cfg, size, policy, t))
  }

  /** The same attempt, as the checkpoint machine sees it. */
  function AttemptOf(size: nat, t: Writing): Attempt {
    Attempt(LayoutOf(size, t.parts), t.events, CutsOf(size, t.parts), RowsFor(t.reports), t.result, t.commits)
  }

  /** The `i`th chunk that partition `k` merges is one of its own, and its machine is the one the partition shipped. */
  lemma MachineAt(cfg: Config, size: nat, docs: Docs, t: Writing, k: nat, i: nat)
    requires Ordered(size, t.parts) && Run(Job(cfg, LayoutOf(size, t.parts)), docs, t.events) && Told(size, t)
    requires AllEnded(Exec(Job(cfg, LayoutOf(size, t.parts)), docs, t.events))
    requires k < |t.parts| && i < |t.parts[k].order| && |CutsOf(size, t.parts)| == |t.parts| + 1
    requires CutsOf(size, t.parts)[k] + i < |LayoutOf(size, t.parts)|
    requires LayoutOf(size, t.parts)[CutsOf(size, t.parts)[k] + i] == Listed(size, t.parts[k])[i]
    ensures var w, at := Exec(Job(cfg, LayoutOf(size, t.parts)), docs, t.events), CutsOf(size, t.parts)[k] + i;
      var part := t.parts[k];
      && at < |w.procs| && part.order[i] < |ChunksOf(size, part)|
      && w.procs[at].m == End(cfg, ChunksOf(size, part), part.scripts, part.order[i])
  {
    hide Run, Exec, LayoutOf, CutsOf, Shipped, AllChunks, AnswersOf, Answered;
    var part := t.parts[k];
    assert part.order[i] in part.order;
    EndedIsShipped(Job(cfg, LayoutOf(size, t.parts)), docs, t.events, CutsOf(size, t.parts)[k] + i,
                   part.scripts(part.order[i]));
  }

  /** The machines of partition `k` are the ones the partition shipped. */
  lemma PartMatches(cfg: Config, size: nat, docs: Docs, t: Writing, k: nat)
    requires Ordered(size, t.parts) && Run(Job(cfg, LayoutOf(size, t.parts)), docs, t.events) && Told(size, t)
    requires AllEnded(Exec(Job(cfg, LayoutOf(size, t.parts)), docs, t.events)) && k < |t.parts|
    ensures var w, cuts := Exec(Job(cfg, LayoutOf(size, t.parts)), docs, t.events), CutsOf(size, t.parts);
      && k + 1 < |cuts| && cuts[k] <= cuts[k + 1] <= |w.procs|
      && Matches(w.procs[cuts[k]..cuts[k + 1]], Listed(size, t.parts[k]), cfg, ChunksOf(size, t.parts[k]),
                 t.parts[k].scripts, t.parts[k].order)
  {
    hide Run, Exec, LayoutOf, CutsOf, End, ChunksOf, AllEnded, Told, Ordered;
    var job, cuts := Job(cfg, LayoutOf(size, t.parts)), CutsOf(size, t.parts);
    var part, chunks, w := t.parts[k], ChunksOf(size, t.parts[k]), Exec(job, docs, t.events);
    PartAt(size, t.parts, k);
    RunKeepsShape(job, docs, t.events);
    forall i: nat | i < |part.order|
      ensures part.order[i] < |chunks| && w.procs[cuts[k] + i].m == End(cfg, chunks, part.scripts, part.order[i])
    {
      assert job.layout[cuts[k] + i] == Listed(size, part)[i];
      MachineAt(cfg, size, docs, t, k, i);
    }
  }

  /** The report of partition `k` is the row of its machines. */
  lemma ReportAt(cfg: Config, size: nat, policy: OnError, docs: Docs, t: Writing, k: nat)
    requires size > 0 && Ordered(size, t.parts) && Run(Job(cfg, LayoutOf(size, t.parts)), docs, t.events)
    requires AllEnded(Exec(Job(cfg, LayoutOf(size, t.parts)), docs, t.events)) && Told(size, t)
    requires Concludes(cfg, size, policy, t) && k < |t.parts|
    ensures var w, cuts := Exec(Job(cfg, LayoutOf(size, t.parts)), docs, t.events), CutsOf(size, t.parts);
      && k + 1 < |cuts| && cuts[k] <= cuts[k + 1] <= |w.procs|
      && RowFor(t.reports[k]) == RowOf(w.procs[cuts[k]..cuts[k + 1]], Listed(size, t.parts[k]))
  {
    var part := t.parts[k];
    PartMatches(cfg, size, docs, t, k);
    hide Run, Exec, LayoutOf, CutsOf, Told, AllEnded, Ordered, Matches, Booked, AllChunks, IsOrder, Sane, Clean, Rows,
         RowOf, RowFor, Listed, Verdict.IsRollup, Returns;
    var w, cuts := Exec(Job(cfg, LayoutOf(size, t.parts)), docs, t.events), CutsOf(size, t.parts);
    ReportIsRow(part.batches, cfg, size, part.scripts, part.order, w.procs[cuts[k]..cuts[k + 1]], Listed(size, part));
  }

  lemma NotCrashed(procs: seq<Proc>, layout: seq<seq<Line>>, cfg: Config, chunks: seq<seq<Line>>, scripts: Scripts,
                  order: seq<nat>, i: nat)
    requires Matches(procs, layout, cfg, chunks, scripts, order) && Clean(cfg, chunks, scripts) && i < |procs|
    ensures !procs[i].m.phase.Crashed?
  {
    hide Shipped;
    assert !Crashes(cfg, chunks, scripts, order[i]);
  }

  /** A partition that reports had no task that crashed. */
  lemma ReportsClean(cfg: Config, size: nat, policy: OnError, t: Writing, k: nat)
    requires Concludes(cfg, size, policy, t) && k < |t.parts|
    ensures Clean(cfg, ChunksOf(size, t.parts[k]), t.parts[k].scripts)
  {
    hide Clean, AllChunks, Sane, Booked, Rows, IsOrder, Verdict.IsRollup, Returns;
  }

  /** Once every partition has reported, every machine is done. */
  lemma ReportedIsFinished(cfg: Config, size: nat, policy: OnError, docs: Docs, t: Writing)
    requires Ordered(size, t.parts) && Run(Job(cfg, LayoutOf(size, t.parts)), docs, t.events)
    requires AllEnded(Exec(Job(cfg, LayoutOf(size, t.parts)), docs, t.events)) && Told(size, t)
    requires Concludes(cfg, size, policy, t)
    ensures Finished(Exec(Job(cfg, LayoutOf(size, t.parts)), docs, t.events))
  {
    var job, cuts := Job(cfg, LayoutOf(size, t.parts)), CutsOf(size, t.parts);
    var w := Exec(job, docs, t.events);
    RunKeepsShape(job, docs, t.events);
    CutsAre(size, t.parts);
    hide Run, Exec, LayoutOf, CutsOf, Told, Concludes, Ordered, Matches, Clean, ChunksOf, Listed;
    forall c: nat | c < |w.procs| ensures w.procs[c].m.phase.Done? {
      var q := PartitionOf(cuts, |w.procs|, |cuts| - 1, c);
      var part := t.parts[q];
      PartMatches(cfg, size, docs, t, q);
      ReportsClean(cfg, size, policy, t, q);
      NotCrashed(w.procs[cuts[q]..cuts[q + 1]], Listed(size, part), cfg, ChunksOf(size, part), part.scripts, part.order,
                c - cuts[q]);
      assert w.procs[cuts[q]..cuts[q + 1]][c - cuts[q]] == w.procs[c];
    }
  }

  /** The reports are the summary of the chunk machines. */
  lemma ReportsAreSummary(cfg: Config, size: nat, policy: OnError, docs: Docs, t: Writing)
    requires size > 0 && Ordered(size, t.parts) && Run(Job(cfg, LayoutOf(size, t.parts)), docs, t.events)
    requires AllEnded(Exec(Job(cfg, LayoutOf(size, t.parts)), docs, t.events)) && Told(size, t)
    requires Concludes(cfg, size, policy, t)
    ensures IsSummary(Job(cfg, LayoutOf(size, t.parts)), Exec(Job(cfg, LayoutOf(size, t.parts)), docs, t.events),
                      CutsOf(size, t.parts), RowsFor(t.reports))
  {
    var job, cuts := Job(cfg, LayoutOf(size, t.parts)), CutsOf(size, t.parts);
    var w := Exec(job, docs, t.events);
    RunKeepsShape(job, docs, t.events);
    CutsAre(size, t.parts);
    assert |t.reports| == |t.parts|;
    var rows := RowsFor(t.reports);
    hide Run, Exec, LayoutOf, CutsOf, Told, AllEnded, Concludes, Ordered, Listed, RowOf, RowFor;
    forall k: nat | k < |rows|
      ensures rows[k] == RowOf(w.procs[cuts[k]..cuts[k + 1]], job.layout[cuts[k]..cuts[k + 1]])
    {
      ReportAt(cfg, size, policy, docs, t, k);
      PartAt(size, t.parts, k);
    }
  }

  /** What Spark can do with a batch, the checkpoint machine can do. */
  lemma WritingIsPossible(cfg: Config, size: nat, policy: OnError, batches: seq<seq<Line>>, s: State, t: Writing)
    requires size > 0 && CanWrite(cfg, size, policy, batches, s, t)
    ensures Possible(cfg, policy, batches, s, AttemptOf(size, t))
  {
    LayoutHolds(size, t.parts);
    hide Run, Exec, LayoutOf, CutsOf, Told, AllEnded, Ordered, IsSummary, Finished, Verdict.IsRollup, Returns, RowsFor,
         Flatten, LinesOfParts;
    if t.commits {
      ReportedIsFinished(cfg, size, policy, s.docs, t);
      ReportsAreSummary(cfg, size, policy, s.docs, t);
    }
  }

  /* ---- the checkpoint ---- */

  function AfterWrites(cfg: Config, size: nat, docs: Docs, ts: seq<Writing>): State {
    if ts == [] then State(0, docs)
    else Attempted(cfg, AfterWrites(cfg, size, docs, ts[..|ts| - 1]), AttemptOf(size, ts[|ts| - 1]))
  }

  ghost predicate Writes(
    cfg: Config, size: nat, policy: OnError, batches: seq<seq<Line>>, docs: Docs, ts: seq<Writing>)
  {
    ts != [] ==>
      && Writes(cfg, size, policy, batches, docs, ts[..|ts| - 1])
      && CanWrite(cfg, size, policy, batches, AfterWrites(cfg, size, docs, ts[..|ts| - 1]), ts[|ts| - 1])
  }

  /** Effectively exactly once, over the reports themselves. Whatever the cluster answers and in whatever order tasks
      finish, when a batch commits because the reports of its partitions gave a clean verdict, the index is the fold of
      the committed batches; in between it is that fold give or take part of the next batch. */
  lemma {:induction false} ReportedExactlyOnce(
    cfg: Config, size: nat, batches: seq<seq<Line>>, docs: Docs, ts: seq<Writing>)
    requires size > 0 && forall k :: 0 <= k < |batches| ==> AgreeingLines(batches[k])
    requires Writes(cfg, size, RAISE, batches, docs, ts)
    ensures var s := AfterWrites(cfg, size, docs, ts);
      Safe(docs, batches, s) && (ts != [] && ts[|ts| - 1].commits ==> s.docs == FoldBatches(docs, batches, s.next))
  {
    hide AgreeingLines, CanWrite, Possible, Midway, Attempted;
    if ts == [] {
      if batches != [] {
        JustCommitted(docs, batches[0]);
      }
    } else {
      var s, t := AfterWrites(cfg, size, docs, ts[..|ts| - 1]), ts[|ts| - 1];
      ReportedExactlyOnce(cfg, size, batches, docs, ts[..|ts| - 1]);
      WritingIsPossible(cfg, size, RAISE, batches, s, t);
      AttemptSafe(cfg, batches, docs, s, AttemptOf(size, t));
      AttemptAdvances(cfg, s, AttemptOf(size, t));
    }
  }
}
