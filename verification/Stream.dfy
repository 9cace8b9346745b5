/** The micro-batch function handed to Structured Streaming, and the checkpoint machine around it. */
module Stream {
  // Spark commits batch k when the function returns normally and runs batch k again, from the same rows, in every
  // other case. A batch may be attempted any number of times, each attempt may end anywhere, and even an attempt
  // that returned may be lost before the commit.

  import opened Wrappers
  import opened ChunkProtocol
  import opened ChunkShipper
  import opened Documents
  import opened Cluster
  import opened Confluence
  import opened Arrangement
  import AppendOnly
  import Verdict

  datatype OnError = RAISE | LOG | IGNORE

  /** What `bulk_write` did with a micro-batch: there was nothing to write, it raised, or it gave a result. */
  datatype BatchWrite = Empty | WriteRaised | Wrote(result: Verdict.Result)

  predicate Returns(policy: OnError, write: BatchWrite) {
    match write
    case Empty => true
    case WriteRaised => false
    case Wrote(result) => policy == RAISE ==> !Verdict.ReconcileOrRaise(result).raises
  }

  /** What a hook is told about a batch. */
  datatype Notice = Notice(batchId: nat, result: Option<Verdict.Result>)

  /** The hook is called for a batch that is empty or written, and raises. */
  predicate HookStops(hooked: bool, hookRaises: bool, write: BatchWrite) {
    hooked && hookRaises && !write.WriteRaised?
  }

  class ForeachBatch {
    const policy: OnError
    const hooked: bool
    var notices: seq<Notice>
    var warnings: nat
    var surplusReports: nat

    constructor (policy: OnError, hooked: bool)
      ensures this.policy == policy && this.hooked == hooked
      ensures notices == [] && warnings == 0 && surplusReports == 0
    {
      this.policy, this.hooked := policy, hooked;
      notices, warnings, surplusReports := [], 0, 0;
    }

    /** Tells the hook, then lets the policy decide whether the batch returns (and so commits) or raises. A hook that
        raises keeps the batch from returning, and nothing more is reported. */
    method Call(batchId: nat, write: BatchWrite, hookRaises: bool) returns (returned: bool)
      modifies this
      ensures returned == (Returns(policy, write) && !HookStops(hooked, hookRaises, write))
      ensures notices == old(notices) + match write
        case Empty => if hooked then [Notice(batchId, None)] else []
        case WriteRaised => []
        case Wrote(result) => if hooked then [Notice(batchId, Some(result))] else []
      ensures warnings == old(warnings) +
        if policy == LOG && write.Wrote? && !HookStops(hooked, hookRaises, write) &&
             (write.result.errors != 0 || write.result.unaccounted > 0) then 1 else 0
      ensures surplusReports == old(surplusReports) +
        if write.Wrote? && !HookStops(hooked, hookRaises, write) && (
             || (policy == RAISE && Verdict.ReconcileOrRaise(write.result).surplusLogged != 0)
             || (policy == LOG && write.result.overcounted > 0)) then 1 else 0
    {
      if write.Empty? {
        if hooked {
          notices := notices + [Notice(batchId, None)];
        }
        return !(hooked && hookRaises);
      }
      if write.WriteRaised? {
        return false;
      }
      var result := write.result;
      if hooked {
        notices := notices + [Notice(batchId, Some(result))];
        if hookRaises {
          return false;
        }
      }
      if policy == RAISE {
        var verdict := Verdict.ReconcileOrRaise(result);
        if verdict.surplusLogged != 0 {
          surplusReports := surplusReports + 1;
        }
        return !verdict.raises;
      } else if policy == LOG {
        if result.errors != 0 || result.unaccounted > 0 {
          warnings := warnings + 1;
        }
        if result.overcounted > 0 {
          surplusReports := surplusReports + 1;
        }
      }
      return true;
    }
  }

  /* ---- from chunk machines to the verdict of a write ---- */

  function SumCounts(procs: seq<Proc>): Counts {
    if procs == [] then NO_COUNTS else SumCounts(procs[..|procs| - 1]).Plus(procs[|procs| - 1].m.counts)
  }

  function Failures(procs: seq<Proc>): seq<Sample> {
    if procs == [] then [] else Failures(procs[..|procs| - 1]) + procs[|procs| - 1].m.failures
  }

  /** The summary of a partition made of these chunks. */
  function RowOf(procs: seq<Proc>, layout: seq<seq<Line>>): Verdict.Row {
    var c := SumCounts(procs);
    Verdict.Row(Some(c.written), Some(c.deleted), Some(c.errors), Some(c.ignored),
                Some(|Flatten(layout)|), Some(Cap(Failures(procs))))
  }

  /** `cuts` splits the chunks into partitions: partition k holds chunks cuts[k]..cuts[k+1]. */
  predicate Cuts(cuts: seq<nat>, n: nat) {
    && |cuts| > 0 && cuts[0] == 0 && cuts[|cuts| - 1] == n
    && forall i, j :: 0 <= i <= j < |cuts| ==> cuts[i] <= cuts[j]
  }

  ghost predicate IsSummary(job: Job, w: World, cuts: seq<nat>, rows: seq<Verdict.Row>) {
    && Cuts(cuts, |w.procs|) && |w.procs| == |job.layout| && |rows| == |cuts| - 1
    && forall k :: 0 <= k < |rows| ==>
         rows[k] == RowOf(w.procs[cuts[k]..cuts[k + 1]], job.layout[cuts[k]..cuts[k + 1]])
  }

  lemma {:induction false} ErrorsIn(procs: seq<Proc>, c: nat)
    requires c < |procs|
    ensures procs[c].m.counts.errors <= SumCounts(procs).errors
  {
    if c < |procs| - 1 {
      ErrorsIn(procs[..|procs| - 1], c);
    }
  }

  lemma {:induction false} PartitionOf(cuts: seq<nat>, n: nat, k: nat, c: nat) returns (q: nat)
    requires Cuts(cuts, n) && k < |cuts| && c < cuts[k]
    ensures q < k && cuts[q] <= c < cuts[q + 1]
  {
    if cuts[k - 1] <= c {
      q := k - 1;
    } else {
      q := PartitionOf(cuts, n, k - 1, c);
    }
  }

  lemma PlainSummary(job: Job, w: World, cuts: seq<nat>, rows: seq<Verdict.Row>)
    requires IsSummary(job, w, cuts, rows)
    ensures Verdict.Plain(rows)
  {
    hide SumCounts, Failures, Flatten, Cap;
    forall k | 0 <= k < |rows| ensures Verdict.Errors(rows[k]) >= 0 {
      assert rows[k] == RowOf(w.procs[cuts[k]..cuts[k + 1]], job.layout[cuts[k]..cuts[k + 1]]);
    }
  }

  lemma CoveredBy(job: Job, w: World, cuts: seq<nat>, rows: seq<Verdict.Row>, c: nat)
    requires IsSummary(job, w, cuts, rows) && c < |w.procs| && w.procs[c].m.counts.errors > 0
    ensures exists k :: 0 <= k < |rows| && Verdict.Errors(rows[k]) > 0
  {
    hide Failures, Flatten, Cap;
    var q := PartitionOf(cuts, |w.procs|, |cuts| - 1, c);
    var part := w.procs[cuts[q]..cuts[q + 1]];
    assert part[c - cuts[q]] == w.procs[c];
    ErrorsIn(part, c - cuts[q]);
    assert rows[q] == RowOf(part, job.layout[cuts[q]..cuts[q + 1]]);
  }

  /** A clean verdict means that no chunk counted an error. */
  lemma CleanMeansNoErrors(job: Job, w: World, cuts: seq<nat>, rows: seq<Verdict.Row>, r: Verdict.Result, c: nat)
    requires IsSummary(job, w, cuts, rows) && Verdict.IsRollup(rows, r) && !Verdict.ReconcileOrRaise(r).raises
    requires c < |w.procs|
    ensures w.procs[c].m.counts.errors == 0
  {
    PlainSummary(job, w, cuts, rows);
    Verdict.RaisesExactly(rows, r);
    if w.procs[c].m.counts.errors > 0 {
      CoveredBy(job, w, cuts, rows, c);
    }
  }

  /** A finished write with a clean verdict has applied the whole batch, whatever was left over from earlier
      attempts at it. */
  lemma CleanWriteIsFold(base: Docs, batch: seq<Line>, job: Job, docs: Docs, events: seq<Event>,
                         cuts: seq<nat>, rows: seq<Verdict.Row>, r: Verdict.Result)
    requires AgreeingLines(batch) && Deals(batch, job.layout) && Between(base, job.layout, docs)
    requires Run(job, docs, events) && Finished(Exec(job, docs, events))
    requires IsSummary(job, Exec(job, docs, events), cuts, rows) && Verdict.IsRollup(rows, r)
    requires !Verdict.ReconcileOrRaise(r).raises
    ensures Exec(job, docs, events).docs == Fold(base, batch)
  {
    hide Run, Exec, Between, AgreeingLines, Deals, IsSummary;
    var w := Exec(job, docs, events);
    DealtAgrees(batch, job.layout);
    DealtArranges(batch, job.layout);
    EveryRunSound(base, job, docs, events);
    forall c: nat, p: nat | Place(job.layout, c, p) ensures Landed(base, w.docs, LineAt(job.layout, c, p)) {
      CleanMeansNoErrors(job, w, cuts, rows, r, c);
      NoErrorsSettled(|job.layout[c]|, w.procs[c].m, p);
      SoundAt(base, job, w, c, p);
    }
    AllLandedIsFold(base, batch, job.layout, w.docs);
  }

  /* ---- a finished write balances ---- */

  lemma {:induction false} FinishedCounts(procs: seq<Proc>, layout: seq<seq<Line>>)
    requires |procs| == |layout|
    requires forall c :: 0 <= c < |procs| ==> Ledger(|layout[c]|, procs[c].m) && procs[c].m.phase.Done?
    ensures SumCounts(procs).Total() == |Flatten(layout)|
  {
    hide Ledger;
    if procs != [] {
      var k := |procs| - 1;
      FinishedCounts(procs[..k], layout[..k]);
      AppendOnly.FinishedTotal(|layout[k]|, procs[k].m);
    }
  }

  lemma FinishedSlice(base: Docs, job: Job, w: World, lo: nat, hi: nat)
    requires Sound(base, job, w) && Finished(w) && lo <= hi <= |w.procs|
    ensures SumCounts(w.procs[lo..hi]).Total() == |Flatten(job.layout[lo..hi])|
  {
    hide Ledger, Shaped, Between, ProcSound, Flatten, SumCounts;
    FinishedCounts(w.procs[lo..hi], job.layout[lo..hi]);
  }

  lemma RowBalance(procs: seq<Proc>, layout: seq<seq<Line>>)
    ensures Verdict.Delta(RowOf(procs, layout)) == |Flatten(layout)| - SumCounts(procs).Total()
  {
    hide SumCounts, Flatten, Failures, Cap;
  }

  /** Every partition of a finished write balances, so the verdict turns on the errors alone. */
  lemma FinishedBalances(base: Docs, job: Job, w: World, cuts: seq<nat>, rows: seq<Verdict.Row>, k: nat)
    requires Sound(base, job, w) && Finished(w) && IsSummary(job, w, cuts, rows) && k < |rows|
    ensures Verdict.Delta(rows[k]) == 0
  {
    hide Sound, Finished, RowOf, Verdict.Delta, Flatten, SumCounts;
    FinishedSlice(base, job, w, cuts[k], cuts[k + 1]);
    RowBalance(w.procs[cuts[k]..cuts[k + 1]], job.layout[cuts[k]..cuts[k + 1]]);
  }

  lemma {:induction false} SumErrorsZero(procs: seq<Proc>)
    requires forall c :: 0 <= c < |procs| ==> procs[c].m.counts.errors == 0
    ensures SumCounts(procs).errors == 0
  {
    if procs != [] {
      SumErrorsZero(procs[..|procs| - 1]);
    }
  }

  lemma CleanRow(base: Docs, job: Job, w: World, cuts: seq<nat>, rows: seq<Verdict.Row>, k: nat)
    requires Sound(base, job, w) && Finished(w) && IsSummary(job, w, cuts, rows) && k < |rows|
    requires forall c :: 0 <= c < |w.procs| ==> w.procs[c].m.counts.errors == 0
    ensures Verdict.Errors(rows[k]) == 0 && Verdict.Delta(rows[k]) == 0
  {
    hide Sound, Finished, Flatten, SumCounts, Failures, Cap, Verdict.Delta;
    FinishedBalances(base, job, w, cuts, rows, k);
    SumErrorsZero(w.procs[cuts[k]..cuts[k + 1]]);
  }

  /** A finished write is failed if and only if some chunk counted an error. */
  lemma VerdictOnErrors(base: Docs, job: Job, w: World, cuts: seq<nat>, rows: seq<Verdict.Row>, r: Verdict.Result)
    requires Sound(base, job, w) && Finished(w) && IsSummary(job, w, cuts, rows) && Verdict.IsRollup(rows, r)
    ensures Verdict.ReconcileOrRaise(r).raises <==> exists c :: 0 <= c < |w.procs| && w.procs[c].m.counts.errors > 0
  {
    PlainSummary(job, w, cuts, rows);
    Verdict.RaisesExactly(rows, r);
    hide Sound, Finished, IsSummary, Verdict.IsRollup, Verdict.ReconcileOrRaise, Verdict.Errors, Verdict.Delta;
    if c: nat :| c < |w.procs| && w.procs[c].m.counts.errors > 0 {
      CoveredBy(job, w, cuts, rows, c);
    } else {
      forall k: nat | k < |rows| ensures Verdict.Errors(rows[k]) == 0 && Verdict.Delta(rows[k]) == 0 {
        CleanRow(base, job, w, cuts, rows, k);
      }
    }
  }

  /* ---- the checkpoint machine ---- */

  datatype State = State(next: nat, docs: Docs)

  /** One attempt at the next batch: how it was dealt out, what happened, how the summaries were cut, and whether the
      checkpoint advanced afterwards. */
  datatype Attempt = Attempt(
    layout: seq<seq<Line>>, events: seq<Event>, cuts: seq<nat>, rows: seq<Verdict.Row>, result: Verdict.Result,
    commits: bool)

  /** The attempt is one that Spark can make, and it commits only if the batch function returned. */
  ghost predicate Possible(cfg: Config, policy: OnError, batches: seq<seq<Line>>, s: State, t: Attempt) {
    && s.next < |batches|
    && Deals(batches[s.next], t.layout)
    && Run(Job(cfg, t.layout), s.docs, t.events)
    && (t.commits ==>
          var w := Exec(Job(cfg, t.layout), s.docs, t.events);
          && Finished(w)
          && IsSummary(Job(cfg, t.layout), w, t.cuts, t.rows)
          && Verdict.IsRollup(t.rows, t.result)
          && Returns(policy, Wrote(t.result)))
  }

  function Attempted(cfg: Config, s: State, t: Attempt): State {
    State(if t.commits then s.next + 1 else s.next, Exec(Job(cfg, t.layout), s.docs, t.events).docs)
  }

  function After(cfg: Config, docs: Docs, ts: seq<Attempt>): State {
    if ts == [] then State(0, docs) else Attempted(cfg, After(cfg, docs, ts[..|ts| - 1]), ts[|ts| - 1])
  }

  ghost predicate History(cfg: Config, policy: OnError, batches: seq<seq<Line>>, docs: Docs, ts: seq<Attempt>) {
    ts != [] ==>
      && History(cfg, policy, batches, docs, ts[..|ts| - 1])
      && Possible(cfg, policy, batches, After(cfg, docs, ts[..|ts| - 1]), ts[|ts| - 1])
  }

  /** The index after batches 0..k-1 were applied, each once, in order. */
  function FoldBatches(docs: Docs, batches: seq<seq<Line>>, k: nat): Docs
    requires k <= |batches|
  {
    if k == 0 then docs else Fold(FoldBatches(docs, batches, k - 1), batches[k - 1])
  }

  /** Each id the batch names is as before the batch or as after it, and no other id has moved. */
  ghost predicate Midway(base: Docs, batch: seq<Line>, docs: Docs) {
    && (forall i :: 0 <= i < |batch| ==> OldOrNew(base, docs, batch[i]))
    && (forall id :: (forall i :: 0 <= i < |batch| ==> IdOf(batch[i]) != Some(id)) ==> At(docs, id) == At(base, id))
  }

  lemma LineFound(batch: seq<Line>, layout: seq<seq<Line>>, i: nat)
    requires Arranges(batch, layout) && i < |batch|
    ensures exists c: nat, p: nat :: Place(layout, c, p) && LineAt(layout, c, p) == batch[i]
  {
    var line := batch[i];
    assert exists c: nat, p: nat :: Place(layout, c, p) && LineAt(layout, c, p) == line;
  }

  lemma LinePlaced(batch: seq<Line>, layout: seq<seq<Line>>, c: nat, p: nat)
    requires Arranges(batch, layout) && Place(layout, c, p)
    ensures exists i: nat :: i < |batch| && batch[i] == LineAt(layout, c, p)
  {
    assert LineAt(layout, c, p) in batch;
  }

  lemma MidwayIsBetween(base: Docs, batch: seq<Line>, layout: seq<seq<Line>>, docs: Docs)
    requires Arranges(batch, layout)
    ensures Midway(base, batch, docs) <==> Between(base, layout, docs)
  {
    hide OldOrNew;
    if Midway(base, batch, docs) {
      MidwayThenBetween(base, batch, layout, docs);
    }
    if Between(base, layout, docs) {
      BetweenThenMidway(base, batch, layout, docs);
    }
  }

  lemma NamedInBatch(batch: seq<Line>, layout: seq<seq<Line>>, id: Id)
    requires Arranges(batch, layout)
    ensures Named(layout, id) <==> exists i: nat :: i < |batch| && IdOf(batch[i]) == Some(id)
  {
    hide Arranges;
    if c: nat, p: nat :| Place(layout, c, p) && IdOf(LineAt(layout, c, p)) == Some(id) {
      LinePlaced(batch, layout, c, p);
    }
    if i: nat :| i < |batch| && IdOf(batch[i]) == Some(id) {
      LineFound(batch, layout, i);
    }
  }

  lemma MidwayThenBetween(base: Docs, batch: seq<Line>, layout: seq<seq<Line>>, docs: Docs)
    requires Arranges(batch, layout) && Midway(base, batch, docs)
    ensures Between(base, layout, docs)
  {
    hide OldOrNew, Arranges, Named;
    forall c: nat, p: nat | Place(layout, c, p) ensures OldOrNew(base, docs, LineAt(layout, c, p)) {
      LinePlaced(batch, layout, c, p);
    }
    forall id | !Named(layout, id) ensures At(docs, id) == At(base, id) {
      NamedInBatch(batch, layout, id);
    }
  }

  lemma BetweenThenMidway(base: Docs, batch: seq<Line>, layout: seq<seq<Line>>, docs: Docs)
    requires Arranges(batch, layout) && Between(base, layout, docs)
    ensures Midway(base, batch, docs)
  {
    hide OldOrNew, Arranges, Named;
    forall i: nat | i < |batch| ensures OldOrNew(base, docs, batch[i]) {
      LineFound(batch, layout, i);
    }
    forall id | forall i :: 0 <= i < |batch| ==> IdOf(batch[i]) != Some(id) ensures At(docs, id) == At(base, id) {
      NamedInBatch(batch, layout, id);
    }
  }

  /** Safe between commits: the index is the fold of the committed batches, give or take part of the next one. */
  ghost predicate Safe(docs0: Docs, batches: seq<seq<Line>>, s: State) {
    && s.next <= |batches|
    && var base := FoldBatches(docs0, batches, s.next);
       if s.next == |batches| then s.docs == base else Midway(base, batches[s.next], s.docs)
  }

  lemma JustCommitted(base: Docs, batch: seq<Line>)
    requires AgreeingLines(batch)
    ensures Midway(base, batch, base)
  {
  }

  lemma AttemptSafe(cfg: Config, batches: seq<seq<Line>>, docs0: Docs, s: State, t: Attempt)
    requires forall k :: 0 <= k < |batches| ==> AgreeingLines(batches[k])
    requires Safe(docs0, batches, s) && Possible(cfg, RAISE, batches, s, t)
    ensures Safe(docs0, batches, Attempted(cfg, s, t))
    ensures t.commits ==> Attempted(cfg, s, t).docs == FoldBatches(docs0, batches, s.next + 1)
  {
    hide Midway, AgreeingLines, Deals, Run, Exec, Finished, IsSummary;
    var base, batch, job := FoldBatches(docs0, batches, s.next), batches[s.next], Job(cfg, t.layout);
    DealtAgrees(batch, t.layout);
    DealtArranges(batch, t.layout);
    MidwayIsBetween(base, batch, t.layout, s.docs);
    if t.commits {
      CleanWriteIsFold(base, batch, job, s.docs, t.events, t.cuts, t.rows, t.result);
      if s.next + 1 < |batches| {
        JustCommitted(FoldBatches(docs0, batches, s.next + 1), batches[s.next + 1]);
      }
    } else {
      EveryRunSound(base, job, s.docs, t.events);
      MidwayIsBetween(base, batch, t.layout, Exec(job, s.docs, t.events).docs);
    }
  }

  /** Effectively exactly once. With the raising policy and lines that agree on their ids within each batch, after any
      history of attempts the index is the fold of the committed batches give or take part of the batch being attempted;
      and at the moment a checkpoint commits it is exactly that fold. */
  lemma {:induction false} ExactlyOnce(cfg: Config, batches: seq<seq<Line>>, docs: Docs, ts: seq<Attempt>)
    requires forall k :: 0 <= k < |batches| ==> AgreeingLines(batches[k])
    requires History(cfg, RAISE, batches, docs, ts)
    ensures Safe(docs, batches, After(cfg, docs, ts))
    ensures ts != [] && ts[|ts| - 1].commits ==>
              After(cfg, docs, ts).docs == FoldBatches(docs, batches, After(cfg, docs, ts).next)
  {
    hide AgreeingLines, Possible, Midway, Attempted;
    if ts == [] {
      if batches != [] {
        JustCommitted(docs, batches[0]);
      }
    } else {
      ExactlyOnce(cfg, batches, docs, ts[..|ts| - 1]);
      AttemptSafe(cfg, batches, docs, After(cfg, docs, ts[..|ts| - 1]), ts[|ts| - 1]);
      AttemptAdvances(cfg, After(cfg, docs, ts[..|ts| - 1]), ts[|ts| - 1]);
    }
  }

  lemma AttemptAdvances(cfg: Config, s: State, t: Attempt)
    ensures Attempted(cfg, s, t).next == s.next + if t.commits then 1 else 0
  {
  }
}
