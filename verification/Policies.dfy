/** Which error policies protect the checkpoint. */
module Policies {
  // For every configuration and every stream of batches that agree on their ids, a commit is the fold of the
  // committed batches in every history if and only if the policy raises, or there is no line to lose.

  import opened ChunkProtocol
  import opened Documents
  import opened Cluster
  import opened Confluence
  import opened Arrangement
  import opened Stream
  import ChunkShipper
  import Verdict

  /** In every history, from every index, the index at a commit is the fold of the committed batches. */
  ghost predicate Protects(cfg: Config, policy: OnError, batches: seq<seq<Line>>) {
    forall docs: Docs, ts: seq<Attempt> ::
      History(cfg, policy, batches, docs, ts) && ts != [] && ts[|ts| - 1].commits ==>
        CommittedFold(cfg, batches, docs, ts)
  }

  ghost predicate CommittedFold(cfg: Config, batches: seq<seq<Line>>, docs: Docs, ts: seq<Attempt>) {
    var s := After(cfg, docs, ts);
    s.next <= |batches| && s.docs == FoldBatches(docs, batches, s.next)
  }

  /* ---- building histories ---- */

  lemma MoreHistory(cfg: Config, policy: OnError, batches: seq<seq<Line>>, docs: Docs, ts: seq<Attempt>, t: Attempt)
    returns (more: seq<Attempt>)
    requires History(cfg, policy, batches, docs, ts) && Possible(cfg, policy, batches, After(cfg, docs, ts), t)
    ensures more == ts + [t] && History(cfg, policy, batches, docs, more)
    ensures After(cfg, docs, more) == Attempted(cfg, After(cfg, docs, ts), t)
  {
    hide Possible, Attempted;
    more := ts + [t];
    assert more[..|ts|] == ts;
  }

  /** A rollup of any rows. */
  function RollupOf(rows: seq<Verdict.Row>): (r: Verdict.Result)
    ensures Verdict.IsRollup(rows, r)
  {
    Verdict.Result(
      Verdict.Sum(rows, Verdict.Written), Verdict.Sum(rows, Verdict.Deleted), Verdict.Sum(rows, Verdict.Errors),
      Verdict.Sum(rows, Verdict.Ignored), Verdict.Sum(rows, Verdict.TotalInput), Verdict.Sum(rows, Verdict.Shortfall),
      Verdict.Sum(rows, Verdict.Excess), ChunkShipper.Cap(Verdict.AllSamples(rows)))
  }

  /** The summary and the rollup of a write that ran in one partition. */
  lemma OnePartition(job: Job, w: World) returns (rows: seq<Verdict.Row>, r: Verdict.Result)
    requires |w.procs| == |job.layout| == 1
    ensures IsSummary(job, w, [0, 1], rows) && Verdict.IsRollup(rows, r)
  {
    rows := [RowOf(w.procs, job.layout)];
    assert w.procs[0..1] == w.procs && job.layout[0..1] == job.layout;
    r := RollupOf(rows);
  }

  /* ---- an empty batch commits and changes nothing ---- */

  const NOTHING := Attempt([], [], [0], [], RollupOf([]), true)

  lemma EmptyCommits(cfg: Config, policy: OnError, batches: seq<seq<Line>>, s: State)
    requires s.next < |batches| && batches[s.next] == []
    ensures Possible(cfg, policy, batches, s, NOTHING)
    ensures Attempted(cfg, s, NOTHING) == State(s.next + 1, s.docs)
  {
  }

  lemma {:induction false} EmptyPrefix(cfg: Config, policy: OnError, batches: seq<seq<Line>>, docs: Docs, k: nat)
    returns (ts: seq<Attempt>)
    requires k <= |batches| && forall j :: 0 <= j < k ==> batches[j] == []
    ensures History(cfg, policy, batches, docs, ts) && After(cfg, docs, ts) == State(k, docs)
  {
    if k == 0 {
      ts := [];
    } else {
      ts := EmptyPrefix(cfg, policy, batches, docs, k - 1);
      EmptyCommits(cfg, policy, batches, State(k - 1, docs));
      hide Possible, Attempted, History, After;
      ts := MoreHistory(cfg, policy, batches, docs, ts, NOTHING);
    }
  }

  lemma {:induction false} FoldOfEmpty(docs: Docs, batches: seq<seq<Line>>, k: nat)
    requires k <= |batches| && forall j :: 0 <= j < k ==> batches[j] == []
    ensures FoldBatches(docs, batches, k) == docs
  {
    if k > 0 {
      FoldOfEmpty(docs, batches, k - 1);
    }
  }

  lemma NoLineNoChange(cfg: Config, layout: seq<seq<Line>>, docs: Docs, events: seq<Event>)
    requires Deals([], layout) && Run(Job(cfg, layout), docs, events)
    ensures Exec(Job(cfg, layout), docs, events).docs == docs
  {
    DealtAgrees([], layout);
    DealtArranges([], layout);
    hide Run, Exec, Deals, Agreeing;
    var w := Exec(Job(cfg, layout), docs, events);
    MidwayIsBetween(docs, [], layout, docs);
    EveryRunSound(docs, Job(cfg, layout), docs, events);
    MidwayIsBetween(docs, [], layout, w.docs);
    SameDocs(w.docs, docs);
  }

  lemma {:induction false} NothingToLose(
    cfg: Config, policy: OnError, batches: seq<seq<Line>>, docs: Docs, ts: seq<Attempt>)
    requires History(cfg, policy, batches, docs, ts) && forall k :: 0 <= k < |batches| ==> batches[k] == []
    ensures After(cfg, docs, ts).next <= |batches| && After(cfg, docs, ts).docs == docs
  {
    if ts != [] {
      var front, t := ts[..|ts| - 1], ts[|ts| - 1];
      NothingToLose(cfg, policy, batches, docs, front);
      hide Run, Exec, Deals, IsSummary, Finished, Verdict.IsRollup;
      NoLineNoChange(cfg, t.layout, docs, t.events);
    }
  }

  /* ---- a batch that fails as a whole ---- */

  /** Every line in one chunk, and its first call fails for good. */
  lemma FailedRun(cfg: Config, batch: seq<Line>, docs: Docs) returns (events: seq<Event>)
    requires batch != []
    ensures var job := Job(cfg, [batch]);
      var w := Exec(job, docs, events);
      Run(job, docs, events) && Finished(w) && w.docs == docs && |w.procs| == 1
  {
    var job := Job(cfg, [batch]);
    events := [Event(0, Returned(Failed))];
    assert events[..0] == [] && Exec(job, docs, []) == Begin(job, docs);
    assert Begin(job, docs).procs[0] == Fresh(cfg, |batch|);
    hide Settle;
  }

  lemma DealtInOne(batch: seq<Line>)
    ensures Deals(batch, [batch])
  {
    assert Flatten([batch][..0]) == [];
    assert Flatten([batch]) == batch;
  }

  /** An index on which the first line of the batch has something to do. */
  function WorkFor(batch: seq<Line>): Docs
    requires batch != []
  {
    match batch[0]
    case Delete(id) => map[id := ""]
    case _ => map[]
  }

  lemma WorkIsLeft(batch: seq<Line>)
    requires batch != [] && AgreeingLines(batch)
    ensures Fold(WorkFor(batch), batch) != WorkFor(batch)
  {
    FoldAt(WorkFor(batch), batch, 0);
    assert batch[0] in batch;
  }

  /** Without raising, a stream with a line to lose has a history that commits it without storing it. */
  lemma LostAtCommit(cfg: Config, policy: OnError, batches: seq<seq<Line>>, k: nat)
    returns (docs: Docs, ts: seq<Attempt>)
    requires policy != RAISE && k < |batches| && batches[k] != [] && AgreeingLines(batches[k])
    requires forall j :: 0 <= j < k ==> batches[j] == []
    ensures History(cfg, policy, batches, docs, ts) && ts != [] && ts[|ts| - 1].commits
    ensures !CommittedFold(cfg, batches, docs, ts)
  {
    docs := WorkFor(batches[k]);
    ts := EmptyPrefix(cfg, policy, batches, docs, k);
    var events := FailedRun(cfg, batches[k], docs);
    var job := Job(cfg, [batches[k]]);
    var rows, r := OnePartition(job, Exec(job, docs, events));
    DealtInOne(batches[k]);
    WorkIsLeft(batches[k]);
    FoldOfEmpty(docs, batches, k);
    hide Run, Exec, Finished, IsSummary, Verdict.IsRollup, Deals, Fold, History, After, AgreeingLines, WorkFor;
    ts := MoreHistory(cfg, policy, batches, docs, ts, Attempt([batches[k]], events, [0, 1], rows, r, true));
  }

  lemma {:induction false} FirstWithLines(batches: seq<seq<Line>>, n: nat) returns (k: nat)
    requires n < |batches| && batches[n] != []
    ensures k <= n && batches[k] != [] && forall j :: 0 <= j < k ==> batches[j] == []
  {
    if j: nat :| j < n && batches[j] != [] {
      k := FirstWithLines(batches, j);
    } else {
      k := n;
    }
  }

  /** The exact condition. Among the error policies only the raising one makes every commit the fold of the committed
      batches, unless no batch has a line. */
  lemma OnlyRaisingProtects(cfg: Config, policy: OnError, batches: seq<seq<Line>>)
    requires forall k :: 0 <= k < |batches| ==> AgreeingLines(batches[k])
    ensures Protects(cfg, policy, batches) <==>
            policy == RAISE || forall k :: 0 <= k < |batches| ==> batches[k] == []
  {
    hide History, AgreeingLines, CommittedFold;
    if policy == RAISE {
      forall docs: Docs, ts: seq<Attempt> | History(cfg, policy, batches, docs, ts) && ts != [] && ts[|ts| - 1].commits
        ensures CommittedFold(cfg, batches, docs, ts)
      {
        RaisingCommits(cfg, batches, docs, ts);
      }
    } else if n: nat :| n < |batches| && batches[n] != [] {
      var k := FirstWithLines(batches, n);
      var docs, ts := LostAtCommit(cfg, policy, batches, k);
    } else {
      forall docs: Docs, ts: seq<Attempt> | History(cfg, policy, batches, docs, ts) && ts != [] && ts[|ts| - 1].commits
        ensures CommittedFold(cfg, batches, docs, ts)
      {
        EmptyStream(cfg, policy, batches, docs, ts);
      }
    }
  }

  lemma RaisingCommits(cfg: Config, batches: seq<seq<Line>>, docs: Docs, ts: seq<Attempt>)
    requires forall k :: 0 <= k < |batches| ==> AgreeingLines(batches[k])
    requires History(cfg, RAISE, batches, docs, ts) && ts != [] && ts[|ts| - 1].commits
    ensures CommittedFold(cfg, batches, docs, ts)
  {
    hide History, AgreeingLines, After, FoldBatches, Midway;
    ExactlyOnce(cfg, batches, docs, ts);
  }

  lemma EmptyStream(cfg: Config, policy: OnError, batches: seq<seq<Line>>, docs: Docs, ts: seq<Attempt>)
    requires History(cfg, policy, batches, docs, ts) && forall k :: 0 <= k < |batches| ==> batches[k] == []
    ensures CommittedFold(cfg, batches, docs, ts)
  {
    NothingToLose(cfg, policy, batches, docs, ts);
    hide History, After;
    FoldOfEmpty(docs, batches, After(cfg, docs, ts).next);
  }
}
