/** What a chunk can still send, round by round. */
module ChunkRounds {
  import opened Wrappers
  import opened BulkOutcome
  import opened ChunkProtocol
  import opened Documents
  import opened Cluster
  import opened Confluence
  import opened Arrangement
  import opened Windows

  /** Some answer makes the connector send the line again in another round. */
  ghost predicate CanRetry(cfg: Config, line: Line) {
    exists status: int :: cfg.Retries(Item(OpOf(line), Some(status)), 0)
  }

  predicate Names(lines: seq<Line>, id: Id) {
    exists p :: 0 <= p < |lines| && IdOf(lines[p]) == Some(id)
  }

  /** No later line of the chunk names its id. */
  predicate IsLast(lines: seq<Line>, p: nat)
    requires p < |lines|
  {
    forall q :: p < q < |lines| ==> IdOf(lines[q]) != IdOf(lines[p])
  }

  lemma {:induction false} LastNaming(lines: seq<Line>, q: nat) returns (p: nat)
    requires q < |lines|
    ensures q <= p < |lines| && IdOf(lines[p]) == IdOf(lines[q]) && IsLast(lines, p)
    decreases |lines| - q
  {
    if r: nat :| q < r < |lines| && IdOf(lines[r]) == IdOf(lines[q]) {
      p := LastNaming(lines, r);
    } else {
      p := q;
    }
  }

  /* ---- the lines of a later round can all be retried ---- */

  ghost predicate RoundsOk(cfg: Config, lines: seq<Line>, m: Machine) {
    m.phase.Shipping? ==>
      if m.phase.round == 0 then m.phase.pending == All(|lines|)
      else forall p :: p in m.phase.pending ==> p < |lines| && CanRetry(cfg, lines[p])
  }

  lemma {:induction false} TallyRetried(
    cfg: Config, pending: seq<nat>, round: nat, items: seq<Item>, k: nat, t0: Tally, p: nat)
    requires k <= |items| == |pending| && t0.retry == []
    requires p in TallyItems(cfg, pending, round, items, k, t0).retry
    ensures exists i :: 0 <= i < |items| && pending[i] == p && cfg.Retries(items[i], round)
  {
    var t := TallyItems(cfg, pending, round, items, k - 1, t0);
    if p in t.retry {
      TallyRetried(cfg, pending, round, items, k - 1, t0, p);
    } else {
      assert pending[k - 1] == p && cfg.Retries(items[k - 1], round);
    }
  }

  lemma RetriedLine(cfg: Config, lines: seq<Line>, proc: Proc, a: Answer, p: nat)
    requires proc.m.phase.Shipping? && a.Reply? && Truthful(lines, proc, a)
    requires AfterRound(cfg, |lines|, proc.m, a).phase.Shipping?
    requires p in AfterRound(cfg, |lines|, proc.m, a).phase.pending
    ensures p < |lines| && CanRetry(cfg, lines[p])
  {
    hide TallyItems, Config.Retries;
    var items, pending, round := a.items.value, proc.m.phase.pending, proc.m.phase.round;
    TallyRetried(cfg, pending, round, items, |items|, FirstTally(proc.m), p);
    var i :| 0 <= i < |items| && pending[i] == p && cfg.Retries(items[i], round);
    RetriesEarlier(cfg, items[i], round);
    RetriedBy(cfg, lines[p], proc.flight[p]);
  }

  lemma RetriedBy(cfg: Config, line: Line, status: int)
    requires cfg.Retries(Item(OpOf(line), Some(status)), 0)
    ensures CanRetry(cfg, line)
  {
  }

  lemma RetriesEarlier(cfg: Config, item: Item, round: nat)
    requires cfg.Retries(item, round)
    ensures cfg.Retries(item, 0)
  {
  }

  lemma RoundsNext(cfg: Config, lines: seq<Line>, proc: Proc, a: Answer)
    requires RoundsOk(cfg, lines, proc.m) && proc.m.Active() && Truthful(lines, proc, a)
    ensures RoundsOk(cfg, lines, Next(cfg, |lines|, proc.m, a))
  {
    hide CanRetry, All;
    if !SendsAgain(cfg, proc.m, a) && a.Reply? && proc.m.phase.Shipping? {
      var m' := AfterRound(cfg, |lines|, proc.m, a);
      if m'.phase.Shipping? {
        forall p | p in m'.phase.pending ensures p < |lines| && CanRetry(cfg, lines[p]) {
          RetriedLine(cfg, lines, proc, a, p);
        }
      }
      hide Truthful;
      assert m'.phase.Shipping? ==> m'.phase.round > 0;
    }
    hide TallyItems, Settle, Truthful;
  }

  ghost predicate ChunkOk(cfg: Config, lines: seq<Line>, proc: Proc) {
    ProcOk(cfg, |lines|, proc) && RoundsOk(cfg, lines, proc.m)
  }

  lemma ChunkOkActed(cfg: Config, lines: seq<Line>, docs: Docs, proc: Proc, act: Act)
    requires ChunkOk(cfg, lines, proc) && Can(lines, docs, proc, act)
    ensures ChunkOk(cfg, lines, Acted(cfg, |lines|, proc, act))
  {
    ProcOkActed(cfg, lines, docs, proc, act);
    hide ProcOk, Truthful, CanRetry;
    match act
    case Apply(_, _) =>
    case Returned(a) =>
      RoundsNext(cfg, lines, proc, a);
      hide Next, RoundsOk;
    case Restart =>
  }

  /* ---- errors ---- */

  lemma NewlySettled(cfg: Config, lines: seq<Line>, proc: Proc, a: Answer, p: nat)
    requires ProcOk(cfg, |lines|, proc) && proc.m.Active() && p in Carried(|lines|, proc.m) && p < |lines|
    requires !(p in proc.flight && Confirms(lines[p], proc.flight[p]))
    requires p in Next(cfg, |lines|, proc.m, a).settled
    requires SettledRight(lines, proc, a, Next(cfg, |lines|, proc.m, a), p)
    ensures Next(cfg, |lines|, proc.m, a).settled[p] == Error
  {
    assert p !in proc.m.settled;
    hide Next, Shaped, CountsMatch;
  }

  lemma ErrorCounted(n: nat, m: Machine, p: nat)
    requires Ledger(n, m) && p in m.settled && m.settled[p] == Error
    ensures m.counts.errors > 0
  {
    assert p in With(m.settled, Error);
  }

  /** Errors are never taken back within an attempt. */
  lemma ErrorsStay(cfg: Config, n: nat, m: Machine, a: Answer)
    ensures Next(cfg, n, m, a).counts.errors >= m.counts.errors
  {
    hide TallyItems, Settle;
    if m.Active() && a.Reply? && m.phase.Shipping? && a.items.Some? {
      var items := a.items.value;
      TallyErrors(cfg, m.phase.pending, m.phase.round, items, |items|, FirstTally(m));
    }
  }

  lemma {:induction false} TallyErrors(
    cfg: Config, pending: seq<nat>, round: nat, items: seq<Item>, k: nat, t0: Tally)
    requires k <= |items|
    ensures TallyItems(cfg, pending, round, items, k, t0).counts.errors >= t0.counts.errors
  {
    if k > 0 {
      TallyErrors(cfg, pending, round, items, k - 1, t0);
    }
  }

  /** A line that is not confirmed when its call ends is an error, or is sent again. */
  lemma UnconfirmedReturned(cfg: Config, lines: seq<Line>, proc: Proc, a: Answer, p: nat)
    requires ChunkOk(cfg, lines, proc) && proc.m.Active() && Truthful(lines, proc, a)
    requires p < |lines| && p in Carried(|lines|, proc.m)
    requires !(p in proc.flight && Confirms(lines[p], proc.flight[p]))
    ensures var m' := Next(cfg, |lines|, proc.m, a);
      m'.counts.errors > 0 || p in Carried(|lines|, m')
  {
    var m' := Next(cfg, |lines|, proc.m, a);
    ProcOkActed(cfg, lines, map[], proc, Returned(a));
    assert Ledger(|lines|, m');
    SettledNow(cfg, lines, proc, a, p);
    if p in m'.settled {
      NewlySettled(cfg, lines, proc, a, p);
      hide Next, Truthful, Confirms;
      ErrorCounted(|lines|, m', p);
    }
    hide Next, Truthful, Confirms, CountsMatch;
  }

  /* ---- all chunks of a write ---- */

  ghost predicate AllOk(job: Job, w: World) {
    |w.procs| == |job.layout| && forall c :: 0 <= c < |w.procs| ==> ChunkOk(job.cfg, job.layout[c], w.procs[c])
  }

  lemma AllOkBegin(job: Job, docs: Docs)
    ensures AllOk(job, Begin(job, docs))
  {
    hide ProcOk;
    forall k | 0 <= k < |job.layout| ensures ChunkOk(job.cfg, job.layout[k], Begin(job, docs).procs[k]) {
      ProcOkFresh(job.cfg, |job.layout[k]|, multiset{});
    }
  }

  lemma AllOkMoved(write: Write, rules: Rules, w: World, move: Move)
    requires AllOk(write.job, w) && Admits(write, rules, w, move)
    ensures AllOk(write.job, Moved(write, w, move))
  {
    var job := write.job;
    match move
    case Does(c, act) =>
      ChunkOkActed(job.cfg, job.layout[c], w.docs, w.procs[c], act);
      hide ChunkOk, Can, Acted, Effect, Follows, InWindow;
    case StartOver(k) =>
      forall c | 0 <= c < |w.procs|
        ensures ChunkOk(job.cfg, job.layout[c], Acted(job.cfg, |job.layout[c]|, w.procs[c], Restart))
      {
        ChunkOkActed(job.cfg, job.layout[c], w.docs, w.procs[c], Restart);
      }
      hide ChunkOk, Acted;
  }

  /* ---- serial application ---- */

  lemma {:induction false} FoldJoin(docs: Docs, a: seq<Line>, b: seq<Line>)
    ensures Fold(docs, a + b) == Fold(Fold(docs, a), b)
  {
    if b == [] {
      assert a + b == a;
    } else {
      assert (a + b)[..|a + b| - 1] == a + b[..|b| - 1];
      FoldJoin(docs, a, b[..|b| - 1]);
    }
  }

  lemma NothingSaid(lines: seq<Line>, docs: Docs, q: nat, status: int, id: Id)
    requires q < |lines| && !(IdOf(lines[q]) == Some(id) && Confirms(lines[q], status))
    ensures At(Effect(lines, docs, Apply(q, status)), id) == At(docs, id)
  {
  }

  lemma {:induction false} FoldUnnamed(docs: Docs, layout: seq<seq<Line>>, id: Id)
    requires forall c :: 0 <= c < |layout| ==> !Names(layout[c], id)
    ensures At(Fold(docs, Flatten(layout)), id) == At(docs, id)
  {
    if layout != [] {
      var k := |layout| - 1;
      FoldUnnamed(docs, layout[..k], id);
      FoldJoin(docs, Flatten(layout[..k]), layout[k]);
      FoldElsewhere(Fold(docs, Flatten(layout[..k])), layout[k], id);
    }
  }

  lemma {:induction false} UnnamedStays(write: Write, docs: Docs, moves: seq<Move>, id: Id)
    requires forall c :: 0 <= c < |write.job.layout| ==> !Names(write.job.layout[c], id)
    ensures At(After(write, docs, moves).docs, id) == At(docs, id)
  {
    if moves != [] {
      var front, move := moves[..|moves| - 1], moves[|moves| - 1];
      var w := After(write, docs, front);
      UnnamedStays(write, docs, front, id);
      if move.Does? && move.act.Apply? && Enabled(write.job, w, Event(move.c, move.act)) {
        NothingSaid(write.job.layout[move.c], w.docs, move.act.p, move.act.status, id);
      }
      hide Can, Acted, Names;
    }
  }
}
