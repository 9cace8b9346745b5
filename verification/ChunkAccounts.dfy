/** The bookkeeping of one chunk over every script of answers. */
module ChunkAccounts {
  // The diagnostics ledger, the documents carried by its calls, the retry budget and the time spent sleeping.

  import opened BulkOutcome
  import opened ChunkProtocol

  /* ---- what one tally adds ---- */

  /** Rejections counted by bucket, against retries queued and errors tallied; and the retained diagnostics. */
  ghost predicate TallyBalance(t0: Tally, t: Tally) {
    !t.broken ==>
      && t.diag.docsRetried == t0.diag.docsRetried
      && t.diag.Rejected() + t0.counts.errors == t0.diag.Rejected() + |t.retry| + t.counts.errors
      && |t.failures| + t0.counts.errors == |t0.failures| + t.counts.errors
      && t0.counts.errors <= t.counts.errors
  }

  lemma {:induction false} TallyBalances(
    cfg: Config, pending: seq<nat>, round: nat, items: seq<Item>, k: nat, t0: Tally)
    requires k <= |items| && t0.retry == []
    ensures TallyBalance(t0, TallyItems(cfg, pending, round, items, k, t0))
  {
    if k > 0 {
      TallyBalances(cfg, pending, round, items, k - 1, t0);
      RejectionOutcome(items[k - 1]);
    }
  }

  lemma RejectionOutcome(item: Item)
    ensures IsRejection(item) <==> OutcomeOf(item) == Error
  {
  }

  /* ---- the ledger of rejections ---- */

  /** Every rejection is either a retry or an error tallied for its item, and every chunk with errors keeps a
      diagnostic of at least one. */
  ghost predicate Balanced(n: nat, m: Machine) {
    !m.phase.Crashed? ==>
      && m.dropped <= m.counts.errors
      && m.diag.Rejected() == m.diag.docsRetried + (m.counts.errors - m.dropped)
      && (n > 0 ==> (m.failures == [] <==> m.counts.errors == 0))
  }

  lemma BalancedStart(cfg: Config, n: nat)
    ensures Balanced(n, Start(cfg, n))
  {
  }

  lemma BalancedRound(cfg: Config, n: nat, m: Machine, a: Answer)
    requires Balanced(n, m) && m.phase.Shipping? && a.Reply?
    ensures Balanced(n, AfterRound(cfg, n, m, a))
  {
    if a.items.Some? {
      TallyBalances(cfg, m.phase.pending, m.phase.round, a.items.value, |a.items.value|, FirstTally(m));
    }
  }

  lemma BalancedNext(cfg: Config, n: nat, m: Machine, a: Answer)
    requires Shaped(cfg, n, m) && Balanced(n, m)
    ensures Balanced(n, Next(cfg, n, m, a))
  {
    hide AfterRound;
    AllPositions(n);
    if m.phase.Shipping? && a.Reply? {
      BalancedRound(cfg, n, m, a);
    }
  }

  /** The four reject buckets sum to the documents retried plus the errors tallied item by item. */
  lemma {:induction false} RejectionLedger(cfg: Config, n: nat, script: nat -> Answer, lo: nat, hi: nat)
    requires lo <= hi
    ensures Balanced(n, RunTo(cfg, n, script, lo, hi))
    decreases hi
  {
    hide Next, Shaped, Conserved, Balanced;
    if lo == hi {
      BalancedStart(cfg, n);
    } else {
      RejectionLedger(cfg, n, script, lo, hi - 1);
      ChunkConservation(cfg, n, script, lo, hi - 1);
      BalancedNext(cfg, n, RunTo(cfg, n, script, lo, hi - 1), script(hi - 1));
    }
  }

  /* ---- the documents carried by the calls ---- */

  function DocsSent(sends: seq<Send>): nat {
    if sends == [] then 0
    else DocsSent(sends[..|sends| - 1]) + |sends[|sends| - 1].carried|
  }

  predicate NoneRaised(sends: seq<Send>) {
    forall s :: s in sends ==> s.outcome == SendOk
  }

  /** The chunk was probed, the probe did not come back clean, and all its lines went out again. */
  predicate Reshipped(cfg: Config, m: Machine) {
    cfg.Probes() && m.sends != [] && !(m.phase.Done? && |m.sends| == 1)
  }

  ghost predicate Carriage(cfg: Config, n: nat, m: Machine) {
    NoneRaised(m.sends) && !m.phase.Crashed? ==>
      && DocsSent(m.sends) + |Carried(n, m)| == n + m.diag.docsRetried + (if Reshipped(cfg, m) then n else 0)
      && (m.phase.Probing? ==> m.sends == [] && m.diag.docsRetried == 0)
      && (cfg.Probes() ==> m.sends != [] || m.phase.Probing?)
      && (cfg.Probes() && |m.sends| == 1 ==> m.diag.docsRetried == 0)
  }

  lemma SentOneMore(n: nat, m: Machine, a: Answer)
    ensures DocsSent(Logged(n, m, a).sends) == DocsSent(m.sends) + |Carried(n, m)|
    ensures NoneRaised(Logged(n, m, a).sends) <==> NoneRaised(m.sends) && a.Reply?
  {
    var last := Send(Carried(n, m), SendOutcomeOf(a));
    assert (m.sends + [last])[..|m.sends|] == m.sends;
    assert last in m.sends + [last];
  }

  lemma CarriageStart(cfg: Config, n: nat)
    ensures Carriage(cfg, n, Start(cfg, n))
  {
    AllPositions(n);
  }

  lemma CarriageProbe(cfg: Config, n: nat, m: Machine, a: Answer)
    requires cfg.Probes() && Carriage(cfg, n, m) && m.phase.Probing? && a.Reply?
    ensures Carriage(cfg, n, AfterProbe(n, m, a))
  {
    hide Increasing;
    AllPositions(n);
    SentOneMore(n, m, a);
  }

  lemma CarriageRound(cfg: Config, n: nat, m: Machine, a: Answer)
    requires Shaped(cfg, n, m) && Carriage(cfg, n, m) && m.phase.Shipping? && a.Reply?
    ensures Carriage(cfg, n, AfterRound(cfg, n, m, a))
  {
    hide Increasing, DocsSent, NoneRaised, TallyItems;
    SentOneMore(n, m, a);
    if a.items.Some? {
      TallyBalances(cfg, m.phase.pending, m.phase.round, a.items.value, |a.items.value|, FirstTally(m));
    }
  }

  lemma CarriageNext(cfg: Config, n: nat, m: Machine, a: Answer)
    requires Shaped(cfg, n, m) && Carriage(cfg, n, m)
    ensures Carriage(cfg, n, Next(cfg, n, m, a))
  {
    hide AfterRound, AfterProbe, Increasing;
    if !m.Active() {
    } else if !a.Reply? {
      SentOneMore(n, m, a);
    } else if m.phase.Probing? {
      CarriageProbe(cfg, n, m, a);
    } else {
      CarriageRound(cfg, n, m, a);
    }
  }

  /** With no raised call, the calls carried every line once, once more after a probe that was not clean, and once
      more for every retried document. */
  lemma {:induction false} DocumentsSent(cfg: Config, n: nat, script: nat -> Answer, lo: nat, hi: nat)
    requires lo <= hi
    ensures Carriage(cfg, n, RunTo(cfg, n, script, lo, hi))
    decreases hi
  {
    hide Next, Shaped, Conserved, Carriage;
    if lo == hi {
      CarriageStart(cfg, n);
    } else {
      DocumentsSent(cfg, n, script, lo, hi - 1);
      ChunkConservation(cfg, n, script, lo, hi - 1);
      CarriageNext(cfg, n, RunTo(cfg, n, script, lo, hi - 1), script(hi - 1));
    }
  }

  /* ---- the retry budget ---- */

  /** The most bulk calls a machine can still make. */
  function CallsLeft(cfg: Config, m: Machine): int {
    var perSend := cfg.TimeoutBudget() + 1;
    match m.phase
    case Probing(tries) => perSend - tries + (cfg.maxRetriesPerDoc + 1) * perSend
    case Shipping(_, round, tries) => perSend - tries + (cfg.maxRetriesPerDoc - round) * perSend
    case _ => 0
  }

  function CallBudget(cfg: Config): nat {
    (cfg.maxRetriesPerDoc + 2) * (cfg.TimeoutBudget() + 1)
  }

  lemma MulStep(x: int, y: int)
    ensures (x + 1) * y == x * y + y
  {
  }

  /** Every call uses up some of the budget, so no chunk goes on forever. */
  lemma CallsLeftDrop(cfg: Config, n: nat, m: Machine, a: Answer)
    requires Shaped(cfg, n, m) && m.Active()
    ensures 0 <= CallsLeft(cfg, Next(cfg, n, m, a)) < CallsLeft(cfg, m)
  {
    hide Increasing, Settle, TallyItems;
    var perSend := cfg.TimeoutBudget() + 1;
    MulStep(cfg.maxRetriesPerDoc, perSend);
    if m.phase.Shipping? {
      var round := m.phase.round;
      MulStep(cfg.maxRetriesPerDoc - round - 1, perSend);
      if a.Reply? && a.items.Some? {
        TallyBreaks(cfg, m.phase.pending, round, a.items.value, |a.items.value|, FirstTally(m));
      }
      assert round < cfg.maxRetriesPerDoc ==> 0 <= (cfg.maxRetriesPerDoc - round - 1) * perSend;
    }
  }

  lemma {:induction false} CallsBounded(cfg: Config, n: nat, script: nat -> Answer, lo: nat, hi: nat)
    requires lo <= hi
    ensures var m := RunTo(cfg, n, script, lo, hi);
      |m.sends| + CallsLeft(cfg, m) <= CallBudget(cfg) && (m.Active() ==> hi - lo == |m.sends|)
    decreases hi
  {
    hide Next, Shaped, Conserved, CallsLeft;
    if lo == hi {
      BudgetAtStart(cfg, n);
    } else {
      CallsBounded(cfg, n, script, lo, hi - 1);
      ChunkConservation(cfg, n, script, lo, hi - 1);
      OneCallMore(cfg, n, RunTo(cfg, n, script, lo, hi - 1), script(hi - 1));
    }
  }

  lemma BudgetAtStart(cfg: Config, n: nat)
    ensures CallsLeft(cfg, Start(cfg, n)) <= CallBudget(cfg)
    ensures Start(cfg, n).sends == []
  {
    MulStep(cfg.maxRetriesPerDoc + 1, cfg.TimeoutBudget() + 1);
    MulStep(cfg.maxRetriesPerDoc, cfg.TimeoutBudget() + 1);
  }

  lemma OneCallMore(cfg: Config, n: nat, m: Machine, a: Answer)
    requires Shaped(cfg, n, m)
    ensures |Next(cfg, n, m, a).sends| == |m.sends| + if m.Active() then 1 else 0
    ensures |Next(cfg, n, m, a).sends| + CallsLeft(cfg, Next(cfg, n, m, a)) <= |m.sends| + CallsLeft(cfg, m)
    ensures Next(cfg, n, m, a).Active() ==> m.Active()
  {
    hide Shaped, CallsLeft;
    if m.Active() {
      CallsLeftDrop(cfg, n, m, a);
    }
  }

  /** With R per-document retries and T time-out retries a chunk makes at most (R + 2) * (T + 1) bulk calls, and
      after that many answers it has ended, whatever they were. */
  lemma RetryBudget(cfg: Config, n: nat, script: nat -> Answer, lo: nat, hi: nat)
    requires lo <= hi
    ensures |RunTo(cfg, n, script, lo, hi).sends| <= CallBudget(cfg)
    ensures hi - lo >= CallBudget(cfg) ==> !RunTo(cfg, n, script, lo, hi).Active()
  {
    CallsBounded(cfg, n, script, lo, hi);
    var m := RunTo(cfg, n, script, lo, hi);
    ChunkConservation(cfg, n, script, lo, hi);
    if m.Active() {
      CallsLeftDrop(cfg, n, m, Failed);
    } else {
      assert CallsLeft(cfg, m) == 0;
    }
  }

  /* ---- time asleep ---- */

  lemma {:induction false} Pow2Grows(k: nat)
    ensures k >= 5 ==> Pow2(k) >= 32
  {
    if k > 5 {
      Pow2Grows(k - 1);
    } else if k == 5 {
      assert Pow2(5) == 2 * Pow2(4) == 4 * Pow2(3) == 8 * Pow2(2);
    }
  }

  /** `k` pauses of one retry loop last exactly 2 + 4 + ... seconds, each pause capped at 30. */
  lemma {:induction false} BackoffClosedForm(k: nat)
    ensures k <= 4 ==> BackoffTotal(k) == Pow2(k + 1) - 2
    ensures k >= 4 ==> BackoffTotal(k) == 30 * (k - 3)
  {
    if k > 0 {
      BackoffClosedForm(k - 1);
      Pow2Grows(k);
      if k <= 4 {
        assert Pow2(1) == 2 && Pow2(2) == 4;
        assert Pow2(3) == 8;
        assert Pow2(4) == 16;
        assert Pow2(5) == 32;
      }
    }
  }

  /** How many calls at the end of the log timed out one after the other. */
  function Trailing(sends: seq<Send>): nat {
    if sends == [] || sends[|sends| - 1].outcome != SendTimeout then 0 else 1 + Trailing(sends[..|sends| - 1])
  }

  /** The pauses after the timed-out calls of the log: each run of time-outs backs off from the beginning. */
  function TimeoutPauses(sends: seq<Send>): nat {
    if sends == [] then 0
    else TimeoutPauses(sends[..|sends| - 1]) + if Trailing(sends) == 0 then 0 else Backoff(Trailing(sends))
  }

  function RoundOf(m: Machine): nat {
    match m.phase
    case Shipping(_, round, _) => round
    case _ => 0
  }

  ghost predicate Rested(m: Machine) {
    m.Active() ==>
      && Tries(m) == Trailing(m.sends)
      && m.slept == BackoffTotal(RoundOf(m)) + TimeoutPauses(m.sends)
  }

  lemma RestedNext(cfg: Config, n: nat, m: Machine, a: Answer)
    requires Rested(m)
    ensures Rested(Next(cfg, n, m, a))
    ensures m.Active() && !Next(cfg, n, m, a).Active() ==> Next(cfg, n, m, a).slept == m.slept
  {
    hide TallyItems, Settle, Backoff;
    var last := Send(Carried(n, m), SendOutcomeOf(a));
    assert (m.sends + [last])[..|m.sends|] == m.sends;
  }

  /** A chunk has slept exactly the pauses of its retry rounds, from the beginning, and of its runs of time-outs; its
      last call is not followed by a pause. */
  lemma {:induction false} SleptExactly(cfg: Config, n: nat, script: nat -> Answer, lo: nat, hi: nat)
    requires lo <= hi
    ensures Rested(RunTo(cfg, n, script, lo, hi))
    ensures lo < hi && RunTo(cfg, n, script, lo, hi - 1).Active() && !RunTo(cfg, n, script, lo, hi).Active() ==>
              RunTo(cfg, n, script, lo, hi).slept == RunTo(cfg, n, script, lo, hi - 1).slept
    decreases hi
  {
    hide Next, Rested;
    if lo == hi {
      RestedStart(cfg, n);
    } else {
      SleptExactly(cfg, n, script, lo, hi - 1);
      RestedNext(cfg, n, RunTo(cfg, n, script, lo, hi - 1), script(hi - 1));
    }
  }

  lemma RestedStart(cfg: Config, n: nat)
    ensures Rested(Start(cfg, n))
  {
  }
}
