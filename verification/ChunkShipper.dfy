/** The shipping of one chunk as the connector runs it. */
module ChunkShipper {
  // A probe, then rounds of full sends, with every counter updated in place. `ShipNdjsonChunk` is proved to do
  // exactly what the machine of ChunkProtocol does on the same answers.

  import opened Wrappers
  import opened BulkOutcome
  import opened ChunkProtocol
  import opened Documents

  const ERROR_SAMPLE_CAP := 20

  function Cap(samples: seq<Sample>): seq<Sample> {
    if |samples| <= ERROR_SAMPLE_CAP then samples else samples[..ERROR_SAMPLE_CAP]
  }

  /** The client of one partition. `script` fixes, call by call, what the cluster will answer. */
  class EsClient {
    const script: nat -> Answer
    var calls: nat
    var sent: seq<seq<Line>>
    var slept: nat

    constructor (script: nat -> Answer)
      ensures this.script == script && calls == 0 && sent == [] && slept == 0
    {
      this.script := script;
      calls, sent, slept := 0, [], 0;
    }

    method Bulk(ops: seq<Line>) returns (a: Answer)
      modifies this`calls, this`sent
      ensures a == script(old(calls))
      ensures calls == old(calls) + 1 && sent == old(sent) + [ops]
    {
      a := script(calls);
      calls, sent := calls + 1, sent + [ops];
    }

    method Sleep(seconds: nat)
      modifies this`slept
      ensures slept == old(slept) + seconds
    {
      slept := slept + seconds;
    }
  }

  datatype SendStat = SendStat(docs: nat, outcome: SendOutcome)

  /** The accumulators a chunk is given: counters, retained samples, send records and diagnostics. */
  class Accounts {
    var counts: Counts
    var samples: seq<Sample>
    var stats: seq<SendStat>
    var diag: Diag

    constructor ()
      ensures counts == NO_COUNTS && samples == [] && stats == [] && diag == NO_DIAG
    {
      counts, samples, stats, diag := NO_COUNTS, [], [], NO_DIAG;
    }

    /** Keeps a diagnostic while there is room for it. */
    method Retain(s: Sample)
      requires |samples| <= ERROR_SAMPLE_CAP
      modifies this`samples
      ensures samples == Cap(old(samples) + [s])
    {
      if |samples| < ERROR_SAMPLE_CAP {
        samples := samples + [s];
      }
    }
  }

  lemma CapMore(a: seq<Sample>, b: seq<Sample>)
    ensures Cap(Cap(a) + b) == Cap(a + b)
  {
    if |a| > ERROR_SAMPLE_CAP {
      assert (a[..ERROR_SAMPLE_CAP] + b)[..ERROR_SAMPLE_CAP] == (a + b)[..ERROR_SAMPLE_CAP];
    }
  }

  /* ---- what the machine's log says was sent ---- */

  function LinesAt(lines: seq<Line>, positions: seq<nat>): seq<Line> {
    if positions == [] then []
    else
      var last := positions[|positions| - 1];
      LinesAt(lines, positions[..|positions| - 1]) + if last < |lines| then [lines[last]] else []
  }

  lemma {:induction false} LinesAtAll(lines: seq<Line>, k: nat)
    requires k <= |lines|
    ensures LinesAt(lines, All(k)) == lines[..k]
  {
    if k > 0 {
      AllPositions(k);
      assert All(k)[..k - 1] == All(k - 1);
      LinesAtAll(lines, k - 1);
    }
  }

  lemma WholeChunk(lines: seq<Line>)
    ensures LinesAt(lines, All(|lines|)) == lines && |All(|lines|)| == |lines|
  {
    AllPositions(|lines|);
    LinesAtAll(lines, |lines|);
    assert lines[..|lines|] == lines;
  }

  lemma LinesAtMore(lines: seq<Line>, positions: seq<nat>, p: nat)
    requires p < |lines|
    ensures LinesAt(lines, positions + [p]) == LinesAt(lines, positions) + [lines[p]]
  {
    assert (positions + [p])[..|positions|] == positions;
  }

  lemma {:induction false} LinesAtIndex(lines: seq<Line>, positions: seq<nat>)
    requires forall i :: 0 <= i < |positions| ==> positions[i] < |lines|
    ensures |LinesAt(lines, positions)| == |positions|
    ensures forall i :: 0 <= i < |positions| ==> LinesAt(lines, positions)[i] == lines[positions[i]]
  {
    if positions != [] {
      LinesAtIndex(lines, positions[..|positions| - 1]);
    }
  }

  /** The bodies of the logged calls, in order. */
  function Bodies(lines: seq<Line>, sends: seq<Send>): seq<seq<Line>> {
    if sends == [] then []
    else Bodies(lines, sends[..|sends| - 1]) + [LinesAt(lines, sends[|sends| - 1].carried)]
  }

  function StatsOf(sends: seq<Send>): seq<SendStat> {
    if sends == [] then []
    else
      var last := sends[|sends| - 1];
      StatsOf(sends[..|sends| - 1]) + [SendStat(|last.carried|, last.outcome)]
  }

  lemma LogMore(lines: seq<Line>, sends: seq<Send>, s: Send)
    ensures Bodies(lines, sends + [s]) == Bodies(lines, sends) + [LinesAt(lines, s.carried)]
    ensures StatsOf(sends + [s]) == StatsOf(sends) + [SendStat(|s.carried|, s.outcome)]
  {
    assert (sends + [s])[..|sends|] == sends;
  }

  /* ---- one send, repeated after time-outs ---- */

  function Repeat<T>(x: T, k: nat): (r: seq<T>)
    ensures |r| == k
  {
    if k == 0 then [] else Repeat(x, k - 1) + [x]
  }

  /** The machine after `k` timed-out calls that were sent again: the calls and the pauses are on its log. */
  function Retried(n: nat, m: Machine, k: nat): Machine {
    m.(phase := WithTries(m.phase, k),
       sends := m.sends + Repeat(Send(Carried(n, m), SendTimeout), k),
       slept := m.slept + BackoffTotal(k))
  }

  lemma RetriedOnce(n: nat, m: Machine, k: nat)
    requires m.Active() && Tries(m) == 0
    ensures Resend(n, Retried(n, m, k), TimedOut) == Retried(n, m, k + 1)
  {
  }

  lemma RetriedNever(n: nat, m: Machine)
    requires m.Active() && Tries(m) == 0
    ensures Retried(n, m, 0) == m
  {
    assert m.sends + [] == m.sends;
  }

  lemma RetriedTries(n: nat, m: Machine, k: nat)
    requires m.Active() && Tries(m) == 0
    ensures Retried(n, m, k).Active() && Tries(Retried(n, m, k)) == k
  {
  }

  lemma RetriedShape(n: nat, m: Machine, k: nat)
    requires m.Active() && Tries(m) == 0
    ensures var r := Retried(n, m, k); r == m.(phase := WithTries(m.phase, k), sends := r.sends, slept := r.slept)
  {
  }

  lemma ResendStep(cfg: Config, n: nat, m: Machine, script: nat -> Answer, lo: nat, at: nat)
    requires lo <= at && m == RunTo(cfg, n, script, lo, at)
    requires m.Active() && Tries(m) < cfg.TimeoutBudget() && script(at).TimedOut?
    ensures RunTo(cfg, n, script, lo, at + 1) == Resend(n, m, TimedOut)
  {
    hide Resend;
  }

  /** The answers number lo..hi-1 are all time-outs. */
  ghost predicate AllTimedOut(script: nat -> Answer, lo: nat, hi: nat) {
    forall i: nat :: lo <= i < hi ==> script(i).TimedOut?
  }

  lemma LastTimedOut(script: nat -> Answer, lo: nat, hi: nat)
    requires lo < hi && AllTimedOut(script, lo, hi)
    ensures AllTimedOut(script, lo, hi - 1) && script(hi - 1).TimedOut?
  {
  }

  /** Time-outs within the budget leave the machine where it was. */
  lemma {:induction false} TimeoutsRetried(
    cfg: Config, n: nat, script: nat -> Answer, lo: nat, at: nat, m: Machine, k: nat)
    requires lo <= at && m == RunTo(cfg, n, script, lo, at) && m.Active() && Tries(m) == 0
    requires k <= cfg.TimeoutBudget()
    requires AllTimedOut(script, at, at + k)
    ensures RunTo(cfg, n, script, lo, at + k) == Retried(n, m, k)
  {
    hide *;
    if k > 0 {
      LastTimedOut(script, at, at + k);
      TimeoutsRetried(cfg, n, script, lo, at, m, k - 1);
      RetriedTries(n, m, k - 1);
      RetriedOnce(n, m, k - 1);
      ResendStep(cfg, n, Retried(n, m, k - 1), script, lo, at + k - 1);
    } else {
      RetriedNever(n, m);
    }
  }

  lemma Assoc<T>(a: seq<T>, b: seq<T>, c: seq<T>)
    ensures a + (b + c) == (a + b) + c
  {
  }

  lemma {:induction false} RepeatBodies(lines: seq<Line>, sends: seq<Send>, s: Send, k: nat)
    ensures Bodies(lines, sends + Repeat(s, k)) == Bodies(lines, sends) + Repeat(LinesAt(lines, s.carried), k)
  {
    if k == 0 {
      assert sends + Repeat(s, 0) == sends;
    } else {
      hide Bodies, LinesAt;
      RepeatBodies(lines, sends, s, k - 1);
      LogMore(lines, sends + Repeat(s, k - 1), s);
      Assoc(sends, Repeat(s, k - 1), [s]);
      Assoc(Bodies(lines, sends), Repeat(LinesAt(lines, s.carried), k - 1), [LinesAt(lines, s.carried)]);
    }
  }

  lemma {:induction false} RepeatStats(lines: seq<Line>, sends: seq<Send>, s: Send, k: nat)
    ensures StatsOf(sends + Repeat(s, k)) == StatsOf(sends) + Repeat(SendStat(|s.carried|, s.outcome), k)
  {
    if k == 0 {
      assert sends + Repeat(s, 0) == sends;
    } else {
      hide StatsOf;
      var stat := SendStat(|s.carried|, s.outcome);
      RepeatStats(lines, sends, s, k - 1);
      LogMore(lines, sends + Repeat(s, k - 1), s);
      Assoc(sends, Repeat(s, k - 1), [s]);
      Assoc(StatsOf(sends), Repeat(stat, k - 1), [stat]);
    }
  }

  method SendOnce(es: EsClient, ops: seq<Line>, cfg: Config, acc: Accounts) returns (a: Answer)
    modifies es`calls, es`sent, acc`stats
    ensures a == es.script(old(es.calls))
    ensures es.calls == old(es.calls) + 1 && es.sent == old(es.sent) + [ops]
    ensures acc.stats == old(acc.stats) + if cfg.bulkStats then [SendStat(|ops|, SendOutcomeOf(a))] else []
  {
    a := es.Bulk(ops);
    if cfg.bulkStats {
      acc.stats := acc.stats + [SendStat(|ops|, SendOutcomeOf(a))];
    }
  }

  /** The records of a send that timed out `k` times before it ended as `a`. */
  function RetryStats(cfg: Config, docs: nat, k: nat, a: Answer): seq<SendStat> {
    if cfg.bulkStats then Repeat(SendStat(docs, SendTimeout), k) + [SendStat(docs, SendOutcomeOf(a))] else []
  }

  /** Sends `ops`, and sends them again with growing pauses while the call times out and the budget lasts. */
  method SendRetrying(es: EsClient, ops: seq<Line>, cfg: Config, acc: Accounts) returns (a: Answer, ghost retries: nat)
    modifies es`calls, es`sent, es`slept, acc`stats
    ensures retries <= cfg.TimeoutBudget()
    ensures es.calls == old(es.calls) + retries + 1 && a == es.script(es.calls - 1)
    ensures AllTimedOut(es.script, old(es.calls), es.calls - 1)
    ensures !(a.TimedOut? && retries < cfg.TimeoutBudget())
    ensures es.sent == old(es.sent) + Repeat(ops, retries + 1)
    ensures es.slept == old(es.slept) + BackoffTotal(retries)
    ensures acc.stats == old(acc.stats) + RetryStats(cfg, |ops|, retries, a)
  {
    var attempt := 0;
    retries := 0;
    while true
      invariant attempt == retries <= cfg.TimeoutBudget()
      invariant es.calls == old(es.calls) + retries
      invariant AllTimedOut(es.script, old(es.calls), es.calls)
      invariant es.sent == old(es.sent) + Repeat(ops, retries)
      invariant es.slept == old(es.slept) + BackoffTotal(retries)
      invariant acc.stats == old(acc.stats) +
        if cfg.bulkStats then Repeat(SendStat(|ops|, SendTimeout), retries) else []
      decreases cfg.TimeoutBudget() - attempt
    {
      a := SendOnce(es, ops, cfg, acc);
      if !a.TimedOut? || !cfg.retryTransportTimeout || attempt >= cfg.transportMaxRetries {
        return;
      }
      attempt := attempt + 1;
      retries := retries + 1;
      es.Sleep(Backoff(attempt));
    }
  }

  /* ---- one chunk ---- */

  /** What the client and the accumulators held when the chunk began. */
  datatype Before = Before(
    counts: Counts, samples: seq<Sample>, stats: seq<SendStat>, diag: Diag, sent: seq<seq<Line>>, slept: nat)

  /** The calls and pauses since then are those on the log of `m`. */
  predicate LogIs(
    b: Before, cfg: Config, lines: seq<Line>, m: Machine, sent: seq<seq<Line>>, slept: nat, stats: seq<SendStat>)
  {
    && sent == b.sent + Bodies(lines, m.sends)
    && slept == b.slept + m.slept
    && stats == b.stats + if cfg.bulkStats then StatsOf(m.sends) else []
  }

  /** The counters moved since then by the tallies of `m`. */
  predicate TallyIs(
    b: Before, cfg: Config, counts: Counts, failures: seq<Sample>, diag: Diag,
    counts': Counts, samples': seq<Sample>, diag': Diag)
  {
    && counts' == b.counts.Plus(counts)
    && samples' == Cap(b.samples + failures)
    && diag' == if cfg.bulkStats then b.diag.Plus(diag) else b.diag
  }

  lemma LogAfterSend(
    b: Before, cfg: Config, lines: seq<Line>, m: Machine, k: nat, a: Answer,
    sent: seq<seq<Line>>, slept: nat, stats: seq<SendStat>)
    requires LogIs(b, cfg, lines, m, sent, slept, stats) && m.Active() && Tries(m) == 0
    ensures
      var c := Carried(|lines|, m);
      LogIs(b, cfg, lines, Logged(|lines|, Retried(|lines|, m, k), a),
            sent + Repeat(LinesAt(lines, c), k + 1), slept + BackoffTotal(k),
            stats + if cfg.bulkStats then Repeat(SendStat(|c|, SendTimeout), k) + [SendStat(|c|, SendOutcomeOf(a))]
                    else [])
  {
    var c := Carried(|lines|, m);
    var timeout, last := Send(c, SendTimeout), Send(c, SendOutcomeOf(a));
    var sends := m.sends + Repeat(timeout, k);
    assert Logged(|lines|, Retried(|lines|, m, k), a).sends == sends + [last];
    assert Logged(|lines|, Retried(|lines|, m, k), a).slept == m.slept + BackoffTotal(k);
    hide Bodies, StatsOf, LinesAt, Logged, Retried, Carried;
    LogMore(lines, sends, last);
    RepeatBodies(lines, m.sends, timeout, k);
    RepeatStats(lines, m.sends, timeout, k);
    var body, stat := LinesAt(lines, c), SendStat(|c|, SendTimeout);
    Assoc(Bodies(lines, m.sends), Repeat(body, k), [body]);
    Assoc(b.sent, Bodies(lines, m.sends), Repeat(body, k + 1));
    Assoc(StatsOf(m.sends), Repeat(stat, k), [SendStat(|c|, SendOutcomeOf(a))]);
    Assoc(b.stats, StatsOf(m.sends), Repeat(stat, k) + [SendStat(|c|, SendOutcomeOf(a))]);
    Assoc(b.stats, [], []);
  }

  predicate Positions(n: nat, positions: seq<nat>) {
    forall i :: 0 <= i < |positions| ==> positions[i] < n
  }

  /** Tallies one item: a rejection is counted in its bucket; then the item is either put off or counted. */
  method TallyOne(item: Item, cfg: Config, acc: Accounts, retry: bool,
                  ghost b: Before, ghost pending: seq<nat>, ghost round: nat, ghost idx: nat, ghost t: Tally)
    requires !t.broken && retry == cfg.Retries(item, round) && (retry ==> idx < |pending|)
    requires TallyIs(b, cfg, t.counts, t.failures, t.diag, acc.counts, acc.samples, acc.diag)
    modifies acc`counts, acc`samples, acc`diag
    ensures var t' := TallyItem(cfg, pending, round, idx, item, t);
      TallyIs(b, cfg, t'.counts, t'.failures, t'.diag, acc.counts, acc.samples, acc.diag)
  {
    if cfg.bulkStats && IsRejection(item) {
      acc.diag := acc.diag.Reject(RejectBucket(StatusOf(item)));
    }
    if !retry {
      var outcome := OutcomeOf(item);
      acc.counts := acc.counts.Bump(outcome);
      if outcome == Ignored && cfg.bulkStats && item.op == OpCreate && StatusOf(item) == 409 {
        acc.diag := acc.diag.(docsDeduped := acc.diag.docsDeduped + 1);
      }
      if outcome == Error {
        CapMore(b.samples + t.failures, [ItemRejected(item)]);
        Assoc(b.samples, t.failures, [ItemRejected(item)]);
        acc.Retain(ItemRejected(item));
      }
    }
  }

  /** Goes through a full reply item by item and collects the lines to send again. */
  method TallyReply(items: seq<Item>, pending: seq<Line>, attempt: nat, cfg: Config, acc: Accounts,
                    ghost lines: seq<Line>, ghost positions: seq<nat>, ghost b: Before, ghost t0: Tally)
    returns (retryLines: seq<Line>, broken: bool)
    requires Positions(|lines|, positions) && pending == LinesAt(lines, positions)
    requires t0.retry == [] && !t0.broken
    requires TallyIs(b, cfg, t0.counts, t0.failures, t0.diag, acc.counts, acc.samples, acc.diag)
    modifies acc`counts, acc`samples, acc`diag
    ensures var t := TallyItems(cfg, positions, attempt, items, |items|, t0);
      && broken == t.broken
      && (!broken ==>
            && retryLines == LinesAt(lines, t.retry)
            && TallyIs(b, cfg, t.counts, t.failures, t.diag, acc.counts, acc.samples, acc.diag))
  {
    LinesAtIndex(lines, positions);
    retryLines := [];
    var idx := 0;
    ghost var t := t0;
    while idx < |items|
      invariant idx <= |items| && t == TallyItems(cfg, positions, attempt, items, idx, t0) && !t.broken
      invariant retryLines == LinesAt(lines, t.retry)
      invariant TallyIs(b, cfg, t.counts, t.failures, t.diag, acc.counts, acc.samples, acc.diag)
    {
      var retry := cfg.Retries(items[idx], attempt);
      if retry && idx >= |pending| {
        BrokenStays(cfg, positions, attempt, items, idx + 1, |items|, t0);
        return retryLines, true;
      }
      TallyOne(items[idx], cfg, acc, retry, b, positions, attempt, idx, t);
      if retry {
        LinesAtMore(lines, t.retry, positions[idx]);
        retryLines := retryLines + [pending[idx]];
      }
      t := TallyItem(cfg, positions, attempt, idx, items[idx], t);
      idx := idx + 1;
    }
    return retryLines, false;
  }

  lemma {:induction false} BrokenStays(
    cfg: Config, pending: seq<nat>, round: nat, items: seq<Item>, i: nat, k: nat, t0: Tally)
    requires i <= k <= |items| && TallyItems(cfg, pending, round, items, i, t0).broken
    ensures TallyItems(cfg, pending, round, items, k, t0).broken
  {
    if i < k {
      BrokenStays(cfg, pending, round, items, i, k - 1, t0);
    }
  }

  /** The machine and its log after one send that timed out `k` times and then got the answer `a`. */
  lemma SendStep(cfg: Config, lines: seq<Line>, script: nat -> Answer, lo: nat, at: nat, m: Machine,
                 k: nat, a: Answer)
    requires lo <= at && m == RunTo(cfg, |lines|, script, lo, at) && m.Active() && Tries(m) == 0
    requires k <= cfg.TimeoutBudget() && a == script(at + k)
    requires AllTimedOut(script, at, at + k)
    requires !(a.TimedOut? && k < cfg.TimeoutBudget())
    ensures RunTo(cfg, |lines|, script, lo, at + k + 1) == Next(cfg, |lines|, Retried(|lines|, m, k), a)
    ensures !SendsAgain(cfg, Retried(|lines|, m, k), a) && Retried(|lines|, m, k).Active()
    ensures Carried(|lines|, Retried(|lines|, m, k)) == Carried(|lines|, m)
  {
    hide Next;
    TimeoutsRetried(cfg, |lines|, script, lo, at, m, k);
    RetriedTries(|lines|, m, k);
  }

  /** The calls since the chunk began have brought the machine to `m`. */
  ghost predicate Ran(
    b: Before, cfg: Config, lines: seq<Line>, script: nat -> Answer, lo: nat, calls: nat, m: Machine,
    sent: seq<seq<Line>>, slept: nat, stats: seq<SendStat>)
  {
    && lo <= calls
    && m == RunTo(cfg, |lines|, script, lo, calls)
    && calls - lo == |m.sends|
    && LogIs(b, cfg, lines, m, sent, slept, stats)
  }

  /** The calls since the chunk began have brought the machine to `r`, whose last call was answered by `a`. */
  ghost predicate Answered(
    b: Before, cfg: Config, lines: seq<Line>, script: nat -> Answer, lo: nat, calls: nat, r: Machine, a: Answer,
    sent: seq<seq<Line>>, slept: nat, stats: seq<SendStat>)
  {
    && lo < calls
    && r.Active() && !SendsAgain(cfg, r, a)
    && Next(cfg, |lines|, r, a) == RunTo(cfg, |lines|, script, lo, calls)
    && calls - lo == |r.sends| + 1
    && LogIs(b, cfg, lines, Logged(|lines|, r, a), sent, slept, stats)
  }

  /** One send of the protocol, with its time-out retries. */
  method SendCarried(es: EsClient, ops: seq<Line>, cfg: Config, acc: Accounts, ghost lines: seq<Line>,
                     ghost b: Before, ghost lo: nat, ghost m: Machine)
    returns (a: Answer, ghost r: Machine)
    requires m.Active() && Tries(m) == 0
    requires ops == LinesAt(lines, Carried(|lines|, m)) && |ops| == |Carried(|lines|, m)|
    requires Ran(b, cfg, lines, es.script, lo, es.calls, m, es.sent, es.slept, acc.stats)
    modifies es`calls, es`sent, es`slept, acc`stats
    ensures Answered(b, cfg, lines, es.script, lo, es.calls, r, a, es.sent, es.slept, acc.stats)
    ensures r == m.(phase := WithTries(m.phase, Tries(r)), sends := r.sends, slept := r.slept)
    ensures es.calls > old(es.calls)
  {
    ghost var at, sent, slept, stats := es.calls, es.sent, es.slept, acc.stats;
    ghost var k;
    hide *;
    a, k := SendRetrying(es, ops, cfg, acc);
    assert es.calls == at + k + 1 && es.sent == sent + Repeat(LinesAt(lines, Carried(|lines|, m)), k + 1);
    assert acc.stats == stats + RetryStats(cfg, |Carried(|lines|, m)|, k, a);
    r := CarriedOnce(b, cfg, lines, es.script, lo, at, m, k, a, sent, slept, stats);
  }

  lemma CarriedAnswered(
    b: Before, cfg: Config, lines: seq<Line>, script: nat -> Answer, lo: nat, at: nat, m: Machine, k: nat, a: Answer,
    sent: seq<seq<Line>>, slept: nat, stats: seq<SendStat>)
    requires m.Active() && Tries(m) == 0
    requires Ran(b, cfg, lines, script, lo, at, m, sent, slept, stats)
    requires k <= cfg.TimeoutBudget() && a == script(at + k)
    requires AllTimedOut(script, at, at + k)
    requires !(a.TimedOut? && k < cfg.TimeoutBudget())
    ensures
      var c := Carried(|lines|, m);
      Answered(b, cfg, lines, script, lo, at + k + 1, Retried(|lines|, m, k), a,
               sent + Repeat(LinesAt(lines, c), k + 1), slept + BackoffTotal(k),
               stats + RetryStats(cfg, |c|, k, a))
  {
    hide LogIs, RunTo, Next, LinesAt, BackoffTotal;
    SendStep(cfg, lines, script, lo, at, m, k, a);
    LogAfterSend(b, cfg, lines, m, k, a, sent, slept, stats);
  }

  /** The machine after a send, and all it says about it. */
  lemma CarriedOnce(
    b: Before, cfg: Config, lines: seq<Line>, script: nat -> Answer, lo: nat, at: nat, m: Machine, k: nat, a: Answer,
    sent: seq<seq<Line>>, slept: nat, stats: seq<SendStat>) returns (r: Machine)
    requires m.Active() && Tries(m) == 0
    requires Ran(b, cfg, lines, script, lo, at, m, sent, slept, stats)
    requires k <= cfg.TimeoutBudget() && a == script(at + k)
    requires AllTimedOut(script, at, at + k)
    requires !(a.TimedOut? && k < cfg.TimeoutBudget())
    ensures
      var c := Carried(|lines|, m);
      && Answered(b, cfg, lines, script, lo, at + k + 1, r, a, sent + Repeat(LinesAt(lines, c), k + 1),
                  slept + BackoffTotal(k), stats + RetryStats(cfg, |c|, k, a))
      && r == m.(phase := WithTries(m.phase, Tries(r)), sends := r.sends, slept := r.slept)
  {
    hide Ran, Answered, Retried, RetryStats, Repeat, BackoffTotal, LinesAt;
    r := Retried(|lines|, m, k);
    RetriedTries(|lines|, m, k);
    RetriedShape(|lines|, m, k);
    CarriedAnswered(b, cfg, lines, script, lo, at, m, k, a, sent, slept, stats);
  }

  /** A request that raised for good: every line it carried becomes an error. */
  method FailClosed(lost: nat, acc: Accounts, cfg: Config, ghost lines: seq<Line>, ghost script: nat -> Answer,
                    ghost lo: nat, ghost calls: nat, ghost r: Machine, ghost a: Answer, ghost b: Before,
                    ghost sent: seq<seq<Line>>, ghost slept: nat) returns (ghost m: Machine)
    requires lost == |Carried(|lines|, r)| && !a.Reply?
    requires Answered(b, cfg, lines, script, lo, calls, r, a, sent, slept, acc.stats)
    requires TallyIs(b, cfg, r.counts, r.failures, r.diag, acc.counts, acc.samples, acc.diag)
    modifies acc`counts, acc`samples
    ensures m.phase.Done? && Ran(b, cfg, lines, script, lo, calls, m, sent, slept, acc.stats)
    ensures TallyIs(b, cfg, m.counts, m.failures, m.diag, acc.counts, acc.samples, acc.diag)
  {
    m := GiveUp(|lines|, r, a);
    GivenUp(b, cfg, lines, script, lo, calls, r, a, sent, slept, acc.stats);
    hide Answered, Ran, Settle;
    acc.counts := acc.counts.(errors := acc.counts.errors + lost);
    CapMore(b.samples + r.failures, [RequestFailed]);
    Assoc(b.samples, r.failures, [RequestFailed]);
    acc.Retain(RequestFailed);
  }

  lemma GivenUp(
    b: Before, cfg: Config, lines: seq<Line>, script: nat -> Answer, lo: nat, calls: nat, r: Machine, a: Answer,
    sent: seq<seq<Line>>, slept: nat, stats: seq<SendStat>)
    requires Answered(b, cfg, lines, script, lo, calls, r, a, sent, slept, stats) && !a.Reply?
    ensures Ran(b, cfg, lines, script, lo, calls, GiveUp(|lines|, r, a), sent, slept, stats)
  {
    hide RunTo, Bodies, StatsOf, Settle;
    assert Next(cfg, |lines|, r, a) == GiveUp(|lines|, r, a);
  }

  lemma Probed(
    b: Before, cfg: Config, lines: seq<Line>, script: nat -> Answer, lo: nat, calls: nat, r: Machine, a: Answer,
    sent: seq<seq<Line>>, slept: nat, stats: seq<SendStat>)
    requires Answered(b, cfg, lines, script, lo, calls, r, a, sent, slept, stats) && a.Reply? && r.phase.Probing?
    ensures Ran(b, cfg, lines, script, lo, calls, AfterProbe(|lines|, r, a), sent, slept, stats)
  {
    hide RunTo, Bodies, StatsOf, Settle;
    assert Next(cfg, |lines|, r, a) == AfterProbe(|lines|, r, a);
  }

  lemma RoundDone(
    b: Before, cfg: Config, lines: seq<Line>, script: nat -> Answer, lo: nat, calls: nat, r: Machine, a: Answer,
    sent: seq<seq<Line>>, slept: nat, stats: seq<SendStat>)
    requires Answered(b, cfg, lines, script, lo, calls, r, a, sent, slept, stats) && a.Reply? && r.phase.Shipping?
    ensures var m := AfterRound(cfg, |lines|, r, a);
      Ran(b, cfg, lines, script, lo, calls, m, sent,
          if m.phase.Shipping? then slept + Backoff(r.phase.round + 1) else slept, stats)
  {
    hide RunTo, Bodies, StatsOf, Settle, TallyItems;
    assert Next(cfg, |lines|, r, a) == AfterRound(cfg, |lines|, r, a);
  }

  /** Sends the whole chunk once for its `errors` flag alone. */
  method Probe(es: EsClient, lines: seq<Line>, cfg: Config, acc: Accounts,
               ghost b: Before, ghost lo: nat, ghost m0: Machine)
    returns (settled: bool, ghost m: Machine)
    requires m0.phase == Probing(0)
    requires Ran(b, cfg, lines, es.script, lo, es.calls, m0, es.sent, es.slept, acc.stats)
    requires TallyIs(b, cfg, m0.counts, m0.failures, m0.diag, acc.counts, acc.samples, acc.diag)
    modifies es`calls, es`sent, es`slept, acc
    ensures Ran(b, cfg, lines, es.script, lo, es.calls, m, es.sent, es.slept, acc.stats)
    ensures TallyIs(b, cfg, m.counts, m.failures, m.diag, acc.counts, acc.samples, acc.diag)
    ensures m.phase == if settled then Done else BeginRounds(|lines|)
  {
    WholeChunk(lines);
    hide Ran, Answered;
    ghost var r;
    var a;
    a, r := SendCarried(es, lines, cfg, acc, lines, b, lo, m0);
    if !a.Reply? {
      m := FailClosed(|lines|, acc, cfg, lines, es.script, lo, es.calls, r, a, b, es.sent, es.slept);
      return true, m;
    }
    Probed(b, cfg, lines, es.script, lo, es.calls, r, a, es.sent, es.slept, acc.stats);
    m := AfterProbe(|lines|, r, a);
    settled := a.errors == Some(false);
    if settled {
      acc.counts := acc.counts.(written := acc.counts.written + |lines|);
    }
  }

  lemma {:induction false} TallyRetriesIn(
    cfg: Config, pending: seq<nat>, round: nat, items: seq<Item>, k: nat, t0: Tally)
    requires k <= |items| && t0.retry == []
    ensures forall p :: p in TallyItems(cfg, pending, round, items, k, t0).retry ==> p in pending
  {
    if k > 0 {
      TallyRetriesIn(cfg, pending, round, items, k - 1, t0);
    }
  }

  lemma RetryLength(cfg: Config, lines: seq<Line>, pending: seq<nat>, round: nat, items: seq<Item>, t0: Tally)
    requires t0.retry == [] && Positions(|lines|, pending)
    ensures var retry := TallyItems(cfg, pending, round, items, |items|, t0).retry;
      |LinesAt(lines, retry)| == |retry|
  {
    TallyRetriesIn(cfg, pending, round, items, |items|, t0);
    var retry := TallyItems(cfg, pending, round, items, |items|, t0).retry;
    forall i | 0 <= i < |retry| ensures retry[i] < |lines| {
      assert retry[i] in retry;
    }
    LinesAtIndex(lines, retry);
  }

  /** Tallies the items of a full reply, and pauses if some lines have to be sent again. */
  method TakeReply(es: EsClient, items: seq<Item>, pending: seq<Line>, attempt: nat, cfg: Config, acc: Accounts,
                   ghost lines: seq<Line>, ghost b: Before, ghost r: Machine, ghost a: Answer)
    returns (retryLines: seq<Line>, broken: bool)
    requires r.phase.Shipping? && r.phase.round == attempt && a.Reply? && a.items == Some(items)
    requires Positions(|lines|, r.phase.pending) && pending == LinesAt(lines, r.phase.pending)
    requires TallyIs(b, cfg, r.counts, r.failures, r.diag, acc.counts, acc.samples, acc.diag)
    modifies es`slept, acc`counts, acc`samples, acc`diag
    ensures var m := AfterRound(cfg, |lines|, r, a);
      && broken == m.phase.Crashed?
      && es.slept == old(es.slept) + (if m.phase.Shipping? then Backoff(attempt + 1) else 0)
      && (!broken ==>
            && TallyIs(b, cfg, m.counts, m.failures, m.diag, acc.counts, acc.samples, acc.diag)
            && (retryLines == [] <==> m.phase.Done?)
            && (m.phase.Shipping? ==> retryLines == LinesAt(lines, m.phase.pending)))
  {
    retryLines, broken := TallyReply(items, pending, attempt, cfg, acc, lines, r.phase.pending, b, FirstTally(r));
    if broken {
      return;
    }
    RetryLength(cfg, lines, r.phase.pending, attempt, items, FirstTally(r));
    hide TallyItems, LinesAt;
    if retryLines != [] {
      if cfg.bulkStats {
        acc.diag := acc.diag.(docsRetried := acc.diag.docsRetried + |retryLines|);
      }
      es.Sleep(Backoff(attempt + 1));
    }
  }

  lemma RoundPhase(cfg: Config, n: nat, m: Machine, a: Answer)
    requires m.phase.Shipping? && a.Reply?
    ensures var m' := AfterRound(cfg, n, m, a);
      && (a.items.None? ==> m'.phase.Crashed?)
      && (m'.phase.Shipping? ==> m'.phase.round == m.phase.round + 1 && m'.phase.tries == 0)
      && !m'.phase.Probing?
  {
    hide TallyItems;
  }

  lemma RoundCarries(lines: seq<Line>, m: Machine)
    requires m.phase.Shipping? && Positions(|lines|, m.phase.pending)
    ensures m.Active() && Tries(m) == m.phase.tries && Carried(|lines|, m) == m.phase.pending
    ensures |LinesAt(lines, m.phase.pending)| == |m.phase.pending|
  {
    LinesAtIndex(lines, m.phase.pending);
  }

  /** Sending a round again leaves everything but the log as it was. */
  lemma Resent(n: nat, pending: seq<nat>, round: nat, m: Machine, r: Machine)
    requires m.phase == Shipping(pending, round, 0)
    requires r == m.(phase := WithTries(m.phase, Tries(r)), sends := r.sends, slept := r.slept)
    ensures r.phase == Shipping(pending, round, Tries(r)) && Carried(n, r) == pending
    ensures r.counts == m.counts && r.failures == m.failures && r.diag == m.diag
  {
  }

  /** One round of full sends: everything still pending goes out, and the retryable rejections come back. */
  method ShipRound(es: EsClient, pending: seq<Line>, attempt: nat, cfg: Config, acc: Accounts,
                   ghost lines: seq<Line>, ghost b: Before, ghost lo: nat, ghost m0: Machine)
    returns (retryLines: seq<Line>, crashed: bool, ghost m: Machine)
    requires m0.phase.Shipping? && m0.phase.round == attempt && m0.phase.tries == 0
    requires Positions(|lines|, m0.phase.pending) && pending == LinesAt(lines, m0.phase.pending)
    requires Ran(b, cfg, lines, es.script, lo, es.calls, m0, es.sent, es.slept, acc.stats)
    requires TallyIs(b, cfg, m0.counts, m0.failures, m0.diag, acc.counts, acc.samples, acc.diag)
    modifies es`calls, es`sent, es`slept, acc
    ensures Ran(b, cfg, lines, es.script, lo, es.calls, m, es.sent, es.slept, acc.stats)
    ensures crashed == m.phase.Crashed?
    ensures !crashed ==> TallyIs(b, cfg, m.counts, m.failures, m.diag, acc.counts, acc.samples, acc.diag)
    ensures !crashed ==>
      && (m.phase.Done? <==> retryLines == [])
      && (!m.phase.Done? ==>
            && m.phase.Shipping? && m.phase.round == attempt + 1 && m.phase.tries == 0
            && retryLines == LinesAt(lines, m.phase.pending))
  {
    ghost var open := m0.phase.pending;
    RoundCarries(lines, m0);
    hide *;
    ghost var r;
    var a;
    a, r := SendCarried(es, pending, cfg, acc, lines, b, lo, m0);
    Resent(|lines|, open, attempt, m0, r);
    if !a.Reply? {
      m := FailClosed(|pending|, acc, cfg, lines, es.script, lo, es.calls, r, a, b, es.sent, es.slept);
      return [], false, m;
    }
    RoundDone(b, cfg, lines, es.script, lo, es.calls, r, a, es.sent, es.slept, acc.stats);
    RoundPhase(cfg, |lines|, r, a);
    m := AfterRound(cfg, |lines|, r, a);
    if a.items.None? {
      return [], true, m;
    }
    retryLines, crashed := TakeReply(es, a.items.value, pending, attempt, cfg, acc, lines, b, r, a);
  }

  /** Ships one chunk. The calls it makes drive the machine from its start to an end state `m`; the counters, the
      samples, the diagnostics, the send records, the bodies sent and the time slept all move by what `m` records. */
  method ShipNdjsonChunk(es: EsClient, lines: seq<Line>, cfg: Config, acc: Accounts)
    returns (crashed: bool, ghost m: Machine)
    requires |acc.samples| <= ERROR_SAMPLE_CAP
    modifies es`calls, es`sent, es`slept, acc
    ensures es.calls == old(es.calls) + |m.sends|
    ensures m == RunTo(cfg, |lines|, es.script, old(es.calls), es.calls) && !m.Active()
    ensures crashed == m.phase.Crashed?
    ensures es.sent == old(es.sent) + Bodies(lines, m.sends) && es.slept == old(es.slept) + m.slept
    ensures acc.stats == old(acc.stats) + if cfg.bulkStats then StatsOf(m.sends) else []
    ensures !crashed ==>
      && acc.counts == old(acc.counts).Plus(m.counts)
      && acc.samples == Cap(old(acc.samples) + m.failures)
      && acc.diag == if cfg.bulkStats then old(acc.diag).Plus(m.diag) else old(acc.diag)
  {
    ghost var b := Before(acc.counts, acc.samples, acc.stats, acc.diag, es.sent, es.slept);
    ghost var lo := es.calls;
    m := Start(cfg, |lines|);
    crashed := false;
    StartTracks(b, cfg, lines, es.script, lo);
    FirstPhase(cfg, lines);
    hide *;
    if !cfg.hasDeletes && !cfg.bypassFastPath {
      var settled;
      settled, m := Probe(es, lines, cfg, acc, b, lo, m);
      if settled {
        RanSays(b, cfg, lines, es.script, lo, es.calls, m, es.sent, es.slept, acc.stats);
        TallySays(b, cfg, m, acc.counts, acc.samples, acc.diag);
        return;
      }
    }
    var pending, attempt := lines, 0;
    while |pending| > 0
      invariant Ran(b, cfg, lines, es.script, lo, es.calls, m, es.sent, es.slept, acc.stats)
      invariant TallyIs(b, cfg, m.counts, m.failures, m.diag, acc.counts, acc.samples, acc.diag)
      invariant if pending == [] then m.phase.Done? else
        && m.phase.Shipping? && m.phase.round == attempt && m.phase.tries == 0
        && pending == LinesAt(lines, m.phase.pending)
      invariant attempt <= cfg.maxRetriesPerDoc && !crashed
      decreases cfg.maxRetriesPerDoc - attempt
    {
      RanSays(b, cfg, lines, es.script, lo, es.calls, m, es.sent, es.slept, acc.stats);
      RunShaped(cfg, lines, es.script, lo, es.calls, m);
      pending, crashed, m := ShipRound(es, pending, attempt, cfg, acc, lines, b, lo, m);
      if crashed || pending == [] {
        RanSays(b, cfg, lines, es.script, lo, es.calls, m, es.sent, es.slept, acc.stats);
        if !crashed {
          TallySays(b, cfg, m, acc.counts, acc.samples, acc.diag);
        }
        return;
      }
      RanSays(b, cfg, lines, es.script, lo, es.calls, m, es.sent, es.slept, acc.stats);
      RunShaped(cfg, lines, es.script, lo, es.calls, m);
      attempt := attempt + 1;
    }
    RanSays(b, cfg, lines, es.script, lo, es.calls, m, es.sent, es.slept, acc.stats);
    TallySays(b, cfg, m, acc.counts, acc.samples, acc.diag);
  }

  lemma FirstPhase(cfg: Config, lines: seq<Line>)
    ensures Start(cfg, |lines|).phase == if cfg.Probes() then Probing(0) else BeginRounds(|lines|)
    ensures cfg.Probes() == (!cfg.hasDeletes && !cfg.bypassFastPath)
    ensures BeginRounds(|lines|) == if lines == [] then Done else Shipping(All(|lines|), 0, 0)
    ensures LinesAt(lines, All(|lines|)) == lines
  {
    WholeChunk(lines);
    hide All, LinesAt;
  }

  lemma RanSays(b: Before, cfg: Config, lines: seq<Line>, script: nat -> Answer, lo: nat, calls: nat, m: Machine,
                sent: seq<seq<Line>>, slept: nat, stats: seq<SendStat>)
    requires Ran(b, cfg, lines, script, lo, calls, m, sent, slept, stats)
    ensures lo <= calls && m == RunTo(cfg, |lines|, script, lo, calls) && calls == lo + |m.sends|
    ensures sent == b.sent + Bodies(lines, m.sends) && slept == b.slept + m.slept
    ensures stats == b.stats + if cfg.bulkStats then StatsOf(m.sends) else []
    ensures m.phase.Done? || m.phase.Crashed? ==> !m.Active()
  {
    hide RunTo, Bodies, StatsOf;
  }

  lemma TallySays(b: Before, cfg: Config, m: Machine, counts: Counts, samples: seq<Sample>, diag: Diag)
    requires TallyIs(b, cfg, m.counts, m.failures, m.diag, counts, samples, diag)
    ensures counts == b.counts.Plus(m.counts) && samples == Cap(b.samples + m.failures)
    ensures diag == if cfg.bulkStats then b.diag.Plus(m.diag) else b.diag
  {
    hide Cap;
  }

  lemma StartTracks(b: Before, cfg: Config, lines: seq<Line>, script: nat -> Answer, lo: nat)
    requires |b.samples| <= ERROR_SAMPLE_CAP
    ensures var m := Start(cfg, |lines|);
      && Ran(b, cfg, lines, script, lo, lo, m, b.sent, b.slept, b.stats)
      && TallyIs(b, cfg, m.counts, m.failures, m.diag, b.counts, b.samples, b.diag)
  {
    assert b.sent + [] == b.sent;
    assert b.stats + [] == b.stats;
    assert b.samples + [] == b.samples;
    assert Start(cfg, |lines|).sends == [] && Start(cfg, |lines|).counts == NO_COUNTS;
  }

  lemma RunShaped(cfg: Config, lines: seq<Line>, script: nat -> Answer, lo: nat, calls: nat, m: Machine)
    requires lo <= calls && m == RunTo(cfg, |lines|, script, lo, calls)
    ensures Shaped(cfg, |lines|, m)
    ensures m.phase.Shipping? ==> Positions(|lines|, m.phase.pending) && m.phase.round <= cfg.maxRetriesPerDoc
  {
    ChunkConservation(cfg, |lines|, script, lo, calls);
    if m.phase.Shipping? {
      var pending := m.phase.pending;
      assert forall i :: 0 <= i < |pending| ==> pending[i] in pending;
    }
  }
}
