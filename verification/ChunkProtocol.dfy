/** The retry protocol that ships one chunk, as a machine over the answers of the bulk endpoint. */
module ChunkProtocol {
  // A chunk of `n` lines is addressed by positions 0..n-1. `Start` is the state before the first bulk call, `Next`
  // consumes the answer of one call, and `RunTo` runs the machine over an arbitrary script of answers. Every lemma
  // here holds for every script, that is, for every sequence of replies, time-outs and failures.

  import opened Wrappers
  import opened BulkOutcome

  datatype Config = Config(
    hasDeletes: bool,
    bypassFastPath: bool,
    bulkStats: bool,
    retryOnDocStatus: set<int>,
    maxRetriesPerDoc: nat,
    retryTransportTimeout: bool,
    transportMaxRetries: nat)
  {
    predicate Probes() {
      !hasDeletes && !bypassFastPath
    }

    /** How often one send is repeated after a time-out: never, unless the connector owns that retry. */
    function TimeoutBudget(): nat {
      if retryTransportTimeout then transportMaxRetries else 0
    }

    predicate Retries(item: Item, round: nat) {
      IsRejection(item) && StatusOf(item) in retryOnDocStatus && round < maxRetriesPerDoc
    }
  }

  /** What one bulk call gives back. A probe reply carries `errors`, a full reply carries `items`. */
  datatype Answer = Reply(errors: Option<bool>, items: Option<seq<Item>>) | TimedOut | Failed

  datatype Counts = Counts(written: nat, deleted: nat, ignored: nat, errors: nat) {
    function Total(): nat {
      written + deleted + ignored + errors
    }

    function Bump(o: Outcome): Counts {
      match o
      case Written => this.(written := written + 1)
      case Deleted => this.(deleted := deleted + 1)
      case Ignored => this.(ignored := ignored + 1)
      case Error => this.(errors := errors + 1)
    }

    function Plus(c: Counts): Counts {
      Counts(written + c.written, deleted + c.deleted, ignored + c.ignored, errors + c.errors)
    }
  }

  const NO_COUNTS := Counts(0, 0, 0, 0)

  datatype Diag = Diag(
    docsRetried: nat, rejected429: nat, rejected409: nat, rejected4xxOther: nat, rejected5xx: nat, docsDeduped: nat)
  {
    function Rejected(): nat {
      rejected429 + rejected409 + rejected4xxOther + rejected5xx
    }

    function Reject(b: Bucket): Diag {
      match b
      case Rejected429 => this.(rejected429 := rejected429 + 1)
      case Rejected409 => this.(rejected409 := rejected409 + 1)
      case Rejected4xxOther => this.(rejected4xxOther := rejected4xxOther + 1)
      case Rejected5xx => this.(rejected5xx := rejected5xx + 1)
    }

    function Plus(d: Diag): Diag {
      Diag(docsRetried + d.docsRetried, rejected429 + d.rejected429, rejected409 + d.rejected409,
           rejected4xxOther + d.rejected4xxOther, rejected5xx + d.rejected5xx, docsDeduped + d.docsDeduped)
    }
  }

  const NO_DIAG := Diag(0, 0, 0, 0, 0, 0)

  /** One retained diagnostic: a whole request that failed, or one rejected item. */
  datatype Sample = RequestFailed | ItemRejected(item: Item)

  datatype SendOutcome = SendOk | SendTimeout | SendError

  /** The record of one bulk call: the positions it carried and how it ended. */
  datatype Send = Send(carried: seq<nat>, outcome: SendOutcome)

  datatype Phase =
    | Probing(tries: nat)
    | Shipping(pending: seq<nat>, round: nat, tries: nat)
    | Done
    | Crashed  // an exception left the chunk: the partition fails

  /** `settled` gives the outcome tallied for a position; `dropped` counts the errors tallied for whole failed
      requests; `skew` sums, over the full replies, items received minus lines sent. */
  datatype Machine = Machine(
    phase: Phase, counts: Counts, settled: map<nat, Outcome>, failures: seq<Sample>,
    sends: seq<Send>, diag: Diag, slept: nat, dropped: nat, skew: int)
  {
    predicate Active() {
      phase.Probing? || phase.Shipping?
    }
  }

  /** All positions of a chunk, in order. */
  function All(n: nat): seq<nat> {
    seq(n, i => i)
  }

  function Pow2(k: nat): nat {
    if k == 0 then 1 else 2 * Pow2(k - 1)
  }

  /** The pause before attempt `k`, in seconds. */
  function Backoff(k: nat): nat {
    if Pow2(k) <= 30 then Pow2(k) else 30
  }

  function BackoffTotal(k: nat): nat {
    if k == 0 then 0 else BackoffTotal(k - 1) + Backoff(k)
  }

  function Settle(settled: map<nat, Outcome>, positions: seq<nat>, o: Outcome): map<nat, Outcome> {
    if positions == [] then settled
    else Settle(settled, positions[..|positions| - 1], o)[positions[|positions| - 1] := o]
  }

  /* ---- one full reply, item by item ---- */

  /** The accumulators of the item loop; `broken` records that a retry looked up a line that does not exist. */
  datatype Tally = Tally(
    counts: Counts, settled: map<nat, Outcome>, failures: seq<Sample>, diag: Diag, retry: seq<nat>, broken: bool)

  function TallyItem(cfg: Config, pending: seq<nat>, round: nat, idx: nat, item: Item, t: Tally): Tally {
    if t.broken then t else
    var diag := if IsRejection(item) then t.diag.Reject(RejectBucket(StatusOf(item))) else t.diag;
    if cfg.Retries(item, round) then
      if idx < |pending| then t.(diag := diag, retry := t.retry + [pending[idx]])
      else t.(diag := diag, broken := true)
    else
      var o := OutcomeOf(item);
      Tally(
        t.counts.Bump(o),
        if idx < |pending| then t.settled[pending[idx] := o] else t.settled,
        if o == Error then t.failures + [ItemRejected(item)] else t.failures,
        if o == Ignored && item.op == OpCreate && StatusOf(item) == 409
        then diag.(docsDeduped := diag.docsDeduped + 1) else diag,
        t.retry, false)
  }

  function TallyItems(cfg: Config, pending: seq<nat>, round: nat, items: seq<Item>, k: nat, t: Tally): Tally
    requires k <= |items|
  {
    if k == 0 then t
    else TallyItem(cfg, pending, round, k - 1, items[k - 1], TallyItems(cfg, pending, round, items, k - 1, t))
  }

  function FirstTally(m: Machine): Tally {
    Tally(m.counts, m.settled, m.failures, m.diag, [], false)
  }

  /* ---- the machine ---- */

  function BeginRounds(n: nat): Phase {
    if n == 0 then Done else Shipping(All(n), 0, 0)
  }

  function Start(cfg: Config, n: nat): Machine {
    Machine(if cfg.Probes() then Probing(0) else BeginRounds(n),
            NO_COUNTS, map[], [], [], NO_DIAG, 0, 0, 0)
  }

  /** The positions the chunk still has to account for, which are the ones the call in flight carries. */
  function Carried(n: nat, m: Machine): seq<nat> {
    match m.phase
    case Probing(_) => All(n)
    case Shipping(pending, _, _) => pending
    case _ => []
  }

  function Tries(m: Machine): nat {
    match m.phase
    case Probing(tries) => tries
    case Shipping(_, _, tries) => tries
    case _ => 0
  }

  function WithTries(p: Phase, tries: nat): Phase {
    match p
    case Probing(_) => Probing(tries)
    case Shipping(pending, round, _) => Shipping(pending, round, tries)
    case _ => p
  }

  function SendOutcomeOf(a: Answer): SendOutcome {
    match a
    case Reply(_, _) => SendOk
    case TimedOut => SendTimeout
    case Failed => SendError
  }

  predicate SendsAgain(cfg: Config, m: Machine, a: Answer) {
    a.TimedOut? && Tries(m) < cfg.TimeoutBudget()
  }

  function Logged(n: nat, m: Machine, a: Answer): Machine {
    m.(sends := m.sends + [Send(Carried(n, m), SendOutcomeOf(a))])
  }

  /** A timed-out call that is sent again after its pause. */
  function Resend(n: nat, m: Machine, a: Answer): Machine {
    Logged(n, m, a).(phase := WithTries(m.phase, Tries(m) + 1), slept := m.slept + Backoff(Tries(m) + 1))
  }

  /** A call that raised for good: every line it carried is an error. */
  function GiveUp(n: nat, m: Machine, a: Answer): Machine {
    var lost := Carried(n, m);
    Logged(n, m, a).(
      phase := Done,
      counts := m.counts.(errors := m.counts.errors + |lost|),
      settled := Settle(m.settled, lost, Error),
      failures := m.failures + [RequestFailed],
      dropped := m.dropped + |lost|)
  }

  function AfterProbe(n: nat, m: Machine, a: Answer): Machine
    requires a.Reply?
  {
    if a.errors == Some(false) then
      Logged(n, m, a).(
        phase := Done,
        counts := m.counts.(written := m.counts.written + n),
        settled := Settle(m.settled, All(n), Written))
    else
      Logged(n, m, a).(phase := BeginRounds(n))
  }

  function AfterRound(cfg: Config, n: nat, m: Machine, a: Answer): Machine
    requires m.phase.Shipping? && a.Reply?
  {
    match a.items
    case None => Logged(n, m, a).(phase := Crashed)
    case Some(items) =>
      var t := TallyItems(cfg, m.phase.pending, m.phase.round, items, |items|, FirstTally(m));
      if t.broken then Logged(n, m, a).(phase := Crashed) else
      Logged(n, m, a).(
        phase := if t.retry == [] then Done else Shipping(t.retry, m.phase.round + 1, 0),
        counts := t.counts, settled := t.settled, failures := t.failures,
        diag := t.diag.(docsRetried := t.diag.docsRetried + |t.retry|),
        slept := if t.retry == [] then m.slept else m.slept + Backoff(m.phase.round + 1),
        skew := m.skew + |items| - |m.phase.pending|)
  }

  function Next(cfg: Config, n: nat, m: Machine, a: Answer): Machine {
    if !m.Active() then m
    else if SendsAgain(cfg, m, a) then Resend(n, m, a)
    else if !a.Reply? then GiveUp(n, m, a)
    else if m.phase.Probing? then AfterProbe(n, m, a)
    else AfterRound(cfg, n, m, a)
  }

  /** The state after the answers `script(lo)`, ..., `script(hi - 1)`. */
  function RunTo(cfg: Config, n: nat, script: nat -> Answer, lo: nat, hi: nat): Machine
    requires lo <= hi
    decreases hi
  {
    if lo == hi then Start(cfg, n) else Next(cfg, n, RunTo(cfg, n, script, lo, hi - 1), script(hi - 1))
  }

  /* ---- shape of every reachable state ---- */

  predicate Increasing(s: seq<nat>) {
    forall i, j :: 0 <= i < j < |s| ==> s[i] < s[j]
  }

  predicate Shaped(cfg: Config, n: nat, m: Machine) {
    match m.phase
    case Probing(tries) =>
      cfg.Probes() && tries <= cfg.TimeoutBudget() && m.counts == NO_COUNTS && m.settled == map[] && m.skew == 0
    case Shipping(pending, round, tries) =>
      && tries <= cfg.TimeoutBudget()
      && round <= cfg.maxRetriesPerDoc
      && pending != []
      && Increasing(pending)
      && forall p :: p in pending ==> p < n
    case _ => true
  }

  /** After `k` items the lines queued for retry are pending lines, in order. */
  ghost predicate RetriesPending(pending: seq<nat>, k: nat, retry: seq<nat>) {
    && Increasing(retry)
    && (forall p :: p in retry ==> exists i :: 0 <= i < k && i < |pending| && pending[i] == p)
  }

  lemma {:induction false} TallyRetries(
    cfg: Config, pending: seq<nat>, round: nat, items: seq<Item>, k: nat, t0: Tally)
    requires k <= |items| && Increasing(pending) && t0.retry == []
    ensures RetriesPending(pending, k, TallyItems(cfg, pending, round, items, k, t0).retry)
  {
    if k > 0 {
      TallyRetries(cfg, pending, round, items, k - 1, t0);
      var retry := TallyItems(cfg, pending, round, items, k - 1, t0).retry;
      if k - 1 < |pending| {
        RetryMore(pending, k, retry);
      }
    }
  }

  lemma RetryMore(pending: seq<nat>, k: nat, retry: seq<nat>)
    requires 0 < k <= |pending| && Increasing(pending) && RetriesPending(pending, k - 1, retry)
    ensures RetriesPending(pending, k, retry + [pending[k - 1]])
  {
    var r := retry + [pending[k - 1]];
    forall i, j | 0 <= i < j < |r| ensures r[i] < r[j] {
      if j == |r| - 1 {
        assert retry[i] in retry;
      }
    }
  }

  lemma RetriesBelow(pending: seq<nat>, k: nat, retry: seq<nat>)
    requires RetriesPending(pending, k, retry)
    ensures forall p :: p in retry ==> p in pending
  {
  }

  /** A tally breaks only on a retry past the pending lines, and the last round queues no retry at all. */
  lemma {:induction false} TallyBreaks(
    cfg: Config, pending: seq<nat>, round: nat, items: seq<Item>, k: nat, t0: Tally)
    requires k <= |items| && t0.retry == [] && !t0.broken
    ensures round >= cfg.maxRetriesPerDoc ==> TallyItems(cfg, pending, round, items, k, t0).retry == []
    ensures round >= cfg.maxRetriesPerDoc || k <= |pending| ==>
              !TallyItems(cfg, pending, round, items, k, t0).broken
  {
    if k > 0 {
      TallyBreaks(cfg, pending, round, items, k - 1, t0);
    }
  }

  /** Every item is counted once or queued for retry. */
  lemma {:induction false} TallyCounts(
    cfg: Config, pending: seq<nat>, round: nat, items: seq<Item>, k: nat, t0: Tally)
    requires k <= |items| && t0.retry == []
    ensures var t := TallyItems(cfg, pending, round, items, k, t0);
            !t.broken ==> t.counts.Total() + |t.retry| == t0.counts.Total() + k
  {
    if k > 0 {
      TallyCounts(cfg, pending, round, items, k - 1, t0);
    }
  }

  lemma AllPositions(n: nat)
    ensures |All(n)| == n
    ensures Increasing(All(n))
    ensures forall p: nat :: p in All(n) <==> p < n
  {
    forall p: nat | p < n ensures p in All(n) {
      assert All(n)[p] == p;
    }
  }

  lemma ShapedStart(cfg: Config, n: nat)
    ensures Shaped(cfg, n, Start(cfg, n))
  {
    AllPositions(n);
  }

  lemma ShapedNext(cfg: Config, n: nat, m: Machine, a: Answer)
    requires Shaped(cfg, n, m)
    ensures Shaped(cfg, n, Next(cfg, n, m, a))
  {
    hide AfterRound;
    if m.phase.Shipping? && a.Reply? {
      RoundShape(cfg, n, m, a);
    }
  }

  /** What one full reply does to the machine: the retried lines are pending lines, in order, and every other item
      is counted once. */
  lemma RoundShape(cfg: Config, n: nat, m: Machine, a: Answer)
    requires Shaped(cfg, n, m) && m.phase.Shipping? && a.Reply?
    ensures Shaped(cfg, n, AfterRound(cfg, n, m, a))
    ensures Conserved(n, m) ==> Conserved(n, AfterRound(cfg, n, m, a))
  {
    hide Settle;
    if a.items.None? {
      return;
    }
    var items, pending, round := a.items.value, m.phase.pending, m.phase.round;
    TallyRetries(cfg, pending, round, items, |items|, FirstTally(m));
    TallyBreaks(cfg, pending, round, items, |items|, FirstTally(m));
    TallyCounts(cfg, pending, round, items, |items|, FirstTally(m));
    RetriesBelow(pending, |items|, TallyItems(cfg, pending, round, items, |items|, FirstTally(m)).retry);
  }

  /* ---- conservation of lines ---- */

  /** Outcomes tallied plus lines still pending make up the chunk, up to the skew of malformed replies. */
  ghost predicate Conserved(n: nat, m: Machine) {
    !m.phase.Crashed? ==> m.counts.Total() + |Carried(n, m)| == n + m.skew
  }

  lemma ConservedStart(cfg: Config, n: nat)
    ensures Conserved(n, Start(cfg, n))
  {
    assert Start(cfg, n).counts == Counts(0, 0, 0, 0);
  }

  lemma ConservedNext(cfg: Config, n: nat, m: Machine, a: Answer)
    requires Shaped(cfg, n, m) && Conserved(n, m)
    ensures Conserved(n, Next(cfg, n, m, a))
  {
    hide AfterRound, Shaped;
    if m.phase.Shipping? && a.Reply? {
      RoundShape(cfg, n, m, a);
    }
  }

  /** For every script: a chunk that ends without an exception has tallied exactly `n` outcomes plus the excess of
      items over lines (minus the shortfall), and what is pending is always an increasing list of its positions. */
  lemma {:induction false} ChunkConservation(cfg: Config, n: nat, script: nat -> Answer, lo: nat, hi: nat)
    requires lo <= hi
    ensures Shaped(cfg, n, RunTo(cfg, n, script, lo, hi))
    ensures Conserved(n, RunTo(cfg, n, script, lo, hi))
    decreases hi
  {
    hide Next, Shaped, Start;
    if lo == hi {
      ShapedStart(cfg, n);
      ConservedStart(cfg, n);
    } else {
      ChunkConservation(cfg, n, script, lo, hi - 1);
      var m := RunTo(cfg, n, script, lo, hi - 1);
      assert RunTo(cfg, n, script, lo, hi) == Next(cfg, n, m, script(hi - 1));
      ShapedNext(cfg, n, m, script(hi - 1));
      ConservedNext(cfg, n, m, script(hi - 1));
    }
  }

  /* ---- the ledger: which line was counted as what ---- */

  /** One response item per line sent, which is what Elasticsearch promises for a full reply. */
  predicate OnePerLine(m: Machine, a: Answer) {
    m.phase.Shipping? && a.Reply? ==> a.items.Some? && |a.items.value| == |m.phase.pending|
  }

  function With(settled: map<nat, Outcome>, o: Outcome): set<nat> {
    set p | p in settled && settled[p] == o
  }

  ghost predicate CountsMatch(counts: Counts, settled: map<nat, Outcome>) {
    && counts.written == |With(settled, Written)|
    && counts.deleted == |With(settled, Deleted)|
    && counts.ignored == |With(settled, Ignored)|
    && counts.errors == |With(settled, Error)|
  }

  ghost predicate SettledOrPending(n: nat, settled: map<nat, Outcome>, pending: seq<nat>) {
    && (forall p :: p in settled ==> p < n && p !in pending)
    && (forall p: nat :: p < n ==> p in settled || p in pending)
  }

  /** Every line is settled once, under the counter that counts it, or still pending. */
  ghost predicate Ledger(n: nat, m: Machine) {
    && !m.phase.Crashed?
    && CountsMatch(m.counts, m.settled)
    && SettledOrPending(n, m.settled, Carried(n, m))
  }

  lemma WithUpdate(settled: map<nat, Outcome>, p: nat, o: Outcome, q: Outcome)
    requires p !in settled
    ensures |With(settled[p := o], q)| == |With(settled, q)| + if q == o then 1 else 0
  {
    assert p !in With(settled, q);
    if q == o {
      WithSame(settled, p, o);
    } else {
      WithOther(settled, p, o, q);
    }
    hide With;
  }

  lemma WithSame(settled: map<nat, Outcome>, p: nat, o: Outcome)
    requires p !in settled
    ensures With(settled[p := o], o) == With(settled, o) + {p}
  {
  }

  lemma WithOther(settled: map<nat, Outcome>, p: nat, o: Outcome, q: Outcome)
    requires p !in settled && q != o
    ensures With(settled[p := o], q) == With(settled, q)
  {
  }

  lemma BumpMatches(counts: Counts, settled: map<nat, Outcome>, p: nat, o: Outcome)
    requires CountsMatch(counts, settled) && p !in settled
    ensures CountsMatch(counts.Bump(o), settled[p := o])
  {
    WithUpdate(settled, p, o, Written);
    WithUpdate(settled, p, o, Deleted);
    WithUpdate(settled, p, o, Ignored);
    WithUpdate(settled, p, o, Error);
  }

  lemma {:induction false} SettleKeys(settled: map<nat, Outcome>, ps: seq<nat>, o: Outcome)
    ensures forall p :: p in Settle(settled, ps, o) <==> p in settled || p in ps
    ensures forall p :: p in Settle(settled, ps, o) ==>
              Settle(settled, ps, o)[p] == if p in ps then o else settled[p]
  {
    if ps != [] {
      assert ps == ps[..|ps| - 1] + [ps[|ps| - 1]];
      SettleKeys(settled, ps[..|ps| - 1], o);
    }
  }

  function BumpBy(counts: Counts, o: Outcome, k: nat): Counts {
    if k == 0 then counts else BumpBy(counts, o, k - 1).Bump(o)
  }

  lemma {:induction false} SettleMatches(counts: Counts, settled: map<nat, Outcome>, ps: seq<nat>, o: Outcome)
    requires CountsMatch(counts, settled) && Increasing(ps)
    requires forall p :: p in ps ==> p !in settled
    ensures CountsMatch(BumpBy(counts, o, |ps|), Settle(settled, ps, o))
  {
    hide CountsMatch;
    if ps != [] {
      var front, last := ps[..|ps| - 1], ps[|ps| - 1];
      SettleMatches(counts, settled, front, o);
      SettleKeys(settled, front, o);
      BumpMatches(BumpBy(counts, o, |front|), Settle(settled, front, o), last, o);
    }
  }

  lemma {:induction false} BumpedBy(counts: Counts, k: nat)
    ensures BumpBy(counts, Written, k) == counts.(written := counts.written + k)
    ensures BumpBy(counts, Error, k) == counts.(errors := counts.errors + k)
  {
    if k > 0 {
      BumpedBy(counts, k - 1);
    }
  }

  /** After `k` items of a one-per-line reply: the first `k` pending lines are settled or queued for retry. */
  ghost predicate TallyLedger(pending: seq<nat>, k: nat, t0: Tally, t: Tally)
    requires k <= |pending|
  {
    && !t.broken
    && CountsMatch(t.counts, t.settled)
    && (forall p :: p in t.settled <==> p in t0.settled || (p in pending[..k] && p !in t.retry))
    && (forall p :: p in t.retry ==> p in pending[..k])
    && (forall p :: p in t0.settled ==> t.settled[p] == t0.settled[p])
  }

  lemma {:induction false} TallyKeepsLedger(
    cfg: Config, pending: seq<nat>, round: nat, items: seq<Item>, k: nat, t0: Tally)
    requires k <= |items| == |pending| && Increasing(pending) && t0.retry == [] && !t0.broken
    requires CountsMatch(t0.counts, t0.settled)
    requires forall p :: p in pending ==> p !in t0.settled
    ensures TallyLedger(pending, k, t0, TallyItems(cfg, pending, round, items, k, t0))
  {
    hide CountsMatch;
    if k > 0 {
      TallyKeepsLedger(cfg, pending, round, items, k - 1, t0);
      var t := TallyItems(cfg, pending, round, items, k - 1, t0);
      var p := pending[k - 1];
      assert pending[..k] == pending[..k - 1] + [p];
      assert p !in pending[..k - 1];
      if !cfg.Retries(items[k - 1], round) {
        BumpMatches(t.counts, t.settled, p, OutcomeOf(items[k - 1]));
      }
    }
  }

  lemma NothingSettled()
    ensures CountsMatch(NO_COUNTS, map[])
  {
    assert With(map[], Written) == {};
    assert With(map[], Deleted) == {};
    assert With(map[], Ignored) == {};
    assert With(map[], Error) == {};
  }

  lemma LedgerStart(cfg: Config, n: nat)
    ensures Ledger(n, Start(cfg, n))
  {
    NothingSettled();
    AllPositions(n);
  }

  lemma LedgerGiveUp(n: nat, m: Machine, a: Answer)
    requires Ledger(n, m) && Increasing(Carried(n, m))
    requires forall p :: p in Carried(n, m) ==> p < n
    ensures Ledger(n, GiveUp(n, m, a))
  {
    hide Increasing, CountsMatch;
    var lost := Carried(n, m);
    SettleKeys(m.settled, lost, Error);
    SettleMatches(m.counts, m.settled, lost, Error);
    BumpedBy(m.counts, |lost|);
  }

  lemma LedgerProbe(cfg: Config, n: nat, m: Machine, a: Answer)
    requires Shaped(cfg, n, m) && Ledger(n, m) && m.phase.Probing? && a.Reply?
    ensures Ledger(n, AfterProbe(n, m, a))
  {
    hide Increasing, CountsMatch;
    AllPositions(n);
    SettleKeys(m.settled, All(n), Written);
    SettleMatches(m.counts, m.settled, All(n), Written);
    BumpedBy(m.counts, n);
  }

  lemma LedgerRound(cfg: Config, n: nat, m: Machine, a: Answer)
    requires Shaped(cfg, n, m) && Ledger(n, m) && m.phase.Shipping? && a.Reply? && OnePerLine(m, a)
    ensures Ledger(n, AfterRound(cfg, n, m, a))
  {
    hide CountsMatch, Increasing;
    var items, pending := a.items.value, m.phase.pending;
    TallyKeepsLedger(cfg, pending, m.phase.round, items, |items|, FirstTally(m));
    assert pending[..|pending|] == pending;
  }

  lemma LedgerNext(cfg: Config, n: nat, m: Machine, a: Answer)
    requires Shaped(cfg, n, m) && Ledger(n, m) && OnePerLine(m, a)
    ensures Ledger(n, Next(cfg, n, m, a))
  {
    hide AfterRound, AfterProbe, GiveUp, CountsMatch, Increasing;
    if !m.Active() || SendsAgain(cfg, m, a) {
    } else if !a.Reply? {
      AllPositions(n);
      LedgerGiveUp(n, m, a);
    } else if m.phase.Probing? {
      LedgerProbe(cfg, n, m, a);
    } else {
      LedgerRound(cfg, n, m, a);
    }
  }

  ghost predicate OnePerLineThroughout(cfg: Config, n: nat, script: nat -> Answer, lo: nat, hi: nat)
    requires lo <= hi
    decreases hi
  {
    lo < hi ==>
      && OnePerLineThroughout(cfg, n, script, lo, hi - 1)
      && OnePerLine(RunTo(cfg, n, script, lo, hi - 1), script(hi - 1))
  }

  /** With one item per line: no chunk crashes, and every line adds one to exactly one counter. */
  lemma {:induction false} EveryLineCountedOnce(cfg: Config, n: nat, script: nat -> Answer, lo: nat, hi: nat)
    requires lo <= hi && OnePerLineThroughout(cfg, n, script, lo, hi)
    ensures Ledger(n, RunTo(cfg, n, script, lo, hi))
    decreases hi
  {
    hide Next, Shaped, Ledger, Start, OnePerLine, Conserved;
    if lo == hi {
      LedgerStart(cfg, n);
    } else {
      EveryLineCountedOnce(cfg, n, script, lo, hi - 1);
      ChunkConservation(cfg, n, script, lo, hi - 1);
      var m := RunTo(cfg, n, script, lo, hi - 1);
      LedgerNext(cfg, n, m, script(hi - 1));
    }
  }

  /** In a finished chunk without errors every line is counted as something else. */
  lemma NoErrorsSettled(n: nat, m: Machine, p: nat)
    requires Ledger(n, m) && m.phase.Done? && m.counts.errors == 0 && p < n
    ensures p in m.settled && m.settled[p] != Error
  {
    assert With(m.settled, Error) == {};
    assert p !in With(m.settled, Error);
  }
}
