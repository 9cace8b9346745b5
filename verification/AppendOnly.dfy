/** Writes whose lines are all creates. */
module AppendOnly {
  // In every run the index only grows; its growth lies between what was counted written and the lines sent, and
  // equals what was counted written when there is no probe, no call raises and none processes a line twice.

  import opened BulkOutcome
  import opened ChunkProtocol
  import opened Documents
  import opened Cluster
  import opened Copies

  predicate AllCreate(lines: seq<Line>) {
    forall i :: 0 <= i < |lines| ==> lines[i].Create?
  }

  predicate AllCreates(layout: seq<seq<Line>>) {
    forall c :: 0 <= c < |layout| ==> AllCreate(layout[c])
  }

  /** Every acceptance of a line by its chunk put the id of that line into the index. */
  ghost predicate Stored(docs: Docs, lines: seq<Line>, proc: Proc) {
    && (forall p :: p in proc.landed ==> p < |lines| && lines[p].Create? && lines[p].cid in docs)
    && (forall p :: proc.landed[p] <= 1)
  }

  /** What is counted written was accepted, nothing is counted deleted, and every ignored line is a dedup. */
  ghost predicate CreateLedger(lines: seq<Line>, proc: Proc) {
    && (forall p :: p in proc.m.settled && p < |lines| ==>
          proc.m.settled[p] != Deleted && (proc.m.settled[p] == Written ==> p in proc.landed))
    && (forall p :: p in proc.flight && Is2xx(proc.flight[p]) ==> p in proc.landed)
  }

  /** Under create the only expected no-op is a dedup. */
  predicate Deduped(m: Machine) {
    m.diag.docsDeduped == m.counts.ignored
  }

  ghost predicate CreateOk(cfg: Config, docs: Docs, lines: seq<Line>, proc: Proc) {
    ProcOk(cfg, |lines|, proc) && Stored(docs, lines, proc) && CreateLedger(lines, proc) && Deduped(proc.m)
  }

  lemma StoredApplied(lines: seq<Line>, docs: Docs, cfg: Config, proc: Proc, p: nat, status: int)
    requires AllCreate(lines) && Stored(docs, lines, proc) && Can(lines, docs, proc, Apply(p, status))
    ensures var proc', docs' := Acted(cfg, |lines|, proc, Apply(p, status)), Effect(lines, docs, Apply(p, status));
      && Stored(docs', lines, proc')
      && |docs'| + |proc.landed| == |docs| + |proc'.landed|
  {
    if Is2xx(status) {
      assert p !in proc.landed;
    }
  }

  lemma StoredElsewhere(lines: seq<Line>, docs: Docs, docs': Docs, proc: Proc)
    requires Stored(docs, lines, proc) && docs.Keys <= docs'.Keys
    ensures Stored(docs', lines, proc)
  {
  }

  lemma CreateLedgerReturned(cfg: Config, lines: seq<Line>, proc: Proc, a: Answer)
    requires AllCreate(lines) && ProcOk(cfg, |lines|, proc) && CreateLedger(lines, proc)
    requires proc.m.Active() && Truthful(lines, proc, a)
    ensures CreateLedger(lines, Acted(cfg, |lines|, proc, Returned(a)))
  {
    hide ProcOk, Truthful;
    var m' := Next(cfg, |lines|, proc.m, a);
    forall p | p in m'.settled && p < |lines| ensures
      m'.settled[p] != Deleted && (m'.settled[p] == Written ==> p in proc.landed)
    {
      SettledNow(cfg, lines, proc, a, p);
    }
  }

  lemma CreateLedgerApplied(cfg: Config, lines: seq<Line>, docs: Docs, proc: Proc, p: nat, status: int)
    requires CreateLedger(lines, proc) && Can(lines, docs, proc, Apply(p, status))
    ensures CreateLedger(lines, Acted(cfg, |lines|, proc, Apply(p, status)))
  {
  }

  lemma CreateLedgerRestarted(cfg: Config, lines: seq<Line>, proc: Proc)
    ensures CreateLedger(lines, Acted(cfg, |lines|, proc, Restart))
  {
  }

  lemma CreateStep(cfg: Config, lines: seq<Line>, docs: Docs, proc: Proc, act: Act)
    requires AllCreate(lines) && CreateOk(cfg, docs, lines, proc) && Can(lines, docs, proc, act)
    ensures CreateOk(cfg, Effect(lines, docs, act), lines, Acted(cfg, |lines|, proc, act))
  {
    var proc' := Acted(cfg, |lines|, proc, act);
    hide ProcOk, Truthful, AllCreate, Next, Stored, CreateLedger;
    assert ProcOk(cfg, |lines|, proc') by {
      ProcOkActed(cfg, lines, docs, proc, act);
    }
    assert Stored(Effect(lines, docs, act), lines, proc') by {
      StoredStep(lines, docs, cfg, proc, act);
    }
    assert CreateLedger(lines, proc') && Deduped(proc'.m) by {
      match act
      case Apply(p, status) => CreateLedgerApplied(cfg, lines, docs, proc, p, status);
      case Returned(a) =>
        CreateLedgerReturned(cfg, lines, proc, a);
        DedupsReturned(cfg, lines, proc, a);
      case Restart => CreateLedgerRestarted(cfg, lines, proc);
    }
  }

  lemma StoredStep(lines: seq<Line>, docs: Docs, cfg: Config, proc: Proc, act: Act)
    requires AllCreate(lines) && Stored(docs, lines, proc) && Can(lines, docs, proc, act)
    ensures Stored(Effect(lines, docs, act), lines, Acted(cfg, |lines|, proc, act))
  {
    if act.Apply? {
      StoredApplied(lines, docs, cfg, proc, act.p, act.status);
    }
  }

  /** The index grows by one for every acceptance. */
  lemma GrowthStep(cfg: Config, lines: seq<Line>, docs: Docs, proc: Proc, act: Act)
    requires AllCreate(lines) && CreateOk(cfg, docs, lines, proc) && Can(lines, docs, proc, act)
    ensures |Effect(lines, docs, act)| + |proc.landed| == |docs| + |Acted(cfg, |lines|, proc, act).landed|
  {
    hide ProcOk, CreateLedger, Truthful;
    if act.Apply? {
      StoredApplied(lines, docs, cfg, proc, act.p, act.status);
    }
  }

  lemma {:induction false} TallyDedups(
    cfg: Config, pending: seq<nat>, round: nat, items: seq<Item>, k: nat, t0: Tally)
    requires k <= |items| && forall i :: 0 <= i < |items| ==> items[i].Item? && items[i].op == OpCreate
    requires t0.diag.docsDeduped == t0.counts.ignored
    ensures var t := TallyItems(cfg, pending, round, items, k, t0); t.diag.docsDeduped == t.counts.ignored
  {
    if k > 0 {
      TallyDedups(cfg, pending, round, items, k - 1, t0);
      DedupItem(cfg, pending, round, k - 1, items[k - 1], TallyItems(cfg, pending, round, items, k - 1, t0));
      hide TallyItem;
    }
  }

  lemma DedupItem(cfg: Config, pending: seq<nat>, round: nat, k: nat, item: Item, t: Tally)
    requires item.Item? && item.op == OpCreate && t.diag.docsDeduped == t.counts.ignored
    ensures var t' := TallyItem(cfg, pending, round, k, item, t); t'.diag.docsDeduped == t'.counts.ignored
  {
  }

  lemma DedupsReturned(cfg: Config, lines: seq<Line>, proc: Proc, a: Answer)
    requires AllCreate(lines) && Deduped(proc.m) && proc.m.Active() && Truthful(lines, proc, a)
    ensures Deduped(Next(cfg, |lines|, proc.m, a))
  {
    hide Settle;
    if a.Reply? && proc.m.phase.Shipping? {
      var items := a.items.value;
      forall i | 0 <= i < |items| ensures items[i].Item? && items[i].op == OpCreate {
        assert lines[proc.m.phase.pending[i]].Create?;
      }
      TallyDedups(cfg, proc.m.phase.pending, proc.m.phase.round, items, |items|, FirstTally(proc.m));
    }
  }

  /** Every id of `before` has the same document in `after`. */
  ghost predicate KeepsDocs(before: Docs, after: Docs) {
    forall id :: id in before ==> id in after && after[id] == before[id]
  }

  /** A create never changes or removes what the index holds. */
  lemma EffectAppends(lines: seq<Line>, docs: Docs, act: Act)
    requires AllCreate(lines)
    ensures KeepsDocs(docs, Effect(lines, docs, act))
  {
  }

  /* ---- the whole index ---- */

  function SumLanded(procs: seq<Proc>): nat {
    if procs == [] then 0 else SumLanded(procs[..|procs| - 1]) + |procs[|procs| - 1].landed|
  }

  function SumWritten(procs: seq<Proc>): nat {
    if procs == [] then 0 else SumWritten(procs[..|procs| - 1]) + procs[|procs| - 1].m.counts.written
  }

  function SumLines(layout: seq<seq<Line>>): nat {
    if layout == [] then 0 else SumLines(layout[..|layout| - 1]) + |layout[|layout| - 1]|
  }

  lemma {:induction false} SumLandedUpdate(procs: seq<Proc>, c: nat, proc: Proc)
    requires c < |procs|
    ensures SumLanded(procs[c := proc]) + |procs[c].landed| == SumLanded(procs) + |proc.landed|
  {
    var k := |procs| - 1;
    if c == k {
      assert procs[c := proc][..k] == procs[..k];
    } else {
      assert procs[c := proc][..k] == procs[..k][c := proc];
      SumLandedUpdate(procs[..k], c, proc);
    }
  }

  lemma {:induction false} SumLandedFresh(cfg: Config, layout: seq<seq<Line>>, procs: seq<Proc>)
    requires forall c :: 0 <= c < |procs| ==> procs[c].landed == multiset{}
    ensures SumLanded(procs) == 0
  {
    if procs != [] {
      SumLandedFresh(cfg, layout, procs[..|procs| - 1]);
    }
  }

  ghost predicate Appended(docs0: Docs, job: Job, w: World) {
    && |w.procs| == |job.layout|
    && KeepsDocs(docs0, w.docs)
    && |w.docs| == |docs0| + SumLanded(w.procs)
    && (forall c :: 0 <= c < |w.procs| ==> CreateOk(job.cfg, w.docs, job.layout[c], w.procs[c]))
  }

  lemma AppendedStep(docs0: Docs, job: Job, w: World, e: Event)
    requires AllCreates(job.layout)
    requires Appended(docs0, job, w) && Enabled(job, w, e)
    ensures Appended(docs0, job, Step(job, w, e))
  {
    hide ProcOk, CreateLedger, Stored, Can, Acted, Effect;
    var lines, proc := job.layout[e.c], w.procs[e.c];
    var w' := Step(job, w, e);
    CreateStep(job.cfg, lines, w.docs, proc, e.act);
    GrowthStep(job.cfg, lines, w.docs, proc, e.act);
    EffectAppends(lines, w.docs, e.act);
    SumLandedUpdate(w.procs, e.c, w'.procs[e.c]);
    forall c | 0 <= c < |w.procs| && c != e.c ensures CreateOk(job.cfg, w'.docs, job.layout[c], w'.procs[c]) {
      StoredElsewhere(job.layout[c], w.docs, w'.docs, w.procs[c]);
    }
  }

  lemma AppendedBegin(job: Job, docs: Docs)
    ensures Appended(docs, job, Begin(job, docs))
  {
    hide ProcOk;
    var w := Begin(job, docs);
    forall c | 0 <= c < |job.layout| ensures CreateOk(job.cfg, docs, job.layout[c], w.procs[c]) {
      ProcOkFresh(job.cfg, |job.layout[c]|, multiset{});
    }
    SumLandedFresh(job.cfg, job.layout, w.procs);
  }

  /** Append-only: whatever the run does, no id that was in the index changes, and every id added was added by the
      one accepted create that some chunk holds for it. */
  lemma {:induction false} EveryRunAppends(job: Job, docs: Docs, events: seq<Event>)
    requires AllCreates(job.layout)
    requires Run(job, docs, events)
    ensures Appended(docs, job, Exec(job, docs, events))
  {
    hide Appended, Enabled, Step, Begin, AllCreate;
    if events == [] {
      AppendedBegin(job, docs);
    } else {
      EveryRunAppends(job, docs, events[..|events| - 1]);
      AppendedStep(docs, job, Exec(job, docs, events[..|events| - 1]), events[|events| - 1]);
    }
  }

  lemma StepKeeps(job: Job, w: World, e: Event)
    requires AllCreates(job.layout)
    ensures KeepsDocs(w.docs, Step(job, w, e).docs)
  {
    if Enabled(job, w, e) {
      EffectAppends(job.layout[e.c], w.docs, e.act);
    }
    hide Effect, Enabled, Acted;
  }

  /** At whatever moment a document is in the index, it stays there unchanged to the end of the run: documents added
      on the way as well as those that were there at the start. */
  lemma {:induction false} OnceThereAlwaysThere(job: Job, docs: Docs, events: seq<Event>, k: nat)
    requires AllCreates(job.layout)
    requires k <= |events|
    ensures KeepsDocs(Exec(job, docs, events[..k]).docs, Exec(job, docs, events).docs)
  {
    hide AllCreate, Step, Begin;
    if k == |events| {
      assert events[..k] == events;
    } else {
      var front := events[..|events| - 1];
      assert front[..k] == events[..k];
      OnceThereAlwaysThere(job, docs, front, k);
      StepKeeps(job, Exec(job, docs, front), events[|events| - 1]);
    }
  }

  /* ---- how far the index grows ---- */

  function Below(n: nat): set<nat> {
    set p | p in All(n)
  }

  lemma BelowIs(n: nat)
    ensures forall p: nat :: p in Below(n) <==> p < n
  {
    AllPositions(n);
  }

  lemma {:induction false} BelowSize(n: nat)
    ensures |Below(n)| == n
  {
    if n > 0 {
      BelowMore(n - 1);
      hide Below;
      BelowSize(n - 1);
    } else {
      AllPositions(0);
      assert Below(0) == {};
    }
  }

  lemma BelowMore(n: nat)
    ensures n !in Below(n) && Below(n + 1) == Below(n) + {n}
  {
    AllPositions(n);
    AllPositions(n + 1);
    hide All, Increasing;
  }

  lemma SubBag(a: multiset<nat>, b: multiset<nat>)
    requires a <= b
    ensures |a| <= |b|
  {
    assert b == a + (b - a);
  }

  /** Between what a chunk counts written and its lines lie the ids it added. */
  lemma ChunkGrowth(cfg: Config, docs: Docs, lines: seq<Line>, proc: Proc)
    requires CreateOk(cfg, docs, lines, proc)
    ensures proc.m.counts.written <= |proc.landed| <= |lines|
  {
    hide Shaped;
    CarriedBelow(cfg, |lines|, proc.m);
    var written := With(proc.m.settled, Written);
    assert multiset(written) <= proc.landed;
    SubBag(multiset(written), proc.landed);
    AllPositions(|lines|);
    assert proc.landed <= multiset(Below(|lines|));
    SubBag(proc.landed, multiset(Below(|lines|)));
    BelowSize(|lines|);
  }

  lemma {:induction false} SumsBound(cfg: Config, docs: Docs, layout: seq<seq<Line>>, procs: seq<Proc>)
    requires |procs| == |layout|
    requires forall c :: 0 <= c < |procs| ==> CreateOk(cfg, docs, layout[c], procs[c])
    ensures SumWritten(procs) <= SumLanded(procs) <= SumLines(layout)
  {
    hide CreateOk;
    if procs != [] {
      var k := |procs| - 1;
      SumsBound(cfg, docs, layout[..k], procs[..k]);
      ChunkGrowth(cfg, docs, layout[k], procs[k]);
    }
  }

  /** Growth of the index in any run of creates: at least what is counted written, at most the lines of the job. */
  lemma CreateGrowth(job: Job, docs: Docs, events: seq<Event>)
    requires AllCreates(job.layout)
    requires Run(job, docs, events)
    ensures var w := Exec(job, docs, events);
      |docs| + SumWritten(w.procs) <= |w.docs| <= |docs| + SumLines(job.layout)
  {
    EveryRunAppends(job, docs, events);
    hide CreateOk;
    SumsBound(job.cfg, Exec(job, docs, events).docs, job.layout, Exec(job, docs, events).procs);
  }

  /** A finished chunk has an outcome for every line, so that the upper bound is what it counted in all. */
  lemma FinishedTotal(n: nat, m: Machine)
    requires Ledger(n, m) && m.phase.Done?
    ensures m.counts.Total() == n
  {
    var w, d := With(m.settled, Written), With(m.settled, Deleted);
    var i, e := With(m.settled, Ignored), With(m.settled, Error);
    AllSettled(n, m.settled);
    OutcomesApart(m.settled);
    hide With, Below;
    BelowSize(n);
    assert |w + d| == |w| + |d| && |w + d + i| == |w + d| + |i|;
  }

  lemma AllSettled(n: nat, settled: map<nat, Outcome>)
    requires SettledOrPending(n, settled, [])
    ensures Below(n) ==
            With(settled, Written) + With(settled, Deleted) + With(settled, Ignored) + With(settled, Error)
  {
    AllPositions(n);
  }

  lemma OutcomesApart(settled: map<nat, Outcome>)
    ensures var w, d, i, e :=
        With(settled, Written), With(settled, Deleted), With(settled, Ignored), With(settled, Error);
      w !! d && w + d !! i && w + d + i !! e
  {
  }

  /** What the finished chunks counted as something other than deleted. */
  function SumCounted(procs: seq<Proc>): nat {
    if procs == [] then 0
    else
      var c := procs[|procs| - 1].m.counts;
      SumCounted(procs[..|procs| - 1]) + c.written + c.ignored + c.errors
  }

  lemma NothingDeleted(cfg: Config, docs: Docs, lines: seq<Line>, proc: Proc)
    requires CreateOk(cfg, docs, lines, proc) && proc.m.phase.Done?
    ensures proc.m.counts.deleted == 0
    ensures proc.m.counts.written + proc.m.counts.ignored + proc.m.counts.errors == |lines|
  {
    FinishedTotal(|lines|, proc.m);
    assert With(proc.m.settled, Deleted) == {};
  }

  lemma {:induction false} CountedIsLines(cfg: Config, docs: Docs, layout: seq<seq<Line>>, procs: seq<Proc>)
    requires |procs| == |layout|
    requires forall c :: 0 <= c < |procs| ==> CreateOk(cfg, docs, layout[c], procs[c]) && procs[c].m.phase.Done?
    ensures SumCounted(procs) == SumLines(layout)
  {
    hide CreateOk;
    if procs != [] {
      var k := |procs| - 1;
      CountedIsLines(cfg, docs, layout[..k], procs[..k]);
      NothingDeleted(cfg, docs, layout[k], procs[k]);
    }
  }

  /** A finished run of creates: the index has grown by at least `written` and at most written + ignored + errors,
      nothing is counted deleted, and every ignored line is counted as deduplicated. */
  lemma FinishedGrowth(job: Job, docs: Docs, events: seq<Event>)
    requires AllCreates(job.layout)
    requires Run(job, docs, events)
    requires Finished(Exec(job, docs, events))
    ensures var w := Exec(job, docs, events);
      && |docs| + SumWritten(w.procs) <= |w.docs| <= |docs| + SumCounted(w.procs)
      && forall c :: 0 <= c < |w.procs| ==>
           && w.procs[c].m.counts.deleted == 0
           && w.procs[c].m.diag.docsDeduped == w.procs[c].m.counts.ignored
  {
    hide AllCreate, Run, Exec;
    var w := Exec(job, docs, events);
    CreateGrowth(job, docs, events);
    EveryRunAppends(job, docs, events);
    forall c | 0 <= c < |w.procs| ensures
      w.procs[c].m.counts.deleted == 0 && w.procs[c].m.diag.docsDeduped == w.procs[c].m.counts.ignored
    {
      NothingDeleted(job.cfg, w.docs, job.layout[c], w.procs[c]);
    }
    hide CreateOk;
    CountedIsLines(job.cfg, w.docs, job.layout, w.procs);
  }

  /* ---- exact counts on the full path ---- */

  lemma ExactChunk(cfg: Config, docs: Docs, lines: seq<Line>, proc: Proc)
    requires CreateOk(cfg, docs, lines, proc) && CopiesBounded(cfg, proc) && !cfg.Probes() && proc.m.phase.Done?
    ensures |proc.landed| == proc.m.counts.written
    ensures proc.m.diag.docsDeduped == proc.m.counts.ignored
  {
    hide Shaped, Stored;
    var written := With(proc.m.settled, Written);
    forall p ensures proc.landed[p] == multiset(written)[p] {
      assert InFlight(proc, p) == 0;
    }
    assert proc.landed == multiset(written);
  }

  lemma {:induction false} SumsExact(cfg: Config, docs: Docs, layout: seq<seq<Line>>, procs: seq<Proc>)
    requires |procs| == |layout| && !cfg.Probes()
    requires forall c :: 0 <= c < |procs| ==> CreateOk(cfg, docs, layout[c], procs[c])
    requires forall c :: 0 <= c < |procs| ==> CopiesBounded(cfg, procs[c])
    requires forall c :: 0 <= c < |procs| ==> procs[c].m.phase.Done?
    ensures SumWritten(procs) == SumLanded(procs)
  {
    hide CreateOk, CopiesBounded;
    if procs != [] {
      var k := |procs| - 1;
      SumsExact(cfg, docs, layout[..k], procs[..k]);
      ExactChunk(cfg, docs, layout[k], procs[k]);
    }
  }

  /** Without probes, restarts and raised calls, and with no line processed twice within a call, the index grows by
      exactly what is counted written, and the documents counted as deduplicated are exactly those counted ignored. */
  lemma ExactCreateCounts(job: Job, docs: Docs, events: seq<Event>)
    requires AllCreates(job.layout)
    requires Run(job, docs, events) && !job.cfg.Probes()
    requires forall c :: 0 <= c < |job.layout| ==> Disciplined(job, docs, events, c, true)
    requires Finished(Exec(job, docs, events))
    ensures var w := Exec(job, docs, events);
      && |w.docs| == |docs| + SumWritten(w.procs)
      && forall c :: 0 <= c < |w.procs| ==> w.procs[c].m.diag.docsDeduped == w.procs[c].m.counts.ignored
  {
    hide AllCreate, CreateOk, CopiesBounded, Disciplined, Run, Exec;
    EveryRunAppends(job, docs, events);
    var w := Exec(job, docs, events);
    forall c | 0 <= c < |w.procs| ensures
      && CopiesBounded(job.cfg, w.procs[c])
      && w.procs[c].m.diag.docsDeduped == w.procs[c].m.counts.ignored
    {
      CopiesOverRun(job, docs, events, c, true);
      ExactChunk(job.cfg, w.docs, job.layout[c], w.procs[c]);
    }
    SumsExact(job.cfg, w.docs, job.layout, w.procs);
  }
}
