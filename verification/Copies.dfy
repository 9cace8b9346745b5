/** How often the server accepts one line. */
module Copies {
  // For a line without an id every acceptance is one document in the index; for a create it is the one that added
  // its id.

  import opened Wrappers
  import opened BulkOutcome
  import opened ChunkProtocol
  import opened ChunkAccounts
  import opened Documents
  import opened Cluster

  /** 1 when the call in flight has had this line accepted. */
  function InFlight(proc: Proc, p: nat): nat {
    if p in proc.flight && Is2xx(proc.flight[p]) then 1 else 0
  }

  /** 1 when the line has been counted written or deleted. */
  function Kept(proc: Proc, p: nat): nat {
    if p in proc.m.settled && (proc.m.settled[p] == Written || proc.m.settled[p] == Deleted) then 1 else 0
  }

  /** The server processes no line of a call twice and nothing is started over. */
  predicate Once(proc: Proc, act: Act) {
    match act
    case Apply(p, _) => p !in proc.flight
    case Returned(_) => true
    case Restart => false
  }

  /** In addition, no call raises. */
  predicate Calm(proc: Proc, act: Act) {
    Once(proc, act) && (act.Returned? ==> act.a.Reply?)
  }

  /* ---- without raised calls: one copy, or one more after a probe that was not clean ---- */

  ghost predicate CopiesBounded(cfg: Config, proc: Proc) {
    && (proc.m.phase.Probing? ==> proc.m.sends == [])
    && (forall p ::
          && Kept(proc, p) + InFlight(proc, p) <= proc.landed[p] <= Kept(proc, p) + InFlight(proc, p) + 1
          && (!Reshipped(cfg, proc.m) ==> proc.landed[p] == Kept(proc, p) + InFlight(proc, p)))
  }

  lemma CopiesFresh(cfg: Config, n: nat)
    ensures CopiesBounded(cfg, Fresh(cfg, n))
  {
  }

  lemma CopiesApplied(cfg: Config, lines: seq<Line>, docs: Docs, proc: Proc, p: nat, status: int)
    requires ProcOk(cfg, |lines|, proc) && CopiesBounded(cfg, proc)
    requires Can(lines, docs, proc, Apply(p, status)) && p !in proc.flight
    ensures CopiesBounded(cfg, Acted(cfg, |lines|, proc, Apply(p, status)))
  {
    hide Shaped, CountsMatch, Reshipped;
    assert p !in proc.m.settled;
    var proc' := Acted(cfg, |lines|, proc, Apply(p, status));
    forall q ensures Kept(proc', q) == Kept(proc, q) {
    }
    forall q ensures proc'.landed[q] - InFlight(proc', q) == proc.landed[q] - InFlight(proc, q) {
    }
  }

  /** The end of a call moves each line's acceptance from the call in flight to the ledger. */
  lemma ReplyKeeps(cfg: Config, lines: seq<Line>, proc: Proc, a: Answer, p: nat)
    requires ProcOk(cfg, |lines|, proc) && proc.m.phase.Shipping? && a.Reply? && Truthful(lines, proc, a)
    ensures Kept(Acted(cfg, |lines|, proc, Returned(a)), p) == Kept(proc, p) + InFlight(proc, p)
  {
    hide Truthful, CountsMatch, Shaped;
    var m' := AfterRound(cfg, |lines|, proc.m, a);
    SettledByRound(cfg, lines, proc, a, p);
    LedgerOfReply(cfg, lines, proc, a);
    hide AfterRound;
    assert Next(cfg, |lines|, proc.m, a) == m';
    if p in proc.flight {
      assert p in m'.settled || p in Carried(|lines|, m');
    }
  }

  lemma LedgerOfReply(cfg: Config, lines: seq<Line>, proc: Proc, a: Answer)
    requires ProcOk(cfg, |lines|, proc) && proc.m.phase.Shipping? && a.Reply? && Truthful(lines, proc, a)
    ensures SettledOrPending(|lines|, AfterRound(cfg, |lines|, proc.m, a).settled,
                             Carried(|lines|, AfterRound(cfg, |lines|, proc.m, a)))
    ensures forall p :: p in proc.flight ==> p < |lines|
  {
    hide Shaped, CountsMatch, AfterRound;
    LedgerRound(cfg, |lines|, proc.m, a);
    CarriedBelow(cfg, |lines|, proc.m);
  }

  lemma CopiesAfterRound(cfg: Config, lines: seq<Line>, proc: Proc, a: Answer)
    requires ProcOk(cfg, |lines|, proc) && CopiesBounded(cfg, proc)
    requires proc.m.phase.Shipping? && a.Reply? && Truthful(lines, proc, a)
    ensures CopiesBounded(cfg, Acted(cfg, |lines|, proc, Returned(a)))
  {
    hide ProcOk, Truthful, Kept;
    var proc' := Acted(cfg, |lines|, proc, Returned(a));
    forall p ensures Kept(proc', p) == Kept(proc, p) + InFlight(proc, p) {
      ReplyKeeps(cfg, lines, proc, a, p);
    }
    ReshippedStays(cfg, |lines|, proc.m, a);
  }

  lemma ReshippedStays(cfg: Config, n: nat, m: Machine, a: Answer)
    requires m.phase.Shipping? && a.Reply?
    ensures !Reshipped(cfg, Next(cfg, n, m, a)) ==> !Reshipped(cfg, m)
    ensures !Next(cfg, n, m, a).phase.Probing?
  {
    hide TallyItems, Settle;
  }

  lemma CopiesAfterProbe(cfg: Config, lines: seq<Line>, proc: Proc, a: Answer)
    requires ProcOk(cfg, |lines|, proc) && CopiesBounded(cfg, proc)
    requires proc.m.phase.Probing? && a.Reply? && Truthful(lines, proc, a)
    ensures CopiesBounded(cfg, Acted(cfg, |lines|, proc, Returned(a)))
  {
    ProbeLeaves(cfg, |lines|, proc.m, a);
    hide ProcOk, Truthful, Kept, InFlight, Next, Reshipped;
    var proc' := Acted(cfg, |lines|, proc, Returned(a));
    forall p ensures Kept(proc', p) == if a.errors == Some(false) then InFlight(proc, p) else 0
             ensures Kept(proc, p) == 0 && InFlight(proc', p) == 0 && (lines == [] ==> InFlight(proc, p) == 0)
    {
      ProbeKeeps(cfg, lines, proc, a, p);
    }
    forall p ensures InFlight(proc, p) <= 1 {
      AtMostOne(proc, p);
    }
  }

  lemma AtMostOne(proc: Proc, p: nat)
    ensures InFlight(proc, p) <= 1
  {
  }

  lemma ProbeLeaves(cfg: Config, n: nat, m: Machine, a: Answer)
    requires Shaped(cfg, n, m) && m.phase.Probing? && a.Reply?
    ensures var m' := Next(cfg, n, m, a);
      && !m'.phase.Probing?
      && (m.sends == [] && !Reshipped(cfg, m') ==> a.errors == Some(false) || n == 0)
  {
    hide All, Settle;
  }

  lemma ProbeKeeps(cfg: Config, lines: seq<Line>, proc: Proc, a: Answer, p: nat)
    requires ProcOk(cfg, |lines|, proc) && proc.m.phase.Probing? && a.Reply? && Truthful(lines, proc, a)
    ensures var proc' := Acted(cfg, |lines|, proc, Returned(a));
      && Kept(proc', p) == (if a.errors == Some(false) then InFlight(proc, p) else 0)
      && Kept(proc, p) == 0 && InFlight(proc', p) == 0 && (lines == [] ==> InFlight(proc, p) == 0)
  {
    hide CountsMatch;
    AllPositions(|lines|);
    SettleKeys(proc.m.settled, All(|lines|), Written);
    hide All, Settle;
    assert Next(cfg, |lines|, proc.m, a) == AfterProbe(|lines|, proc.m, a);
  }

  lemma CopiesStep(cfg: Config, lines: seq<Line>, docs: Docs, proc: Proc, act: Act)
    requires ProcOk(cfg, |lines|, proc) && CopiesBounded(cfg, proc)
    requires Can(lines, docs, proc, act) && Calm(proc, act)
    ensures CopiesBounded(cfg, Acted(cfg, |lines|, proc, act))
  {
    hide ProcOk, CopiesBounded, Acted, Truthful;
    match act
    case Apply(p, status) => CopiesApplied(cfg, lines, docs, proc, p, status);
    case Returned(a) =>
      if proc.m.phase.Probing? {
        CopiesAfterProbe(cfg, lines, proc, a);
      } else {
        CopiesAfterRound(cfg, lines, proc, a);
      }
  }

  /* ---- in any case: no more copies than calls that carried the line ---- */

  function CallsCarrying(sends: seq<Send>, p: nat): nat {
    if sends == [] then 0
    else CallsCarrying(sends[..|sends| - 1], p) + if p in sends[|sends| - 1].carried then 1 else 0
  }

  ghost predicate CopiesPaidFor(proc: Proc) {
    forall p :: proc.landed[p] <= CallsCarrying(proc.m.sends, p) + InFlight(proc, p)
  }

  lemma OneCallMoreCarries(n: nat, m: Machine, a: Answer, p: nat)
    ensures CallsCarrying(Logged(n, m, a).sends, p) ==
      CallsCarrying(m.sends, p) + if p in Carried(n, m) then 1 else 0
  {
    assert Logged(n, m, a).sends[..|m.sends|] == m.sends;
  }

  lemma NextLogs(cfg: Config, n: nat, m: Machine, a: Answer)
    requires m.Active()
    ensures Next(cfg, n, m, a).sends == Logged(n, m, a).sends
  {
    hide TallyItems, Settle;
  }

  lemma PaidForStep(cfg: Config, lines: seq<Line>, docs: Docs, proc: Proc, act: Act)
    requires ProcOk(cfg, |lines|, proc) && CopiesPaidFor(proc)
    requires Can(lines, docs, proc, act) && Once(proc, act)
    ensures CopiesPaidFor(Acted(cfg, |lines|, proc, act))
  {
    hide Truthful, Shaped, Ledger, Next, Logged, CallsCarrying;
    if act.Returned? {
      NextLogs(cfg, |lines|, proc.m, act.a);
      forall p ensures CallsCarrying(Logged(|lines|, proc.m, act.a).sends, p) ==
          CallsCarrying(proc.m.sends, p) + if p in Carried(|lines|, proc.m) then 1 else 0
      {
        OneCallMoreCarries(|lines|, proc.m, act.a, p);
      }
    }
  }

  /* ---- over runs ---- */

  /** Every event that chunk `c` took part in was calm (or, for `calm == false`, applied each line at most once a
      call and started nothing again). */
  predicate Disciplined(job: Job, docs: Docs, events: seq<Event>, c: nat, calm: bool) {
    events != [] ==>
      var front, e := events[..|events| - 1], events[|events| - 1];
      var w := Exec(job, docs, front);
      && Disciplined(job, docs, front, c, calm)
      && (e.c == c && c < |w.procs| ==> Once(w.procs[c], e.act) && (calm ==> Calm(w.procs[c], e.act)))
  }

  ghost predicate Counted(cfg: Config, n: nat, proc: Proc, calm: bool) {
    && ProcOk(cfg, n, proc)
    && CopiesPaidFor(proc)
    && (calm ==> CopiesBounded(cfg, proc))
  }

  lemma CountedFresh(cfg: Config, n: nat, calm: bool)
    ensures Counted(cfg, n, Fresh(cfg, n), calm)
  {
    hide CopiesBounded, ProcOk;
    ProcOkFresh(cfg, n, multiset{});
    CopiesFresh(cfg, n);
  }

  lemma CountedStep(cfg: Config, lines: seq<Line>, docs: Docs, proc: Proc, act: Act, calm: bool)
    requires Counted(cfg, |lines|, proc, calm) && Can(lines, docs, proc, act)
    requires Once(proc, act) && (calm ==> Calm(proc, act))
    ensures Counted(cfg, |lines|, Acted(cfg, |lines|, proc, act), calm)
  {
    hide ProcOk, CopiesPaidFor, CopiesBounded, Can, Once, Calm, Acted;
    ProcOkActed(cfg, lines, docs, proc, act);
    PaidForStep(cfg, lines, docs, proc, act);
    if calm {
      CopiesStep(cfg, lines, docs, proc, act);
    }
  }

  lemma {:induction false} CopiesOverRun(job: Job, docs: Docs, events: seq<Event>, c: nat, calm: bool)
    requires Run(job, docs, events) && c < |job.layout| && Disciplined(job, docs, events, c, calm)
    ensures |Exec(job, docs, events).procs| == |job.layout|
    ensures Counted(job.cfg, |job.layout[c]|, Exec(job, docs, events).procs[c], calm)
  {
    hide Counted, Can, Acted, Once, Calm, Effect, Fresh;
    if events == [] {
      CountedFresh(job.cfg, |job.layout[c]|, calm);
    } else {
      var front, e := events[..|events| - 1], events[|events| - 1];
      CopiesOverRun(job, docs, front, c, calm);
      var w := Exec(job, docs, front);
      if e.c == c {
        CountedStep(job.cfg, job.layout[c], w.docs, w.procs[c], e.act, calm);
      }
    }
  }

  /** Copies of a line without an id, in runs without restarts in which no call processes a line twice. They never
      exceed the calls that carried the line; with no raised call a written line has one copy or two, exactly one unless
      the chunk was shipped again after a probe that was not clean, and without probes a line that failed has none. */
  lemma AutoIdCopies(job: Job, docs: Docs, events: seq<Event>, c: nat, p: nat, calm: bool)
    requires Run(job, docs, events) && c < |job.layout| && Disciplined(job, docs, events, c, calm)
    requires |Exec(job, docs, events).procs| == |job.layout|
    requires !Exec(job, docs, events).procs[c].m.Active()
    ensures
      var proc := Exec(job, docs, events).procs[c];
      && proc.landed[p] <= CallsCarrying(proc.m.sends, p)
      && (calm ==>
            && (Kept(proc, p) == 1 ==> 1 <= proc.landed[p] <= 2)
            && (Kept(proc, p) == 1 && !Reshipped(job.cfg, proc.m) ==> proc.landed[p] == 1)
            && (Kept(proc, p) == 0 && !job.cfg.Probes() ==> proc.landed[p] == 0))
  {
    hide Run, Disciplined, Exec, CallsCarrying, Shaped, Ledger;
    CopiesOverRun(job, docs, events, c, calm);
  }

  /* ---- over all attempts ---- */

  /** The server processes no line of chunk `c` twice within one call. */
  predicate OncePerCall(job: Job, docs: Docs, events: seq<Event>, c: nat) {
    events != [] ==>
      var front, e := events[..|events| - 1], events[|events| - 1];
      var w := Exec(job, docs, front);
      && OncePerCall(job, docs, front, c)
      && (e.c == c && c < |w.procs| && e.act.Apply? ==> e.act.p !in w.procs[c].flight)
  }

  /** The calls that carried line `p` of chunk `c` and are over: returned, raised or cut off by a restart. */
  function CallsEver(job: Job, docs: Docs, events: seq<Event>, c: nat, p: nat): nat {
    if events == [] then 0
    else
      var front, e := events[..|events| - 1], events[|events| - 1];
      var w := Exec(job, docs, front);
      CallsEver(job, docs, front, c, p) +
      if e.c == c < |w.procs| && c < |job.layout| && !e.act.Apply? && p in Carried(|job.layout[c]|, w.procs[c].m)
      then 1 else 0
  }

  lemma PaidEverStep(cfg: Config, lines: seq<Line>, docs: Docs, proc: Proc, act: Act, calls: nat, p: nat)
    requires ProcOk(cfg, |lines|, proc) && Can(lines, docs, proc, act)
    requires act.Apply? ==> act.p !in proc.flight
    requires proc.landed[p] <= calls + InFlight(proc, p)
    ensures var proc' := Acted(cfg, |lines|, proc, act);
      proc'.landed[p] <=
      calls + (if !act.Apply? && p in Carried(|lines|, proc.m) then 1 else 0) + InFlight(proc', p)
  {
    hide Truthful, Shaped, Ledger, Next, Start;
  }

  /** However often a partition is started over: if no call processes a line twice, a line is never accepted more often
      than calls have carried it. */
  lemma {:induction false} CopiesEver(job: Job, docs: Docs, events: seq<Event>, c: nat, p: nat)
    requires Run(job, docs, events) && c < |job.layout| && OncePerCall(job, docs, events, c)
    ensures var w := Exec(job, docs, events);
      && |w.procs| == |job.layout| && ProcOk(job.cfg, |job.layout[c]|, w.procs[c])
      && w.procs[c].landed[p] <= CallsEver(job, docs, events, c, p) + InFlight(w.procs[c], p)
  {
    hide ProcOk, Can, Acted, Effect, Fresh, InFlight, Carried;
    if events == [] {
      CountedFresh(job.cfg, |job.layout[c]|, false);
      NothingLanded(job.cfg, |job.layout[c]|, p);
    } else {
      var front, e := events[..|events| - 1], events[|events| - 1];
      CopiesEver(job, docs, front, c, p);
      var w := Exec(job, docs, front);
      if e.c == c {
        ProcOkActed(job.cfg, job.layout[c], w.docs, w.procs[c], e.act);
        PaidEverStep(job.cfg, job.layout[c], w.docs, w.procs[c], e.act, CallsEver(job, docs, front, c, p), p);
      }
    }
  }

  lemma NothingLanded(cfg: Config, n: nat, p: nat)
    ensures Fresh(cfg, n).landed[p] == 0
  {
    hide Start;
  }
}
