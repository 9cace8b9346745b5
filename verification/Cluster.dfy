/** Many chunks shipped at once into one index. */
module Cluster {
  // Elasticsearch is a nondeterministic server: it applies the items of the calls in flight one at a time, in any
  // order and interleaved in any way, and may reject any item at any time. A run is any sequence of enabled events.
  // The environment is assumed to behave as follows, and nothing more is assumed of it:
  // - a full reply has one item per line sent, in order, with the status the server gave that line (`Truthful`);
  // - `errors: false` means that every line of the probe got a 2xx status (`Truthful`);
  // - an item that is not 2xx changed nothing; a 404 on a delete and a 201 on a create mean that the id was absent,
  //   a 409 on a create and a 2xx on a delete that it was present (`Allows`);
  // - a call that raised may have had any part of its items applied, but applies none after it has ended.
  // A line may be processed more than once within one call, as when the transport re-sends a timed-out request on its
  // own; what needs that not to happen says so.

  import opened Wrappers
  import opened BulkOutcome
  import opened ChunkProtocol
  import opened Documents

  type Docs = map<Id, Doc>

  function At(docs: Docs, id: Id): Option<Doc> {
    if id in docs then Some(docs[id]) else None
  }

  /** The index after the line was accepted. Documents with assigned ids are counted in `Proc.landed` instead. */
  function ApplyLine(docs: Docs, line: Line): Docs {
    match line
    case Index(Some(id), doc) => docs[id := doc]
    case Index(None, _) => docs
    case Create(id, doc) => if id in docs then docs else docs[id := doc]
    case Delete(id) => docs - {id}
  }

  /** Which statuses the server may give to a line when the index holds `docs`. */
  predicate Allows(docs: Docs, line: Line, status: int) {
    match line
    case Index(_, _) => true
    case Create(id, _) => (Is2xx(status) ==> id !in docs) && (status == 409 ==> id in docs)
    case Delete(id) => (Is2xx(status) ==> id in docs) && (status == 404 ==> id !in docs)
  }

  /** One chunk in flight: its machine, the statuses given to the lines of the current call, and how often the server
      has accepted each line since the run began. */
  datatype Proc = Proc(m: Machine, flight: map<nat, int>, landed: multiset<nat>)

  datatype Act =
    | Apply(p: nat, status: int)  // the server processes a line of the call in flight (possibly again)
    | Returned(a: Answer)         // the call ends
    | Restart                     // Spark starts the partition over

  function Fresh(cfg: Config, n: nat): Proc {
    Proc(Start(cfg, n), map[], multiset{})
  }

  predicate Truthful(lines: seq<Line>, proc: Proc, a: Answer) {
    a.Reply? ==>
      match proc.m.phase
      case Probing(_) =>
        a.errors == Some(false) ==> forall p: nat :: p < |lines| ==> p in proc.flight && Is2xx(proc.flight[p])
      case Shipping(pending, _, _) =>
        && a.items.Some?
        && |a.items.value| == |pending|
        && forall k :: 0 <= k < |pending| ==>
             && pending[k] < |lines| && pending[k] in proc.flight
             && a.items.value[k] == Item(OpOf(lines[pending[k]]), Some(proc.flight[pending[k]]))
      case _ => true
  }

  predicate Can(lines: seq<Line>, docs: Docs, proc: Proc, act: Act) {
    match act
    case Apply(p, status) => p < |lines| && p in Carried(|lines|, proc.m) && Allows(docs, lines[p], status)
    case Returned(a) => proc.m.Active() && Truthful(lines, proc, a)
    case Restart => true
  }

  function Acted(cfg: Config, n: nat, proc: Proc, act: Act): Proc {
    match act
    case Apply(p, status) =>
      proc.(flight := proc.flight[p := status],
            landed := if Is2xx(status) then proc.landed + multiset{p} else proc.landed)
    case Returned(a) => proc.(m := Next(cfg, n, proc.m, a), flight := map[])
    case Restart => proc.(m := Start(cfg, n), flight := map[])
  }

  function Effect(lines: seq<Line>, docs: Docs, act: Act): Docs {
    match act
    case Apply(p, status) => if p < |lines| && Is2xx(status) then ApplyLine(docs, lines[p]) else docs
    case _ => docs
  }

  /* ---- whole runs ---- */

  /** A write: its configuration and its chunks. */
  datatype Job = Job(cfg: Config, layout: seq<seq<Line>>)

  datatype World = World(docs: Docs, procs: seq<Proc>)

  datatype Event = Event(c: nat, act: Act)

  function Begin(job: Job, docs: Docs): World {
    World(docs, seq(|job.layout|, c requires 0 <= c < |job.layout| => Fresh(job.cfg, |job.layout[c]|)))
  }

  predicate Enabled(job: Job, w: World, e: Event) {
    e.c < |job.layout| && e.c < |w.procs| && Can(job.layout[e.c], w.docs, w.procs[e.c], e.act)
  }

  function Step(job: Job, w: World, e: Event): World {
    if !Enabled(job, w, e) then w else
    World(Effect(job.layout[e.c], w.docs, e.act),
          w.procs[e.c := Acted(job.cfg, |job.layout[e.c]|, w.procs[e.c], e.act)])
  }

  function Exec(job: Job, docs: Docs, events: seq<Event>): World {
    if events == [] then Begin(job, docs)
    else Step(job, Exec(job, docs, events[..|events| - 1]), events[|events| - 1])
  }

  /** `events` is a run of the job from `docs`: each event was enabled when it happened. */
  predicate Run(job: Job, docs: Docs, events: seq<Event>) {
    events != [] ==>
      && Run(job, docs, events[..|events| - 1])
      && Enabled(job, Exec(job, docs, events[..|events| - 1]), events[|events| - 1])
  }

  /** Every chunk has come to its end without an exception. */
  predicate Finished(w: World) {
    forall c :: 0 <= c < |w.procs| ==> w.procs[c].m.phase.Done?
  }

  ghost predicate Settled(proc: Proc) {
    proc.m.phase.Done? && proc.m.counts.errors == 0
  }

  /** Every chunk is done and has counted no error. */
  ghost predicate EndedWell(w: World) {
    forall c :: 0 <= c < |w.procs| ==> Settled(w.procs[c])
  }

  /* ---- what a reply tells about a line ---- */

  /** A line queued for retry was rejected, and a settled line has the outcome of its own item. */
  ghost predicate Reads(pending: seq<nat>, items: seq<Item>, k: nat, t: Tally)
    requires k <= |items| == |pending|
  {
    forall i :: 0 <= i < k ==>
      && (pending[i] in t.retry ==> IsRejection(items[i]))
      && (pending[i] in t.settled ==> t.settled[pending[i]] == OutcomeOf(items[i]))
  }

  lemma {:induction false} TallyReads(
    cfg: Config, pending: seq<nat>, round: nat, items: seq<Item>, k: nat, t0: Tally)
    requires k <= |items| == |pending| && Increasing(pending) && t0.retry == [] && !t0.broken
    requires CountsMatch(t0.counts, t0.settled) && forall p :: p in pending ==> p !in t0.settled
    ensures Reads(pending, items, k, TallyItems(cfg, pending, round, items, k, t0))
  {
    if k > 0 {
      NotYetRead(cfg, pending, round, items, k, t0);
      hide CountsMatch, TallyItem, Reads, Increasing;
      TallyReads(cfg, pending, round, items, k - 1, t0);
      ReadsMore(cfg, pending, round, items, k, TallyItems(cfg, pending, round, items, k - 1, t0));
    } else {
      hide CountsMatch;
    }
  }

  lemma NotYetRead(cfg: Config, pending: seq<nat>, round: nat, items: seq<Item>, k: nat, t0: Tally)
    requires 0 < k <= |items| == |pending| && Increasing(pending) && t0.retry == [] && !t0.broken
    requires CountsMatch(t0.counts, t0.settled) && forall p :: p in pending ==> p !in t0.settled
    ensures var t := TallyItems(cfg, pending, round, items, k - 1, t0);
      !t.broken && pending[k - 1] !in t.settled && pending[k - 1] !in t.retry
  {
    TallyKeepsLedger(cfg, pending, round, items, k - 1, t0);
    assert pending[k - 1] !in pending[..k - 1] && pending[k - 1] !in t0.settled;
    hide CountsMatch, TallyItems, Increasing;
  }

  lemma ReadsMore(cfg: Config, pending: seq<nat>, round: nat, items: seq<Item>, k: nat, t: Tally)
    requires 0 < k <= |items| == |pending| && Increasing(pending) && !t.broken
    requires Reads(pending, items, k - 1, t)
    requires pending[k - 1] !in t.settled && pending[k - 1] !in t.retry
    ensures Reads(pending, items, k, TallyItem(cfg, pending, round, k - 1, items[k - 1], t))
  {
    forall i | 0 <= i < k - 1 ensures pending[i] != pending[k - 1] {
    }
  }

  /* ---- one chunk, step by step ---- */

  function StatusItem(lines: seq<Line>, proc: Proc, p: nat): Item
    requires p < |lines| && p in proc.flight
  {
    Item(OpOf(lines[p]), Some(proc.flight[p]))
  }

  ghost predicate ProcOk(cfg: Config, n: nat, proc: Proc) {
    && Shaped(cfg, n, proc.m)
    && Ledger(n, proc.m)
    && (forall p :: p in proc.flight ==> p in Carried(n, proc.m))
  }

  lemma CarriedBelow(cfg: Config, n: nat, m: Machine)
    requires Shaped(cfg, n, m)
    ensures forall p :: p in Carried(n, m) ==> p < n
  {
    AllPositions(n);
  }

  lemma ProcOkFresh(cfg: Config, n: nat, landed: multiset<nat>)
    ensures ProcOk(cfg, n, Proc(Start(cfg, n), map[], landed))
  {
    hide Shaped, Ledger, Start;
    ShapedStart(cfg, n);
    LedgerStart(cfg, n);
  }

  lemma ProcOkActed(cfg: Config, lines: seq<Line>, docs: Docs, proc: Proc, act: Act)
    requires ProcOk(cfg, |lines|, proc) && Can(lines, docs, proc, act)
    ensures ProcOk(cfg, |lines|, Acted(cfg, |lines|, proc, act))
  {
    hide Shaped, Ledger, Next, Start;
    match act
    case Apply(_, _) =>
    case Returned(a) =>
      ShapedNext(cfg, |lines|, proc.m, a);
      LedgerNext(cfg, |lines|, proc.m, a);
    case Restart =>
      ProcOkFresh(cfg, |lines|, proc.landed);
  }

  /** The reply in hand gives the line at `p` the outcome `o`, on the strength of the status the server gave it. */
  ghost predicate Judged(lines: seq<Line>, proc: Proc, p: nat, o: Outcome) {
    && p < |lines|
    && p in proc.flight
    && if proc.m.phase.Probing? then o == Written && Is2xx(proc.flight[p])
       else o == OutcomeOf(StatusItem(lines, proc, p))
  }

  /** What the end of a call may do to the entry of one line in the ledger. */
  ghost predicate SettledRight(lines: seq<Line>, proc: Proc, a: Answer, m': Machine, p: nat) {
    && (p in proc.m.settled ==> p in m'.settled && m'.settled[p] == proc.m.settled[p])
    && (p in m'.settled && p !in proc.m.settled ==>
          && p in Carried(|lines|, proc.m)
          && if a.Reply? then Judged(lines, proc, p, m'.settled[p]) else m'.settled[p] == Error)
  }

  lemma SettledByRound(cfg: Config, lines: seq<Line>, proc: Proc, a: Answer, p: nat)
    requires ProcOk(cfg, |lines|, proc) && proc.m.phase.Shipping? && a.Reply? && Truthful(lines, proc, a)
    ensures SettledRight(lines, proc, a, AfterRound(cfg, |lines|, proc.m, a), p)
    ensures p in Carried(|lines|, AfterRound(cfg, |lines|, proc.m, a)) ==>
              p < |lines| && p in proc.flight && !Is2xx(proc.flight[p]) && p in proc.m.phase.pending
  {
    hide CountsMatch, TallyItems;
    var items, pending, round := a.items.value, proc.m.phase.pending, proc.m.phase.round;
    TallyKeepsLedger(cfg, pending, round, items, |items|, FirstTally(proc.m));
    TallyReads(cfg, pending, round, items, |items|, FirstTally(proc.m));
    hide Increasing;
    assert pending[..|items|] == pending;
    if p in pending {
      var i :| 0 <= i < |pending| && pending[i] == p;
      assert items[i] == StatusItem(lines, proc, p);
    }
  }

  lemma SettledByProbe(cfg: Config, lines: seq<Line>, proc: Proc, a: Answer, p: nat)
    requires ProcOk(cfg, |lines|, proc) && proc.m.phase.Probing? && a.Reply? && Truthful(lines, proc, a)
    ensures SettledRight(lines, proc, a, AfterProbe(|lines|, proc.m, a), p)
  {
    hide CountsMatch;
    AllPositions(|lines|);
    SettleKeys(proc.m.settled, All(|lines|), Written);
  }

  lemma SettledByFailure(cfg: Config, lines: seq<Line>, proc: Proc, a: Answer, p: nat)
    requires ProcOk(cfg, |lines|, proc) && !a.Reply?
    ensures SettledRight(lines, proc, a, GiveUp(|lines|, proc.m, a), p)
  {
    hide CountsMatch, Shaped;
    SettleKeys(proc.m.settled, Carried(|lines|, proc.m), Error);
  }

  lemma SettledNow(cfg: Config, lines: seq<Line>, proc: Proc, a: Answer, p: nat)
    requires ProcOk(cfg, |lines|, proc) && proc.m.Active() && Truthful(lines, proc, a)
    ensures SettledRight(lines, proc, a, Next(cfg, |lines|, proc.m, a), p)
  {
    if SendsAgain(cfg, proc.m, a) {
      hide SettledRight;
      SettledUnmoved(cfg, lines, proc, a, p);
    } else {
      hide ProcOk, Truthful, AfterRound, AfterProbe, GiveUp, SettledRight;
      if !a.Reply? {
        SettledByFailure(cfg, lines, proc, a, p);
      } else if proc.m.phase.Probing? {
        SettledByProbe(cfg, lines, proc, a, p);
      } else {
        SettledByRound(cfg, lines, proc, a, p);
      }
    }
  }

  lemma SettledUnmoved(cfg: Config, lines: seq<Line>, proc: Proc, a: Answer, p: nat)
    ensures SettledRight(lines, proc, a, Resend(|lines|, proc.m, a), p)
  {
  }
}
